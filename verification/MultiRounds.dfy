/** The rounds of `run`: in each, `select` waits and then reports those of its candidates that can be read, and a pass
    follows if it reports any. */
module MultiRounds {
  import opened Events
  import opened MultiModel
  import opened MultiInvariant
  import opened MultiGuarantees
  import opened MultiShutdown
  import opened MultiLoop
  import opened MultiReturn
  import opened MultiSteps
  import S = SelectEvent

  // ---------------------------------------------------------------------------------------------------------------
  // A round

  /** Of what others would do, what can happen. */
  function Happening(m: Multi, todo: seq<Event>): seq<Event>
    decreases |todo|
  {
    if todo == [] then []
    else if Other(todo[0]) && Enabled(m, todo[0]) then [todo[0]] + Happening(Next(m, todo[0]), todo[1..])
    else Happening(m, todo[1..])
  }

  /** While `select` waits over the table `order`, others do what they can of `others`; then it reports exactly those of the
      `candidates` that are in its table and can be read. With something reported there is a pass, and otherwise nothing. */
  ghost predicate IsRound(m: Multi, order: seq<Fd>, others: seq<Event>, candidates: set<Fd>, p: Pass) {
    && m.r.phase != Idle && p.waits == Happening(m, others) && AllOther(p.waits) && LegalPass(m, p)
    && (forall fd :: fd in p.ready <==> fd in candidates && fd in order && Readable(Woken(m, p), fd))
    && if p.ready == {} then p.events == [] else IsPass(m, order, p)
  }

  /** The table after a round. */
  function OrderNext(m: Multi, order: seq<Fd>, p: Pass): seq<Fd>
    requires LegalPass(m, p)
  {
    if p.ready == {} then order else OrderAfter(m, order, p)
  }

  /** What others would do while `select` waits, and what it might report. */
  datatype Selection = Selection(others: seq<Event>, candidates: set<Fd>)

  /** `passes` is what comes of `selections`, one round for each, until the loop has left. */
  ghost predicate AreRounds(m: Multi, order: seq<Fd>, selections: seq<Selection>, passes: seq<Pass>)
    decreases |passes|
  {
    if m.r.phase == Idle || selections == [] then passes == []
    else
      && passes != [] && IsRound(m, order, selections[0].others, selections[0].candidates, passes[0])
      && AreRounds(AfterPass(m, passes[0]), OrderNext(m, order, passes[0]), selections[1..], passes[1..])
  }

  ghost function AfterRounds(m: Multi, order: seq<Fd>, selections: seq<Selection>, passes: seq<Pass>): Multi
    requires AreRounds(m, order, selections, passes)
    decreases |passes|
  {
    if passes == [] then m
    else AfterRounds(AfterPass(m, passes[0]), OrderNext(m, order, passes[0]), selections[1..], passes[1..])
  }

  ghost function OrderLast(m: Multi, order: seq<Fd>, selections: seq<Selection>, passes: seq<Pass>): seq<Fd>
    requires AreRounds(m, order, selections, passes)
    decreases |passes|
  {
    if passes == [] then order
    else OrderLast(AfterPass(m, passes[0]), OrderNext(m, order, passes[0]), selections[1..], passes[1..])
  }

  /** All that happens in some rounds. */
  function Happened(passes: seq<Pass>): seq<Event> {
    if passes == [] then [] else passes[0].waits + passes[0].events + Happened(passes[1..])
  }

  lemma {:induction false} RoundsAreLegal(m: Multi, order: seq<Fd>, selections: seq<Selection>, passes: seq<Pass>)
    requires AreRounds(m, order, selections, passes)
    ensures Legal(m, Happened(passes)) && After(m, Happened(passes)) == AfterRounds(m, order, selections, passes)
    ensures |passes| <= |selections|
    ensures AfterRounds(m, order, selections, passes).r.phase != Idle ==> |passes| == |selections|
    decreases |passes|
  {
    if passes != [] {
      var p, n := passes[0], AfterPass(m, passes[0]);
      RoundsAreLegal(n, OrderNext(m, order, p), selections[1..], passes[1..]);
      RunConcat(m, p.waits, p.events);
      RunConcat(m, p.waits + p.events, Happened(passes[1..]));
    }
  }

  /** One more round. */
  lemma {:induction false} RoundsSnoc(m: Multi, order: seq<Fd>, selections: seq<Selection>, passes: seq<Pass>,
                                      w: Selection, p: Pass)
    requires AreRounds(m, order, selections, passes)
    requires IsRound(AfterRounds(m, order, selections, passes), OrderLast(m, order, selections, passes),
                     w.others, w.candidates, p)
    ensures AreRounds(m, order, selections + [w], passes + [p])
    ensures AfterRounds(m, order, selections + [w], passes + [p]) == AfterPass(AfterRounds(m, order, selections, passes), p)
    ensures OrderLast(m, order, selections + [w], passes + [p]) ==
            OrderNext(AfterRounds(m, order, selections, passes), OrderLast(m, order, selections, passes), p)
    decreases |passes|
  {
    var all, every := selections + [w], passes + [p];
    if passes == [] {
      assert selections == [];
      assert all == [w] && every == [p] && all[1..] == [] && every[1..] == [];
    } else {
      assert all[0] == selections[0] && every[0] == passes[0];
      assert all[1..] == selections[1..] + [w] && every[1..] == passes[1..] + [p];
      RoundsSnoc(AfterPass(m, passes[0]), OrderNext(m, order, passes[0]), selections[1..], passes[1..], w, p);
    }
  }

  /** Rounds that come after the loop has left do not take place. */
  lemma {:induction false} RoundsStop(m: Multi, order: seq<Fd>, selections: seq<Selection>, passes: seq<Pass>,
                                      more: seq<Selection>)
    requires AreRounds(m, order, selections, passes) && AfterRounds(m, order, selections, passes).r.phase == Idle
    ensures AreRounds(m, order, selections + more, passes)
    ensures AfterRounds(m, order, selections + more, passes) == AfterRounds(m, order, selections, passes)
    decreases |passes|
  {
    if passes != [] {
      assert (selections + more)[0] == selections[0] && (selections + more)[1..] == selections[1..] + more;
      RoundsStop(AfterPass(m, passes[0]), OrderNext(m, order, passes[0]), selections[1..], passes[1..], more);
    }
  }

  // ---------------------------------------------------------------------------------------------------------------
  // The loop returns

  /** `select` is told to look for all that it must report, a signal has been delivered when it returns, and nothing new is
      submitted. */
  ghost predicate PromptRound(m: Multi, candidates: set<Fd>, p: Pass)
    requires LegalPass(m, p)
  {
    && !Woken(m, p).k.pending
    && AllQuiet(p.waits) && AllQuiet(p.events)
    && forall fd | MustReport(Woken(m, p), fd) :: fd in candidates
  }

  ghost predicate AllPromptRounds(m: Multi, order: seq<Fd>, selections: seq<Selection>, passes: seq<Pass>)
    requires AreRounds(m, order, selections, passes)
    decreases |passes|
  {
    passes == [] ||
    (PromptRound(m, selections[0].candidates, passes[0]) &&
     AllPromptRounds(AfterPass(m, passes[0]), OrderNext(m, order, passes[0]), selections[1..], passes[1..]))
  }

  /** The number of rounds in which `select` looks at its table with no write to the control pipe in flight. */
  ghost function CalmRounds(m: Multi, order: seq<Fd>, selections: seq<Selection>, passes: seq<Pass>): nat
    requires AreRounds(m, order, selections, passes)
    decreases |passes|
  {
    if passes == [] then 0
    else
      One(Woken(m, passes[0]).q.unsent == 0)
      + CalmRounds(AfterPass(m, passes[0]), OrderNext(m, order, passes[0]), selections[1..], passes[1..])
  }

  lemma RoundIsPrompt(m: Multi, order: seq<Fd>, others: seq<Event>, candidates: set<Fd>, p: Pass)
    requires Inv(m) && Ordered(order, m.r.watched) && IsRound(m, order, others, candidates, p)
    requires PromptRound(m, candidates, p)
    ensures forall fd | MustReport(Woken(m, p), fd) :: fd in p.ready
  {
    WaitsKeep(m, p.waits);
    forall fd | MustReport(Woken(m, p), fd) ensures fd in p.ready {
      ReportIsReadable(Woken(m, p), fd);
      assert fd in S.Members(order);
    }
  }

  /** A round brings a closing loop nearer to its end, and `select` finds something unless a write is in flight. */
  lemma RoundProgress(m: Multi, order: seq<Fd>, others: seq<Event>, candidates: set<Fd>, p: Pass)
    requires Inv(m) && Closing(m) && Doomed(m) && Uncongested(m) && m.r.phase != Idle && Ordered(order, m.r.watched)
    requires IsRound(m, order, others, candidates, p) && PromptRound(m, candidates, p)
    ensures var n := AfterPass(m, p);
            && Inv(n) && Closing(n) && Doomed(n) && Uncongested(n)
            && PassesLeft(n) + One(Woken(m, p).q.unsent == 0) <= PassesLeft(m)
            && (n.r.phase != Idle ==> Ordered(OrderNext(m, order, p), n.r.watched))
  {
    RoundIsPrompt(m, order, others, candidates, p);
    if p.ready == {} {
      WaitsProgress(m, p.waits);
      if Woken(m, p).q.unsent == 0 {
        SomethingToReport(Woken(m, p));
      }
    } else {
      PromptProgress(m, order, p);
    }
  }

  lemma {:induction false} BoundedRounds(m: Multi, order: seq<Fd>, selections: seq<Selection>, passes: seq<Pass>)
    requires Inv(m) && Closing(m) && Doomed(m) && Uncongested(m) && (m.r.phase != Idle ==> Ordered(order, m.r.watched))
    requires AreRounds(m, order, selections, passes) && AllPromptRounds(m, order, selections, passes)
    ensures PassesLeft(AfterRounds(m, order, selections, passes)) + CalmRounds(m, order, selections, passes) <= PassesLeft(m)
    decreases |passes|
  {
    if passes != [] {
      RoundProgress(m, order, selections[0].others, selections[0].candidates, passes[0]);
      BoundedRounds(AfterPass(m, passes[0]), OrderNext(m, order, passes[0]), selections[1..], passes[1..]);
    }
  }

  /** The loop is closing, and there are enough calm rounds for all that is left to do. */
  ghost predicate Enough(m: Multi, order: seq<Fd>, selections: seq<Selection>, passes: seq<Pass>)
    requires AreRounds(m, order, selections, passes)
  {
    && Closing(m) && Doomed(m) && Uncongested(m) && AllPromptRounds(m, order, selections, passes)
    && CalmRounds(m, order, selections, passes) >= PassesLeft(m)
  }

  /** From a closing state whose processes are doomed and whose control pipe is not congested, the loop leaves within as many
      calm rounds as `PassesLeft`. */
  lemma RoundsReturn(m: Multi, order: seq<Fd>, selections: seq<Selection>, passes: seq<Pass>)
    requires Inv(m) && (m.r.phase != Idle ==> Ordered(order, m.r.watched))
    requires AreRounds(m, order, selections, passes) && Enough(m, order, selections, passes)
    ensures AfterRounds(m, order, selections, passes).r.phase == Idle
  {
    BoundedRounds(m, order, selections, passes);
  }

  /** Rounds keep the invariant and the table. */
  lemma RoundKeeps(m: Multi, order: seq<Fd>, others: seq<Event>, candidates: set<Fd>, p: Pass)
    requires Inv(m) && Ordered(order, m.r.watched) && IsRound(m, order, others, candidates, p)
    ensures var n := AfterPass(m, p); Inv(n) && (n.r.phase != Idle ==> Ordered(OrderNext(m, order, p), n.r.watched))
  {
    if p.ready == {} {
      WaitsKeep(m, p.waits);
    } else {
      OnePass(m, order, p);
    }
  }

  /** After `k` rounds the loop is closing, and the rest of the rounds is enough for it to leave. */
  ghost predicate ReturnsFrom(m: Multi, order: seq<Fd>, selections: seq<Selection>, passes: seq<Pass>, k: nat)
    requires AreRounds(m, order, selections, passes)
    decreases k
  {
    if k == 0 then Enough(m, order, selections, passes)
    else
      && passes != []
      && ReturnsFrom(AfterPass(m, passes[0]), OrderNext(m, order, passes[0]), selections[1..], passes[1..], k - 1)
  }

  lemma FirstKeeps(m: Multi, order: seq<Fd>, selections: seq<Selection>, passes: seq<Pass>)
    requires Reachable(m) && (m.r.phase != Idle ==> Ordered(order, m.r.watched)) && AreRounds(m, order, selections, passes)
    requires passes != []
    ensures var n := AfterPass(m, passes[0]);
            Reachable(n) && (n.r.phase != Idle ==> Ordered(OrderNext(m, order, passes[0]), n.r.watched))
  {
    ReachableInv(m);
    RoundKeeps(m, order, selections[0].others, selections[0].candidates, passes[0]);
    ReachableAfter(m, passes[0].waits);
    ReachableAfter(Woken(m, passes[0]), passes[0].events);
  }

  lemma ReturnsNow(m: Multi, order: seq<Fd>, selections: seq<Selection>, passes: seq<Pass>)
    requires Reachable(m) && (m.r.phase != Idle ==> Ordered(order, m.r.watched)) && AreRounds(m, order, selections, passes)
    requires ReturnsFrom(m, order, selections, passes, 0)
    ensures AfterRounds(m, order, selections, passes).r.phase == Idle
  {
    ReachableInv(m);
    RoundsReturn(m, order, selections, passes);
  }

  /** And so does a whole run, whatever its first rounds were. */
  lemma {:induction false} RunReturns(m: Multi, order: seq<Fd>, selections: seq<Selection>, passes: seq<Pass>, k: nat)
    requires Reachable(m) && (m.r.phase != Idle ==> Ordered(order, m.r.watched)) && AreRounds(m, order, selections, passes)
    requires ReturnsFrom(m, order, selections, passes, k)
    ensures AfterRounds(m, order, selections, passes).r.phase == Idle
    decreases k
  {
    if k == 0 {
      ReturnsNow(m, order, selections, passes);
    } else {
      FirstKeeps(m, order, selections, passes);
      RunReturns(AfterPass(m, passes[0]), OrderNext(m, order, passes[0]), selections[1..], passes[1..], k - 1);
    }
  }
}
