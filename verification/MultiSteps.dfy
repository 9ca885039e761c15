/** The passes of `MultiLoop` built step by step, as the select loop makes them. */
module MultiSteps {
  import opened Events
  import opened MultiModel
  import opened MultiInvariant
  import opened MultiGuarantees
  import opened MultiShutdown
  import opened MultiLoop
  import opened MultiReturn
  import K = SigchldHandler
  import S = SelectEvent

  // ---------------------------------------------------------------------------------------------------------------
  // Reachable states

  /** Some run from the start leads to `m`. */
  ghost predicate Reachable(m: Multi) {
    exists controlFd: Fd, open: set<Fd>, children: set<Pid>, capacity: nat, events: seq<Event> ::
      && controlFd in open && Legal(Init(controlFd, open, children, capacity), events)
      && After(Init(controlFd, open, children, capacity), events) == m
  }

  lemma ReachableInv(m: Multi)
    requires Reachable(m)
    ensures Inv(m)
  {
    var controlFd: Fd, open: set<Fd>, children: set<Pid>, capacity: nat, events: seq<Event> :|
      && controlFd in open && Legal(Init(controlFd, open, children, capacity), events)
      && After(Init(controlFd, open, children, capacity), events) == m;
    InitHolds(controlFd, open, children, capacity);
    RunKeeps(Init(controlFd, open, children, capacity), events);
  }

  lemma ReachableAfter(m: Multi, more: seq<Event>)
    requires Reachable(m) && Legal(m, more)
    ensures Reachable(After(m, more))
  {
    var controlFd: Fd, open: set<Fd>, children: set<Pid>, capacity: nat, events: seq<Event> :|
      && controlFd in open && Legal(Init(controlFd, open, children, capacity), events)
      && After(Init(controlFd, open, children, capacity), events) == m;
    RunConcat(Init(controlFd, open, children, capacity), events, more);
  }

  lemma LegalEvent(m: Multi, e: Event)
    requires Enabled(m, e)
    ensures Legal(m, [e]) && After(m, [e]) == Next(m, e)
  {
    assert [e][1..] == [];
  }

  lemma ReachableNext(m: Multi, e: Event)
    requires Reachable(m) && Enabled(m, e)
    ensures Reachable(Next(m, e))
  {
    LegalEvent(m, e);
    ReachableAfter(m, [e]);
  }

  lemma ReachableInit(controlFd: Fd, open: set<Fd>, children: set<Pid>, capacity: nat)
    requires controlFd in open
    ensures Reachable(Init(controlFd, open, children, capacity))
  {
    var m := Init(controlFd, open, children, capacity);
    assert Legal(m, []) && After(m, []) == m;
  }

  // ---------------------------------------------------------------------------------------------------------------
  // A part of a pass

  /** `events` is the part of a pass that leads from `m`, with the loop at `p`, to `n`, with the loop at `q`. */
  ghost predicate Through(m: Multi, p: S.Place, events: seq<Event>, ready: set<Fd>, n: Multi, q: S.Place)
    decreases |events|
  {
    if events == [] then n == m && Rest(q, ready) == Rest(p, ready)
    else
      var e, rest := events[0], events[1..];
      && !e.Run? && Enabled(m, e)
      && if !e.Fire? then Through(Next(m, e), p, rest, ready, n, q)
         else
           var t := Rest(p, ready);
           && t.ahead != [] && t.ahead[0] == e.fd && e.fd != m.r.ownFd
           && Through(Next(m, e), Moved(m, t, e.fd, e.input), rest, ready, n, q)
  }

  lemma {:induction false} ThroughLegal(m: Multi, p: S.Place, events: seq<Event>, ready: set<Fd>, n: Multi, q: S.Place)
    requires Through(m, p, events, ready, n, q)
    ensures Legal(m, events) && After(m, events) == n
    decreases |events|
  {
    if events != [] {
      var e := events[0];
      var next := if e.Fire? then Moved(m, Rest(p, ready), e.fd, e.input) else p;
      ThroughLegal(Next(m, e), next, events[1..], ready, n, q);
    }
  }

  lemma {:induction false} ThroughConcat(m: Multi, p: S.Place, a: seq<Event>, ready: set<Fd>, n: Multi, q: S.Place,
                                         b: seq<Event>, n': Multi, q': S.Place)
    requires Through(m, p, a, ready, n, q) && Through(n, q, b, ready, n', q')
    ensures Through(m, p, a + b, ready, n', q')
    decreases |a|
  {
    if a == [] {
      assert a + b == b;
      ThroughFrom(n, q, p, b, ready, n', q');
    } else {
      assert (a + b)[0] == a[0] && (a + b)[1..] == a[1..] + b;
      var e := a[0];
      var next := if e.Fire? then Moved(m, Rest(p, ready), e.fd, e.input) else p;
      ThroughConcat(Next(m, e), next, a[1..], ready, n, q, b, n', q');
    }
  }

  /** Where the loop is matters only up to the next ready entry. */
  lemma {:induction false} ThroughFrom(m: Multi, p: S.Place, p': S.Place, events: seq<Event>, ready: set<Fd>,
                                       n: Multi, q: S.Place)
    requires Through(m, p, events, ready, n, q) && Rest(p, ready) == Rest(p', ready)
    ensures Through(m, p', events, ready, n, q)
    decreases |events|
  {
    if events != [] && !events[0].Fire? {
      ThroughFrom(Next(m, events[0]), p, p', events[1..], ready, n, q);
    }
  }

  lemma {:induction false} FollowsFrom(m: Multi, p: S.Place, p': S.Place, events: seq<Event>, ready: set<Fd>)
    requires Follows(m, p, events, ready) && Rest(p, ready) == Rest(p', ready)
    ensures Follows(m, p', events, ready)
    decreases |events|
  {
    if events != [] && !events[0].Fire? {
      FollowsFrom(Next(m, events[0]), p, p', events[1..], ready);
    }
  }

  /** A part of a pass and the rest of it make a pass. */
  lemma {:induction false} ThroughFollows(m: Multi, p: S.Place, a: seq<Event>, ready: set<Fd>, n: Multi, q: S.Place,
                                          b: seq<Event>)
    requires Through(m, p, a, ready, n, q) && Follows(n, q, b, ready) && Legal(n, b)
    ensures Follows(m, p, a + b, ready) && Legal(m, a + b) && After(m, a + b) == After(n, b)
    decreases |a|
  {
    if a == [] {
      assert a + b == b;
      FollowsFrom(n, q, p, b, ready);
    } else {
      assert (a + b)[0] == a[0] && (a + b)[1..] == a[1..] + b;
      var e := a[0];
      var next := if e.Fire? then Moved(m, Rest(p, ready), e.fd, e.input) else p;
      ThroughFollows(Next(m, e), next, a[1..], ready, n, q, b);
    }
  }

  /** A part of a pass that leads to the end of the table is a sweep that ends there. */
  lemma {:induction false} ThroughSweeps(m: Multi, p: S.Place, events: seq<Event>, ready: set<Fd>, n: Multi, q: S.Place)
    requires Inv(m) && Table(p, m.r.watched) && !p.deleted && Through(m, p, events, ready, n, q) && q.ahead == []
    ensures Legal(m, events) && S.Sweep(p, ready, Reactions(m, events)).place == q
    decreases |events|
  {
    ThroughLegal(m, p, events, ready, n, q);
    RestSweeps(p, ready, Reactions(m, events), m.r.watched);
    if events != [] {
      var e, rest, t := events[0], events[1..], Rest(p, ready);
      StepKeeps(m, e);
      if !e.Fire? {
        OthersKeepWatched(m, e);
        ThroughSweeps(Next(m, e), p, rest, ready, n, q);
      } else {
        CallbackMoves(m, t, e.fd, e.input);
        ThroughSweeps(Next(m, e), Moved(m, t, e.fd, e.input), rest, ready, n, q);
      }
    }
  }

  lemma {:induction false} OthersThrough(m: Multi, p: S.Place, events: seq<Event>, ready: set<Fd>)
    requires Legal(m, events) && AllOther(events)
    ensures Through(m, p, events, ready, After(m, events), p)
    decreases |events|
  {
    if events != [] {
      OthersThrough(Next(m, events[0]), p, events[1..], ready);
    }
  }

  lemma FireThrough(m: Multi, p: S.Place, e: Event, ready: set<Fd>)
    requires e.Fire? && Enabled(m, e) && e.fd != m.r.ownFd && p.ahead != [] && p.ahead[0] == e.fd && e.fd in ready
    ensures Through(m, p, [e], ready, Next(m, e), Moved(m, p, e.fd, e.input))
  {
    assert Rest(p, ready) == p && [e][1..] == [];
  }

  /** An entry that is not ready is passed over. */
  lemma StepThrough(m: Multi, p: S.Place, ready: set<Fd>)
    requires p.ahead != [] && p.ahead[0] !in ready
    ensures Through(m, p, [], ready, m, S.Step(p))
  {}

  // ---------------------------------------------------------------------------------------------------------------
  // What `select` has reported stays true

  /** What was reported and is still ahead can be read, as far as reading would block or go wrong otherwise. */
  ghost predicate Truthful(m: Multi, ahead: seq<Fd>, ready: set<Fd>) {
    forall fd | fd in ahead && fd in ready ::
      && (fd == m.r.controlFd ==> m.q.wake > 0)
      && (fd == m.r.sigchldFd ==> m.k.pipe != [])
      && (fd == m.r.ownFd ==> m.r.phase == Interrupted)
  }

  lemma OtherTruthful(m: Multi, e: Event, ahead: seq<Fd>, ready: set<Fd>)
    requires Inv(m) && Enabled(m, e) && Other(e) && Truthful(m, ahead, ready)
    ensures Inv(Next(m, e)) && Next(m, e).r == m.r && Truthful(Next(m, e), ahead, ready)
  {
    StepKeeps(m, e);
    if e.Happens? {
      K.HappenKeeps(m.k, e.event);
    }
  }

  lemma {:induction false} SignalsSame(m: Multi, calls: seq<K.Call>)
    ensures SameFds(m.r, Signals(m, calls).r)
    decreases |calls|
  {
    if calls != [] {
      SignalsSame(Signal(m, calls[0]), calls[1..]);
    }
  }

  /** The descriptors of the run stay what they are. */
  predicate SameFds(a: Registry, b: Registry) {
    a.controlFd == b.controlFd && a.sigchldFd == b.sigchldFd && a.ownFd == b.ownFd
  }

  lemma FinishSame(m: Multi, pid: Pid, ending: Ending)
    ensures SameFds(m.r, Finish(m, pid, ending).r)
  {}

  lemma DispatchSame(m: Multi, pid: Pid, h: Handle)
    ensures SameFds(m.r, Dispatch(m, pid, h).r)
  {}

  lemma SameRun(m: Multi, fd: Fd, input: Input)
    ensures SameFds(m.r, DoAction(m, fd, input).r)
  {
    if fd != m.r.ownFd && fd in m.r.registered {
      match m.r.registered[fd]
      case OnSigchld => SignalsSame(m, input.calls);
      case OnControl => DispatchSame(m, input.pid, input.handle);
      case OnWatch(pid) => FinishSame(m, pid, if Fails(m, fd, input) then EndFailed else EndUserStopped);
      case OnStdout(pid) => FinishSame(m, pid, EndFailed);
      case OnStderr(pid) => FinishSame(m, pid, EndFailed);
    }
  }

  /** The current entry is behind after its callback. */
  lemma MovedDrops(m: Multi, p: S.Place, fd: Fd, input: Input)
    requires Inv(m) && Enabled(m, Fire(fd, input)) && fd != m.r.ownFd && Table(p, m.r.watched) && !p.deleted
    requires p.ahead != [] && p.ahead[0] == fd
    ensures fd !in Moved(m, p, fd, input).ahead
  {
    var ops := Ops(m, fd, input);
    CallbackTurns(m, fd, input);
    TableTurns(p, ops, DoAction(m, fd, input).r.watched);
    CallbackOneKind(m, fd, input);
    if forall j | 0 <= j < |ops| :: ops[j].Remove? {
      MovedShrinks(p, ops);
    } else {
      AddsKeepFlag(p, ops);
      S.CurrentStays(p, ops);
      S.StepDistinct(S.DoAll(p, ops));
    }
  }

  lemma {:induction false} AddsKeepFlag(p: S.Place, ops: seq<S.Op>)
    requires forall j | 0 <= j < |ops| :: ops[j].Add?
    ensures S.DoAll(p, ops).deleted == p.deleted
    decreases |ops|
  {
    if ops != [] {
      AddsKeepFlag(S.Do(p, ops[0]), ops[1..]);
    }
  }

  /** The loop's own descriptors are ahead after a callback only if they were before. */
  lemma RunStaysAhead(m: Multi, p: S.Place, fd: Fd, input: Input, other: Fd)
    requires Inv(m) && Enabled(m, Fire(fd, input)) && fd != m.r.ownFd && Table(p, m.r.watched) && !p.deleted
    requires p.ahead != [] && p.ahead[0] == fd
    requires other in {m.r.controlFd, m.r.sigchldFd, m.r.ownFd} && other in Moved(m, p, fd, input).ahead
    ensures other in p.ahead && other != fd
  {
    var n := DoAction(m, fd, input);
    CallbackRuns(m, fd, input);
    MovedDrops(m, p, fd, input);
    CallbackMoves(m, p, fd, input);
    assert other in S.Members(S.Order(Moved(m, p, fd, input)));
    assert Has(m.r, m.r.sigchldFd, OnSigchld) && Has(m.r, m.r.controlFd, OnControl);
    StaysAhead(m, p, fd, input, other);
  }

  lemma FireTruthful(m: Multi, p: S.Place, fd: Fd, input: Input, ready: set<Fd>)
    requires Inv(m) && Enabled(m, Fire(fd, input)) && fd != m.r.ownFd && Table(p, m.r.watched) && !p.deleted
    requires p.ahead != [] && p.ahead[0] == fd && Truthful(m, p.ahead, ready)
    ensures Truthful(DoAction(m, fd, input), Moved(m, p, fd, input).ahead, ready)
  {
    var n, q := DoAction(m, fd, input), Moved(m, p, fd, input);
    CallbackRuns(m, fd, input);
    SameRun(m, fd, input);
    PipesStay(m, fd, input);
    forall other | other in q.ahead && other in ready && other in {m.r.controlFd, m.r.sigchldFd, m.r.ownFd}
      ensures other in p.ahead && other != fd
    {
      RunStaysAhead(m, p, fd, input, other);
    }
  }

  function ControlAhead(m: Multi, p: S.Place): nat {
    One(m.r.controlFd in p.ahead)
  }

  /** Only the callback of the control pipe adds to the table. */
  lemma OthersRemove(m: Multi, fd: Fd, input: Input)
    requires RegistryInv(m.r, m.active) && fd in m.r.registered && fd != m.r.controlFd
    ensures forall j | 0 <= j < |Ops(m, fd, input)| :: Ops(m, fd, input)[j].Remove?
  {
    assert Belongs(m.r, m.active, fd, m.r.registered[fd]);
    SignalsRemove(m, input.calls);
  }

  lemma OthersShrink(m: Multi, p: S.Place, fd: Fd, input: Input)
    requires Inv(m) && Enabled(m, Fire(fd, input)) && fd != m.r.ownFd && Table(p, m.r.watched) && !p.deleted
    requires p.ahead != [] && p.ahead[0] == fd && fd != m.r.controlFd
    ensures var q := Moved(m, p, fd, input); |q.ahead| < |p.ahead| && forall f | f in q.ahead :: f in p.ahead
  {
    CallbackRuns(m, fd, input);
    CallbackTurns(m, fd, input);
    TableTurns(p, Ops(m, fd, input), DoAction(m, fd, input).r.watched);
    OthersRemove(m, fd, input);
    MovedShrinks(p, Ops(m, fd, input));
  }

  /** A pass comes to an end: only the callback of the control pipe puts anything ahead, and its turn comes once. */
  lemma PassEnds(m: Multi, p: S.Place, fd: Fd, input: Input)
    requires Inv(m) && Enabled(m, Fire(fd, input)) && fd != m.r.ownFd && Table(p, m.r.watched) && !p.deleted
    requires p.ahead != [] && p.ahead[0] == fd
    ensures var n, q := DoAction(m, fd, input), Moved(m, p, fd, input);
            ControlAhead(n, q) < ControlAhead(m, p) ||
            (ControlAhead(n, q) == ControlAhead(m, p) && |q.ahead| < |p.ahead|)
  {
    SameRun(m, fd, input);
    if fd == m.r.controlFd {
      MovedDrops(m, p, fd, input);
    } else {
      OthersShrink(m, p, fd, input);
    }
  }
}
