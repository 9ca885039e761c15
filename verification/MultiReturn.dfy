/** A stopping `pexec_multi` does return: from every state from which it must, the passes that `MultiLoop` speaks about
    exist, and they end. */
module MultiReturn {
  import opened Events
  import opened MultiModel
  import opened MultiInvariant
  import opened MultiGuarantees
  import opened MultiShutdown
  import opened MultiLoop
  import K = SigchldHandler
  import S = SelectEvent

  // ---------------------------------------------------------------------------------------------------------------
  // Whenever a callback runs, the system has something to give it

  lemma {:induction false} ReapAll(k: K.Kernel, calls: seq<K.Call>) returns (more: seq<K.Call>)
    requires K.AllPossible(k, K.Reading(0), calls) && K.Stages(K.Reading(0), calls) == K.Draining
    ensures K.AllPossible(k, K.Reading(0), more) && K.Stages(K.Reading(0), more) == K.Draining
    ensures K.Effects(k, more).zombies == {}
    decreases |K.Effects(k, calls).zombies|
  {
    more := calls;
    if p :| p in K.Effects(k, calls).zombies {
      K.CallsSnoc(k, K.Reading(0), calls, K.Reaped(p));
      more := ReapAll(k, calls + [K.Reaped(p)]);
    }
  }

  /** With a record in the pipe the signal callback can run to its end. */
  lemma CallbackExists(k: K.Kernel) returns (calls: seq<K.Call>)
    requires K.Sound(k, K.Reading(0)) && k.pipe != []
    ensures K.IsCallback(k, calls)
  {
    assert |k.pipe| == K.INT_SIZE * k.written - k.got >= K.INT_SIZE;
    calls := [];
    K.CallsSnoc(k, K.Reading(0), calls, K.Got(K.INT_SIZE));
    calls := calls + [K.Got(K.INT_SIZE)];
    K.CallsSnoc(k, K.Reading(0), calls, K.Mask);
    calls := calls + [K.Mask];
    calls := ReapAll(k, calls);
    K.CallsSnoc(k, K.Reading(0), calls, K.NoneLeft);
    calls := calls + [K.NoneLeft];
    K.CallsSnoc(k, K.Reading(0), calls, K.Unmask);
    calls := calls + [K.Unmask];
  }

  lemma InputExists(m: Multi, fd: Fd) returns (input: Input)
    requires Inv(m) && m.r.phase != Idle && MustReport(m, fd)
    ensures Enabled(m, Fire(fd, input))
  {
    var a := Bound(m.r.open);
    var pids := set p: int | p in m.k.children;
    var b := Bound(pids);
    var calls := [];
    if fd == m.r.sigchldFd && m.k.pipe != [] {
      calls := CallbackExists(m.k);
    }
    var next := b + 1;
    assert next !in pids && next !in m.k.children;
    input := Input(next, Handle(0, a + 1, a + 2, a + 3, {}), Places(0, 0, 0), calls, false, false);
  }

  // ---------------------------------------------------------------------------------------------------------------
  // What must be reported stays readable

  lemma WatchStays(m: Multi, n: Multi, fd: Fd, p: Pid)
    requires Inv(m) && Inv(n) && Progress(m, n) && fd in n.r.registered
    requires Has(m.r, fd, OnWatch(p)) && p in m.u.poked
    ensures Has(n.r, fd, OnWatch(p)) && p in n.u.poked
  {
    assert Belongs(m.r, m.active, fd, OnWatch(p)) && Belongs(n.r, n.active, fd, n.r.registered[fd]);
    assert Has(m.r, m.r.sigchldFd, OnSigchld) && Has(m.r, m.r.controlFd, OnControl);
    if q :| q in n.active && fd in {n.active[q].watch, n.active[q].out, n.active[q].err} {
      assert Attached(m.r, q, m.active[q]) && Attached(n.r, q, n.active[q]);
    }
  }

  lemma {:induction false} SignalsWake(m: Multi, calls: seq<K.Call>)
    ensures Signals(m, calls).q.wake >= m.q.wake
    decreases |calls|
  {
    if calls != [] {
      SignalsWake(Signal(m, calls[0]), calls[1..]);
    }
  }

  lemma TerminatePipes(m: Multi, pid: Pid, ending: Ending)
    ensures Finish(m, pid, ending).q.wake >= m.q.wake && Finish(m, pid, ending).k == m.k
  {}

  lemma DispatchPipes(m: Multi, pid: Pid, h: Handle)
    ensures Dispatch(m, pid, h).k.pipe == m.k.pipe
  {}

  /** Bytes of a pipe are read only by its own callback. */
  lemma PipesStay(m: Multi, fd: Fd, input: Input)
    requires RegistryInv(m.r, m.active) && fd in m.r.registered && fd != m.r.ownFd
    ensures var n := DoAction(m, fd, input);
            && (fd != m.r.controlFd ==> n.q.wake >= m.q.wake)
            && (fd != m.r.sigchldFd ==> n.k.pipe == m.k.pipe)
  {
    assert Belongs(m.r, m.active, fd, m.r.registered[fd]);
    match m.r.registered[fd]
    case OnSigchld => SignalsWake(m, input.calls);
    case OnControl => DispatchPipes(m, input.pid, input.handle);
    case OnWatch(pid) => TerminatePipes(m, pid, if Fails(m, fd, input) then EndFailed else EndUserStopped);
    case OnStdout(pid) => TerminatePipes(m, pid, EndFailed);
    case OnStderr(pid) => TerminatePipes(m, pid, EndFailed);
  }

  lemma CallbackRuns(m: Multi, fd: Fd, input: Input)
    requires Inv(m) && Enabled(m, Fire(fd, input)) && fd != m.r.ownFd
    ensures m.r.phase == Running && fd in m.r.registered
  {}

  /** A callback of a closing loop leaves what `select` had to report, and is still watched, to be reported. */
  lemma ReportStays(m: Multi, n: Multi, fd: Fd, input: Input, other: Fd)
    requires Inv(m) && Closing(m) && Enabled(m, Fire(fd, input)) && fd != m.r.ownFd && n == DoAction(m, fd, input)
    requires Inv(n) && Progress(m, n)
    requires MustReport(m, other) && other != fd && other in n.r.watched
    ensures MustReport(n, other)
  {
    CallbackRuns(m, fd, input);
    PipesStay(m, fd, input);
    StillReported(m, n, other);
  }

  lemma StillReported(m: Multi, n: Multi, other: Fd)
    requires Inv(m) && Inv(n) && Progress(m, n) && MustReport(m, other) && other in n.r.watched && m.r.phase == Running
    requires other == m.r.controlFd ==> n.q.wake >= m.q.wake
    requires other == m.r.sigchldFd ==> n.k.pipe == m.k.pipe
    ensures MustReport(n, other)
  {
    if other in m.r.registered && m.r.registered[other].OnWatch? && other in n.r.registered {
      WatchStays(m, n, other, m.r.registered[other].pid);
    }
  }

  // ---------------------------------------------------------------------------------------------------------------
  // A pass to its end

  /** `events` is the rest of a pass. */
  ghost predicate Completes(m: Multi, p: S.Place, events: seq<Event>, ready: set<Fd>) {
    Legal(m, events) && Follows(m, p, events, ready) && AllQuiet(events)
  }

  lemma CompletesCons(m: Multi, p: S.Place, e: Event, rest: seq<Event>, ready: set<Fd>)
    requires e.Fire? && Enabled(m, e) && e.fd != m.r.ownFd
    requires Rest(p, ready).ahead != [] && Rest(p, ready).ahead[0] == e.fd
    requires Completes(Next(m, e), Moved(m, Rest(p, ready), e.fd, e.input), rest, ready)
    ensures Completes(m, p, [e] + rest, ready)
  {
    var events := [e] + rest;
    assert events[0] == e && events[1..] == rest;
  }

  /** While `select` waits, producers write the bytes of the jobs they have added, and a pending signal is delivered. */
  lemma {:induction false} Settles(m: Multi) returns (waits: seq<Event>)
    requires Inv(m)
    ensures Legal(m, waits) && AllOther(waits) && AllQuiet(waits)
    ensures After(m, waits).q.unsent == 0 && !After(m, waits).k.pending
    decreases m.q.unsent, m.k.pending
  {
    waits := [];
    if m.q.unsent > 0 || m.k.pending {
      var e := if m.q.unsent > 0 then Interrupt else Happens(K.Deliver);
      StepKeeps(m, e);
      var rest := Settles(Next(m, e));
      waits := [e] + rest;
      assert waits[1..] == rest;
    }
  }

  /** Then there is something to report: no closing loop whose processes are doomed waits in vain, unless it is congested. */
  lemma SomethingToReport(m: Multi)
    requires Inv(m) && Closing(m) && Doomed(m) && Uncongested(m) && m.r.phase != Idle
    requires m.q.unsent == 0 && !m.k.pending
    ensures exists fd :: MustReport(m, fd)
  {
    if forall fd :: !MustReport(m, fd) {
      PassProgress(m, []);
    }
  }

  lemma ClosingRemoves(m: Multi, fd: Fd, input: Input)
    requires m.stopping
    ensures forall j | 0 <= j < |Ops(m, fd, input)| :: Ops(m, fd, input)[j].Remove?
  {
    SignalsRemove(m, input.calls);
  }

  lemma {:induction false} WithoutShrinks(s: seq<Fd>, fd: Fd)
    ensures |S.Without(s, fd)| <= |s|
    ensures forall f | f in S.Without(s, fd) :: f in s
  {
    if s != [] {
      assert s == [s[0]] + s[1..];
      WithoutShrinks(s[1..], fd);
    }
  }

  lemma {:induction false} RemovesShrink(p: S.Place, ops: seq<S.Op>)
    requires forall j | 0 <= j < |ops| :: ops[j].Remove?
    ensures |S.DoAll(p, ops).ahead| <= |p.ahead|
    ensures forall f | f in S.DoAll(p, ops).ahead :: f in p.ahead
    decreases |ops|
  {
    if ops != [] {
      WithoutShrinks(p.ahead, ops[0].fd);
      RemovesShrink(S.Do(p, ops[0]), ops[1..]);
    }
  }

  /** With removals only, a callback leaves less ahead. */
  lemma MovedShrinks(p: S.Place, ops: seq<S.Op>)
    requires Distinct(S.Order(p)) && !p.deleted && p.ahead != [] && S.LegalOps(p, ops)
    requires forall j | 0 <= j < |ops| :: ops[j].Remove?
    ensures var n := S.Step(S.DoAll(p, ops));
            && |n.ahead| < |p.ahead| && p.ahead[0] !in n.ahead
            && forall f | f in n.ahead :: f in p.ahead
  {
    var cur, after := p.ahead[0], S.DoAll(p, ops);
    RemovesShrink(p, ops);
    S.GoneIffDeleted(p, ops, cur);
    S.DoAllToMembers(p, ops);
    S.StepDistinct(after);
    if after.deleted {
      assert cur !in S.Order(after) && cur !in after.ahead;
      S.DistinctParts(p.before, p.ahead);
      S.DistinctParts(after.before, after.ahead);
      ShorterWithout(after.ahead, p.ahead, cur);
    }
  }

  lemma ShorterWithout(a: seq<Fd>, b: seq<Fd>, x: Fd)
    requires Distinct(a) && (forall f | f in a :: f in b) && x in b && x !in a
    ensures |a| < |b|
  {
    var s, t := set f | f in a, set f | f in b;
    assert s <= t - {x};
    Sizes(a);
    Sizes(b);
    SubsetSize(s, t - {x});
  }

  lemma SubsetSize(a: set<Fd>, b: set<Fd>)
    requires a <= b
    ensures |a| <= |b|
  {
    assert b == a + (b - a);
  }

  lemma {:induction false} Sizes(s: seq<Fd>)
    ensures |set f | f in s| <= |s|
    ensures Distinct(s) ==> |set f | f in s| == |s|
  {
    if s != [] {
      Sizes(s[1..]);
      S.DistinctTail(s);
      assert (set f | f in s) == S.Members(s) && (set f | f in s[1..]) == S.Members(s[1..]);
    }
  }

  /** What is ready and ahead must still be reported. */
  ghost predicate AllReady(m: Multi, p: S.Place, ready: set<Fd>) {
    forall fd | fd in p.ahead && fd in ready :: MustReport(m, fd)
  }

  lemma AllReadyStays(m: Multi, n: Multi, t: S.Place, fd: Fd, input: Input, ready: set<Fd>)
    requires Inv(m) && Closing(m) && Enabled(m, Fire(fd, input)) && fd != m.r.ownFd && n == DoAction(m, fd, input)
    requires Inv(n) && Progress(m, n) && AllReady(m, t, ready)
    requires Table(Moved(m, t, fd, input), n.r.watched)
    requires forall f | f in Moved(m, t, fd, input).ahead :: f in t.ahead && f != fd
    ensures AllReady(n, Moved(m, t, fd, input), ready)
  {
    var place := Moved(m, t, fd, input);
    forall other | other in place.ahead && other in ready ensures MustReport(n, other) {
      assert other in S.Members(S.Order(place));
      ReportStays(m, n, fd, input, other);
    }
  }

  /** From anywhere in a pass of a closing loop, the pass can run to its end. */
  lemma {:induction false} PassCompletes(m: Multi, p: S.Place, ready: set<Fd>) returns (events: seq<Event>)
    requires Inv(m) && Closing(m) && m.r.phase != Idle && Table(p, m.r.watched) && !p.deleted && AllReady(m, p, ready)
    ensures Completes(m, p, events, ready)
    decreases |p.ahead|
  {
    var t := Rest(p, ready);
    RestSweeps(p, ready, [], m.r.watched);
    if t.ahead == [] {
      events := [];
    } else {
      var fd := t.ahead[0];
      var input := InputExists(m, fd);
      var e := Fire(fd, input);
      if fd == m.r.ownFd {
        events := [e];
        assert events[1..] == [];
      } else {
        var n := Next(m, e);
        StepProgress(m, e);
        CallbackRuns(m, fd, input);
        CallbackMoves(m, t, fd, input);
        ClosingRemoves(m, fd, input);
        MovedShrinks(t, Ops(m, fd, input));
        AllReadyStays(m, n, t, fd, input, ready);
        NotIdle(m, e);
        events := PassCompletes(n, Moved(m, t, fd, input), ready);
        CompletesCons(m, p, e, events, ready);
        events := [e] + events;
      }
    }
  }

  /** When `select` returns to a closing loop, a pass follows that serves all that it must report. */
  lemma PassExists(m: Multi, order: seq<Fd>) returns (ready: set<Fd>, events: seq<Event>)
    requires Inv(m) && Closing(m) && m.r.phase != Idle && Ordered(order, m.r.watched)
    ensures forall fd :: fd in ready <==> MustReport(m, fd)
    ensures Legal(m, events) && Follows(m, S.Place([], order, false), events, ready) && AllQuiet(events)
  {
    ready := set fd | fd in m.r.watched && MustReport(m, fd);
    var place := S.Place([], order, false);
    assert S.Order(place) == order;
    events := PassCompletes(m, place, ready);
  }

  /** And `select` does return to a closing loop whose processes are doomed and whose control pipe is not congested. */
  lemma RoundExists(m: Multi, order: seq<Fd>) returns (p: Pass)
    requires Inv(m) && Closing(m) && Doomed(m) && Uncongested(m) && m.r.phase != Idle && Ordered(order, m.r.watched)
    ensures IsPass(m, order, p) && Prompt(m, p) && Woken(m, p).q.unsent == 0
    ensures forall fd | fd in p.ready :: Readable(Woken(m, p), fd)
  {
    var waits := Settles(m);
    WaitsProgress(m, waits);
    var n := After(m, waits);
    SomethingToReport(n);
    var ready, events := PassExists(n, order);
    p := Pass(waits, ready, events);
    forall fd | fd in ready ensures Readable(n, fd) {
      ReportIsReadable(n, fd);
    }
  }

  lemma ReportIsReadable(m: Multi, fd: Fd)
    requires Inv(m) && MustReport(m, fd)
    ensures Readable(m, fd)
  {
    if fd in m.r.registered {
      assert Belongs(m.r, m.active, fd, m.r.registered[fd]);
      assert Has(m.r, m.r.sigchldFd, OnSigchld) && Has(m.r, m.r.controlFd, OnControl);
    }
  }

  /** From every closing state whose processes are doomed and whose control pipe is not congested, the select loop can be
      run to its return: the bound of `LoopReturns` is not empty. */
  lemma {:induction false} ReturnExists(m: Multi, order: seq<Fd>) returns (passes: seq<Pass>)
    requires Inv(m) && Closing(m) && Doomed(m) && Uncongested(m) && m.r.phase != Idle && Ordered(order, m.r.watched)
    ensures IsLoop(m, order, passes) && AllPrompt(m, order, passes)
    ensures AfterLoop(m, order, passes).r.phase == Idle
    decreases PassesLeft(m)
  {
    var p := RoundExists(m, order);
    var n := AfterPass(m, p);
    PromptProgress(m, order, p);
    passes := [];
    if n.r.phase != Idle {
      passes := ReturnExists(n, OrderAfter(m, order, p));
    }
    var all := [p] + passes;
    assert all[0] == p && all[1..] == passes;
    passes := all;
  }
}
