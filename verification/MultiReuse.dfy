/** Descriptors that are closed and opened again in one pass of the select loop.

    `select` reports what can be read. A process that ends because a read finds nothing, without any failure of the system,
    has had its descriptor opened in the very pass that reads it; and such a pass exists. */
module MultiReuse {
  import opened Events
  import opened MultiModel
  import opened MultiInvariant
  import opened MultiGuarantees
  import opened MultiShutdown
  import opened MultiLoop
  import opened MultiReturn
  import opened MultiSteps
  import K = SigchldHandler
  import S = SelectEvent

  // ---------------------------------------------------------------------------------------------------------------
  // What was reported and is still registered can still be read

  /** `fd` is registered with the same callback, and data that it had is still there. */
  ghost predicate StillHas(m: Multi, n: Multi, fd: Fd) {
    && fd in m.r.registered && fd in n.r.registered && n.r.registered[fd] == m.r.registered[fd]
    && (HasData(m, fd) ==> HasData(n, fd))
  }

  lemma StillHasTransitive(a: Multi, b: Multi, c: Multi, fd: Fd)
    requires StillHas(a, b, fd) && StillHas(b, c, fd)
    ensures StillHas(a, c, fd)
  {}

  lemma TerminateLeaves(m: Multi, pid: Pid, ending: Ending, fd: Fd)
    requires RegistryInv(m.r, m.active) && pid in m.active && fd in Terminate(m, pid, ending).r.registered
    ensures StillHas(m, Terminate(m, pid, ending), fd)
  {
    assert Attached(m.r, pid, m.active[pid]);
    assert fd in m.r.registered && Belongs(m.r, m.active, fd, m.r.registered[fd]);
  }

  lemma SignalLeaves(m: Multi, c: K.Call, fd: Fd)
    requires RegistryInv(m.r, m.active) && fd in Signal(m, c).r.registered
    ensures StillHas(m, Signal(m, c), fd)
  {
    if c.Reaped? && c.pid in m.active {
      TerminateLeaves(m, c.pid, EndStopped, fd);
    }
  }

  lemma {:induction false} SignalsOnlyRemove(m: Multi, calls: seq<K.Call>)
    ensures Signals(m, calls).r.registered.Keys <= m.r.registered.Keys
    decreases |calls|
  {
    if calls != [] {
      SignalsOnlyRemove(Signal(m, calls[0]), calls[1..]);
    }
  }

  lemma {:induction false} SignalsLeave(m: Multi, s: K.Stage, calls: seq<K.Call>, fd: Fd)
    requires CoreInv(m) && K.AllPossible(m.k, s, calls) && fd in Signals(m, calls).r.registered
    ensures StillHas(m, Signals(m, calls), fd)
    decreases |calls|
  {
    if calls != [] {
      var n := Signal(m, calls[0]);
      SignalKeeps(m, s, calls[0]);
      SignalsOnlyRemove(n, calls[1..]);
      SignalLeaves(m, calls[0], fd);
      SignalsLeave(n, K.Then(s, calls[0]), calls[1..], fd);
      StillHasTransitive(m, n, Signals(n, calls[1..]), fd);
    }
  }

  lemma SpawnLeaves(m: Multi, n: Multi, pid: Pid, h: Handle, fd: Fd)
    requires RegistryInv(m.r, m.active) && pid !in m.active && FreshHandle(m.r.watched, h) && fd in m.r.registered
    requires n.r == Attach(m.r, pid, h) && n.u == EmptyPipes(m.u, pid, h)
    ensures StillHas(m, n, fd)
  {
    assert Belongs(m.r, m.active, fd, m.r.registered[fd]);
  }

  lemma DispatchOrders(m: Multi, pid: Pid, h: Handle)
    requires m.q.wake > 0 && m.q.jobs != []
    ensures var u, job := Dispatch(m, pid, h).u, m.q.jobs[0];
            if job.Spawn? && !m.stopping then u == EmptyPipes(m.u, pid, h)
            else m.u.poked <= u.poked && u.output == m.u.output
  {}

  lemma DispatchLeaves(m: Multi, pid: Pid, h: Handle, fd: Fd)
    requires Inv(m) && m.r.phase == Running && m.q.wake > 0 && pid !in m.k.children && FreshHandle(m.r.open, h)
    requires fd in m.r.registered && fd in Dispatch(m, pid, h).r.registered
    ensures StillHas(m, Dispatch(m, pid, h), fd)
  {
    var n, job := Dispatch(m, pid, h), m.q.jobs[0];
    DispatchCases(m, pid, h);
    DispatchOrders(m, pid, h);
    if job.Spawn? && !m.stopping {
      SpawnLeaves(m, n, pid, h.(id := job.id), fd);
    }
  }

  lemma ProcessLeaves(m: Multi, fd: Fd, pid: Pid, input: Input, other: Fd)
    requires RegistryInv(m.r, m.active) && fd in m.r.registered && fd != m.r.ownFd && pid in m.active && other != fd
    requires m.r.registered[fd] in {OnWatch(pid), OnStdout(pid), OnStderr(pid)}
    requires other in DoAction(m, fd, input).r.registered
    ensures StillHas(m, DoAction(m, fd, input), other)
  {
    ProcessCases(m, fd, pid, input);
    if DoAction(m, fd, input) == Terminate(m, pid, EndFailed) {
      TerminateLeaves(m, pid, EndFailed, other);
    } else if DoAction(m, fd, input) == Terminate(m, pid, EndUserStopped) {
      TerminateLeaves(m, pid, EndUserStopped, other);
    }
  }

  /** A callback reads only its own descriptor. */
  lemma CallbackLeaves(m: Multi, fd: Fd, input: Input, other: Fd)
    requires Inv(m) && Enabled(m, Fire(fd, input)) && fd != m.r.ownFd && other != fd
    requires other in m.r.registered && other in DoAction(m, fd, input).r.registered
    ensures StillHas(m, DoAction(m, fd, input), other)
  {
    CallbackRuns(m, fd, input);
    assert Belongs(m.r, m.active, fd, m.r.registered[fd]);
    match m.r.registered[fd]
    case OnSigchld => SignalsLeave(m, K.Reading(0), input.calls, other);
    case OnControl => DispatchLeaves(m, input.pid, input.handle, other);
    case OnWatch(pid) => ProcessLeaves(m, fd, pid, input, other);
    case OnStdout(pid) => ProcessLeaves(m, fd, pid, input, other);
    case OnStderr(pid) => ProcessLeaves(m, fd, pid, input, other);
  }

  // ---------------------------------------------------------------------------------------------------------------
  // A read that finds nothing

  /** The descriptors that an event adds to those watched. */
  function OpenedBy(m: Multi, e: Event): set<Fd>
    requires Enabled(m, e)
  {
    Next(m, e).r.watched - m.r.watched
  }

  /** What was reported and is still ahead has something to read, unless it was opened since. */
  ghost predicate Reported(m: Multi, ahead: seq<Fd>, ready: set<Fd>, since: set<Fd>) {
    forall fd | fd in ahead && fd in ready && fd != m.r.ownFd && fd !in since :: HasData(m, fd)
  }

  /** Every callback finds something to read, unless its descriptor was opened before in the same pass. */
  ghost predicate OnlyReopenedFail(m: Multi, events: seq<Event>, since: set<Fd>)
    requires Legal(m, events)
    decreases |events|
  {
    events == [] ||
    var e := events[0];
    && (e.Fire? && e.fd != m.r.ownFd && !HasData(m, e.fd) ==> e.fd in since)
    && OnlyReopenedFail(Next(m, e), events[1..], since + OpenedBy(m, e))
  }

  lemma OtherReported(m: Multi, e: Event, ahead: seq<Fd>, ready: set<Fd>, since: set<Fd>)
    requires Enabled(m, e) && Other(e) && Reported(m, ahead, ready, since)
    ensures Reported(Next(m, e), ahead, ready, since) && OpenedBy(m, e) == {}
  {
    forall fd | fd in ahead && fd in ready && fd != m.r.ownFd && fd !in since ensures HasData(Next(m, e), fd) {
      assert HasData(m, fd);
    }
  }

  lemma FireReported(m: Multi, p: S.Place, fd: Fd, input: Input, ready: set<Fd>, since: set<Fd>)
    requires Inv(m) && Enabled(m, Fire(fd, input)) && fd != m.r.ownFd && Table(p, m.r.watched) && !p.deleted
    requires p.ahead != [] && p.ahead[0] == fd && Reported(m, p.ahead, ready, since)
    ensures Reported(DoAction(m, fd, input), Moved(m, p, fd, input).ahead, ready, since + OpenedBy(m, Fire(fd, input)))
  {
    var n, q := DoAction(m, fd, input), Moved(m, p, fd, input);
    StepKeeps(m, Fire(fd, input));
    SameRun(m, fd, input);
    MovedDrops(m, p, fd, input);
    CallbackMoves(m, p, fd, input);
    forall other | other in q.ahead && other in ready && other != n.r.ownFd
                   && other !in since + OpenedBy(m, Fire(fd, input))
      ensures HasData(n, other)
    {
      assert other in S.Members(S.Order(q));
      assert other in m.r.watched && other in n.r.registered && other in m.r.registered;
      StaysAhead(m, p, fd, input, other);
      CallbackLeaves(m, fd, input, other);
    }
  }

  /** If `select` reports only what can be read, then a read in the pass that follows finds nothing only if its descriptor
      was opened earlier in that pass; so nothing else ends a process as failed but a failure of the system. */
  lemma {:induction false} StaleReadsAreReuse(m: Multi, p: S.Place, events: seq<Event>, ready: set<Fd>, since: set<Fd>)
    requires Inv(m) && m.r.phase != Idle && Table(p, m.r.watched) && !p.deleted && Reported(m, p.ahead, ready, since)
    requires Follows(m, p, events, ready) && Legal(m, events)
    ensures OnlyReopenedFail(m, events, since)
    decreases |events|
  {
    if events != [] {
      var e, rest, n := events[0], events[1..], Next(m, events[0]);
      StepKeeps(m, e);
      if !e.Fire? {
        OthersKeepWatched(m, e);
        OtherReported(m, e, p.ahead, ready, since);
        assert since + OpenedBy(m, e) == since;
        StaleReadsAreReuse(n, p, rest, ready, since);
      } else {
        var t := Rest(p, ready);
        RestSweeps(p, ready, [], m.r.watched);
        if e.fd != m.r.ownFd {
          FireReported(m, t, e.fd, e.input, ready, since);
          CallbackMoves(m, t, e.fd, e.input);
          NotIdle(m, e);
          StaleReadsAreReuse(n, Moved(m, t, e.fd, e.input), rest, ready, since + OpenedBy(m, e));
        }
      }
    }
  }

  /** The same for a round of the loop from any state. */
  lemma PassFailsOnlyReopened(m: Multi, order: seq<Fd>, p: Pass)
    requires Inv(m) && Ordered(order, m.r.watched) && IsPass(m, order, p)
    requires forall fd | fd in p.ready :: Readable(Woken(m, p), fd)
    ensures OnlyReopenedFail(Woken(m, p), p.events, {})
  {
    var place := S.Place([], order, false);
    assert S.Order(place) == order;
    WaitsKeep(m, p.waits);
    StaleReadsAreReuse(Woken(m, p), place, p.events, p.ready, {});
  }

  // ---------------------------------------------------------------------------------------------------------------
  // Such a pass

  /** The second process: its standard output has the number that the first one's had. */
  const SECOND := Handle(1, 20, 11, 21, {22, 23, 24, 25, 26})
  const QUIET := Input(9, Handle(0, 90, 91, 92, {}), Places(0, 0, 0), [], false, false)
  const SPAWN := Input(2, SECOND, Places(0, 2, 0), [], false, false)
  const ORDER := [10, 3, 11, 12, 5, 7]
  const READY: set<Fd> := {10, 3, 11}
  const EVENTS := [Fire(10, QUIET), Fire(3, SPAWN), Fire(11, QUIET)]

  /** The first process has been asked to be left alone and has written something, and a spawn job waits. */
  ghost predicate Waiting(m: Multi) {
    && m.q.jobs == [Spawn(1)] && m.q.wake == 1 && m.r == WATCHED && m.k == CHILD && m.active == map[1 := FIRST]
    && !m.stopping && 1 in m.u.poked && 11 in m.u.output
  }

  lemma WatchingWaits(m: Multi, c: nat) returns (n: Multi)
    requires c > 0 && Watching(m, c) && 1 !in m.log.status
    ensures Reaches(m, n) && Waiting(n)
  {
    WatchedFacts();
    var s1 := Next(m, Poke(1));
    var s2 := Next(s1, Writes(11));
    var s3 := Next(s2, Enqueue(Spawn(1)));
    n := Next(s3, Interrupt);
    ReachesSelf(n);
    ReachesStep(s3, Interrupt, n);
    ReachesStep(s2, Enqueue(Spawn(1)), n);
    ReachesStep(s1, Writes(11), n);
    ReachesStep(m, Poke(1), n);
  }

  const FREED := Detach(WATCHED, FIRST)
  const AGAIN := Attach(FREED, 2, SECOND)

  lemma OpenAgain(r: Registry, pid: Pid, h: Handle)
    requires Fds(h) !! r.open
    ensures Detach(Attach(r, pid, h), h).open == r.open
  {
    assert Attach(r, pid, h).open == r.open + Fds(h);
  }

  lemma FreedIsLoop()
    ensures FREED.open == {3, 5, 6, 7, 8}
  {
    var fds := Fds(FIRST);
    assert fds !! {3, 5, 6, 7, 8};
    OpenAgain(LOOP, 1, FIRST);
  }

  lemma FreedOpen()
    ensures FreshHandle(FREED.open, SECOND)
  {
    FreedIsLoop();
  }

  lemma FreedFacts()
    ensures FREED.watched == {3, 5, 7} && FREED.phase == Running && Has(FREED, 3, OnControl)
    ensures FREED.controlFd == 3 && FREED.sigchldFd == 5 && FREED.ownFd == 7
  {
    WatchedFacts();
  }

  lemma AgainFacts()
    ensures AGAIN.watched == {3, 5, 7, 11, 20, 21} && Has(AGAIN, 11, OnStdout(2))
    ensures AGAIN.controlFd == 3 && AGAIN.sigchldFd == 5 && AGAIN.ownFd == 7
  {
    FreedFacts();
  }

  /** Its descriptors have been closed. */
  ghost predicate Freed(m: Multi) {
    m.q.jobs == [Spawn(1)] && m.q.wake == 1 && m.r == FREED && m.k == CHILD && m.active == map[] && !m.stopping
  }

  /** The second process has been spawned, and has not written anything. */
  ghost predicate Again(m: Multi) {
    m.r == AGAIN && m.active == map[2 := SECOND] && 11 !in m.u.output && !m.stopping
  }

  lemma FirstEnds(m: Multi)
    requires Waiting(m)
    ensures var e := Fire(10, QUIET); Enabled(m, e) && Freed(Next(m, e)) && Ops(m, 10, QUIET) == DetachOps(FIRST)
  {
    WatchedFacts();
    WatchEnds(m, 10, 1, QUIET);
    assert m.active - {1} == map[];
  }

  lemma SecondStarts(m: Multi)
    requires Freed(m)
    ensures var e := Fire(3, SPAWN);
            Enabled(m, e) && Again(Next(m, e)) && Ops(m, 3, SPAWN) == AttachOps(SECOND, SPAWN.places)
  {
    FreedFacts();
    FreedOpen();
    DispatchCasesSpawn(m, 2, SECOND);
  }

  lemma DispatchCasesSpawn(m: Multi, pid: Pid, h: Handle)
    requires m.q.wake > 0 && m.q.jobs != [] && m.q.jobs[0] == Spawn(h.id) && !m.stopping
    ensures var n := Dispatch(m, pid, h);
            && n.r == Attach(m.r, pid, h) && n.active == m.active[pid := h] && n.u == EmptyPipes(m.u, pid, h)
            && !n.stopping
  {
    assert h.(id := h.id) == h;
  }

  lemma SecondFails(m: Multi)
    requires Again(m)
    ensures var e := Fire(11, QUIET);
            && Enabled(m, e) && !HasData(m, 11) && Ops(m, 11, QUIET) == DetachOps(SECOND)
            && Next(m, e) == Terminate(m, 2, EndFailed)
  {
    AgainFacts();
  }

  lemma DropsAhead(p: S.Place, x: Fd, a: seq<Fd>, b: seq<Fd>)
    requires p.ahead == a + [x] + b && x !in p.before && x !in a
    ensures S.Do(p, S.Remove(x)) == S.Place(p.before, a + b, p.deleted || a == [])
  {
    Removals(a, x, b);
    NotThere(p.before, x);
    assert a != [] ==> (a + [x] + b)[0] == a[0];
  }

  lemma DropsBehind(p: S.Place, x: Fd, a: seq<Fd>, b: seq<Fd>)
    requires p.before == a + [x] + b && x !in p.ahead && x !in a
    ensures S.Do(p, S.Remove(x)) == S.Place(a + b, p.ahead, p.deleted)
  {
    Removals(a, x, b);
    NotThere(p.ahead, x);
  }

  lemma Removals(a: seq<Fd>, x: Fd, b: seq<Fd>)
    requires x !in a
    ensures S.Without(a + [x] + b, x) == a + b
  {
    Associative(a, [x], b);
    S.WithoutFirst(a, [x] + b, x);
    assert ([x] + b)[0] == x && ([x] + b)[1..] == b;
  }

  lemma NotThere(s: seq<Fd>, x: Fd)
    requires x !in s
    ensures S.Without(s, x) == s
  {
    if s != [] {
      NotThere(s[1..], x);
    }
  }

  lemma DoThree(p: S.Place, a: S.Op, b: S.Op, c: S.Op)
    ensures S.DoAll(p, [a, b, c]) == S.Do(S.Do(S.Do(p, a), b), c)
  {
    S.DoAllConcat(p, [a], [b, c]);
    S.DoAllConcat(S.Do(p, a), [b], [c]);
    assert [a] + [b, c] == [a, b, c] && [b] + [c] == [b, c];
    assert [a][1..] == [] && [b][1..] == [] && [c][1..] == [];
  }

  const START := S.Place([], ORDER, false)
  const CLOSED := S.Place([], [3, 5, 7], false)
  const OPENED := S.Place([21, 20, 3], [11, 5, 7], false)
  const ENDED := S.Place([3], [5, 7], false)

  lemma FirstMoves()
    ensures S.Step(S.DoAll(START, DetachOps(FIRST))) == CLOSED
  {
    var p1, p2 := S.Place([], [3, 11, 12, 5, 7], true), S.Place([], [3, 12, 5, 7], true);
    assert S.Do(START, S.Remove(10)) == p1 by {
      assert ORDER == [] + [10] + [3, 11, 12, 5, 7] && [] + [3, 11, 12, 5, 7] == [3, 11, 12, 5, 7];
      DropsAhead(START, 10, [], [3, 11, 12, 5, 7]);
    }
    assert S.Do(p1, S.Remove(11)) == p2 by {
      assert p1.ahead == [3] + [11] + [12, 5, 7];
      DropsAhead(p1, 11, [3], [12, 5, 7]);
    }
    assert S.Do(p2, S.Remove(12)) == S.Place([], [3, 5, 7], true) by {
      assert p2.ahead == [3] + [12] + [5, 7];
      DropsAhead(p2, 12, [3], [5, 7]);
    }
    DoThree(START, S.Remove(10), S.Remove(11), S.Remove(12));
  }

  lemma SecondMoves()
    ensures S.Step(S.DoAll(CLOSED, AttachOps(SECOND, SPAWN.places))) == OPENED
  {
    var p1, p2 := S.Place([20], [3, 5, 7], false), S.Place([20], [3, 11, 5, 7], false);
    assert S.Do(CLOSED, S.Add(20, 0)) == p1;
    assert S.Do(p1, S.Add(11, 2)) == p2;
    assert S.Do(p2, S.Add(21, 0)) == S.Place([21, 20], [3, 11, 5, 7], false);
    DoThree(CLOSED, S.Add(20, 0), S.Add(11, 2), S.Add(21, 0));
  }

  lemma ThirdMoves()
    ensures S.Step(S.DoAll(OPENED, DetachOps(SECOND))) == ENDED
  {
    var p1, p2 := S.Place([21, 3], [11, 5, 7], false), S.Place([21, 3], [5, 7], true);
    assert S.Do(OPENED, S.Remove(20)) == p1 by {
      assert OPENED.before == [21] + [20] + [3];
      DropsBehind(OPENED, 20, [21], [3]);
    }
    assert S.Do(p1, S.Remove(11)) == p2 by {
      assert p1.ahead == [] + [11] + [5, 7] && [] + [5, 7] == [5, 7];
      DropsAhead(p1, 11, [], [5, 7]);
    }
    assert S.Do(p2, S.Remove(21)) == S.Place([3], [5, 7], true) by {
      assert p2.before == [] + [21] + [3];
      DropsBehind(p2, 21, [], [3]);
    }
    DoThree(OPENED, S.Remove(20), S.Remove(11), S.Remove(21));
  }

  lemma NothingMore()
    ensures Rest(ENDED, READY).ahead == []
  {
    assert S.Step(ENDED) == S.Place([3, 5], [7], false);
    assert S.Step(S.Place([3, 5], [7], false)) == S.Place([3, 5, 7], [], false);
  }

  lemma FollowsCons(m: Multi, p: S.Place, e: Event, rest: seq<Event>, ready: set<Fd>, next: S.Place)
    requires e.Fire? && Enabled(m, e) && e.fd != m.r.ownFd && p.ahead != [] && p.ahead[0] == e.fd && e.fd in ready
    requires next == Moved(m, p, e.fd, e.input) && Legal(Next(m, e), rest) && Follows(Next(m, e), next, rest, ready)
    ensures Legal(m, [e] + rest) && Follows(m, p, [e] + rest, ready) && After(m, [e] + rest) == After(Next(m, e), rest)
  {
    var events := [e] + rest;
    assert events[0] == e && events[1..] == rest;
    assert Rest(p, ready) == p;
  }

  /** Job 1 has ended as failed. */
  predicate Failed(log: Log) {
    1 in log.status && log.status[1] == Terminated(EndFailed)
  }

  lemma ThirdTurn(m: Multi)
    requires Again(m)
    ensures Legal(m, [Fire(11, QUIET)]) && Follows(m, OPENED, [Fire(11, QUIET)], READY)
    ensures Failed(After(m, [Fire(11, QUIET)]).log)
  {
    var e := Fire(11, QUIET);
    AgainFacts();
    SecondFails(m);
    ThirdMoves();
    NothingMore();
    assert [e] + [] == [e];
    FollowsCons(m, OPENED, e, [], READY, ENDED);
  }

  lemma SecondTurn(m: Multi)
    requires Freed(m)
    ensures var events := [Fire(3, SPAWN), Fire(11, QUIET)];
            Legal(m, events) && Follows(m, CLOSED, events, READY) && Failed(After(m, events).log)
  {
    var e := Fire(3, SPAWN);
    FreedFacts();
    SecondStarts(m);
    SecondMoves();
    ThirdTurn(Next(m, e));
    FollowsCons(m, CLOSED, e, [Fire(11, QUIET)], READY, OPENED);
    assert [e] + [Fire(11, QUIET)] == [e, Fire(11, QUIET)];
  }

  /** The pass: the first process is left alone and its descriptors closed; the second is spawned, and its standard output
      gets the number of the first one's, which is ready; so it is read, nothing is there, and the process ends as failed. */
  lemma PassReopens(m: Multi)
    requires Waiting(m)
    ensures Legal(m, EVENTS) && Follows(m, START, EVENTS, READY) && Failed(After(m, EVENTS).log)
  {
    var e := Fire(10, QUIET);
    WatchedFacts();
    FirstEnds(m);
    FirstMoves();
    SecondTurn(Next(m, e));
    FollowsCons(m, START, e, [Fire(3, SPAWN), Fire(11, QUIET)], READY, CLOSED);
    assert [e] + [Fire(3, SPAWN), Fire(11, QUIET)] == EVENTS;
  }

  lemma OrderDistinct()
    ensures Distinct(ORDER)
  {}

  lemma OrderMembers()
    ensures S.Members(ORDER) == {3, 5, 7, 10, 11, 12}
  {
    forall f | f in {3, 5, 7, 10, 11, 12} ensures f in ORDER {
      assert 10 == ORDER[0] && 3 == ORDER[1] && 11 == ORDER[2] && 12 == ORDER[3] && 5 == ORDER[4] && 7 == ORDER[5];
    }
  }

  lemma WatchedOrdered(watched: set<Fd>)
    requires watched == {3, 5, 7, 10, 11, 12}
    ensures Ordered(ORDER, watched)
  {
    OrderDistinct();
    OrderMembers();
  }

  lemma WaitingReadable(m: Multi)
    requires Waiting(m)
    ensures forall fd | fd in READY :: Readable(m, fd)
  {
    WatchedFacts();
    assert Has(WATCHED, 11, OnStdout(1));
  }

  lemma WaitingPass(m: Multi) returns (p: Pass)
    requires Waiting(m)
    ensures IsPass(m, ORDER, p) && Failed(AfterPass(m, p).log)
    ensures forall fd | fd in p.ready :: Readable(Woken(m, p), fd)
    ensures forall i | 0 <= i < |p.events| && p.events[i].Fire? :: !p.events[i].input.fails
  {
    p := Pass([], READY, EVENTS);
    WatchedFacts();
    PassReopens(m);
    WaitingReadable(m);
    assert 3 in READY;
  }

  /** From the start of a program there is such a round of the loop: `select` reports only what can be read, no system call
      fails, and yet a process ends as failed. */
  lemma ReuseFailsProcess(c: nat) returns (m: Multi, p: Pass)
    requires c > 0
    ensures Reaches(Init(3, {3}, {}, c), m) && Ordered(ORDER, m.r.watched)
    ensures IsPass(m, ORDER, p) && Failed(AfterPass(m, p).log)
    ensures forall fd | fd in p.ready :: Readable(Woken(m, p), fd)
    ensures forall i | 0 <= i < |p.events| && p.events[i].Fire? :: !p.events[i].input.fails
  {
    var start := Init(3, {3}, {}, c);
    var watching := IdleWatches(start, c);
    m := WatchingWaits(watching, c);
    ReachesTransitive(start, watching, m);
    WatchedFacts();
    WatchedOrdered(m.r.watched);
    p := WaitingPass(m);
  }
}
