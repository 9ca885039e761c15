/** The class `pexec_multi`, on the select loop of `SelectEvent` and the signal handler of `SigchldHandler`.

    Its fields are updated in place by its methods, which call those of the two objects: registering a descriptor moves
    the iterator of the loop, and the callback of the signal pipe reads real records and calls `waitpid`. What its passes do,
    callback by callback, is a run of `MultiModel`; so whatever holds of these runs holds of the class. What the source
    asserts is a precondition here. */
module PexecMultiClass {
  import opened Events
  import opened MultiModel
  import opened MultiInvariant
  import opened MultiGuarantees
  import opened MultiShutdown
  import opened MultiLoop
  import opened MultiReturn
  import opened MultiSteps
  import opened MultiReuse
  import opened MultiRounds
  import K = SigchldHandler
  import S = SelectEvent

  // ---------------------------------------------------------------------------------------------------------------
  // Facts about the specification

  lemma {:induction false} DoAllSnoc(p: S.Place, ops: seq<S.Op>, op: S.Op)
    ensures S.DoAll(p, ops + [op]) == S.Do(S.DoAll(p, ops), op)
    decreases |ops|
  {
    if ops == [] {
      assert [] + [op] == [op] && [op][1..] == [];
    } else {
      assert (ops + [op])[0] == ops[0] && (ops + [op])[1..] == ops[1..] + [op];
      DoAllSnoc(S.Do(p, ops[0]), ops[1..], op);
    }
  }

  /** The descriptors of `h` that go to the loop are watched. */
  predicate Watches(watched: set<Fd>, h: Handle) {
    && h.watch in watched && h.out in watched && h.err in watched
    && h.watch != h.out && h.watch != h.err && h.out != h.err
  }

  lemma ActiveIsWatched(r: Registry, active: map<Pid, Handle>, pid: Pid)
    requires RegistryInv(r, active) && pid in active
    ensures Watches(r.watched, active[pid])
  {
    assert Attached(r, pid, active[pid]);
  }

  lemma RunIsWatched(r: Registry, active: map<Pid, Handle>)
    requires RegistryInv(r, active) && r.phase == Running
    ensures r.sigchldFd in r.watched && r.controlFd in r.watched && r.sigchldFd != r.controlFd
  {
    assert Has(r, r.sigchldFd, OnSigchld) && Has(r, r.controlFd, OnControl);
  }

  /** `n` is where `dispatch_job` has led from `s`, with the byte read that was in the pipe at `m`. */
  lemma Dispatched(m: Multi, s: Multi, n: Multi, stop: bool, pid: Pid, h: Handle, places: Places)
    requires m.q.wake > 0 && m.q.jobs != [] && s == m.(q := ReadWake(m.q)) && (stop <==> Leaves(s))
    requires ActOn(s.(q := TakeJob(s.q)), s.q.jobs[0], pid, h) == if stop then HandleStop(n) else n
    ensures Dispatch(m, pid, h) == if stop then HandleStop(n) else n
    ensures DispatchOps(m, h, places) == if stop then StopOps(m.r) else DispatchOps(s, h, places)
  {}

  /** A child that has been reaped ends, if it is active. */
  function EndOne(m: Multi, pid: Pid): Multi {
    if pid in m.active then Terminate(m, pid, EndStopped) else m
  }

  function EndOneOps(m: Multi, pid: Pid): seq<S.Op> {
    if pid in m.active then DetachOps(m.active[pid]) else []
  }

  function EndAll(m: Multi, pids: seq<Pid>): Multi
    decreases |pids|
  {
    if pids == [] then m else EndAll(EndOne(m, pids[0]), pids[1..])
  }

  function EndAllOps(m: Multi, pids: seq<Pid>): seq<S.Op>
    decreases |pids|
  {
    if pids == [] then [] else EndOneOps(m, pids[0]) + EndAllOps(EndOne(m, pids[0]), pids[1..])
  }

  /** The callbacks for the children that `waitpid` returns do not interfere with its calls: they may as well come after. */
  lemma {:induction false} SignalsCommute(m: Multi, calls: seq<K.Call>)
    ensures Signals(m, calls) == EndAll(m.(k := K.Effects(m.k, calls)), K.ReapedIn(calls))
    ensures SignalsOps(m, calls) == EndAllOps(m.(k := K.Effects(m.k, calls)), K.ReapedIn(calls))
    decreases |calls|
  {
    if calls != [] {
      var c, rest := calls[0], calls[1..];
      var n := Signal(m, c);
      SignalsCommute(n, rest);
      var k := K.Effects(m.k, calls);
      if c.Reaped? && c.pid in m.active {
        assert n.(k := k) == Terminate(m.(k := k), c.pid, EndStopped);
      } else {
        assert n.(k := k) == m.(k := k);
      }
      var pids := K.ReapedIn(calls);
      assert c.Reaped? ==> pids[0] == c.pid && pids[1..] == K.ReapedIn(rest);
    }
  }

  lemma CallbackKnown(m: Multi, fd: Fd)
    requires Inv(m) && fd in m.r.watched && fd != m.r.ownFd
    ensures fd in m.r.registered && m.r.phase == Running && Belongs(m.r, m.active, fd, m.r.registered[fd])
    ensures m.r.sigchldFd != m.r.controlFd
  {}

  lemma ProcessRuns(m: Multi, fd: Fd, pid: Pid)
    requires Inv(m) && fd in m.r.registered && m.r.registered[fd] in {OnWatch(pid), OnStdout(pid), OnStderr(pid)}
    ensures pid in m.active && fd != m.r.controlFd && fd != m.r.sigchldFd
  {
    assert Belongs(m.r, m.active, fd, m.r.registered[fd]);
    assert m.r.phase == Running ==> Has(m.r, m.r.sigchldFd, OnSigchld) && Has(m.r, m.r.controlFd, OnControl);
  }

  lemma {:induction false} AfterSnoc(m: Multi, events: seq<Event>, e: Event)
    requires Legal(m, events) && Enabled(After(m, events), e)
    ensures Legal(m, events + [e]) && After(m, events + [e]) == Next(After(m, events), e)
    decreases |events|
  {
    if events == [] {
      assert [] + [e] == [e] && [e][1..] == [];
    } else {
      assert (events + [e])[0] == events[0] && (events + [e])[1..] == events[1..] + [e];
      AfterSnoc(Next(m, events[0]), events[1..], e);
    }
  }

  lemma CurrentOrGone(m: Multi, p: S.Place, fd: Fd, input: Input)
    requires Reachable(m) && Enabled(m, Fire(fd, input)) && fd != m.r.ownFd && Table(p, m.r.watched) && !p.deleted
    requires p.ahead != [] && p.ahead[0] == fd
    ensures var n := S.DoAll(p, Ops(m, fd, input)); n.deleted || n.ahead != []
  {
    ReachableInv(m);
    CallbackMoves(m, p, fd, input);
    S.CurrentStays(p, Ops(m, fd, input));
  }

  // ---------------------------------------------------------------------------------------------------------------
  // A pass under way

  /** The choices of the system and of other threads at one turn of the loop. */
  datatype Choice = Choice(others: seq<Event>, places: Places, fails: bool, more: bool)

  const NOTHING := Input(0, Handle(0, 0, 0, 0, {}), Places(0, 0, 0), [], false, false)

  /** `events` has led from `m` with the loop at `p` to `n` with the loop at `q`, and the pass can go on. */
  ghost predicate Passing(m: Multi, p: S.Place, events: seq<Event>, ready: set<Fd>, n: Multi, q: S.Place) {
    && Reachable(n) && n.r.phase != Idle && Table(q, n.r.watched) && !q.deleted && Truthful(n, q.ahead, ready)
    && Through(m, p, events, ready, n, q)
  }

  lemma PassingBegins(m: Multi, p: S.Place, order: seq<Fd>, ready: set<Fd>)
    requires Reachable(m) && m.r.phase != Idle && Table(p, m.r.watched) && order == S.Order(p)
    requires Truthful(m, order, ready)
    ensures var q := S.Place([], order, false); Passing(m, q, [], ready, m, q)
  {
    assert S.Order(S.Place([], order, false)) == order;
  }

  lemma PassingOthers(m: Multi, p: S.Place, events: seq<Event>, ready: set<Fd>, n: Multi, q: S.Place, more: seq<Event>)
    requires Passing(m, p, events, ready, n, q) && Legal(n, more) && AllOther(more)
    ensures Passing(m, p, events + more, ready, After(n, more), q)
  {
    ReachableInv(n);
    ReachableAfter(n, more);
    OthersKeep(n, more, q.ahead, ready);
    OthersThrough(n, q, more, ready);
    ThroughConcat(m, p, events, ready, n, q, more, After(n, more), q);
  }

  lemma {:induction false} OthersKeep(m: Multi, events: seq<Event>, ahead: seq<Fd>, ready: set<Fd>)
    requires Inv(m) && Truthful(m, ahead, ready) && Legal(m, events) && AllOther(events)
    ensures var n := After(m, events); Inv(n) && n.r == m.r && Truthful(n, ahead, ready)
    decreases |events|
  {
    if events != [] {
      OtherTruthful(m, events[0], ahead, ready);
      OthersKeep(Next(m, events[0]), events[1..], ahead, ready);
    }
  }

  /** The current entry, if it was reported, can be read. */
  lemma CurrentReadable(n: Multi, q: S.Place, fd: Fd, ready: set<Fd>)
    requires Table(q, n.r.watched) && Truthful(n, q.ahead, ready)
    requires q.ahead != [] && q.ahead[0] == fd && fd in ready
    ensures fd in n.r.watched
    ensures fd == n.r.controlFd ==> n.q.wake > 0
    ensures fd == n.r.sigchldFd ==> n.k.pipe != []
    ensures fd == n.r.ownFd ==> n.r.phase == Interrupted
  {
    assert S.Order(q)[|q.before|] == fd;
    assert fd in S.Members(S.Order(q));
  }

  lemma PassingFires(m: Multi, p: S.Place, events: seq<Event>, ready: set<Fd>, n: Multi, q: S.Place, fd: Fd, input: Input)
    requires Passing(m, p, events, ready, n, q)
    requires q.ahead != [] && q.ahead[0] == fd && fd in ready && fd != n.r.ownFd && Enabled(n, Fire(fd, input))
    ensures var n', q' := Next(n, Fire(fd, input)), Moved(n, q, fd, input);
            && Passing(m, p, events + [Fire(fd, input)], ready, n', q')
            && (ControlAhead(n', q') < ControlAhead(n, q) ||
                (ControlAhead(n', q') == ControlAhead(n, q) && |q'.ahead| < |q.ahead|))
  {
    var e := Fire(fd, input);
    ReachableInv(n);
    ReachableNext(n, e);
    NotIdle(n, e);
    CallbackMoves(n, q, fd, input);
    FireTruthful(n, q, fd, input, ready);
    FireThrough(n, q, e, ready);
    ThroughConcat(m, p, events, ready, n, q, [e], Next(n, e), Moved(n, q, fd, input));
    PassEnds(n, q, fd, input);
  }

  lemma PassingSteps(m: Multi, p: S.Place, events: seq<Event>, ready: set<Fd>, n: Multi, q: S.Place)
    requires Passing(m, p, events, ready, n, q) && q.ahead != [] && q.ahead[0] !in ready
    ensures Passing(m, p, events, ready, n, S.Step(q))
    ensures ControlAhead(n, S.Step(q)) <= ControlAhead(n, q) && |S.Step(q).ahead| < |q.ahead|
  {
    S.StepDistinct(q);
    StepThrough(n, q, ready);
    ThroughConcat(m, p, events, ready, n, q, [], n, S.Step(q));
    assert events + [] == events;
  }

  /** At the end of the table the pass is complete. */
  lemma PassingDone(m: Multi, p: S.Place, events: seq<Event>, ready: set<Fd>, n: Multi, q: S.Place)
    requires Passing(m, p, events, ready, n, q) && q.ahead == []
    ensures Legal(m, events) && Follows(m, p, events, ready) && After(m, events) == n
  {
    ThroughFollows(m, p, events, ready, n, q, []);
    assert events + [] == events;
  }

  /** And so it is after the loop's own callback. */
  lemma PassingEnds(m: Multi, p: S.Place, events: seq<Event>, ready: set<Fd>, n: Multi, q: S.Place)
    requires Passing(m, p, events, ready, n, q) && q.ahead != [] && q.ahead[0] == n.r.ownFd && n.r.ownFd in ready
    ensures var e := Fire(n.r.ownFd, NOTHING);
            && Enabled(n, e) && Legal(m, events + [e]) && Follows(m, p, events + [e], ready)
            && After(m, events + [e]) == Next(n, e)
  {
    var e := Fire(n.r.ownFd, NOTHING);
    ReachableInv(n);
    CurrentReadable(n, q, n.r.ownFd, ready);
    assert [e][1..] == [];
    ThroughFollows(m, p, events, ready, n, q, [e]);
  }

  /** What happens while `select` waits, what it might report, and the choices in the pass that follows. */
  datatype Round = Round(others: seq<Event>, candidates: set<Fd>, choices: nat -> Choice)

  /** The pass that follows the waiting belongs to the round. */
  lemma RoundIsPass(m: Multi, n: Multi, order: seq<Fd>, p: Pass)
    requires Inv(m) && Ordered(order, m.r.watched) && AllOther(p.waits) && Legal(m, p.waits) && After(m, p.waits) == n
    requires m.r.phase != Idle && IsPass(n, order, Pass([], p.ready, p.events))
    requires forall fd | fd in p.ready :: Readable(n, fd)
    ensures IsPass(m, order, p) && AfterPass(m, p) == After(n, p.events) && OnlyReopenedFail(n, p.events, {})
  {
    assert Woken(n, Pass([], p.ready, p.events)) == n;
    PassFailsOnlyReopened(m, order, p);
  }

  function Selections(rounds: seq<Round>): (r: seq<Selection>)
    ensures |r| == |rounds|
  {
    seq(|rounds|, i requires 0 <= i < |rounds| => Selection(rounds[i].others, rounds[i].candidates))
  }

  /** A whole run. */
  lemma RunHappens(m: Multi, e: Event, order: seq<Fd>, selections: seq<Selection>, passes: seq<Pass>)
    requires Reachable(m) && Enabled(m, e) && e.Run? && Ordered(order, Next(m, e).r.watched)
    requires AreRounds(Next(m, e), order, selections, passes)
    ensures var n := AfterRounds(Next(m, e), order, selections, passes);
            && Legal(m, [e] + Happened(passes)) && n == After(m, [e] + Happened(passes))
            && (|passes| == |selections| || n.r.phase == Idle)
            && ((exists k: nat :: ReturnsFrom(Next(m, e), order, selections, passes, k)) ==> n.r.phase == Idle)
            && (n.r.phase == Idle ==>
                  n.r.open == m.r.open && n.r.registered == map[] && n.active == map[] && !n.stopping)
  {
    ReachableInv(m);
    ReachableNext(m, e);
    ReachableInv(Next(m, e));
    RoundsAreLegal(Next(m, e), order, selections, passes);
    LegalEvent(m, e);
    RunConcat(m, [e], Happened(passes));
    RunClosesAll(m, [e] + Happened(passes));
    if k: nat :| ReturnsFrom(Next(m, e), order, selections, passes, k) {
      RunReturns(Next(m, e), order, selections, passes, k);
    }
  }

  lemma RunClosesAll(m: Multi, events: seq<Event>)
    requires Inv(m) && m.r.phase == Idle && Legal(m, events)
    ensures var n := After(m, events);
            n.r.phase == Idle ==> n.r.open == m.r.open && n.r.registered == map[] && n.active == map[] && !n.stopping
  {
    RunKeeps(m, events);
    RunOpened(m, events, m.r.open);
  }

  class PexecMulti {
    var jobs: Queue                       // `buffer` and the control pipe, with the producers at work on them
    var registry: Registry                // `registered_fd_`, and the descriptors in use
    var activeProcs: map<Pid, Handle>
    var stopFlag: StopFlag
    var stopSignum: int
    var stopping: bool
    var loop: S.Loop
    var sigchld: K.Handler
    var orders: Orders                    // watch pipes written to, and signals sent
    var log: Log                          // where each handle is, and its on-stop callback

    ghost var base: S.Place               // where the loop was when the callback began
    ghost var did: seq<S.Op>              // what the callback has done to its table

    ghost function View(): Multi
      reads this, sigchld
    {
      Multi(jobs, registry, sigchld.kernel, orders, log, activeProcs, stopping, stopFlag, stopSignum)
    }

    /** What the loop watches, and where its iterator is. */
    ghost predicate Linked()
      reads this`loop, this`registry, this`base, this`did, loop
    {
      loop.Valid() && Table(loop.Where(), registry.watched) && loop.Where() == S.DoAll(base, did)
    }

    constructor (control: Fd, open: set<Fd>, children: set<Pid>, capacity: nat)
      requires control in open
      ensures View() == Init(control, open, children, capacity) && Reachable(View())
    {
      var k := K.Kernel(children, {}, {}, false, false, [], K.INT_SIZE, 0, 0);
      jobs := Queue([], 0, capacity, 0, 0, [], []);
      registry := Registry(map[], {}, Idle, control, -1, -1, {}, open, 0);
      activeProcs, stopFlag, stopSignum, stopping := map[], StopWait, 0, false;
      loop := new S.Loop(-1);
      sigchld := new K.Handler([], k, K.INT_SIZE);
      orders, log := Orders({}, {}, {}), Log(map[], []);
      base, did := S.Place([], [], false), [];
      new;
      ReachableInit(control, open, children, capacity);
    }

    // -------------------------------------------------------------------------------------------------------------
    // Jobs

    /** The first half of `send_job`. */
    method Add(job: Job)
      modifies this`jobs
      ensures jobs == AddJob(old(jobs), job)
    {
      jobs := jobs.(jobs := jobs.jobs + [job], enqueued := jobs.enqueued + [job]);
    }

    /** `interrupt` does not look at the result of `write`. */
    method Interrupt()
      modifies this`jobs
      ensures jobs == WriteWake(old(jobs))
    {
      if jobs.wake < jobs.capacity {
        jobs := jobs.(wake := jobs.wake + 1);
      } else {
        jobs := jobs.(lost := jobs.lost + 1);
      }
    }

    method SendJobNullptrStop()
      modifies this`jobs
      ensures jobs == SendJob(old(jobs), Sentinel)
    {
      Add(Sentinel);
      Interrupt();
    }

    // -------------------------------------------------------------------------------------------------------------
    // Descriptors

    /** The loop asserts that `fd` is new. */
    method AddReadEvent(fd: Fd, cb: Callback, pos: nat)
      requires Linked() && fd !in registry.watched
      modifies this`registry, this`did, loop`cbs, loop`passed
      ensures Linked() && did == old(did) + [S.Add(fd, pos)]
      ensures registry == AddRead(old(registry), fd, cb)
    {
      assert fd !in S.Members(S.Order(loop.Where()));
      S.DoToMembers(loop.Where(), S.Add(fd, pos));
      DoAllSnoc(base, did, S.Add(fd, pos));
      registry := registry.(registered := registry.registered[fd := cb], watched := registry.watched + {fd});
      did := did + [S.Add(fd, pos)];
      loop.AddReadEvent(fd, pos);
    }

    /** The loop asserts that it knows `fd`. */
    method RemoveReadEvent(fd: Fd)
      requires Linked() && fd in registry.watched
      modifies this`registry, this`did, loop`cbs, loop`passed, loop`actualIterator
      modifies loop`actualIteratorDeleted, loop`recomputeMaxFds
      ensures Linked() && did == old(did) + [S.Remove(fd)]
      ensures registry == RemoveRead(old(registry), fd)
    {
      assert fd in S.Members(S.Order(loop.Where()));
      S.DoToMembers(loop.Where(), S.Remove(fd));
      DoAllSnoc(base, did, S.Remove(fd));
      registry := registry.(registered := registry.registered - {fd}, watched := registry.watched - {fd});
      did := did + [S.Remove(fd)];
      loop.RemoveReadEvent(fd);
    }

    /** The descriptors that a process opens go to the loop. */
    method Attach(pid: Pid, h: Handle, places: Places)
      requires Linked() && FreshHandle(registry.watched, h)
      modifies this`registry, this`did, loop`cbs, loop`passed
      ensures Linked() && did == old(did) + AttachOps(h, places)
      ensures registry == MultiModel.Attach(old(registry), pid, h)
    {
      registry := registry.(open := registry.open + Fds(h));
      AddReadEvent(h.watch, OnWatch(pid), places.watch);
      AddReadEvent(h.out, OnStdout(pid), places.out);
      AddReadEvent(h.err, OnStderr(pid), places.err);
    }

    method Detach(h: Handle)
      requires Linked() && Watches(registry.watched, h)
      modifies this`registry, this`did
      modifies loop`cbs, loop`passed, loop`actualIterator, loop`actualIteratorDeleted, loop`recomputeMaxFds
      ensures Linked() && did == old(did) + DetachOps(h)
      ensures registry == MultiModel.Detach(old(registry), h)
    {
      registry := registry.(open := registry.open - Fds(h));
      RemoveReadEvent(h.watch);
      RemoveReadEvent(h.out);
      RemoveReadEvent(h.err);
    }

    method HandleStop()
      requires Linked() && registry.sigchldFd in registry.watched && registry.controlFd in registry.watched
      requires registry.sigchldFd != registry.controlFd
      modifies this`registry, this`did, this`stopFlag, this`stopSignum, this`stopping
      modifies loop`cbs, loop`passed, loop`actualIterator, loop`actualIteratorDeleted, loop`recomputeMaxFds
      ensures Linked() && did == old(did) + StopOps(old(registry))
      ensures View() == MultiModel.HandleStop(old(View()))
    {
      RemoveRun();
      stopFlag := StopWait;
      stopSignum := -1;
      stopping := false;
      registry := registry.(phase := Interrupted);
    }

    /** The first half of `handle_stop`. */
    method RemoveRun()
      requires Linked() && registry.sigchldFd in registry.watched && registry.controlFd in registry.watched
      requires registry.sigchldFd != registry.controlFd
      modifies this`registry, this`did
      modifies loop`cbs, loop`passed, loop`actualIterator, loop`actualIteratorDeleted, loop`recomputeMaxFds
      ensures Linked() && did == old(did) + StopOps(old(registry))
      ensures registry == RemoveRead(RemoveRead(old(registry), old(registry).sigchldFd), old(registry).controlFd)
    {
      RemoveReadEvent(registry.sigchldFd);
      RemoveReadEvent(registry.controlFd);
    }

    // -------------------------------------------------------------------------------------------------------------
    // Stopping

    method Cleanup()
      modifies this`stopping, this`orders
      ensures View() == MultiModel.Cleanup(old(View()))
    {
      stopping := true;
      ghost var done: set<Pid> := {};
      var todo := activeProcs.Keys;
      match stopFlag
      case StopUser =>
        while todo != {}
          invariant orders == old(orders).(poked := old(orders).poked + done)
          invariant done + todo == activeProcs.Keys && stopping
        {
          var p :| p in todo;
          orders := orders.(poked := orders.poked + {p});
          todo, done := todo - {p}, done + {p};
        }
      case StopKill =>
        while todo != {}
          invariant orders == old(orders).(killed := old(orders).killed + set p | p in done :: (p, stopSignum))
          invariant done + todo == activeProcs.Keys && stopping
        {
          var p :| p in todo;
          orders := orders.(killed := orders.killed + {(p, stopSignum)});
          todo, done := todo - {p}, done + {p};
        }
      case StopWait =>
    }

    method JobNullptrStop() returns (ret: EventReturn)
      modifies this`stopping, this`orders
      ensures ret == StopLoop ==> View() == old(View()) && activeProcs == map[]
      ensures MultiModel.JobNullptrStop(old(View())) ==
              if ret == StopLoop then MultiModel.HandleStop(View()) else View()
    {
      if !stopping && activeProcs != map[] {
        Cleanup();
        return Nothing;
      }
      if activeProcs == map[] {
        return StopLoop;
      }
      return Nothing;
    }

    method JobStop(flag: StopFlag, signum: int) returns (ret: EventReturn)
      modifies this`stopping, this`orders, this`stopFlag, this`stopSignum
      ensures ret == StopLoop ==> activeProcs == map[] && !old(stopping)
      ensures MultiModel.JobStop(old(View()), flag, signum) ==
              if ret == StopLoop then MultiModel.HandleStop(View()) else View()
    {
      if stopping {
        return Nothing;
      }
      stopFlag := flag;
      stopSignum := signum;
      ret := JobNullptrStop();
    }

    // -------------------------------------------------------------------------------------------------------------
    // Processes

    /** `pid` and the descriptors of `h` are what `proc->exec()` yields. */
    method JobSpawnProc(pid: Pid, h: Handle, places: Places)
      requires Linked() && FreshHandle(registry.watched, h)
      modifies this`registry, this`did, this`log, this`activeProcs, this`orders, loop`cbs, loop`passed, sigchld`kernel
      ensures Linked() && did == old(did) + if stopping then [] else AttachOps(h, places)
      ensures View() == JobSpawn(old(View()), pid, h)
    {
      if stopping {
        log := log.(status := log.status[h.id := Dropped]);
        return;
      }
      Record(pid, h);
      Attach(pid, h, places);
      assert registry == MultiModel.Attach(old(registry), pid, h);
    }

    /** All but the descriptors. */
    method Record(pid: Pid, h: Handle)
      requires !stopping
      modifies this`log, this`activeProcs, this`orders, sigchld`kernel
      ensures View().(r := MultiModel.Attach(registry, pid, h)) == JobSpawn(old(View()), pid, h)
    {
      sigchld.Fork(pid);
      orders := EmptyPipes(orders, pid, h);
      log := log.(status := log.status[h.id := MultiModel.Active(pid)]);
      activeProcs := activeProcs[pid := h];
    }

    /** The callback that `job_spawn_proc` sets for the end of `pid`. */
    method OnProcStopped(pid: Pid, h: Handle)
      requires Linked() && Watches(registry.watched, h)
      modifies this`registry, this`did, this`activeProcs, this`jobs
      modifies loop`cbs, loop`passed, loop`actualIterator, loop`actualIteratorDeleted, loop`recomputeMaxFds
      ensures Linked() && did == old(did) + DetachOps(h)
      ensures registry == MultiModel.Detach(old(registry), h) && activeProcs == old(activeProcs) - {pid}
      ensures jobs == if stopping && activeProcs == map[] then SendJob(old(jobs), Sentinel) else old(jobs)
    {
      Detach(h);
      if pid in activeProcs {
        activeProcs := activeProcs - {pid};
      }
      if stopping {
        if activeProcs == map[] {
          SendJobNullptrStop();
        }
      }
    }

    /** The state callback of a handle in the terminal states: the user's on-stop callback, then the one above. */
    method OnStopped(pid: Pid, ending: Ending)
      requires pid in activeProcs && Linked() && Watches(registry.watched, activeProcs[pid])
      modifies this`registry, this`did, this`activeProcs, this`orders, this`log, this`jobs
      modifies loop`cbs, loop`passed, loop`actualIterator, loop`actualIteratorDeleted, loop`recomputeMaxFds
      ensures Linked() && did == old(did) + DetachOps(old(activeProcs[pid]))
      ensures View() == Terminate(old(View()), pid, ending)
    {
      var h := activeProcs[pid];
      orders := EmptyPipes(orders, pid, h);
      log := Log(log.status[h.id := Terminated(ending)], log.fired + [h.id]);
      OnProcStopped(pid, h);
    }

    // -------------------------------------------------------------------------------------------------------------
    // The callbacks of the loop

    method DispatchJob(pid: Pid, h: Handle, places: Places) returns (ret: EventReturn)
      requires jobs.jobs != [] && Linked() && FreshHandle(registry.watched, h)
      modifies this`jobs, this`registry, this`did, this`activeProcs, this`orders, this`log, this`stopping, this`stopFlag
      modifies this`stopSignum, loop`cbs, loop`passed, sigchld`kernel
      ensures Linked()
      ensures ret == StopLoop <==> old(Leaves(View()))
      ensures ret == StopLoop ==> registry == old(registry)
      ensures did == old(did) + if ret == StopLoop then [] else DispatchOps(old(View()), h, places)
      ensures ActOn(old(View()).(q := TakeJob(old(jobs))), old(jobs.jobs[0]), pid, h) ==
              if ret == StopLoop then MultiModel.HandleStop(View()) else View()
    {
      ret := Nothing;
      var job := jobs.jobs[0];
      jobs := jobs.(jobs := jobs.jobs[1..], dispatched := jobs.dispatched + [job]);
      match job
      case Sentinel => ret := JobNullptrStop();
      case Stop(flag, signum) => ret := JobStop(flag, signum);
      case Spawn(id) => JobSpawnProc(pid, h.(id := id), places);
    }

    /** One byte is read, and one job dispatched. */
    method ReadAndDispatch(pid: Pid, h: Handle, places: Places) returns (ret: EventReturn)
      requires jobs.wake > 0 && jobs.jobs != [] && Linked() && FreshHandle(registry.watched, h)
      modifies this`jobs, this`registry, this`did, this`activeProcs, this`orders, this`log, this`stopping, this`stopFlag
      modifies this`stopSignum, loop`cbs, loop`passed, sigchld`kernel
      ensures Linked() && (ret == StopLoop ==> registry == old(registry))
      ensures did + (if ret == StopLoop then StopOps(registry) else []) == old(did) + DispatchOps(old(View()), h, places)
      ensures Dispatch(old(View()), pid, h) == if ret == StopLoop then MultiModel.HandleStop(View()) else View()
    {
      ghost var m := View();
      jobs := jobs.(wake := jobs.wake - 1);
      ghost var s := View();
      ret := DispatchJob(pid, h, places);
      Dispatched(m, s, View(), ret == StopLoop, pid, h, places);
    }

    /** The callback of the control pipe. */
    method OnControlReadable(pid: Pid, h: Handle, places: Places)
      requires jobs.wake > 0 && jobs.jobs != [] && Linked() && FreshHandle(registry.watched, h)
      requires registry.sigchldFd in registry.watched && registry.controlFd in registry.watched
      requires registry.sigchldFd != registry.controlFd
      modifies this`jobs, this`registry, this`did, this`activeProcs, this`orders, this`log, this`stopping, this`stopFlag
      modifies this`stopSignum
      modifies loop`cbs, loop`passed, loop`actualIterator, loop`actualIteratorDeleted, loop`recomputeMaxFds
      modifies sigchld`kernel
      ensures Linked()
      ensures did == old(did) + DispatchOps(old(View()), h, places)
      ensures View() == Dispatch(old(View()), pid, h)
    {
      var ret := ReadAndDispatch(pid, h, places);
      if ret == StopLoop {
        HandleStop();
      }
    }

    /** The callback for a result of `waitpid`: pids that are not active are ignored. */
    method OnSignal(pid: Pid)
      requires Linked() && RegistryInv(registry, activeProcs)
      modifies this`registry, this`did, this`activeProcs, this`orders, this`log, this`jobs
      modifies loop`cbs, loop`passed, loop`actualIterator, loop`actualIteratorDeleted, loop`recomputeMaxFds
      ensures Linked() && RegistryInv(registry, activeProcs)
      ensures View() == EndOne(old(View()), pid) && did == old(did) + EndOneOps(old(View()), pid)
    {
      if pid in activeProcs {
        ActiveIsWatched(registry, activeProcs, pid);
        DetachKeeps(registry, activeProcs, pid);
        OnStopped(pid, EndStopped);
      }
    }

    method OnSignals(pids: seq<Pid>)
      requires Linked() && RegistryInv(registry, activeProcs)
      modifies this`registry, this`did, this`activeProcs, this`orders, this`log, this`jobs
      modifies loop`cbs, loop`passed, loop`actualIterator, loop`actualIteratorDeleted, loop`recomputeMaxFds
      ensures Linked() && View() == EndAll(old(View()), pids)
      ensures did == old(did) + EndAllOps(old(View()), pids)
    {
      var left := pids;
      ghost var done := [];
      while left != []
        invariant Linked() && RegistryInv(registry, activeProcs)
        invariant EndAll(View(), left) == EndAll(old(View()), pids)
        invariant did == old(did) + done
        invariant done + EndAllOps(View(), left) == EndAllOps(old(View()), pids)
        decreases |left|
      {
        var pid := left[0];
        ghost var ops := EndOneOps(View(), pid);
        left := left[1..];
        Associative(done, ops, EndAllOps(EndOne(View(), pid), left));
        Associative(old(did), done, ops);
        OnSignal(pid);
        done := done + ops;
      }
    }

    /** The callback of the signal pipe. It never stops the loop: there is a record to read whenever it is called. */
    method OnSigchldReadable() returns (ghost calls: seq<K.Call>)
      requires Linked() && RegistryInv(registry, activeProcs) && sigchld.Valid() && sigchld.kernel.pipe != []
      modifies this`registry, this`did, this`activeProcs, this`orders, this`log, this`jobs
      modifies loop`cbs, loop`passed, loop`actualIterator, loop`actualIteratorDeleted, loop`recomputeMaxFds
      modifies sigchld
      ensures Linked() && K.IsCallback(old(sigchld.kernel), calls)
      ensures View() == Signals(old(View()), calls)
      ensures did == old(did) + SignalsOps(old(View()), calls)
    {
      var before := |sigchld.signalled|;
      var ret := sigchld.ReadSignal();
      calls := sigchld.calls;
      SignalsCommute(old(View()), calls);
      assert View() == old(View()).(k := K.Effects(old(sigchld.kernel), calls));
      assert sigchld.signalled[before..] == K.ReapedIn(calls);
      OnSignals(sigchld.signalled[before..]);
    }

    /** A new pid and new descriptors, as the system might choose them. */
    method Offer() returns (pid: Pid, h: Handle)
      ensures pid !in sigchld.kernel.children && FreshHandle(registry.open, h)
    {
      ghost var pids := set p: int | p in sigchld.kernel.children;
      ghost var b := Bound(pids);
      ghost var next := b + 1;
      assert next !in pids && next !in sigchld.kernel.children;
      ghost var a := Bound(registry.open);
      assert a + 1 !in registry.open && a + 2 !in registry.open && a + 3 !in registry.open;
      pid :| pid !in sigchld.kernel.children;
      var watch: Fd :| watch !in registry.open;
      var out: Fd :| out !in registry.open && out != watch;
      var err: Fd :| err !in registry.open && err != watch && err != out;
      assert {} !! registry.open + {watch, out, err};
      var rest: set<Fd> :| rest !! registry.open + {watch, out, err};
      h := Handle(0, watch, out, err, rest);
    }

    /** A read of a process's descriptor or of its watch pipe, which ends the process or takes what there is, perhaps but
        for some `more`. */
    method OnProcess(fd: Fd, pid: Pid, ending: Ending, ends: bool, more: bool)
      requires Linked() && pid in activeProcs && Watches(registry.watched, activeProcs[pid])
      modifies this`registry, this`did, this`activeProcs, this`orders, this`log, this`jobs
      modifies loop`cbs, loop`passed, loop`actualIterator, loop`actualIteratorDeleted, loop`recomputeMaxFds
      ensures Linked()
      ensures View() == if ends then Terminate(old(View()), pid, ending)
                        else if more then old(View())
                        else old(View()).(u := old(orders).(output := old(orders.output) - {fd}))
      ensures did == old(did) + if ends then DetachOps(old(activeProcs)[pid]) else []
    {
      if ends {
        OnStopped(pid, ending);
      } else if !more {
        orders := orders.(output := orders.output - {fd});
      }
    }

    /** The callback of the signal pipe, as a callback of the loop. */
    method DoSigchld(fd: Fd) returns (ghost input: Input)
      requires Inv(View()) && Linked() && Has(registry, fd, OnSigchld) && fd in registry.watched
      requires fd != registry.ownFd && fd != registry.controlFd && sigchld.kernel.pipe != []
      modifies this`registry, this`did, this`activeProcs, this`orders, this`log, this`jobs
      modifies loop`cbs, loop`passed, loop`actualIterator, loop`actualIteratorDeleted, loop`recomputeMaxFds
      modifies sigchld
      ensures Linked() && Enabled(old(View()), Fire(fd, input))
      ensures View() == MultiModel.DoAction(old(View()), fd, input) && did == old(did) + Ops(old(View()), fd, input)
    {
      ghost var calls := OnSigchldReadable();
      input := Input(0, Handle(0, 0, 0, 0, {}), Places(0, 0, 0), calls, false, false);
    }

    /** The callback of the control pipe, as a callback of the loop. */
    method DoControl(fd: Fd, places: Places) returns (ghost input: Input)
      requires Inv(View()) && Linked() && Has(registry, fd, OnControl) && fd in registry.watched
      requires fd != registry.ownFd && registry.phase == Running && jobs.wake > 0
      modifies this`jobs, this`registry, this`did, this`activeProcs, this`orders, this`log, this`stopping, this`stopFlag
      modifies this`stopSignum
      modifies loop`cbs, loop`passed, loop`actualIterator, loop`actualIteratorDeleted, loop`recomputeMaxFds
      modifies sigchld`kernel
      ensures Linked() && Enabled(old(View()), Fire(fd, input))
      ensures View() == MultiModel.DoAction(old(View()), fd, input) && did == old(did) + Ops(old(View()), fd, input)
    {
      var pid, h := Offer();
      input := Input(pid, h, places, [], false, false);
      RunIsWatched(registry, activeProcs);
      assert Belongs(registry, activeProcs, fd, OnControl);
      OnControlReadable(pid, h, places);
    }

    /** The three callbacks of a process. */
    method DoProcess(fd: Fd, pid: Pid, fails: bool, more: bool) returns (ghost input: Input)
      requires Inv(View()) && Linked() && fd in registry.registered && fd in registry.watched && fd != registry.ownFd
      requires registry.registered[fd] in {OnWatch(pid), OnStdout(pid), OnStderr(pid)}
      modifies this`registry, this`did, this`activeProcs, this`orders, this`log, this`jobs
      modifies loop`cbs, loop`passed, loop`actualIterator, loop`actualIteratorDeleted, loop`recomputeMaxFds
      ensures Linked() && Enabled(old(View()), Fire(fd, input))
      ensures View() == MultiModel.DoAction(old(View()), fd, input) && did == old(did) + Ops(old(View()), fd, input)
    {
      ProcessRuns(View(), fd, pid);
      ActiveIsWatched(registry, activeProcs, pid);
      var cb := registry.registered[fd];
      var failed := fails || if cb.OnWatch? then pid !in orders.poked else fd !in orders.output;
      input := Input(0, Handle(0, 0, 0, 0, {}), Places(0, 0, 0), [], fails, more);
      assert failed == Fails(View(), fd, input);
      OnProcess(fd, pid, if cb.OnWatch? && !failed then EndUserStopped else EndFailed, cb.OnWatch? || failed, more);
    }

    /** `do_action`. */
    method DoAction(fd: Fd, choice: Choice) returns (ghost input: Input)
      requires Reachable(View()) && Linked() && fd in registry.watched && fd != registry.ownFd
      requires fd == registry.controlFd ==> jobs.wake > 0
      requires fd == registry.sigchldFd ==> sigchld.kernel.pipe != []
      modifies this`jobs, this`registry, this`did, this`activeProcs, this`orders, this`log, this`stopping, this`stopFlag
      modifies this`stopSignum
      modifies loop`cbs, loop`passed, loop`actualIterator, loop`actualIteratorDeleted, loop`recomputeMaxFds
      modifies sigchld
      ensures Linked() && Enabled(old(View()), Fire(fd, input))
      ensures View() == MultiModel.DoAction(old(View()), fd, input) && did == old(did) + Ops(old(View()), fd, input)
    {
      ReachableInv(View());
      CallbackKnown(View(), fd);
      var cb := registry.registered[fd];
      if cb == OnSigchld {
        input := DoSigchld(fd);
      } else if cb == OnControl {
        input := DoControl(fd, choice.places);
      } else {
        input := DoProcess(fd, cb.pid, choice.fails, choice.more);
      }
    }

    // -------------------------------------------------------------------------------------------------------------
    // Between callbacks

    /** A caller of `exec` or `stop`, up to its write to the control pipe. */
    method Submit(job: Job)
      requires Enabled(View(), Enqueue(job))
      modifies this`jobs, this`log
      ensures View() == Next(old(View()), Enqueue(job))
    {
      Add(job);
      jobs := jobs.(unsent := jobs.unsent + 1);
      if job.Spawn? {
        log := log.(status := log.status[job.id := Queued]);
      }
    }

    /** What another thread, a child or a user does; what cannot happen now does not. */
    method Lapse(e: Event) returns (happened: bool)
      requires sigchld.Valid() && Other(e)
      modifies this`jobs, this`log, this`orders, sigchld`kernel
      ensures happened == Enabled(old(View()), e)
      ensures View() == if happened then Next(old(View()), e) else old(View())
    {
      match e
      case Enqueue(job) =>
        happened := job != Sentinel && (job.Spawn? ==> job.id !in log.status);
        if happened {
          Submit(job);
        }
      case Interrupt =>
        happened := jobs.unsent > 0;
        if happened {
          jobs := jobs.(unsent := jobs.unsent - 1);
          Interrupt();
        }
      case Happens(event) =>
        happened := true;
        sigchld.Lapses(event);
      case Poke(pid) =>
        happened := pid in activeProcs;
        if happened {
          orders := orders.(poked := orders.poked + {pid});
        }
      case Writes(fd) =>
        happened := fd in registry.registered && (registry.registered[fd].OnStdout? || registry.registered[fd].OnStderr?);
        if happened {
          orders := orders.(output := orders.output + {fd});
        }
    }

    method LapseAll(todo: seq<Event>, ghost ahead: seq<Fd>, ghost ready: set<Fd>) returns (ghost events: seq<Event>)
      requires Reachable(View()) && Truthful(View(), ahead, ready)
      modifies this`jobs, this`log, this`orders, sigchld`kernel
      ensures Reachable(View()) && Truthful(View(), ahead, ready)
      ensures AllOther(events) && Legal(old(View()), events) && events == Happening(old(View()), todo)
      ensures View() == After(old(View()), events)
    {
      events := [];
      for i := 0 to |todo|
        invariant Reachable(View()) && Truthful(View(), ahead, ready)
        invariant AllOther(events) && Legal(old(View()), events)
        invariant View() == After(old(View()), events)
        invariant Happening(old(View()), todo) == events + Happening(View(), todo[i..])
      {
        assert todo[i..][0] == todo[i] && todo[i..][1..] == todo[i + 1..];
        var happened := LapseOne(todo[i], ahead, ready);
        if happened {
          AfterSnoc(old(View()), events, todo[i]);
          Associative(events, [todo[i]], Happening(View(), todo[i + 1..]));
          events := events + [todo[i]];
        }
      }
    }

    method LapseOne(e: Event, ghost ahead: seq<Fd>, ghost ready: set<Fd>) returns (happened: bool)
      requires Reachable(View()) && Truthful(View(), ahead, ready)
      modifies this`jobs, this`log, this`orders, sigchld`kernel
      ensures Reachable(View()) && Truthful(View(), ahead, ready)
      ensures happened <==> Other(e) && Enabled(old(View()), e)
      ensures View() == if happened then Next(old(View()), e) else old(View())
    {
      happened := false;
      if Other(e) {
        ghost var m := View();
        ReachableInv(m);
        happened := Lapse(e);
        if happened {
          OtherTruthful(m, e, ahead, ready);
          ReachableNext(m, e);
        }
      }
    }

    // -------------------------------------------------------------------------------------------------------------
    // Running

    /** `run`, up to the call of the loop. The descriptors are those that the loop and the handler open. */
    method Start(own: Fd, signal: Fd, ends: set<Fd>, capacity: nat, world: seq<K.Turn>, pos: nat, pos': nat)
      requires registry.phase == Idle && registry.controlFd in registry.open
      requires FreshRun(registry.open, own, signal, ends)
      requires capacity >= K.INT_SIZE && sigchld.kernel.zombies <= sigchld.kernel.children
      modifies this`registry, this`loop, this`sigchld, this`base, this`did
      ensures fresh(loop) && fresh(sigchld)
      ensures View() ==
              old(View()).(r := StartRun(old(registry), own, signal, ends), k := K.Installed(old(sigchld.kernel), capacity))
      ensures Between()
    {
      Create(own, signal, ends, capacity, world);
      Register(signal, pos, pos');
    }

    /** A new loop, which watches its own pipe, and a new handler. */
    method Create(own: Fd, signal: Fd, ends: set<Fd>, capacity: nat, world: seq<K.Turn>)
      requires capacity >= K.INT_SIZE && sigchld.kernel.zombies <= sigchld.kernel.children
      modifies this`registry, this`loop, this`sigchld, this`base, this`did
      ensures fresh(loop) && fresh(sigchld) && Linked() && did == [] && !base.deleted
      ensures registry.watched == {own} && registry.sigchldFd == signal && registry.controlFd == old(registry).controlFd
      ensures View().(r := AddRead(AddRead(registry, signal, OnSigchld), registry.controlFd, OnControl)) ==
              old(View()).(r := StartRun(old(registry), own, signal, ends), k := K.Installed(old(sigchld.kernel), capacity))
    {
      loop := new S.Loop(own);
      sigchld := new K.Handler(world, sigchld.kernel, capacity);
      base, did := loop.Where(), [];
      registry := registry.(ownFd := own, sigchldFd := signal, ends := ends, open := registry.open + {own, signal} + ends,
                            watched := {own}, phase := Running);
    }

    method Register(signal: Fd, pos: nat, pos': nat)
      requires Linked() && did == [] && !base.deleted
      requires signal !in registry.watched && registry.controlFd !in registry.watched && signal != registry.controlFd
      modifies this`registry, this`did, loop`cbs, loop`passed
      ensures Between()
      ensures registry == AddRead(AddRead(old(registry), signal, OnSigchld), registry.controlFd, OnControl)
    {
      AddReadEvent(signal, OnSigchld, pos);
      AddReadEvent(registry.controlFd, OnControl, pos');
      AddsKeepFlag(base, did);
    }

    /** Between two passes of the loop. */
    ghost predicate Between()
      reads this`loop, this`registry, loop
    {
      loop.Valid() && Table(loop.Where(), registry.watched) && !loop.actualIteratorDeleted
    }

    /** The loop's own descriptor was readable: the loop returns and is destroyed, and so is the signal handler. */
    method Leave()
      modifies this`registry
      ensures View() == LeaveLoop(old(View()))
    {
      registry := registry.(phase := Idle, watched := {},
                            open := registry.open - {registry.ownFd, registry.sigchldFd} - registry.ends);
    }

    // -------------------------------------------------------------------------------------------------------------
    // The loop

    /** The callback of the current entry, and the step to the next one. */
    method Visit(fd: Fd, choice: Choice) returns (ghost input: Input)
      requires Reachable(View()) && Between() && fd in registry.watched && fd != registry.ownFd
      requires loop.Where().ahead != [] && loop.Where().ahead[0] == fd
      requires fd == registry.controlFd ==> jobs.wake > 0
      requires fd == registry.sigchldFd ==> sigchld.kernel.pipe != []
      modifies this`jobs, this`registry, this`did, this`base, this`activeProcs, this`orders, this`log, this`stopping
      modifies this`stopFlag, this`stopSignum
      modifies loop`cbs, loop`passed, loop`actualIterator, loop`actualIteratorDeleted, loop`recomputeMaxFds
      modifies sigchld
      ensures Enabled(old(View()), Fire(fd, input)) && View() == Next(old(View()), Fire(fd, input))
      ensures loop.Valid() && loop.Where() == Moved(old(View()), old(loop.Where()), fd, input)
    {
      ghost var m, p := View(), loop.Where();
      input := CallBack(fd, choice);
      CurrentOrGone(m, p, fd, input);
      loop.Advance();
    }

    method CallBack(fd: Fd, choice: Choice) returns (ghost input: Input)
      requires Reachable(View()) && Between() && fd in registry.watched && fd != registry.ownFd
      requires fd == registry.controlFd ==> jobs.wake > 0
      requires fd == registry.sigchldFd ==> sigchld.kernel.pipe != []
      modifies this`jobs, this`registry, this`did, this`base, this`activeProcs, this`orders, this`log, this`stopping
      modifies this`stopFlag, this`stopSignum
      modifies loop`cbs, loop`passed, loop`actualIterator, loop`actualIteratorDeleted, loop`recomputeMaxFds
      modifies sigchld
      ensures Enabled(old(View()), Fire(fd, input)) && View() == Next(old(View()), Fire(fd, input))
      ensures loop.Valid() && loop.Where() == S.DoAll(old(loop.Where()), Ops(old(View()), fd, input))
    {
      base, did := loop.Where(), [];
      ghost var m := View();
      input := DoAction(fd, choice);
      assert [] + Ops(m, fd, input) == Ops(m, fd, input);
    }

    /** The turn of a ready entry: what others do before, the callback, and the step to the next entry. */
    method Turn(fd: Fd, choice: Choice, ghost m: Multi, ghost p: S.Place, ghost events: seq<Event>, ghost ready: set<Fd>)
      returns (ghost longer: seq<Event>)
      requires loop.Valid() && Passing(m, p, events, ready, View(), loop.Where())
      requires loop.Where().ahead != [] && loop.Where().ahead[0] == fd && fd in ready && fd != registry.ownFd
      modifies this`jobs, this`registry, this`did, this`base, this`activeProcs, this`orders, this`log, this`stopping
      modifies this`stopFlag, this`stopSignum
      modifies loop`cbs, loop`passed, loop`actualIterator, loop`actualIteratorDeleted, loop`recomputeMaxFds
      modifies sigchld
      ensures loop.Valid() && Passing(m, p, longer, ready, View(), loop.Where())
      ensures ControlAhead(View(), loop.Where()) < old(ControlAhead(View(), loop.Where())) ||
              (ControlAhead(View(), loop.Where()) == old(ControlAhead(View(), loop.Where())) &&
               |loop.Where().ahead| < old(|loop.Where().ahead|))
    {
      ghost var n, q := View(), loop.Where();
      ghost var more := LapseAll(choice.others, q.ahead, ready);
      PassingOthers(m, p, events, ready, n, q, more);
      n := View();
      CurrentReadable(n, q, fd, ready);
      ghost var input := Visit(fd, choice);
      PassingFires(m, p, events + more, ready, n, q, fd, input);
      longer := events + more + [Fire(fd, input)];
    }

    /** The turn of the loop's own entry. */
    method LastTurn(ghost m: Multi, ghost p: S.Place, ghost events: seq<Event>, ghost ready: set<Fd>)
      returns (ghost longer: seq<Event>)
      requires loop.Valid() && Passing(m, p, events, ready, View(), loop.Where())
      requires loop.Where().ahead != [] && loop.Where().ahead[0] == registry.ownFd && registry.ownFd in ready
      modifies this`registry
      ensures Reachable(View()) && registry.phase == Idle
      ensures Legal(m, longer) && Follows(m, p, longer, ready) && After(m, longer) == View()
    {
      ghost var n, q := View(), loop.Where();
      PassingEnds(m, p, events, ready, n, q);
      ReachableNext(n, Fire(n.r.ownFd, NOTHING));
      Leave();
      longer := events + [Fire(n.r.ownFd, NOTHING)];
    }

    /** What the loop does after `select` has returned: it walks its table and calls back what is `ready`, while others
        act as `choices` say. The pass comes to an end, and is one of those that `MultiLoop` speaks about. */
    method RunPass(ready: set<Fd>, choices: nat -> Choice) returns (ret: EventReturn, ghost events: seq<Event>)
      requires Reachable(View()) && Between() && registry.phase != Idle && Truthful(View(), loop.cbs, ready) && ready != {}
      modifies this`jobs, this`registry, this`did, this`base, this`activeProcs, this`orders, this`log, this`stopping
      modifies this`stopFlag, this`stopSignum
      modifies loop`cbs, loop`passed, loop`actualIterator, loop`actualIteratorDeleted, loop`recomputeMaxFds
      modifies sigchld
      ensures Reachable(View()) && IsPass(old(View()), old(loop.cbs), Pass([], ready, events))
      ensures View() == After(old(View()), events)
      ensures if ret == StopLoop then registry.phase == Idle else registry.phase != Idle && Between()
      ensures ret != StopLoop ==> loop.cbs == OrderAfter(old(View()), old(loop.cbs), Pass([], ready, events))
    {
      ghost var m, order := View(), loop.cbs;
      PassingBegins(m, loop.Where(), order, ready);
      loop.Begin();
      assert View() == m && loop.Where() == S.Place([], order, false);
      ret, events := WalkTable(ready, choices, m, S.Place([], order, false));
    }

    method WalkTable(ready: set<Fd>, choices: nat -> Choice, ghost m: Multi, ghost p: S.Place)
      returns (ret: EventReturn, ghost events: seq<Event>)
      requires loop.Valid() && m == View() && p == loop.Where() && Passing(m, p, [], ready, m, p)
      modifies this`jobs, this`registry, this`did, this`base, this`activeProcs, this`orders, this`log, this`stopping
      modifies this`stopFlag, this`stopSignum
      modifies loop`cbs, loop`passed, loop`actualIterator, loop`actualIteratorDeleted, loop`recomputeMaxFds
      modifies sigchld
      ensures Reachable(View()) && Legal(m, events) && Follows(m, p, events, ready) && View() == After(m, events)
      ensures if ret == StopLoop then registry.phase == Idle else registry.phase != Idle && Between()
      ensures ret != StopLoop ==> loop.cbs == S.Order(S.Sweep(p, ready, Reactions(m, events)).place)
    {
      events := [];
      var k := 0;
      while loop.actualIterator != S.End
        invariant loop.Valid() && Passing(m, p, events, ready, View(), loop.Where())
        decreases ControlAhead(View(), loop.Where()), |loop.Where().ahead|
      {
        var fd := loop.actualIterator.fd;
        if fd in ready {
          if fd == registry.ownFd {
            events := LastTurn(m, p, events, ready);
            return StopLoop, events;
          }
          events := Turn(fd, choices(k), m, p, events, ready);
          k := k + 1;
        } else {
          PassOver(fd, m, p, events, ready);
        }
      }
      ret := Nothing;
      ReachableInv(m);
      ThroughSweeps(m, p, events, ready, View(), loop.Where());
      PassingDone(m, p, events, ready, View(), loop.Where());
    }

    /** The turn of an entry that is not ready. */
    method PassOver(fd: Fd, ghost m: Multi, ghost p: S.Place, ghost events: seq<Event>, ghost ready: set<Fd>)
      requires loop.Valid() && Passing(m, p, events, ready, View(), loop.Where())
      requires loop.Where().ahead != [] && loop.Where().ahead[0] == fd && fd !in ready
      modifies loop`passed, loop`actualIterator, loop`actualIteratorDeleted
      ensures loop.Valid() && Passing(m, p, events, ready, View(), loop.Where())
      ensures ControlAhead(View(), loop.Where()) <= old(ControlAhead(View(), loop.Where()))
      ensures |loop.Where().ahead| < old(|loop.Where().ahead|)
    {
      PassingSteps(m, p, events, ready, View(), loop.Where());
      loop.Advance();
    }

    /** What `select` can report. */
    predicate CanRead(fd: Fd)
      reads this, sigchld
      ensures CanRead(fd) == Readable(View(), fd)
    {
      if fd == registry.ownFd then registry.phase == Interrupted
      else if fd !in registry.registered || (fd == registry.controlFd && jobs.wake == 0) then false
      else if fd == registry.sigchldFd && fd != registry.controlFd && sigchld.kernel.pipe == [] then false
      else
        match registry.registered[fd]
        case OnWatch(pid) => pid in orders.poked
        case OnStdout(_) => fd in orders.output
        case OnStderr(_) => fd in orders.output
        case _ => true
    }

    /** `select`: of the `candidates`, those that are watched and can be read. Any subset of them may be reported. */
    method Select(candidates: set<Fd>) returns (ready: set<Fd>)
      ensures forall fd :: fd in ready <==> fd in candidates && fd in loop.cbs && Readable(View(), fd)
    {
      ready := set fd | fd in candidates && fd in loop.cbs && CanRead(fd);
    }

    /** While `select` waits, others act; then it reports what can be read. */
    method Wait(others: seq<Event>, candidates: set<Fd>) returns (ready: set<Fd>, ghost waits: seq<Event>)
      requires Reachable(View()) && Between() && registry.phase != Idle
      modifies this`jobs, this`log, this`orders, loop`maxFd, sigchld`kernel
      ensures Reachable(View()) && Between() && registry.phase != Idle && Truthful(View(), loop.cbs, ready)
      ensures AllOther(waits) && Legal(old(View()), waits) && View() == After(old(View()), waits)
      ensures waits == Happening(old(View()), others) && loop.cbs == old(loop.cbs)
      ensures forall fd :: fd in ready <==> (fd in candidates && fd in loop.cbs && Readable(View(), fd))
    {
      waits := LapseAll(others, [], {});
      var max := loop.GetMaxFd();
      ready := Select(candidates);
      ReachableInv(View());
    }

    /** One round of the loop: `select` reports something, and a pass follows, in which only descriptors opened in that pass
        are read without having anything to read. If there is nothing to report, it goes on waiting. */
    method RunRound(round: Round) returns (ret: EventReturn, ghost p: Pass)
      requires Reachable(View()) && Between() && registry.phase != Idle
      modifies this`jobs, this`registry, this`did, this`base, this`activeProcs, this`orders, this`log, this`stopping
      modifies this`stopFlag, this`stopSignum
      modifies loop, sigchld
      ensures IsRound(old(View()), old(loop.cbs), round.others, round.candidates, p)
      ensures Reachable(View()) && View() == AfterPass(old(View()), p)
      ensures ret != StopLoop ==> loop.cbs == OrderNext(old(View()), old(loop.cbs), p)
      ensures OnlyReopenedFail(Woken(old(View()), p), p.events, {})
      ensures if ret == StopLoop then registry.phase == Idle else registry.phase != Idle && Between()
    {
      ghost var m, order := View(), loop.cbs;
      assert Inv(m) && Ordered(order, m.r.watched) by {
        ReachableInv(m);
        assert S.Order(loop.Where()) == order;
      }
      var ready;
      ghost var waits, events;
      ready, waits := Wait(round.others, round.candidates);
      ghost var n := View();
      if ready == {} {
        return Nothing, Pass(waits, {}, []);
      }
      ret, events := RunPass(ready, round.choices);
      p := Pass(waits, ready, events);
      RoundIsPass(m, n, order, p);
    }

    method NextRound(round: Round, ghost m: Multi, ghost order: seq<Fd>, ghost before: seq<Selection>,
                     ghost passes: seq<Pass>) returns (ret: EventReturn, ghost longer: seq<Pass>)
      requires Reachable(View()) && Between() && registry.phase != Idle && AreRounds(m, order, before, passes)
      requires View() == AfterRounds(m, order, before, passes) && loop.cbs == OrderLast(m, order, before, passes)
      modifies this`jobs, this`registry, this`did, this`base, this`activeProcs, this`orders, this`log, this`stopping
      modifies this`stopFlag, this`stopSignum
      modifies loop, sigchld
      ensures Reachable(View()) && AreRounds(m, order, before + [Selection(round.others, round.candidates)], longer)
      ensures View() == AfterRounds(m, order, before + [Selection(round.others, round.candidates)], longer)
      ensures if ret == StopLoop then registry.phase == Idle else registry.phase != Idle && Between()
      ensures ret != StopLoop ==>
                loop.cbs == OrderLast(m, order, before + [Selection(round.others, round.candidates)], longer)
    {
      ghost var p;
      ret, p := RunRound(round);
      RoundsSnoc(m, order, before, passes, Selection(round.others, round.candidates), p);
      longer := passes + [p];
    }

    /** `loop`: one round after another, until it leaves or no more are told about. */
    method RunLoop(rounds: seq<Round>) returns (ghost passes: seq<Pass>)
      requires Reachable(View()) && Between() && registry.phase != Idle
      modifies this`jobs, this`registry, this`did, this`base, this`activeProcs, this`orders, this`log, this`stopping
      modifies this`stopFlag, this`stopSignum
      modifies loop, sigchld
      ensures Reachable(View()) && AreRounds(old(View()), old(loop.cbs), Selections(rounds), passes)
      ensures View() == AfterRounds(old(View()), old(loop.cbs), Selections(rounds), passes)
    {
      passes := [];
      ghost var m, order, all := View(), loop.cbs, Selections(rounds);
      for i := 0 to |rounds|
        invariant Reachable(View()) && Between() && registry.phase != Idle
        invariant AreRounds(m, order, all[..i], passes)
        invariant View() == AfterRounds(m, order, all[..i], passes) && loop.cbs == OrderLast(m, order, all[..i], passes)
      {
        assert all[..i + 1] == all[..i] + [all[i]];
        var ret;
        ret, passes := NextRound(rounds[i], m, order, all[..i], passes);
        if ret == StopLoop {
          RoundsStop(m, order, all[..i + 1], passes, all[i + 1..]);
          assert all[..i + 1] + all[i + 1..] == all;
          return;
        }
      }
      assert all[..|rounds|] == all;
    }

    /** `run`: what it does are the rounds told about, one pass for each until it leaves, and so every step of the class is a
        step of the model, and all that holds of the model's runs holds of it. When it has returned, nothing is active or
        registered, and what is open is what was open before; and it does return, once it closes and the rounds go on for
        long enough. */
    method RunAll(own: Fd, signal: Fd, ends: set<Fd>, capacity: nat, world: seq<K.Turn>, pos: nat, pos': nat,
                  rounds: seq<Round>) returns (ghost order: seq<Fd>, ghost passes: seq<Pass>)
      requires Reachable(View()) && Enabled(View(), Run(own, signal, ends, capacity))
      modifies this
      ensures Reachable(View())
      ensures var begun := Next(old(View()), Run(own, signal, ends, capacity));
              && Ordered(order, begun.r.watched) && AreRounds(begun, order, Selections(rounds), passes)
              && View() == AfterRounds(begun, order, Selections(rounds), passes)
              && ((exists k: nat :: ReturnsFrom(begun, order, Selections(rounds), passes, k)) ==> registry.phase == Idle)
      ensures Legal(old(View()), [Run(own, signal, ends, capacity)] + Happened(passes))
      ensures View() == After(old(View()), [Run(own, signal, ends, capacity)] + Happened(passes))
      ensures |passes| == |rounds| || registry.phase == Idle
      ensures registry.phase == Idle ==>
                && registry.open == old(registry.open) && registry.registered == map[] && activeProcs == map[] && !stopping
    {
      ghost var m := View();
      ReachableInv(m);
      ReachableNext(m, Run(own, signal, ends, capacity));
      Start(own, signal, ends, capacity, world, pos, pos');
      ghost var begun := View();
      order := loop.cbs;
      assert S.Order(loop.Where()) == order;
      passes := RunLoop(rounds);
      RunHappens(m, Run(own, signal, ends, capacity), order, Selections(rounds), passes);
    }
  }
}
