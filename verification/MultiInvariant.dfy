/** Every step of `pexec_multi` keeps the invariant of its model. */
module MultiInvariant {
  import opened Events
  import opened MultiModel
  import K = SigchldHandler

  // ---------------------------------------------------------------------------------------------------------------
  // Counting

  lemma SnocCount<T>(s: seq<T>, x: T)
    ensures multiset(s + [x]) == multiset(s) + multiset{x}
  {}

  lemma HeadCount<T>(s: seq<T>)
    requires s != []
    ensures multiset(s) == multiset{s[0]} + multiset(s[1..])
  {
    assert s == [s[0]] + s[1..];
  }

  // ---------------------------------------------------------------------------------------------------------------
  // The registry

  lemma DetachKeeps(r: Registry, active: map<Pid, Handle>, pid: Pid)
    requires RegistryInv(r, active) && pid in active
    ensures RegistryInv(Detach(r, active[pid]), active - {pid})
  {
    var h, left := active[pid], active - {pid};
    var d := Detach(r, h);
    assert Attached(r, pid, h);
    assert d.registered == r.registered - {h.watch, h.out, h.err};
    assert d.watched == r.watched - {h.watch, h.out, h.err};
    forall p | p in left ensures Attached(d, p, left[p]) {
      assert Attached(r, p, active[p]);
    }
    forall fd | fd in d.registered ensures Belongs(d, left, fd, d.registered[fd]) {
      assert Belongs(r, active, fd, r.registered[fd]);
    }
  }

  lemma AttachKeeps(r: Registry, active: map<Pid, Handle>, pid: Pid, h: Handle)
    requires RegistryInv(r, active) && pid !in active && FreshHandle(r.watched, h) && r.phase == Running
    ensures RegistryInv(Attach(r, pid, h), active[pid := h])
  {
    var a, more := Attach(r, pid, h), active[pid := h];
    assert a.registered == r.registered[h.watch := OnWatch(pid)][h.out := OnStdout(pid)][h.err := OnStderr(pid)];
    forall p | p in more ensures Attached(a, p, more[p]) {
      if p != pid {
        assert Attached(r, p, active[p]);
      }
    }
    forall fd | fd in a.registered ensures Belongs(a, more, fd, a.registered[fd]) {
      if fd in r.registered {
        assert Belongs(r, active, fd, r.registered[fd]);
      }
    }
  }

  lemma DetachOpen(r: Registry, active: map<Pid, Handle>, pid: Pid)
    requires RegistryInv(r, active) && OpenInv(r, active) && pid in active
    ensures OpenInv(Detach(r, active[pid]), active - {pid})
  {
    var h, left := active[pid], active - {pid};
    var d := Detach(r, h);
    assert Attached(r, pid, h) && Has(r, r.controlFd, OnControl) && Has(r, r.sigchldFd, OnSigchld);
    assert d.watched == r.watched - {h.watch, h.out, h.err};
    assert r.ends !! Fds(h);
    forall p | p in left ensures left[p].rest <= d.open && left[p].rest !! d.watched + d.ends {
      assert active[p].rest !! active[pid].rest;
    }
  }

  lemma AttachOpen(r: Registry, active: map<Pid, Handle>, pid: Pid, h: Handle)
    requires OpenInv(r, active) && pid !in active && FreshHandle(r.open, h) && r.phase == Running
    ensures OpenInv(Attach(r, pid, h), active[pid := h])
  {
    var a, more := Attach(r, pid, h), active[pid := h];
    assert a.watched == r.watched + {h.watch, h.out, h.err};
    forall p | p in more ensures more[p].rest <= a.open && more[p].rest !! a.watched + a.ends {
      if p != pid {
        assert active[p].rest <= r.open;
      }
    }
  }

  /** With no process left, removing the two descriptors of the run leaves only the select loop's own. */
  lemma StopRegistry(r: Registry)
    requires RegistryInv(r, map[]) && r.phase == Running
    ensures RegistryInv(RemoveRead(RemoveRead(r, r.sigchldFd), r.controlFd).(phase := Interrupted), map[])
  {
    var d := RemoveRead(RemoveRead(r, r.sigchldFd), r.controlFd);
    assert Has(r, r.sigchldFd, OnSigchld) && Has(r, r.controlFd, OnControl);
    forall fd | fd in r.registered ensures fd == r.sigchldFd || fd == r.controlFd {
      assert Belongs(r, map[], fd, r.registered[fd]);
    }
    assert d.registered == map[];
    assert d.watched == {r.ownFd};
  }

  lemma StartOpen(r: Registry, own: Fd, sigchld: Fd, ends: set<Fd>)
    requires RegistryInv(r, map[]) && OpenInv(r, map[]) && r.phase == Idle && FreshRun(r.open, own, sigchld, ends)
    ensures OpenInv(StartRun(r, own, sigchld, ends), map[])
  {
    assert StartRun(r, own, sigchld, ends).watched == {own, sigchld, r.controlFd};
  }

  lemma StartRegistry(r: Registry, own: Fd, sigchld: Fd, ends: set<Fd>)
    requires RegistryInv(r, map[]) && r.phase == Idle && r.controlFd in r.open && FreshRun(r.open, own, sigchld, ends)
    ensures RegistryInv(StartRun(r, own, sigchld, ends), map[])
  {
    var s := StartRun(r, own, sigchld, ends);
    assert s.registered == map[sigchld := OnSigchld, r.controlFd := OnControl];
    assert s.watched == {own, sigchld, r.controlFd};
  }

  // ---------------------------------------------------------------------------------------------------------------
  // The queue

  lemma SendKeeps(q: Queue, job: Job)
    requires QueueInv(q)
    ensures QueueInv(SendJob(q, job))
    ensures SendJob(q, job).jobs == q.jobs + [job]
  {
    assert q.dispatched + (q.jobs + [job]) == q.dispatched + q.jobs + [job];
  }

  lemma TakeKeeps(q: Queue)
    requires QueueInv(q) && q.jobs != [] && q.wake > 0
    ensures QueueInv(TakeJob(ReadWake(q)))
  {
    assert q.dispatched + q.jobs == q.dispatched + [q.jobs[0]] + q.jobs[1..];
  }

  // ---------------------------------------------------------------------------------------------------------------
  // The places of spawn jobs

  lemma SentinelKeepsStatus(log: Log, jobs: seq<Job>, active: map<Pid, Handle>, job: Job)
    requires StatusInv(log, jobs, active) && !job.Spawn?
    ensures StatusInv(log, jobs + [job], active)
  {
    SnocCount(jobs, job);
  }

  lemma EnqueueKeepsStatus(log: Log, jobs: seq<Job>, active: map<Pid, Handle>, id: Id)
    requires StatusInv(log, jobs, active) && id !in log.status
    ensures StatusInv(log.(status := log.status[id := Queued]), jobs + [Spawn(id)], active)
  {
    SnocCount(jobs, Spawn(id));
  }

  lemma TerminateKeepsStatus(log: Log, jobs: seq<Job>, active: map<Pid, Handle>, pid: Pid, ending: Ending)
    requires StatusInv(log, jobs, active) && pid in active
    ensures var id := active[pid].id;
            StatusInv(Log(log.status[id := Terminated(ending)], log.fired + [id]), jobs, active - {pid})
  {
    SnocCount(log.fired, active[pid].id);
  }

  lemma DropKeepsStatus(log: Log, jobs: seq<Job>, active: map<Pid, Handle>, id: Id)
    requires StatusInv(log, jobs, active) && jobs != [] && jobs[0] == Spawn(id)
    ensures StatusInv(log.(status := log.status[id := Dropped]), jobs[1..], active)
  {
    HeadCount(jobs);
    assert multiset(jobs)[Spawn(id)] == 1;
  }

  lemma SpawnKeepsStatus(log: Log, jobs: seq<Job>, active: map<Pid, Handle>, pid: Pid, h: Handle)
    requires StatusInv(log, jobs, active) && jobs != [] && jobs[0] == Spawn(h.id) && pid !in active
    ensures StatusInv(log.(status := log.status[h.id := Active(pid)]), jobs[1..], active[pid := h])
  {
    HeadCount(jobs);
    assert multiset(jobs)[Spawn(h.id)] == 1;
  }

  lemma OtherJobKeepsStatus(log: Log, jobs: seq<Job>, active: map<Pid, Handle>)
    requires StatusInv(log, jobs, active) && jobs != [] && !jobs[0].Spawn?
    ensures StatusInv(log, jobs[1..], active)
  {
    HeadCount(jobs);
  }

  // ---------------------------------------------------------------------------------------------------------------
  // The functions of the class

  lemma TerminateKeeps(m: Multi, pid: Pid, ending: Ending)
    requires CoreInv(m) && pid in m.active
    ensures CoreInv(Terminate(m, pid, ending))
  {
    var t := Terminate(m, pid, ending);
    DetachKeeps(m.r, m.active, pid);
    DetachOpen(m.r, m.active, pid);
    TerminateKeepsStatus(m.log, m.q.jobs, m.active, pid, ending);
    if m.stopping && t.active == map[] {
      SendKeeps(m.q, Sentinel);
      SnocCount(m.q.jobs, Sentinel);
      SentinelKeepsStatus(t.log, m.q.jobs, t.active, Sentinel);
    }
  }

  /** The children may change as long as the active processes stay children. */
  lemma KernelAside(m: Multi, k: K.Kernel)
    requires CoreInv(m) && ChildInv(k, m.active.Keys)
    ensures CoreInv(m.(k := k))
  {}

  lemma SignalKeeps(m: Multi, s: K.Stage, c: K.Call)
    requires CoreInv(m) && K.Possible(m.k, s, c)
    ensures CoreInv(Signal(m, c)) && Signal(m, c).k == K.Effect(m.k, c)
  {
    var k := K.Effect(m.k, c);
    K.CallChildren(m.k, s, c);
    if c.Reaped? && c.pid in m.active {
      TerminateKeeps(m, c.pid, EndStopped);
      KernelAside(Terminate(m, c.pid, EndStopped), k);
    } else {
      KernelAside(m, k);
    }
  }

  lemma {:induction false} SignalsKeep(m: Multi, s: K.Stage, calls: seq<K.Call>)
    requires CoreInv(m) && K.AllPossible(m.k, s, calls)
    ensures CoreInv(Signals(m, calls)) && Signals(m, calls).k == K.Effects(m.k, calls)
    decreases |calls|
  {
    if calls != [] {
      SignalKeeps(m, s, calls[0]);
      SignalsKeep(Signal(m, calls[0]), K.Then(s, calls[0]), calls[1..]);
    }
  }

  lemma HandleStopKeeps(m: Multi)
    requires QueueInv(m.q) && SentinelInv(m.q.jobs, false) && m.r.phase == Running
    requires RegistryInv(m.r, m.active) && OpenInv(m.r, m.active)
    requires m.active == map[] && ChildInv(m.k, {}) && K.Sound(m.k, K.Reading(0)) && StatusInv(m.log, m.q.jobs, m.active)
    ensures Inv(HandleStop(m))
  {
    StopRegistry(m.r);
  }

  /** `cleanup` reaches every active process, and changes nothing else. */
  lemma CleanupReaches(m: Multi)
    requires m.r.phase == Running
    ensures StopInv(Cleanup(m))
    ensures var c := Cleanup(m);
            && c.q == m.q && c.r == m.r && c.log == m.log && c.active == m.active
            && c.k == m.k
  {}

  lemma CleanupKeeps(m: Multi)
    requires Inv(m) && !m.stopping && m.active != map[] && m.r.phase == Running
    ensures Inv(Cleanup(m))
  {
    CleanupReaches(m);
  }

  /** The state between taking a job from the queue and acting on it. */
  function Taken(m: Multi): Multi
    requires m.q.jobs != [] && m.q.wake > 0
  {
    m.(q := TakeJob(ReadWake(m.q)))
  }

  lemma SpawnJobKeeps(m: Multi, pid: Pid, h: Handle)
    requires Inv(m) && m.r.phase == Running && m.q.wake > 0 && m.q.jobs != [] && m.q.jobs[0] == Spawn(h.id)
    requires pid !in m.k.children && FreshHandle(m.r.open, h)
    ensures Inv(JobSpawn(Taken(m), pid, h))
  {
    TakeKeeps(m.q);
    HeadCount(m.q.jobs);
    if m.stopping {
      DropKeepsStatus(m.log, m.q.jobs, m.active, h.id);
    } else {
      AttachKeeps(m.r, m.active, pid, h);
      AttachOpen(m.r, m.active, pid, h);
      SpawnKeepsStatus(m.log, m.q.jobs, m.active, pid, h);
    }
  }

  lemma StopJobKeeps(m: Multi)
    requires Inv(m) && m.r.phase == Running && m.q.wake > 0 && m.q.jobs != [] && m.q.jobs[0].Stop?
    ensures Inv(JobStop(Taken(m), m.q.jobs[0].flag, m.q.jobs[0].signum))
  {
    TakeKeeps(m.q);
    HeadCount(m.q.jobs);
    OtherJobKeepsStatus(m.log, m.q.jobs, m.active);
    if !m.stopping {
      var s := Taken(m).(flag := m.q.jobs[0].flag, signum := m.q.jobs[0].signum);
      if m.active == map[] {
        HandleStopKeeps(s);
      } else {
        CleanupKeeps(s);
      }
    }
  }

  /** The sentinel is met only while stopping with no process left, so it always stops the loop. */
  lemma SentinelJobKeeps(m: Multi)
    requires Inv(m) && m.r.phase == Running && m.q.wake > 0 && m.q.jobs != [] && m.q.jobs[0] == Sentinel
    ensures m.stopping && m.active == map[]
    ensures JobNullptrStop(Taken(m)) == HandleStop(Taken(m)) && Inv(HandleStop(Taken(m)))
  {
    TakeKeeps(m.q);
    HeadCount(m.q.jobs);
    OtherJobKeepsStatus(m.log, m.q.jobs, m.active);
    HandleStopKeeps(Taken(m));
  }

  lemma DispatchKeeps(m: Multi, pid: Pid, h: Handle)
    requires Inv(m) && m.r.phase == Running && m.q.wake > 0
    requires pid !in m.k.children && FreshHandle(m.r.open, h)
    ensures Inv(Dispatch(m, pid, h))
  {
    match m.q.jobs[0]
    case Sentinel => SentinelJobKeeps(m);
    case Stop(_, _) => StopJobKeeps(m);
    case Spawn(id) => SpawnJobKeeps(m, pid, h.(id := id));
  }

  lemma FinishKeeps(m: Multi, pid: Pid, ending: Ending)
    requires Inv(m) && pid in m.active
    ensures Inv(Finish(m, pid, ending))
  {
    TerminateKeeps(m, pid, ending);
  }

  lemma ReadSignalKeeps(m: Multi, calls: seq<K.Call>)
    requires Inv(m) && m.k.pipe != [] && K.IsCallback(m.k, calls)
    ensures Inv(ReadSignal(m, calls)) && ReadSignal(m, calls).k == K.Effects(m.k, calls)
  {
    SignalsKeep(m, K.Reading(0), calls);
    K.CallbackReaps(m.k, calls);
  }

  lemma LeaveLoopKeeps(m: Multi)
    requires Inv(m) && m.r.phase == Interrupted
    ensures Inv(LeaveLoop(m))
  {}

  /** The callback of a process ends it, or reads output. */
  lemma ProcessCases(m: Multi, fd: Fd, pid: Pid, input: Input)
    requires fd in m.r.registered && m.r.registered[fd] in {OnWatch(pid), OnStdout(pid), OnStderr(pid)}
    requires fd != m.r.ownFd && pid in m.active
    ensures var n := DoAction(m, fd, input);
            || n == Terminate(m, pid, EndFailed) || n == Terminate(m, pid, EndUserStopped)
            || n == m || n == m.(u := m.u.(output := m.u.output - {fd}))
  {}

  /** The callback of a watch pipe with a byte ends the process for the user. */
  lemma WatchEnds(m: Multi, fd: Fd, pid: Pid, input: Input)
    requires fd in m.r.registered && m.r.registered[fd] == OnWatch(pid) && fd != m.r.ownFd
    requires pid in m.active && pid in m.u.poked && !input.fails
    ensures DoAction(m, fd, input) == Terminate(m, pid, EndUserStopped)
  {}

  lemma ProcessKeeps(m: Multi, fd: Fd, pid: Pid, input: Input)
    requires Inv(m) && fd in m.r.registered && fd != m.r.ownFd && pid in m.active
    requires m.r.registered[fd] in {OnWatch(pid), OnStdout(pid), OnStderr(pid)}
    ensures Inv(DoAction(m, fd, input))
  {
    ProcessCases(m, fd, pid, input);
    FinishKeeps(m, pid, EndFailed);
    FinishKeeps(m, pid, EndUserStopped);
  }

  // ---------------------------------------------------------------------------------------------------------------
  // Steps and runs

  lemma FireKeeps(m: Multi, fd: Fd, input: Input)
    requires Inv(m) && Enabled(m, Fire(fd, input))
    ensures Inv(DoAction(m, fd, input))
  {
    if fd == m.r.ownFd {
      LeaveLoopKeeps(m);
    } else {
      assert fd in m.r.registered && m.r.phase == Running;
      assert Belongs(m.r, m.active, fd, m.r.registered[fd]);
      match m.r.registered[fd]
      case OnSigchld => ReadSignalKeeps(m, input.calls);
      case OnControl => DispatchKeeps(m, input.pid, input.handle);
      case OnWatch(pid) => ProcessKeeps(m, fd, pid, input);
      case OnStdout(pid) => ProcessKeeps(m, fd, pid, input);
      case OnStderr(pid) => ProcessKeeps(m, fd, pid, input);
    }
  }

  lemma EnqueueKeeps(m: Multi, job: Job)
    requires Inv(m) && Enabled(m, Enqueue(job))
    ensures Inv(Next(m, Enqueue(job)))
  {
    SnocCount(m.q.jobs, job);
    assert m.q.dispatched + (m.q.jobs + [job]) == m.q.dispatched + m.q.jobs + [job];
    if job.Spawn? {
      EnqueueKeepsStatus(m.log, m.q.jobs, m.active, job.id);
    } else {
      SentinelKeepsStatus(m.log, m.q.jobs, m.active, job);
    }
  }

  lemma HappensKeeps(m: Multi, event: K.Event)
    requires Inv(m)
    ensures Inv(Next(m, Happens(event)))
  {
    K.HappenKeeps(m.k, event);
    KernelAside(m, K.Happen(m.k, event));
  }

  lemma RunStartKeeps(m: Multi, own: Fd, sigchld: Fd, ends: set<Fd>, capacity: nat)
    requires Inv(m) && Enabled(m, Run(own, sigchld, ends, capacity))
    ensures Inv(Next(m, Run(own, sigchld, ends, capacity)))
  {
    StartRegistry(m.r, own, sigchld, ends);
    StartOpen(m.r, own, sigchld, ends);
  }

  lemma StepKeeps(m: Multi, e: Event)
    requires Inv(m) && Enabled(m, e)
    ensures Inv(Next(m, e))
  {
    match e
    case Enqueue(job) => EnqueueKeeps(m, job);
    case Interrupt =>
    case Happens(event) => HappensKeeps(m, event);
    case Poke(_) =>
    case Writes(_) =>
    case Run(own, sigchld, ends, capacity) => RunStartKeeps(m, own, sigchld, ends, capacity);
    case Fire(fd, input) => FireKeeps(m, fd, input);
  }

  /** The invariant holds in every state of every run: any number of successive calls of `run`, with producers, exits and
      callbacks interleaved in any way. */
  lemma {:induction false} RunKeeps(m: Multi, events: seq<Event>)
    requires Inv(m) && Legal(m, events)
    ensures Inv(After(m, events))
    decreases |events|
  {
    if events != [] {
      StepKeeps(m, events[0]);
      RunKeeps(Next(m, events[0]), events[1..]);
    }
  }

  lemma InitHolds(controlFd: Fd, open: set<Fd>, children: set<Pid>, capacity: nat)
    requires controlFd in open
    ensures Inv(Init(controlFd, open, children, capacity))
  {}
}
