/** What `pexec_multi` promises its users, over every run. */
module MultiGuarantees {
  import opened Events
  import opened MultiModel
  import opened MultiInvariant
  import K = SigchldHandler

  // ---------------------------------------------------------------------------------------------------------------
  // Jobs are dispatched in the order in which they are submitted

  /** The jobs that the calls of `exec` and `stop` in a run submit. */
  function Submitted(events: seq<Event>): seq<Job> {
    if events == [] then []
    else if events[0].Enqueue? then [events[0].job] + Submitted(events[1..])
    else Submitted(events[1..])
  }

  /** The jobs that are not the loop's own. */
  function Users(jobs: seq<Job>): seq<Job> {
    if jobs == [] then []
    else if jobs[0] == Sentinel then Users(jobs[1..])
    else [jobs[0]] + Users(jobs[1..])
  }

  lemma {:induction false} UsersConcat(a: seq<Job>, b: seq<Job>)
    ensures Users(a + b) == Users(a) + Users(b)
  {
    if a == [] {
      assert a + b == b;
    } else {
      assert (a + b)[0] == a[0] && (a + b)[1..] == a[1..] + b;
      UsersConcat(a[1..], b);
    }
  }

  lemma UsersSnoc(jobs: seq<Job>, job: Job)
    ensures Users(jobs + [job]) == Users(jobs) + if job == Sentinel then [] else [job]
  {
    UsersConcat(jobs, [job]);
    assert [job][1..] == [];
  }

  /** The loop itself adds only sentinels. */
  predicate OnlySentinels(a: Queue, b: Queue) {
    Users(b.enqueued) == Users(a.enqueued)
  }

  lemma TerminateSubmits(m: Multi, pid: Pid, ending: Ending)
    requires pid in m.active
    ensures OnlySentinels(m.q, Terminate(m, pid, ending).q)
  {
    UsersSnoc(m.q.enqueued, Sentinel);
  }

  lemma {:induction false} SignalsSubmit(m: Multi, calls: seq<K.Call>)
    ensures OnlySentinels(m.q, Signals(m, calls).q)
    decreases |calls|
  {
    if calls != [] {
      var c := calls[0];
      if c.Reaped? && c.pid in m.active {
        TerminateSubmits(m.(k := K.Effect(m.k, c)), c.pid, EndStopped);
      }
      SignalsSubmit(Signal(m, c), calls[1..]);
    }
  }

  lemma FireSubmits(m: Multi, fd: Fd, input: Input)
    ensures OnlySentinels(m.q, DoAction(m, fd, input).q)
  {
    if fd != m.r.ownFd && fd in m.r.registered {
      match m.r.registered[fd]
      case OnSigchld => SignalsSubmit(m, input.calls);
      case OnControl =>
      case OnWatch(pid) =>
        if pid in m.active {
          TerminateSubmits(m, pid, if Fails(m, fd, input) then EndFailed else EndUserStopped);
        }
      case OnStdout(pid) =>
        if pid in m.active {
          TerminateSubmits(m, pid, EndFailed);
        }
      case OnStderr(pid) =>
        if pid in m.active {
          TerminateSubmits(m, pid, EndFailed);
        }
    }
  }

  lemma StepSubmits(m: Multi, e: Event)
    requires Enabled(m, e)
    ensures Users(Next(m, e).q.enqueued) == Users(m.q.enqueued) + if e.Enqueue? then [e.job] else []
  {
    match e
    case Enqueue(job) => UsersSnoc(m.q.enqueued, job);
    case Fire(fd, input) => FireSubmits(m, fd, input);
    case _ =>
  }

  lemma {:induction false} RunSubmits(m: Multi, events: seq<Event>)
    requires Legal(m, events)
    ensures Users(After(m, events).q.enqueued) == Users(m.q.enqueued) + Submitted(events)
    decreases |events|
  {
    if events != [] {
      var e, rest := events[0], events[1..];
      var own := if e.Enqueue? then [e.job] else [];
      StepSubmits(m, e);
      RunSubmits(Next(m, e), rest);
      Associative(Users(m.q.enqueued), own, Submitted(rest));
    }
  }

  /** What has been dispatched, followed by what is queued, is what was submitted, in that order, in any run. */
  lemma JobsKeepTheirOrder(controlFd: Fd, open: set<Fd>, children: set<Pid>, capacity: nat, events: seq<Event>)
    requires controlFd in open && Legal(Init(controlFd, open, children, capacity), events)
    ensures var q := After(Init(controlFd, open, children, capacity), events).q;
            Users(q.dispatched) + Users(q.jobs) == Submitted(events)
  {
    var m := Init(controlFd, open, children, capacity);
    InitHolds(controlFd, open, children, capacity);
    RunKeeps(m, events);
    RunSubmits(m, events);
    UsersConcat(After(m, events).q.dispatched, After(m, events).q.jobs);
  }

  // ---------------------------------------------------------------------------------------------------------------
  // Spawn jobs move forward

  /** From queued to dropped or active, from active to terminated. */
  predicate Later(a: Status, b: Status) {
    match a
    case Queued => true
    case Active(_) => b == a || b.Terminated?
    case Dropped => b == a
    case Terminated(_) => b == a
  }

  /** No job is forgotten or goes back, and no call of an on-stop callback is taken back. */
  ghost predicate Forward(a: Log, b: Log) {
    && (forall id | id in a.status :: id in b.status && Later(a.status[id], b.status[id]))
    && a.fired <= b.fired
  }

  lemma ForwardTransitive(a: Log, b: Log, c: Log)
    requires Forward(a, b) && Forward(b, c)
    ensures Forward(a, c)
  {}

  lemma TerminateForward(m: Multi, pid: Pid, ending: Ending)
    requires CoreInv(m) && pid in m.active
    ensures Forward(m.log, Terminate(m, pid, ending).log)
  {}

  lemma {:induction false} SignalsForward(m: Multi, s: K.Stage, calls: seq<K.Call>)
    requires CoreInv(m) && K.AllPossible(m.k, s, calls)
    ensures Forward(m.log, Signals(m, calls).log)
    decreases |calls|
  {
    if calls != [] {
      var c, n := calls[0], Signal(m, calls[0]);
      SignalKeeps(m, s, c);
      if c.Reaped? && c.pid in m.active {
        TerminateForward(m, c.pid, EndStopped);
      }
      SignalsForward(n, K.Then(s, c), calls[1..]);
      ForwardTransitive(m.log, n.log, Signals(n, calls[1..]).log);
    }
  }

  lemma HeadIsQueued(m: Multi)
    requires Inv(m) && m.q.jobs != [] && m.q.jobs[0].Spawn?
    ensures var id := m.q.jobs[0].id; id in m.log.status && m.log.status[id] == Queued
  {
    assert m.q.jobs[0] in multiset(m.q.jobs);
  }

  lemma DispatchForward(m: Multi, pid: Pid, h: Handle)
    requires m.q.jobs != [] && m.q.jobs[0].Spawn? ==>
               m.q.jobs[0].id in m.log.status && m.log.status[m.q.jobs[0].id] == Queued
    ensures Forward(m.log, Dispatch(m, pid, h).log)
  {}

  lemma ProcessForward(m: Multi, fd: Fd, pid: Pid, input: Input)
    requires CoreInv(m) && fd in m.r.registered && fd != m.r.ownFd && pid in m.active
    requires m.r.registered[fd] in {OnWatch(pid), OnStdout(pid), OnStderr(pid)}
    ensures Forward(m.log, DoAction(m, fd, input).log)
  {
    ProcessCases(m, fd, pid, input);
    TerminateForward(m, pid, EndFailed);
    TerminateForward(m, pid, EndUserStopped);
  }

  lemma StepForward(m: Multi, e: Event)
    requires Inv(m) && Enabled(m, e)
    ensures Forward(m.log, Next(m, e).log)
  {
    if e.Fire? && e.fd != m.r.ownFd {
      assert Belongs(m.r, m.active, e.fd, m.r.registered[e.fd]);
      match m.r.registered[e.fd]
      case OnSigchld => SignalsForward(m, K.Reading(0), e.input.calls);
      case OnControl =>
        if m.q.jobs != [] && m.q.jobs[0].Spawn? {
          HeadIsQueued(m);
        }
        DispatchForward(m, e.input.pid, e.input.handle);
      case OnWatch(pid) => ProcessForward(m, e.fd, pid, e.input);
      case OnStdout(pid) => ProcessForward(m, e.fd, pid, e.input);
      case OnStderr(pid) => ProcessForward(m, e.fd, pid, e.input);
    }
  }

  lemma {:induction false} RunForward(m: Multi, events: seq<Event>)
    requires Inv(m) && Legal(m, events)
    ensures Forward(m.log, After(m, events).log)
    decreases |events|
  {
    if events != [] {
      var n := Next(m, events[0]);
      StepKeeps(m, events[0]);
      StepForward(m, events[0]);
      RunForward(n, events[1..]);
      ForwardTransitive(m.log, n.log, After(n, events[1..]).log);
    }
  }

  /** No active process runs `id`. */
  ghost predicate Inactive(m: Multi, id: Id) {
    forall p | p in m.active :: m.active[p].id != id
  }

  /** The place of a job is what can be observed: whether it is in the queue, which process runs it, and how often its
      on-stop callback was called. */
  ghost predicate Accounted(m: Multi, id: Id) {
    && id in m.log.status
    && var queued, fired := multiset(m.q.jobs)[Spawn(id)], multiset(m.log.fired)[id];
       match m.log.status[id]
       case Queued => queued == 1 && fired == 0 && Inactive(m, id)
       case Dropped => queued == 0 && fired == 0 && Inactive(m, id)
       case Active(pid) => queued == 0 && fired == 0 && forall p | p in m.active :: m.active[p].id == id <==> p == pid
       case Terminated(_) => queued == 0 && fired == 1 && Inactive(m, id)
  }

  lemma {:induction false} SubmittedHaveStatus(m: Multi, events: seq<Event>, id: Id)
    requires Inv(m) && Legal(m, events) && Spawn(id) in Submitted(events)
    ensures id in After(m, events).log.status
    decreases |events|
  {
    var n, rest := Next(m, events[0]), events[1..];
    StepKeeps(m, events[0]);
    if events[0] == Enqueue(Spawn(id)) {
      RunForward(n, rest);
    } else {
      SubmittedHaveStatus(n, rest, id);
    }
  }

  /** Every process ever submitted is queued once, dropped, active, or terminated; its on-stop callback was called once if
      it has terminated and never otherwise. */
  lemma EverySpawnAccounted(controlFd: Fd, open: set<Fd>, children: set<Pid>, capacity: nat, events: seq<Event>, id: Id)
    requires controlFd in open && Legal(Init(controlFd, open, children, capacity), events)
    requires Spawn(id) in Submitted(events)
    ensures Accounted(After(Init(controlFd, open, children, capacity), events), id)
  {
    var m := Init(controlFd, open, children, capacity);
    InitHolds(controlFd, open, children, capacity);
    RunKeeps(m, events);
    SubmittedHaveStatus(m, events, id);
  }

  // ---------------------------------------------------------------------------------------------------------------
  // When the loop leaves

  /** The loop stops running in exactly one kind of step: the control callback takes the sentinel, or it takes a stop
      while not stopping and without a process. */
  lemma LeavesExactlyWhen(m: Multi, e: Event)
    requires Inv(m) && Enabled(m, e) && m.r.phase == Running
    ensures Next(m, e).r.phase != Running <==>
            && e.Fire? && e.fd == m.r.controlFd
            && (m.q.jobs[0] == Sentinel || (m.q.jobs[0].Stop? && !m.stopping && m.active == map[]))
  {
    if e.Fire? {
      assert Belongs(m.r, m.active, e.fd, m.r.registered[e.fd]);
      match m.r.registered[e.fd]
      case OnSigchld => SignalsRun(m, e.input.calls);
      case OnControl =>
        DispatchCases(m, e.input.pid, e.input.handle);
        if m.q.jobs[0] == Sentinel {
          SentinelJobKeeps(m);
        }
      case OnWatch(pid) => ProcessCases(m, e.fd, pid, e.input);
      case OnStdout(pid) => ProcessCases(m, e.fd, pid, e.input);
      case OnStderr(pid) => ProcessCases(m, e.fd, pid, e.input);
    }
  }

  lemma {:induction false} SignalsRun(m: Multi, calls: seq<K.Call>)
    ensures Signals(m, calls).r.phase == m.r.phase
    decreases |calls|
  {
    if calls != [] {
      SignalsRun(Signal(m, calls[0]), calls[1..]);
    }
  }

  /** When it leaves, no process is watched, no sentinel is queued for the next `run`, only the select loop's own
      descriptor is left in its table, and the stopping flags are those of the beginning. */
  lemma LeavesCleanly(m: Multi, e: Event)
    requires Inv(m) && Enabled(m, e) && m.r.phase == Running && Next(m, e).r.phase != Running
    ensures var n := Next(m, e);
            && m.active == map[] && n.active == map[] && Sentinel !in n.q.jobs
            && n.r.registered == map[] && n.r.watched == {n.r.ownFd}
            && !n.stopping && n.flag == StopWait && n.signum == -1
  {
    LeavesExactlyWhen(m, e);
    StepKeeps(m, e);
    assert Belongs(m.r, m.active, e.fd, m.r.registered[e.fd]);
    assert Sentinel in Next(m, e).q.jobs <==> multiset(Next(m, e).q.jobs)[Sentinel] > 0;
  }

  // ---------------------------------------------------------------------------------------------------------------
  // What is registered

  /** `fd` is one of the three descriptors of an active process that go to the loop. */
  ghost predicate Owned(active: map<Pid, Handle>, fd: Fd) {
    exists p :: p in active && fd in {active[p].watch, active[p].out, active[p].err}
  }

  lemma OwnedIsRegistered(r: Registry, active: map<Pid, Handle>, fd: Fd)
    requires RegistryInv(r, active) && Owned(active, fd)
    ensures fd in r.registered && !r.registered[fd].OnSigchld? && !r.registered[fd].OnControl?
  {
    var p :| p in active && fd in {active[p].watch, active[p].out, active[p].err};
    assert Attached(r, p, active[p]);
  }

  lemma NothingElse(r: Registry, active: map<Pid, Handle>, fd: Fd)
    requires RegistryInv(r, active) && fd in r.registered && fd != r.sigchldFd && fd != r.controlFd
    ensures Owned(active, fd)
  {
    assert Belongs(r, active, fd, r.registered[fd]);
  }

  lemma RegistryExactly(r: Registry, active: map<Pid, Handle>)
    requires RegistryInv(r, active) && r.phase == Running
    ensures forall fd :: fd in r.registered <==> fd == r.sigchldFd || fd == r.controlFd || Owned(active, fd)
    ensures !Owned(active, r.sigchldFd) && !Owned(active, r.controlFd)
  {
    assert Has(r, r.sigchldFd, OnSigchld) && Has(r, r.controlFd, OnControl);
    forall fd | Owned(active, fd)
      ensures fd in r.registered && !r.registered[fd].OnSigchld? && !r.registered[fd].OnControl?
    {
      OwnedIsRegistered(r, active, fd);
    }
    forall fd | fd in r.registered && fd != r.sigchldFd && fd != r.controlFd ensures Owned(active, fd) {
      NothingElse(r, active, fd);
    }
  }

  /** In every state of every run: while the loop runs, what is registered is exactly the signal pipe, the control pipe
      and the three descriptors of each active process, and the select loop watches these and its own; once it has been
      told to leave, nothing is registered and it watches its own alone; and then nothing. */
  lemma RegistryAgrees(controlFd: Fd, open: set<Fd>, children: set<Pid>, capacity: nat, events: seq<Event>)
    requires controlFd in open && Legal(Init(controlFd, open, children, capacity), events)
    ensures var n := After(Init(controlFd, open, children, capacity), events);
            match n.r.phase
            case Running =>
              && (forall fd :: fd in n.r.registered <==> fd == n.r.sigchldFd || fd == controlFd || Owned(n.active, fd))
              && !Owned(n.active, n.r.sigchldFd) && !Owned(n.active, controlFd)
              && n.r.watched == n.r.registered.Keys + {n.r.ownFd} && n.r.ownFd !in n.r.registered
            case Interrupted => n.r.registered == map[] && n.r.watched == {n.r.ownFd}
            case Idle => n.r.registered == map[] && n.r.watched == {}
            case Blocked => false
  {
    var m := Init(controlFd, open, children, capacity);
    InitHolds(controlFd, open, children, capacity);
    RunKeeps(m, events);
    ControlStays(m, events);
    var n := After(m, events);
    if n.r.phase == Running {
      RegistryExactly(n.r, n.active);
    }
  }

  /** And each active process has three such descriptors, which are no other's. */
  lemma OneOwner(controlFd: Fd, open: set<Fd>, children: set<Pid>, capacity: nat, events: seq<Event>, p: Pid, q: Pid)
    requires controlFd in open && Legal(Init(controlFd, open, children, capacity), events)
    ensures var active := After(Init(controlFd, open, children, capacity), events).active;
            p in active && q in active && p != q ==>
              && {active[p].watch, active[p].out, active[p].err} !! {active[q].watch, active[q].out, active[q].err}
              && active[p].watch != active[p].out && active[p].watch != active[p].err && active[p].out != active[p].err
  {
    var m := Init(controlFd, open, children, capacity);
    InitHolds(controlFd, open, children, capacity);
    RunKeeps(m, events);
    var n := After(m, events);
    if p in n.active && q in n.active && p != q {
      FdsDiffer(n.r, n.active, p, q);
    }
  }

  lemma FdsDiffer(r: Registry, active: map<Pid, Handle>, p: Pid, q: Pid)
    requires RegistryInv(r, active) && p in active && q in active && p != q
    ensures {active[p].watch, active[p].out, active[p].err} !! {active[q].watch, active[q].out, active[q].err}
    ensures active[p].watch != active[p].out && active[p].watch != active[p].err && active[p].out != active[p].err
  {
    assert Attached(r, p, active[p]) && Attached(r, q, active[q]);
  }

  lemma {:induction false} SignalsControl(m: Multi, calls: seq<K.Call>)
    ensures Signals(m, calls).r.controlFd == m.r.controlFd
    decreases |calls|
  {
    if calls != [] {
      SignalsControl(Signal(m, calls[0]), calls[1..]);
    }
  }

  lemma StepControl(m: Multi, e: Event)
    requires Enabled(m, e)
    ensures Next(m, e).r.controlFd == m.r.controlFd
  {
    if e.Fire? {
      SignalsControl(m, e.input.calls);
    }
  }

  lemma {:induction false} ControlStays(m: Multi, events: seq<Event>)
    requires Legal(m, events)
    ensures After(m, events).r.controlFd == m.r.controlFd
    decreases |events|
  {
    if events != [] {
      StepControl(m, events[0]);
      ControlStays(Next(m, events[0]), events[1..]);
    }
  }

  // ---------------------------------------------------------------------------------------------------------------
  // Descriptors

  /** The other ends of the pipes of active processes. */
  function Rests(active: map<Pid, Handle>): set<Fd> {
    set p, fd | p in active && fd in active[p].rest :: fd
  }

  /** What is open is what was open before `run`, and what belongs to this run. */
  ghost predicate Opened(r: Registry, active: map<Pid, Handle>, base: set<Fd>) {
    && r.controlFd in base
    && match r.phase
       case Running =>
         && r.open == base + r.watched + r.ends + Rests(active)
         && base !! (r.watched - {r.controlFd}) + r.ends + Rests(active)
       case Interrupted =>
         && r.open == base + {r.ownFd, r.sigchldFd} + r.ends
         && base !! {r.ownFd, r.sigchldFd} + r.ends
       case _ => r.open == base
  }

  lemma RestsWithout(active: map<Pid, Handle>, pid: Pid)
    requires pid in active && forall p, q | p in active && q in active && p != q :: active[p].rest !! active[q].rest
    ensures Rests(active) == Rests(active - {pid}) + active[pid].rest && Rests(active - {pid}) !! active[pid].rest
  {
    var left := active - {pid};
    forall fd | fd in Rests(active) ensures fd in Rests(left) || fd in active[pid].rest {
      var p :| p in active && fd in active[p].rest;
      assert p != pid ==> p in left && fd in left[p].rest;
    }
    forall fd | fd in Rests(left) ensures fd in Rests(active) && fd !in active[pid].rest {
      var p :| p in left && fd in left[p].rest;
      assert p in active && fd in active[p].rest;
    }
    forall fd | fd in active[pid].rest ensures fd in Rests(active) {
      assert pid in active && fd in active[pid].rest;
    }
  }

  lemma RestsWith(active: map<Pid, Handle>, pid: Pid, h: Handle)
    requires pid !in active
    ensures Rests(active[pid := h]) == Rests(active) + h.rest
  {
    var more := active[pid := h];
    forall fd | fd in Rests(more) ensures fd in Rests(active) + h.rest {
      var p :| p in more && fd in more[p].rest;
      assert p != pid ==> p in active && fd in active[p].rest;
    }
    forall fd | fd in Rests(active) + h.rest ensures fd in Rests(more) {
      if fd in h.rest {
        assert pid in more && fd in more[pid].rest;
      } else {
        var p :| p in active && fd in active[p].rest;
        assert p in more && fd in more[p].rest;
      }
    }
  }

  /** Closing what belongs to one process leaves what belongs to the others. */
  lemma CloseSome(base: set<Fd>, watched: set<Fd>, ends: set<Fd>, rests: set<Fd>, fds: set<Fd>, rest: set<Fd>)
    requires fds <= watched && base !! fds + rest && ends !! fds + rest && rests !! fds + rest && watched !! rest
    ensures base + watched + ends + (rests + rest) - (fds + rest) == base + (watched - fds) + ends + rests
  {}

  /** The three descriptors of a process that go to the loop are among those watched, and the others are not. */
  lemma FdsApart(r: Registry, active: map<Pid, Handle>, pid: Pid)
    requires RegistryInv(r, active) && OpenInv(r, active) && pid in active
    ensures var h := active[pid];
            && {h.watch, h.out, h.err} <= r.watched - {r.controlFd} && h.rest !! r.watched + r.ends
            && Rests(active - {pid}) !! {h.watch, h.out, h.err} + h.rest
            && Rests(active) == Rests(active - {pid}) + h.rest
  {
    var h, left := active[pid], active - {pid};
    assert Attached(r, pid, h) && Has(r, r.controlFd, OnControl);
    RestsWithout(active, pid);
    forall fd | fd in Rests(left) ensures fd !in {h.watch, h.out, h.err} {
      var p :| p in left && fd in left[p].rest;
      assert active[p].rest !! r.watched + r.ends;
    }
  }

  lemma DetachOpened(r: Registry, active: map<Pid, Handle>, pid: Pid, base: set<Fd>)
    requires RegistryInv(r, active) && OpenInv(r, active) && pid in active && Opened(r, active, base)
    ensures Opened(Detach(r, active[pid]), active - {pid}, base)
  {
    var h, left := active[pid], active - {pid};
    var fds := {h.watch, h.out, h.err};
    FdsApart(r, active, pid);
    assert Detach(r, h).watched == r.watched - fds;
    assert fds <= r.watched - {r.controlFd} && h.rest <= Rests(active);
    CloseSome(base, r.watched, r.ends, Rests(left), fds, h.rest);
  }

  lemma {:induction false} SignalsOpened(m: Multi, s: K.Stage, calls: seq<K.Call>, base: set<Fd>)
    requires CoreInv(m) && K.AllPossible(m.k, s, calls) && Opened(m.r, m.active, base)
    ensures Opened(Signals(m, calls).r, Signals(m, calls).active, base)
    decreases |calls|
  {
    if calls != [] {
      var c := calls[0];
      SignalKeeps(m, s, c);
      if c.Reaped? && c.pid in m.active {
        DetachOpened(m.r, m.active, c.pid, base);
      }
      SignalsOpened(Signal(m, c), K.Then(s, c), calls[1..], base);
    }
  }

  lemma AttachOpened(r: Registry, active: map<Pid, Handle>, pid: Pid, h: Handle, base: set<Fd>)
    requires r.phase == Running && Opened(r, active, base) && FreshHandle(r.open, h) && pid !in active
    ensures Opened(Attach(r, pid, h), active[pid := h], base)
  {
    RestsWith(active, pid, h);
    assert Attach(r, pid, h).watched == r.watched + {h.watch, h.out, h.err};
  }

  lemma HandleStopOpened(m: Multi, base: set<Fd>)
    requires RegistryInv(m.r, m.active) && m.active == map[] && m.r.phase == Running && Opened(m.r, m.active, base)
    ensures Opened(HandleStop(m).r, m.active, base)
  {
    StopRegistry(m.r);
    assert Has(m.r, m.r.sigchldFd, OnSigchld);
    assert forall fd | fd in m.r.registered :: Belongs(m.r, m.active, fd, m.r.registered[fd]);
    assert m.r.watched == {m.r.sigchldFd, m.r.controlFd, m.r.ownFd};
    assert Rests(m.active) == {};
  }

  lemma DispatchOpened(m: Multi, pid: Pid, h: Handle, base: set<Fd>)
    requires Inv(m) && m.r.phase == Running && m.q.wake > 0 && Opened(m.r, m.active, base)
    requires FreshHandle(m.r.open, h) && pid !in m.k.children
    ensures var n := Dispatch(m, pid, h); Opened(n.r, n.active, base)
  {
    DispatchCases(m, pid, h);
    var n := Dispatch(m, pid, h);
    if n.r.phase == Interrupted {
      HandleStopOpened(m, base);
    } else if n.active != m.active {
      AttachOpened(m.r, m.active, pid, h.(id := m.q.jobs[0].id), base);
    }
  }

  /** What a job does to the registry and to the processes. */
  lemma DispatchCases(m: Multi, pid: Pid, h: Handle)
    requires Inv(m) && m.r.phase == Running && m.q.wake > 0
    ensures m.q.jobs != []
    ensures var n, job := Dispatch(m, pid, h), m.q.jobs[0];
            if job.Spawn? && !m.stopping then
              n.r == Attach(m.r, pid, h.(id := job.id)) && n.active == m.active[pid := h.(id := job.id)]
            else if Leaves(m) then
              n.r == HandleStop(m).r && n.active == map[]
            else
              n.r == m.r && n.active == m.active
  {
    var s := m.(q := TakeJob(ReadWake(m.q)));
    assert Dispatch(m, pid, h) == ActOn(s, m.q.jobs[0], pid, h);
    match m.q.jobs[0]
    case Sentinel => SentinelJobKeeps(m);
    case Stop(_, _) =>
    case Spawn(_) =>
  }

  lemma ProcessOpened(m: Multi, fd: Fd, pid: Pid, input: Input, base: set<Fd>)
    requires CoreInv(m) && Opened(m.r, m.active, base) && fd in m.r.registered && fd != m.r.ownFd && pid in m.active
    requires m.r.registered[fd] in {OnWatch(pid), OnStdout(pid), OnStderr(pid)}
    ensures var n := DoAction(m, fd, input); Opened(n.r, n.active, base)
  {
    ProcessCases(m, fd, pid, input);
    DetachOpened(m.r, m.active, pid, base);
  }

  lemma FireOpened(m: Multi, fd: Fd, input: Input, base: set<Fd>)
    requires Inv(m) && Enabled(m, Fire(fd, input)) && Opened(m.r, m.active, base) && fd != m.r.ownFd
    ensures var n := DoAction(m, fd, input); Opened(n.r, n.active, base)
  {
    assert Belongs(m.r, m.active, fd, m.r.registered[fd]);
    match m.r.registered[fd]
    case OnSigchld => SignalsOpened(m, K.Reading(0), input.calls, base);
    case OnControl => DispatchOpened(m, input.pid, input.handle, base);
    case OnWatch(pid) => ProcessOpened(m, fd, pid, input, base);
    case OnStdout(pid) => ProcessOpened(m, fd, pid, input, base);
    case OnStderr(pid) => ProcessOpened(m, fd, pid, input, base);
  }

  lemma StepOpened(m: Multi, e: Event, base: set<Fd>)
    requires Inv(m) && Enabled(m, e) && Opened(m.r, m.active, base)
    ensures Opened(Next(m, e).r, Next(m, e).active, base)
  {
    if e.Fire? && e.fd != m.r.ownFd {
      FireOpened(m, e.fd, e.input, base);
    } else if e.Run? {
      assert StartRun(m.r, e.own, e.sigchld, e.ends).watched == {e.own, e.sigchld, m.r.controlFd};
      assert Rests(m.active) == {};
    }
  }

  lemma {:induction false} RunOpened(m: Multi, events: seq<Event>, base: set<Fd>)
    requires Inv(m) && Legal(m, events) && Opened(m.r, m.active, base)
    ensures Opened(After(m, events).r, After(m, events).active, base)
    decreases |events|
  {
    if events != [] {
      StepKeeps(m, events[0]);
      StepOpened(m, events[0], base);
      RunOpened(Next(m, events[0]), events[1..], base);
    }
  }

  /** However many times `run` is called and whatever happens meanwhile, between runs exactly the descriptors of the
      beginning are open: both ends of the loop's pipe and of the signal pipe, and all those of each process, are closed. */
  lemma NoDescriptorLeaks(controlFd: Fd, open: set<Fd>, children: set<Pid>, capacity: nat, events: seq<Event>)
    requires controlFd in open && Legal(Init(controlFd, open, children, capacity), events)
    ensures var n := After(Init(controlFd, open, children, capacity), events);
            n.r.phase == Idle ==> n.r.open == open
  {
    InitHolds(controlFd, open, children, capacity);
    RunOpened(Init(controlFd, open, children, capacity), events, open);
  }

  // ---------------------------------------------------------------------------------------------------------------
  // Children that have exited

  /** The job has ended, and its on-stop callback was called. */
  predicate Ended(log: Log, id: Id, ending: Ending) {
    id in log.status && log.status[id] == Terminated(ending) && id in log.fired
  }

  lemma EndedStays(a: Log, b: Log, id: Id, ending: Ending)
    requires Forward(a, b) && Ended(a, id, ending)
    ensures Ended(b, id, ending)
  {}

  lemma {:induction false} SignalsAddNone(m: Multi, calls: seq<K.Call>, p: Pid)
    requires p !in m.active
    ensures p !in Signals(m, calls).active
    decreases |calls|
  {
    if calls != [] {
      SignalsAddNone(Signal(m, calls[0]), calls[1..], p);
    }
  }

  lemma {:induction false} SignalsSpare(m: Multi, calls: seq<K.Call>, p: Pid)
    requires p in m.active && p !in K.ReapedIn(calls)
    ensures p in Signals(m, calls).active && Signals(m, calls).active[p] == m.active[p]
    decreases |calls|
  {
    if calls != [] {
      SignalsSpare(Signal(m, calls[0]), calls[1..], p);
    }
  }

  lemma ReapedEnds(m: Multi, p: Pid)
    requires p in m.active
    ensures var n := Signal(m, K.Reaped(p)); p !in n.active && Ended(n.log, m.active[p].id, EndStopped)
  {}

  lemma SignalSpares(m: Multi, c: K.Call, p: Pid)
    requires p in m.active && c != K.Reaped(p)
    ensures p in Signal(m, c).active && Signal(m, c).active[p] == m.active[p]
  {}

  lemma {:induction false} SignalsEnd(m: Multi, s: K.Stage, calls: seq<K.Call>, p: Pid)
    requires CoreInv(m) && K.AllPossible(m.k, s, calls) && p in m.active && p in K.ReapedIn(calls)
    ensures p !in Signals(m, calls).active && Ended(Signals(m, calls).log, m.active[p].id, EndStopped)
    decreases |calls|
  {
    var c, rest, n := calls[0], calls[1..], Signal(m, calls[0]);
    SignalKeeps(m, s, c);
    if c == K.Reaped(p) {
      ReapedEnds(m, p);
      SignalsForward(n, K.Then(s, c), rest);
      EndedStays(n.log, Signals(n, rest).log, m.active[p].id, EndStopped);
      SignalsAddNone(n, rest, p);
    } else {
      SignalSpares(m, c, p);
      SignalsEnd(n, K.Then(s, c), rest, p);
    }
  }

  /** The callback of the signal pipe, whatever happens between its system calls: an active process that had exited is
      active no more and its on-stop callback was called; one that is not reaped is left alone. */
  lemma ExitedIsReaped(m: Multi, input: Input, p: Pid)
    requires Inv(m) && p in m.active && Enabled(m, Fire(m.r.sigchldFd, input))
    ensures var n := Next(m, Fire(m.r.sigchldFd, input));
            && (p in m.k.zombies ==> p !in n.active && Ended(n.log, m.active[p].id, EndStopped))
            && (p in n.active <==> p !in K.ReapedIn(input.calls))
            && (p in n.active ==> n.active[p] == m.active[p])
  {
    assert Has(m.r, m.r.sigchldFd, OnSigchld);
    K.CallbackReaps(m.k, input.calls);
    if p in K.ReapedIn(input.calls) {
      SignalsEnd(m, K.Reading(0), input.calls, p);
    } else {
      SignalsSpare(m, input.calls, p);
    }
  }

  /** In every state of every run, with exits and deliveries at any time, signals that merge, and writes to a full pipe
      that are dropped: as long as an active process has exited, a signal is pending or the signal pipe can be read. So a
      loop that has nothing to do has no process in its table that has exited. */
  lemma NoExitForgotten(controlFd: Fd, open: set<Fd>, children: set<Pid>, capacity: nat, events: seq<Event>, p: Pid)
    requires controlFd in open && Legal(Init(controlFd, open, children, capacity), events)
    ensures var n := After(Init(controlFd, open, children, capacity), events);
            p in n.active && p in n.k.zombies ==> n.k.pending || (n.k.pipe != [] && n.r.sigchldFd in n.r.watched)
  {
    var m := Init(controlFd, open, children, capacity);
    InitHolds(controlFd, open, children, capacity);
    RunKeeps(m, events);
    var n := After(m, events);
    if p in n.active && p in n.k.zombies {
      assert p in n.k.watched * n.k.zombies;
      assert Has(n.r, n.r.sigchldFd, OnSigchld);
    }
  }

  // ---------------------------------------------------------------------------------------------------------------
  // Safety of whole runs

  /** In every state of every run from the start: no assertion fails, no callback is missing and no call reaches a process
      that is gone; the loop's thread never waits for a job; the control pipe never holds more bytes than there are jobs,
      and as many when no producer is between its two steps and no write was lost; and between runs nothing is registered,
      watched or active, and no sentinel is queued. */
  lemma RunsAreSafe(controlFd: Fd, open: set<Fd>, children: set<Pid>, capacity: nat, events: seq<Event>)
    requires controlFd in open && Legal(Init(controlFd, open, children, capacity), events)
    ensures var n := After(Init(controlFd, open, children, capacity), events);
            && n.r.failures == 0 && n.r.phase != Blocked
            && n.q.wake <= |n.q.jobs|
            && (n.q.unsent == 0 && n.q.lost == 0 ==> n.q.wake == |n.q.jobs|)
            && (Sentinel in n.q.jobs <==> n.stopping && n.active == map[])
            && (n.r.phase == Idle ==> n.r.registered == map[] && n.r.watched == {} && n.active == map[] && !n.stopping)
  {
    var m := Init(controlFd, open, children, capacity);
    InitHolds(controlFd, open, children, capacity);
    RunKeeps(m, events);
    var n := After(m, events);
    assert Sentinel in n.q.jobs <==> multiset(n.q.jobs)[Sentinel] > 0;
  }

  /** In every state of every run: while the loop stops by STOP_USER every active process has been asked to be left alone,
      and while it stops by STOP_KILL every one has been sent the signal of the stop. */
  lemma StopReachesAll(controlFd: Fd, open: set<Fd>, children: set<Pid>, capacity: nat, events: seq<Event>, p: Pid)
    requires controlFd in open && Legal(Init(controlFd, open, children, capacity), events)
    ensures var n := After(Init(controlFd, open, children, capacity), events);
            n.stopping && p in n.active ==>
              && (n.flag == StopUser ==> p in n.u.poked)
              && (n.flag == StopKill ==> (p, n.signum) in n.u.killed)
  {
    InitHolds(controlFd, open, children, capacity);
    RunKeeps(Init(controlFd, open, children, capacity), events);
  }
}
