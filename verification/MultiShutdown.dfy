/** Stopping `pexec_multi`: the event loop leaves after a bounded number of passes.

    A pass is what the select loop does after one return of `select`: it calls back every descriptor that was ready and is
    still registered at its turn. Nothing is assumed about the order, nor about what children and other callbacks do in
    between. */
module MultiShutdown {
  import opened Events
  import opened MultiModel
  import opened MultiInvariant
  import opened MultiGuarantees
  import K = SigchldHandler

  /** Everything but new jobs and another `run`. Producers that have added their job may still write to the control pipe. */
  predicate Quiet(e: Event) {
    !e.Enqueue? && !e.Run?
  }

  /** The loop is stopping or has been told to leave. */
  predicate Closing(m: Multi) {
    m.stopping || m.r.phase == Interrupted || m.r.phase == Idle
  }

  /** What `select` must report: control pipes with a byte, a signal pipe with a record and watch pipes with a byte. */
  predicate MustReport(m: Multi, fd: Fd) {
    && fd in m.r.watched
    && (|| (fd == m.r.ownFd && m.r.phase == Interrupted)
        || (fd == m.r.controlFd && m.q.wake > 0)
        || (fd == m.r.sigchldFd && m.k.pipe != [])
        || (fd in m.r.registered && m.r.registered[fd].OnWatch? && m.r.registered[fd].pid in m.u.poked))
  }

  /** At some point of the run `fd` is called back or is no longer watched. */
  ghost predicate Served(m: Multi, events: seq<Event>, fd: Fd)
    requires Legal(m, events)
    decreases |events|
  {
    || fd !in m.r.watched
    || (events != [] && ((events[0].Fire? && events[0].fd == fd) || Served(Next(m, events[0]), events[1..], fd)))
  }

  /** A pass begins when `select` returns; a signal that is not blocked has been delivered by then. */
  ghost predicate CompletePass(m: Multi, events: seq<Event>) {
    && !m.k.pending && Legal(m, events)
    && (forall i | 0 <= i < |events| :: Quiet(events[i]))
    && (forall fd | MustReport(m, fd) :: Served(m, events, fd))
  }

  /** Every active process has exited or has been asked to be left alone. */
  predicate Doomed(m: Multi) {
    m.active.Keys <= m.u.poked + m.k.zombies
  }

  /** There is, or will be, a byte of the control pipe for the sentinel. With no process left, the sentinel is queued:
      either there are enough bytes to reach it, or the writes in flight will bring them, and fit. While processes are
      left, no write was lost and there is room for all. */
  predicate Uncongested(m: Multi) {
    m.r.phase == Running ==>
      if m.active == map[] then exists i | 0 <= i < |m.q.jobs| :: m.q.jobs[i] == Sentinel && Reached(m.q, i)
      else m.q.lost == 0 && |m.q.jobs| < m.q.capacity
  }

  /** The job at `i` will be dispatched. */
  predicate Reached(q: Queue, i: nat) {
    i < q.wake || (i < q.wake + q.unsent && i < q.capacity)
  }

  /** A bound on the passes that the loop still needs. */
  function PassesLeft(m: Multi): nat {
    if m.r.phase != Running then (if m.r.phase == Idle then 0 else 1)
    else if m.active == map[] then |m.q.jobs| + 1
    else |m.q.jobs| + 3
  }

  // ---------------------------------------------------------------------------------------------------------------
  // One step

  /** No process is added, and those that stay keep their handle, their byte and their exit. */
  ghost predicate Fewer(m: Multi, n: Multi) {
    && (forall p | p in n.active :: p in m.active && n.active[p] == m.active[p])
    && (forall p | p in n.active && p in m.u.poked :: p in n.u.poked)
    && (forall p | p in n.active && p in m.k.zombies :: p in n.k.zombies)
  }

  /** What a step does to a closing loop. */
  ghost predicate Progress(m: Multi, n: Multi) {
    && Closing(n) && Fewer(m, n)
    && n.r.sigchldFd == m.r.sigchldFd && n.r.controlFd == m.r.controlFd && n.r.ownFd == m.r.ownFd
    && PassesLeft(n) <= PassesLeft(m) && n.q.unsent <= m.q.unsent
    && (m.active != map[] && n.active == map[] ==> PassesLeft(n) < PassesLeft(m))
    && (m.r.phase != Running ==> n.r.phase != Running)
    && (Uncongested(m) ==> Uncongested(n))
  }

  lemma ProgressTransitive(a: Multi, b: Multi, c: Multi)
    requires Progress(a, b) && Progress(b, c)
    ensures Progress(a, c)
  {}

  /** With no write lost and room for all, the byte of a sentinel that is posted now will be there for it. */
  lemma SentinelReached(q: Queue)
    requires QueueInv(q) && q.lost == 0 && |q.jobs| < q.capacity
    ensures var n := SendJob(q, Sentinel); n.jobs[|q.jobs|] == Sentinel && Reached(n, |q.jobs|)
  {}

  lemma TerminateProgress(m: Multi, pid: Pid, ending: Ending)
    requires QueueInv(m.q) && m.stopping && m.r.phase == Running && pid in m.active
    ensures var t := Terminate(m, pid, ending);
            Progress(m, t) && t.stopping && t.r.phase == Running && pid !in t.active && t.k == m.k
  {
    if Uncongested(m) {
      SentinelReached(m.q);
    }
  }

  /** Exits of active processes are not undone. */
  lemma KernelProgress(m: Multi, k: K.Kernel)
    requires Closing(m) && forall p | p in m.active && p in m.k.zombies :: p in k.zombies
    ensures Progress(m, m.(k := k))
  {}

  lemma SignalProgress(m: Multi, s: K.Stage, c: K.Call)
    requires QueueInv(m.q) && m.stopping && m.r.phase == Running && K.Possible(m.k, s, c)
    ensures var t := Signal(m, c); Progress(m, t) && t.stopping && t.r.phase == Running
  {
    var k := K.Effect(m.k, c);
    if c.Reaped? && c.pid in m.active {
      var t := Terminate(m, c.pid, EndStopped);
      TerminateProgress(m, c.pid, EndStopped);
      KernelProgress(t, k);
      ProgressTransitive(m, t, t.(k := k));
      assert Signal(m, c) == t.(k := k);
    } else {
      KernelProgress(m, k);
    }
  }

  lemma {:induction false} SignalsProgress(m: Multi, s: K.Stage, calls: seq<K.Call>)
    requires CoreInv(m) && m.stopping && m.r.phase == Running && K.AllPossible(m.k, s, calls)
    ensures var t := Signals(m, calls); Progress(m, t) && t.stopping && t.r.phase == Running
    decreases |calls|
  {
    if calls != [] {
      var n := Signal(m, calls[0]);
      SignalKeeps(m, s, calls[0]);
      SignalProgress(m, s, calls[0]);
      SignalsProgress(n, K.Then(s, calls[0]), calls[1..]);
      ProgressTransitive(m, n, Signals(n, calls[1..]));
    }
  }

  /** A job other than the sentinel does nothing to a stopping loop but leave the queue. */
  lemma DispatchIgnores(m: Multi, pid: Pid, h: Handle)
    requires m.stopping && m.r.phase == Running && m.q.wake > 0 && m.q.jobs != [] && m.q.jobs[0] != Sentinel
    ensures var n := Dispatch(m, pid, h);
            && n.q == TakeJob(ReadWake(m.q)) && n.r == m.r && n.k == m.k && n.u == m.u
            && n.active == m.active && n.stopping && n.flag == m.flag
  {}

  lemma DispatchProgress(m: Multi, pid: Pid, h: Handle)
    requires Inv(m) && m.stopping && m.q.wake > 0
    ensures Progress(m, Dispatch(m, pid, h)) && PassesLeft(Dispatch(m, pid, h)) < PassesLeft(m)
  {
    if m.q.jobs[0] == Sentinel {
      SentinelJobKeeps(m);
    } else {
      DispatchIgnores(m, pid, h);
      TakeReaches(m.q);
    }
  }

  /** Taking a job and its byte leaves the others in reach. */
  lemma TakeReaches(q: Queue)
    requires q.wake > 0 && q.jobs != [] && q.jobs[0] != Sentinel
    ensures forall i | 0 <= i < |q.jobs| && q.jobs[i] == Sentinel && Reached(q, i) ::
              var n := TakeJob(ReadWake(q)); 0 < i && n.jobs[i - 1] == Sentinel && Reached(n, i - 1)
  {}

  lemma InterruptProgress(m: Multi)
    requires Inv(m) && Closing(m) && m.q.unsent > 0
    ensures Progress(m, Next(m, Interrupt))
  {
    forall i | 0 <= i < |m.q.jobs| && Reached(m.q, i)
      ensures Reached(Next(m, Interrupt).q, i)
    {
    }
  }

  lemma ProcessProgress(m: Multi, fd: Fd, pid: Pid, input: Input)
    requires QueueInv(m.q) && m.stopping && m.r.phase == Running
    requires fd in m.r.registered && fd != m.r.ownFd && pid in m.active
    requires m.r.registered[fd] in {OnWatch(pid), OnStdout(pid), OnStderr(pid)}
    ensures Progress(m, DoAction(m, fd, input))
  {
    ProcessCases(m, fd, pid, input);
    TerminateProgress(m, pid, EndFailed);
    TerminateProgress(m, pid, EndUserStopped);
    OrdersProgress(m, m.u.(output := m.u.output - {fd}));
  }

  lemma OrdersProgress(m: Multi, u: Orders)
    requires Closing(m) && m.u.poked <= u.poked
    ensures Progress(m, m.(u := u))
  {}

  lemma FireProgress(m: Multi, fd: Fd, input: Input)
    requires Inv(m) && Closing(m) && Enabled(m, Fire(fd, input))
    ensures Progress(m, DoAction(m, fd, input))
    ensures fd == m.r.ownFd || fd == m.r.controlFd ==> PassesLeft(DoAction(m, fd, input)) < PassesLeft(m)
  {
    if fd != m.r.ownFd {
      assert fd in m.r.registered && m.r.phase == Running;
      assert Belongs(m.r, m.active, fd, m.r.registered[fd]);
      match m.r.registered[fd]
      case OnSigchld => SignalsProgress(m, K.Reading(0), input.calls);
      case OnControl => DispatchProgress(m, input.pid, input.handle);
      case OnWatch(pid) => ProcessProgress(m, fd, pid, input);
      case OnStdout(pid) => ProcessProgress(m, fd, pid, input);
      case OnStderr(pid) => ProcessProgress(m, fd, pid, input);
    }
  }

  lemma QuietProgress(m: Multi, e: Event)
    requires Inv(m) && Closing(m) && Quiet(e) && Enabled(m, e) && !e.Fire?
    ensures Progress(m, Next(m, e))
  {
    match e
    case Interrupt => InterruptProgress(m);
    case Happens(event) => KernelProgress(m, K.Happen(m.k, event));
    case Poke(pid) => OrdersProgress(m, m.u.(poked := m.u.poked + {pid}));
    case Writes(fd) => OrdersProgress(m, m.u.(output := m.u.output + {fd}));
  }

  lemma StepProgress(m: Multi, e: Event)
    requires Inv(m) && Closing(m) && Quiet(e) && Enabled(m, e)
    ensures Inv(Next(m, e)) && Progress(m, Next(m, e))
  {
    StepKeeps(m, e);
    if e.Fire? {
      FireProgress(m, e.fd, e.input);
    } else {
      QuietProgress(m, e);
    }
  }

  // ---------------------------------------------------------------------------------------------------------------
  // One pass

  ghost predicate QuietRun(m: Multi, events: seq<Event>) {
    Inv(m) && Closing(m) && Legal(m, events) && forall i | 0 <= i < |events| :: Quiet(events[i])
  }

  lemma {:induction false} RunProgress(m: Multi, events: seq<Event>)
    requires QuietRun(m, events)
    ensures Inv(After(m, events)) && Progress(m, After(m, events))
    decreases |events|
  {
    if events != [] {
      var n := Next(m, events[0]);
      StepProgress(m, events[0]);
      RunProgress(n, events[1..]);
      ProgressTransitive(m, n, After(n, events[1..]));
    }
  }

  /** A poked process whose watch pipe is served is detached at the end. */
  lemma {:induction false} ServedWatch(m: Multi, events: seq<Event>, p: Pid)
    requires QuietRun(m, events) && p in m.active && Served(m, events, m.active[p].watch)
    ensures p !in After(m, events).active
    decreases |events|
  {
    assert Attached(m.r, p, m.active[p]);
    var e, n := events[0], Next(m, events[0]);
    StepProgress(m, e);
    RunProgress(n, events[1..]);
    if p in n.active {
      ServedWatch(n, events[1..], p);
    }
  }

  /** A process that has exited is detached at the end if the signal pipe is served. */
  lemma {:induction false} ServedSigchld(m: Multi, events: seq<Event>, p: Pid)
    requires QuietRun(m, events) && p in m.active && p in m.k.zombies && Served(m, events, m.r.sigchldFd)
    ensures p !in After(m, events).active
    decreases |events|
  {
    assert Has(m.r, m.r.sigchldFd, OnSigchld);
    var e, n := events[0], Next(m, events[0]);
    StepProgress(m, e);
    RunProgress(n, events[1..]);
    if e.Fire? && e.fd == m.r.sigchldFd {
      ExitedIsReaped(m, e.input, p);
    } else if p in n.active {
      ServedSigchld(n, events[1..], p);
    }
  }

  /** Serving a control pipe, the class's or the select loop's own, is progress. */
  lemma {:induction false} ServedControl(m: Multi, events: seq<Event>, fd: Fd)
    requires QuietRun(m, events) && fd in m.r.watched && Served(m, events, fd)
    requires fd == m.r.ownFd || fd == m.r.controlFd
    ensures PassesLeft(After(m, events)) < PassesLeft(m)
    decreases |events|
  {
    var e, n := events[0], Next(m, events[0]);
    StepProgress(m, e);
    RunProgress(n, events[1..]);
    if e.Fire? && e.fd == fd {
      FireProgress(m, fd, e.input);
    } else if fd in n.r.watched {
      ServedControl(n, events[1..], fd);
    }
  }

  /** One pass detaches every doomed process. */
  lemma PassDetaches(m: Multi, events: seq<Event>)
    requires Inv(m) && Closing(m) && CompletePass(m, events) && Doomed(m)
    ensures After(m, events).active == map[]
  {
    var n := After(m, events);
    RunProgress(m, events);
    forall p | p in m.active ensures p !in n.active {
      assert Attached(m.r, p, m.active[p]) && Has(m.r, m.r.sigchldFd, OnSigchld);
      if p in m.u.poked {
        assert MustReport(m, m.active[p].watch);
        ServedWatch(m, events, p);
      } else {
        assert p in m.k.watched * m.k.zombies;
        assert MustReport(m, m.r.sigchldFd);
        ServedSigchld(m, events, p);
      }
    }
  }

  /** A complete pass of a closing loop whose processes are doomed never takes it further from its end, and it brings it
      nearer if no write to the control pipe was in flight when it began. */
  lemma PassProgress(m: Multi, events: seq<Event>)
    requires Inv(m) && Closing(m) && CompletePass(m, events) && Doomed(m) && Uncongested(m)
    requires m.r.phase != Idle
    ensures var n := After(m, events);
            && Inv(n) && Closing(n) && Doomed(n) && Uncongested(n)
            && PassesLeft(n) <= PassesLeft(m) && n.q.unsent <= m.q.unsent
            && (m.q.unsent == 0 ==> PassesLeft(n) < PassesLeft(m))
  {
    RunProgress(m, events);
    PassDetaches(m, events);
    if m.active == map[] && m.q.unsent == 0 {
      var fd := if m.r.phase == Running then m.r.controlFd else m.r.ownFd;
      assert m.r.phase == Running ==> Has(m.r, m.r.controlFd, OnControl);
      assert MustReport(m, fd);
      ServedControl(m, events, fd);
    }
  }

  // ---------------------------------------------------------------------------------------------------------------
  // Shutdown

  /** Complete passes, one after another, for as long as the loop runs. */
  ghost predicate Passes(m: Multi, passes: seq<seq<Event>>)
    decreases |passes|
  {
    passes == [] || m.r.phase == Idle || (CompletePass(m, passes[0]) && Passes(After(m, passes[0]), passes[1..]))
  }

  ghost function AfterPasses(m: Multi, passes: seq<seq<Event>>): Multi
    requires Passes(m, passes)
    decreases |passes|
  {
    if passes == [] || m.r.phase == Idle then m else AfterPasses(After(m, passes[0]), passes[1..])
  }

  /** The number of passes that begin with no write to the control pipe in flight. */
  ghost function CalmPasses(m: Multi, passes: seq<seq<Event>>): nat
    requires Passes(m, passes)
    decreases |passes|
  {
    if passes == [] || m.r.phase == Idle then 0
    else One(m.q.unsent == 0) + CalmPasses(After(m, passes[0]), passes[1..])
  }

  lemma {:induction false} CalmPassesLeft(m: Multi, passes: seq<seq<Event>>)
    requires Inv(m) && Closing(m) && Doomed(m) && Uncongested(m) && Passes(m, passes)
    ensures var n := AfterPasses(m, passes); Inv(n) && PassesLeft(n) + CalmPasses(m, passes) <= PassesLeft(m)
    decreases |passes|
  {
    if passes != [] && m.r.phase != Idle {
      PassProgress(m, passes[0]);
      CalmPassesLeft(After(m, passes[0]), passes[1..]);
    }
  }

  /** Once producers that have added a job have also written their byte, the loop leaves within `PassesLeft` passes, with
      nothing registered or watched. */
  lemma ShutdownTerminates(m: Multi, passes: seq<seq<Event>>)
    requires Inv(m) && Closing(m) && Doomed(m) && Uncongested(m)
    requires Passes(m, passes) && CalmPasses(m, passes) >= PassesLeft(m)
    ensures var n := AfterPasses(m, passes);
            && Inv(n) && n.r.phase == Idle && n.active == map[] && n.r.registered == map[] && n.r.watched == {}
  {
    CalmPassesLeft(m, passes);
  }

  /** After STOP_USER, `run` returns within |jobs| + 3 such passes, whatever the children do. */
  lemma StopUserTerminates(m: Multi, passes: seq<seq<Event>>)
    requires Inv(m) && m.stopping && m.flag == StopUser && Uncongested(m)
    requires Passes(m, passes) && CalmPasses(m, passes) >= |m.q.jobs| + 3
    ensures AfterPasses(m, passes).r.phase == Idle && AfterPasses(m, passes).active == map[]
  {
    ShutdownTerminates(m, passes);
  }

  /** After STOP_WAIT or STOP_KILL the same holds once every active process has exited. */
  lemma StopWaitTerminates(m: Multi, passes: seq<seq<Event>>)
    requires Inv(m) && m.stopping && m.active.Keys <= m.k.zombies && Uncongested(m)
    requires Passes(m, passes) && CalmPasses(m, passes) >= |m.q.jobs| + 3
    ensures AfterPasses(m, passes).r.phase == Idle && AfterPasses(m, passes).active == map[]
  {
    ShutdownTerminates(m, passes);
  }

  // ---------------------------------------------------------------------------------------------------------------
  // From the submission of a job to its dispatch

  lemma {:induction false} SignalsQueue(m: Multi, calls: seq<K.Call>)
    ensures Signals(m, calls).q.dispatched == m.q.dispatched && |Signals(m, calls).q.enqueued| >= |m.q.enqueued|
    decreases |calls|
  {
    if calls != [] {
      SignalsQueue(Signal(m, calls[0]), calls[1..]);
    }
  }

  lemma DispatchQueue(m: Multi, pid: Pid, h: Handle)
    requires m.q.wake > 0 && m.q.jobs != []
    ensures Dispatch(m, pid, h).q == TakeJob(ReadWake(m.q))
  {}

  lemma ProcessQueue(m: Multi, fd: Fd, pid: Pid, input: Input)
    requires fd in m.r.registered && fd != m.r.ownFd && pid in m.active
    requires m.r.registered[fd] in {OnWatch(pid), OnStdout(pid), OnStderr(pid)}
    ensures var q := DoAction(m, fd, input).q; q.dispatched == m.q.dispatched && |q.enqueued| >= |m.q.enqueued|
  {
    ProcessCases(m, fd, pid, input);
  }

  /** Only the callback of the control pipe dispatches, and it always does. */
  lemma FireDispatches(m: Multi, fd: Fd, input: Input)
    requires Inv(m) && Enabled(m, Fire(fd, input))
    ensures var q := DoAction(m, fd, input).q;
            && |q.dispatched| == |m.q.dispatched| + One(fd == m.r.controlFd) && |q.enqueued| >= |m.q.enqueued|
  {
    if fd != m.r.ownFd {
      assert fd in m.r.registered && m.r.phase == Running;
      assert Belongs(m.r, m.active, fd, m.r.registered[fd]);
      assert Has(m.r, m.r.sigchldFd, OnSigchld) && Has(m.r, m.r.controlFd, OnControl);
      match m.r.registered[fd]
      case OnSigchld => SignalsQueue(m, input.calls);
      case OnControl => DispatchQueue(m, input.pid, input.handle);
      case OnWatch(pid) => ProcessQueue(m, fd, pid, input);
      case OnStdout(pid) => ProcessQueue(m, fd, pid, input);
      case OnStderr(pid) => ProcessQueue(m, fd, pid, input);
    }
  }

  lemma StepDispatches(m: Multi, e: Event)
    requires Inv(m) && Enabled(m, e)
    ensures var q := Next(m, e).q;
            && |q.dispatched| == |m.q.dispatched| + One(e.Fire? && e.fd == m.r.controlFd)
            && |q.enqueued| >= |m.q.enqueued|
  {
    if e.Fire? {
      FireDispatches(m, e.fd, e.input);
    }
  }

  lemma {:induction false} RunDispatches(m: Multi, events: seq<Event>)
    requires Inv(m) && Legal(m, events)
    ensures var q := After(m, events).q;
            Inv(After(m, events)) && |q.dispatched| >= |m.q.dispatched| && |q.enqueued| >= |m.q.enqueued|
    decreases |events|
  {
    if events != [] {
      StepKeeps(m, events[0]);
      StepDispatches(m, events[0]);
      RunDispatches(Next(m, events[0]), events[1..]);
    }
  }

  /** A pass that serves all that `select` must report, with anything submitted meanwhile. */
  ghost predicate FullPass(m: Multi, events: seq<Event>) {
    && !m.k.pending && Legal(m, events)
    && (forall i | 0 <= i < |events| :: !events[i].Run?)
    && (forall fd | MustReport(m, fd) :: Served(m, events, fd))
  }

  /** A step that does not dispatch does not leave. */
  lemma KeepsRunning(m: Multi, e: Event)
    requires Inv(m) && Enabled(m, e) && m.r.phase == Running && !e.Run? && (e.Fire? ==> e.fd != m.r.controlFd)
    ensures Next(m, e).r.phase == Running && Next(m, e).r.controlFd == m.r.controlFd
    ensures m.r.controlFd in Next(m, e).r.watched
  {
    LeavesExactlyWhen(m, e);
    StepKeeps(m, e);
    StepControl(m, e);
    ControlWatched(Next(m, e));
  }

  lemma ControlWatched(m: Multi)
    requires Inv(m) && m.r.phase == Running
    ensures m.r.controlFd in m.r.watched
  {
    assert Has(m.r, m.r.controlFd, OnControl);
  }

  lemma {:induction false} ServedDispatches(m: Multi, events: seq<Event>)
    requires Inv(m) && m.r.phase == Running && Legal(m, events) && Served(m, events, m.r.controlFd)
    requires forall i | 0 <= i < |events| :: !events[i].Run?
    ensures |After(m, events).q.dispatched| > |m.q.dispatched|
    decreases |events|
  {
    assert Has(m.r, m.r.controlFd, OnControl);
    var e, n, rest := events[0], Next(m, events[0]), events[1..];
    StepKeeps(m, e);
    StepDispatches(m, e);
    if e.Fire? && e.fd == m.r.controlFd {
      RunDispatches(n, rest);
    } else {
      KeepsRunning(m, e);
      ServedDispatches(n, rest);
    }
  }

  /** Full passes, one after another, for as long as the loop runs. */
  ghost predicate FullPasses(m: Multi, passes: seq<seq<Event>>)
    decreases |passes|
  {
    passes == [] || m.r.phase != Running || (FullPass(m, passes[0]) && FullPasses(After(m, passes[0]), passes[1..]))
  }

  ghost function AfterFull(m: Multi, passes: seq<seq<Event>>): Multi
    requires FullPasses(m, passes)
    decreases |passes|
  {
    if passes == [] || m.r.phase != Running then m else AfterFull(After(m, passes[0]), passes[1..])
  }

  /** The number of passes that begin with no write in flight and none lost. */
  ghost function LosslessPasses(m: Multi, passes: seq<seq<Event>>): nat
    requires FullPasses(m, passes)
    decreases |passes|
  {
    if passes == [] || m.r.phase != Running then 0
    else One(m.q.unsent == 0 && m.q.lost == 0) + LosslessPasses(After(m, passes[0]), passes[1..])
  }

  lemma LosslessPassDispatches(m: Multi, events: seq<Event>)
    requires Inv(m) && m.r.phase == Running && FullPass(m, events)
    requires m.q.unsent == 0 && m.q.lost == 0 && m.q.jobs != []
    ensures |After(m, events).q.dispatched| > |m.q.dispatched|
  {
    assert Has(m.r, m.r.controlFd, OnControl);
    assert MustReport(m, m.r.controlFd);
    ServedDispatches(m, events);
  }

  lemma {:induction false} JobsAreTaken(m: Multi, passes: seq<seq<Event>>, t: nat)
    requires Inv(m) && FullPasses(m, passes) && t <= |m.q.enqueued|
    requires |m.q.dispatched| + LosslessPasses(m, passes) >= t
    ensures var n := AfterFull(m, passes); n.r.phase != Running || |n.q.dispatched| >= t
    decreases |passes|
  {
    if passes != [] && m.r.phase == Running {
      RunDispatches(m, passes[0]);
      if m.q.unsent == 0 && m.q.lost == 0 && m.q.jobs != [] {
        LosslessPassDispatches(m, passes[0]);
      }
      JobsAreTaken(After(m, passes[0]), passes[1..], t);
    }
  }

  /** The job that is at position i of the queue is dispatched within i + 1 passes that begin with no write in flight and
      none lost, whatever is submitted meanwhile, or the loop has left. */
  lemma SubmittedIsTaken(m: Multi, passes: seq<seq<Event>>, i: nat)
    requires Inv(m) && FullPasses(m, passes) && i < |m.q.jobs| && LosslessPasses(m, passes) >= i + 1
    ensures var n := AfterFull(m, passes); n.r.phase != Running || |n.q.dispatched| > |m.q.dispatched| + i
  {
    JobsAreTaken(m, passes, |m.q.dispatched| + i + 1);
  }

  /** And a stop that is dispatched makes the loop close, if it has not begun to before. */
  lemma StopCloses(m: Multi, pid: Pid, h: Handle)
    requires Inv(m) && m.r.phase == Running && m.q.wake > 0 && m.q.jobs[0].Stop?
    ensures Closing(Dispatch(m, pid, h))
  {}

  // ---------------------------------------------------------------------------------------------------------------
  // A congested control pipe

  const SPARE := Input(2, Handle(0, 23, 24, 25, {}), Places(0, 0, 0), [], false, false)

  /** Neither a byte nor a write in flight is left for the sentinel. */
  ghost predicate Stuck(m: Multi) {
    && m.stopping && m.active == map[]
    && forall i | 0 <= i < |m.q.jobs| && m.q.jobs[i] == Sentinel :: m.q.wake + m.q.unsent <= i
  }

  lemma {:induction false} SignalsStuck(m: Multi, calls: seq<K.Call>)
    requires Stuck(m)
    ensures Stuck(Signals(m, calls))
    decreases |calls|
  {
    if calls != [] {
      SignalsStuck(Signal(m, calls[0]), calls[1..]);
    }
  }

  lemma StuckDispatch(m: Multi, pid: Pid, h: Handle)
    requires Inv(m) && Stuck(m) && m.q.wake > 0
    ensures Stuck(Dispatch(m, pid, h))
  {
    var n := TakeJob(ReadWake(m.q));
    forall i | 0 <= i < |n.jobs| && n.jobs[i] == Sentinel ensures n.wake + n.unsent <= i {
      assert m.q.jobs[i + 1] == Sentinel;
    }
  }

  lemma StuckStep(m: Multi, e: Event)
    requires Inv(m) && Stuck(m) && Quiet(e) && Enabled(m, e)
    ensures Stuck(Next(m, e))
  {
    if e.Fire? {
      assert Belongs(m.r, m.active, e.fd, m.r.registered[e.fd]);
      match m.r.registered[e.fd]
      case OnSigchld => SignalsStuck(m, e.input.calls);
      case OnControl => StuckDispatch(m, e.input.pid, e.input.handle);
      case _ =>
    }
  }

  /** Without new jobs, a stuck loop never leaves. */
  lemma {:induction false} StuckForever(m: Multi, events: seq<Event>)
    requires QuietRun(m, events) && Stuck(m)
    ensures Stuck(After(m, events)) && After(m, events).r.phase == Running
    decreases |events|
  {
    if events != [] {
      StepProgress(m, events[0]);
      StuckStep(m, events[0]);
      StuckForever(Next(m, events[0]), events[1..]);
    }
  }

  lemma NoSentinelYet(m: Multi)
    requires Inv(m) && m.active != map[]
    ensures forall i | 0 <= i < |m.q.jobs| :: m.q.jobs[i] != Sentinel
  {
    forall i | 0 <= i < |m.q.jobs| ensures m.q.jobs[i] != Sentinel {
      assert m.q.jobs[i] in multiset(m.q.jobs);
    }
  }

  lemma OneFewer(m: Multi, p: Pid, ending: Ending)
    requires p in m.active
    ensures |Terminate(m, p, ending).active| < |m.active|
  {
    var left := m.active - {p};
    assert left.Keys == m.active.Keys - {p};
    assert |left.Keys| < |m.active.Keys|;
  }

  /** The end of one process does not help a congested loop. */
  lemma StaysCongested(m: Multi, p: Pid)
    requires m.stopping && m.r.phase == Running && QueueInv(m.q) && !Uncongested(m) && p in m.active
    requires forall i | 0 <= i < |m.q.jobs| :: m.q.jobs[i] != Sentinel
    ensures var n := Terminate(m, p, EndUserStopped); n.stopping && !Uncongested(n)
  {
    var n := Terminate(m, p, EndUserStopped);
    if n.active == map[] {
      assert n.q.jobs == m.q.jobs + [Sentinel];
      assert !Reached(n.q, |m.q.jobs|);
    }
  }

  /** Nor does a write in flight, once no process is left. */
  lemma InterruptCongested(m: Multi)
    requires Inv(m) && m.stopping && m.active == map[] && !Uncongested(m) && m.q.unsent > 0
    ensures !Uncongested(Next(m, Interrupt))
  {
    forall i | 0 <= i < |m.q.jobs| && !Reached(m.q, i)
      ensures !Reached(Next(m, Interrupt).q, i)
    {
    }
  }

  /** The watch pipe of `p`, once poked, ends it. */
  lemma EndPoked(m: Multi, p: Pid)
    requires Inv(m) && m.stopping && p in m.active && p in m.u.poked
    ensures var e := Fire(m.active[p].watch, SPARE);
            Enabled(m, e) && Next(m, e) == Terminate(m, p, EndUserStopped) && Inv(Next(m, e)) && Closing(Next(m, e))
  {
    var fd := m.active[p].watch;
    assert Attached(m.r, p, m.active[p]);
    assert Belongs(m.r, m.active, fd, OnWatch(p));
    WatchEnds(m, fd, p, SPARE);
    StepKeeps(m, Fire(fd, SPARE));
    TerminateProgress(m, p, EndUserStopped);
  }

  lemma {:induction false} RunConcat(m: Multi, a: seq<Event>, b: seq<Event>)
    requires Legal(m, a) && Legal(After(m, a), b)
    ensures Legal(m, a + b) && After(m, a + b) == After(After(m, a), b)
    decreases |a|
  {
    if a == [] {
      assert a + b == b;
    } else {
      assert (a + b)[1..] == a[1..] + b;
      RunConcat(Next(m, a[0]), a[1..], b);
    }
  }

  lemma QuietConcat(m: Multi, a: seq<Event>, b: seq<Event>)
    requires QuietRun(m, a) && QuietRun(After(m, a), b)
    ensures QuietRun(m, a + b) && After(m, a + b) == After(After(m, a), b)
  {
    RunConcat(m, a, b);
  }

  lemma QuietOne(m: Multi, e: Event)
    requires Inv(m) && Closing(m) && Enabled(m, e) && Quiet(e)
    ensures QuietRun(m, [e]) && After(m, [e]) == Next(m, e)
  {
    assert [e][1..] == [];
  }

  lemma CongestedStep(m: Multi, p: Pid) returns (a: seq<Event>)
    requires Inv(m) && m.stopping && !Uncongested(m) && p in m.active
    ensures QuietRun(m, a)
    ensures var n := After(m, a); Inv(n) && n.stopping && |n.active| < |m.active| && !Uncongested(n)
  {
    var s, e := Next(m, Poke(p)), Fire(m.active[p].watch, SPARE);
    StepKeeps(m, Poke(p));
    QuietOne(m, Poke(p));
    EndPoked(s, p);
    QuietOne(s, e);
    QuietConcat(m, [Poke(p)], [e]);
    NoSentinelYet(m);
    StaysCongested(s, p);
    OneFewer(s, p, EndUserStopped);
    a := [Poke(p)] + [e];
  }

  lemma CongestedInterrupt(m: Multi) returns (a: seq<Event>)
    requires Inv(m) && m.stopping && !Uncongested(m) && m.active == map[] && m.q.unsent > 0
    ensures QuietRun(m, a)
    ensures var n := After(m, a);
            Inv(n) && n.stopping && n.active == map[] && n.q.unsent < m.q.unsent && !Uncongested(n)
  {
    StepKeeps(m, Interrupt);
    QuietOne(m, Interrupt);
    InterruptCongested(m);
    a := [Interrupt];
  }

  lemma EmptyCongested(m: Multi)
    requires Inv(m) && m.stopping && !Uncongested(m) && m.active == map[] && m.q.unsent == 0
    ensures Stuck(m)
  {}

  /** A stopping loop that is congested gets stuck in some run: the one in which its processes end now, and then the
      writes in flight are made. */
  lemma {:induction false} CongestedSticks(m: Multi) returns (events: seq<Event>)
    requires Inv(m) && m.stopping && !Uncongested(m)
    ensures QuietRun(m, events) && Stuck(After(m, events))
    decreases |m.active|, m.q.unsent
  {
    events := [];
    var a;
    if p :| p in m.active {
      a := CongestedStep(m, p);
    } else if m.q.unsent > 0 {
      a := CongestedInterrupt(m);
    } else {
      EmptyCongested(m);
      return;
    }
    events := CongestedSticks(After(m, a));
    QuietConcat(m, a, events);
    events := a + events;
  }

  /** The condition of `ShutdownTerminates` is exact: a stopping loop can get stuck if and only if it is congested. */
  lemma SticksIffCongested(m: Multi)
    requires Inv(m) && m.stopping
    ensures (exists events :: QuietRun(m, events) && Stuck(After(m, events))) <==> !Uncongested(m)
  {
    if !Uncongested(m) {
      var events := CongestedSticks(m);
    }
    forall events | QuietRun(m, events) && Uncongested(m) ensures !Stuck(After(m, events)) {
      RunProgress(m, events);
    }
  }

  // ---------------------------------------------------------------------------------------------------------------
  // A full control pipe

  ghost predicate Reaches(m: Multi, n: Multi) {
    exists events: seq<Event> :: Legal(m, events) && After(m, events) == n
  }

  lemma ReachesStep(m: Multi, e: Event, n: Multi)
    requires Enabled(m, e) && Reaches(Next(m, e), n)
    ensures Reaches(m, n)
  {
    var rest :| Legal(Next(m, e), rest) && After(Next(m, e), rest) == n;
    var events := [e] + rest;
    assert events[0] == e && events[1..] == rest;
    assert Legal(m, events) && After(m, events) == n;
  }

  lemma ReachesSelf(m: Multi)
    ensures Reaches(m, m)
  {
    assert Legal(m, []) && After(m, []) == m;
  }

  /** The sentinel is queued, no write is in flight, and `select` has nothing to report. */
  ghost predicate Stalled(m: Multi) {
    && Stuck(m) && Sentinel in m.q.jobs && m.q.unsent == 0 && !m.k.pending
    && forall fd :: !MustReport(m, fd)
  }

  lemma ReachesTransitive(a: Multi, b: Multi, c: Multi)
    requires Reaches(a, b) && Reaches(b, c)
    ensures Reaches(a, c)
  {
    var x :| Legal(a, x) && After(a, x) == b;
    var y :| Legal(b, y) && After(b, y) == c;
    RunConcat(a, x, y);
  }

  const FIRST := Handle(0, 10, 11, 12, {13, 14, 15, 16, 17})
  const LOOP :=
    Registry(map[5 := OnSigchld, 3 := OnControl], {3, 5, 7}, Running, 3, 5, 7, {6, 8}, {3, 5, 6, 7, 8}, 0)
  const WATCHED := Attach(LOOP, 1, FIRST)
  const CHILD := K.Kernel({1}, {}, {1}, false, false, [], K.INT_SIZE, 0, 0)
  const LAST := Stop(StopWait, -1)

  /** The loop with one process. */
  lemma WatchedFacts()
    ensures WATCHED.watched == {3, 5, 7, 10, 11, 12} && WATCHED.phase == Running
    ensures WATCHED.controlFd == 3 && WATCHED.sigchldFd == 5 && WATCHED.ownFd == 7
    ensures Has(WATCHED, 3, OnControl) && Has(WATCHED, 10, OnWatch(1))
    ensures FreshHandle(WATCHED.open, SPARE.handle)
  {}

  function Stops(n: nat): seq<Job> {
    seq(n, i => LAST)
  }

  /** One process runs and is the only one; nothing is queued. */
  ghost predicate Watching(m: Multi, c: nat) {
    && m.q.jobs == [] && m.q.wake == 0 && m.q.unsent == 0 && m.q.capacity == c
    && m.r == WATCHED && m.k == CHILD && m.active == map[1 := FIRST] && !m.stopping
  }

  /** The loop is stopping, the process has been asked to be left alone, and j more stops are queued. */
  ghost predicate Filling(m: Multi, c: nat, j: nat) {
    && m.q.jobs == Stops(j) && m.q.wake == j && m.q.unsent == 0 && m.q.capacity == c
    && m.r == WATCHED && m.k == CHILD && m.active == map[1 := FIRST] && m.stopping && 1 in m.u.poked
  }

  /** The last process has ended, the byte of the sentinel was lost, and j bytes are left. */
  ghost predicate Draining(m: Multi, j: nat) {
    && m.q.jobs == Stops(j) + [Sentinel] && m.q.wake == j && m.q.unsent == 0
    && m.stopping && m.active == map[] && m.k == CHILD && m.r == Detach(WATCHED, FIRST)
  }

  lemma IdleWatches(m: Multi, c: nat) returns (n: Multi)
    requires c > 0 && m == Init(3, {3}, {}, c)
    ensures Reaches(m, n) && Watching(n, c) && 1 !in n.log.status
  {
    var run := Run(7, 5, {6, 8}, K.INT_SIZE);
    var e4 := Fire(3, Input(1, FIRST, Places(0, 0, 0), [], false, false));
    var s1 := Next(m, Enqueue(Spawn(0)));
    var s2 := Next(s1, Interrupt);
    var s3 := Next(s2, run);
    assert s3.r == LOOP;
    n := Next(s3, e4);
    assert n.k == CHILD;
    ReachesSelf(n);
    ReachesStep(s3, e4, n);
    ReachesStep(s2, run, n);
    ReachesStep(s1, Interrupt, n);
    ReachesStep(m, Enqueue(Spawn(0)), n);
  }

  /** A stop is submitted. */
  lemma Submits(m: Multi, job: Job) returns (n: Multi)
    requires job.Stop?
    ensures Reaches(m, n) && n == m.(q := SendJob(m.q, job))
  {
    var s := Next(m, Enqueue(job));
    n := Next(s, Interrupt);
    ReachesSelf(n);
    ReachesStep(s, Interrupt, n);
    ReachesStep(m, Enqueue(job), n);
  }

  /** The control callback takes STOP_USER while processes are active. */
  lemma StopUserTaken(m: Multi, e: Event)
    requires e.Fire? && Enabled(m, e) && e.fd != m.r.ownFd && Has(m.r, e.fd, OnControl)
    requires m.q.wake > 0 && m.q.jobs != [] && m.q.jobs[0].Stop? && m.q.jobs[0].flag == StopUser
    requires !m.stopping && m.active != map[]
    ensures var n := Next(m, e);
            && n.q == TakeJob(ReadWake(m.q)) && n.r == m.r && n.k == m.k && n.active == m.active
            && n.stopping && m.active.Keys <= n.u.poked
  {}

  lemma StopTaken(m: Multi, c: nat) returns (n: Multi)
    requires m.q.jobs == [Stop(StopUser, -1)] && m.q.wake == 1 && m.q.unsent == 0 && m.q.capacity == c
    requires m.r == WATCHED && m.k == CHILD && m.active == map[1 := FIRST] && !m.stopping
    ensures Reaches(m, n) && Filling(n, c, 0)
  {
    var e := Fire(3, SPARE);
    WatchedFacts();
    assert Enabled(m, e) && 1 in m.active;
    StopUserTaken(m, e);
    n := Next(m, e);
    assert n.q.jobs == [] == Stops(0);
    assert 1 in m.active.Keys;
    ReachesSelf(n);
    ReachesStep(m, e, n);
  }

  lemma WatchingStops(m: Multi, c: nat) returns (n: Multi)
    requires c > 0 && Watching(m, c)
    ensures Reaches(m, n) && Filling(n, c, 0)
  {
    var s := Submits(m, Stop(StopUser, -1));
    n := StopTaken(s, c);
    ReachesTransitive(m, s, n);
  }

  lemma FillsOne(m: Multi, c: nat, j: nat) returns (n: Multi)
    requires j < c && Filling(m, c, j)
    ensures Reaches(m, n) && Filling(n, c, j + 1)
  {
    n := Submits(m, LAST);
    assert n.q.jobs == Stops(j + 1);
  }

  lemma {:induction false} FillsUp(m: Multi, c: nat, j: nat) returns (n: Multi)
    requires j <= c && Filling(m, c, j)
    ensures Reaches(m, n) && Filling(n, c, c)
    decreases c - j
  {
    if j == c {
      ReachesSelf(m);
      n := m;
    } else {
      var s := FillsOne(m, c, j);
      n := FillsUp(s, c, j + 1);
      ReachesTransitive(m, s, n);
    }
  }

  lemma LastEnds(m: Multi, c: nat) returns (n: Multi)
    requires Filling(m, c, c)
    ensures Reaches(m, n) && Draining(n, c)
  {
    var e := Fire(10, SPARE);
    WatchedFacts();
    n := Next(m, e);
    assert m.active - {1} == map[];
    ReachesSelf(n);
    ReachesStep(m, e, n);
  }

  lemma DrainsOne(m: Multi, j: nat) returns (n: Multi)
    requires j > 0 && Draining(m, j)
    ensures Reaches(m, n) && Draining(n, j - 1)
  {
    var e := Fire(3, SPARE);
    WatchedFacts();
    assert Enabled(m, e);
    n := Next(m, e);
    DispatchIgnores(m, SPARE.pid, SPARE.handle);
    assert n.q.jobs == Stops(j - 1) + [Sentinel];
    ReachesSelf(n);
    ReachesStep(m, e, n);
  }

  lemma {:induction false} DrainsAll(m: Multi, j: nat) returns (n: Multi)
    requires Draining(m, j)
    ensures Reaches(m, n) && Draining(n, 0)
    decreases j
  {
    if j == 0 {
      ReachesSelf(m);
      n := m;
    } else {
      var s := DrainsOne(m, j);
      n := DrainsAll(s, j - 1);
      ReachesTransitive(m, s, n);
    }
  }

  lemma DrainedStalls(m: Multi)
    requires Draining(m, 0)
    ensures Stalled(m)
  {
    WatchedFacts();
  }

  /** Whatever room the control pipe has, it is used up by that many stops queued before the last process ends; then the
      wakeup of the sentinel is dropped, and a loop that started from nothing waits forever. */
  lemma FullPipeStallsShutdown(c: nat) returns (n: Multi)
    requires c > 0
    ensures Reaches(Init(3, {3}, {}, c), n) && Stalled(n)
  {
    var start := Init(3, {3}, {}, c);
    var watching := IdleWatches(start, c);
    n := WatchingStops(watching, c);
    ReachesTransitive(start, watching, n);
    var full := FillsUp(n, c, 0);
    ReachesTransitive(start, n, full);
    var ended := LastEnds(full, c);
    ReachesTransitive(start, full, ended);
    n := DrainsAll(ended, c);
    ReachesTransitive(start, ended, n);
    DrainedStalls(n);
  }
}
