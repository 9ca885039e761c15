/** What the jobs of `pexec_multi` do: a spawn starts the process of its own job, a stop acts with the flag and the signal of
    its own job, and nothing else sends a signal. */
module MultiJobs {
  import opened Events
  import opened MultiModel
  import opened MultiInvariant
  import opened MultiGuarantees
  import K = SigchldHandler

  // ---------------------------------------------------------------------------------------------------------------
  // One step

  /** The control callback takes a stop while the loop does not stop yet and processes are active. */
  predicate Begins(m: Multi, e: Event) {
    && e.Fire? && e.fd == m.r.controlFd && m.r.phase == Running
    && m.q.jobs != [] && m.q.jobs[0].Stop? && !m.stopping && m.active != map[]
  }

  lemma JobIsDispatched(m: Multi, e: Event)
    requires Inv(m) && Enabled(m, e) && e.Fire? && e.fd == m.r.controlFd && m.r.phase == Running
    ensures m.q.wake > 0 && m.q.jobs != [] && Next(m, e) == Dispatch(m, e.input.pid, e.input.handle)
  {
    assert Has(m.r, m.r.controlFd, OnControl);
  }

  /** Then the loop stops as the job says: STOP_KILL sends the job's signal to each active process and to no other, STOP_USER
      pokes each of them and no other, and STOP_WAIT does neither. */
  lemma StopActs(m: Multi, e: Event)
    requires Inv(m) && Enabled(m, e) && Begins(m, e)
    ensures var n, job := Next(m, e), m.q.jobs[0];
            && n.stopping && n.flag == job.flag && n.signum == job.signum && n.active == m.active
            && (forall p, s :: (p, s) in n.u.killed <==>
                  (p, s) in m.u.killed || (job.flag == StopKill && p in m.active && s == job.signum))
            && (forall p :: p in n.u.poked <==> p in m.u.poked || (job.flag == StopUser && p in m.active))
            && n.u.output == m.u.output && n.q.jobs == m.q.jobs[1..] && n.r == m.r && n.log == m.log
  {
    JobIsDispatched(m, e);
    var job := m.q.jobs[0];
    assert Next(m, e) == Cleanup(m.(q := TakeJob(ReadWake(m.q)), flag := job.flag, signum := job.signum));
  }

  /** A stop while stopping changes nothing but the queue, and one without processes makes the loop leave. */
  lemma OtherStops(m: Multi, e: Event)
    requires Inv(m) && Enabled(m, e) && e.Fire? && e.fd == m.r.controlFd && m.r.phase == Running
    requires m.q.jobs != [] && m.q.jobs[0].Stop? && !Begins(m, e)
    ensures var n := Next(m, e);
            if m.stopping then n == m.(q := n.q) else n.r.phase == Interrupted && !n.stopping && n.u == m.u
  {
    JobIsDispatched(m, e);
  }

  /** The job `id` has become the process `pid`, whose three descriptors are watched and whose pipes are empty. */
  predicate Starts(m: Multi, n: Multi, id: Id, pid: Pid, h: Handle) {
    && n.log == m.log.(status := m.log.status[id := Active(pid)]) && n.active == m.active[pid := h]
    && Attached(n.r, pid, h) && n.r.watched == m.r.watched + {h.watch, h.out, h.err}
    && n.r.open == m.r.open + {h.watch, h.out, h.err} + h.rest && n.r.failures == m.r.failures
    && n.k.children == m.k.children + {pid} && pid in n.k.watched && n.k.zombies == m.k.zombies
    && pid !in n.u.poked && h.out !in n.u.output && h.err !in n.u.output && n.u.killed == m.u.killed
  }

  lemma SpawnStarts(m: Multi, pid: Pid, h: Handle)
    requires FreshHandle(m.r.watched, h) && !m.stopping
    ensures Starts(m, JobSpawn(m, pid, h), h.id, pid, h)
  {}

  lemma FreshToLoop(m: Multi, e: Event)
    requires Inv(m) && Enabled(m, e) && e.Fire? && e.fd == m.r.controlFd
    ensures FreshHandle(m.r.watched, e.input.handle)
  {}

  /** A spawn starts its process with what the system gives it, or is dropped while stopping. */
  lemma SpawnActs(m: Multi, e: Event)
    requires Inv(m) && Enabled(m, e) && e.Fire? && e.fd == m.r.controlFd && m.r.phase == Running
    requires m.q.jobs != [] && m.q.jobs[0].Spawn?
    ensures var n, id := Next(m, e), m.q.jobs[0].id;
            if m.stopping then n == m.(q := n.q, log := m.log.(status := m.log.status[id := Dropped]))
            else Starts(m, n, id, e.input.pid, e.input.handle.(id := id))
  {
    JobIsDispatched(m, e);
    FreshToLoop(m, e);
    if !m.stopping {
      SpawnStarts(m.(q := TakeJob(ReadWake(m.q))), e.input.pid, e.input.handle.(id := m.q.jobs[0].id));
    }
  }

  // ---------------------------------------------------------------------------------------------------------------
  // The end of a process

  /** The process `pid` has ended: its on-stop callback was called once more, its descriptors are closed and no longer
      registered, and the last one while stopping leaves a sentinel. */
  predicate Ends(m: Multi, n: Multi, pid: Pid, ending: Ending)
    requires pid in m.active
  {
    var h := m.active[pid];
    && n.active == m.active - {pid}
    && n.log == Log(m.log.status[h.id := Terminated(ending)], m.log.fired + [h.id])
    && n.r.registered == m.r.registered - {h.watch, h.out, h.err} && n.r.watched == m.r.watched - {h.watch, h.out, h.err}
    && n.r.open == m.r.open - {h.watch, h.out, h.err} - h.rest && n.r.failures == m.r.failures
    && n.k == m.k && n.u.killed == m.u.killed && n.stopping == m.stopping
    && if m.stopping && n.active == map[] then n.q.jobs == m.q.jobs + [Sentinel] && n.q.unsent == m.q.unsent
       else n.q == m.q
  }

  lemma TerminateEnds(m: Multi, pid: Pid, ending: Ending)
    requires RegistryInv(m.r, m.active) && pid in m.active
    ensures Ends(m, Terminate(m, pid, ending), pid, ending)
  {
    assert Attached(m.r, pid, m.active[pid]);
  }

  lemma ProcessIsActive(m: Multi, fd: Fd, pid: Pid)
    requires Inv(m) && fd in m.r.registered && m.r.registered[fd] in {OnWatch(pid), OnStdout(pid), OnStderr(pid)}
    ensures pid in m.active && fd != m.r.ownFd && RegistryInv(m.r, m.active)
  {
    assert Belongs(m.r, m.active, fd, m.r.registered[fd]);
  }

  lemma ProcessReads(m: Multi, fd: Fd, pid: Pid, input: Input)
    requires fd in m.r.registered && m.r.registered[fd] in {OnWatch(pid), OnStdout(pid), OnStderr(pid)}
    requires pid in m.active && fd != m.r.ownFd
    ensures DoAction(m, fd, input) ==
            if Fails(m, fd, input) then Terminate(m, pid, EndFailed)
            else if m.r.registered[fd].OnWatch? then Terminate(m, pid, EndUserStopped)
            else Take(m, fd, input)
  {}

  /** A callback of a process: a byte in its watch pipe ends it for the user; a read that fails or finds nothing ends it as
      failed; and otherwise output is read, all of it unless there is more. */
  lemma ProcessActs(m: Multi, e: Event, pid: Pid)
    requires Inv(m) && e.Fire? && Enabled(m, e) && e.fd in m.r.registered
    requires m.r.registered[e.fd] in {OnWatch(pid), OnStdout(pid), OnStderr(pid)}
    ensures pid in m.active
    ensures var n, output := Next(m, e), !m.r.registered[e.fd].OnWatch?;
            var nothing := if output then e.fd !in m.u.output else pid !in m.u.poked;
            if e.input.fails || nothing then Ends(m, n, pid, EndFailed)
            else if !output then Ends(m, n, pid, EndUserStopped)
            else n == m.(u := m.u.(output := if e.input.more then m.u.output else m.u.output - {e.fd}))
  {
    ProcessIsActive(m, e.fd, pid);
    ProcessReads(m, e.fd, pid, e.input);
    TerminateEnds(m, pid, EndFailed);
    TerminateEnds(m, pid, EndUserStopped);
  }

  // ---------------------------------------------------------------------------------------------------------------
  // Nothing else

  /** The same way of stopping, and no signal more. */
  predicate SameStop(m: Multi, n: Multi) {
    n.u.killed == m.u.killed && (n.stopping ==> m.stopping && n.flag == m.flag && n.signum == m.signum)
  }

  lemma {:induction false} SignalsSameStop(m: Multi, calls: seq<K.Call>)
    ensures SameStop(m, Signals(m, calls))
    decreases |calls|
  {
    if calls != [] {
      SignalsSameStop(Signal(m, calls[0]), calls[1..]);
    }
  }

  lemma DispatchSameStop(m: Multi, pid: Pid, h: Handle)
    requires Inv(m) && m.r.phase == Running && m.q.wake > 0 && m.q.jobs != []
    requires m.q.jobs[0].Stop? ==> m.stopping || m.active == map[]
    ensures SameStop(m, Dispatch(m, pid, h))
  {
    if m.q.jobs[0] == Sentinel {
      SentinelJobKeeps(m);
    }
  }

  /** No other step sends a signal, or makes the loop stop in another way than it does. */
  lemma OnlyStopsStop(m: Multi, e: Event)
    requires Inv(m) && Enabled(m, e) && !Begins(m, e)
    ensures SameStop(m, Next(m, e))
  {
    if e.Fire? && e.fd != m.r.ownFd {
      assert Belongs(m.r, m.active, e.fd, m.r.registered[e.fd]);
      match m.r.registered[e.fd]
      case OnSigchld => SignalsSameStop(m, e.input.calls);
      case OnControl =>
        JobIsDispatched(m, e);
        DispatchSameStop(m, e.input.pid, e.input.handle);
      case OnWatch(pid) => ProcessCases(m, e.fd, pid, e.input);
      case OnStdout(pid) => ProcessCases(m, e.fd, pid, e.input);
      case OnStderr(pid) => ProcessCases(m, e.fd, pid, e.input);
    }
  }

  // ---------------------------------------------------------------------------------------------------------------
  // Whole runs

  lemma {:induction false} PrefixLegal(m: Multi, events: seq<Event>, k: nat)
    requires Legal(m, events) && k <= |events|
    ensures Legal(m, events[..k])
    ensures k < |events| ==>
              && Enabled(After(m, events[..k]), events[k]) && Legal(m, events[..k + 1])
              && After(m, events[..k + 1]) == Next(After(m, events[..k]), events[k])
    decreases k
  {
    if k == 0 {
      assert events[..0] == [] && (events != [] ==> events[..1] == [events[0]] && events[..1][1..] == []);
    } else {
      var rest := events[1..];
      assert events[..k][1..] == rest[..k - 1];
      PrefixLegal(Next(m, events[0]), rest, k - 1);
      if k < |events| {
        assert events[..k + 1][1..] == rest[..k] && rest[k - 1] == events[k];
      }
    }
  }

  /** The last step of a run. */
  lemma LastStep(m: Multi, events: seq<Event>)
    requires Inv(m) && Legal(m, events) && events != []
    ensures var k := |events| - 1;
            && Legal(m, events[..k])
            && var n, s := After(m, events), After(m, events[..k]);
               if Begins(s, events[k]) then
                 && s.q.jobs[0] == Stop(n.flag, n.signum)
                 && forall p, sig :: (p, sig) in n.u.killed && (p, sig) !in s.u.killed ==>
                      n.flag == StopKill && sig == n.signum && p in s.active
               else SameStop(s, n)
  {
    var k := |events| - 1;
    PrefixLegal(m, events, k);
    assert events[..k + 1] == events;
    RunKeeps(m, events[..k]);
    if Begins(After(m, events[..k]), events[k]) {
      StopActs(After(m, events[..k]), events[k]);
    } else {
      OnlyStopsStop(After(m, events[..k]), events[k]);
    }
  }

  /** The stop that the loop is acting on: it was taken at the event `i`, and ever since the loop has been stopping with its
      flag and its signal. */
  lemma {:induction false} StopBegan(m: Multi, events: seq<Event>) returns (i: nat)
    requires Inv(m) && Legal(m, events) && !m.stopping && After(m, events).stopping
    ensures i < |events| && Legal(m, events[..i])
    ensures var n, s := After(m, events), After(m, events[..i]);
            Begins(s, events[i]) && s.q.jobs[0] == Stop(n.flag, n.signum)
    ensures forall j | i < j <= |events| :: Legal(m, events[..j]) && After(m, events[..j]).stopping
    decreases |events|
  {
    if events == [] {
      assert false;
    } else {
      i := |events| - 1;
      LastStep(m, events);
      if !Begins(After(m, events[..i]), events[i]) {
        var before := events[..i];
        i := StopBegan(m, before);
        assert before[..i] == events[..i];
        forall j | i < j <= |events| ensures Legal(m, events[..j]) && After(m, events[..j]).stopping {
          assert if j < |events| then before[..j] == events[..j] else events[..j] == events;
        }
      } else {
        assert events[..|events|] == events;
      }
    }
  }

  lemma {:induction false} UsersHas(jobs: seq<Job>, job: Job)
    requires job in jobs && job != Sentinel
    ensures job in Users(jobs)
  {
    if jobs[0] != job {
      UsersHas(jobs[1..], job);
    }
  }

  lemma {:induction false} SubmittedPrefix(events: seq<Event>, i: nat)
    requires i <= |events|
    ensures Submitted(events[..i]) <= Submitted(events)
  {
    if i > 0 {
      assert events[..i][1..] == events[1..][..i - 1];
      SubmittedPrefix(events[1..], i - 1);
    }
  }

  lemma InPrefix(a: seq<Job>, b: seq<Job>, all: seq<Job>, job: Job)
    requires a + b <= all && job in b
    ensures job in all
  {
    assert job in a + b;
  }

  /** The job at the head of the queue was submitted, if it is not a sentinel. */
  lemma HeadIsSubmitted(controlFd: Fd, open: set<Fd>, children: set<Pid>, capacity: nat, events: seq<Event>, i: nat)
    requires controlFd in open && Legal(Init(controlFd, open, children, capacity), events) && i <= |events|
    ensures var m := Init(controlFd, open, children, capacity);
            && Legal(m, events[..i])
            && var jobs := After(m, events[..i]).q.jobs;
               jobs != [] && jobs[0] != Sentinel ==> jobs[0] in Submitted(events)
  {
    var m := Init(controlFd, open, children, capacity);
    PrefixLegal(m, events, i);
    JobsKeepTheirOrder(controlFd, open, children, capacity, events[..i]);
    SubmittedPrefix(events, i);
    var jobs := After(m, events[..i]).q.jobs;
    if jobs != [] && jobs[0] != Sentinel {
      UsersHas(jobs, jobs[0]);
      InPrefix(Users(After(m, events[..i]).q.dispatched), Users(jobs), Submitted(events), jobs[0]);
    }
  }

  /** In every state of every run: the loop stops only as somebody has asked, every active process has been reached as that
      stop says, and no signal was ever sent that was not asked for. */
  lemma StopsAsSubmitted(controlFd: Fd, open: set<Fd>, children: set<Pid>, capacity: nat, events: seq<Event>)
    requires controlFd in open && Legal(Init(controlFd, open, children, capacity), events)
    ensures var n := After(Init(controlFd, open, children, capacity), events);
            && (n.stopping ==>
                  && Stop(n.flag, n.signum) in Submitted(events)
                  && (n.flag == StopUser ==> forall p | p in n.active :: p in n.u.poked)
                  && (n.flag == StopKill ==> forall p | p in n.active :: (p, n.signum) in n.u.killed))
            && (forall p, s | (p, s) in n.u.killed :: Stop(StopKill, s) in Submitted(events))
  {
    var m := Init(controlFd, open, children, capacity);
    var n := After(m, events);
    InitHolds(controlFd, open, children, capacity);
    RunKeeps(m, events);
    if n.stopping {
      var i := StopBegan(m, events);
      HeadIsSubmitted(controlFd, open, children, capacity, events, i);
    }
    forall p, s | (p, s) in n.u.killed ensures Stop(StopKill, s) in Submitted(events) {
      var i := KilledByStop(m, events, p, s);
      HeadIsSubmitted(controlFd, open, children, capacity, events, i);
    }
  }

  /** The stop that has sent a signal. */
  lemma {:induction false} KilledByStop(m: Multi, events: seq<Event>, p: Pid, s: int) returns (i: nat)
    requires Inv(m) && Legal(m, events) && (p, s) !in m.u.killed && (p, s) in After(m, events).u.killed
    ensures i < |events| && Legal(m, events[..i])
    ensures var before := After(m, events[..i]);
            Begins(before, events[i]) && before.q.jobs[0] == Stop(StopKill, s) && p in before.active
    decreases |events|
  {
    if events == [] {
      assert false;
    } else {
      i := |events| - 1;
      LastStep(m, events);
      var before := events[..i];
      if (p, s) in After(m, before).u.killed {
        i := KilledByStop(m, before, p, s);
        assert before[..i] == events[..i];
      }
    }
  }
}
