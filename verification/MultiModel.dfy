/** The protocol of `pexec_multi` as a state machine.

    Producer threads put jobs into a queue and a byte into a control pipe; one event-loop thread runs the callbacks of the
    descriptors registered with its `select` loop. Each step of `Next` is one callback, one action of a producer, or one
    action of the environment. Callbacks are atomic because the loop has a single thread; but in the callback of the signal
    pipe, whose system calls are those of `SigchldHandler`, children may exit between any two of them. */
module MultiModel {
  import opened Events
  import K = SigchldHandler

  type Pid = K.Pid
  type Id = nat

  datatype StopFlag = StopWait | StopUser | StopKill

  /** `Sentinel` is the null job that the loop posts to itself; `id` stands for the handle of a spawn job. */
  datatype Job = Sentinel | Stop(flag: StopFlag, signum: int) | Spawn(id: Id)

  /** The closures stored in `registered_fd_`. */
  datatype Callback = OnSigchld | OnControl | OnWatch(pid: Pid) | OnStdout(pid: Pid) | OnStderr(pid: Pid)

  /** The descriptors of a process: the three that go to the loop, and the other ends of its pipes. */
  datatype Handle = Handle(id: Id, watch: Fd, out: Fd, err: Fd, rest: set<Fd>)

  datatype Ending = EndStopped | EndUserStopped | EndFailed

  datatype Status = Queued | Dropped | Active(pid: Pid) | Terminated(ending: Ending)

  /** `Interrupted`: `handle_stop` has written to the select loop's own control pipe. `Blocked`: the loop's thread waits
      in `buffer.remove` for a job that is not there. */
  datatype Phase = Idle | Running | Interrupted | Blocked

  /** The job buffer and the control pipe. `unsent` counts the producers between `add` and their write to the pipe,
      `lost` the writes dropped because it was full; `enqueued` and `dispatched` log the jobs that went in and out. */
  datatype Queue = Queue(
    jobs: seq<Job>,
    wake: nat,
    capacity: nat,
    unsent: nat,
    lost: nat,
    enqueued: seq<Job>,
    dispatched: seq<Job>)

  /** `registered_fd_`, the keys of the select loop's table, and the descriptors that are open; `ends` are the write ends
      of the loop's own pipe and of the signal pipe. `failures` counts failed assertions, missing callbacks and calls that
      reach a finished process. */
  datatype Registry = Registry(
    registered: map<Fd, Callback>,
    watched: set<Fd>,
    phase: Phase,
    controlFd: Fd,
    sigchldFd: Fd,
    ownFd: Fd,
    ends: set<Fd>,
    open: set<Fd>,
    failures: nat)

  /** The watch pipes of the `poked` hold a byte, and so do the descriptors of standard output and error in `output`;
      `killed` logs the calls of `kill`. */
  datatype Orders = Orders(poked: set<Pid>, killed: set<(Pid, int)>, output: set<Fd>)

  /** Where each spawn job is, and the calls of the on-stop callbacks. */
  datatype Log = Log(status: map<Id, Status>, fired: seq<Id>)

  datatype Multi = Multi(
    q: Queue,
    r: Registry,
    k: K.Kernel,
    u: Orders,
    log: Log,
    active: map<Pid, Handle>,
    stopping: bool,
    flag: StopFlag,
    signum: int)

  function Init(controlFd: Fd, open: set<Fd>, children: set<Pid>, capacity: nat): Multi {
    Multi(Queue([], 0, capacity, 0, 0, [], []),
          Registry(map[], {}, Idle, controlFd, -1, -1, {}, open, 0),
          K.Kernel(children, {}, {}, false, false, [], K.INT_SIZE, 0, 0),
          Orders({}, {}, {}),
          Log(map[], []),
          map[], false, StopWait, 0)
  }

  // ---------------------------------------------------------------------------------------------------------------
  // The functions of the class

  function AddRead(r: Registry, fd: Fd, cb: Callback): Registry {
    r.(registered := r.registered[fd := cb], watched := r.watched + {fd},
       failures := if fd in r.watched then r.failures + 1 else r.failures)
  }

  function RemoveRead(r: Registry, fd: Fd): Registry {
    r.(registered := r.registered - {fd}, watched := r.watched - {fd},
       failures := if fd in r.watched then r.failures else r.failures + 1)
  }

  function AddJob(q: Queue, job: Job): Queue {
    q.(jobs := q.jobs + [job], enqueued := q.enqueued + [job])
  }

  /** `interrupt`: one byte, unless the pipe is full. */
  function WriteWake(q: Queue): Queue {
    if q.wake < q.capacity then q.(wake := q.wake + 1) else q.(lost := q.lost + 1)
  }

  function ReadWake(q: Queue): Queue
    requires q.wake > 0
  {
    q.(wake := q.wake - 1)
  }

  function TakeJob(q: Queue): Queue
    requires q.jobs != []
  {
    q.(jobs := q.jobs[1..], dispatched := q.dispatched + [q.jobs[0]])
  }

  function SendJob(q: Queue, job: Job): Queue {
    WriteWake(AddJob(q, job))
  }

  function Cleanup(m: Multi): Multi {
    var s := m.(stopping := true);
    match m.flag
    case StopUser => s.(u := m.u.(poked := m.u.poked + m.active.Keys))
    case StopKill => s.(u := m.u.(killed := m.u.killed + set p | p in m.active.Keys :: (p, m.signum)))
    case StopWait => s
  }

  function HandleStop(m: Multi): Multi {
    m.(r := RemoveRead(RemoveRead(m.r, m.r.sigchldFd), m.r.controlFd).(phase := Interrupted),
       flag := StopWait, signum := -1, stopping := false)
  }

  /** What becomes of the event return of `job_nullptr_stop`: STOP_LOOP leads to `handle_stop`. */
  function JobNullptrStop(m: Multi): Multi {
    if !m.stopping && m.active != map[] then Cleanup(m)
    else if m.active == map[] then HandleStop(m)
    else m
  }

  function JobStop(m: Multi, flag: StopFlag, signum: int): Multi {
    if m.stopping then m else JobNullptrStop(m.(flag := flag, signum := signum))
  }

  function Fds(h: Handle): set<Fd> {
    {h.watch, h.out, h.err} + h.rest
  }

  function Attach(r: Registry, pid: Pid, h: Handle): Registry {
    AddRead(AddRead(AddRead(r.(open := r.open + Fds(h)),
                            h.watch, OnWatch(pid)), h.out, OnStdout(pid)), h.err, OnStderr(pid))
  }

  function Detach(r: Registry, h: Handle): Registry {
    RemoveRead(RemoveRead(RemoveRead(r.(open := r.open - Fds(h)), h.watch), h.out), h.err)
  }

  /** The pipes of `pid` are new, or closed. */
  function EmptyPipes(u: Orders, pid: Pid, h: Handle): Orders {
    u.(poked := u.poked - {pid}, output := u.output - {h.out, h.err})
  }

  function JobSpawn(m: Multi, pid: Pid, h: Handle): Multi {
    if m.stopping then m.(log := m.log.(status := m.log.status[h.id := Dropped]))
    else
      m.(r := Attach(m.r, pid, h), k := K.Forked(m.k, pid), u := EmptyPipes(m.u, pid, h),
         log := m.log.(status := m.log.status[h.id := Active(pid)]), active := m.active[pid := h])
  }

  /** What `dispatch_job` does with a job it has taken. */
  function ActOn(m: Multi, job: Job, pid: Pid, h: Handle): Multi {
    match job
    case Sentinel => JobNullptrStop(m)
    case Stop(flag, signum) => JobStop(m, flag, signum)
    case Spawn(id) => JobSpawn(m, pid, h.(id := id))
  }

  /** Whether the job at the head of the queue makes the loop leave. */
  predicate Leaves(m: Multi)
    requires m.q.jobs != []
  {
    !m.q.jobs[0].Spawn? && m.active == map[] && (m.q.jobs[0] == Sentinel || !m.stopping)
  }

  /** The callback of the control pipe: one byte is read, and one job dispatched. `pid` and the descriptors of `h` are
      what a spawn gets. */
  function Dispatch(m: Multi, pid: Pid, h: Handle): Multi {
    if m.q.wake == 0 then m.(r := m.r.(failures := m.r.failures + 1))
    else if m.q.jobs == [] then m.(r := m.r.(phase := Blocked))
    else
      ActOn(m.(q := TakeJob(ReadWake(m.q))), m.q.jobs[0], pid, h)
  }

  /** The terminal state callback of a process: its pipes are closed, the on-stop callback fires, and the loop detaches
      it; the last one to go while stopping posts the sentinel. */
  function Terminate(m: Multi, pid: Pid, ending: Ending): Multi
    requires pid in m.active
  {
    var h := m.active[pid];
    var left := m.active - {pid};
    m.(q := if m.stopping && left == map[] then SendJob(m.q, Sentinel) else m.q,
       r := Detach(m.r, h),
       u := EmptyPipes(m.u, pid, h),
       log := Log(m.log.status[h.id := Terminated(ending)], m.log.fired + [h.id]),
       active := left)
  }

  /** A callback of the process `pid` that reports its end. */
  function Finish(m: Multi, pid: Pid, ending: Ending): Multi {
    if pid in m.active then Terminate(m, pid, ending) else m.(r := m.r.(failures := m.r.failures + 1))
  }

  /** One system call of the callback of the signal pipe. A child returned by `waitpid` ends; pids that are not active are
      ignored. */
  function Signal(m: Multi, c: K.Call): Multi {
    var s := m.(k := K.Effect(m.k, c));
    if c.Reaped? && c.pid in m.active then Terminate(s, c.pid, EndStopped) else s
  }

  function Signals(m: Multi, calls: seq<K.Call>): Multi
    decreases |calls|
  {
    if calls == [] then m else Signals(Signal(m, calls[0]), calls[1..])
  }

  /** The callback of the signal pipe. Without a record to read, `read_signal` says STOP_LOOP. */
  function ReadSignal(m: Multi, calls: seq<K.Call>): Multi {
    if m.k.pipe == [] then HandleStop(m) else Signals(m, calls)
  }

  // ---------------------------------------------------------------------------------------------------------------
  // Steps

  /** Where the loop's table puts the descriptors of a new process. */
  datatype Places = Places(watch: nat, out: nat, err: nat)

  /** What the system gives a callback: a pid and descriptors for a spawn, the system calls on the signal pipe with what
      happens between them, a failing read, or one that leaves `more` in the pipe. */
  datatype Input = Input(pid: Pid, handle: Handle, places: Places, calls: seq<K.Call>, fails: bool, more: bool)

  datatype Event =
    | Enqueue(job: Job)              // a producer adds a job ...
    | Interrupt                      // ... and writes to the control pipe
    | Happens(event: K.Event)        // a child exits, stops or continues, or a signal is delivered
    | Poke(pid: Pid)                 // the user asks to stop watching a process
    | Writes(fd: Fd)                 // a process writes, to its standard output or error
    | Run(own: Fd, sigchld: Fd, ends: set<Fd>, capacity: nat)  // `run` is called
    | Fire(fd: Fd, input: Input)     // the select loop calls back

  function LeaveLoop(m: Multi): Multi {
    m.(r := m.r.(phase := Idle, watched := {}, open := m.r.open - {m.r.ownFd, m.r.sigchldFd} - m.r.ends))
  }

  /** Whether the descriptor of a process has something to read. */
  predicate HasData(m: Multi, fd: Fd) {
    fd in m.r.registered &&
    match m.r.registered[fd]
    case OnWatch(pid) => pid in m.u.poked
    case OnStdout(_) => fd in m.u.output
    case OnStderr(_) => fd in m.u.output
    case _ => true
  }

  /** A read fails by itself, or with EAGAIN because there is nothing to read. */
  predicate Fails(m: Multi, fd: Fd, input: Input) {
    input.fails || !HasData(m, fd)
  }

  /** Output is read. */
  function Take(m: Multi, fd: Fd, input: Input): Multi {
    if input.more then m else m.(u := m.u.(output := m.u.output - {fd}))
  }

  /** `do_action`, or the select loop's own callback. */
  function DoAction(m: Multi, fd: Fd, input: Input): Multi {
    if fd == m.r.ownFd then LeaveLoop(m)
    else if fd !in m.r.registered then m.(r := m.r.(failures := m.r.failures + 1))
    else
      match m.r.registered[fd]
      case OnSigchld => ReadSignal(m, input.calls)
      case OnControl => Dispatch(m, input.pid, input.handle)
      case OnWatch(pid) => Finish(m, pid, if Fails(m, fd, input) then EndFailed else EndUserStopped)
      case OnStdout(pid) => if Fails(m, fd, input) || pid !in m.active then Finish(m, pid, EndFailed) else Take(m, fd, input)
      case OnStderr(pid) => if Fails(m, fd, input) || pid !in m.active then Finish(m, pid, EndFailed) else Take(m, fd, input)
  }

  predicate FreshHandle(open: set<Fd>, h: Handle) {
    && h.watch !in open && h.out !in open && h.err !in open
    && h.watch != h.out && h.watch != h.err && h.out != h.err
    && h.rest !! open + {h.watch, h.out, h.err}
  }

  /** The three pipes that belong to the loop are called back only when they can be read; what else is called back without
      having anything to read fails. */
  predicate MayRead(m: Multi, fd: Fd) {
    if fd == m.r.ownFd then m.r.phase == Interrupted
    else if fd == m.r.controlFd then m.q.wake > 0
    else if fd == m.r.sigchldFd then m.k.pipe != []
    else true
  }

  /** What `select` reports. */
  predicate Readable(m: Multi, fd: Fd) {
    MayRead(m, fd) && (fd == m.r.ownFd || HasData(m, fd))
  }

  predicate FreshRun(open: set<Fd>, own: Fd, sigchld: Fd, ends: set<Fd>) {
    own !in open && sigchld !in open && own != sigchld && ends !! open + {own, sigchld}
  }

  /** Callbacks run only on watched descriptors that can be read; new descriptors and pids are ones not in use. */
  predicate Enabled(m: Multi, e: Event) {
    match e
    case Enqueue(job) => job != Sentinel && (job.Spawn? ==> job.id !in m.log.status)
    case Interrupt => m.q.unsent > 0
    case Happens(_) => true
    case Poke(pid) => pid in m.active
    case Writes(fd) => fd in m.r.registered && (m.r.registered[fd].OnStdout? || m.r.registered[fd].OnStderr?)
    case Run(own, sigchld, ends, capacity) =>
      m.r.phase == Idle && FreshRun(m.r.open, own, sigchld, ends) && capacity >= K.INT_SIZE
    case Fire(fd, input) =>
      && fd in m.r.watched && MayRead(m, fd)
      && (fd == m.r.controlFd ==> input.pid !in m.k.children && FreshHandle(m.r.open, input.handle))
      && (fd == m.r.sigchldFd ==> K.IsCallback(m.k, input.calls))
  }

  function StartRun(r: Registry, own: Fd, sigchld: Fd, ends: set<Fd>): Registry {
    var s := r.(ownFd := own, sigchldFd := sigchld, ends := ends, open := r.open + {own, sigchld} + ends,
                watched := {own}, phase := Running);
    AddRead(AddRead(s, sigchld, OnSigchld), r.controlFd, OnControl)
  }

  function Next(m: Multi, e: Event): Multi
    requires Enabled(m, e)
  {
    match e
    case Enqueue(job) =>
      m.(q := AddJob(m.q, job).(unsent := m.q.unsent + 1),
         log := if job.Spawn? then m.log.(status := m.log.status[job.id := Queued]) else m.log)
    case Interrupt => m.(q := WriteWake(m.q.(unsent := m.q.unsent - 1)))
    case Happens(event) => m.(k := K.Happen(m.k, event))
    case Poke(pid) => m.(u := m.u.(poked := m.u.poked + {pid}))
    case Writes(fd) => m.(u := m.u.(output := m.u.output + {fd}))
    case Run(own, sigchld, ends, capacity) =>
      m.(r := StartRun(m.r, own, sigchld, ends), k := K.Installed(m.k, capacity))
    case Fire(fd, input) => DoAction(m, fd, input)
  }

  predicate Legal(m: Multi, events: seq<Event>)
    decreases |events|
  {
    events == [] || (Enabled(m, events[0]) && Legal(Next(m, events[0]), events[1..]))
  }

  function After(m: Multi, events: seq<Event>): Multi
    requires Legal(m, events)
    decreases |events|
  {
    if events == [] then m else After(Next(m, events[0]), events[1..])
  }

  // ---------------------------------------------------------------------------------------------------------------
  // The invariant

  /** Bytes in the control pipe, writes not made yet and writes lost account for the queued jobs; and jobs leave the queue
      in the order in which they entered it. */
  ghost predicate QueueInv(q: Queue) {
    |q.jobs| == q.wake + q.unsent + q.lost && q.wake <= q.capacity && q.enqueued == q.dispatched + q.jobs
  }

  /** The sentinel is queued exactly while stopping with no process left, and then once. */
  ghost predicate SentinelInv(jobs: seq<Job>, done: bool) {
    multiset(jobs)[Sentinel] == One(done)
  }

  /** Whether `cb` is what `fd` should be registered with. */
  predicate Belongs(r: Registry, active: map<Pid, Handle>, fd: Fd, cb: Callback) {
    match cb
    case OnSigchld => fd == r.sigchldFd
    case OnControl => fd == r.controlFd
    case OnWatch(p) => p in active && active[p].watch == fd
    case OnStdout(p) => p in active && active[p].out == fd
    case OnStderr(p) => p in active && active[p].err == fd
  }

  predicate Has(r: Registry, fd: Fd, cb: Callback) {
    fd in r.registered && r.registered[fd] == cb
  }

  predicate Attached(r: Registry, p: Pid, h: Handle) {
    Has(r, h.watch, OnWatch(p)) && Has(r, h.out, OnStdout(p)) && Has(r, h.err, OnStderr(p))
  }

  /** While the loop runs, the registered descriptors are those of the signal pipe, of the control pipe and, for each
      active process, its three; the select loop watches these and its own. Otherwise nothing is registered. */
  ghost predicate RegistryInv(r: Registry, active: map<Pid, Handle>) {
    && r.phase != Blocked && r.failures == 0
    && (forall fd | fd in r.registered :: Belongs(r, active, fd, r.registered[fd]))
    && r.watched == r.registered.Keys + (if r.phase == Idle then {} else {r.ownFd})
    && (r.phase != Idle ==> r.controlFd != r.ownFd && r.controlFd != r.sigchldFd && r.sigchldFd != r.ownFd)
    && (if r.phase == Running then
          && Has(r, r.sigchldFd, OnSigchld) && Has(r, r.controlFd, OnControl) && r.ownFd !in r.registered
          && forall p | p in active :: Attached(r, p, active[p])
        else r.registered == map[] && active == map[])
  }

  /** What is in use is open, and the other ends of the pipes belong to one process each. */
  ghost predicate OpenInv(r: Registry, active: map<Pid, Handle>) {
    && r.controlFd in r.open && r.watched <= r.open
    && (r.phase != Idle ==> r.ends <= r.open && r.ends !! r.watched + {r.controlFd, r.sigchldFd, r.ownFd})
    && (forall p | p in active :: active[p].rest <= r.open && active[p].rest !! r.watched + r.ends)
    && (forall p, q | p in active && q in active && p != q :: active[p].rest !! active[q].rest)
  }

  /** Active processes are children that were forked in this run. */
  ghost predicate ChildInv(k: K.Kernel, active: set<Pid>) {
    active <= k.children && active <= k.watched && k.zombies <= k.children
  }

  /** Each spawn job is in one place: queued once, or active under one pid, or terminated with its callback fired once, or
      dropped. */
  ghost predicate StatusInv(log: Log, jobs: seq<Job>, active: map<Pid, Handle>) {
    && (forall id :: multiset(jobs)[Spawn(id)] == One(id in log.status && log.status[id] == Queued))
    && (forall id :: multiset(log.fired)[id] == One(id in log.status && log.status[id].Terminated?))
    && (forall p | p in active :: active[p].id in log.status && log.status[active[p].id] == Active(p))
    && (forall id | id in log.status && log.status[id].Active? ::
          log.status[id].pid in active && active[log.status[id].pid].id == id)
  }

  /** The loop stops only while it runs; while it stops for the user, every active process has been poked, and while it
      stops by a signal, every active process has been sent it. */
  ghost predicate StopInv(m: Multi) {
    && (m.stopping ==> m.r.phase == Running)
    && (m.stopping && m.flag == StopUser ==> m.active.Keys <= m.u.poked)
    && (m.stopping && m.flag == StopKill ==> forall p | p in m.active :: (p, m.signum) in m.u.killed)
  }

  /** What holds even inside the callback of the signal pipe. */
  ghost predicate CoreInv(m: Multi) {
    && QueueInv(m.q) && SentinelInv(m.q.jobs, m.stopping && m.active == map[])
    && RegistryInv(m.r, m.active) && OpenInv(m.r, m.active)
    && ChildInv(m.k, m.active.Keys)
    && StatusInv(m.log, m.q.jobs, m.active)
    && StopInv(m)
  }

  /** `Sound` says that the signal pipe holds whole records, and that no child is stranded. */
  ghost predicate Inv(m: Multi) {
    CoreInv(m) && K.Sound(m.k, K.Reading(0))
  }
}
