/** `pexec<BUFFER_SIZE>`: one child process, its pipes and its life from `exec` to a single terminal state.

    The class owns up to five pipes. Every stage of `exec` can fail, and every way a watched process ends must close
    each descriptor once. System calls are parameters: which stage fails, and what wakes the event loop. */
module Process {
  import opened Events
  import ArgumentParser

  type Byte = b: int | 0 <= b < 256

  datatype Option<T> = None | Some(value: T)

  datatype Mode = Blocking | Nonblocking

  datatype State = Started | Signaled | Stopped | UserStopped | FailStopped

  datatype Error =
    | ArgParseError | StdinPipeError | StdoutPipeError | StderrPipeError | SignalPipeError | WatchPipeError
    | SigactionSetError | SigactionResetError | ForkError | SelectError | WaitpidError
    | StdoutReadError | StderrReadError | WatchReadError | SignalReadError
    | StdoutReadRestError | StderrReadRestError

  // ---------------------------------------------------------------------------------------------------------------
  // Output streams

  /** One of the child's output streams: what it wrote, what the pipe still holds, and the chunks handed to the callback. */
  datatype Stream = Stream(written: seq<Byte>, unread: seq<Byte>, chunks: seq<seq<Byte>>)

  const FRESH: Stream := Stream([], [], [])

  function Flatten(chunks: seq<seq<Byte>>): seq<Byte> {
    if chunks == [] then [] else chunks[0] + Flatten(chunks[1..])
  }

  function AfterWrite(s: Stream, data: seq<Byte>): Stream {
    s.(written := s.written + data, unread := s.unread + data)
  }

  /** A successful read into a buffer with room for `room` bytes, followed by the callback. */
  function Took(s: Stream, room: nat): Stream
    requires s.unread != [] && room > 0
  {
    var n := if |s.unread| < room then |s.unread| else room;
    s.(unread := s.unread[n..], chunks := s.chunks + [s.unread[..n]])
  }

  /** The chunks, each of 1 to `room` bytes, are what was written so far, in order and without gap or repeat. */
  ghost predicate Faithful(s: Stream, room: nat) {
    && s.written == Flatten(s.chunks) + s.unread
    && forall i | 0 <= i < |s.chunks| :: 1 <= |s.chunks[i]| <= room
  }

  lemma {:induction false} FlattenSnoc(chunks: seq<seq<Byte>>, last: seq<Byte>)
    ensures Flatten(chunks + [last]) == Flatten(chunks) + last
  {
    if chunks == [] {
      assert chunks + [last] == [last];
    } else {
      assert (chunks + [last])[1..] == chunks[1..] + [last];
      FlattenSnoc(chunks[1..], last);
    }
  }

  lemma TookIsFaithful(s: Stream, room: nat)
    requires Faithful(s, room) && s.unread != [] && room > 0
    ensures Faithful(Took(s, room), room)
    ensures Took(s, room).unread == [] <==> |s.unread| <= room
  {
    var n := if |s.unread| < room then |s.unread| else room;
    FlattenSnoc(s.chunks, s.unread[..n]);
    assert s.unread == s.unread[..n] + s.unread[n..];
  }

  /** The default sinks append a chunk as a C string, which ends at the first NUL. */
  function CString(chunk: seq<Byte>): seq<Byte> {
    if chunk == [] || chunk[0] == 0 then [] else [chunk[0]] + CString(chunk[1..])
  }

  function Sink(chunks: seq<seq<Byte>>): seq<Byte> {
    if chunks == [] then [] else CString(chunks[0]) + Sink(chunks[1..])
  }

  lemma {:induction false} CStringExact(chunk: seq<Byte>)
    ensures |CString(chunk)| <= |chunk|
    ensures CString(chunk) == chunk <==> 0 !in chunk
    ensures |CString(chunk)| == |chunk| ==> CString(chunk) == chunk
  {
    if chunk != [] {
      CStringExact(chunk[1..]);
      assert chunk == [chunk[0]] + chunk[1..];
    }
  }

  /** `proc_out` equals the delivered bytes exactly when these contain no NUL. */
  lemma {:induction false} SinkExact(chunks: seq<seq<Byte>>)
    ensures |Sink(chunks)| <= |Flatten(chunks)|
    ensures Sink(chunks) == Flatten(chunks) <==> 0 !in Flatten(chunks)
    ensures |Sink(chunks)| == |Flatten(chunks)| ==> Sink(chunks) == Flatten(chunks)
  {
    if chunks != [] {
      SinkExact(chunks[1..]);
      CStringExact(chunks[0]);
    }
  }

  // ---------------------------------------------------------------------------------------------------------------
  // Descriptors

  /** An `int[2]` filled by `pipe2`; -1 marks a closed end. */
  datatype Pipe = Pipe(r: Fd, w: Fd)

  const CLOSED: Pipe := Pipe(-1, -1)

  /** The open ends of a pipe. */
  function Ends(p: Pipe): set<Fd> {
    (if p.r >= 0 then {p.r} else {}) + (if p.w >= 0 then {p.w} else {})
  }

  predicate Proper(p: Pipe) {
    p == CLOSED || (0 <= p.r && 0 <= p.w && p.r != p.w)
  }

  /** The descriptors open in this program, and the slots of one `pexec` object; `signal` is the global
      `sigchld_blocking_pipe_signal`. */
  datatype Slots = Slots(open: set<Fd>, stdin: Pipe, stdout: Pipe, stderr: Pipe, signal: Pipe, watch: Pipe)

  predicate AllClosed(f: Slots) {
    f.stdin == CLOSED && f.stdout == CLOSED && f.stderr == CLOSED && f.signal == CLOSED && f.watch == CLOSED
  }

  /** What is open is what was open before `exec` (`base`) and, once each, the descriptors in the slots. */
  ghost predicate Owns(f: Slots, base: set<Fd>) {
    && f.open == base + Ends(f.stdin) + Ends(f.stdout) + Ends(f.stderr) + Ends(f.signal) + Ends(f.watch)
    && base !! Ends(f.stdin) !! Ends(f.stdout) !! Ends(f.stderr) !! Ends(f.signal) !! Ends(f.watch)
    && Proper(f.stdin) && Proper(f.stdout) && Proper(f.stderr) && Proper(f.signal) && Proper(f.watch)
  }

  // ---------------------------------------------------------------------------------------------------------------
  // The environment

  /** The first system call of `exec` to fail, if any. */
  datatype Failure =
    | AtStdinPipe | AtStdoutPipe | AtStderrPipe | AtSignalPipe | AtWatchPipe | AtSigaction | AtFork | NoFailure

  /** How a read of a descriptor ends, after any number of interruptions; `ReadEof` returns 0. */
  datatype ReadOutcome = ReadSucceeds | ReadEof | ReadFails

  /** The single read that `read_std_rest` makes; an interruption ends it too. */
  datatype RestOutcome = RestSucceeds | RestInterrupted | RestFails

  datatype WaitOutcome = ChildEnded | ChildContinues | NothingToReap

  /** The calls of `waitpid` for one signal: those that are interrupted are repeated. */
  datatype Wait = Wait(interruptions: nat, outcome: WaitOutcome)

  /** What the event loop of a blocking `exec` wakes up for, and what the child does in between. `InterruptReady` is the
      loop's own control pipe. */
  datatype Wake =
    | ChildWrote(onErr: bool, data: seq<Byte>)
    | OutputReady(onErr: bool, read: ReadOutcome)
    | WatchReady(read: ReadOutcome)
    | InterruptReady
    | SigchldReady(recordFails: bool, wait: Wait)
    | SelectFails

  /** The watch pipe was read. */
  predicate WatchByte(wake: Wake) {
    wake.WatchReady? && wake.read != ReadFails
  }

  /** A signal told of the end of the child. */
  predicate ChildEnds(wake: Wake) {
    wake.SigchldReady? && !wake.recordFails && wake.wait.outcome == ChildEnded
  }

  function Repeated(n: nat, error: Error): seq<Error> {
    if n == 0 then [] else Repeated(n - 1, error) + [error]
  }

  /** The errors reported for one signal. */
  function WaitErrors(wait: Wait): seq<Error> {
    Repeated(wait.interruptions, WaitpidError) + if wait.outcome == NothingToReap then [WaitpidError] else []
  }

  /** What an outside event loop reports about a process started in non-blocking mode. */
  datatype Report =
    | Wrote(onErr: bool, data: seq<Byte>)
    | Output(onErr: bool, read: ReadOutcome)
    | Watch(read: ReadOutcome)
    | Status(ended: bool, outRest: RestOutcome, errRest: RestOutcome)

  /** A call of `exec` and what happens in it. */
  datatype Call = Call(arg: string, failure: Failure, wakes: seq<Wake>, reports: seq<Report>, resetFails: bool,
                       outRest: RestOutcome, errRest: RestOutcome)

  /** The final read of a stream. */
  function Rest(s: Stream, outcome: RestOutcome, room: nat): Stream
    requires room > 0
  {
    if outcome == RestSucceeds && s.unread != [] then Took(s, room) else s
  }

  /** After the final read the callback has seen everything exactly when what was left fits in one read that succeeds. */
  lemma RestComplete(s: Stream, outcome: RestOutcome, room: nat)
    requires Faithful(s, room) && room > 0
    ensures Faithful(Rest(s, outcome, room), room)
    ensures Flatten(Rest(s, outcome, room).chunks) == s.written <==>
            s.unread == [] || (outcome == RestSucceeds && |s.unread| <= room)
  {
    if s.unread != [] {
      TookIsFaithful(s, room);
    }
    var rest := Rest(s, outcome, room);
    assert rest.written == Flatten(rest.chunks) + rest.unread == s.written;
    assert |rest.written| == |Flatten(rest.chunks)| + |rest.unread|;
  }

  function RestErrors(outRest: RestOutcome, errRest: RestOutcome): seq<Error> {
    (if outRest == RestFails then [StdoutReadRestError] else []) + if errRest == RestFails then [StderrReadRestError] else []
  }

  // ---------------------------------------------------------------------------------------------------------------
  // What wakes make of a process that is watched

  /** One stream: its own data is written, and a read of its own pipe that finds something delivers a chunk. */
  function Transfer(s: Stream, room: nat, onErr: bool, wake: Wake): Stream
    requires room > 0
  {
    match wake
    case ChildWrote(e, data) => if e == onErr then AfterWrite(s, data) else s
    case OutputReady(e, read) => if e == onErr && read == ReadSucceeds && s.unread != [] then Took(s, room) else s
    case _ => s
  }

  function Flow(s: Stream, room: nat, onErr: bool, wakes: seq<Wake>): Stream
    requires room > 0
    decreases |wakes|
  {
    if wakes == [] then s
    else Transfer(Flow(s, room, onErr, wakes[..|wakes| - 1]), room, onErr, wakes[|wakes| - 1])
  }

  function Data(onErr: bool, wake: Wake): seq<Byte> {
    if wake.ChildWrote? && wake.onErr == onErr then wake.data else []
  }

  /** The bytes that the child wrote to one of its streams. */
  function WrittenTo(onErr: bool, wakes: seq<Wake>): seq<Byte> {
    if wakes == [] then []
    else WrittenTo(onErr, wakes[..|wakes| - 1]) + Data(onErr, wakes[|wakes| - 1])
  }

  lemma WriteIsFaithful(s: Stream, room: nat, data: seq<Byte>)
    requires Faithful(s, room)
    ensures Faithful(AfterWrite(s, data), room)
  {
    Associative(Flatten(s.chunks), s.unread, data);
  }

  lemma TransferIsFaithful(s: Stream, room: nat, onErr: bool, wake: Wake)
    requires room > 0 && Faithful(s, room)
    ensures Faithful(Transfer(s, room, onErr, wake), room)
    ensures Transfer(s, room, onErr, wake).written == s.written + Data(onErr, wake)
  {
    match wake
    case ChildWrote(_, data) => WriteIsFaithful(s, room, data);
    case OutputReady(_, _) =>
      if s.unread != [] {
        TookIsFaithful(s, room);
      }
    case _ =>
  }

  /** What was delivered of a stream, followed by what is left in its pipe, is what the child wrote to it, and nothing of
      the other one. */
  lemma {:induction false} FlowIsFaithful(s: Stream, room: nat, onErr: bool, wakes: seq<Wake>)
    requires room > 0 && Faithful(s, room)
    ensures var n := Flow(s, room, onErr, wakes);
            && Faithful(n, room) && n.written == s.written + WrittenTo(onErr, wakes)
            && Flatten(n.chunks) + n.unread == n.written
    decreases |wakes|
  {
    if wakes != [] {
      var before, last := wakes[..|wakes| - 1], wakes[|wakes| - 1];
      FlowIsFaithful(s, room, onErr, before);
      TransferIsFaithful(Flow(s, room, onErr, before), room, onErr, last);
      Associative(s.written, WrittenTo(onErr, before), Data(onErr, last));
    }
  }

  /** A read that fails, or that finds nothing, which is EAGAIN. */
  predicate ReadBreaks(s: Stream, read: ReadOutcome) {
    read == ReadFails || (read == ReadSucceeds && s.unread == [])
  }

  /** Whether the callback says STOP_LOOP. */
  predicate Stops(wake: Wake, interrupted: bool, out: Stream, err: Stream) {
    match wake
    case ChildWrote(_, _) => false
    case OutputReady(onErr, read) => ReadBreaks(if onErr then err else out, read)
    case WatchReady(read) => read == ReadFails
    case InterruptReady => interrupted
    case SigchldReady(recordFails, wait) => recordFails || wait.outcome != ChildContinues
    case SelectFails => true
  }

  function ReadErrors(onErr: bool, s: Stream, read: ReadOutcome): seq<Error> {
    if ReadBreaks(s, read) then [if onErr then StderrReadError else StdoutReadError] else []
  }

  function WakeErrors(wake: Wake, out: Stream, err: Stream): seq<Error> {
    match wake
    case ChildWrote(_, _) => []
    case OutputReady(onErr, read) => ReadErrors(onErr, if onErr then err else out, read)
    case WatchReady(read) => if read == ReadFails then [WatchReadError] else []
    case InterruptReady => []
    case SigchldReady(recordFails, wait) => if recordFails then [SignalReadError] else WaitErrors(wait)
    case SelectFails => [SelectError]
  }

  /** The state callbacks for a wake. */
  function WakeStates(wake: Wake): seq<State> {
    if wake.SigchldReady? && !wake.recordFails then [Signaled] else []
  }

  function AllStates(wakes: seq<Wake>): seq<State> {
    if wakes == [] then [] else AllStates(wakes[..|wakes| - 1]) + WakeStates(wakes[|wakes| - 1])
  }

  /** The errors reported in a loop over streams that begin as `out` and `err`. */
  function AllErrors(out: Stream, err: Stream, room: nat, wakes: seq<Wake>): seq<Error>
    requires room > 0
    decreases |wakes|
  {
    if wakes == [] then []
    else
      var before := wakes[..|wakes| - 1];
      AllErrors(out, err, room, before) +
      WakeErrors(wakes[|wakes| - 1], Flow(out, room, false, before), Flow(err, room, true, before))
  }

  /** The watch pipe was read, and so the loop's own pipe holds a byte. */
  predicate WasInterrupted(wakes: seq<Wake>) {
    exists i :: 0 <= i < |wakes| && WatchByte(wakes[i])
  }

  /** Whether a blocking loop has a reason to end at the wake `i`. */
  predicate StopsAt(out: Stream, err: Stream, room: nat, wakes: seq<Wake>, i: nat)
    requires room > 0 && i < |wakes|
  {
    Stops(wakes[i], WasInterrupted(wakes[..i]), Flow(out, room, false, wakes[..i]), Flow(err, room, true, wakes[..i]))
  }

  /** One more wake. */
  lemma WakesSnoc(out: Stream, err: Stream, room: nat, wakes: seq<Wake>, i: nat)
    requires room > 0 && i < |wakes|
    ensures Flow(out, room, false, wakes[..i + 1]) == Transfer(Flow(out, room, false, wakes[..i]), room, false, wakes[i])
    ensures Flow(err, room, true, wakes[..i + 1]) == Transfer(Flow(err, room, true, wakes[..i]), room, true, wakes[i])
    ensures AllStates(wakes[..i + 1]) == AllStates(wakes[..i]) + WakeStates(wakes[i])
    ensures AllErrors(out, err, room, wakes[..i + 1]) ==
            AllErrors(out, err, room, wakes[..i]) +
            WakeErrors(wakes[i], Flow(out, room, false, wakes[..i]), Flow(err, room, true, wakes[..i]))
    ensures WasInterrupted(wakes[..i + 1]) <==> WasInterrupted(wakes[..i]) || WatchByte(wakes[i])
  {
    var all := wakes[..i + 1];
    assert all[..i] == wakes[..i] && all[i] == wakes[i];
    assert forall j | 0 <= j < i :: wakes[..i][j] == all[j];
  }

  /** No reason to end in the first `n` wakes. */
  ghost predicate GoesOn(out: Stream, err: Stream, room: nat, wakes: seq<Wake>, n: nat)
    requires room > 0 && n <= |wakes|
  {
    forall i | 0 <= i < n :: !StopsAt(out, err, room, wakes, i)
  }

  lemma GoesOnSnoc(out: Stream, err: Stream, room: nat, wakes: seq<Wake>, n: nat)
    requires room > 0 && n < |wakes| && GoesOn(out, err, room, wakes, n) && !StopsAt(out, err, room, wakes, n)
    ensures GoesOn(out, err, room, wakes, n + 1)
  {}

  /** The loop does end: when a signal tells of the end of the child, when it is interrupted after a byte of the watch pipe,
      and at each failure of a system call; and it does not for anything else. */
  lemma StopReasons(out: Stream, err: Stream, room: nat, wakes: seq<Wake>, i: nat)
    requires room > 0 && i < |wakes|
    ensures ChildEnds(wakes[i]) ==> StopsAt(out, err, room, wakes, i)
    ensures wakes[i] == InterruptReady && (exists j :: 0 <= j < i && WatchByte(wakes[j])) ==>
              StopsAt(out, err, room, wakes, i)
    ensures StopsAt(out, err, room, wakes, i) ==>
              || ChildEnds(wakes[i])
              || (wakes[i] == InterruptReady && exists j :: 0 <= j < i && WatchByte(wakes[j]))
              || WakeErrors(wakes[i], Flow(out, room, false, wakes[..i]), Flow(err, room, true, wakes[..i])) != []
    ensures WakeErrors(wakes[i], Flow(out, room, false, wakes[..i]), Flow(err, room, true, wakes[..i])) != [] ==>
              StopsAt(out, err, room, wakes, i) || (wakes[i].SigchldReady? && wakes[i].wait.interruptions > 0)
  {
    assert forall j | 0 <= j < i :: wakes[..i][j] == wakes[j];
  }

  /** A report, as what would wake a blocking loop. */
  function AsWake(report: Report): Wake {
    match report
    case Wrote(onErr, data) => ChildWrote(onErr, data)
    case Output(onErr, read) => OutputReady(onErr, read)
    case Watch(read) => WatchReady(read)
    case Status(ended, _, _) => SigchldReady(false, Wait(0, if ended then ChildEnded else ChildContinues))
  }

  function AsWakes(reports: seq<Report>): seq<Wake> {
    if reports == [] then [] else AsWakes(reports[..|reports| - 1]) + [AsWake(reports[|reports| - 1])]
  }

  /** The state in which a report about a non-blocking process ends it, if it does. */
  function EndsIn(report: Report, out: Stream, err: Stream): Option<State> {
    match report
    case Wrote(_, _) => None
    case Output(onErr, read) => if ReadBreaks(if onErr then err else out, read) then Some(FailStopped) else None
    case Watch(read) => Some(if read == ReadFails then FailStopped else UserStopped)
    case Status(ended, _, _) => if ended then Some(Stopped) else None
  }

  /** The state callbacks for a report. */
  function ReportStates(report: Report, out: Stream, err: Stream): seq<State> {
    WakeStates(AsWake(report)) +
    match EndsIn(report, out, err)
    case Some(state) => [state]
    case None => []
  }

  /** The errors of the read that a report brings. */
  function ReportErrors(report: Report, out: Stream, err: Stream): seq<Error> {
    match report
    case Status(ended, outRest, errRest) => if ended then RestErrors(outRest, errRest) else []
    case _ => WakeErrors(AsWake(report), out, err)
  }

  /** A stream after a report; the report of the end makes the final read. */
  function Reported(s: Stream, room: nat, onErr: bool, report: Report): Stream
    requires room > 0
  {
    if report.Status? && report.ended then Rest(s, if onErr then report.errRest else report.outRest, room)
    else Transfer(s, room, onErr, AsWake(report))
  }

  lemma OutputReport(onErr: bool, read: ReadOutcome, out: Stream, err: Stream, room: nat)
    requires room > 0
    ensures var report, broken := Output(onErr, read), ReadBreaks(if onErr then err else out, read);
            && EndsIn(report, out, err) == (if broken then Some(FailStopped) else None)
            && ReportStates(report, out, err) == (if broken then [FailStopped] else [])
            && ReportErrors(report, out, err) == ReadErrors(onErr, if onErr then err else out, read)
            && Reported(out, room, false, report) == (if onErr then out else Transfer(out, room, false, AsWake(report)))
            && Reported(err, room, true, report) == (if onErr then Transfer(err, room, true, AsWake(report)) else err)
  {}

  lemma StatusReport(ended: bool, outRest: RestOutcome, errRest: RestOutcome, out: Stream, err: Stream, room: nat)
    requires room > 0
    ensures var report := Status(ended, outRest, errRest);
            && ReportStates(report, out, err) == (if ended then [Signaled, Stopped] else [Signaled])
            && ReportErrors(report, out, err) == (if ended then RestErrors(outRest, errRest) else [])
            && Reported(out, room, false, report) == (if ended then Rest(out, outRest, room) else out)
            && Reported(err, room, true, report) == (if ended then Rest(err, errRest, room) else err)
  {}

  /** What the `i`-th of some reports that have not ended the process does. */
  ghost function EndAt(out: Stream, err: Stream, room: nat, reports: seq<Report>, i: nat): Option<State>
    requires room > 0 && i < |reports|
  {
    var before := AsWakes(reports[..i]);
    EndsIn(reports[i], Flow(out, room, false, before), Flow(err, room, true, before))
  }

  /** None of the first `n` reports ends the process. */
  ghost predicate Unended(out: Stream, err: Stream, room: nat, reports: seq<Report>, n: nat)
    requires room > 0 && n <= |reports|
  {
    forall i | 0 <= i < n :: EndAt(out, err, room, reports, i) == None
  }

  /** One more report. */
  lemma ReportsSnoc(out: Stream, err: Stream, room: nat, reports: seq<Report>, i: nat)
    requires room > 0 && i < |reports|
    ensures var was, now, wake := AsWakes(reports[..i]), AsWakes(reports[..i + 1]), AsWake(reports[i]);
            && Flow(out, room, false, now) == Transfer(Flow(out, room, false, was), room, false, wake)
            && Flow(err, room, true, now) == Transfer(Flow(err, room, true, was), room, true, wake)
            && AllStates(now) == AllStates(was) + WakeStates(wake)
    ensures Unended(out, err, room, reports, i) && EndAt(out, err, room, reports, i) == None ==>
              Unended(out, err, room, reports, i + 1)
  {
    assert reports[..i + 1][..i] == reports[..i];
    var now := AsWakes(reports[..i + 1]);
    assert now[..|now| - 1] == AsWakes(reports[..i]);
  }

  // ---------------------------------------------------------------------------------------------------------------
  // The life of a process

  predicate Terminal(s: State) {
    s == Stopped || s == UserStopped || s == FailStopped
  }

  /** Started, then any number of signals. */
  ghost predicate Underway(log: seq<State>) {
    && log != [] && log[0] == Started
    && forall i | 1 <= i < |log| :: log[i] == Signaled
  }

  /** FAIL_STOPPED alone, or STARTED, any number of SIGNALED and exactly one terminal state. */
  ghost predicate Lifecycle(log: seq<State>) {
    || log == [FailStopped]
    || (|log| >= 2 && Terminal(log[|log| - 1]) && Underway(log[..|log| - 1]))
  }

  lemma LifecycleEnds(log: seq<State>, last: State)
    requires Underway(log) && Terminal(last)
    ensures Lifecycle(log + [last])
  {
    assert (log + [last])[..|log|] == log;
  }

  predicate PipeFails(failure: Failure, mode: Mode) {
    || failure.AtStdinPipe? || failure.AtStdoutPipe? || failure.AtStderrPipe? || failure.AtWatchPipe?
    || (failure.AtSignalPipe? && mode == Blocking)
  }

  /** Whether a stage that can fail in this mode does. */
  predicate StageFails(failure: Failure, mode: Mode) {
    PipeFails(failure, mode) || failure.AtFork? || (failure.AtSigaction? && mode == Blocking)
  }

  /** Whether a call of `exec` that has ended leaves its SIGCHLD handler behind: when `fork` fails nothing restores the
      earlier disposition, and `sigaction` can fail to. */
  predicate HandlerLeaks(mode: Mode, arg: string, failure: Failure, resetFails: bool) {
    && mode == Blocking && ArgumentParser.Parse(arg) != []
    && (failure == AtFork || (resetFails && !StageFails(failure, mode)))
  }

  function StageError(failure: Failure): Error
    requires failure != NoFailure
  {
    match failure
    case AtStdinPipe => StdinPipeError
    case AtStdoutPipe => StdoutPipeError
    case AtStderrPipe => StderrPipeError
    case AtSignalPipe => SignalPipeError
    case AtWatchPipe => WatchPipeError
    case AtSigaction => SigactionSetError
    case AtFork => ForkError
  }

  /** What SIGCHLD does: the blocking handler of this program, or whatever was set before. */
  datatype Disposition = Earlier(handler: int) | BlockingHandler

  /** The disposition belongs to the whole program, and all `pexec` objects share it. */
  class SignalTable {
    var sigchld: Disposition

    constructor (sigchld: Disposition)
      ensures this.sigchld == sigchld
    {
      this.sigchld := sigchld;
    }
  }

  class Pexec {
    const signals: SignalTable
    const mode: Mode
    const room: nat               // BUFFER_SIZE - 1
    var slots: Slots              // the pipe arrays, and what is open
    ghost var base: set<Fd>       // the descriptors open when `exec` was called
    var saved: Disposition        // `sa_prev_`
    var out: Stream
    var err: Stream
    var log: seq<State>           // calls of the state callback for this `exec`
    var errors: seq<Error>        // calls of the error callback for this `exec`
    var running: bool
    var stdinFd: Fd
    var userStopFd: Fd
    var procKilled: bool
    var userStopped: bool

    constructor (mode: Mode, bufferSize: nat, open: set<Fd>, signals: SignalTable)
      requires bufferSize >= 2
      ensures Idle() && this.mode == mode && room == bufferSize - 1 && slots.open == open && this.signals == signals
    {
      this.signals := signals;
      this.mode := mode;
      room := bufferSize - 1;
      slots, base := Slots(open, CLOSED, CLOSED, CLOSED, CLOSED, CLOSED), open;
      saved, running, procKilled, userStopped := Earlier(0), false, false, false;
      out, err, log, errors := FRESH, FRESH, [], [];
      stdinFd, userStopFd := -1, -1;
    }

    predicate Idle()
      reads this
    {
      room > 0 && AllClosed(slots)
    }

    /** A process is being watched. */
    ghost predicate Watching()
      reads this
    {
      && room > 0 && Owns(slots, base) && (mode == Nonblocking ==> slots.signal == CLOSED)
      && Underway(log) && Faithful(out, room) && Faithful(err, room)
    }

    /** What the STARTED callback is told about the process. */
    predicate Told()
      reads this
    {
      running && stdinFd == slots.stdin.w && userStopFd == slots.watch.w
    }

    /** Every slot is -1 and exactly the descriptors open before `exec` are open. */
    ghost predicate Released()
      reads this
    {
      Idle() && slots.open == base
    }

    /** `close_fd` of both ends: a descriptor is closed only while it is open, and the slot forgets it. */
    method ClosePipe(p: Pipe) returns (q: Pipe)
      requires Ends(p) <= slots.open && Proper(p)
      modifies this`slots
      ensures q == CLOSED && slots == old(slots).(open := old(slots.open) - Ends(p))
    {
      q := p;
      if q.r >= 0 {
        Close(q.r);
        q := q.(r := -1);
      }
      if q.w >= 0 {
        Close(q.w);
        q := q.(w := -1);
      }
      assert slots.open == old(slots.open) - Ends(p);
    }

    /** `close`, of a descriptor that is open. */
    method Close(fd: Fd)
      requires fd in slots.open
      modifies this`slots
      ensures slots == old(slots).(open := old(slots.open) - {fd})
    {
      slots := slots.(open := slots.open - {fd});
    }

    method CloseForkPipes()
      requires Owns(slots, base) && (mode == Nonblocking ==> slots.signal == CLOSED)
      modifies this`slots
      ensures AllClosed(slots) && slots.open == base
    {
      var p := ClosePipe(slots.stdin);
      slots := slots.(stdin := p);
      p := ClosePipe(slots.stdout);
      slots := slots.(stdout := p);
      p := ClosePipe(slots.stderr);
      slots := slots.(stderr := p);
      if mode == Blocking {
        p := ClosePipe(slots.signal);
        slots := slots.(signal := p);
      }
      p := ClosePipe(slots.watch);
      slots := slots.(watch := p);
    }

    /** `pipe2`: on success two descriptors that were not open, on failure the slot is left alone. */
    method Pipe2(fails: bool) returns (p: Pipe)
      modifies this`slots
      ensures fails ==> p == CLOSED
      ensures !fails ==> p != CLOSED
      ensures Proper(p) && Ends(p) !! old(slots.open)
      ensures slots == old(slots).(open := old(slots.open) + Ends(p))
    {
      if fails {
        assert slots.open == slots.open + Ends(CLOSED);
        return CLOSED;
      }
      ghost var m := Bound(slots.open);
      assert m + 1 !in slots.open && m + 2 !in slots.open;
      var r: Fd :| 0 <= r && r !in slots.open;
      var w: Fd :| 0 <= w && w !in slots.open && w != r;
      p := Pipe(r, w);
      slots := slots.(open := slots.open + Ends(p));
    }

    method ProcessError(error: Error)
      modifies this`errors
      ensures errors == old(errors) + [error]
    {
      errors := errors + [error];
    }

    method CallState(state: State)
      modifies this`log
      ensures log == old(log) + [state]
    {
      log := log + [state];
    }

    method FailedStop()
      requires room > 0 && Owns(slots, base) && (mode == Nonblocking ==> slots.signal == CLOSED)
      modifies this`slots, this`log
      ensures Released() && log == old(log) + [FailStopped]
    {
      CloseForkPipes();
      CallState(FailStopped);
    }

    method UserStop()
      requires room > 0 && Owns(slots, base) && (mode == Nonblocking ==> slots.signal == CLOSED)
      modifies this`slots
      modifies this`log, this`userStopped, this`userStopFd
      ensures Released() && log == old(log) + [UserStopped]
      ensures userStopped && userStopFd == -1
    {
      userStopped := true;
      userStopFd := -1;
      CloseForkPipes();
      CallState(UserStopped);
    }

    /** `read_std_rest`: at most one read that delivers anything. */
    method ReadStdRest(s: Stream, outcome: RestOutcome, error: Error) returns (rest: Stream)
      requires room > 0
      modifies this`errors
      ensures rest == Rest(s, outcome, room)
      ensures errors == old(errors) + if outcome == RestFails then [error] else []
    {
      rest := s;
      if outcome == RestFails {
        ProcessError(error);
        return;
      }
      if s.unread == [] || outcome == RestInterrupted {
        return;
      }
      rest := Took(s, room);
    }

    /** `loop_rest_io`. */
    method LoopRestIo(outRest: RestOutcome, errRest: RestOutcome)
      requires room > 0 && Faithful(out, room) && Faithful(err, room)
      modifies this`out, this`err, this`errors
      ensures Faithful(out, room) && Faithful(err, room)
      ensures out == Rest(old(out), outRest, room) && err == Rest(old(err), errRest, room)
      ensures errors == old(errors) + RestErrors(outRest, errRest)
    {
      RestComplete(out, outRest, room);
      RestComplete(err, errRest, room);
      out := ReadStdRest(out, outRest, StdoutReadRestError);
      err := ReadStdRest(err, errRest, StderrReadRestError);
    }

    /** `stopped`: the final reads come before the pipes are closed. */
    method StopNow(outRest: RestOutcome, errRest: RestOutcome)
      requires room > 0 && Owns(slots, base) && (mode == Nonblocking ==> slots.signal == CLOSED)
      requires Faithful(out, room) && Faithful(err, room)
      modifies this`slots
      modifies this`log, this`out, this`err, this`errors
      ensures Released() && log == old(log) + [Stopped] && errors == old(errors) + RestErrors(outRest, errRest)
      ensures Faithful(out, room) && Faithful(err, room)
      ensures out == Rest(old(out), outRest, room) && err == Rest(old(err), errRest, room)
    {
      LoopRestIo(outRest, errRest);
      CloseForkPipes();
      CallState(Stopped);
    }

    method FailWith(error: Error)
      requires room > 0 && Owns(slots, base) && (mode == Nonblocking ==> slots.signal == CLOSED)
      modifies this`slots
      modifies this`log, this`errors
      ensures Released()
      ensures log == old(log) + [FailStopped] && errors == old(errors) + [error]
    {
      ProcessError(error);
      FailedStop();
    }

    /** The first three stages of `prepare_fork_pipes`. */
    method PrepareStdioPipes(failure: Failure) returns (ok: bool)
      requires Released()
      modifies this`slots
      modifies this`log, this`errors
      ensures ok == !(failure.AtStdinPipe? || failure.AtStdoutPipe? || failure.AtStderrPipe?)
      ensures ok ==> Owns(slots, base) && slots.stdin != CLOSED && slots.signal == slots.watch == CLOSED && log == old(log)
      ensures ok ==> errors == old(errors)
      ensures !ok ==> Released() && log == old(log) + [FailStopped]
      ensures !ok ==> errors == old(errors) + [StageError(failure)]
    {
      var stdin := Pipe2(failure == AtStdinPipe);
      slots := slots.(stdin := stdin);
      if failure == AtStdinPipe {
        FailWith(StdinPipeError);
        return false;
      }
      var stdout := Pipe2(failure == AtStdoutPipe);
      slots := slots.(stdout := stdout);
      if failure == AtStdoutPipe {
        FailWith(StdoutPipeError);
        return false;
      }
      var stderr := Pipe2(failure == AtStderrPipe);
      slots := slots.(stderr := stderr);
      if failure == AtStderrPipe {
        FailWith(StderrPipeError);
        return false;
      }
      return true;
    }

    /** `prepare_fork_pipes`; the error says which stage failed, and everything opened before it is closed again. */
    method PrepareForkPipes(failure: Failure) returns (ok: bool)
      requires Released()
      modifies this`slots
      modifies this`log, this`errors
      ensures ok == !PipeFails(failure, mode)
      ensures ok ==> Owns(slots, base) && slots.stdin != CLOSED && slots.watch != CLOSED
      ensures ok ==> (mode == Nonblocking ==> slots.signal == CLOSED) && log == old(log) && errors == old(errors)
      ensures !ok ==> Released() && log == old(log) + [FailStopped]
      ensures !ok ==> errors == old(errors) + [StageError(failure)]
    {
      ok := PrepareStdioPipes(failure);
      if !ok {
        return;
      }
      if mode == Blocking {
        var signal := Pipe2(failure == AtSignalPipe);
        slots := slots.(signal := signal);
        if failure == AtSignalPipe {
          FailWith(SignalPipeError);
          return false;
        }
      }
      var watch := Pipe2(failure == AtWatchPipe);
      slots := slots.(watch := watch);
      if failure == AtWatchPipe {
        FailWith(WatchPipeError);
        return false;
      }
    }

    // ----- The callbacks of the event loop

    method ChildWrites(onErr: bool, data: seq<Byte>)
      requires Watching()
      modifies this`out, this`err
      ensures Watching()
      ensures StreamOf(onErr) == AfterWrite(old(StreamOf(onErr)), data)
      ensures StreamOf(!onErr) == old(StreamOf(!onErr))
    {
      var was := if onErr then err else out;
      WriteIsFaithful(was, room, data);
      if onErr {
        err := AfterWrite(was, data);
      } else {
        out := AfterWrite(was, data);
      }
    }

    function StreamOf(onErr: bool): Stream
      reads this
    {
      if onErr then err else out
    }

    /** `read_std`. A read that finds nothing fails with EAGAIN, which is an error here like any other. */
    method ReadStd(onErr: bool, read: ReadOutcome) returns (ret: EventReturn)
      requires Watching()
      modifies this`slots
      modifies this`log, this`out, this`err, this`errors
      ensures StreamOf(!onErr) == old(StreamOf(!onErr))
      ensures Faithful(out, room) && Faithful(err, room)
      ensures read == ReadEof ==>
                && ret == SkipOtherFd && StreamOf(onErr) == old(StreamOf(onErr))
                && Watching() && log == old(log) && errors == old(errors) && slots == old(slots)
      ensures read == ReadSucceeds && old(StreamOf(onErr)).unread != [] ==>
                && ret == Nothing && StreamOf(onErr) == Took(old(StreamOf(onErr)), room)
                && Watching() && log == old(log) && errors == old(errors) && slots == old(slots)
      ensures read == ReadFails || (read == ReadSucceeds && old(StreamOf(onErr)).unread == []) ==>
                && StreamOf(onErr) == old(StreamOf(onErr))
                && errors == old(errors) + [if onErr then StderrReadError else StdoutReadError]
                && (if mode == Blocking then ret == StopLoop && Watching() && log == old(log) && slots == old(slots)
                    else ret == Nothing && Released() && log == old(log) + [FailStopped])
    {
      var s := if onErr then err else out;
      if read == ReadEof {
        return SkipOtherFd;
      }
      if read == ReadFails || s.unread == [] {
        ProcessError(if onErr then StderrReadError else StdoutReadError);
        if mode == Nonblocking {
          FailedStop();
          return Nothing;
        }
        return StopLoop;
      }
      TookIsFaithful(s, room);
      if onErr {
        err := Took(s, room);
      } else {
        out := Took(s, room);
      }
      return Nothing;
    }

    /** `read_close`: somebody wrote to the process's watch pipe. */
    method ReadClose(read: ReadOutcome) returns (ret: EventReturn)
      requires Watching()
      modifies this`slots
      modifies this`log, this`errors, this`userStopped, this`userStopFd
      ensures errors == old(errors) + if read == ReadFails then [WatchReadError] else []
      ensures ret == if read == ReadFails && mode == Blocking then StopLoop else Nothing
      ensures if mode == Blocking then
                log == old(log) && slots == old(slots) && Watching() && userStopped == old(userStopped)
              else
                && Released()
                && log == old(log) + [if read == ReadFails then FailStopped else UserStopped]
                && (read != ReadFails ==> userStopped && userStopFd == -1)
    {
      if read == ReadFails {
        ProcessError(WatchReadError);
        if mode == Nonblocking {
          FailedStop();
          return Nothing;
        }
        return StopLoop;
      }
      if mode == Nonblocking {
        UserStop();
      }
      return Nothing;
    }

    /** `update_status`, with the decoded status. */
    method UpdateStatus(ended: bool, outRest: RestOutcome, errRest: RestOutcome)
      requires Watching()
      modifies this`slots
      modifies this`log, this`out, this`err, this`errors, this`running, this`stdinFd, this`procKilled
      ensures running == !ended && procKilled == (old(procKilled) || ended)
      ensures ended ==> stdinFd == -1
      ensures Faithful(out, room) && Faithful(err, room)
      ensures if ended && mode == Nonblocking then
                && log == old(log) + [Signaled, Stopped] && Released()
                && errors == old(errors) + RestErrors(outRest, errRest)
                && out == Rest(old(out), outRest, room) && err == Rest(old(err), errRest, room)
              else
                && log == old(log) + [Signaled] && Watching() && slots == old(slots)
                && out == old(out) && err == old(err) && errors == old(errors)
    {
      running := !ended;
      CallState(Signaled);
      if !running {
        stdinFd := -1;
        procKilled := true;
        if mode == Nonblocking {
          StopNow(outRest, errRest);
        }
      }
    }

    method WaitForChild(wait: Wait)
      modifies this`errors
      ensures errors == old(errors) + WaitErrors(wait)
    {
      for i := 0 to wait.interruptions
        invariant errors == old(errors) + Repeated(i, WaitpidError)
      {
        Associative(old(errors), Repeated(i, WaitpidError), [WaitpidError]);
        ProcessError(WaitpidError);
      }
      if wait.outcome == NothingToReap {
        Associative(old(errors), Repeated(wait.interruptions, WaitpidError), [WaitpidError]);
        ProcessError(WaitpidError);
      }
    }

    /** `handle_sigchld`. Every `waitpid` that returns no child is an error, an interrupted one too. When there is nothing
        to report the status stays 0, which reads as a normal exit. */
    method HandleSigchld(wait: Wait)
      requires Watching() && mode == Blocking
      modifies this`slots
      modifies this`log, this`out, this`err, this`errors, this`running, this`stdinFd, this`procKilled
      ensures Watching() && slots == old(slots) && out == old(out) && err == old(err)
      ensures log == old(log) + [Signaled]
      ensures errors == old(errors) + WaitErrors(wait)
      ensures procKilled == (old(procKilled) || wait.outcome != ChildContinues)
    {
      WaitForChild(wait);
      UpdateStatus(wait.outcome != ChildContinues, RestSucceeds, RestSucceeds);
    }

    /** The callbacks of the two output pipes. */
    method OnOutputReady(onErr: bool, read: ReadOutcome) returns (ret: EventReturn)
      requires Watching() && mode == Blocking
      modifies this`slots
      modifies this`log, this`out, this`err, this`errors
      ensures Watching() && slots == old(slots) && log == old(log)
      ensures StreamOf(onErr) == Transfer(old(StreamOf(onErr)), room, onErr, OutputReady(onErr, read))
      ensures StreamOf(!onErr) == old(StreamOf(!onErr))
      ensures ret == StopLoop <==> ReadBreaks(old(StreamOf(onErr)), read)
      ensures errors == old(errors) + ReadErrors(onErr, old(StreamOf(onErr)), read)
    {
      ret := ReadStd(onErr, read);
    }

    /** The loop's control pipe. */
    method OnInterrupt(interrupted: bool) returns (ret: EventReturn)
      modifies this`userStopped
      ensures ret == StopLoop <==> interrupted
      ensures userStopped <==> old(userStopped) || interrupted
    {
      ret := Nothing;
      if interrupted {
        userStopped := true;
        ret := StopLoop;
      }
    }

    /** The callback of the watch pipe: an interrupt of the loop follows. */
    method OnWatchReady(read: ReadOutcome, interrupted: bool) returns (ret: EventReturn, interrupted': bool)
      requires Watching() && mode == Blocking
      modifies this`slots
      modifies this`log, this`errors, this`userStopped, this`userStopFd
      ensures Watching() && slots == old(slots) && log == old(log) && userStopped == old(userStopped)
      ensures ret == StopLoop <==> read == ReadFails
      ensures errors == old(errors) + if read == ReadFails then [WatchReadError] else []
      ensures interrupted' == (interrupted || read != ReadFails)
    {
      interrupted' := interrupted;
      ret := ReadClose(read);
      if ret == Nothing {
        interrupted' := true;
      }
    }

    /** The callback of the signal pipe. */
    method OnSigchldReady(recordFails: bool, wait: Wait) returns (ret: EventReturn)
      requires Watching() && mode == Blocking && !procKilled
      modifies this`slots
      modifies this`log, this`out, this`err, this`errors, this`running, this`stdinFd, this`procKilled
      ensures Watching() && slots == old(slots) && out == old(out) && err == old(err)
      ensures log == old(log) + WakeStates(SigchldReady(recordFails, wait))
      ensures errors == old(errors) + if recordFails then [SignalReadError] else WaitErrors(wait)
      ensures ret == StopLoop <==> recordFails || wait.outcome != ChildContinues
      ensures ret != StopLoop ==> !procKilled
    {
      if recordFails {
        ProcessError(SignalReadError);
        return StopLoop;
      }
      HandleSigchld(wait);
      ret := if procKilled then StopLoop else Nothing;
    }

    /** One callback of `loop_io`; `interrupted` means that the loop's control pipe holds a byte. */
    method OnWake(wake: Wake, interrupted: bool) returns (ret: EventReturn, interrupted': bool)
      requires Watching() && mode == Blocking && !procKilled
      modifies this`slots
      modifies this`log, this`out, this`err, this`errors, this`running, this`stdinFd, this`procKilled
      modifies this`userStopped, this`userStopFd
      ensures Watching() && slots == old(slots)
      ensures out == Transfer(old(out), room, false, wake) && err == Transfer(old(err), room, true, wake)
      ensures ret == StopLoop <==> Stops(wake, interrupted, old(out), old(err))
      ensures ret != StopLoop ==> !procKilled
      ensures log == old(log) + WakeStates(wake) && errors == old(errors) + WakeErrors(wake, old(out), old(err))
      ensures interrupted' <==> interrupted || WatchByte(wake)
      ensures userStopped <==> old(userStopped) || (interrupted && wake == InterruptReady)
    {
      interrupted' := interrupted;
      ret := Nothing;
      match wake
      case ChildWrote(onErr, data) => ChildWrites(onErr, data);
      case OutputReady(onErr, read) => ret := OnOutputReady(onErr, read);
      case WatchReady(read) => ret, interrupted' := OnWatchReady(read, interrupted);
      case InterruptReady => ret := OnInterrupt(interrupted);
      case SigchldReady(recordFails, wait) => ret := OnSigchldReady(recordFails, wait);
      case SelectFails =>
        ProcessError(Error.SelectError);
        ret := StopLoop;
    }

    /** What the first `n` of `wakes` make of the streams `out0` and `err0`, the states `log0` and the errors `errors0`. */
    ghost predicate Served(out0: Stream, err0: Stream, log0: seq<State>, errors0: seq<Error>, wakes: seq<Wake>, n: nat)
      requires n <= |wakes|
      reads this`out, this`err, this`log, this`errors
    {
      && room > 0
      && out == Flow(out0, room, false, wakes[..n]) && err == Flow(err0, room, true, wakes[..n])
      && log == log0 + AllStates(wakes[..n]) && errors == errors0 + AllErrors(out0, err0, room, wakes[..n])
    }

    method TakeWake(wakes: seq<Wake>, i: nat, interrupted: bool, ghost out0: Stream, ghost err0: Stream,
                    ghost log0: seq<State>, ghost errors0: seq<Error>) returns (ret: EventReturn, interrupted': bool)
      requires Watching() && mode == Blocking && !procKilled && !userStopped
      requires i < |wakes| && Served(out0, err0, log0, errors0, wakes, i)
      requires interrupted <==> WasInterrupted(wakes[..i])
      modifies this`slots
      modifies this`log, this`out, this`err, this`errors, this`running, this`stdinFd, this`procKilled
      modifies this`userStopped, this`userStopFd
      ensures Watching() && slots == old(slots) && Served(out0, err0, log0, errors0, wakes, i + 1)
      ensures interrupted' <==> WasInterrupted(wakes[..i + 1])
      ensures ret == StopLoop <==> StopsAt(out0, err0, room, wakes, i)
      ensures ret != StopLoop ==> !procKilled && !userStopped
      ensures ret == StopLoop ==> (userStopped <==> wakes[i] == InterruptReady)
    {
      WakesSnoc(out0, err0, room, wakes, i);
      Associative(log0, AllStates(wakes[..i]), WakeStates(wakes[i]));
      Associative(errors0, AllErrors(out0, err0, room, wakes[..i]), WakeErrors(wakes[i], out, err));
      ret, interrupted' := OnWake(wakes[i], interrupted);
    }

    /** `loop_io`: it ends at the first of `wakes` that gives a reason, after `n` of them; without one it still waits when
        they run out. */
    method LoopIo(wakes: seq<Wake>) returns (ended: bool, ghost n: nat)
      requires Watching() && mode == Blocking
      modifies this`slots
      modifies this`log, this`out, this`err, this`errors, this`running, this`stdinFd, this`procKilled
      modifies this`userStopped, this`userStopFd
      ensures Watching() && slots == old(slots)
      ensures n <= |wakes| && Served(old(out), old(err), old(log), old(errors), wakes, n)
      ensures if ended then n > 0 && StopsAt(old(out), old(err), room, wakes, n - 1) else n == |wakes|
      ensures GoesOn(old(out), old(err), room, wakes, if ended then n - 1 else n)
      ensures userStopped <==> ended && wakes[n - 1] == InterruptReady
    {
      procKilled, userStopped := false, false;
      var interrupted := false;
      assert wakes[..0] == [];
      for i := 0 to |wakes|
        invariant Watching() && slots == old(slots) && !userStopped && !procKilled
        invariant Served(old(out), old(err), old(log), old(errors), wakes, i)
        invariant interrupted <==> WasInterrupted(wakes[..i])
        invariant GoesOn(old(out), old(err), room, wakes, i)
      {
        var ret;
        ret, interrupted := TakeWake(wakes, i, interrupted, old(out), old(err), old(log), old(errors));
        if ret == StopLoop {
          return true, i + 1;
        }
        GoesOnSnoc(old(out), old(err), room, wakes, i);
      }
      return false, |wakes|;
    }

    // ----- Running a process

    /** The last two stages of a start, `sigaction` and `fork`, and the STARTED callback. */
    method Spawn(failure: Failure) returns (ok: bool)
      requires room > 0 && Owns(slots, base) && (mode == Nonblocking ==> slots.signal == CLOSED)
      requires !PipeFails(failure, mode)
      modifies this`slots, this`log, this`errors, this`saved, this`stdinFd, this`userStopFd, this`running, signals
      ensures ok <==> !StageFails(failure, mode)
      ensures ok ==> slots == old(slots) && log == old(log) + [Started] && errors == old(errors) && Told()
      ensures !ok ==> Released() && log == old(log) + [FailStopped] && errors == old(errors) + [StageError(failure)]
      ensures if mode == Blocking && failure != AtSigaction then
                signals.sigchld == BlockingHandler && saved == old(signals.sigchld)
              else
                signals.sigchld == old(signals.sigchld)
    {
      if mode == Blocking {
        if failure == AtSigaction {
          FailWith(SigactionSetError);
          return false;
        }
        saved := signals.sigchld;
        signals.sigchld := BlockingHandler;
      }
      if failure == AtFork {
        FailWith(ForkError);
        return false;
      }
      stdinFd, userStopFd, running := slots.stdin.w, slots.watch.w, true;
      CallState(Started);
      return true;
    }

    /** `exec` up to the STARTED callback; without `ok`, a stage failed and FAIL_STOPPED was all. */
    method Launch(arg: string, failure: Failure) returns (ok: bool)
      requires Idle()
      modifies this`slots, this`log, this`errors, this`saved, this`stdinFd, this`userStopFd, this`running, signals
      modifies this`base, this`out, this`err
      ensures base == old(slots.open) && out == err == FRESH
      ensures ok <==> ArgumentParser.Parse(arg) != [] && !StageFails(failure, mode)
      ensures ok ==> Watching() && log == [Started] && errors == [] && Told()
      ensures !ok ==> Released() && log == [FailStopped]
      ensures !ok ==> errors == [if ArgumentParser.Parse(arg) == [] then ArgParseError else StageError(failure)]
      ensures if mode == Blocking && ArgumentParser.Parse(arg) != [] && (ok || failure == AtFork) then
                signals.sigchld == BlockingHandler && saved == old(signals.sigchld)
              else
                signals.sigchld == old(signals.sigchld)
    {
      base := slots.open;
      log, errors, out, err := [], [], FRESH, FRESH;
      var args := ArgumentParser.Str2Arg(arg);
      if args == [] {
        FailWith(ArgParseError);
        return false;
      }
      ok := LaunchStages(failure);
    }

    /** The stages after the parsing of the arguments. */
    method LaunchStages(failure: Failure) returns (ok: bool)
      requires Released() && Faithful(out, room) && Faithful(err, room) && log == []
      modifies this`slots, this`log, this`errors, this`saved, this`stdinFd, this`userStopFd, this`running, signals
      ensures ok <==> !StageFails(failure, mode)
      ensures ok ==> Watching() && log == [Started] && errors == old(errors) && Told()
      ensures !ok ==> Released() && log == [FailStopped] && errors == old(errors) + [StageError(failure)]
      ensures if mode == Blocking && (ok || failure == AtFork) then
                signals.sigchld == BlockingHandler && saved == old(signals.sigchld)
              else
                signals.sigchld == old(signals.sigchld)
    {
      ok := PrepareForkPipes(failure);
      if ok {
        ok := Spawn(failure);
      }
    }

    method FinishUser()
      requires Watching() && mode == Blocking
      modifies this`slots, this`log, this`userStopped, this`userStopFd
      ensures Released() && Lifecycle(log) && userStopped && log == old(log) + [UserStopped]
    {
      LifecycleEnds(log, UserStopped);
      UserStop();
    }

    method FinishStopped(outRest: RestOutcome, errRest: RestOutcome)
      requires Watching() && mode == Blocking
      modifies this`slots, this`log, this`out, this`err, this`errors
      ensures Released() && Lifecycle(log) && log == old(log) + [Stopped]
      ensures errors == old(errors) + RestErrors(outRest, errRest)
      ensures Faithful(out, room) && Faithful(err, room)
      ensures out == Rest(old(out), outRest, room) && err == Rest(old(err), errRest, room)
    {
      LifecycleEnds(log, Stopped);
      StopNow(outRest, errRest);
    }

    /** The end of a blocking `exec`, once its loop has ended. */
    method Finish(outRest: RestOutcome, errRest: RestOutcome)
      requires Watching() && mode == Blocking
      modifies this`slots, this`log, this`out, this`err, this`errors, this`userStopped, this`userStopFd
      ensures Released() && Lifecycle(log) && userStopped == old(userStopped)
      ensures log == old(log) + [if userStopped then UserStopped else Stopped]
      ensures Faithful(out, room) && Faithful(err, room)
      ensures userStopped ==> out == old(out) && err == old(err)
      ensures !userStopped ==> out == Rest(old(out), outRest, room) && err == Rest(old(err), errRest, room)
      ensures errors == old(errors) + if userStopped then [] else RestErrors(outRest, errRest)
    {
      if userStopped {
        FinishUser();
      } else {
        FinishStopped(outRest, errRest);
      }
    }

    method ResetSigchldHandler(fails: bool)
      modifies this`errors, signals
      ensures signals.sigchld == if fails then old(signals.sigchld) else saved
      ensures errors == old(errors) + if fails then [SigactionResetError] else []
    {
      if fails {
        ProcessError(SigactionResetError);
        return;
      }
      signals.sigchld := saved;
    }

    /** `exec`; `done` is false if the process is still watched: always after a non-blocking start, and while a blocking
        call waits for more to happen than `wakes` tells. A blocking call ends at the first wake that gives a reason, after
        `n` of them; `outLeft` and `errLeft` are the streams then, before the final reads. */
    method Exec(arg: string, failure: Failure, wakes: seq<Wake>, resetFails: bool, outRest: RestOutcome,
                errRest: RestOutcome) returns (done: bool, ghost n: nat, ghost outLeft: Stream, ghost errLeft: Stream)
      requires Idle()
      modifies this, signals
      ensures base == old(slots.open)
      ensures if done then Released() && Lifecycle(log) else Watching()
      ensures Faithful(out, room) && Faithful(err, room)
      ensures ArgumentParser.Parse(arg) == [] || StageFails(failure, mode) ==>
                && done && log == [FailStopped]
                && errors == [if ArgumentParser.Parse(arg) == [] then ArgParseError else StageError(failure)]
      ensures ArgumentParser.Parse(arg) != [] && !StageFails(failure, mode) && mode == Nonblocking ==>
                !done && log == [Started] && errors == [] && out == err == FRESH && Told()
      ensures ArgumentParser.Parse(arg) != [] && !StageFails(failure, mode) && mode == Blocking ==>
                && n <= |wakes|
                && (done <==> exists i :: 0 <= i < |wakes| && StopsAt(FRESH, FRESH, room, wakes, i))
                && (if done then n > 0 && StopsAt(FRESH, FRESH, room, wakes, n - 1) else n == |wakes|)
                && GoesOn(FRESH, FRESH, room, wakes, if done then n - 1 else n)
                && outLeft == Flow(FRESH, room, false, wakes[..n]) && errLeft == Flow(FRESH, room, true, wakes[..n])
                && Ended(done, wakes, n, resetFails, outLeft, outRest, errLeft, errRest)
      ensures done ==>
                signals.sigchld ==
                if HandlerLeaks(mode, arg, failure, resetFails) then BlockingHandler else old(signals.sigchld)
      ensures !done ==> signals.sigchld == if mode == Blocking then BlockingHandler else old(signals.sigchld)
    {
      n, outLeft, errLeft := 0, FRESH, FRESH;
      var ok := Launch(arg, failure);
      if !ok {
        return true, n, outLeft, errLeft;
      }
      if mode == Nonblocking {
        return false, n, outLeft, errLeft;
      }
      done, n, outLeft, errLeft := RunBlocking(wakes, resetFails, outRest, errRest);
    }

    /** The final read of a stream: the callback has seen everything exactly when what was left fits in a read that
        succeeds. */
    ghost predicate AllRead(s: Stream, left: Stream, rest: RestOutcome)
      reads this
    {
      && room > 0 && Faithful(left, room) && s == Rest(left, rest, room)
      && (Flatten(s.chunks) == s.written <==>
            left.unread == [] || (rest == RestSucceeds && |left.unread| <= room))
    }

    /** What the callbacks were told in a blocking call, and what they were given, when its loop has used `n` of `wakes`:
        after an interrupt USER_STOPPED, and otherwise STOPPED with a final read of each stream. */
    ghost predicate Ended(done: bool, wakes: seq<Wake>, n: nat, resetFails: bool, outLeft: Stream, outRest: RestOutcome,
                          errLeft: Stream, errRest: RestOutcome)
      requires n <= |wakes| && (done ==> n > 0)
      reads this
    {
      && room > 0
      && var told, failed := [Started] + AllStates(wakes[..n]), AllErrors(FRESH, FRESH, room, wakes[..n]);
         if !done then log == told && errors == failed && out == outLeft && err == errLeft
         else
           var reset := if resetFails then [SigactionResetError] else [];
           if wakes[n - 1] == InterruptReady then
             && log == told + [UserStopped] && errors == failed + reset
             && out == outLeft && err == errLeft
           else
             && log == told + [Stopped] && errors == failed + reset + RestErrors(outRest, errRest)
             && AllRead(out, outLeft, outRest) && AllRead(err, errLeft, errRest)
    }

    /** The rest of a blocking `exec`. */
    method RunBlocking(wakes: seq<Wake>, resetFails: bool, outRest: RestOutcome, errRest: RestOutcome)
      returns (done: bool, ghost n: nat, ghost outLeft: Stream, ghost errLeft: Stream)
      requires Watching() && mode == Blocking && signals.sigchld == BlockingHandler
      requires errors == [] && log == [Started] && out == err == FRESH
      modifies this`slots
      modifies this`log, this`out, this`err, this`errors, this`running, this`stdinFd, this`procKilled
      modifies this`userStopped, this`userStopFd, signals
      ensures if done then Released() && Lifecycle(log) else Watching()
      ensures Faithful(out, room) && Faithful(err, room)
      ensures n <= |wakes|
      ensures if done then n > 0 && StopsAt(FRESH, FRESH, room, wakes, n - 1) else n == |wakes|
      ensures GoesOn(FRESH, FRESH, room, wakes, if done then n - 1 else n)
      ensures outLeft == Flow(FRESH, room, false, wakes[..n]) && errLeft == Flow(FRESH, room, true, wakes[..n])
      ensures Ended(done, wakes, n, resetFails, outLeft, outRest, errLeft, errRest)
      ensures signals.sigchld == if done && !resetFails then saved else BlockingHandler
    {
      done, n := LoopIo(wakes);
      outLeft, errLeft := out, err;
      if done {
        EndBlocking(wakes, n, resetFails, outRest, errRest);
      }
    }

    method EndBlocking(wakes: seq<Wake>, ghost n: nat, resetFails: bool, outRest: RestOutcome, errRest: RestOutcome)
      requires Watching() && mode == Blocking && signals.sigchld == BlockingHandler
      requires 0 < n <= |wakes| && Served(FRESH, FRESH, [Started], [], wakes, n)
      requires userStopped <==> wakes[n - 1] == InterruptReady
      modifies this`slots, this`log, this`out, this`err, this`errors, this`userStopped, this`userStopFd, signals
      ensures Released() && Lifecycle(log) && Faithful(out, room) && Faithful(err, room)
      ensures Ended(true, wakes, n, resetFails, old(out), outRest, old(err), errRest)
      ensures signals.sigchld == if resetFails then BlockingHandler else saved
    {
      assert [] + AllErrors(FRESH, FRESH, room, wakes[..n]) == AllErrors(FRESH, FRESH, room, wakes[..n]);
      FinishBlocking(resetFails, outRest, errRest);
    }

    /** The end of a blocking `exec`. */
    method FinishBlocking(resetFails: bool, outRest: RestOutcome, errRest: RestOutcome)
      requires Watching() && mode == Blocking && signals.sigchld == BlockingHandler
      modifies this`slots, this`log, this`out, this`err, this`errors, this`userStopped, this`userStopFd, signals
      ensures Released() && Lifecycle(log) && Faithful(out, room) && Faithful(err, room)
      ensures log == old(log) + [if old(userStopped) then UserStopped else Stopped]
      ensures errors == old(errors) + (if resetFails then [SigactionResetError] else []) +
                        if old(userStopped) then [] else RestErrors(outRest, errRest)
      ensures old(userStopped) ==> out == old(out) && err == old(err)
      ensures !old(userStopped) ==> AllRead(out, old(out), outRest) && AllRead(err, old(err), errRest)
      ensures signals.sigchld == if resetFails then BlockingHandler else saved
    {
      RestComplete(out, outRest, room);
      RestComplete(err, errRest, room);
      ResetSigchldHandler(resetFails);
      Finish(outRest, errRest);
    }

    method ReadOrFail(onErr: bool, read: ReadOutcome)
      requires Watching() && mode == Nonblocking
      modifies this`slots, this`log, this`out, this`err, this`errors
      ensures Faithful(out, room) && Faithful(err, room)
      ensures StreamOf(onErr) == Transfer(old(StreamOf(onErr)), room, onErr, OutputReady(onErr, read))
      ensures StreamOf(!onErr) == old(StreamOf(!onErr))
      ensures errors == old(errors) + ReadErrors(onErr, old(StreamOf(onErr)), read)
      ensures if ReadBreaks(old(StreamOf(onErr)), read) then
                Released() && Lifecycle(log) && log == old(log) + [FailStopped]
              else
                Watching() && slots == old(slots) && log == old(log)
    {
      LifecycleEnds(log, FailStopped);
      var _ := ReadStd(onErr, read);
    }

    /** Output of a non-blocking process is ready. */
    method OnOutput(onErr: bool, read: ReadOutcome) returns (watched: bool)
      requires Watching() && mode == Nonblocking
      modifies this`slots, this`log, this`out, this`err, this`errors
      ensures Faithful(out, room) && Faithful(err, room)
      ensures if watched then Watching() && slots == old(slots) else Released() && Lifecycle(log)
      ensures watched <==> EndsIn(Output(onErr, read), old(out), old(err)) == None
      ensures out == Reported(old(out), room, false, Output(onErr, read))
      ensures err == Reported(old(err), room, true, Output(onErr, read))
      ensures log == old(log) + ReportStates(Output(onErr, read), old(out), old(err))
      ensures errors == old(errors) + ReportErrors(Output(onErr, read), old(out), old(err))
    {
      var stream := if onErr then err else out;
      OutputReport(onErr, read, out, err, room);
      ReadOrFail(onErr, read);
      watched := read == ReadEof || (read == ReadSucceeds && stream.unread != []);
    }

    /** Its watch pipe is ready. */
    method OnWatchReport(read: ReadOutcome)
      requires Watching() && mode == Nonblocking
      modifies this`slots, this`log, this`errors, this`userStopped, this`userStopFd
      ensures Released() && Lifecycle(log)
      ensures log == old(log) + ReportStates(Watch(read), out, err)
      ensures errors == old(errors) + ReportErrors(Watch(read), out, err)
      ensures read != ReadFails ==> userStopped && userStopFd == -1
    {
      LifecycleEnds(log, if read == ReadFails then FailStopped else UserStopped);
      var _ := ReadClose(read);
    }

    /** Its status has changed. */
    method OnStatus(ended: bool, outRest: RestOutcome, errRest: RestOutcome)
      requires Watching() && mode == Nonblocking
      modifies this`slots, this`log, this`out, this`err, this`errors, this`running, this`stdinFd, this`procKilled
      ensures Faithful(out, room) && Faithful(err, room)
      ensures if ended then Released() && Lifecycle(log) else Watching() && slots == old(slots)
      ensures out == Reported(old(out), room, false, Status(ended, outRest, errRest))
      ensures err == Reported(old(err), room, true, Status(ended, outRest, errRest))
      ensures log == old(log) + ReportStates(Status(ended, outRest, errRest), old(out), old(err))
      ensures errors == old(errors) + ReportErrors(Status(ended, outRest, errRest), old(out), old(err))
      ensures running == !ended && (ended ==> stdinFd == -1)
    {
      LifecycleEnds(log + [Signaled], Stopped);
      Associative(log, [Signaled], [Stopped]);
      StatusReport(ended, outRest, errRest, out, err, room);
      UpdateStatus(ended, outRest, errRest);
    }

    /** What an outside event loop reports about a non-blocking process. */
    method OnReport(report: Report) returns (watched: bool)
      requires Watching() && mode == Nonblocking
      modifies this`slots, this`log, this`out, this`err, this`errors, this`running, this`stdinFd, this`procKilled
      modifies this`userStopped, this`userStopFd
      ensures Faithful(out, room) && Faithful(err, room)
      ensures if watched then Watching() && slots == old(slots) else Released() && Lifecycle(log)
      ensures watched <==> EndsIn(report, old(out), old(err)) == None
      ensures out == Reported(old(out), room, false, report) && err == Reported(old(err), room, true, report)
      ensures log == old(log) + ReportStates(report, old(out), old(err))
      ensures errors == old(errors) + ReportErrors(report, old(out), old(err))
    {
      match report
      case Wrote(onErr, data) =>
        ChildWrites(onErr, data);
        watched := true;
      case Output(onErr, read) => watched := OnOutput(onErr, read);
      case Watch(read) =>
        OnWatchReport(read);
        watched := false;
      case Status(ended, outRest, errRest) =>
        OnStatus(ended, outRest, errRest);
        watched := !ended;
    }

    /** The streams and the states after the reports `before`, none of which has ended the process. */
    ghost predicate Reports(out0: Stream, err0: Stream, log0: seq<State>, before: seq<Report>)
      reads this`out, this`err, this`log
    {
      && room > 0
      && out == Flow(out0, room, false, AsWakes(before)) && err == Flow(err0, room, true, AsWakes(before))
      && log == log0 + AllStates(AsWakes(before))
    }

    /** A non-blocking process under any sequence of reports. Those that come after the terminal state are not passed on:
        the event loop has detached the process by then. Each report reads its own stream; the `n`-th, if the process is
        not watched any more, is the first to end it, in the state that it stands for. */
    method Serve(reports: seq<Report>) returns (watched: bool, ghost n: nat, ghost outLeft: Stream, ghost errLeft: Stream)
      requires Watching() && mode == Nonblocking
      modifies this`slots, this`log, this`out, this`err, this`errors, this`running, this`stdinFd, this`procKilled
      modifies this`userStopped, this`userStopFd
      ensures Faithful(out, room) && Faithful(err, room)
      ensures watched ==> Watching() && slots == old(slots)
      ensures !watched ==> Released() && Lifecycle(log)
      ensures if watched then n == |reports| else n < |reports|
      ensures Unended(old(out), old(err), room, reports, n)
      ensures outLeft == Flow(old(out), room, false, AsWakes(reports[..n]))
      ensures errLeft == Flow(old(err), room, true, AsWakes(reports[..n]))
      ensures watched ==> Reports(old(out), old(err), old(log), reports)
      ensures !watched ==>
                && EndAt(old(out), old(err), room, reports, n).Some?
                && out == Reported(outLeft, room, false, reports[n]) && err == Reported(errLeft, room, true, reports[n])
                && log == old(log) + AllStates(AsWakes(reports[..n])) + ReportStates(reports[n], outLeft, errLeft)
    {
      assert reports[..0] == [];
      for i := 0 to |reports|
        invariant Watching() && slots == old(slots)
        invariant Reports(old(out), old(err), old(log), reports[..i])
        invariant Unended(old(out), old(err), room, reports, i)
      {
        n, outLeft, errLeft := i, out, err;
        ReportsSnoc(old(out), old(err), room, reports, i);
        watched := OnReport(reports[i]);
        if !watched {
          return;
        }
        Associative(old(log), AllStates(AsWakes(reports[..i])), WakeStates(AsWake(reports[i])));
      }
      assert reports[..|reports|] == reports;
      return true, |reports|, out, err;
    }

    /** A call ends when a stage of the start fails, and otherwise by a reason to stop or by a report of the end. */
    ghost predicate CallEnds(c: Call)
      requires room > 0
    {
      || ArgumentParser.Parse(c.arg) == [] || StageFails(c.failure, mode)
      || if mode == Blocking then exists i :: 0 <= i < |c.wakes| && StopsAt(FRESH, FRESH, room, c.wakes, i)
         else !Unended(FRESH, FRESH, room, c.reports, |c.reports|)
    }

    /** One object used again and again: each call that has ended leaves no descriptor behind. */
    method ExecAll(calls: seq<Call>) returns (ended: bool)
      requires Idle()
      modifies this, signals
      ensures ended <==> forall i | 0 <= i < |calls| :: CallEnds(calls[i])
      ensures ended ==> Idle() && slots.open == old(slots.open)
      ensures ended && calls != [] ==> Lifecycle(log)
      ensures !ended ==> Watching() && base == old(slots.open)
      ensures ended ==>
                signals.sigchld ==
                if exists i :: 0 <= i < |calls| && Leaks(calls[i]) then BlockingHandler else old(signals.sigchld)
    {
      for i := 0 to |calls|
        invariant Idle() && slots.open == old(slots.open)
        invariant i > 0 ==> Lifecycle(log)
        invariant forall j | 0 <= j < i :: CallEnds(calls[j])
        invariant signals.sigchld ==
                  if exists j :: 0 <= j < i && Leaks(calls[j]) then BlockingHandler else old(signals.sigchld)
      {
        var done := ExecOne(calls[i]);
        if !done {
          return false;
        }
      }
      return true;
    }

    /** One call, with all that happens until its process ends. */
    method ExecOne(c: Call) returns (done: bool)
      requires Idle()
      modifies this, signals
      ensures if done then Released() && Lifecycle(log) else Watching()
      ensures base == old(slots.open)
      ensures done <==> CallEnds(c)
      ensures done ==> signals.sigchld == if Leaks(c) then BlockingHandler else old(signals.sigchld)
      ensures !done && mode == Blocking ==> signals.sigchld == BlockingHandler
    {
      ghost var n, outLeft, errLeft;
      done, n, outLeft, errLeft := Exec(c.arg, c.failure, c.wakes, c.resetFails, c.outRest, c.errRest);
      if !done && mode == Nonblocking {
        var watched;
        watched, n, outLeft, errLeft := Serve(c.reports);
        done := !watched;
        assert done ==> EndAt(FRESH, FRESH, room, c.reports, n).Some?;
      }
    }

    predicate Leaks(c: Call) {
      HandlerLeaks(mode, c.arg, c.failure, c.resetFails)
    }
  }

  /** Once leaked, the handler is never restored, not by another object either: that one takes it for the earlier one. */
  method LeakStays(signals: SignalTable, a: Call, b: Call, open: set<Fd>) returns (ended: bool)
    requires HandlerLeaks(Blocking, a.arg, a.failure, a.resetFails)
    modifies signals
    ensures signals.sigchld == BlockingHandler
  {
    var first := new Pexec(Blocking, 1024, open, signals);
    ended := first.ExecOne(a);
    if ended {
      var second := new Pexec(Blocking, 1024, open, signals);
      ended := second.ExecOne(b);
    }
  }
}
