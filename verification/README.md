# pexec: a verified model

pexec spawns child processes and watches them from a single-threaded `select` loop. This project models its protocol in
Dafny and proves what the program relies on:

- `ArgumentParser.dfy`: `str2arg` and `arg2str`. The two nested splits are a one-pass automaton; printing and parsing are
  inverse on exactly the canonical argument lists.
- `QueueBuffer.dfy`: the job queue as a monitor with one condition variable; no wakeup is lost unless the buffer fills up.
- `SelectEvent.dfy`: the `select` loop whose callbacks change the table it iterates over. A pass is a sweep over the table,
  whatever they do, and a walk over a snapshot unless a descriptor of the snapshot is opened anew.
- `SigchldHandler.dfy`: the SIGCHLD self-pipe under coalescing, dropped writes, partial and interrupted reads. No child that
  has exited is forgotten, and none is reported twice.
- `Process.dfy`: `pexec<N>`, with every stage of a start able to fail. Descriptors are conserved, output is delivered in
  order, and the states reported form a fixed grammar.
- `MultiModel.dfy`: `pexec_multi` as a transition system: producers, children and users act at any moment, signals are those
  of `SigchldHandler.dfy`, and the event loop runs one callback at a time. `MultiInvariant.dfy` proves its invariant for
  every run, `MultiGuarantees.dfy` what follows for users, and `MultiJobs.dfy` what each job and each end of a process does.
- `MultiShutdown.dfy`: jobs are taken and stopping terminates, and exactly when it cannot. `MultiLoop.dfy`: all of it holds
  on the `select` loop of `SelectEvent.dfy`. `MultiReturn.dfy`: the passes that lead to the end exist. `MultiReuse.dfy`: what
  a descriptor number that is used again in a pass can do. `MultiRounds.dfy`: the rounds of `run`, and that it returns.
- `PexecMulti.dfy`: the class, built on the loop object of `SelectEvent.dfy` and the handler object of
  `SigchldHandler.dfy`. Every pass it makes is a run of the model, by `MultiSteps.dfy`.
- `Events.dfy`: what these share.

`dafny verify dfyconfig.toml` checks everything.

The environment is a parameter. Children exit and signals are delivered at any point, also through another thread while
the loop's own blocks them, reads are short or interrupted, `notify_one` wakes any waiter, hash tables iterate in any order, and a descriptor
number can be used again as soon as it is closed. Signals follow POSIX.1-2017, XSH section 2.4.1, and pipes its page for
`write()`: at most PIPE_BUF bytes are written at once or, on a non-blocking pipe that is full, not at all.

## Results that are negative or conditional

- The condition variable of `queue_buffer` is shared by both ends. This is safe only because the capacity is never reached:
  whatever the capacity, a buffer that fills up loses a wakeup in some run (`FullBufferLosesWakeup`).
- The wakeup of a job is dropped when the control pipe is full. Stopping then can wait forever: `FullPipeStallsShutdown`
  is such a run from the start, for every capacity of the pipe, and `SticksIffCongested` says from which states it can
  happen.
- `actual_iterator_deleted_` is cleared only when the loop advances. Left set by a pass cut short, it makes the next pass
  call its first entry twice: `StaleScenario` makes two such passes, and `StaleFlagRepeatsFirst` is an equivalence.
  `pexec_multi` never cuts a pass short (`LoopsAgree`).
- A descriptor that is closed in a pass and opened again in it is called back for readiness that was the old one's, exactly
  when the table puts it ahead of the iterator: `ReuseScenario` makes such a pass with two callbacks, and `ReusedIffAhead` is
  the equivalence. In `pexec_multi` its read then fails with EAGAIN, which `Pexec.ReadStd` and `Pexec.ReadClose` treat as an
  error: `ReuseFailsProcess` is a run from the start in which a new process ends as failed although no system call fails.
  `StaleReadsAreReuse` says that this is the only way: apart from failures of the system, a read finds nothing only if its
  descriptor was opened earlier in the same pass.
- The comment at `src/pexec/pexec_single.h:318-319` promises to read a stream until EAGAIN; the code makes one successful
  read. `RestComplete` says exactly when that is enough.
- The default sinks append a chunk as a C string. `SinkExact` says exactly when nothing is lost.
- A blocking `exec` leaves its SIGCHLD handler installed when `fork` fails, or when `sigaction` does at the end. From then on
  nothing removes it: each later call, of this object or of another, saves and restores the leaked handler as if it were the
  earlier one (`Pexec.Exec` and `Pexec.ExecAll`, equivalences; `LeakStays`).
- A `waitpid` that reports nothing leaves status 0, which `Pexec.HandleSigchld` passes on as a normal exit, as the code does;
  and each `waitpid` that is interrupted is reported as an error before it is repeated.
- Nothing ever clears `recompute_max_fds`; `Loop.GetMaxFd` shows why the maximum is right nevertheless. A loop whose table has
  become empty spins (`Loop.RunLoop`).
- Zombies left by an earlier `run` may have no record in the new signal pipe. The guarantee of `Handler.Serve` is for the
  children forked since the handler was installed.

## Model

| member | source | states |
|---|---|---|
| ArgumentParser.SplitLines | src/pexec/argument_parser.cpp:12-25 | the `getline` loop yields the recursive `Split`, without a piece after a final delimiter |
| ArgumentParser.PushWords | src/pexec/argument_parser.cpp:35-41 | the inner loop appends the nonempty words of one unquoted piece |
| ArgumentParser.Tokenise | src/pexec/argument_parser.cpp:31-47 | the two nested split loops compute the one-pass automaton with an in-quotes flag, for unbalanced quotes too |
| ArgumentParser.TwoLevelSplitIsScan | src/pexec/argument_parser.cpp:31-47 | splitting by quotes, then by spaces, is that automaton, from either state |
| ArgumentParser.TokensCoverInput | src/pexec/argument_parser.cpp:31-47 | the tokens concatenated are the input without its quotes and without the spaces outside of them |
| ArgumentParser.GlueFirst | src/pexec/argument_parser.cpp:57-65 | gluing two tokens from the left agrees with merging from the right |
| ArgumentParser.Glue | src/pexec/argument_parser.cpp:48-72 | the loop that glues tokens in place computes the fold from the right |
| ArgumentParser.Str2Arg | src/pexec/argument_parser.cpp:27-73 | the parser with its in-place merge loop is `Merge` of the automaton's tokens, on every string |
| ArgumentParser.ParseCanonical | src/pexec/argument_parser.cpp:27-73 | every argument parsed is nonempty and free of quotes, and only the last may end in a backslash |
| ArgumentParser.AppendWord | src/pexec/argument_parser.cpp:79-90 | one argument is appended, in quotes exactly if it contains a space |
| ArgumentParser.Arg2Str | src/pexec/argument_parser.cpp:75-97 | the printing loop is `Print`, words with a space quoted and a space between words |
| ArgumentParser.QuotesOnlyWhereNeeded | src/pexec/argument_parser.cpp:79-95 | a list is printed as its arguments with a space between any two if and only if none contains a space, and each that does costs two quotes |
| ArgumentParser.ScanPrint | src/pexec/argument_parser.cpp:27-97 | the automaton reads back exactly what was printed, arguments made only of spaces included |
| ArgumentParser.RoundTrip | src/pexec/argument_parser.cpp:27-97 | parsing what was printed gives the list back if and only if the list is canonical |
| ArgumentParser.Normalisation | src/pexec/argument_parser.cpp:27-97 | parse, print, parse equals parse, for every string |
| QueueBuffer.StepKeepsInv | src/pexec/queue_buffer.h:17-48 | every critical section and notification that does not meet a full buffer keeps: while a consumer waits, the items do not outnumber pending notifications plus woken consumers, and no producer waits |
| QueueBuffer.RunKeepsInv | src/pexec/queue_buffer.h:17-48 | the same along every interleaving of any number of threads, of any length, in which no `add` meets a full buffer |
| QueueBuffer.NoLostWakeup | src/pexec/queue_buffer.h:17-68 | no consumer waits for items that are there, nor a producer for room that is there, with nobody about to wake it, unless the buffer has been full; for every capacity |
| QueueBuffer.FullBufferLosesWakeup | src/pexec/queue_buffer.h:62-68 | for every capacity there is a run in which a producer waits although the buffer is empty and nobody is going to wake it |
| QueueBuffer.FirstInFirstOut | src/pexec/queue_buffer.h:17-48 | what has left, taken or cleared, followed by what is queued, is what arrived, in order, in every run |
| QueueBuffer.Buffer.AddLocked | src/pexec/queue_buffer.h:17-23 | `add` waits exactly when the queue is full, and otherwise appends the item, owes a notification and keeps the invariant that no wakeup is lost |
| QueueBuffer.Buffer.RemoveLocked | src/pexec/queue_buffer.h:40-48 | `remove` takes the oldest item, or waits exactly when there is none, and keeps that invariant |
| QueueBuffer.Buffer.ClearLocked | src/pexec/queue_buffer.h:25-30 | `clear` empties the queue, and what was in it has left in order |
| QueueBuffer.Buffer.ClearAddLocked | src/pexec/queue_buffer.h:32-38 | `clear_add` leaves its item alone in the queue |
| QueueBuffer.Buffer.Play | src/pexec/queue_buffer.h:17-48 | any sequence of `add`, `remove`, `clear`, `clear_add`, notifications and spurious wakeups on one buffer: no wakeup is lost unless it has been full, and items leave in the order in which they arrived |
| SelectEvent.Loop.GetMaxFd | src/pexec/event/select_event.cpp:10-22 | the result bounds every key and is one of them |
| SelectEvent.Loop.AddReadEvent | src/pexec/event/select_event.cpp:73-78 | the entry appears where the table puts it, ahead of the iterator or behind, and the iterator stays where it is |
| SelectEvent.Loop.RemoveReadEvent | src/pexec/event/select_event.cpp:80-96 | removes that entry only; the iterator moves on exactly when it stood on it, and then the flag is set |
| SelectEvent.Loop.React | src/pexec/event/select_event.cpp:142 | any additions and removals by a callback leave the iterator between what was passed and what is ahead |
| SelectEvent.Loop.Visit | src/pexec/event/select_event.cpp:137-155 | one callback and the step to the next entry are one step of the sweep |
| SelectEvent.Loop.Pass | src/pexec/event/select_event.cpp:136-156 | a pass over the table that callbacks change equals the sweep, which knows no iterator, whatever they add or remove and however it ends |
| SelectEvent.Loop.RunLoop | src/pexec/event/select_event.cpp:98-158 | the loop is a sequence of such sweeps, each entered with the table and the flag that the one before has left, and ends for the same reason |
| SelectEvent.InterruptionsIgnored | src/pexec/event/select_event.cpp:116-125 | an interrupted `select`, anywhere in a run, changes neither the calls nor the end |
| SelectEvent.LoopHistory | src/pexec/event/select_event.cpp:102-157 | for every run: one pass for each return of `select` that reports something, over what the pass before has left; it ends exactly by a callback that says STOP_LOOP, by the first failure of `select`, or with its table empty, and a pass cut short by SKIP_OTHER_FD is followed by the next |
| SelectEvent.CurrentStays | src/pexec/event/select_event.cpp:84-91 | unless the flag is set, the iterator is still at the entry whose callback ran |
| SelectEvent.CalledOnceIffAhead | src/pexec/event/select_event.cpp:136-156 | in a pass not cut short, an entry that no callback adds or removes is called exactly once if it is ahead and ready, and otherwise not at all, whatever happens to the others |
| SelectEvent.ReusedIffAhead | src/pexec/event/select_event.cpp:73-78 | an entry that a callback adds, before or after anything else it adds or removes, is called in the same pass if and only if its number is among the ready ones and the table puts it ahead of the iterator |
| SelectEvent.ReuseScenario | src/pexec/event/select_event.cpp:136-156 | a pass in which one callback removes an entry, another adds the same number anew, and that is called for readiness that was the old one's |
| SelectEvent.FlagStaysClear | src/pexec/event/select_event.cpp:143-154 | a pass that is not cut short and is entered with the flag clear leaves it clear, whatever the callbacks do |
| SelectEvent.FlagBecomesClear | src/pexec/event/select_event.cpp:143-154 | so does one entered with the flag set over a table with an entry |
| SelectEvent.SweepIsWalk | src/pexec/event/select_event.cpp:136-156 | unless a descriptor of the snapshot is registered anew, the rest of a pass is a walk over what is left of the snapshot |
| SelectEvent.PassIsWalk | src/pexec/event/select_event.cpp:136-156 | and a whole pass is a walk over the ready entries of its table |
| SelectEvent.CallsComeFromTodo | src/pexec/event/select_event.cpp:136-156 | only descriptors of the snapshot are called |
| SelectEvent.CalledAtMostOnce | src/pexec/event/select_event.cpp:136-156 | no descriptor is called twice in a pass |
| SelectEvent.CalledIffStillRegistered | src/pexec/event/select_event.cpp:136-156 | a ready descriptor is called if and only if it is still registered when its turn comes |
| SelectEvent.StaleFlagRepeatsFirst | src/pexec/event/select_event.cpp:143-154 | a pass entered with the flag set calls a descriptor twice if and only if its first entry is ready and goes on after a callback that leaves it there |
| SelectEvent.StaleScenario | src/pexec/event/select_event.cpp:143-154 | two passes of which the first leaves the flag set and the second calls its first entry twice |
| SigchldHandler.ReadKeepsFrames | src/pexec/signal/sigchld_handler.cpp:185-192 | a short read yields the next bytes of the current record |
| SigchldHandler.CallKeepsSound | src/pexec/signal/sigchld_handler.cpp:90-201 | every system call of the callback, and everything that happens between two, keeps whole records in the pipe and, outside of the reading and the drain, leaves no child that has exited stranded |
| SigchldHandler.ZombiesReaped | src/pexec/signal/sigchld_handler.cpp:95-139 | a child that had exited before the drain is returned by it |
| SigchldHandler.ChildrenConserved | src/pexec/signal/sigchld_handler.cpp:95-139 | `waitpid` returns each child at most once, and nothing else removes one |
| SigchldHandler.CallbackReaps | src/pexec/signal/sigchld_handler.cpp:90-201 | every callback, however it is interleaved with exits, merged signals and dropped writes, consumes one record, reaps each child that had exited, and leaves none stranded |
| SigchldHandler.HappenKeeps | src/pexec/signal/sigchld_handler.cpp:21-25 | an exit, another signal or a delivery, its write dropped or not, through this thread or another one while this one blocks the signal, keeps the framing and strands no child |
| SigchldHandler.Handler.WaitPid | src/pexec/signal/sigchld_handler.cpp:121-135 | a child is returned once, and "none" means that none has exited |
| SigchldHandler.Handler.Drain | src/pexec/signal/sigchld_handler.cpp:95-139 | the `waitpid` loop terminates and reports each child it reaps, in order, until none that has exited is left |
| SigchldHandler.Handler.HandleSigchld | src/pexec/signal/sigchld_handler.cpp:90-142 | masks, drains and unmasks; what is reported is what was reaped |
| SigchldHandler.Handler.ReadSignal | src/pexec/signal/sigchld_handler.cpp:176-201 | for any short reads and interruptions it is a callback in the sense of `CallbackReaps`, reports what it reaps, and never returns STOP_LOOP with a record in the pipe |
| SigchldHandler.Handler.React | src/pexec/signal/sigchld_handler.cpp:176-201 | a readable pipe loses one record and every child that had exited is reported; a fork and what happens in the kernel are just that |
| SigchldHandler.Handler.Serve | src/pexec/signal/sigchld_handler.cpp:90-201 | over any run each child is still a child or was reported exactly once, the children forked are those of the forks told about, and every child that had exited when the pipe was readable is reported; with nothing pending and nothing in the pipe, no child forked in it is left unreaped |
| Process.TookIsFaithful | src/pexec/pexec_single.h:428-453 | after a read the chunks, of 1 to BUFFER_SIZE - 1 bytes, still concatenate to what the child wrote less what is unread |
| Process.FlowIsFaithful | src/pexec/pexec_single.h:428-453 | whatever happens in a loop, what was delivered of a stream, followed by what is left, is what the child wrote to that stream |
| Process.StopReasons | src/pexec/pexec_single.h:252-295 | a blocking loop ends when a signal tells of the end of the child, when it is interrupted after a byte of the watch pipe, and at errors, and for nothing else |
| Process.RestComplete | src/pexec/pexec_single.h:300-322 | after the final read the callback has seen everything if and only if the residue was empty, or fitted in one read that succeeded |
| Process.SinkExact | src/pexec/exec.cpp:25-30 | the default sink holds exactly the delivered bytes if and only if these contain no NUL |
| Process.CStringExact | src/pexec/pexec_multi.cpp:91-98 | appending one chunk as a C string is exact if and only if it contains no NUL |
| Process.Pexec.ClosePipe | src/pexec/util.cpp:67-81 | each open end is closed once and both slots become -1 |
| Process.Pexec.CloseForkPipes | src/pexec/pexec_single.h:90-98 | closes exactly what the object owns |
| Process.Pexec.PrepareForkPipes | src/pexec/pexec_single.h:100-131 | owns every pipe, or reports the stage that failed, FAIL_STOPPED, and has closed what it opened |
| Process.Pexec.Spawn | src/pexec/pexec_single.h:510-530 | STARTED exactly if neither `sigaction` nor `fork` fails, else the error and FAIL_STOPPED with everything closed |
| Process.Pexec.Launch | src/pexec/pexec_single.h:498-530 | the same over all stages from parsing the arguments on |
| Process.Pexec.ReadStd | src/pexec/pexec_single.h:428-453 | delivers the next chunk, skips the other descriptors at the end of file, or reports the error and ends the loop or, non-blocking, the process |
| Process.Pexec.ReadStdRest | src/pexec/pexec_single.h:300-315 | one read at most; only a failure other than EAGAIN and EINTR is an error |
| Process.Pexec.ReadClose | src/pexec/pexec_single.h:405-426 | USER_STOPPED, or FAIL_STOPPED after a failing read, in non-blocking mode; otherwise no state changes |
| Process.Pexec.UpdateStatus | src/pexec/pexec_single.h:373-385 | SIGNALED, followed by STOPPED exactly when a non-blocking process has ended |
| Process.Pexec.HandleSigchld | src/pexec/pexec_single.h:194-209 | one SIGNALED; each interrupted call and a call with nothing to reap are errors, and the latter counts as an end |
| Process.Pexec.OnWake | src/pexec/pexec_single.h:253-295 | each callback of the blocking loop: what it makes of its own stream, which errors and states it reports, and that it says STOP_LOOP exactly for a reason |
| Process.Pexec.LoopIo | src/pexec/pexec_single.h:245-298 | the loop ends if and only if some wake gives a reason, at the first that does; it is stopped by the user exactly if that is the interrupt; streams, states and errors are those of the wakes up to it |
| Process.Pexec.Finish | src/pexec/pexec_single.h:533-539 | exactly one terminal state, never FAIL_STOPPED; output is read before the pipes are closed |
| Process.Pexec.ResetSigchldHandler | src/pexec/pexec_single.h:163-174 | restores what the call had saved, or reports that `sigaction` failed and leaves its own handler |
| Process.Pexec.Exec | src/pexec/pexec_single.h:498-541 | for every failure point and every end: open descriptors as before the call, all slots -1, the lifecycle grammar; a blocking call ends if and only if some wake gives a reason, at the first that does, with exactly the states, errors and output of the wakes up to it and, after STOPPED, of one final read of each stream; the disposition of SIGCHLD is as before the call unless the handler leaks, and the handler's own exactly then |
| Process.Pexec.OnReport | src/pexec/pexec_single.h:373-453 | a report reads its own stream, and keeps the process watched or ends it, with everything released, in the state that it stands for |
| Process.Pexec.Serve | src/pexec/pexec_single.h:373-453 | any sequence of reports: the process is not watched any more if and only if some report ends it, the first that does names the terminal state, and the streams are those of the reports up to it |
| Process.Pexec.ExecAll | src/pexec/pexec_single.h:498-541 | repeated calls on one object, in both modes: all of them end exactly if each is told of its end, and then descriptors are conserved; once one of the calls has leaked the handler it stays, and otherwise the disposition is as before |
| Process.LeakStays | src/pexec/pexec_single.h:149-174 | a handler that one object has leaked is still there after a call of another object, whatever happens in it |
| MultiInvariant.InitHolds | src/pexec/pexec_multi.h:145-148 | the invariant holds for a new object |
| MultiInvariant.AttachKeeps | src/pexec/pexec_multi.cpp:238-250 | adding the three descriptors of a process keeps the two tables in agreement |
| MultiInvariant.DetachKeeps | src/pexec/pexec_multi.cpp:220-223 | removing them does, and no assertion of the loop fails |
| MultiInvariant.TerminateKeeps | src/pexec/pexec_multi.cpp:216-236 | the end of a process keeps the invariant: one call of the on-stop callback, and a sentinel for the last one while stopping |
| MultiInvariant.SignalsKeep | src/pexec/pexec_multi.cpp:406-418 | the callback of the signal pipe keeps the invariant at each of its system calls, whatever happens between them, with reaped children active or not |
| MultiInvariant.SentinelJobKeeps | src/pexec/pexec_multi.cpp:183-194 | a sentinel is met only while stopping with no process left, so it always stops the loop |
| MultiInvariant.StopJobKeeps | src/pexec/pexec_multi.cpp:172-194 | a stop keeps the invariant in every state |
| MultiInvariant.SpawnJobKeeps | src/pexec/pexec_multi.cpp:196-252 | a spawn moves its job from queued to active, or to dropped while stopping |
| MultiInvariant.HandleStopKeeps | src/pexec/pexec_multi.cpp:346-360 | after `handle_stop` only the loop's own descriptor is watched |
| MultiInvariant.DispatchKeeps | src/pexec/pexec_multi.cpp:333-344 | a wakeup byte always finds a job, so the loop's thread never blocks in `remove` |
| MultiInvariant.StepKeeps | src/pexec/pexec_multi.cpp:135-444 | every callback, and every action of producers, children, users and signals, keeps the invariant; nothing about records or zombies is assumed |
| MultiInvariant.RunKeeps | src/pexec/pexec_multi.cpp:135-444 | it holds in every state of every run, over any number of calls of `run` |
| MultiGuarantees.RunsAreSafe | src/pexec/pexec_multi.cpp:135-444 | no assertion fails, no callback is missing, no call reaches a finished process, the loop never blocks; bytes in the control pipe never exceed jobs; the sentinel is queued exactly while stopping without processes; nothing is left between runs |
| MultiGuarantees.JobsKeepTheirOrder | src/pexec/pexec_multi.cpp:159-164 | what was dispatched, followed by what is queued, is what was submitted, in that order, for every run |
| MultiGuarantees.RunForward | src/pexec/pexec_multi.cpp:196-236 | a spawn job moves only from queued to dropped or active, and from active to terminated |
| MultiGuarantees.EverySpawnAccounted | src/pexec/pexec_multi.cpp:101-123 | each submitted process is queued once, dropped, active under one pid, or terminated; its on-stop callback was called once if terminated and otherwise never |
| MultiGuarantees.LeavesExactlyWhen | src/pexec/pexec_multi.cpp:346-433 | the loop is told to leave if and only if the control callback takes the sentinel, or a stop while not stopping and without a process; the signal callback never does it |
| MultiGuarantees.LeavesCleanly | src/pexec/pexec_multi.cpp:346-360 | then no process is active, no sentinel is left for the next run, and the flags are reset |
| MultiGuarantees.RegistryAgrees | src/pexec/pexec_multi.cpp:293-318 | in every state of every run the registered descriptors are exactly the signal pipe's, the control pipe's and those of active processes, and the loop watches these and its own; after `handle_stop` only its own |
| MultiGuarantees.OneOwner | src/pexec/pexec_multi.cpp:238-250 | in every state of every run each active process has three descriptors registered and shares none |
| MultiGuarantees.StopReachesAll | src/pexec/pexec_multi.cpp:135-157 | in every state of every run, while stopping by STOP_USER every active process has been asked to be left alone, and by STOP_KILL every one was sent the signal |
| MultiGuarantees.NoDescriptorLeaks | src/pexec/pexec_multi.cpp:362-444 | between runs exactly the descriptors of the beginning are open: both ends of the loop's pipe and of the signal pipe, and all of each process, are closed |
| MultiGuarantees.ExitedIsReaped | src/pexec/pexec_multi.cpp:406-418 | the signal callback ends an active process that had exited and calls its on-stop callback; one that it does not reap stays as it was |
| MultiGuarantees.NoExitForgotten | src/pexec/pexec_multi.cpp:405-418 | in every state of every run, with merged signals and dropped writes: while an active process has exited, a signal is pending or the signal pipe is watched and readable |
| MultiJobs.StopActs | src/pexec/pexec_multi.cpp:135-181 | a stop taken while processes are active: STOP_KILL sends the signal of that job to each of them and to no other, STOP_USER pokes exactly these, STOP_WAIT does neither, and flag and signal are the job's |
| MultiJobs.OtherStops | src/pexec/pexec_multi.cpp:172-194 | a stop while stopping changes only the queue, and one without processes makes the loop leave |
| MultiJobs.SpawnActs | src/pexec/pexec_multi.cpp:196-252 | a spawn makes its job active under the new pid, with the three descriptors watched and empty pipes, or drops it while stopping |
| MultiJobs.ProcessActs | src/pexec/pexec_single.h:405-453 | a callback of a process: a byte of the watch pipe ends it for the user, a read that fails or finds nothing ends it as failed, any other leaves all but its own output alone; an end closes and removes its descriptors, calls its on-stop callback once and, for the last while stopping, posts a sentinel |
| MultiJobs.OnlyStopsStop | src/pexec/pexec_multi.cpp:135-252 | no other step sends a signal or changes the way in which the loop stops |
| MultiJobs.StopBegan | src/pexec/pexec_multi.cpp:172-181 | while the loop stops, its flag and its signal are those of the stop that began it, and it has been stopping ever since |
| MultiJobs.StopsAsSubmitted | src/pexec/pexec_multi.cpp:135-181 | in every state of every run the loop stops only as a submitted stop says, every active process has been reached accordingly, and no signal was sent that no submitted stop asked for |
| MultiShutdown.StepProgress | src/pexec/pexec_multi.cpp:135-252 | no step of a closing loop adds a process or takes it further from its end |
| MultiShutdown.PassDetaches | src/pexec/pexec_multi.cpp:135-157 | one pass detaches every process that has exited or was asked to be left alone |
| MultiShutdown.PassProgress | src/pexec/pexec_multi.cpp:135-252 | no pass of a closing loop raises the bound on those still needed, and each that begins with no write to the control pipe in flight lowers it |
| MultiShutdown.ShutdownTerminates | src/pexec/pexec_multi.cpp:135-252 | once producers have written the bytes of the jobs they have added, the loop leaves within that bound, with nothing registered or watched |
| MultiShutdown.StopUserTerminates | src/pexec/pexec_multi.cpp:139-146 | after STOP_USER `run` returns within three such passes more than there are queued jobs, whatever the children do |
| MultiShutdown.StopWaitTerminates | src/pexec/pexec_multi.cpp:147-155 | after STOP_WAIT or STOP_KILL the same, once the active processes have exited |
| MultiShutdown.SubmittedIsTaken | src/pexec/pexec_multi.cpp:333-344 | a job at position i of the queue is dispatched, or the loop has left, within i + 1 complete passes that begin with no write in flight and none lost, whatever is submitted meanwhile |
| MultiShutdown.StopCloses | src/pexec/pexec_multi.cpp:172-194 | a stop that is dispatched makes the loop close, from where the bounds above apply |
| MultiShutdown.StuckForever | src/pexec/pexec_multi.cpp:159-170 | with neither a byte nor a write in flight left for the sentinel, and without new jobs, the loop never leaves |
| MultiShutdown.SticksIffCongested | src/pexec/pexec_multi.cpp:159-170 | a stopping loop can get there if and only if, with processes left, a write was lost or the queued jobs fill the control pipe, or, with none left, neither the bytes nor the writes in flight that fit reach the sentinel |
| MultiShutdown.FullPipeStallsShutdown | src/pexec/pexec_multi.h:138-141 | for every capacity of the control pipe, a run from the start in which the sentinel's write is dropped and `select` has nothing to report |
| MultiLoop.CallbackTurns | src/pexec/pexec_multi.cpp:366-381 | what each callback does to the loop's table is legal and keeps its keys those watched |
| MultiLoop.PassIsSweep | src/pexec/pexec_multi.cpp:362-444 | a pass of the loop over `pexec_multi` is a sweep over its table, with other threads acting in between and descriptors opened anew |
| MultiLoop.LoopsAgree | src/pexec/pexec_multi.cpp:362-444 | over any number of passes the loop's assertions hold, it calls back what the model calls back, no pass leaves the flag set, and it has stopped exactly when the model has left |
| MultiLoop.PassServes | src/pexec/event/select_event.cpp:136-156 | what was ready is called back, or is no longer watched |
| MultiLoop.LoopReturns | src/pexec/pexec_multi.cpp:435-442 | once it stops and its processes are doomed, the `select` loop makes no more passes without a write in flight than the bound, and having made these it has returned with everything detached |
| MultiReturn.PassExists | src/pexec/event/select_event.cpp:98-158 | for whatever `select` must report to a closing loop, a pass follows that serves all of it |
| MultiReturn.SomethingToReport | src/pexec/event/select_event.cpp:98-131 | a closing loop with doomed processes that is not congested, with no write in flight and no signal pending, always has a descriptor that `select` must report |
| MultiReturn.RoundExists | src/pexec/event/select_event.cpp:98-158 | so `select` returns, with something to report and all of it readable, and such a pass follows |
| MultiReturn.ReturnExists | src/pexec/pexec_multi.cpp:435-442 | from every closing state with doomed processes that is not congested, such passes lead to the return of the loop |
| MultiReuse.CallbackLeaves | src/pexec/pexec_multi.cpp:314-318 | a callback takes what there is to read from its own descriptor only; any other that stays registered keeps its data |
| MultiReuse.StaleReadsAreReuse | src/pexec/event/select_event.cpp:136-156 | if `select` reports only what can be read, a read in the pass that follows finds nothing only if its descriptor was opened earlier in that pass, whatever others do in between |
| MultiReuse.ReuseFailsProcess | src/pexec/pexec_single.h:428-453 | from the start of a program there is a pass in which that happens: one process is detached, the next gets the number of its standard output, is read and ends as failed, with no failure of the system |
| MultiSteps.ThroughFollows | src/pexec/event/select_event.cpp:136-156 | a part of a pass and the rest of it make a pass |
| MultiSteps.FireTruthful | src/pexec/event/select_event.cpp:136-156 | what `select` has reported of the pipes of the loop, and is still ahead, can still be read after a callback |
| MultiSteps.PassEnds | src/pexec/event/select_event.cpp:136-156 | every pass over `pexec_multi` comes to an end, although callbacks add entries |
| MultiSteps.ThroughSweeps | src/pexec/event/select_event.cpp:136-156 | a walk to the end of the table leaves the table that the sweep leaves |
| MultiRounds.RoundsAreLegal | src/pexec/event/select_event.cpp:98-158 | rounds of the loop, one after another, are a run of the model, with one pass for each round until the loop has left |
| MultiRounds.RoundProgress | src/pexec/event/select_event.cpp:98-158 | a round whose candidates cover what `select` must report brings a closing loop nearer to its end, and finds something to report unless a write is in flight |
| MultiRounds.RunReturns | src/pexec/pexec_multi.cpp:435-442 | whatever the first rounds were: from a closing state with doomed processes that is not congested, enough further rounds with no write in flight lead to the return of the loop |
| PexecMultiClass.SignalsCommute | src/pexec/pexec_multi.cpp:406-411 | the callbacks for reaped children and the calls of `waitpid` between them do not interfere |
| PexecMultiClass.PexecMulti.constructor | src/pexec/pexec_multi.h:145-148 | a new object is in the initial state |
| PexecMultiClass.PexecMulti.Interrupt | src/pexec/pexec_multi.h:138-141 | one byte more, unless the pipe is full |
| PexecMultiClass.PexecMulti.SendJobNullptrStop | src/pexec/pexec_multi.cpp:159-170 | the job is in the queue before the byte is written |
| PexecMultiClass.PexecMulti.AddReadEvent | src/pexec/pexec_multi.cpp:293-300 | both tables gain the descriptor, and they stay in agreement with the loop object and its iterator |
| PexecMultiClass.PexecMulti.RemoveReadEvent | src/pexec/pexec_multi.cpp:302-312 | both tables lose the descriptor, and the iterator of the loop object is repaired |
| PexecMultiClass.PexecMulti.HandleStop | src/pexec/pexec_multi.cpp:346-360 | does what the model's `HandleStop` says, to the loop object too |
| PexecMultiClass.PexecMulti.Cleanup | src/pexec/pexec_multi.cpp:135-157 | the loops over the active processes reach each of them |
| PexecMultiClass.PexecMulti.JobNullptrStop | src/pexec/pexec_multi.cpp:183-194 | the returned event and the state are those of the model |
| PexecMultiClass.PexecMulti.JobStop | src/pexec/pexec_multi.cpp:172-181 | a second stop changes nothing; the first one stores its flag and signal |
| PexecMultiClass.PexecMulti.JobSpawnProc | src/pexec/pexec_multi.cpp:196-252 | does what the model's `JobSpawn` says, with no assertion of the loop failing |
| PexecMultiClass.PexecMulti.OnProcStopped | src/pexec/pexec_multi.cpp:216-236 | the lambda detaches the process and posts the sentinel exactly when it was the last while stopping |
| PexecMultiClass.PexecMulti.OnStopped | src/pexec/pexec_multi.cpp:101-123 | the user's on-stop callback is called once, then the lambda |
| PexecMultiClass.PexecMulti.DispatchJob | src/pexec/pexec_multi.cpp:333-344 | takes the oldest job and acts on it as the model does; says STOP_LOOP exactly for a sentinel or a first stop without a process |
| PexecMultiClass.PexecMulti.OnControlReadable | src/pexec/pexec_multi.cpp:420-433 | one byte, one job |
| PexecMultiClass.PexecMulti.OnSigchldReadable | src/pexec/pexec_multi.cpp:405-418 | the handler object reads one record and drains `waitpid`, and the callbacks that follow make a signal callback of the model |
| PexecMultiClass.PexecMulti.DoAction | src/pexec/pexec_multi.cpp:314-318 | the callback of any watched descriptor is a step of the model, whose operations on the table were done to the loop object |
| PexecMultiClass.PexecMulti.Visit | src/pexec/event/select_event.cpp:137-155 | a callback and the step of the iterator of the loop object |
| PexecMultiClass.PexecMulti.Start | src/pexec/pexec_multi.cpp:362-433 | creates the loop and the handler and registers the signal pipe and the control pipe |
| PexecMultiClass.PexecMulti.RunPass | src/pexec/event/select_event.cpp:132-156 | the walk of the loop object's own iterator over its table, calling back this object while other threads act, terminates and is a pass in the sense of `LoopsAgree` |
| PexecMultiClass.PexecMulti.RunRound | src/pexec/event/select_event.cpp:98-156 | `select` reports exactly those of its candidates that are watched and can be read; with something reported the round is a pass in the sense of `LoopsAgree`, in which reads find nothing only through reuse, and with nothing no callback runs |
| PexecMultiClass.PexecMulti.RunLoop | src/pexec/event/select_event.cpp:98-158 | exactly the rounds told about take place, in order, each over the table that the one before has left, until the loop leaves |
| PexecMultiClass.PexecMulti.RunAll | src/pexec/pexec_multi.cpp:362-444 | all that `run` does, with both objects and everybody else at work, is the start and then the rounds told about, which is a run of the model; it returns under the condition of `RunReturns`; when it has returned, nothing is active or registered, and what is open is what was open before |

## Left out

- Real system calls: `fork`, `execvp`, `select`, `waitpid`, `sigaction`, `fcntl` and `kill` are parameters or steps of the environment.
- The child side of `spawn_proc`, its exit codes 100 to 106 and `handle_proc_return_code`.
- The bits of wait statuses: a status says that the child runs or that it has ended.
- The loop type EXTERNAL, the libevent glue, error strings, printing of statuses, the Apple version of `pipe2`.
- C++ object lifetime, such as callbacks erased while they run and rehashing of tables on insertion; FD_SETSIZE; overflow of sizes kept in `int`.
- `queue_buffer::state`, a copy of the items under the mutex.
- SelectEvent.Loop.RunLoop: the callbacks meet the assertions in add and remove, as the source demands of them.
- SelectEvent.SweepIsWalk: for passes in which no descriptor of the snapshot is registered anew; `CalledOnceIffAhead` and `ReusedIffAhead` speak about the others.
- SigchldHandler.Handler.Drain: `waitpid` fails only with ECHILD or EINTR, and `sigprocmask` does not fail.
- SigchldHandler.Handler.Serve: the children stay in the process group that `waitpid(0, ...)` asks for. Failures to install or remove the handler are not modelled.
- Process.Pexec.constructor: BUFFER_SIZE is at least 2; with 1 every read would ask for no bytes.
- Process.Pexec.Exec: the descriptors of the loop that a blocking call creates inside itself are not among those counted; `sigprocmask` does not fail; a byte in the signal pipe is part of a whole record. The condition on `args_c_` after a successful parse always holds and has no branch here.
- Process.Pexec.ReadStdRest: a read that returns 0 is repeated by the source without end; it cannot occur while this program holds the write end of the pipe, and has no branch here.
- Process.Pexec.PrepareForkPipes: a pipe is a pair of descriptors in a record instead of an array of two `int`.
- Process.Pexec.Serve: reports after the terminal state are not passed on; that `pexec_multi` makes none is `MultiGuarantees.RunsAreSafe`.
- MultiInvariant.StepKeeps: callbacks are atomic, but for that of the signal pipe, in which anything may happen to children and signals between two system calls. A user callback that calls `exec` or `stop` on the same object appears as the steps of a producer just before the callback in which it runs, so that its job precedes a sentinel that this callback posts.
- MultiModel.Enabled: a `user_stop` is for an active process. `stopped()` does not reset `user_stop_fd` (`src/pexec/pexec_single.h:399-403`), so a call after the end of the process writes to whatever then has that descriptor number; this is not modelled.
- MultiInvariant.SpawnJobKeeps: a spawn succeeds, as the source asserts; failing starts are in `Process`.
- MultiGuarantees.EverySpawnAccounted: the user sets an on-stop callback; without one the call is empty.
- MultiShutdown.ShutdownTerminates: no new jobs are submitted; a signal that is pending and not blocked has been delivered when `select` returns; and `select` reports what can be read. Passes that begin while a producer is between `add` and its write are not counted.
- PexecMultiClass.PexecMulti.JobSpawnProc: the pid and the descriptors are given.
- PexecMultiClass.PexecMulti.OnSigchldReadable: the callbacks for reaped children run after the last `waitpid` instead of between the calls; `SignalsCommute` says that this makes no difference.
- PexecMultiClass.PexecMulti.RunPass: it is some legal pass over what `select` has reported; which one the choices of the round lead to is not stated.
- PexecMultiClass.PexecMulti.Start: `select` fails only with EINTR, and the SIGCHLD handler can be installed.
