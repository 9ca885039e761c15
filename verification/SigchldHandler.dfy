/** `sigchld_handler`: SIGCHLD arrives through a signal handler that writes one `int` to a non-blocking pipe, and the
    event loop reads one record at a time and drains `waitpid`.

    SIGCHLD does not queue: exits that happen while it is pending or masked coalesce into one delivery, and a write to a
    full pipe is dropped. The question is whether an exited child can be forgotten. The kernel follows POSIX.1-2017: XSH
    2.4.1 for pending and blocked signals, and `write()` for the atomicity of pipe writes of at most PIPE_BUF bytes.

    A callback of the event loop is a sequence of system calls with anything happening in between (`IsCallback`). What
    every such sequence does is proved first; the class then makes them. */
module SigchldHandler {
  import opened Events

  type Pid = nat
  type Byte = b: int | 0 <= b < 256

  const SIGCHLD: Byte := 17
  const INT_SIZE: nat := 4

  /** The bytes of the `int` SIGCHLD on a little-endian machine. */
  const RECORD: seq<Byte> := [SIGCHLD, 0, 0, 0]

  function Records(n: nat): seq<Byte> {
    if n == 0 then [] else Records(n - 1) + RECORD
  }

  lemma {:induction false} RecordsLength(n: nat)
    ensures |Records(n)| == INT_SIZE * n
  {
    if n > 0 {
      RecordsLength(n - 1);
    }
  }

  lemma {:induction false} RecordsAt(n: nat, i: nat)
    requires i < INT_SIZE * n
    ensures |Records(n)| == INT_SIZE * n && Records(n)[i] == RECORD[i % INT_SIZE]
  {
    RecordsLength(n);
    RecordsLength(n - 1);
    if i < INT_SIZE * (n - 1) {
      RecordsAt(n - 1, i);
    }
  }

  // ---------------------------------------------------------------------------------------------------------------
  // The kernel

  /** `children` are not reaped yet; those that have exited are `zombies`. `watched` are the children forked since the
      handler was installed; zombies left by earlier runs are not. `written` counts the records that found room in the
      pipe, `got` the bytes that were read from it. */
  datatype Kernel = Kernel(
    children: set<Pid>,
    zombies: set<Pid>,
    watched: set<Pid>,
    pending: bool,
    blocked: bool,
    pipe: seq<Byte>,
    capacity: nat,
    written: nat,
    got: nat)

  /** What may happen at any point between two system calls. `OtherSigchld` is a child that stops or continues. */
  datatype Event = Exit(pid: Pid) | OtherSigchld | Deliver

  /** Delivery runs the handler, whose write either fits or is dropped. The mask is that of the event loop's thread, and
      another thread of the program may take a signal that this one has blocked. */
  function Delivered(k: Kernel): Kernel {
    if !k.pending then k
    else if |k.pipe| + INT_SIZE <= k.capacity then
      k.(pending := false, pipe := k.pipe + RECORD, written := k.written + 1)
    else k.(pending := false)
  }

  function Happen(k: Kernel, e: Event): Kernel {
    match e
    case Exit(pid) =>
      if pid in k.children then k.(zombies := k.zombies + {pid}, pending := true) else k
    case OtherSigchld => k.(pending := true)
    case Deliver => Delivered(k)
  }

  /** No exited child is stranded: one that waits to be reaped has a signal pending or a record in the pipe. */
  ghost predicate Safe(k: Kernel) {
    k.watched * k.zombies != {} ==> k.pending || k.pipe != []
  }

  /** The pipe holds the records that were written, less the bytes that were read. */
  ghost predicate Framed(k: Kernel) {
    && k.capacity >= INT_SIZE && k.zombies <= k.children
    && k.got <= INT_SIZE * k.written == |Records(k.written)|
    && k.pipe == Records(k.written)[k.got..]
  }

  /** A new handler: an empty pipe, and nothing forked yet. */
  function Installed(k: Kernel, capacity: nat): Kernel {
    k.(watched := {}, blocked := false, pipe := [], capacity := capacity, written := 0, got := 0)
  }

  function Forked(k: Kernel, pid: Pid): Kernel {
    k.(children := k.children + {pid}, watched := k.watched + {pid})
  }

  // ---------------------------------------------------------------------------------------------------------------
  // A callback as a sequence of system calls

  /** `Reaped` and `NoneLeft` are returns of `waitpid`; calls that are interrupted have no effect and are left out. */
  datatype Call =
    | Lapse(event: Event)
    | Got(n: nat)
    | Mask
    | Reaped(pid: Pid)
    | NoneLeft
    | Unmask

  /** Where `read_signal` and `handle_sigchld` are; `Reading(from)` has `from` bytes of the record. */
  datatype Stage = Reading(from: nat) | Masking | Draining | Unmasking | Done

  function Effect(k: Kernel, c: Call): Kernel {
    match c
    case Lapse(e) => Happen(k, e)
    case Got(n) => if n <= |k.pipe| then k.(pipe := k.pipe[n..], got := k.got + n) else k
    case Mask => k.(blocked := true)
    case Reaped(pid) => k.(children := k.children - {pid}, zombies := k.zombies - {pid})
    case NoneLeft => k
    case Unmask => Delivered(k.(blocked := false))
  }

  predicate Possible(k: Kernel, s: Stage, c: Call) {
    match c
    case Lapse(_) => true
    case Got(n) => s.Reading? && 0 < n <= INT_SIZE - s.from && n <= |k.pipe|
    case Mask => s == Masking
    case Reaped(pid) => s == Draining && pid in k.zombies
    case NoneLeft => s == Draining && k.zombies == {}
    case Unmask => s == Unmasking
  }

  function Then(s: Stage, c: Call): Stage {
    match c
    case Lapse(_) => s
    case Got(n) => if s.Reading? && s.from + n < INT_SIZE then Reading(s.from + n) else Masking
    case Mask => Draining
    case Reaped(_) => s
    case NoneLeft => Unmasking
    case Unmask => Done
  }

  function Effects(k: Kernel, calls: seq<Call>): Kernel
    decreases |calls|
  {
    if calls == [] then k else Effects(Effect(k, calls[0]), calls[1..])
  }

  function Stages(s: Stage, calls: seq<Call>): Stage
    decreases |calls|
  {
    if calls == [] then s else Stages(Then(s, calls[0]), calls[1..])
  }

  predicate AllPossible(k: Kernel, s: Stage, calls: seq<Call>)
    decreases |calls|
  {
    calls == [] ||
    (Possible(k, s, calls[0]) && AllPossible(Effect(k, calls[0]), Then(s, calls[0]), calls[1..]))
  }

  /** One call of `read_signal` that finds a record. */
  predicate IsCallback(k: Kernel, calls: seq<Call>) {
    AllPossible(k, Reading(0), calls) && Stages(Reading(0), calls) == Done
  }

  function ReapedIn(calls: seq<Call>): seq<Pid> {
    if calls == [] then []
    else if calls[0].Reaped? then [calls[0].pid] + ReapedIn(calls[1..])
    else ReapedIn(calls[1..])
  }

  lemma {:induction false} CallsSnoc(k: Kernel, s: Stage, calls: seq<Call>, c: Call)
    requires AllPossible(k, s, calls) && Possible(Effects(k, calls), Stages(s, calls), c)
    ensures AllPossible(k, s, calls + [c])
    ensures Effects(k, calls + [c]) == Effect(Effects(k, calls), c)
    ensures Stages(s, calls + [c]) == Then(Stages(s, calls), c)
    ensures ReapedIn(calls + [c]) == ReapedIn(calls) + if c.Reaped? then [c.pid] else []
    decreases |calls|
  {
    if calls == [] {
      assert [] + [c] == [c] && [c][1..] == [];
    } else {
      assert (calls + [c])[0] == calls[0] && (calls + [c])[1..] == calls[1..] + [c];
      CallsSnoc(Effect(k, calls[0]), Then(s, calls[0]), calls[1..], c);
    }
  }

  // ---------------------------------------------------------------------------------------------------------------
  // What a callback keeps

  /** What holds at each stage. While a record is read and while `waitpid` is drained a child may be stranded for a
      moment: its record has been read, and the drain is still to come. */
  ghost predicate Sound(k: Kernel, s: Stage) {
    && Framed(k)
    && k.got % INT_SIZE == (if s.Reading? then s.from else 0)
    && k.blocked == (s == Draining || s == Unmasking)
    && (s == Reading(0) || s == Unmasking || s == Done ==> Safe(k))
  }

  lemma DeliveredKeepsFrames(k: Kernel)
    requires Framed(k)
    ensures Framed(Delivered(k)) && (Safe(k) ==> Safe(Delivered(k)))
  {
    RecordsLength(k.written + 1);
    var all := Records(k.written);
    assert all[k.got..] + RECORD == (all + RECORD)[k.got..];
  }

  /** Neither the framing nor the safety of the pipe depends on what happens when, or on how signals coalesce. */
  lemma HappenKeeps(k: Kernel, e: Event)
    requires Framed(k)
    ensures Framed(Happen(k, e)) && (Safe(k) ==> Safe(Happen(k, e)))
    ensures Happen(k, e).got == k.got && Happen(k, e).blocked == k.blocked && k.pipe <= Happen(k, e).pipe
  {
    DeliveredKeepsFrames(k);
  }

  /** A read of up to the rest of the current record yields the next bytes of that record. */
  lemma ReadKeepsFrames(k: Kernel, n: nat)
    requires Framed(k) && n <= |k.pipe| && k.got % INT_SIZE + n <= INT_SIZE
    ensures Framed(Effect(k, Got(n)))
    ensures var from := k.got % INT_SIZE; k.pipe[..n] == RECORD[from..from + n]
  {
    var from := k.got % INT_SIZE;
    forall i | 0 <= i < n ensures k.pipe[i] == RECORD[from..from + n][i] {
      RecordsAt(k.written, k.got + i);
    }
  }

  lemma GotKeepsSound(k: Kernel, s: Stage, n: nat)
    requires Sound(k, s) && Possible(k, s, Got(n))
    ensures Sound(Effect(k, Got(n)), Then(s, Got(n)))
  {
    ReadKeepsFrames(k, n);
    BytesOfRecord(k.got, s.from, n);
  }

  /** Where in a record a read ends. */
  lemma BytesOfRecord(got: nat, from: nat, n: nat)
    requires got % INT_SIZE == from && from + n <= INT_SIZE
    ensures (got + n) % INT_SIZE == if from + n < INT_SIZE then from + n else 0
  {}

  lemma CallKeepsSound(k: Kernel, s: Stage, c: Call)
    requires Sound(k, s) && Possible(k, s, c)
    ensures Sound(Effect(k, c), Then(s, c))
  {
    match c
    case Lapse(e) => HappenKeeps(k, e);
    case Got(n) => GotKeepsSound(k, s, n);
    case Unmask => DeliveredKeepsFrames(k.(blocked := false));
    case Mask =>
    case Reaped(_) =>
    case NoneLeft =>
  }

  lemma {:induction false} CallsKeepSound(k: Kernel, s: Stage, calls: seq<Call>)
    requires Sound(k, s) && AllPossible(k, s, calls)
    ensures Sound(Effects(k, calls), Stages(s, calls))
    decreases |calls|
  {
    if calls != [] {
      CallKeepsSound(k, s, calls[0]);
      CallsKeepSound(Effect(k, calls[0]), Then(s, calls[0]), calls[1..]);
    }
  }

  /** The bytes still to be read. */
  function Missing(s: Stage): nat {
    if s.Reading? && s.from < INT_SIZE then INT_SIZE - s.from else 0
  }

  lemma {:induction false} BytesRead(k: Kernel, s: Stage, calls: seq<Call>)
    requires AllPossible(k, s, calls)
    ensures Effects(k, calls).got == k.got + Missing(s) - Missing(Stages(s, calls))
    decreases |calls|
  {
    if calls != [] {
      BytesRead(Effect(k, calls[0]), Then(s, calls[0]), calls[1..]);
    }
  }

  lemma OneMore(children: set<Pid>, pid: Pid, left: multiset<Pid>, rest: seq<Pid>)
    requires pid in children && multiset(children - {pid}) == left + multiset(rest)
    ensures multiset(children) == left + multiset([pid] + rest)
  {
    assert multiset(children) == multiset(children - {pid}) + multiset{pid};
    assert multiset([pid] + rest) == multiset{pid} + multiset(rest);
  }

  lemma CallChildren(k: Kernel, s: Stage, c: Call)
    requires Possible(k, s, c) && k.zombies <= k.children
    ensures var n := Effect(k, c);
            && n.children == (if c.Reaped? then k.children - {c.pid} else k.children)
            && n.watched == k.watched && n.capacity == k.capacity && n.zombies <= n.children
  {}

  /** `waitpid` returns each child at most once, and nothing else removes one. */
  lemma {:induction false} ChildrenConserved(k: Kernel, s: Stage, calls: seq<Call>)
    requires AllPossible(k, s, calls) && k.zombies <= k.children
    ensures multiset(k.children) == multiset(Effects(k, calls).children) + multiset(ReapedIn(calls))
    ensures Effects(k, calls).watched == k.watched && Effects(k, calls).zombies <= Effects(k, calls).children
    ensures Effects(k, calls).capacity == k.capacity
    decreases |calls|
  {
    if calls != [] {
      var c, rest := calls[0], calls[1..];
      var n := Effect(k, c);
      CallChildren(k, s, c);
      ChildrenConserved(n, Then(s, c), rest);
      if c.Reaped? {
        OneMore(k.children, c.pid, multiset(Effects(n, rest).children), ReapedIn(rest));
      }
    }
  }

  /** `waitpid` is called until no child is left that has exited; so one that has exited before is returned. */
  lemma {:induction false} ZombiesReaped(k: Kernel, s: Stage, calls: seq<Call>, p: Pid)
    requires AllPossible(k, s, calls) && p in k.zombies && s != Unmasking && s != Done
    requires Stages(s, calls) == Unmasking || Stages(s, calls) == Done
    ensures p in ReapedIn(calls)
    decreases |calls|
  {
    var c, rest := calls[0], calls[1..];
    if c != Reaped(p) {
      ZombiesReaped(Effect(k, c), Then(s, c), rest, p);
    }
  }

  /** What is reaped was a child, and is none any more; the others still are. */
  lemma {:induction false} ReapedWereChildren(k: Kernel, s: Stage, calls: seq<Call>)
    requires AllPossible(k, s, calls) && k.zombies <= k.children
    ensures Distinct(ReapedIn(calls)) && forall p | p in ReapedIn(calls) :: p in k.children
    ensures Effects(k, calls).children == k.children - set p | p in ReapedIn(calls)
    decreases |calls|
  {
    if calls != [] {
      var c, rest := calls[0], calls[1..];
      ReapedWereChildren(Effect(k, c), Then(s, c), rest);
      if c.Reaped? {
        DistinctCons(c.pid, ReapedIn(rest));
      }
    }
  }

  /** Every callback, however it is interleaved with exits, deliveries and dropped writes: it consumes one record, reaps
      every child that had exited when it began, each once, and leaves no child stranded. */
  lemma CallbackReaps(k: Kernel, calls: seq<Call>)
    requires Sound(k, Reading(0)) && IsCallback(k, calls)
    ensures var n := Effects(k, calls);
            && Sound(n, Reading(0)) && n.got == k.got + INT_SIZE && n.watched == k.watched
            && multiset(k.children) == multiset(n.children) + multiset(ReapedIn(calls))
            && forall p | p in k.zombies :: p in ReapedIn(calls)
  {
    CallsKeepSound(k, Reading(0), calls);
    BytesRead(k, Reading(0), calls);
    ChildrenConserved(k, Reading(0), calls);
    forall p | p in k.zombies ensures p in ReapedIn(calls) {
      ZombiesReaped(k, Reading(0), calls, p);
    }
  }

  // ---------------------------------------------------------------------------------------------------------------
  // The handler

  /** The environment's turn before a system call: what happens, whether the call is interrupted, and, for a read, how
      many bytes it returns if fewer than it could. */
  datatype Turn = Turn(events: seq<Event>, interrupted: bool, short: nat) {
    function Amount(want: nat, available: nat): (n: nat)
      requires want > 0 && available > 0
      ensures 0 < n <= want && n <= available
    {
      var most := if want < available then want else available;
      if 0 < short < most then short else most
    }
  }

  datatype WaitResult = Child(pid: Pid) | NoneAvailable | NoChild | WaitInterrupted

  datatype ReadResult = Data(data: seq<Byte>) | WouldBlock | ReadInterrupted

  /** What the event loop sees of a handler: a fork, something that happens, or a readable signal pipe. */
  datatype Act = Fork(pid: Pid) | Lapsed(event: Event) | Ready

  /** What is conserved by each of two runs is conserved by both together. */
  lemma Conserved(all: multiset<Pid>, forked: seq<Pid>, more: seq<Pid>, was: multiset<Pid>, now: multiset<Pid>,
                  reaped: seq<Pid>, gone: seq<Pid>)
    requires all + multiset(forked) == was + multiset(reaped)
    requires was + multiset(more) == now + multiset(gone)
    ensures all + multiset(forked + more) == now + multiset(reaped + gone)
  {
    assert multiset(forked + more) == multiset(forked) + multiset(more);
    assert multiset(reaped + gone) == multiset(reaped) + multiset(gone);
    BagsAdd(all, multiset(forked), multiset(more), was, now, multiset(reaped), multiset(gone));
  }

  lemma BagsAdd(a: multiset<Pid>, f: multiset<Pid>, m: multiset<Pid>, b: multiset<Pid>, c: multiset<Pid>,
                r: multiset<Pid>, g: multiset<Pid>)
    requires a + f == b + r && b + m == c + g
    ensures a + (f + m) == c + (r + g)
  {
    forall p: Pid ensures (a + (f + m))[p] == (c + (r + g))[p] {
      assert (a + f)[p] == (b + r)[p] && (b + m)[p] == (c + g)[p];
    }
  }

  class Handler {
    const world: seq<Turn>
    var clock: nat
    var kernel: Kernel
    var signalled: seq<Pid>  // the calls of the `on_signal` callback

    // the calls made since the callback began
    ghost var start: Kernel
    ghost var calls: seq<Call>
    ghost var stage: Stage

    /** Between two callbacks. */
    ghost predicate Valid()
      reads this
    {
      Sound(kernel, Reading(0))
    }

    /** During a callback. */
    ghost predicate Tracked()
      reads this
    {
      && Sound(kernel, stage)
      && AllPossible(start, Reading(0), calls)
      && kernel == Effects(start, calls) && stage == Stages(Reading(0), calls)
    }

    constructor (world: seq<Turn>, kernel: Kernel, capacity: nat)
      requires capacity >= INT_SIZE && kernel.zombies <= kernel.children
      ensures Valid() && this.kernel == Installed(kernel, capacity) && signalled == []
    {
      this.world := world;
      clock := 0;
      this.kernel := Installed(kernel, capacity);
      signalled := [];
      start, calls, stage := kernel, [], Done;
    }

    function TurnsLeft(): nat
      reads this
    {
      if clock < |world| then |world| - clock else 0
    }

    /** The effect of a call on the system. */
    method Apply(c: Call)
      requires Tracked() && Possible(kernel, stage, c)
      modifies this`kernel, this`calls, this`stage
      ensures Tracked() && kernel == Effect(old(kernel), c)
      ensures stage == Then(old(stage), c) && start == old(start)
      ensures ReapedIn(calls) == ReapedIn(old(calls)) + if c.Reaped? then [c.pid] else []
    {
      CallsSnoc(start, Reading(0), calls, c);
      CallKeepsSound(kernel, stage, c);
      kernel := Effect(kernel, c);
      calls := calls + [c];
      stage := Then(stage, c);
    }

    method Elapse() returns (turn: Turn)
      requires Tracked()
      modifies this`clock, this`kernel, this`calls
      ensures Tracked()
      ensures ReapedIn(calls) == ReapedIn(old(calls))
      ensures old(kernel.pipe) <= kernel.pipe && kernel.children == old(kernel.children) && kernel.got == old(kernel.got)
      ensures TurnsLeft() <= old(TurnsLeft()) && (turn.interrupted ==> TurnsLeft() < old(TurnsLeft()))
    {
      turn := if clock < |world| then world[clock] else Turn([], false, 0);
      ghost var was := stage;
      for i := 0 to |turn.events|
        invariant Tracked() && stage == was && clock == old(clock)
        invariant ReapedIn(calls) == ReapedIn(old(calls))
        invariant old(kernel.pipe) <= kernel.pipe && kernel.children == old(kernel.children) && kernel.got == old(kernel.got)
      {
        HappenKeeps(kernel, turn.events[i]);
        Happens(turn.events[i]);
      }
      clock := clock + 1;
    }

    method Happens(e: Event)
      requires Tracked()
      modifies this`kernel, this`calls
      ensures Tracked() && kernel == Happen(old(kernel), e)
      ensures ReapedIn(calls) == ReapedIn(old(calls))
    {
      CallsSnoc(start, Reading(0), calls, Lapse(e));
      CallKeepsSound(kernel, stage, Lapse(e));
      kernel := Happen(kernel, e);
      calls := calls + [Lapse(e)];
    }

    /** `waitpid(0, &status, WNOHANG)`. */
    method WaitPid() returns (r: WaitResult)
      requires Tracked() && stage == Draining
      modifies this`clock, this`kernel, this`calls, this`stage
      ensures Tracked() && start == old(start)
      ensures stage == if r == NoneAvailable || r == NoChild then Unmasking else Draining
      ensures ReapedIn(calls) == ReapedIn(old(calls)) + if r.Child? then [r.pid] else []
      ensures r == NoneAvailable || r == NoChild ==> kernel.zombies == {}
      ensures TurnsLeft() <= old(TurnsLeft())
      ensures r.Child? ==> |kernel.children| < old(|kernel.children|)
      ensures r == WaitInterrupted ==> |kernel.children| == old(|kernel.children|) && TurnsLeft() < old(TurnsLeft())
    {
      var turn := Elapse();
      if turn.interrupted {
        return WaitInterrupted;
      }
      if kernel.zombies != {} {
        var pid :| pid in kernel.zombies;
        ghost var left := kernel.children - {pid};
        assert kernel.children == left + {pid};
        Apply(Reaped(pid));
        return Child(pid);
      }
      Apply(NoneLeft);
      r := if kernel.children != {} then NoneAvailable else NoChild;
    }

    /** `read` of what is missing from a record, of which `from` bytes have been read. */
    method Read(from: nat, want: nat) returns (r: ReadResult)
      requires Tracked() && from < INT_SIZE && stage == Reading(from) && want == INT_SIZE - from
      modifies this`clock, this`kernel, this`calls, this`stage
      ensures Tracked() && start == old(start) && ReapedIn(calls) == ReapedIn(old(calls))
      ensures TurnsLeft() <= old(TurnsLeft())
      ensures match r
              case ReadInterrupted =>
                TurnsLeft() < old(TurnsLeft()) && stage == old(stage) && old(kernel.pipe) <= kernel.pipe
              case WouldBlock => from == 0 && old(kernel.pipe) == [] && stage == old(stage)
              case Data(data) =>
                && 0 < |data| <= want && data == RECORD[from..from + |data|]
                && stage == Then(old(stage), Got(|data|))
    {
      var turn := Elapse();
      if turn.interrupted {
        return ReadInterrupted;
      }
      if kernel.pipe == [] {
        return WouldBlock;
      }
      var n := turn.Amount(want, |kernel.pipe|);
      r := Data(kernel.pipe[..n]);
      ReadKeepsFrames(kernel, n);
      Apply(Got(n));
    }

    /** `block_sigchld`. */
    method Block()
      requires Tracked() && stage == Masking
      modifies this`clock, this`kernel, this`calls, this`stage
      ensures Tracked() && start == old(start) && stage == Draining && ReapedIn(calls) == ReapedIn(old(calls))
    {
      var _ := Elapse();
      Apply(Mask);
    }

    /** `unblock_sigchld`; a pending signal is delivered before `sigprocmask` returns. */
    method Unblock()
      requires Tracked() && stage == Unmasking
      modifies this`clock, this`kernel, this`calls, this`stage
      ensures Tracked() && start == old(start) && stage == Done && !kernel.pending
      ensures ReapedIn(calls) == ReapedIn(old(calls))
    {
      var _ := Elapse();
      Apply(Unmask);
    }

    /** The `waitpid` loop: every child it returns is reported, until none that has exited is left. */
    method Drain() returns (ghost reaped: seq<Pid>)
      requires Tracked() && stage == Draining
      modifies this`clock, this`kernel, this`signalled, this`calls, this`stage
      ensures Tracked() && start == old(start) && stage == Unmasking && kernel.zombies == {}
      ensures signalled == old(signalled) + reaped && ReapedIn(calls) == old(ReapedIn(calls)) + reaped
    {
      reaped := [];
      while true
        invariant Tracked() && start == old(start) && stage == Draining
        invariant signalled == old(signalled) + reaped && ReapedIn(calls) == old(ReapedIn(calls)) + reaped
        decreases |kernel.children|, TurnsLeft()
      {
        var r := WaitPid();
        match r
        case NoChild => break;
        case NoneAvailable => break;
        case WaitInterrupted => continue;
        case Child(pid) =>
          signalled := signalled + [pid];
          reaped := reaped + [pid];
      }
    }

    /** `handle_sigchld`. */
    method HandleSigchld() returns (ghost reaped: seq<Pid>)
      requires Tracked() && stage == Masking
      modifies this`clock, this`kernel, this`signalled, this`calls, this`stage
      ensures Tracked() && start == old(start) && stage == Done && !kernel.pending
      ensures signalled == old(signalled) + reaped && ReapedIn(calls) == old(ReapedIn(calls)) + reaped
    {
      Block();
      reaped := Drain();
      Unblock();
    }

    /** The loop of `read_signal`; `missing` is what it has not read. */
    method ReadRecord() returns (bytes: seq<Byte>, missing: nat)
      requires Tracked() && stage == Reading(0)
      modifies this`clock, this`kernel, this`calls, this`stage
      ensures Tracked() && start == old(start) && ReapedIn(calls) == ReapedIn(old(calls))
      ensures missing == 0 ==> bytes == RECORD && stage == Masking
      ensures missing != 0 ==> old(kernel.pipe) == [] && stage == Reading(0)
    {
      bytes := [];
      var readFrom, wantRead := 0, INT_SIZE;
      while wantRead != 0
        invariant 0 <= readFrom <= INT_SIZE && readFrom + wantRead == INT_SIZE
        invariant bytes == RECORD[..readFrom]
        invariant Tracked() && start == old(start) && stage == if wantRead > 0 then Reading(readFrom) else Masking
        invariant ReapedIn(calls) == ReapedIn(old(calls))
        invariant readFrom == 0 ==> old(kernel.pipe) <= kernel.pipe
        decreases wantRead, TurnsLeft()
      {
        var rc := Read(readFrom, wantRead);
        match rc
        case ReadInterrupted => continue;
        case WouldBlock => break;
        case Data(data) =>
          bytes := bytes + data;
          readFrom, wantRead := readFrom + |data|, wantRead - |data|;
      }
      missing := wantRead;
    }

    /** `read_signal`. With a record in the pipe it never says STOP_LOOP. */
    method ReadSignal() returns (ret: EventReturn)
      requires Valid()
      modifies this`clock, this`kernel, this`signalled, this`start, this`calls, this`stage
      ensures Valid()
      ensures ret == Nothing || ret == StopLoop
      ensures old(kernel.pipe) != [] ==> ret == Nothing
      ensures ret == Nothing ==>
                && IsCallback(old(kernel), calls) && kernel == Effects(old(kernel), calls) && !kernel.pending
                && signalled == old(signalled) + ReapedIn(calls)
      ensures ret == StopLoop ==> signalled == old(signalled) && kernel.children == old(kernel.children)
    {
      start, calls, stage := kernel, [], Reading(0);
      var bytes, missing := ReadRecord();
      if missing != 0 {
        ReapedWereChildren(start, Reading(0), calls);
        return StopLoop;
      }
      if bytes == RECORD {
        ghost var reaped := HandleSigchld();
      }
      ret := Nothing;
    }

    /** A child is forked. */
    method Fork(pid: Pid)
      modifies this`kernel
      ensures kernel == Forked(old(kernel), pid)
      ensures old(Valid()) && pid !in old(kernel.children) ==> Valid()
    {
      kernel := Forked(kernel, pid);
    }

    /** Something happens while no callback runs. */
    method Lapses(e: Event)
      requires Valid()
      modifies this`kernel
      ensures Valid() && kernel == Happen(old(kernel), e)
    {
      HappenKeeps(kernel, e);
      kernel := Happen(kernel, e);
    }

    /** One `act`; a fork of a pid that is in use cannot happen and is skipped. */
    method React(act: Act) returns (ghost forked: seq<Pid>, ghost reaped: seq<Pid>)
      requires Valid()
      modifies this`clock, this`kernel, this`signalled, this`start, this`calls, this`stage
      ensures Valid() && signalled == old(signalled) + reaped
      ensures multiset(old(kernel.children)) + multiset(forked) == multiset(kernel.children) + multiset(reaped)
      ensures old(kernel.watched) <= kernel.watched && forall p | p in forked :: p in kernel.watched
      ensures forked == if act.Fork? && act.pid !in old(kernel.children) then [act.pid] else []
      ensures Acted(old(kernel), act, kernel, reaped)
      ensures !act.Ready? || old(kernel.pipe) == [] ==> reaped == []
    {
      forked, reaped := [], [];
      match act
      case Fork(pid) =>
        if pid !in kernel.children {
          assert multiset(kernel.children + {pid}) == multiset(kernel.children) + multiset{pid};
          Fork(pid);
          forked := [pid];
        }
      case Lapsed(e) => Lapses(e);
      case Ready =>
        if kernel.pipe != [] {
          ghost var k := kernel;
          var _ := ReadSignal();
          CallbackReaps(k, calls);
          reaped := ReapedIn(calls);
        }
    }

    /** One more act. */
    method ServeOne(act: Act, ghost past: seq<Kernel>, ghost acts: seq<Act>, ghost forked: seq<Pid>, ghost reaped: seq<Pid>)
      returns (ghost forked': seq<Pid>, ghost reaped': seq<Pid>)
      requires Valid() && Past(past, acts, forked, reaped) && past[|acts|] == kernel
      modifies this`clock, this`kernel, this`signalled, this`start, this`calls, this`stage
      ensures Valid() && Past(past + [kernel], acts + [act], forked', reaped')
      ensures exists more :: signalled == old(signalled) + more && reaped' == reaped + more
    {
      ghost var f, r := React(act);
      PastSnoc(past, acts, forked, reaped, kernel, act, f, r);
      forked', reaped' := forked + f, reaped + r;
    }

    /** A run of the event loop. Each child there was or was forked is either still a child or has been reported exactly
        once; and once no signal is pending and no record unread, no child forked in the run is left unreaped. `past` tells
        what was before each act and what is at the end: a readable pipe loses a record and every child that had exited is
        reported. */
    method Serve(acts: seq<Act>) returns (ghost forked: seq<Pid>, ghost reaped: seq<Pid>, ghost past: seq<Kernel>)
      requires Valid()
      modifies this`clock, this`kernel, this`signalled, this`start, this`calls, this`stage
      ensures Valid() && signalled == old(signalled) + reaped
      ensures multiset(old(kernel.children)) + multiset(forked) == multiset(kernel.children) + multiset(reaped)
      ensures forall p | p in forked :: p in kernel.watched
      ensures !kernel.pending && kernel.pipe == [] ==> forall p | p in forked :: p !in kernel.zombies
      ensures |past| == |acts| + 1 && past[0] == old(kernel) && past[|acts|] == kernel
      ensures forked == ForksIn(past, acts)
      ensures forall i | 0 <= i < |acts| :: Acted(past[i], acts[i], past[i + 1], reaped)
    {
      forked, reaped, past := [], [], [kernel];
      for i := 0 to |acts|
        invariant Valid() && signalled == old(signalled) + reaped
        invariant Past(past, acts[..i], forked, reaped) && past[0] == old(kernel) && past[i] == kernel
      {
        assert acts[..i + 1] == acts[..i] + [acts[i]];
        forked, reaped := ServeOne(acts[i], past, acts[..i], forked, reaped);
        past := past + [kernel];
      }
      assert acts[..|acts|] == acts;
      if !kernel.pending && kernel.pipe == [] {
        NoneStranded(kernel, forked);
      }
    }
  }

  lemma NoneStranded(k: Kernel, forked: seq<Pid>)
    requires Safe(k) && !k.pending && k.pipe == [] && forall p | p in forked :: p in k.watched
    ensures forall p | p in forked :: p !in k.zombies
  {
    assert forall p | p in k.watched && p in k.zombies :: p in k.watched * k.zombies;
  }

  /** What an act makes of the system: a readable pipe loses a record, and every child that had exited is reported. */
  predicate Acted(k: Kernel, act: Act, n: Kernel, reaped: seq<Pid>) {
    match act
    case Fork(pid) => n == if pid in k.children then k else Forked(k, pid)
    case Lapsed(e) => n == Happen(k, e)
    case Ready =>
      if k.pipe == [] then n == k
      else n.got == k.got + INT_SIZE && !n.pending && forall p | p in k.zombies :: p in reaped
  }

  /** The fork, if the pid was not in use. */
  function ForkIn(k: Kernel, act: Act): seq<Pid> {
    if act.Fork? && act.pid !in k.children then [act.pid] else []
  }

  function ForksIn(past: seq<Kernel>, acts: seq<Act>): seq<Pid>
    requires |acts| < |past|
    decreases |acts|
  {
    if acts == [] then []
    else ForksIn(past, acts[..|acts| - 1]) + ForkIn(past[|acts| - 1], acts[|acts| - 1])
  }

  lemma {:induction false} ForksOfPast(past: seq<Kernel>, k: Kernel, acts: seq<Act>)
    requires |acts| < |past|
    ensures ForksIn(past + [k], acts) == ForksIn(past, acts)
    decreases |acts|
  {
    if acts != [] {
      ForksOfPast(past, k, acts[..|acts| - 1]);
    }
  }

  /** What is known when `acts` have been done. */
  ghost predicate Past(past: seq<Kernel>, acts: seq<Act>, forked: seq<Pid>, reaped: seq<Pid>) {
    && |past| == |acts| + 1 && forked == ForksIn(past, acts)
    && (forall i | 0 <= i < |acts| :: Acted(past[i], acts[i], past[i + 1], reaped))
    && multiset(past[0].children) + multiset(forked) == multiset(past[|acts|].children) + multiset(reaped)
    && (forall p | p in forked :: p in past[|acts|].watched)
  }

  lemma ActedSnoc(past: seq<Kernel>, acts: seq<Act>, reaped: seq<Pid>, k: Kernel, act: Act, r: seq<Pid>)
    requires |past| == |acts| + 1 && Acted(past[|acts|], act, k, r)
    requires forall i | 0 <= i < |acts| :: Acted(past[i], acts[i], past[i + 1], reaped)
    ensures forall i | 0 <= i < |acts| + 1 :: Acted((past + [k])[i], (acts + [act])[i], (past + [k])[i + 1], reaped + r)
  {
    forall i | 0 <= i < |acts| + 1
      ensures Acted((past + [k])[i], (acts + [act])[i], (past + [k])[i + 1], reaped + r)
    {
      assert i < |acts| ==> Acted(past[i], acts[i], past[i + 1], reaped);
    }
  }

  lemma PastSnoc(past: seq<Kernel>, acts: seq<Act>, forked: seq<Pid>, reaped: seq<Pid>, k: Kernel, act: Act,
                 f: seq<Pid>, r: seq<Pid>)
    requires Past(past, acts, forked, reaped) && f == ForkIn(past[|acts|], act) && Acted(past[|acts|], act, k, r)
    requires multiset(past[|acts|].children) + multiset(f) == multiset(k.children) + multiset(r)
    requires past[|acts|].watched <= k.watched && forall p | p in f :: p in k.watched
    ensures Past(past + [k], acts + [act], forked + f, reaped + r)
  {
    assert (acts + [act])[..|acts|] == acts;
    ForksOfPast(past, k, acts);
    ActedSnoc(past, acts, reaped, k, act, r);
    Conserved(multiset(past[0].children), forked, f, multiset(past[|acts|].children), multiset(k.children), reaped, r);
  }
}
