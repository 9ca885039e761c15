/** `select_event`: a `select` loop over a table of read callbacks.

    The loop walks the table while the callbacks it invokes add and remove entries, the current one included. Removal
    repairs the loop's own iterator (`actual_iterator_cbs_`) and tells the loop, through a flag
    (`actual_iterator_deleted_`), not to advance it.

    There are two references. `Sweep` knows no iterator: it splits the table into the entries passed and those ahead. `Walk`
    knows no table: it takes a snapshot of the ready descriptors and calls each that is still registered at its turn. The
    loop is a sweep, whatever its callbacks do; and a sweep is a walk unless a callback registers a descriptor of the
    snapshot anew. */
module SelectEvent {
  import opened Events

  /** What a callback does to the loop's table: `pos` is where the hash table happens to place a new entry. */
  datatype Op = Add(fd: Fd, pos: nat) | Remove(fd: Fd)

  datatype Reaction = Reaction(ops: seq<Op>, ret: EventReturn)

  // ---------------------------------------------------------------------------------------------------------------
  // Sequences without repetition

  function Members(s: seq<Fd>): set<Fd> {
    set f | f in s
  }

  function Without(s: seq<Fd>, fd: Fd): seq<Fd> {
    if s == [] then [] else if s[0] == fd then s[1..] else [s[0]] + Without(s[1..], fd)
  }

  function Insert(s: seq<Fd>, pos: nat, fd: Fd): seq<Fd> {
    var p := if pos <= |s| then pos else |s|;
    s[..p] + [fd] + s[p..]
  }

  lemma DistinctTail(s: seq<Fd>)
    requires s != []
    ensures Distinct(s) <==> Distinct(s[1..]) && s[0] !in s[1..]
    ensures Members(s) == {s[0]} + Members(s[1..])
  {
    assert s == [s[0]] + s[1..];
    if Distinct(s[1..]) && s[0] !in s[1..] {
      DistinctCons(s[0], s[1..]);
    }
  }

  lemma {:induction false} DistinctParts(a: seq<Fd>, b: seq<Fd>)
    ensures Distinct(a + b) <==> Distinct(a) && Distinct(b) && Members(a) !! Members(b)
    ensures Members(a + b) == Members(a) + Members(b)
  {
    if a == [] {
      assert a + b == b;
    } else {
      assert (a + b)[0] == a[0] && (a + b)[1..] == a[1..] + b;
      DistinctTail(a);
      DistinctTail(a + b);
      DistinctParts(a[1..], b);
    }
  }

  lemma {:induction false} WithoutMembers(s: seq<Fd>, fd: Fd)
    requires Distinct(s)
    ensures Distinct(Without(s, fd)) && Members(Without(s, fd)) == Members(s) - {fd}
    ensures fd !in s ==> Without(s, fd) == s
  {
    if s != [] {
      DistinctTail(s);
      WithoutMembers(s[1..], fd);
      if s[0] != fd {
        var w := Without(s[1..], fd);
        assert s[0] !in w by {
          assert s[0] !in Members(w);
        }
        DistinctTail([s[0]] + w);
      }
    }
  }

  lemma {:induction false} WithoutFirst(a: seq<Fd>, b: seq<Fd>, fd: Fd)
    ensures Without(a + b, fd) == if fd in a then Without(a, fd) + b else a + Without(b, fd)
  {
    if a == [] {
      assert a + b == b && a + Without(b, fd) == Without(b, fd);
    } else {
      assert (a + b)[0] == a[0] && (a + b)[1..] == a[1..] + b;
      assert fd in a <==> fd == a[0] || fd in a[1..];
      if a[0] != fd {
        WithoutFirst(a[1..], b, fd);
        Associative([a[0]], Without(a[1..], fd), b);
        Associative([a[0]], a[1..], Without(b, fd));
        assert a == [a[0]] + a[1..];
      }
    }
  }

  lemma WithoutConcat(a: seq<Fd>, b: seq<Fd>, fd: Fd)
    requires Distinct(a + b)
    ensures Without(a + b, fd) == Without(a, fd) + Without(b, fd)
  {
    DistinctParts(a, b);
    WithoutFirst(a, b, fd);
    WithoutMembers(a, fd);
    WithoutMembers(b, fd);
    if fd in a {
      assert fd in Members(a) && fd !in Members(b);
    }
  }

  lemma InsertMembers(s: seq<Fd>, pos: nat, fd: Fd)
    requires Distinct(s) && fd !in s
    ensures Distinct(Insert(s, pos, fd)) && Members(Insert(s, pos, fd)) == Members(s) + {fd}
  {
    var p := if pos <= |s| then pos else |s|;
    assert s == s[..p] + s[p..];
    DistinctParts(s[..p], s[p..]);
    DistinctTail([fd]);
    DistinctParts(s[..p], [fd]);
    DistinctParts(s[..p] + [fd], s[p..]);
  }

  lemma InsertConcat(a: seq<Fd>, b: seq<Fd>, pos: nat, fd: Fd)
    ensures pos <= |a| ==> Insert(a + b, pos, fd) == Insert(a, pos, fd) + b
    ensures pos > |a| ==> Insert(a + b, pos, fd) == a + Insert(b, pos - |a|, fd)
  {}

  // ---------------------------------------------------------------------------------------------------------------
  // The first reference: a sweep

  /** Where the loop is: the entries it has passed, and those ahead, the first of which is its current one. `deleted` is
      the flag. */
  datatype Place = Place(before: seq<Fd>, ahead: seq<Fd>, deleted: bool)

  function Order(p: Place): seq<Fd> {
    p.before + p.ahead
  }

  /** Nothing is ahead of the end of a table. */
  function Do(p: Place, op: Op): Place {
    match op
    case Add(fd, pos) =>
      if pos <= |p.before| || p.ahead == [] then p.(before := Insert(p.before, pos, fd))
      else p.(ahead := Insert(p.ahead, pos - |p.before|, fd))
    case Remove(fd) =>
      Place(Without(p.before, fd), Without(p.ahead, fd), p.deleted || (p.ahead != [] && p.ahead[0] == fd))
  }

  function DoAll(p: Place, ops: seq<Op>): Place
    decreases |ops|
  {
    if ops == [] then p else DoAll(Do(p, ops[0]), ops[1..])
  }

  /** The assertions in add and remove hold. */
  predicate LegalOp(p: Place, op: Op) {
    match op
    case Add(fd, _) => fd !in Order(p)
    case Remove(fd) => fd in Order(p)
  }

  predicate LegalOps(p: Place, ops: seq<Op>)
    decreases |ops|
  {
    ops == [] || (LegalOp(p, ops[0]) && LegalOps(Do(p, ops[0]), ops[1..]))
  }

  /** To the next entry, unless a removal has led there already. */
  function Step(p: Place): Place {
    if p.deleted || p.ahead == [] then p.(deleted := false)
    else Place(p.before + [p.ahead[0]], p.ahead[1..], false)
  }

  /** How a pass ends; `OutOfScript` when it calls more callbacks than are told about. */
  datatype PassEnd = Complete | CutShort(ret: EventReturn) | OutOfScript

  datatype Outcome = Outcome(calls: seq<Fd>, place: Place, end: PassEnd)

  function Prepend(calls: seq<Fd>, rest: Outcome): Outcome {
    rest.(calls := calls + rest.calls)
  }

  function Sweep(p: Place, ready: set<Fd>, reactions: seq<Reaction>): Outcome
    decreases |reactions|, |p.ahead|, p.deleted
  {
    if p.ahead == [] then Outcome([], p, Complete)
    else if p.ahead[0] !in ready then Sweep(Step(p), ready, reactions)
    else if reactions == [] then Outcome([], p, OutOfScript)
    else
      var after := DoAll(p, reactions[0].ops);
      if reactions[0].ret != Nothing then Outcome([p.ahead[0]], after, CutShort(reactions[0].ret))
      else Prepend([p.ahead[0]], Sweep(Step(after), ready, reactions[1..]))
  }

  predicate LegalSweep(p: Place, ready: set<Fd>, reactions: seq<Reaction>)
    decreases |reactions|, |p.ahead|, p.deleted
  {
    if p.ahead == [] then true
    else if p.ahead[0] !in ready then LegalSweep(Step(p), ready, reactions)
    else if reactions == [] then true
    else
      && LegalOps(p, reactions[0].ops)
      && (reactions[0].ret == Nothing ==> LegalSweep(Step(DoAll(p, reactions[0].ops)), ready, reactions[1..]))
  }

  /** What an operation makes of the whole table. */
  function Edit(order: seq<Fd>, op: Op): seq<Fd> {
    match op
    case Add(fd, pos) => Insert(order, pos, fd)
    case Remove(fd) => Without(order, fd)
  }

  lemma DoToOrder(p: Place, op: Op)
    requires Distinct(Order(p))
    ensures Order(Do(p, op)) == Edit(Order(p), op)
  {
    match op
    case Add(fd, pos) =>
      InsertConcat(p.before, p.ahead, pos, fd);
      if p.ahead == [] {
        assert Order(p) == p.before;
      }
    case Remove(fd) =>
      WithoutConcat(p.before, p.ahead, fd);
  }

  /** An operation keeps the table free of repetition, and changes its keys as its name says. */
  lemma DoToMembers(p: Place, op: Op)
    requires Distinct(Order(p)) && LegalOp(p, op)
    ensures var n := Order(Do(p, op));
            Distinct(n) && Members(n) == if op.Add? then Members(Order(p)) + {op.fd} else Members(Order(p)) - {op.fd}
  {
    DoToOrder(p, op);
    match op
    case Add(fd, pos) => InsertMembers(Order(p), pos, fd);
    case Remove(fd) => WithoutMembers(Order(p), fd);
  }

  lemma {:induction false} DoAllToMembers(p: Place, ops: seq<Op>)
    requires Distinct(Order(p)) && LegalOps(p, ops)
    ensures Distinct(Order(DoAll(p, ops))) && Members(Order(DoAll(p, ops))) == Keys(Members(Order(p)), ops)
    decreases |ops|
  {
    if ops != [] {
      DoToMembers(p, ops[0]);
      DoAllToMembers(Do(p, ops[0]), ops[1..]);
    }
  }

  /** The keys after some operations. */
  function Keys(keys: set<Fd>, ops: seq<Op>): set<Fd>
    decreases |ops|
  {
    if ops == [] then keys
    else Keys(if ops[0].Add? then keys + {ops[0].fd} else keys - {ops[0].fd}, ops[1..])
  }

  // ---------------------------------------------------------------------------------------------------------------
  // The loop

  /** An iterator into the table: at an entry, or past the end. */
  datatype Cursor = At(fd: Fd) | End

  function First(s: seq<Fd>): Cursor {
    if s == [] then End else At(s[0])
  }

  /** The entries that follow `fd`. */
  function After(s: seq<Fd>, fd: Fd): seq<Fd> {
    if s == [] then [] else if s[0] == fd then s[1..] else After(s[1..], fd)
  }

  lemma {:induction false} AfterConcat(a: seq<Fd>, b: seq<Fd>)
    requires Distinct(a + b) && b != []
    ensures After(a + b, b[0]) == b[1..]
  {
    if a == [] {
      assert a + b == b;
    } else {
      assert (a + b)[0] == a[0] && (a + b)[1..] == a[1..] + b;
      DistinctTail(a + b);
      assert b[0] in (a + b)[1..] by {
        assert (a + b)[|a|] == b[0];
      }
      AfterConcat(a[1..], b);
    }
  }

  /** What one return of `select` brings. */
  datatype Poll = Interrupted | Failed | Selected(ready: set<Fd>, reactions: seq<Reaction>)

  /** A loop over an empty table calls `select` no more and never ends; `MidPass` when the script of a pass ends before the
      pass does. */
  datatype LoopEnd = Stopped | SelectError | StillWaiting | MidPass | Spinning

  /** The calls of each pass, and what the passes leave: the table, the deletion flag and where the loop is. */
  datatype LoopResult = LoopResult(trace: seq<seq<Fd>>, order: seq<Fd>, deleted: bool, end: LoopEnd)

  function Recorded(trace: seq<seq<Fd>>, rest: LoopResult): LoopResult {
    rest.(trace := trace + rest.trace)
  }

  /** The reference for whole runs: one sweep for each successful `select`. */
  function Sweeps(order: seq<Fd>, deleted: bool, polls: seq<Poll>): LoopResult
    decreases |polls|
  {
    if order == [] then LoopResult([], order, deleted, Spinning)
    else if polls == [] then LoopResult([], order, deleted, StillWaiting)
    else match polls[0]
      case Interrupted => Sweeps(order, deleted, polls[1..])
      case Failed => LoopResult([], order, deleted, SelectError)
      case Selected(ready, reactions) =>
        var pass := Sweep(Place([], order, deleted), ready, reactions);
        if pass.end == CutShort(StopLoop) then LoopResult([pass.calls], Order(pass.place), pass.place.deleted, Stopped)
        else if pass.end == OutOfScript then LoopResult([pass.calls], Order(pass.place), pass.place.deleted, MidPass)
        else Recorded([pass.calls], Sweeps(Order(pass.place), pass.place.deleted, polls[1..]))
  }

  /** The callbacks meet the assertions in add and remove. */
  predicate LegalLoop(order: seq<Fd>, deleted: bool, polls: seq<Poll>)
    decreases |polls|
  {
    if order == [] || polls == [] then true
    else match polls[0]
      case Interrupted => LegalLoop(order, deleted, polls[1..])
      case Failed => true
      case Selected(ready, reactions) =>
        var pass := Sweep(Place([], order, deleted), ready, reactions);
        && LegalSweep(Place([], order, deleted), ready, reactions)
        && (pass.end != CutShort(StopLoop) && pass.end != OutOfScript ==>
              LegalLoop(Order(pass.place), pass.place.deleted, polls[1..]))
  }

  class Loop {
    var cbs: seq<Fd>           // the keys of the callback table, in iteration order
    var actualIterator: Cursor
    var actualIteratorDeleted: bool
    var recomputeMaxFds: bool
    var maxFd: Fd
    ghost var passed: nat      // how many entries the iterator has passed

    ghost predicate Valid()
      reads this
    {
      && Distinct(cbs)
      && recomputeMaxFds
      && passed <= |cbs|
      && actualIterator == First(cbs[passed..])
    }

    ghost function Where(): (p: Place)
      requires passed <= |cbs|
      reads this
      ensures Order(p) == cbs
    {
      Place(cbs[..passed], cbs[passed..], actualIteratorDeleted)
    }

    constructor (controlFd: Fd)
      ensures Valid() && cbs == [controlFd] && !actualIteratorDeleted && Where() == Place([controlFd], [], false)
    {
      cbs := [controlFd];
      actualIterator := End;
      actualIteratorDeleted := false;
      recomputeMaxFds := true;
      maxFd := -1;
      passed := 1;
    }

    /** `get_max_fd`. Nothing ever clears `recompute_max_fds`, so an entry added later is never overlooked. */
    method GetMaxFd() returns (max: Fd)
      requires Valid()
      modifies this`maxFd
      ensures Valid()
      ensures forall i | 0 <= i < |cbs| :: cbs[i] <= max
      ensures (forall i | 0 <= i < |cbs| :: 0 <= cbs[i]) && cbs != [] ==> max in cbs
    {
      if recomputeMaxFds {
        maxFd := -1;
        for i := 0 to |cbs|
          invariant forall j | 0 <= j < i :: cbs[j] <= maxFd
          invariant maxFd == -1 || maxFd in cbs
        {
          if cbs[i] > maxFd {
            maxFd := cbs[i];
          }
        }
        assert (forall i | 0 <= i < |cbs| :: 0 <= cbs[i]) && cbs != [] ==> 0 <= cbs[0];
      }
      max := maxFd;
    }

    method AddReadEvent(fd: Fd, pos: nat)
      requires Valid() && fd !in cbs
      modifies this`cbs, this`passed
      ensures Valid() && cbs == Insert(old(cbs), pos, fd)
      ensures Where() == Do(old(Where()), Add(fd, pos))
    {
      ghost var p := Where();
      ghost var n := Do(p, Add(fd, pos));
      DoToOrder(p, Add(fd, pos));
      InsertMembers(cbs, pos, fd);
      cbs := Insert(cbs, pos, fd);
      passed := |n.before|;
      assert cbs == n.before + n.ahead;
    }

    method RemoveReadEvent(fd: Fd)
      requires Valid() && fd in cbs
      modifies this`cbs, this`actualIterator, this`actualIteratorDeleted, this`recomputeMaxFds, this`passed
      ensures Valid() && cbs == Without(old(cbs), fd)
      ensures Where() == Do(old(Where()), Remove(fd))
    {
      ghost var p := Where();
      ghost var n := Do(p, Remove(fd));
      DoToOrder(p, Remove(fd));
      WithoutMembers(cbs, fd);
      AheadWithout(p, fd);
      recomputeMaxFds := true;
      if actualIterator == At(fd) {
        actualIteratorDeleted := true;
        actualIterator := First(After(cbs, fd));
      }
      cbs := Without(cbs, fd);
      passed := |n.before|;
      assert cbs == n.before + n.ahead;
    }

    /** The iterator at the first entry. */
    method Begin()
      requires Valid()
      modifies this`actualIterator, this`passed
      ensures Valid() && Where() == Place([], cbs, actualIteratorDeleted)
    {
      actualIterator := First(cbs);
      passed := 0;
    }

    /** To the next entry, unless a removal has led there already. */
    method Advance()
      requires Valid() && (actualIterator == End ==> actualIteratorDeleted)
      modifies this`actualIterator, this`actualIteratorDeleted, this`passed
      ensures Valid() && Where() == Step(old(Where()))
    {
      if !actualIteratorDeleted {
        assert cbs == cbs[..passed] + cbs[passed..];
        AfterConcat(cbs[..passed], cbs[passed..]);
        actualIterator := First(After(cbs, actualIterator.fd));
        passed := passed + 1;
      } else {
        actualIteratorDeleted := false;
      }
    }

    /** One callback: what it does to the table, in order. */
    method React(ops: seq<Op>)
      requires Valid() && LegalOps(Where(), ops)
      modifies this`cbs, this`actualIterator, this`actualIteratorDeleted, this`recomputeMaxFds, this`passed
      ensures Valid() && Where() == DoAll(old(Where()), ops)
    {
      for i := 0 to |ops|
        invariant Valid() && LegalOps(Where(), ops[i..])
        invariant DoAll(Where(), ops[i..]) == DoAll(old(Where()), ops)
      {
        assert ops[i..][0] == ops[i] && ops[i..][1..] == ops[i + 1..];
        match ops[i]
        case Add(fd, pos) => AddReadEvent(fd, pos);
        case Remove(fd) => RemoveReadEvent(fd);
      }
    }

    /** The walk over the table after `select` has returned. */
    method Pass(ready: set<Fd>, reactions: seq<Reaction>) returns (calls: seq<Fd>, end: PassEnd)
      requires Valid() && LegalSweep(Place([], cbs, actualIteratorDeleted), ready, reactions)
      modifies this`cbs, this`actualIterator, this`actualIteratorDeleted, this`recomputeMaxFds, this`passed
      ensures Valid()
      ensures Outcome(calls, Where(), end) == Sweep(Place([], old(cbs), old(actualIteratorDeleted)), ready, reactions)
    {
      calls := [];
      Begin();
      ghost var whole := Sweep(Where(), ready, reactions);
      var left := reactions;
      while actualIterator != End
        invariant Valid() && LegalSweep(Where(), ready, left)
        invariant whole == Prepend(calls, Sweep(Where(), ready, left))
        decreases |left|, |Where().ahead|, actualIteratorDeleted
      {
        var fd := actualIterator.fd;
        if fd in ready {
          if left == [] {
            return calls, OutOfScript;
          }
          var reaction := left[0];
          left := left[1..];
          ghost var before := calls;
          calls := calls + [fd];
          Visit(reaction);
          if reaction.ret != Nothing {
            return calls, CutShort(reaction.ret);
          }
          PrependTwice(before, fd, Sweep(Where(), ready, left));
        } else {
          Advance();
        }
      }
      end := Complete;
    }

    /** The callback of the current entry, and unless it ends the pass the step to the next entry. */
    method Visit(r: Reaction)
      requires Valid() && actualIterator != End && LegalOps(Where(), r.ops)
      modifies this`cbs, this`actualIterator, this`actualIteratorDeleted, this`recomputeMaxFds, this`passed
      ensures Valid()
      ensures Where() == var after := DoAll(old(Where()), r.ops); if r.ret == Nothing then Step(after) else after
    {
      CurrentStays(Where(), r.ops);
      React(r.ops);
      if r.ret == Nothing {
        Advance();
      }
    }

    /** The part of the loop after a return of `select`. */
    method AfterSelect(ready: set<Fd>, reactions: seq<Reaction>) returns (calls: seq<Fd>, end: PassEnd)
      requires Valid() && LegalSweep(Place([], cbs, actualIteratorDeleted), ready, reactions)
      modifies this`cbs, this`actualIterator, this`actualIteratorDeleted, this`recomputeMaxFds, this`passed, this`maxFd
      ensures Valid()
      ensures var pass := Sweep(Place([], old(cbs), old(actualIteratorDeleted)), ready, reactions);
              && calls == pass.calls && end == pass.end
              && cbs == Order(pass.place) && actualIteratorDeleted == pass.place.deleted
    {
      var max := GetMaxFd();
      calls, end := Pass(ready, reactions);
    }

    /** `loop`, driven by what successive calls of `select` return. */
    method RunLoop(polls: seq<Poll>) returns (trace: seq<seq<Fd>>, end: LoopEnd)
      requires Valid() && LegalLoop(cbs, actualIteratorDeleted, polls)
      modifies this`cbs, this`actualIterator, this`actualIteratorDeleted, this`recomputeMaxFds, this`passed, this`maxFd
      ensures Valid()
      ensures LoopResult(trace, cbs, actualIteratorDeleted, end) == Sweeps(old(cbs), old(actualIteratorDeleted), polls)
      decreases |polls|
    {
      trace := [];
      ghost var whole := Sweeps(cbs, actualIteratorDeleted, polls);
      var left := polls;
      while cbs != [] && left != []
        invariant Valid() && LegalLoop(cbs, actualIteratorDeleted, left)
        invariant whole == Recorded(trace, Sweeps(cbs, actualIteratorDeleted, left))
        decreases |left|
      {
        var poll := left[0];
        left := left[1..];
        match poll
        case Interrupted =>
        case Failed => return trace, SelectError;
        case Selected(ready, reactions) =>
          var calls, ended := AfterSelect(ready, reactions);
          ghost var before := trace;
          trace := trace + [calls];
          if ended == CutShort(StopLoop) {
            return trace, Stopped;
          } else if ended == OutOfScript {
            return trace, MidPass;
          }
          RecordedTwice(before, calls, Sweeps(cbs, actualIteratorDeleted, left));
      }
      end := if cbs == [] then Spinning else StillWaiting;
    }
  }

  lemma PrependTwice(calls: seq<Fd>, fd: Fd, rest: Outcome)
    ensures Prepend(calls, Prepend([fd], rest)) == Prepend(calls + [fd], rest)
  {
    Associative(calls, [fd], rest.calls);
  }

  lemma RecordedTwice(trace: seq<seq<Fd>>, calls: seq<Fd>, rest: LoopResult)
    ensures Recorded(trace, Recorded([calls], rest)) == Recorded(trace + [calls], rest)
  {
    Associative(trace, [calls], rest.trace);
  }

  /** An interrupted `select` is called again, and nothing else comes of it. */
  lemma {:induction false} InterruptionsIgnored(order: seq<Fd>, deleted: bool, a: seq<Poll>, b: seq<Poll>)
    ensures Sweeps(order, deleted, a + [Interrupted] + b) == Sweeps(order, deleted, a + b)
    decreases |a|
  {
    if a == [] {
      assert [] + [Interrupted] + b == [Interrupted] + b && [] + b == b;
      assert ([Interrupted] + b)[1..] == b;
    } else {
      assert (a + [Interrupted] + b)[0] == a[0] && (a + [Interrupted] + b)[1..] == a[1..] + [Interrupted] + b;
      assert (a + b)[0] == a[0] && (a + b)[1..] == a[1..] + b;
      if a[0].Selected? {
        var pass := Sweep(Place([], order, deleted), a[0].ready, a[0].reactions);
        InterruptionsIgnored(Order(pass.place), pass.place.deleted, a[1..], b);
      } else {
        InterruptionsIgnored(order, deleted, a[1..], b);
      }
    }
  }

  /** The returns of `select` that report something. */
  function Selections(polls: seq<Poll>): (r: seq<Poll>)
    ensures forall i | 0 <= i < |r| :: r[i].Selected?
  {
    if polls == [] then [] else (if polls[0].Selected? then [polls[0]] else []) + Selections(polls[1..])
  }

  /** Where the loop is when the pass after the first `i` of `passes` begins. */
  ghost function StartOf(order: seq<Fd>, deleted: bool, passes: seq<Outcome>, i: nat): Place
    requires i <= |passes|
  {
    if i == 0 then Place([], order, deleted) else Place([], Order(passes[i - 1].place), passes[i - 1].place.deleted)
  }

  predicate IsSweep(pass: Outcome, start: Place, poll: Poll) {
    poll.Selected? && start.ahead != [] && pass == Sweep(start, poll.ready, poll.reactions)
  }

  predicate GoesOn(end: PassEnd) {
    end != CutShort(StopLoop) && end != OutOfScript
  }

  /** Each of `passes` is the sweep for one return of `select` over what the one before it has left. */
  ghost predicate Successive(order: seq<Fd>, deleted: bool, polls: seq<Poll>, passes: seq<Outcome>) {
    && |passes| == |Selections(polls)|
    && (forall i | 0 <= i < |passes| :: IsSweep(passes[i], StartOf(order, deleted, passes, i), Selections(polls)[i]))
    && (forall i | 0 <= i < |passes| - 1 :: GoesOn(passes[i].end))
  }

  lemma StartShift(order: seq<Fd>, deleted: bool, pass: Outcome, passes: seq<Outcome>, i: nat)
    requires i <= |passes|
    ensures StartOf(order, deleted, [pass] + passes, i + 1) == StartOf(Order(pass.place), pass.place.deleted, passes, i)
  {}

  lemma SweepShift(order: seq<Fd>, deleted: bool, pass: Outcome, passes: seq<Outcome>, poll: Poll, polls: seq<Poll>, i: nat)
    requires i < |passes| && i < |polls|
    requires IsSweep(passes[i], StartOf(Order(pass.place), pass.place.deleted, passes, i), polls[i])
    ensures IsSweep(([pass] + passes)[i + 1], StartOf(order, deleted, [pass] + passes, i + 1), ([poll] + polls)[i + 1])
  {
    StartShift(order, deleted, pass, passes, i);
  }

  lemma SuccessiveCons(order: seq<Fd>, deleted: bool, poll: Poll, polls: seq<Poll>, pass: Outcome, passes: seq<Outcome>)
    requires IsSweep(pass, Place([], order, deleted), poll)
    requires Successive(Order(pass.place), pass.place.deleted, polls, passes) && (passes != [] ==> GoesOn(pass.end))
    ensures Successive(order, deleted, [poll] + polls, [pass] + passes)
  {
    var all, selected := [pass] + passes, [poll] + Selections(polls);
    assert ([poll] + polls)[1..] == polls;
    assert Selections([poll] + polls) == selected;
    forall i | 0 <= i < |all| ensures IsSweep(all[i], StartOf(order, deleted, all, i), selected[i]) {
      if i > 0 {
        SweepShift(order, deleted, pass, passes, poll, Selections(polls), i - 1);
      }
    }
    forall i | 0 <= i < |all| - 1 ensures GoesOn(all[i].end) {
      assert i > 0 ==> GoesOn(passes[i - 1].end);
    }
  }

  ghost predicate EndsBy(passes: seq<Outcome>, end: PassEnd) {
    passes != [] && passes[|passes| - 1].end == end
  }

  /** The table when `passes` have been made. */
  ghost function Left(order: seq<Fd>, passes: seq<Outcome>): seq<Fd> {
    if passes == [] then order else Order(passes[|passes| - 1].place)
  }

  /** What has come of the first `n` returns of `select` when `passes` have been made, and why the loop has ended there: by a
      callback that says STOP_LOOP, by the first failure of `select`, or not at all. */
  ghost predicate IsHistory(r: LoopResult, order: seq<Fd>, polls: seq<Poll>, n: nat, passes: seq<Outcome>) {
    && n <= |polls| && (forall i | 0 <= i < n - 1 :: polls[i] != Failed)
    && |r.trace| == |passes| && (forall i | 0 <= i < |passes| :: r.trace[i] == passes[i].calls)
    && r.order == Left(order, passes)
    && (r.end == Stopped <==> EndsBy(passes, CutShort(StopLoop)))
    && (r.end == MidPass <==> EndsBy(passes, OutOfScript))
    && (r.end == SelectError <==> n > 0 && polls[n - 1] == Failed)
    && (r.end == Spinning ==> r.order == [])
    && (r.end == StillWaiting ==> r.order != [] && n == |polls|)
  }

  lemma HistoryCons(r: LoopResult, order: seq<Fd>, pass: Outcome, polls: seq<Poll>, n: nat, passes: seq<Outcome>)
    requires polls != [] && polls[0] != Failed && IsHistory(r, Order(pass.place), polls[1..], n, passes) && GoesOn(pass.end)
    ensures IsHistory(Recorded([pass.calls], r), order, polls, n + 1, [pass] + passes)
  {
    var all := [pass] + passes;
    assert passes != [] ==> all[|all| - 1] == passes[|passes| - 1];
    assert n > 0 ==> polls[n] == polls[1..][n - 1];
  }

  lemma HistorySkips(r: LoopResult, order: seq<Fd>, polls: seq<Poll>, n: nat, passes: seq<Outcome>)
    requires polls != [] && polls[0] != Failed && IsHistory(r, order, polls[1..], n, passes)
    ensures IsHistory(r, order, polls, n + 1, passes)
  {
    assert n > 0 ==> polls[n] == polls[1..][n - 1];
  }

  /** The loop told by what happens in it: the first `n` returns of `select` are used, and each that reports something brings
      a pass; the pass after one that was cut short by SKIP_OTHER_FD is just the next one. */
  ghost predicate Told(order: seq<Fd>, deleted: bool, polls: seq<Poll>, n: nat, passes: seq<Outcome>) {
    IsHistory(Sweeps(order, deleted, polls), order, polls, n, passes) && Successive(order, deleted, polls[..n], passes)
  }

  lemma SelectionsSkip(polls: seq<Poll>, n: nat)
    requires polls != [] && polls[0] == Interrupted && n < |polls|
    ensures Selections(polls[..n + 1]) == Selections(polls[1..][..n])
  {
    assert polls[..n + 1][1..] == polls[1..][..n];
  }

  lemma SuccessiveSkips(order: seq<Fd>, deleted: bool, a: seq<Poll>, b: seq<Poll>, passes: seq<Outcome>)
    requires Successive(order, deleted, a, passes) && Selections(b) == Selections(a)
    ensures Successive(order, deleted, b, passes)
  {}

  lemma InterruptedTold(order: seq<Fd>, deleted: bool, polls: seq<Poll>, n: nat, passes: seq<Outcome>)
    requires order != [] && polls != [] && polls[0] == Interrupted && Told(order, deleted, polls[1..], n, passes)
    ensures Told(order, deleted, polls, n + 1, passes)
  {
    HistorySkips(Sweeps(order, deleted, polls[1..]), order, polls, n, passes);
    SelectionsSkip(polls, n);
    SuccessiveSkips(order, deleted, polls[1..][..n], polls[..n + 1], passes);
  }

  lemma PassTold(order: seq<Fd>, deleted: bool, polls: seq<Poll>, pass: Outcome, n: nat, passes: seq<Outcome>)
    requires polls != [] && IsSweep(pass, Place([], order, deleted), polls[0]) && GoesOn(pass.end)
    requires Told(Order(pass.place), pass.place.deleted, polls[1..], n, passes)
    ensures Told(order, deleted, polls, n + 1, [pass] + passes)
  {
    HistoryCons(Sweeps(Order(pass.place), pass.place.deleted, polls[1..]), order, pass, polls, n, passes);
    SuccessiveCons(order, deleted, polls[0], polls[1..][..n], pass, passes);
    assert polls[..n + 1] == [polls[0]] + polls[1..][..n];
  }

  lemma LastPassTold(order: seq<Fd>, deleted: bool, polls: seq<Poll>, pass: Outcome)
    requires polls != [] && IsSweep(pass, Place([], order, deleted), polls[0]) && !GoesOn(pass.end)
    ensures Told(order, deleted, polls, 1, [pass])
  {
    assert Successive(Order(pass.place), pass.place.deleted, [], []);
    SuccessiveCons(order, deleted, polls[0], [], pass, []);
    assert [pass] + [] == [pass] && [polls[0]] + [] == polls[..1];
  }

  lemma {:induction false} LoopHistory(order: seq<Fd>, deleted: bool, polls: seq<Poll>)
    returns (n: nat, passes: seq<Outcome>)
    ensures Told(order, deleted, polls, n, passes)
    decreases |polls|
  {
    n, passes := 0, [];
    if order != [] && polls != [] {
      match polls[0]
      case Failed =>
        n := 1;
        assert polls[..1] == [Failed] && [Failed][1..] == [];
      case Interrupted =>
        n, passes := LoopHistory(order, deleted, polls[1..]);
        InterruptedTold(order, deleted, polls, n, passes);
        n := n + 1;
      case Selected(ready, reactions) =>
        var pass := Sweep(Place([], order, deleted), ready, reactions);
        if GoesOn(pass.end) {
          n, passes := LoopHistory(Order(pass.place), pass.place.deleted, polls[1..]);
          PassTold(order, deleted, polls, pass, n, passes);
          n, passes := n + 1, [pass] + passes;
        } else {
          n, passes := 1, [pass];
          LastPassTold(order, deleted, polls, pass);
        }
    }
  }

  /** Unless it is removed, the current entry stays the current one. */
  lemma {:induction false} CurrentStays(p: Place, ops: seq<Op>)
    requires Distinct(Order(p)) && LegalOps(p, ops) && (p.deleted || p.ahead != [])
    ensures var n := DoAll(p, ops);
            if p.deleted then n.deleted else n.deleted || (n.ahead != [] && n.ahead[0] == p.ahead[0])
    decreases |ops|
  {
    if ops != [] {
      DoToMembers(p, ops[0]);
      if ops[0].Remove? {
        AheadWithout(p, ops[0].fd);
      }
      CurrentStays(Do(p, ops[0]), ops[1..]);
    }
  }

  /** Removing the current entry leads to the one after it; removing another one leads nowhere. */
  lemma AheadWithout(p: Place, fd: Fd)
    requires Distinct(Order(p)) && fd in Order(p)
    ensures p.ahead != [] && p.ahead[0] == fd ==> Without(p.ahead, fd) == After(Order(p), fd)
    ensures p.ahead != [] && p.ahead[0] != fd ==> Without(p.ahead, fd) != [] && Without(p.ahead, fd)[0] == p.ahead[0]
  {
    if p.ahead != [] {
      AfterConcat(p.before, p.ahead);
    }
  }

  // ---------------------------------------------------------------------------------------------------------------
  // What a pass guarantees, whatever the callbacks do

  /** No callback touches the entry `fd`. */
  predicate Untouched(reactions: seq<Reaction>, fd: Fd) {
    forall i, j | 0 <= i < |reactions| && 0 <= j < |reactions[i].ops| :: reactions[i].ops[j].fd != fd
  }

  lemma InsertOther(s: seq<Fd>, pos: nat, fd: Fd, other: Fd)
    requires fd != other
    ensures fd in Insert(s, pos, other) <==> fd in s
  {
    var p := if pos <= |s| then pos else |s|;
    assert s == s[..p] + s[p..];
  }

  lemma DoOther(p: Place, op: Op, fd: Fd)
    requires Distinct(Order(p)) && op.fd != fd
    ensures fd in Do(p, op).ahead <==> fd in p.ahead
    ensures fd in Do(p, op).before <==> fd in p.before
    ensures p.ahead != [] && p.ahead[0] == fd ==> Do(p, op).ahead != [] && Do(p, op).ahead[0] == fd
    ensures p.ahead != [] && p.ahead[0] == fd ==> Do(p, op).deleted == p.deleted
  {
    DistinctParts(p.before, p.ahead);
    match op
    case Add(other, pos) =>
      InsertOther(p.before, pos, fd, other);
      if pos > |p.before| {
        InsertOther(p.ahead, pos - |p.before|, fd, other);
      }
    case Remove(other) =>
      WithoutMembers(p.before, other);
      WithoutMembers(p.ahead, other);
      assert fd in p.ahead <==> fd in Members(p.ahead);
      assert fd in Without(p.ahead, other) <==> fd in Members(Without(p.ahead, other));
      assert fd in p.before <==> fd in Members(p.before);
      assert fd in Without(p.before, other) <==> fd in Members(Without(p.before, other));
  }

  lemma {:induction false} DoAllOther(p: Place, ops: seq<Op>, fd: Fd)
    requires Distinct(Order(p)) && LegalOps(p, ops) && forall j | 0 <= j < |ops| :: ops[j].fd != fd
    ensures fd in DoAll(p, ops).ahead <==> fd in p.ahead
    ensures p.ahead != [] && p.ahead[0] == fd ==> DoAll(p, ops).ahead != [] && DoAll(p, ops).ahead[0] == fd
    ensures p.ahead != [] && p.ahead[0] == fd ==> DoAll(p, ops).deleted == p.deleted
    decreases |ops|
  {
    if ops != [] {
      DoOther(p, ops[0], fd);
      DoToMembers(p, ops[0]);
      DoAllOther(Do(p, ops[0]), ops[1..], fd);
    }
  }

  lemma StepDistinct(p: Place)
    requires Distinct(Order(p))
    ensures Order(Step(p)) == Order(p)
    ensures !p.deleted && p.ahead != [] ==> p.ahead[0] !in Step(p).ahead && p.ahead == [p.ahead[0]] + Step(p).ahead
  {
    DistinctParts(p.before, p.ahead);
    if p.ahead != [] {
      DistinctTail(p.ahead);
      assert p.before + [p.ahead[0]] + p.ahead[1..] == p.before + p.ahead;
    }
  }

  /** In a pass that is not cut short, an entry that no callback adds or removes is called exactly once if it is ahead and
      ready, and otherwise not at all. */
  lemma {:induction false} CalledOnceIffAhead(p: Place, ready: set<Fd>, reactions: seq<Reaction>, fd: Fd)
    requires Distinct(Order(p)) && !p.deleted && LegalSweep(p, ready, reactions)
    requires Untouched(reactions, fd) && Sweep(p, ready, reactions).end == Complete
    ensures multiset(Sweep(p, ready, reactions).calls)[fd] == One(fd in p.ahead && fd in ready)
    decreases |reactions|, |p.ahead|
  {
    if p.ahead != [] {
      var cur := p.ahead[0];
      StepDistinct(p);
      if cur !in ready {
        CalledOnceIffAhead(Step(p), ready, reactions, fd);
      } else {
        var after, rest := DoAll(p, reactions[0].ops), reactions[1..];
        DoAllOther(p, reactions[0].ops, fd);
        DoAllToMembers(p, reactions[0].ops);
        CurrentStays(p, reactions[0].ops);
        StepDistinct(after);
        assert Untouched(rest, fd) by {
          assert forall i | 0 <= i < |rest| :: rest[i] == reactions[i + 1];
        }
        CalledOnceIffAhead(Step(after), ready, rest, fd);
        var more := Sweep(Step(after), ready, rest).calls;
        assert multiset([cur] + more) == multiset{cur} + multiset(more);
      }
    }
  }

  lemma {:induction false} DoAllConcat(p: Place, a: seq<Op>, b: seq<Op>)
    ensures DoAll(p, a + b) == DoAll(DoAll(p, a), b)
    ensures LegalOps(p, a + b) <==> LegalOps(p, a) && LegalOps(DoAll(p, a), b)
    decreases |a|
  {
    if a == [] {
      assert a + b == b;
    } else {
      assert (a + b)[0] == a[0] && (a + b)[1..] == a[1..] + b;
      DoAllConcat(Do(p, a[0]), a[1..], b);
    }
  }

  /** Where the loop goes on after a callback that registers `fd` among other operations. */
  function Reopened(p: Place, before: seq<Op>, fd: Fd, pos: nat, after: seq<Op>): Place {
    Step(DoAll(Do(DoAll(p, before), Add(fd, pos)), after))
  }

  /** The number of a descriptor closed earlier in the pass can be given to a new one. If a callback registers such a
      number, among whatever else it does, the rest of the pass calls the new entry, for readiness that was the old one's,
      exactly when the number is in the snapshot and the table puts it ahead of the iterator. */
  lemma ReusedIffAhead(p: Place, ready: set<Fd>, before: seq<Op>, fd: Fd, pos: nat, after: seq<Op>, rest: seq<Reaction>)
    requires Distinct(Order(p)) && (p.deleted || p.ahead != []) && LegalOps(p, before + [Add(fd, pos)] + after)
    requires forall j | 0 <= j < |after| :: after[j].fd != fd
    requires var n := Reopened(p, before, fd, pos, after);
             LegalSweep(n, ready, rest) && Untouched(rest, fd) && Sweep(n, ready, rest).end == Complete
    ensures var a := DoAll(p, before);
            multiset(Sweep(Reopened(p, before, fd, pos, after), ready, rest).calls)[fd] ==
            One(fd in ready && pos > |a.before| && a.ahead != [])
  {
    var a := DoAll(p, before);
    OpsSplit(p, before, Add(fd, pos), after);
    DoAllToMembers(p, before);
    CurrentStays(p, before);
    AddedIffAhead(a, fd, pos, after);
    CalledOnceIffAhead(Step(DoAll(Do(a, Add(fd, pos)), after)), ready, rest, fd);
  }

  /** Where a new entry is when the callback that adds it has ended. */
  lemma AddedIffAhead(a: Place, fd: Fd, pos: nat, after: seq<Op>)
    requires Distinct(Order(a)) && (a.deleted || a.ahead != []) && LegalOp(a, Add(fd, pos))
    requires LegalOps(Do(a, Add(fd, pos)), after) && forall j | 0 <= j < |after| :: after[j].fd != fd
    ensures var n := Step(DoAll(Do(a, Add(fd, pos)), after));
            Distinct(Order(n)) && !n.deleted && (fd in n.ahead <==> pos > |a.before| && a.ahead != [])
  {
    var b := Do(a, Add(fd, pos));
    var n := DoAll(b, after);
    assert fd !in a.before && fd !in a.ahead;
    DoToMembers(a, Add(fd, pos));
    assert fd in b.ahead <==> pos > |a.before| && a.ahead != [];
    assert a.ahead != [] ==> b.ahead != [] && b.ahead[0] == a.ahead[0];
    DoAllToMembers(b, after);
    DoAllOther(b, after, fd);
    CurrentStays(b, after);
    StepDistinct(n);
  }

  lemma OpsSplit(p: Place, before: seq<Op>, op: Op, after: seq<Op>)
    requires LegalOps(p, before + [op] + after)
    ensures var a := DoAll(p, before); LegalOps(p, before) && LegalOp(a, op) && LegalOps(Do(a, op), after)
  {
    assert before + [op] + after == before + ([op] + after);
    DoAllConcat(p, before, [op] + after);
    assert ([op] + after)[0] == op && ([op] + after)[1..] == after;
  }

  const REUSE :=
    [Reaction([Remove(2)], Nothing), Reaction([Add(2, 2)], Nothing), Reaction([], Nothing)]

  lemma ReuseSweep()
    ensures LegalSweep(Place([], [1, 3, 2], false), {1, 2, 3}, REUSE)
    ensures Sweep(Place([], [1, 3, 2], false), {1, 2, 3}, REUSE).calls == [1, 3, 2]
  {
    var p := Place([], [1, 3, 2], false);
    assert Without([1, 3, 2], 2) == [1, 3] && Without([3, 2], 2) == [3] && Without([2], 2) == [] && Without([], 2) == [];
    var a := Place([], [1, 3], false);
    assert REUSE[0].ops[1..] == [];
    assert DoAll(p, REUSE[0].ops) == a && LegalOps(p, REUSE[0].ops);
    var b, rest := Place([1], [3], false), REUSE[1..];
    assert Step(a) == b && rest[0].ops == [Add(2, 2)] && rest[0].ops[1..] == [];
    assert Insert([3], 1, 2) == [3, 2];
    var c := Place([1], [3, 2], false);
    assert DoAll(b, rest[0].ops) == c && LegalOps(b, rest[0].ops);
    var d, last := Place([1, 3], [2], false), rest[1..];
    assert Step(c) == d && last[0].ops == [] && last[1..] == [];
    assert DoAll(d, []) == d && Step(d) == Place([1, 3, 2], [], false);
    assert Sweep(d, {1, 2, 3}, last).calls == [2] + [];
    assert Sweep(b, {1, 2, 3}, rest) == Prepend([3], Sweep(d, {1, 2, 3}, last));
    assert Sweep(p, {1, 2, 3}, REUSE) == Prepend([1], Sweep(b, {1, 2, 3}, rest));
  }

  /** Such a pass: the callback of 1 removes 2, which is ready, the callback of 3 registers a new 2, and that is called
      too. */
  method ReuseScenario() returns (calls: seq<Fd>)
    ensures calls == [1, 3, 2]
  {
    var loop := new Loop(1);
    loop.AddReadEvent(3, 1);
    loop.AddReadEvent(2, 2);
    assert loop.cbs == [1, 3, 2];
    ReuseSweep();
    var end;
    calls, end := loop.Pass({1, 2, 3}, REUSE);
  }

  /** A pass that is not cut short and is entered with the flag clear leaves it clear. */
  lemma {:induction false} FlagStaysClear(p: Place, ready: set<Fd>, reactions: seq<Reaction>)
    requires !p.deleted && Sweep(p, ready, reactions).end == Complete
    ensures !Sweep(p, ready, reactions).place.deleted
    decreases |reactions|, |p.ahead|
  {
    if p.ahead != [] {
      if p.ahead[0] !in ready {
        FlagStaysClear(Step(p), ready, reactions);
      } else {
        FlagStaysClear(Step(DoAll(p, reactions[0].ops)), ready, reactions[1..]);
      }
    }
  }

  /** And so does one that is entered with the flag set over a table with an entry. */
  lemma FlagBecomesClear(p: Place, ready: set<Fd>, reactions: seq<Reaction>)
    requires p.ahead != [] && Sweep(p, ready, reactions).end == Complete
    ensures !Sweep(p, ready, reactions).place.deleted
  {
    if p.ahead[0] !in ready {
      FlagStaysClear(Step(p), ready, reactions);
    } else {
      FlagStaysClear(Step(DoAll(p, reactions[0].ops)), ready, reactions[1..]);
    }
  }

  // ---------------------------------------------------------------------------------------------------------------
  // The second reference: a walk over a snapshot

  datatype WalkResult = WalkResult(calls: seq<Fd>, registered: set<Fd>, end: PassEnd)

  /** Calls the descriptors of `todo` in turn, leaving out those no longer registered, until one says stop or skip. */
  function Walk(todo: seq<Fd>, registered: set<Fd>, reactions: seq<Reaction>): WalkResult
    decreases |todo|
  {
    if todo == [] then WalkResult([], registered, Complete)
    else if todo[0] !in registered then Walk(todo[1..], registered, reactions)
    else if reactions == [] then WalkResult([], registered, OutOfScript)
    else
      var after := Keys(registered, reactions[0].ops);
      if reactions[0].ret != Nothing then WalkResult([todo[0]], after, CutShort(reactions[0].ret))
      else
        var rest := Walk(todo[1..], after, reactions[1..]);
        rest.(calls := [todo[0]] + rest.calls)
  }

  /** The elements of `s` that are in `keep`, in order. */
  function Keep(s: seq<Fd>, keep: set<Fd>): seq<Fd> {
    if s == [] then [] else if s[0] in keep then [s[0]] + Keep(s[1..], keep) else Keep(s[1..], keep)
  }

  lemma {:induction false} KeepMembers(s: seq<Fd>, keep: set<Fd>)
    ensures forall f :: f in Keep(s, keep) <==> f in s && f in keep
    ensures Distinct(s) ==> Distinct(Keep(s, keep))
  {
    if s != [] {
      KeepMembers(s[1..], keep);
      assert s == [s[0]] + s[1..];
      if Distinct(s) && s[0] in keep {
        DistinctTail(s);
        DistinctCons(s[0], Keep(s[1..], keep));
      }
    }
  }

  /** Filtering twice is filtering by the intersection, as far as the elements of the sequence are concerned. */
  lemma {:induction false} KeepKeep(s: seq<Fd>, keep: set<Fd>, keep': set<Fd>, both: set<Fd>)
    requires forall f | f in s :: f in both <==> f in keep && f in keep'
    ensures Keep(Keep(s, keep), keep') == Keep(s, both)
  {
    if s != [] {
      var f := s[0];
      assert f in s && s == [f] + s[1..];
      KeepKeep(s[1..], keep, keep', both);
      assert ([s[0]] + Keep(s[1..], keep))[1..] == Keep(s[1..], keep);
    }
  }

  lemma {:induction false} KeepSame(s: seq<Fd>, keep: set<Fd>, keep': set<Fd>)
    requires forall f | f in s :: f in keep <==> f in keep'
    ensures Keep(s, keep) == Keep(s, keep')
  {
    if s != [] {
      var f := s[0];
      assert f in s && s == [f] + s[1..];
      KeepSame(s[1..], keep, keep');
    }
  }

  lemma {:induction false} KeepConcat(a: seq<Fd>, b: seq<Fd>, keep: set<Fd>)
    ensures Keep(a + b, keep) == Keep(a, keep) + Keep(b, keep)
  {
    if a == [] {
      assert a + b == b;
    } else {
      assert (a + b)[0] == a[0] && (a + b)[1..] == a[1..] + b;
      KeepConcat(a[1..], b, keep);
    }
  }

  lemma {:induction false} KeepWithout(s: seq<Fd>, fd: Fd, keep: set<Fd>)
    requires Distinct(s)
    ensures Keep(Without(s, fd), keep) == Keep(s, keep - {fd})
  {
    if s != [] {
      DistinctTail(s);
      if s[0] == fd {
        assert forall f | f in s[1..] :: f != fd;
        KeepSame(s[1..], keep, keep - {fd});
      } else {
        KeepWithout(s[1..], fd, keep);
        var w := [s[0]] + Without(s[1..], fd);
        assert w[1..] == Without(s[1..], fd);
      }
    }
  }

  lemma KeepInsert(s: seq<Fd>, pos: nat, fd: Fd, keep: set<Fd>)
    requires fd !in keep
    ensures Keep(Insert(s, pos, fd), keep) == Keep(s, keep)
  {
    var p := if pos <= |s| then pos else |s|;
    assert s == s[..p] + s[p..];
    KeepConcat(s[..p], s[p..], keep);
    KeepConcat(s[..p], [fd], keep);
    KeepConcat(s[..p] + [fd], s[p..], keep);
    assert [fd][1..] == [] && Keep(s[..p], keep) + [] == Keep(s[..p], keep);
  }

  /** The snapshot entries still registered are the ready entries ahead. */
  ghost predicate Agree(todo: seq<Fd>, registered: set<Fd>, ahead: seq<Fd>, ready: set<Fd>) {
    (forall f | f in todo :: f in ready) && Keep(todo, registered) == Keep(ahead, ready)
  }

  lemma RemoveAgrees(todo: seq<Fd>, registered: set<Fd>, ahead: seq<Fd>, ready: set<Fd>, fd: Fd)
    requires Agree(todo, registered, ahead, ready) && Distinct(ahead)
    ensures Agree(todo, registered - {fd}, Without(ahead, fd), ready)
  {
    var others := (registered + ready) - {fd};
    KeepWithout(ahead, fd, ready);
    KeepKeep(todo, registered, others, registered - {fd});
    KeepKeep(ahead, ready, others, ready - {fd});
  }

  lemma AddAgrees(todo: seq<Fd>, registered: set<Fd>, ahead: seq<Fd>, ready: set<Fd>, fd: Fd, pos: nat)
    requires Agree(todo, registered, ahead, ready) && fd !in ready
    ensures Agree(todo, registered + {fd}, ahead, ready)
    ensures Agree(todo, registered + {fd}, Insert(ahead, pos, fd), ready)
  {
    KeepSame(todo, registered, registered + {fd});
    KeepInsert(ahead, pos, fd, ready);
  }

  /** No callback registers a descriptor of the snapshot anew. */
  predicate FreshOps(ops: seq<Op>, ready: set<Fd>) {
    forall j | 0 <= j < |ops| && ops[j].Add? :: ops[j].fd !in ready
  }

  predicate Fresh(reactions: seq<Reaction>, ready: set<Fd>) {
    forall i | 0 <= i < |reactions| :: FreshOps(reactions[i].ops, ready)
  }

  lemma {:induction false} OpsAgree(todo: seq<Fd>, registered: set<Fd>, p: Place, ready: set<Fd>, ops: seq<Op>)
    requires Agree(todo, registered, p.ahead, ready) && Distinct(Order(p)) && LegalOps(p, ops) && FreshOps(ops, ready)
    ensures Agree(todo, Keys(registered, ops), DoAll(p, ops).ahead, ready)
    decreases |ops|
  {
    if ops != [] {
      var op := ops[0];
      DistinctParts(p.before, p.ahead);
      DoToMembers(p, op);
      if op.Add? {
        AddAgrees(todo, registered, p.ahead, ready, op.fd, if op.pos > |p.before| then op.pos - |p.before| else 0);
        OpsAgree(todo, registered + {op.fd}, Do(p, op), ready, ops[1..]);
      } else {
        RemoveAgrees(todo, registered, p.ahead, ready, op.fd);
        OpsAgree(todo, registered - {op.fd}, Do(p, op), ready, ops[1..]);
      }
    }
  }

  /** The current entry is gone exactly when the flag is set, if no callback registers it anew. */
  lemma {:induction false} GoneIffDeleted(p: Place, ops: seq<Op>, cur: Fd)
    requires Distinct(Order(p)) && LegalOps(p, ops)
    requires forall j | 0 <= j < |ops| && ops[j].Add? :: ops[j].fd != cur
    requires if p.deleted then cur !in Order(p) else p.ahead != [] && p.ahead[0] == cur
    ensures var n := DoAll(p, ops); if n.deleted then cur !in Order(n) else n.ahead != [] && n.ahead[0] == cur
    decreases |ops|
  {
    if ops != [] {
      var n := Do(p, ops[0]);
      DoToMembers(p, ops[0]);
      assert cur in Order(n) <==> cur in Members(Order(n));
      assert cur in Order(p) <==> cur in Members(Order(p));
      if ops[0].Remove? && !p.deleted {
        AheadWithout(p, ops[0].fd);
      }
      GoneIffDeleted(n, ops[1..], cur);
    }
  }

  lemma {:induction false} WalkGone(todo: seq<Fd>, registered: set<Fd>, reactions: seq<Reaction>)
    requires Keep(todo, registered) == []
    ensures Walk(todo, registered, reactions) == WalkResult([], registered, Complete)
  {
    if todo != [] {
      WalkGone(todo[1..], registered, reactions);
    }
  }

  function DropGone(todo: seq<Fd>, registered: set<Fd>): seq<Fd> {
    if todo != [] && todo[0] !in registered then DropGone(todo[1..], registered) else todo
  }

  /** Entries removed in the meantime are passed over. */
  lemma {:induction false} WalkDropGone(todo: seq<Fd>, registered: set<Fd>, reactions: seq<Reaction>)
    ensures var t := DropGone(todo, registered);
            && Walk(t, registered, reactions) == Walk(todo, registered, reactions)
            && Keep(t, registered) == Keep(todo, registered)
            && (forall f | f in t :: f in todo)
            && (t != [] ==> t[0] in registered)
  {
    if todo != [] && todo[0] !in registered {
      WalkDropGone(todo[1..], registered, reactions);
    }
  }

  lemma StepAgrees(todo: seq<Fd>, registered: set<Fd>, after: Place, ready: set<Fd>)
    requires Agree(todo, registered, after.ahead, ready) && todo != [] && registered == Members(Order(after))
    requires if after.deleted then todo[0] !in registered else after.ahead != [] && after.ahead[0] == todo[0]
    ensures Agree(todo[1..], registered, Step(after).ahead, ready)
  {
    if !after.deleted {
      var cur := todo[0];
      assert cur in Order(after) by {
        assert Order(after)[|after.before|] == cur;
      }
      assert ([cur] + Keep(todo[1..], registered))[1..] == Keep(todo[1..], registered);
      assert ([cur] + Keep(after.ahead[1..], ready))[1..] == Keep(after.ahead[1..], ready);
    }
  }

  /** Unless a descriptor of the snapshot is registered anew, a sweep is a walk over the snapshot. */
  lemma {:induction false} SweepIsWalk(p: Place, todo: seq<Fd>, ready: set<Fd>, reactions: seq<Reaction>)
    requires Distinct(Order(p)) && !p.deleted && LegalSweep(p, ready, reactions) && Fresh(reactions, ready)
    requires Agree(todo, Members(Order(p)), p.ahead, ready)
    ensures var w, s := Walk(todo, Members(Order(p)), reactions), Sweep(p, ready, reactions);
            s.calls == w.calls && s.end == w.end && Members(Order(s.place)) == w.registered
    decreases |reactions|, |p.ahead|
  {
    var registered := Members(Order(p));
    if p.ahead == [] {
      WalkGone(todo, registered, reactions);
    } else if p.ahead[0] !in ready {
      StepDistinct(p);
      SweepIsWalk(Step(p), todo, ready, reactions);
    } else {
      var cur, t := p.ahead[0], DropGone(todo, registered);
      WalkDropGone(todo, registered, reactions);
      assert Keep(t, registered)[0] == cur;
      if reactions != [] {
        var ops, rest := reactions[0].ops, reactions[1..];
        var after := DoAll(p, ops);
        assert FreshOps(ops, ready);
        DoAllToMembers(p, ops);
        OpsAgree(t, registered, p, ready, ops);
        GoneIffDeleted(p, ops, cur);
        StepAgrees(t, Keys(registered, ops), after, ready);
        StepDistinct(after);
        assert Fresh(rest, ready) by {
          assert forall i | 0 <= i < |rest| :: rest[i] == reactions[i + 1];
        }
        if reactions[0].ret == Nothing {
          SweepIsWalk(Step(after), t[1..], ready, rest);
        }
      }
    }
  }

  /** A pass is a walk over the ready entries of its table. */
  lemma PassIsWalk(order: seq<Fd>, ready: set<Fd>, reactions: seq<Reaction>)
    requires Distinct(order) && LegalSweep(Place([], order, false), ready, reactions) && Fresh(reactions, ready)
    ensures var w := Walk(Keep(order, ready), Members(order), reactions);
            var s := Sweep(Place([], order, false), ready, reactions);
            s.calls == w.calls && s.end == w.end && Members(Order(s.place)) == w.registered
  {
    var p, todo := Place([], order, false), Keep(order, ready);
    assert Order(p) == order;
    KeepMembers(order, ready);
    KeepKeep(order, ready, Members(order), ready);
    SweepIsWalk(p, todo, ready, reactions);
  }

  lemma {:induction false} CallsComeFromTodo(todo: seq<Fd>, registered: set<Fd>, reactions: seq<Reaction>)
    ensures forall f | f in Walk(todo, registered, reactions).calls :: f in todo
  {
    if todo != [] {
      assert todo == [todo[0]] + todo[1..];
      if todo[0] !in registered {
        CallsComeFromTodo(todo[1..], registered, reactions);
      } else if reactions != [] {
        CallsComeFromTodo(todo[1..], Keys(registered, reactions[0].ops), reactions[1..]);
      }
    }
  }

  /** No descriptor is called twice in a walk over a snapshot without repetition. */
  lemma {:induction false} CalledAtMostOnce(todo: seq<Fd>, registered: set<Fd>, reactions: seq<Reaction>)
    requires Distinct(todo)
    ensures Distinct(Walk(todo, registered, reactions).calls)
  {
    if todo != [] {
      DistinctTail(todo);
      if todo[0] !in registered {
        CalledAtMostOnce(todo[1..], registered, reactions);
      } else if reactions != [] && reactions[0].ret == Nothing {
        var after, rest := Keys(registered, reactions[0].ops), reactions[1..];
        CalledAtMostOnce(todo[1..], after, rest);
        CallsComeFromTodo(todo[1..], after, rest);
        DistinctCons(todo[0], Walk(todo[1..], after, rest).calls);
      }
    }
  }

  lemma {:induction false} WalkConcat(a: seq<Fd>, b: seq<Fd>, registered: set<Fd>, reactions: seq<Reaction>)
    requires Walk(a, registered, reactions).end == Complete
    ensures var w := Walk(a, registered, reactions);
            && |w.calls| <= |reactions|
            && var rest := Walk(b, w.registered, reactions[|w.calls|..]);
               Walk(a + b, registered, reactions) == rest.(calls := w.calls + rest.calls)
  {
    if a == [] {
      assert a + b == b && reactions[0..] == reactions;
    } else {
      assert (a + b)[0] == a[0] && (a + b)[1..] == a[1..] + b;
      if a[0] !in registered {
        WalkConcat(a[1..], b, registered, reactions);
      } else {
        var after, rest := Keys(registered, reactions[0].ops), reactions[1..];
        WalkConcat(a[1..], b, after, rest);
        var w := Walk(a[1..], after, rest);
        assert rest[|w.calls|..] == reactions[1 + |w.calls|..];
        Associative([a[0]], w.calls, Walk(b, w.registered, rest[|w.calls|..]).calls);
      }
    }
  }

  lemma {:induction false} PrefixCompletes(a: seq<Fd>, b: seq<Fd>, registered: set<Fd>, reactions: seq<Reaction>)
    requires Walk(a + b, registered, reactions).end == Complete
    ensures Walk(a, registered, reactions).end == Complete
  {
    if a != [] {
      assert (a + b)[0] == a[0] && (a + b)[1..] == a[1..] + b;
      if a[0] !in registered {
        PrefixCompletes(a[1..], b, registered, reactions);
      } else {
        PrefixCompletes(a[1..], b, Keys(registered, reactions[0].ops), reactions[1..]);
      }
    }
  }

  /** In a pass that no callback cuts short, a snapshot entry is called exactly when it is still registered at its turn,
      that is, after the callbacks before it; entries removed earlier are never called, none is left out. */
  lemma CalledIffStillRegistered(todo: seq<Fd>, registered: set<Fd>, reactions: seq<Reaction>, i: nat)
    requires Distinct(todo) && i < |todo| && Walk(todo, registered, reactions).end == Complete
    ensures todo[i] in Walk(todo, registered, reactions).calls <==>
            todo[i] in Walk(todo[..i], registered, reactions).registered
  {
    var w := Walk(todo[..i], registered, reactions);
    assert todo == todo[..i] + todo[i..];
    PrefixCompletes(todo[..i], todo[i..], registered, reactions);
    WalkConcat(todo[..i], todo[i..], registered, reactions);
    CallsComeFromTodo(todo[..i], registered, reactions);
    assert todo[i] !in todo[..i];
    assert todo[i..][1..] == todo[i + 1..];
    var left := reactions[|w.calls|..];
    var rest := Walk(todo[i..], w.registered, left);
    if todo[i] in w.registered {
      assert rest.calls[0] == todo[i];
    } else {
      CallsComeFromTodo(todo[i + 1..], w.registered, left);
      assert todo[i] !in todo[i + 1..];
    }
  }

  // ---------------------------------------------------------------------------------------------------------------
  // A flag left over

  /** The flag has no influence on the entries. */
  lemma {:induction false} FlagAside(p: Place, ops: seq<Op>)
    ensures var n, m := DoAll(p.(deleted := true), ops), DoAll(p.(deleted := false), ops);
            n.before == m.before && n.ahead == m.ahead && n.deleted
    decreases |ops|
  {
    if ops != [] {
      var n, m := Do(p.(deleted := true), ops[0]), Do(p.(deleted := false), ops[0]);
      assert n == m.(deleted := true);
      FlagAside(m, ops[1..]);
      if m.deleted {
        assert m == n;
      } else {
        assert m == m.(deleted := false);
      }
    }
  }

  lemma {:induction false} FlagAsideLegal(p: Place, ops: seq<Op>, deleted: bool)
    requires LegalOps(p, ops)
    ensures LegalOps(p.(deleted := deleted), ops)
    decreases |ops|
  {
    if ops != [] {
      var n := Do(p.(deleted := deleted), ops[0]);
      FlagAsideLegal(Do(p, ops[0]), ops[1..], n.deleted);
      assert n == Do(p, ops[0]).(deleted := n.deleted);
    }
  }

  /** The rest of a sweep, from any place, calls no descriptor twice, and only entries that are ahead. */
  lemma RestOnce(p: Place, ready: set<Fd>, reactions: seq<Reaction>)
    requires Distinct(Order(p)) && !p.deleted && LegalSweep(p, ready, reactions) && Fresh(reactions, ready)
    ensures var calls := Sweep(p, ready, reactions).calls; Distinct(calls) && forall f | f in calls :: f in p.ahead
  {
    var todo, registered := Keep(p.ahead, ready), Members(Order(p));
    DistinctParts(p.before, p.ahead);
    KeepMembers(p.ahead, ready);
    assert forall f | f in p.ahead :: f in Members(p.ahead);
    KeepKeep(p.ahead, ready, registered, ready);
    SweepIsWalk(p, todo, ready, reactions);
    CallsComeFromTodo(todo, registered, reactions);
    CalledAtMostOnce(todo, registered, reactions);
  }

  /** A pass that is entered with the flag set calls a descriptor twice exactly when its first entry is ready and goes on
      after a callback that leaves it there. */
  lemma StaleFlagRepeatsFirst(order: seq<Fd>, ready: set<Fd>, reactions: seq<Reaction>)
    requires Distinct(order) && LegalSweep(Place([], order, true), ready, reactions) && Fresh(reactions, ready)
    requires Sweep(Place([], order, true), ready, reactions).end != OutOfScript
    ensures !Distinct(Sweep(Place([], order, true), ready, reactions).calls) <==>
            && order != [] && order[0] in ready
            && reactions[0].ret == Nothing && order[0] in Order(DoAll(Place([], order, true), reactions[0].ops))
  {
    var p := Place([], order, true);
    assert Order(p) == order;
    if order != [] && order[0] in ready {
      if reactions[0].ret == Nothing {
        FirstTwice(order, ready, reactions);
      }
    } else if order != [] {
      assert Step(p) == Place([], order, false);
      RestOnce(Step(p), ready, reactions);
    }
  }

  lemma FirstTwice(order: seq<Fd>, ready: set<Fd>, reactions: seq<Reaction>)
    requires Distinct(order) && LegalSweep(Place([], order, true), ready, reactions) && Fresh(reactions, ready)
    requires Sweep(Place([], order, true), ready, reactions).end != OutOfScript
    requires order != [] && order[0] in ready && reactions[0].ret == Nothing
    ensures !Distinct(Sweep(Place([], order, true), ready, reactions).calls) <==>
            order[0] in Order(DoAll(Place([], order, true), reactions[0].ops))
  {
    var p, f, ops, rest := Place([], order, true), order[0], reactions[0].ops, reactions[1..];
    var after := DoAll(p, ops);
    assert Order(p) == order && Order(p.(deleted := false)) == order;
    FlagAside(p, ops);
    FlagAsideLegal(p, ops, false);
    assert FreshOps(ops, ready);
    GoneIffDeleted(p.(deleted := false), ops, f);
    DoAllToMembers(p, ops);
    assert Fresh(rest, ready) by {
      assert forall i | 0 <= i < |rest| :: rest[i] == reactions[i + 1];
    }
    var more := Sweep(Step(after), ready, rest).calls;
    RestOnce(Step(after), ready, rest);
    if f in Order(after) {
      assert after.ahead[0] == f && more[0] == f;
      assert ([f] + more)[0] == ([f] + more)[1];
    } else {
      assert f !in after.ahead;
      DistinctCons(f, more);
    }
  }

  const LEAVING := [Reaction([Remove(1)], SkipOtherFd)]
  const QUIET := [Reaction([], Nothing), Reaction([], Nothing)]

  lemma StaleSweeps()
    ensures var p := Place([], [1, 2], false);
            && LegalSweep(p, {1}, LEAVING)
            && Sweep(p, {1}, LEAVING) == Outcome([1], Place([], [2], true), CutShort(SkipOtherFd))
    ensures LegalSweep(Place([], [2], true), {2}, QUIET) && Sweep(Place([], [2], true), {2}, QUIET).calls == [2, 2]
  {
    var p, ops := Place([], [1, 2], false), LEAVING[0].ops;
    assert Without([1, 2], 1) == [2] && Without([], 1) == [];
    assert Do(p, ops[0]) == Place([], [2], true) && ops[1..] == [];
    var q, r, none := Place([], [2], true), Place([], [2], false), QUIET[0].ops;
    assert DoAll(q, none) == q && Step(q) == r && QUIET[1..][0].ops == none;
    assert DoAll(r, none) == r && Step(r) == Place([2], [], false) && QUIET[1..][1..] == [];
    assert Sweep(r, {2}, QUIET[1..]).calls == [2] + [];
  }

  /** Two such passes: in the first the callback of 1 removes itself and skips the others, which leaves the flag set; in
      the second 2 is called twice. */
  method StaleScenario() returns (first: seq<Fd>, second: seq<Fd>)
    ensures first == [1] && second == [2, 2]
  {
    var loop := new Loop(1);
    loop.AddReadEvent(2, 1);
    assert loop.cbs == [1, 2];
    StaleSweeps();
    var end;
    first, end := loop.Pass({1}, LEAVING);
    assert loop.cbs == [2] by {
      assert loop.cbs == Order(loop.Where());
    }
    second, end := loop.Pass({2}, QUIET);
  }
}
