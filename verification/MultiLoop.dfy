/** `pexec_multi` on its select loop.

    `MultiModel` says when callbacks may run and what they do to the set of watched descriptors; `SelectEvent` says which
    descriptors a pass calls back when the callbacks change its table. Here the two are put together: the callbacks keep
    the assertions of the table, each pass is a sweep over it, and the loop returns. */
module MultiLoop {
  import opened Events
  import opened MultiModel
  import opened MultiInvariant
  import opened MultiGuarantees
  import opened MultiShutdown
  import K = SigchldHandler
  import S = SelectEvent

  /** The keys of the loop's table, which it holds in some order, are the descriptors watched. */
  ghost predicate Table(p: S.Place, watched: set<Fd>) {
    Distinct(S.Order(p)) && S.Members(S.Order(p)) == watched
  }

  // ---------------------------------------------------------------------------------------------------------------
  // What the callbacks do to the table

  function AttachOps(h: Handle, places: Places): seq<S.Op> {
    [S.Add(h.watch, places.watch), S.Add(h.out, places.out), S.Add(h.err, places.err)]
  }

  function DetachOps(h: Handle): seq<S.Op> {
    [S.Remove(h.watch), S.Remove(h.out), S.Remove(h.err)]
  }

  function StopOps(r: Registry): seq<S.Op> {
    [S.Remove(r.sigchldFd), S.Remove(r.controlFd)]
  }

  function SignalOps(m: Multi, c: K.Call): seq<S.Op> {
    if c.Reaped? && c.pid in m.active then DetachOps(m.active[c.pid]) else []
  }

  function SignalsOps(m: Multi, calls: seq<K.Call>): seq<S.Op>
    decreases |calls|
  {
    if calls == [] then [] else SignalOps(m, calls[0]) + SignalsOps(Signal(m, calls[0]), calls[1..])
  }

  function DispatchOps(m: Multi, h: Handle, places: Places): seq<S.Op> {
    if m.q.jobs == [] then []
    else if m.q.jobs[0].Spawn? then (if m.stopping then [] else AttachOps(h, places))
    else if Leaves(m) then StopOps(m.r)
    else []
  }

  function Ops(m: Multi, fd: Fd, input: Input): seq<S.Op> {
    if fd !in m.r.registered then []
    else
      match m.r.registered[fd]
      case OnSigchld => SignalsOps(m, input.calls)
      case OnControl => DispatchOps(m, input.handle, input.places)
      case OnWatch(p) => if p in m.active then DetachOps(m.active[p]) else []
      case OnStdout(p) => if p in m.active && Fails(m, fd, input) then DetachOps(m.active[p]) else []
      case OnStderr(p) => if p in m.active && Fails(m, fd, input) then DetachOps(m.active[p]) else []
  }

  /** The assertions in add and remove, which depend only on the keys of the table. */
  predicate LegalKeys(keys: set<Fd>, ops: seq<S.Op>)
    decreases |ops|
  {
    ops == [] || ((ops[0].Add? <==> ops[0].fd !in keys) && LegalKeys(S.Keys(keys, ops[..1]), ops[1..]))
  }

  /** The operations are legal and make one set of keys of the other. */
  ghost predicate Turns(keys: set<Fd>, ops: seq<S.Op>, watched: set<Fd>) {
    LegalKeys(keys, ops) && S.Keys(keys, ops) == watched
  }

  lemma KeysOne(keys: set<Fd>, op: S.Op)
    ensures S.Keys(keys, [op]) == if op.Add? then keys + {op.fd} else keys - {op.fd}
  {
    assert [op][1..] == [];
  }

  lemma {:induction false} KeysConcat(keys: set<Fd>, a: seq<S.Op>, b: seq<S.Op>)
    ensures S.Keys(keys, a + b) == S.Keys(S.Keys(keys, a), b)
    ensures LegalKeys(keys, a + b) <==> LegalKeys(keys, a) && LegalKeys(S.Keys(keys, a), b)
    decreases |a|
  {
    if a == [] {
      assert a + b == b;
    } else {
      assert (a + b)[0] == a[0] && (a + b)[1..] == a[1..] + b && (a + b)[..1] == a[..1] == [a[0]];
      KeysOne(keys, a[0]);
      KeysConcat(S.Keys(keys, a[..1]), a[1..], b);
    }
  }

  /** Legal keys make legal operations. */
  lemma {:induction false} TableTurns(p: S.Place, ops: seq<S.Op>, watched: set<Fd>)
    requires Distinct(S.Order(p)) && Turns(S.Members(S.Order(p)), ops, watched)
    ensures S.LegalOps(p, ops) && Table(S.DoAll(p, ops), watched)
    decreases |ops|
  {
    if ops != [] {
      assert ops[..1] == [ops[0]];
      KeysOne(S.Members(S.Order(p)), ops[0]);
      assert ops[0].fd in S.Order(p) <==> ops[0].fd in S.Members(S.Order(p));
      S.DoToMembers(p, ops[0]);
      TableTurns(S.Do(p, ops[0]), ops[1..], watched);
    }
  }

  lemma ThreeOps(keys: set<Fd>, a: S.Op, b: S.Op, c: S.Op)
    ensures S.Keys(keys, [a, b, c]) == S.Keys(S.Keys(S.Keys(keys, [a]), [b]), [c])
    ensures LegalKeys(keys, [a, b, c]) <==>
            LegalKeys(keys, [a]) && LegalKeys(S.Keys(keys, [a]), [b]) && LegalKeys(S.Keys(S.Keys(keys, [a]), [b]), [c])
  {
    KeysConcat(keys, [a], [b]);
    KeysConcat(keys, [a] + [b], [c]);
    assert [a] + [b] + [c] == [a, b, c];
  }

  lemma LegalOne(keys: set<Fd>, op: S.Op)
    ensures LegalKeys(keys, [op]) <==> (op.Add? <==> op.fd !in keys)
  {
    assert [op][1..] == [];
  }

  lemma AttachTurns(keys: set<Fd>, h: Handle, places: Places)
    requires h.watch !in keys && h.out !in keys && h.err !in keys
    requires h.watch != h.out && h.watch != h.err && h.out != h.err
    ensures Turns(keys, AttachOps(h, places), keys + {h.watch, h.out, h.err})
  {
    var a, b, c := S.Add(h.watch, places.watch), S.Add(h.out, places.out), S.Add(h.err, places.err);
    var one, two := keys + {h.watch}, keys + {h.watch} + {h.out};
    ThreeOps(keys, a, b, c);
    KeysOne(keys, a);
    KeysOne(one, b);
    KeysOne(two, c);
    LegalOne(keys, a);
    LegalOne(one, b);
    LegalOne(two, c);
    assert two + {h.err} == keys + {h.watch, h.out, h.err};
  }

  lemma DetachTurns(keys: set<Fd>, h: Handle)
    requires h.watch in keys && h.out in keys && h.err in keys
    requires h.watch != h.out && h.watch != h.err && h.out != h.err
    ensures Turns(keys, DetachOps(h), keys - {h.watch, h.out, h.err})
  {
    var a, b, c := S.Remove(h.watch), S.Remove(h.out), S.Remove(h.err);
    var one, two := keys - {h.watch}, keys - {h.watch} - {h.out};
    ThreeOps(keys, a, b, c);
    KeysOne(keys, a);
    KeysOne(one, b);
    KeysOne(two, c);
    LegalOne(keys, a);
    LegalOne(one, b);
    LegalOne(two, c);
    assert two - {h.err} == keys - {h.watch, h.out, h.err};
  }

  lemma TerminateTurns(m: Multi, pid: Pid, ending: Ending)
    requires RegistryInv(m.r, m.active) && pid in m.active
    ensures Turns(m.r.watched, DetachOps(m.active[pid]), Terminate(m, pid, ending).r.watched)
  {
    var h := m.active[pid];
    assert Attached(m.r, pid, h);
    DetachTurns(m.r.watched, h);
    assert Terminate(m, pid, ending).r.watched == m.r.watched - {h.watch, h.out, h.err};
  }

  lemma SignalTurns(m: Multi, c: K.Call)
    requires RegistryInv(m.r, m.active)
    ensures Turns(m.r.watched, SignalOps(m, c), Signal(m, c).r.watched)
  {
    if c.Reaped? && c.pid in m.active {
      TerminateTurns(m, c.pid, EndStopped);
    }
  }

  lemma {:induction false} SignalsTurn(m: Multi, s: K.Stage, calls: seq<K.Call>)
    requires CoreInv(m) && K.AllPossible(m.k, s, calls)
    ensures Turns(m.r.watched, SignalsOps(m, calls), Signals(m, calls).r.watched)
    decreases |calls|
  {
    if calls != [] {
      var n := Signal(m, calls[0]);
      SignalKeeps(m, s, calls[0]);
      SignalTurns(m, calls[0]);
      SignalsTurn(n, K.Then(s, calls[0]), calls[1..]);
      KeysConcat(m.r.watched, SignalOps(m, calls[0]), SignalsOps(n, calls[1..]));
    }
  }

  lemma StopTurns(m: Multi)
    requires RegistryInv(m.r, m.active) && m.r.phase == Running
    ensures Turns(m.r.watched, StopOps(m.r), HandleStop(m).r.watched)
  {
    var a, b := S.Remove(m.r.sigchldFd), S.Remove(m.r.controlFd);
    assert Has(m.r, m.r.sigchldFd, OnSigchld) && Has(m.r, m.r.controlFd, OnControl);
    KeysConcat(m.r.watched, [a], [b]);
    KeysOne(m.r.watched, a);
    KeysOne(m.r.watched - {m.r.sigchldFd}, b);
    LegalOne(m.r.watched, a);
    LegalOne(m.r.watched - {m.r.sigchldFd}, b);
    assert [a] + [b] == StopOps(m.r);
  }

  lemma SpawnTurns(r: Registry, pid: Pid, h: Handle, places: Places)
    requires FreshHandle(r.watched, h)
    ensures Turns(r.watched, AttachOps(h, places), Attach(r, pid, h).watched)
  {
    AttachTurns(r.watched, h, places);
    assert Attach(r, pid, h).watched == r.watched + {h.watch, h.out, h.err};
  }

  lemma DispatchTurns(m: Multi, pid: Pid, h: Handle, places: Places)
    requires Inv(m) && m.r.phase == Running && m.q.wake > 0 && FreshHandle(m.r.open, h)
    ensures Turns(m.r.watched, DispatchOps(m, h, places), Dispatch(m, pid, h).r.watched)
  {
    DispatchCases(m, pid, h);
    StopTurns(m);
    if m.q.jobs[0].Spawn? {
      SpawnTurns(m.r, pid, h.(id := m.q.jobs[0].id), places);
    }
  }

  lemma ProcessTurns(m: Multi, fd: Fd, pid: Pid, input: Input)
    requires RegistryInv(m.r, m.active) && fd in m.r.registered && fd != m.r.ownFd && pid in m.active
    requires m.r.registered[fd] in {OnWatch(pid), OnStdout(pid), OnStderr(pid)}
    ensures Turns(m.r.watched, Ops(m, fd, input), DoAction(m, fd, input).r.watched)
  {
    TerminateTurns(m, pid, if m.r.registered[fd].OnWatch? && !Fails(m, fd, input) then EndUserStopped else EndFailed);
  }

  /** Every callback of `pexec_multi` meets the assertions of the select loop's table, whose keys stay those watched. */
  lemma CallbackTurns(m: Multi, fd: Fd, input: Input)
    requires Inv(m) && Enabled(m, Fire(fd, input)) && fd != m.r.ownFd
    ensures Turns(m.r.watched, Ops(m, fd, input), DoAction(m, fd, input).r.watched)
  {
    assert Belongs(m.r, m.active, fd, m.r.registered[fd]);
    match m.r.registered[fd]
    case OnSigchld => SignalsTurn(m, K.Reading(0), input.calls);
    case OnControl => DispatchTurns(m, input.pid, input.handle, input.places);
    case OnWatch(p) => ProcessTurns(m, fd, p, input);
    case OnStdout(p) => ProcessTurns(m, fd, p, input);
    case OnStderr(p) => ProcessTurns(m, fd, p, input);
  }

  // ---------------------------------------------------------------------------------------------------------------
  // A pass is a sweep

  /** On to the next ready entry. */
  function Rest(p: S.Place, ready: set<Fd>): S.Place
    decreases |p.ahead|, p.deleted
  {
    if p.ahead != [] && p.ahead[0] !in ready then Rest(S.Step(p), ready) else p
  }

  lemma {:induction false} RestSweeps(p: S.Place, ready: set<Fd>, reactions: seq<S.Reaction>, watched: set<Fd>)
    requires Table(p, watched) && !p.deleted
    ensures var t := Rest(p, ready);
            && Table(t, watched) && !t.deleted
            && S.Sweep(t, ready, reactions) == S.Sweep(p, ready, reactions)
            && (S.LegalSweep(t, ready, reactions) <==> S.LegalSweep(p, ready, reactions))
            && (t.ahead != [] ==> t.ahead[0] in ready && t.ahead[0] in watched)
            && |t.ahead| <= |p.ahead|
            && (forall fd | fd in ready && fd in p.ahead :: fd in t.ahead)
            && (forall fd | fd in t.ahead :: fd in p.ahead)
    decreases |p.ahead|
  {
    if p.ahead != [] {
      S.StepDistinct(p);
      assert S.Order(p)[|p.before|] == p.ahead[0];
      if p.ahead[0] !in ready {
        RestSweeps(S.Step(p), ready, reactions, watched);
      }
    }
  }

  /** Where the loop is after a callback of its current entry. */
  function Moved(m: Multi, p: S.Place, fd: Fd, input: Input): S.Place {
    S.Step(S.DoAll(p, Ops(m, fd, input)))
  }

  /** `events` is a pass from `p` on: the ready entries ahead are called back in turn, to the end or until the loop is
      told to leave; producers, children and users act in between. A descriptor that was closed in the pass may be opened
      again. */
  ghost predicate Follows(m: Multi, p: S.Place, events: seq<Event>, ready: set<Fd>)
    decreases |events|
  {
    if events == [] then Rest(p, ready).ahead == []
    else
      var e, rest := events[0], events[1..];
      && !e.Run? && Enabled(m, e)
      && if !e.Fire? then Follows(Next(m, e), p, rest, ready)
         else
           var t := Rest(p, ready);
           && t.ahead != [] && t.ahead[0] == e.fd
           && if e.fd == m.r.ownFd then rest == [] else Follows(Next(m, e), Moved(m, t, e.fd, e.input), rest, ready)
  }

  function Fired(events: seq<Event>): seq<Fd> {
    if events == [] then []
    else if events[0].Fire? then [events[0].fd] + Fired(events[1..])
    else Fired(events[1..])
  }

  /** What the callbacks of the pass tell the select loop; only its own descriptor's says STOP_LOOP. */
  function Reactions(m: Multi, events: seq<Event>): seq<S.Reaction>
    requires Legal(m, events)
    decreases |events|
  {
    if events == [] then []
    else
      var rest := Reactions(Next(m, events[0]), events[1..]);
      match events[0]
      case Fire(fd, input) =>
        [if fd == m.r.ownFd then S.Reaction([], StopLoop) else S.Reaction(Ops(m, fd, input), Nothing)] + rest
      case _ => rest
  }

  lemma OthersKeepWatched(m: Multi, e: Event)
    requires Enabled(m, e) && !e.Run? && !e.Fire?
    ensures Next(m, e).r == m.r
  {}

  /** Only the select loop's own callback ends the loop. */
  lemma NotIdle(m: Multi, e: Event)
    requires Enabled(m, e) && m.r.phase != Idle && (e.Fire? ==> e.fd != m.r.ownFd)
    ensures Next(m, e).r.phase != Idle
  {
    if e.Fire? {
      SignalsRun(m, e.input.calls);
    }
  }

  /** One callback moves the loop on. */
  lemma CallbackMoves(m: Multi, p: S.Place, fd: Fd, input: Input)
    requires Inv(m) && Enabled(m, Fire(fd, input)) && fd != m.r.ownFd && Table(p, m.r.watched) && !p.deleted
    requires p.ahead != [] && p.ahead[0] == fd
    ensures S.LegalOps(p, Ops(m, fd, input))
    ensures var n := Moved(m, p, fd, input); Table(n, DoAction(m, fd, input).r.watched) && !n.deleted
  {
    CallbackTurns(m, fd, input);
    TableTurns(p, Ops(m, fd, input), DoAction(m, fd, input).r.watched);
    S.StepDistinct(S.DoAll(p, Ops(m, fd, input)));
  }

  /** A pass ends with every entry called or gone, or by the select loop's own callback. */
  ghost predicate Swept(n: Multi, s: S.Outcome, calls: seq<Fd>) {
    && s.calls == calls
    && if n.r.phase == Idle then s.end == S.CutShort(StopLoop)
       else s.end == S.Complete && Table(s.place, n.r.watched) && !s.place.deleted
  }

  lemma {:induction false} PassIsSweep(m: Multi, p: S.Place, events: seq<Event>, ready: set<Fd>)
    requires Inv(m) && m.r.phase != Idle && Table(p, m.r.watched) && !p.deleted
    requires Follows(m, p, events, ready) && Legal(m, events)
    ensures S.LegalSweep(p, ready, Reactions(m, events))
    ensures Inv(After(m, events)) && Swept(After(m, events), S.Sweep(p, ready, Reactions(m, events)), Fired(events))
    decreases |events|
  {
    RestSweeps(p, ready, Reactions(m, events), m.r.watched);
    if events != [] {
      var e, rest, t, n := events[0], events[1..], Rest(p, ready), Next(m, events[0]);
      StepKeeps(m, e);
      if !e.Fire? {
        OthersKeepWatched(m, e);
        PassIsSweep(n, p, rest, ready);
      } else if e.fd == m.r.ownFd {
        assert S.DoAll(t, []) == t && Fired(rest) == [];
      } else {
        CallbackMoves(m, t, e.fd, e.input);
        NotIdle(m, e);
        PassIsSweep(n, Moved(m, t, e.fd, e.input), rest, ready);
      }
    }
  }

  // ---------------------------------------------------------------------------------------------------------------
  // The whole loop

  /** What other threads, children and users do while no callback runs. */
  predicate Other(e: Event) {
    !e.Fire? && !e.Run?
  }

  predicate AllOther(events: seq<Event>) {
    forall i | 0 <= i < |events| :: Other(events[i])
  }

  /** One round of the loop: what happens while `select` waits, what it reports, and the pass that follows. */
  datatype Pass = Pass(waits: seq<Event>, ready: set<Fd>, events: seq<Event>)

  predicate LegalPass(m: Multi, p: Pass) {
    Legal(m, p.waits) && Legal(After(m, p.waits), p.events)
  }

  /** When `select` returns. */
  function Woken(m: Multi, p: Pass): Multi
    requires LegalPass(m, p)
  {
    After(m, p.waits)
  }

  function AfterPass(m: Multi, p: Pass): Multi
    requires LegalPass(m, p)
  {
    After(Woken(m, p), p.events)
  }

  /** `select` does not return without anything to report. */
  ghost predicate IsPass(m: Multi, order: seq<Fd>, p: Pass) {
    && m.r.phase != Idle && p.ready != {} && AllOther(p.waits) && LegalPass(m, p)
    && Follows(Woken(m, p), S.Place([], order, false), p.events, p.ready)
  }

  function SweepOf(m: Multi, order: seq<Fd>, p: Pass): S.Outcome
    requires LegalPass(m, p)
  {
    S.Sweep(S.Place([], order, false), p.ready, Reactions(Woken(m, p), p.events))
  }

  /** The table after a pass. */
  function OrderAfter(m: Multi, order: seq<Fd>, p: Pass): seq<Fd>
    requires LegalPass(m, p)
  {
    S.Order(SweepOf(m, order, p).place)
  }

  /** Passes of the select loop, one after another, until it leaves. */
  ghost predicate IsLoop(m: Multi, order: seq<Fd>, passes: seq<Pass>)
    decreases |passes|
  {
    passes == [] ||
    (IsPass(m, order, passes[0]) && IsLoop(AfterPass(m, passes[0]), OrderAfter(m, order, passes[0]), passes[1..]))
  }

  ghost function Polls(m: Multi, order: seq<Fd>, passes: seq<Pass>): seq<S.Poll>
    requires IsLoop(m, order, passes)
    decreases |passes|
  {
    if passes == [] then []
    else
      var p := passes[0];
      [S.Selected(p.ready, Reactions(Woken(m, p), p.events))]
      + Polls(AfterPass(m, p), OrderAfter(m, order, p), passes[1..])
  }

  ghost function AfterLoop(m: Multi, order: seq<Fd>, passes: seq<Pass>): Multi
    requires IsLoop(m, order, passes)
    decreases |passes|
  {
    if passes == [] then m else AfterLoop(AfterPass(m, passes[0]), OrderAfter(m, order, passes[0]), passes[1..])
  }

  function Trace(passes: seq<Pass>): seq<seq<Fd>> {
    if passes == [] then [] else [Fired(passes[0].events)] + Trace(passes[1..])
  }

  ghost predicate Ordered(order: seq<Fd>, watched: set<Fd>) {
    Distinct(order) && S.Members(order) == watched
  }

  lemma {:induction false} WaitsKeep(m: Multi, waits: seq<Event>)
    requires Inv(m) && AllOther(waits) && Legal(m, waits)
    ensures Inv(After(m, waits)) && After(m, waits).r == m.r
    decreases |waits|
  {
    if waits != [] {
      StepKeeps(m, waits[0]);
      OthersKeepWatched(m, waits[0]);
      WaitsKeep(Next(m, waits[0]), waits[1..]);
    }
  }

  lemma OnePass(m: Multi, order: seq<Fd>, p: Pass)
    requires Inv(m) && Ordered(order, m.r.watched) && IsPass(m, order, p)
    ensures S.LegalSweep(S.Place([], order, false), p.ready, Reactions(Woken(m, p), p.events))
    ensures var n := AfterPass(m, p);
            && Inv(n) && Swept(n, SweepOf(m, order, p), Fired(p.events))
            && (n.r.phase != Idle ==> Ordered(OrderAfter(m, order, p), n.r.watched))
  {
    assert S.Order(S.Place([], order, false)) == order;
    WaitsKeep(m, p.waits);
    PassIsSweep(Woken(m, p), S.Place([], order, false), p.events, p.ready);
  }

  /** Whatever producers, children and callbacks do, the assertions of the select loop's table hold, also when descriptors
      are opened that were closed in the same pass. What the loop calls back, by its own reference, is what happens in the
      model, it has stopped exactly when the model has left it, and no pass leaves the deletion flag set. */
  lemma {:induction false} LoopsAgree(m: Multi, order: seq<Fd>, passes: seq<Pass>)
    requires Inv(m) && m.r.phase != Idle && Ordered(order, m.r.watched) && IsLoop(m, order, passes)
    ensures var polls := Polls(m, order, passes);
            var result, n := S.Sweeps(order, false, polls), AfterLoop(m, order, passes);
            && S.LegalLoop(order, false, polls)
            && result.trace == Trace(passes)
            && Inv(n)
            && (if n.r.phase == Idle then result.end == S.Stopped
                else result.end == S.StillWaiting && Ordered(result.order, n.r.watched))
    decreases |passes|
  {
    assert m.r.ownFd in S.Members(order);
    if passes != [] {
      var p, rest := passes[0], passes[1..];
      var n, next := AfterPass(m, p), OrderAfter(m, order, p);
      OnePass(m, order, p);
      var polls := Polls(m, order, passes);
      assert polls[1..] == Polls(n, next, rest);
      if n.r.phase == Idle {
        assert rest == [];
      } else {
        LoopsAgree(n, next, rest);
      }
    }
  }

  // ---------------------------------------------------------------------------------------------------------------
  // The loop returns

  /** All operations add, or all remove. */
  predicate OneKind(ops: seq<S.Op>) {
    (forall j | 0 <= j < |ops| :: ops[j].Add?) || (forall j | 0 <= j < |ops| :: ops[j].Remove?)
  }

  /** Operations of one kind do not touch a key that is there before and after. */
  lemma {:induction false} KeptIsUntouched(keys: set<Fd>, ops: seq<S.Op>, fd: Fd)
    requires OneKind(ops) && LegalKeys(keys, ops) && fd in keys && fd in S.Keys(keys, ops)
    ensures forall j | 0 <= j < |ops| :: ops[j].fd != fd
    decreases |ops|
  {
    if ops != [] {
      var after := S.Keys(keys, ops[..1]);
      assert ops[..1] == [ops[0]];
      KeysOne(keys, ops[0]);
      if ops[0].Remove? {
        RemovedStays(after, ops[1..], ops[0].fd);
      }
      assert forall j | 0 <= j < |ops[1..]| :: ops[1..][j] == ops[j + 1];
      KeptIsUntouched(after, ops[1..], fd);
      forall j | 0 <= j < |ops| ensures ops[j].fd != fd {
        if j > 0 {
          assert ops[1..][j - 1].fd != fd;
        }
      }
    }
  }

  lemma {:induction false} RemovedStays(keys: set<Fd>, ops: seq<S.Op>, fd: Fd)
    requires (forall j | 0 <= j < |ops| :: ops[j].Remove?) && fd !in keys
    ensures fd !in S.Keys(keys, ops)
    decreases |ops|
  {
    if ops != [] {
      RemovedStays(keys - {ops[0].fd}, ops[1..], fd);
    }
  }

  lemma {:induction false} SignalsRemove(m: Multi, calls: seq<K.Call>)
    ensures forall j | 0 <= j < |SignalsOps(m, calls)| :: SignalsOps(m, calls)[j].Remove?
    decreases |calls|
  {
    if calls != [] {
      SignalsRemove(Signal(m, calls[0]), calls[1..]);
    }
  }

  lemma CallbackOneKind(m: Multi, fd: Fd, input: Input)
    ensures OneKind(Ops(m, fd, input))
  {
    if fd in m.r.registered && m.r.registered[fd] == OnSigchld {
      SignalsRemove(m, input.calls);
    }
  }

  /** What is ahead, and still watched after a callback of another descriptor, is still ahead. */
  lemma StaysAhead(m: Multi, p: S.Place, fd: Fd, input: Input, other: Fd)
    requires Inv(m) && Enabled(m, Fire(fd, input)) && fd != m.r.ownFd && Table(p, m.r.watched) && !p.deleted
    requires p.ahead != [] && p.ahead[0] == fd && other != fd
    requires other in m.r.watched && other in DoAction(m, fd, input).r.watched
    ensures other in Moved(m, p, fd, input).ahead <==> other in p.ahead
  {
    var ops := Ops(m, fd, input);
    CallbackTurns(m, fd, input);
    CallbackMoves(m, p, fd, input);
    TableTurns(p, ops, DoAction(m, fd, input).r.watched);
    CallbackOneKind(m, fd, input);
    KeptIsUntouched(m.r.watched, ops, other);
    S.DoAllOther(p, ops, other);
    S.CurrentStays(p, ops);
    S.StepDistinct(S.DoAll(p, ops));
  }

  /** What is in the snapshot of a pass is served by it. */
  lemma {:induction false} PassServes(m: Multi, p: S.Place, events: seq<Event>, ready: set<Fd>, fd: Fd)
    requires Inv(m) && m.r.phase != Idle && Table(p, m.r.watched) && !p.deleted
    requires Follows(m, p, events, ready) && Legal(m, events) && fd in p.ahead && fd in ready
    ensures Served(m, events, fd)
    decreases |events|
  {
    if fd in m.r.watched {
      RestSweeps(p, ready, [], m.r.watched);
      var e, rest, t, n := events[0], events[1..], Rest(p, ready), Next(m, events[0]);
      StepKeeps(m, e);
      if !e.Fire? {
        OthersKeepWatched(m, e);
        PassServes(n, p, rest, ready, fd);
      } else if e.fd == m.r.ownFd {
        assert fd !in n.r.watched;
      } else if e.fd != fd && fd in n.r.watched {
        StaysAhead(m, t, e.fd, e.input, fd);
        CallbackMoves(m, t, e.fd, e.input);
        NotIdle(m, e);
        PassServes(n, Moved(m, t, e.fd, e.input), rest, ready, fd);
      }
    }
  }

  /** `select` reports what it must, a signal that is not blocked has been delivered when it returns, and nothing new is
      submitted. */
  ghost predicate Prompt(m: Multi, p: Pass)
    requires LegalPass(m, p)
  {
    && !Woken(m, p).k.pending
    && AllQuiet(p.waits) && AllQuiet(p.events)
    && forall fd | MustReport(Woken(m, p), fd) :: fd in p.ready
  }

  predicate AllQuiet(events: seq<Event>) {
    forall i | 0 <= i < |events| :: Quiet(events[i])
  }

  ghost predicate AllPrompt(m: Multi, order: seq<Fd>, passes: seq<Pass>)
    requires IsLoop(m, order, passes)
    decreases |passes|
  {
    passes == [] ||
    (Prompt(m, passes[0]) && AllPrompt(AfterPass(m, passes[0]), OrderAfter(m, order, passes[0]), passes[1..]))
  }

  /** The number of times that `select` returns with no write to the control pipe in flight. */
  ghost function Calm(m: Multi, order: seq<Fd>, passes: seq<Pass>): nat
    requires IsLoop(m, order, passes)
    decreases |passes|
  {
    if passes == [] then 0
    else
      One(Woken(m, passes[0]).q.unsent == 0)
      + Calm(AfterPass(m, passes[0]), OrderAfter(m, order, passes[0]), passes[1..])
  }

  lemma PromptIsComplete(m: Multi, order: seq<Fd>, p: Pass)
    requires Inv(m) && Ordered(order, m.r.watched) && IsPass(m, order, p) && Prompt(m, p)
    ensures CompletePass(Woken(m, p), p.events)
  {
    var n, place := Woken(m, p), S.Place([], order, false);
    assert S.Order(place) == order;
    WaitsKeep(m, p.waits);
    forall fd | MustReport(n, fd) ensures Served(n, p.events, fd) {
      assert fd in S.Members(order);
      PassServes(n, place, p.events, p.ready, fd);
    }
  }

  /** What is doomed when `select` is called is doomed when it returns. */
  lemma WaitsProgress(m: Multi, waits: seq<Event>)
    requires Inv(m) && Closing(m) && Doomed(m) && Uncongested(m) && Legal(m, waits) && AllOther(waits) && AllQuiet(waits)
    ensures var n := After(m, waits);
            && Inv(n) && Closing(n) && Doomed(n) && Uncongested(n) && n.r == m.r
            && PassesLeft(n) <= PassesLeft(m)
  {
    WaitsKeep(m, waits);
    RunProgress(m, waits);
  }

  lemma PromptProgress(m: Multi, order: seq<Fd>, p: Pass)
    requires Inv(m) && Closing(m) && Doomed(m) && Uncongested(m) && m.r.phase != Idle && Ordered(order, m.r.watched)
    requires IsPass(m, order, p) && Prompt(m, p)
    ensures var n := AfterPass(m, p);
            && Inv(n) && Closing(n) && Doomed(n) && Uncongested(n)
            && PassesLeft(n) + One(Woken(m, p).q.unsent == 0) <= PassesLeft(m)
            && (n.r.phase != Idle ==> Ordered(OrderAfter(m, order, p), n.r.watched))
  {
    WaitsProgress(m, p.waits);
    PromptIsComplete(m, order, p);
    PassProgress(Woken(m, p), p.events);
    OnePass(m, order, p);
  }

  lemma {:induction false} BoundedLoop(m: Multi, order: seq<Fd>, passes: seq<Pass>)
    requires Inv(m) && Closing(m) && Doomed(m) && Uncongested(m) && m.r.phase != Idle && Ordered(order, m.r.watched)
    requires IsLoop(m, order, passes) && AllPrompt(m, order, passes)
    ensures PassesLeft(AfterLoop(m, order, passes)) + Calm(m, order, passes) <= PassesLeft(m)
    decreases |passes|
  {
    if passes != [] {
      PromptProgress(m, order, passes[0]);
      var n := AfterPass(m, passes[0]);
      if n.r.phase != Idle {
        BoundedLoop(n, OrderAfter(m, order, passes[0]), passes[1..]);
      } else {
        assert passes[1..] == [];
      }
    }
  }

  /** Once the loop stops and its processes are doomed, `select` returns to it with no write in flight no more than
      `PassesLeft` times, and if it does that many times the loop has returned, with everything detached. */
  lemma LoopReturns(m: Multi, order: seq<Fd>, passes: seq<Pass>)
    requires Inv(m) && Closing(m) && Doomed(m) && Uncongested(m) && m.r.phase != Idle && Ordered(order, m.r.watched)
    requires IsLoop(m, order, passes) && AllPrompt(m, order, passes)
    ensures Calm(m, order, passes) <= PassesLeft(m)
    ensures Calm(m, order, passes) == PassesLeft(m) ==>
              && S.Sweeps(order, false, Polls(m, order, passes)).end == S.Stopped
              && AfterLoop(m, order, passes).r.registered == map[] && AfterLoop(m, order, passes).r.watched == {}
  {
    LoopsAgree(m, order, passes);
    BoundedLoop(m, order, passes);
  }
}
