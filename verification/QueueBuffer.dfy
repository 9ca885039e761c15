/** `queue_buffer`: a queue guarded by one mutex and one condition variable that is only ever signalled with
    `notify_one`, after the mutex has been released.

    A thread is at rest, waiting on the condition variable, woken (notified, or spuriously, and about to retest its
    predicate under the mutex), or past its critical section and about to notify. Every step of `Next` is one critical
    section or one notification, so runs interleave any number of producers and consumers at that grain. */
module QueueBuffer {
  import opened Events

  type Thread = nat

  /** The largest `unsigned long`, which is the capacity of every buffer in the program. */
  const CAPACITY: nat := 0xFFFF_FFFF_FFFF_FFFF

  /** How an item left the queue. */
  datatype Left<T> = Taken(x: T) | Cleared(x: T)

  /** `consumers` and `producers` wait on the same condition variable; `takers` and `adders` are those of them that
      have been woken. `gone` logs the items that left, in order. */
  datatype Monitor<T> = Monitor(
    capacity: nat,
    items: seq<T>,
    consumers: set<Thread>,
    producers: set<Thread>,
    takers: set<Thread>,
    adders: set<Thread>,
    notifying: set<Thread>,
    gone: seq<Left<T>>)
  {
    predicate AtRest(t: Thread) {
      t !in consumers && t !in producers && t !in takers && t !in adders && t !in notifying
    }
  }

  datatype Step<T> =
    | Add(t: Thread, x: T)
    | Remove(t: Thread)
    | Clear(t: Thread)
    | ClearAdd(t: Thread, x: T)
    | Notify(t: Thread, waiter: Thread)
    | Spurious(waiter: Thread)

  function Init<T>(capacity: nat): Monitor<T> {
    Monitor(capacity, [], {}, {}, {}, {}, {}, [])
  }

  predicate Enabled<T>(m: Monitor<T>, step: Step<T>) {
    match step
    case Add(t, _) => m.AtRest(t) || t in m.adders
    case Remove(t) => m.AtRest(t) || t in m.takers
    case Clear(t) => m.AtRest(t)
    case ClearAdd(t, _) => m.AtRest(t)
    case Notify(t, w) =>
      t in m.notifying && (w in m.consumers || w in m.producers || (m.consumers == {} && m.producers == {}))
    case Spurious(w) => w in m.consumers || w in m.producers
  }

  /** A waiter leaves the condition variable and goes for the mutex. */
  function Wake<T>(m: Monitor<T>, w: Thread): Monitor<T> {
    if w in m.consumers then m.(consumers := m.consumers - {w}, takers := m.takers + {w})
    else m.(producers := m.producers - {w}, adders := m.adders + {w})
  }

  function AllCleared<T>(items: seq<T>): seq<Left<T>> {
    if items == [] then [] else [Cleared(items[0])] + AllCleared(items[1..])
  }

  function Next<T>(m: Monitor<T>, step: Step<T>): Monitor<T>
    requires Enabled(m, step)
  {
    match step
    case Add(t, x) =>
      if |m.items| < m.capacity then
        m.(items := m.items + [x], adders := m.adders - {t}, notifying := m.notifying + {t})
      else
        m.(adders := m.adders - {t}, producers := m.producers + {t})
    case Remove(t) =>
      if |m.items| > 0 then
        m.(items := m.items[1..], gone := m.gone + [Taken(m.items[0])],
           takers := m.takers - {t}, notifying := m.notifying + {t})
      else
        m.(takers := m.takers - {t}, consumers := m.consumers + {t})
    case Clear(t) => m.(items := [], gone := m.gone + AllCleared(m.items), notifying := m.notifying + {t})
    case ClearAdd(t, x) =>
      m.(items := [x], gone := m.gone + AllCleared(m.items), notifying := m.notifying + {t})
    case Notify(t, w) =>
      var quiet := m.(notifying := m.notifying - {t});
      if m.consumers == {} && m.producers == {} then quiet else Wake(quiet, w)
    case Spurious(w) => Wake(m, w)
  }

  predicate Legal<T>(m: Monitor<T>, steps: seq<Step<T>>)
    decreases |steps|
  {
    steps == [] || (Enabled(m, steps[0]) && Legal(Next(m, steps[0]), steps[1..]))
  }

  function Run<T>(m: Monitor<T>, steps: seq<Step<T>>): Monitor<T>
    requires Legal(m, steps)
    decreases |steps|
  {
    if steps == [] then m else Run(Next(m, steps[0]), steps[1..])
  }

  // ---------------------------------------------------------------------------------------------------------------
  // No lost wakeup

  /** While a consumer waits, there are at least as many threads about to notify or retest as there are items; and no
      producer waits. */
  ghost predicate Inv<T>(m: Monitor<T>) {
    && m.producers == {} && m.adders == {}
    && m.consumers !! m.takers && m.consumers !! m.notifying && m.takers !! m.notifying
    && (m.consumers != {} ==> |m.items| <= |m.notifying| + |m.takers|)
  }

  /** The step is not an `add` that meets a full buffer. */
  predicate Fits<T>(m: Monitor<T>, step: Step<T>) {
    step.Add? ==> |m.items| < m.capacity
  }

  predicate NeverFull<T>(m: Monitor<T>, steps: seq<Step<T>>)
    requires Legal(m, steps)
    decreases |steps|
  {
    steps == [] || (Fits(m, steps[0]) && NeverFull(Next(m, steps[0]), steps[1..]))
  }

  lemma Sizes(s: set<Thread>, t: Thread)
    ensures |s - {t}| == |s| - (if t in s then 1 else 0)
    ensures |s + {t}| == |s| + (if t in s then 0 else 1)
  {
    assert t in s ==> s == (s - {t}) + {t};
    assert t !in s ==> s - {t} == s;
    assert t in s ==> s + {t} == s;
  }

  lemma EnterKeepsInv<T>(m: Monitor<T>, step: Step<T>)
    requires step.Add? || step.Clear? || step.ClearAdd?
    requires Inv(m) && Enabled(m, step) && Fits(m, step)
    ensures Inv(Next(m, step))
  {
    Sizes(m.notifying, step.t);
  }

  lemma RemoveKeepsInv<T>(m: Monitor<T>, t: Thread)
    requires Inv(m) && Enabled(m, Remove(t))
    ensures Inv(Next(m, Remove(t)))
  {
    Sizes(m.takers, t);
    if m.items != [] {
      Sizes(m.notifying, t);
    }
  }

  lemma WakeKeepsInv<T>(m: Monitor<T>, step: Step<T>)
    requires step.Notify? || step.Spurious?
    requires Inv(m) && Enabled(m, step)
    ensures Inv(Next(m, step))
  {
    if step.Notify? {
      Sizes(m.notifying, step.t);
    }
    Sizes(m.takers, step.waiter);
  }

  lemma StepKeepsInv<T>(m: Monitor<T>, step: Step<T>)
    requires Inv(m) && Enabled(m, step) && Fits(m, step)
    ensures Inv(Next(m, step))
  {
    if step.Notify? || step.Spurious? {
      WakeKeepsInv(m, step);
    } else if step.Remove? {
      RemoveKeepsInv(m, step.t);
    } else {
      EnterKeepsInv(m, step);
    }
  }

  /** The invariant holds along every run in which no `add` meets a full buffer, whatever the interleaving. */
  lemma {:induction false} RunKeepsInv<T>(m: Monitor<T>, steps: seq<Step<T>>)
    requires Inv(m) && Legal(m, steps) && NeverFull(m, steps)
    ensures Inv(Run(m, steps))
    decreases |steps|
  {
    if steps != [] {
      StepKeepsInv(m, steps[0]);
      RunKeepsInv(Next(m, steps[0]), steps[1..]);
    }
  }

  /** A consumer waits although there are items, or a producer although there is room, and nobody is going to wake it. */
  predicate Lost<T>(m: Monitor<T>) {
    && m.notifying == {} && m.takers == {} && m.adders == {}
    && ((m.consumers != {} && m.items != []) || (m.producers != {} && |m.items| < m.capacity))
  }

  /** No wakeup is lost unless the buffer has been full. */
  lemma NoLostWakeup<T>(capacity: nat, steps: seq<Step<T>>)
    requires Legal(Init<T>(capacity), steps) && NeverFull(Init<T>(capacity), steps)
    ensures !Lost(Run(Init<T>(capacity), steps)) && Run(Init<T>(capacity), steps).producers == {}
  {
    RunKeepsInv(Init<T>(capacity), steps);
  }

  // ---------------------------------------------------------------------------------------------------------------
  // A buffer that fills up loses a wakeup

  lemma {:induction false} Extend<T>(m: Monitor<T>, steps: seq<Step<T>>, step: Step<T>)
    requires Legal(m, steps) && Enabled(Run(m, steps), step)
    ensures Legal(m, steps + [step]) && Run(m, steps + [step]) == Next(Run(m, steps), step)
    decreases |steps|
  {
    if steps == [] {
      assert [] + [step] == [step] && [step][1..] == [];
    } else {
      assert (steps + [step])[0] == steps[0] && (steps + [step])[1..] == steps[1..] + [step];
      Extend(Next(m, steps[0]), steps[1..], step);
    }
  }

  function Range(from: nat, end: nat): (s: set<Thread>)
    ensures forall t :: t in s <==> from <= t < end
    decreases end
  {
    if from < end then Range(from, end - 1) + {end - 1} else {}
  }

  /** Nobody is about to notify; who waits and who has been woken. */
  ghost predicate Looks(m: Monitor<int>, capacity: nat, items: nat, consumers: set<Thread>, takers: set<Thread>,
                        producers: set<Thread>)
  {
    && m.capacity == capacity && |m.items| == items
    && m.consumers == consumers && m.takers == takers && m.producers == producers
    && m.adders == {} && m.notifying == {}
  }

  /** A run from the initial state, and where it leads. */
  ghost predicate Leads(steps: seq<Step<int>>, capacity: nat, items: nat, consumers: set<Thread>, takers: set<Thread>,
                        producers: set<Thread>)
  {
    && Legal(Init<int>(capacity), steps)
    && Looks(Run(Init<int>(capacity), steps), capacity, items, consumers, takers, producers)
  }

  /** Threads 0 to 2c - 1 wait for items. */
  lemma ConsumersWait(c: nat) returns (steps: seq<Step<int>>)
    ensures Leads(steps, c, 0, Range(0, 2 * c), {}, {})
  {
    steps := [];
    assert Range(0, 0) == {};
    for j := 0 to 2 * c
      invariant Leads(steps, c, 0, Range(0, j), {}, {})
    {
      Extend(Init<int>(c), steps, Remove(j));
      steps := steps + [Remove(j)];
      assert Range(0, j) + {j} == Range(0, j + 1);
    }
  }

  /** Thread 2c adds an item and wakes the waiting consumer j. */
  lemma AddAndWake(c: nat, j: nat, steps: seq<Step<int>>) returns (longer: seq<Step<int>>)
    requires j < c && Leads(steps, c, j, Range(j, 2 * c), Range(0, j), {})
    ensures Leads(longer, c, j + 1, Range(j + 1, 2 * c), Range(0, j + 1), {})
  {
    Extend(Init<int>(c), steps, Step.Add(2 * c, 0));
    longer := steps + [Step.Add(2 * c, 0)];
    Extend(Init<int>(c), longer, Notify(2 * c, j));
    longer := longer + [Notify(2 * c, j)];
    assert Range(j, 2 * c) - {j} == Range(j + 1, 2 * c);
    assert Range(0, j) + {j} == Range(0, j + 1);
  }

  /** Consumer j takes an item and wakes consumer c + j, although a producer waits too. */
  lemma TakeAndWake(c: nat, j: nat, steps: seq<Step<int>>) returns (longer: seq<Step<int>>)
    requires j < c && Leads(steps, c, c - j, Range(c + j, 2 * c), Range(j, c + j), {2 * c + 1})
    ensures Leads(longer, c, c - j - 1, Range(c + j + 1, 2 * c), Range(j + 1, c + j + 1), {2 * c + 1})
  {
    Extend(Init<int>(c), steps, Remove(j));
    longer := steps + [Remove(j)];
    Extend(Init<int>(c), longer, Notify(j, c + j));
    longer := longer + [Notify(j, c + j)];
    assert Range(c + j, 2 * c) - {c + j} == Range(c + j + 1, 2 * c);
    assert Range(j, c + j) - {j} + {c + j} == Range(j + 1, c + j + 1);
  }

  /** Consumer c + j finds nothing and waits again. */
  lemma FindNothing(c: nat, j: nat, steps: seq<Step<int>>) returns (longer: seq<Step<int>>)
    requires j < c && Leads(steps, c, 0, Range(c, c + j), Range(c + j, 2 * c), {2 * c + 1})
    ensures Leads(longer, c, 0, Range(c, c + j + 1), Range(c + j + 1, 2 * c), {2 * c + 1})
  {
    Extend(Init<int>(c), steps, Remove(c + j));
    longer := steps + [Remove(c + j)];
    assert Range(c + j, 2 * c) - {c + j} == Range(c + j + 1, 2 * c);
    assert Range(c, c + j) + {c + j} == Range(c, c + j + 1);
  }

  /** The buffer is full, c consumers have been woken, c more wait, and so does a producer. */
  lemma FillsUp(c: nat) returns (steps: seq<Step<int>>)
    ensures Leads(steps, c, c, Range(c, 2 * c), Range(0, c), {2 * c + 1})
  {
    steps := ConsumersWait(c);
    assert Range(0, 0) == {};
    for j := 0 to c
      invariant Leads(steps, c, j, Range(j, 2 * c), Range(0, j), {})
    {
      steps := AddAndWake(c, j, steps);
    }
    Extend(Init<int>(c), steps, Step.Add(2 * c + 1, 0));
    steps := steps + [Step.Add(2 * c + 1, 0)];
  }

  /** Whatever the capacity, a single condition variable with `notify_one` is safe only because the buffer never fills up:
      once it does, a producer can be left waiting although the buffer is empty, because the notifications meant for it
      went to consumers. */
  lemma FullBufferLosesWakeup(c: nat) returns (steps: seq<Step<int>>)
    requires c > 0
    ensures Legal(Init<int>(c), steps) && Lost(Run(Init<int>(c), steps))
  {
    steps := FillsUp(c);
    for j := 0 to c
      invariant Leads(steps, c, c - j, Range(c + j, 2 * c), Range(j, c + j), {2 * c + 1})
    {
      steps := TakeAndWake(c, j, steps);
    }
    assert Range(2 * c, 2 * c) == Range(c, c) == {};
    for j := 0 to c
      invariant Leads(steps, c, 0, Range(c, c + j), Range(c + j, 2 * c), {2 * c + 1})
    {
      steps := FindNothing(c, j, steps);
    }
  }

  // ---------------------------------------------------------------------------------------------------------------
  // Order

  /** The items that a run puts into the queue, in order. */
  function Arrived<T>(m: Monitor<T>, steps: seq<Step<T>>): seq<T>
    requires Legal(m, steps)
    decreases |steps|
  {
    if steps == [] then [] else Pushed(m, steps[0]) + Arrived(Next(m, steps[0]), steps[1..])
  }

  function Pushed<T>(m: Monitor<T>, step: Step<T>): seq<T> {
    if step.ClearAdd? || (step.Add? && |m.items| < m.capacity) then [step.x] else []
  }

  /** The items that left, in order. */
  function Values<T>(gone: seq<Left<T>>): seq<T> {
    if gone == [] then [] else [gone[0].x] + Values(gone[1..])
  }

  lemma {:induction false} ValuesConcat<T>(a: seq<Left<T>>, b: seq<Left<T>>)
    ensures Values(a + b) == Values(a) + Values(b)
  {
    if a == [] {
      assert a + b == b;
    } else {
      assert (a + b)[0] == a[0] && (a + b)[1..] == a[1..] + b;
      ValuesConcat(a[1..], b);
    }
  }

  lemma {:induction false} ValuesCleared<T>(items: seq<T>)
    ensures Values(AllCleared(items)) == items
  {
    if items != [] {
      var all := AllCleared(items);
      assert all[0] == Cleared(items[0]) && all[1..] == AllCleared(items[1..]);
      ValuesCleared(items[1..]);
    }
  }

  lemma StepInOrder<T>(m: Monitor<T>, step: Step<T>)
    requires Enabled(m, step)
    ensures var n := Next(m, step); Values(n.gone) + n.items == Values(m.gone) + m.items + Pushed(m, step)
  {
    if step.Remove? && m.items != [] {
      ValuesConcat(m.gone, [Taken(m.items[0])]);
      assert m.items == [m.items[0]] + m.items[1..];
    } else if step.Clear? || step.ClearAdd? {
      ValuesConcat(m.gone, AllCleared(m.items));
      ValuesCleared(m.items);
    }
  }

  /** First in, first out, in every run: what has left, taken or cleared, followed by what is queued is what arrived. */
  lemma {:induction false} FirstInFirstOut<T>(m: Monitor<T>, steps: seq<Step<T>>)
    requires Legal(m, steps)
    ensures Values(Run(m, steps).gone) + Run(m, steps).items == Values(m.gone) + m.items + Arrived(m, steps)
    decreases |steps|
  {
    if steps != [] {
      var n := Next(m, steps[0]);
      StepInOrder(m, steps[0]);
      FirstInFirstOut(n, steps[1..]);
      Associative(Values(m.gone) + m.items, Pushed(m, steps[0]), Arrived(n, steps[1..]));
    }
  }

  // ---------------------------------------------------------------------------------------------------------------
  // The buffer itself

  /** The shared buffer. Each method is one critical section, or the notification after it; the threads that the mutex
      and the condition variable keep track of are fields. `Valid` says that no wakeup has been lost. */
  class Buffer<T> {
    const size: nat
    var buffer: seq<T>
    var consumers: set<Thread>
    var producers: set<Thread>
    var takers: set<Thread>
    var adders: set<Thread>
    var notifying: set<Thread>
    ghost var gone: seq<Left<T>>

    ghost function View(): Monitor<T>
      reads this
    {
      Monitor(size, buffer, consumers, producers, takers, adders, notifying, gone)
    }

    ghost predicate Valid()
      reads this
    {
      Inv(View())
    }

    constructor ()
      ensures View() == Init(CAPACITY) && Valid()
    {
      size := CAPACITY;
      buffer, gone := [], [];
      consumers, producers, takers, adders, notifying := {}, {}, {}, {}, {};
    }

    /** `add` up to the unlock; `done` is false when the thread waits for room instead. */
    method AddLocked(t: Thread, x: T) returns (done: bool)
      requires Enabled(View(), Step.Add(t, x))
      modifies this
      ensures View() == Next(old(View()), Step.Add(t, x))
      ensures done <==> |old(buffer)| < size
      ensures if done then buffer == old(buffer) + [x] && t in notifying else buffer == old(buffer) && t in producers
      ensures old(Valid()) && done ==> Valid()
    {
      if |buffer| < size {
        EnterIfValid(Step.Add(t, x));
      }
      adders := adders - {t};
      done := |buffer| < size;
      if !done {
        producers := producers + {t};
        return;
      }
      buffer := buffer + [x];
      notifying := notifying + {t};
    }

    /** What the step leads to is valid. */
    lemma EnterIfValid(step: Step<T>)
      requires Enabled(View(), step) && Fits(View(), step)
      ensures Valid() ==> Inv(Next(View(), step))
    {
      if Valid() {
        StepKeepsInv(View(), step);
      }
    }

    /** `remove` up to the unlock; without a result the thread waits for an item. */
    method RemoveLocked(t: Thread) returns (done: bool, back: seq<T>)
      requires Enabled(View(), Remove(t))
      modifies this
      ensures View() == Next(old(View()), Step.Remove(t))
      ensures done <==> old(buffer) != []
      ensures back == if done then [old(buffer)[0]] else []
      ensures if done then buffer == old(buffer)[1..] && t in notifying else buffer == old(buffer) && t in consumers
      ensures old(Valid()) ==> Valid()
    {
      EnterIfValid(Remove(t));
      takers := takers - {t};
      done := |buffer| > 0;
      if !done {
        consumers := consumers + {t};
        back := [];
        return;
      }
      back := [buffer[0]];
      gone := gone + [Taken(buffer[0])];
      buffer := buffer[1..];
      notifying := notifying + {t};
    }

    method ClearLocked(t: Thread)
      requires Enabled(View(), Clear(t))
      modifies this
      ensures View() == Next(old(View()), Step.Clear(t))
      ensures buffer == [] && t in notifying && Values(gone) == Values(old(gone)) + old(buffer)
      ensures old(Valid()) ==> Valid()
    {
      EnterIfValid(Clear(t));
      ValuesConcat(gone, AllCleared(buffer));
      ValuesCleared(buffer);
      gone := gone + AllCleared(buffer);
      buffer := [];
      notifying := notifying + {t};
    }

    method ClearAddLocked(t: Thread, x: T)
      requires Enabled(View(), ClearAdd(t, x))
      modifies this
      ensures View() == Next(old(View()), Step.ClearAdd(t, x))
      ensures buffer == [x] && t in notifying && Values(gone) == Values(old(gone)) + old(buffer)
      ensures old(Valid()) ==> Valid()
    {
      EnterIfValid(ClearAdd(t, x));
      ValuesConcat(gone, AllCleared(buffer));
      ValuesCleared(buffer);
      gone := gone + AllCleared(buffer);
      buffer := [];
      buffer := buffer + [x];
      notifying := notifying + {t};
    }

    /** `notify_one`, or a spurious wakeup: the system picks the waiter `w`, if anybody waits. */
    method NotifyOne(t: Thread, w: Thread)
      requires Enabled(View(), Notify(t, w))
      modifies this
      ensures View() == Next(old(View()), Notify(t, w))
      ensures t !in notifying && (w in old(consumers + producers) ==> w in takers + adders && w !in consumers)
      ensures old(Valid()) ==> Valid()
    {
      EnterIfValid(Notify(t, w));
      notifying := notifying - {t};
      WakeUp(w);
    }

    method WakeUp(w: Thread)
      modifies this`consumers, this`producers, this`takers, this`adders
      ensures View() == if w in old(consumers) || w in old(producers) then Wake(old(View()), w) else old(View())
    {
      if w in consumers {
        consumers, takers := consumers - {w}, takers + {w};
      } else if w in producers {
        producers, adders := producers - {w}, adders + {w};
      }
    }

    method Take(step: Step<T>)
      requires Enabled(View(), step)
      modifies this
      ensures View() == Next(old(View()), step)
    {
      match step
      case Add(t, x) => var _ := AddLocked(t, x);
      case Remove(t) => var _, _ := RemoveLocked(t);
      case Clear(t) => ClearLocked(t);
      case ClearAdd(t, x) => ClearAddLocked(t, x);
      case Notify(t, w) => NotifyOne(t, w);
      case Spurious(w) => WakeUp(w);
    }

    /** Any number of threads at work: unless the buffer has been full, no wakeup is lost; and items leave in the order in
        which they arrived, whether they are taken or cleared. */
    method Play(steps: seq<Step<T>>)
      requires Legal(View(), steps)
      modifies this
      ensures View() == Run(old(View()), steps)
      ensures old(Valid()) && NeverFull(old(View()), steps) ==> Valid() && !Lost(View())
      ensures Values(gone) + buffer == Values(old(gone)) + old(buffer) + Arrived(old(View()), steps)
    {
      FirstInFirstOut(View(), steps);
      if Valid() && NeverFull(View(), steps) {
        RunKeepsInv(View(), steps);
      }
      for i := 0 to |steps|
        invariant Legal(View(), steps[i..])
        invariant Run(View(), steps[i..]) == Run(old(View()), steps)
      {
        assert steps[i..][0] == steps[i] && steps[i..][1..] == steps[i + 1..];
        Take(steps[i]);
      }
    }
  }
}
