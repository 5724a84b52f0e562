/** The context-carrying predicate wrapper: every evaluation reactivates the wrapper's
    snapshot, evaluates the delegate (and, for `and`/`or`, the other operand only when the
    first does not decide), hands a fresh snapshot to the optional consumer, and closes the
    reactivated context on every exit path. Calls on the snapshot, the context, the operands
    and the consumer are recorded, in order, as a trace of events. */
module ContextFunctions {
  import opened Wrappers
  import opened Throwables

  datatype Thread = Thread(id: nat)

  /** The value slot of the dummy context manager: at most one current value per thread. */
  type Slots = map<Thread, string>

  function Current(slots: Slots, t: Thread): Option<string> {
    if t in slots then Some(slots[t]) else None
  }

  /** Makes `value` current on `t`; absence clears the slot. */
  function Assign(slots: Slots, t: Thread, value: Option<string>): (r: Slots)
    ensures Current(r, t) == value
    ensures forall u :: u != t ==> Current(r, u) == Current(slots, u)
  {
    if value.Some? then slots[t := value.value] else slots - {t}
  }

  /** A context snapshot. A mocked one answers `reactivate()` with its stubbed mock context,
      or with null when unstubbed, and touches no slot; a captured one holds the dummy
      manager's value at capture time. */
  datatype Snapshot =
    | MockSnapshot(id: nat, stub: Option<nat>)
    | Captured(value: Option<string>)

  /** What `reactivate()` returns. Closing `Restoring` puts `previous` back on `thread`;
      `NothingReactivated` is the handle of a snapshot that captured no value. */
  datatype Context =
    | MockContext(id: nat)
    | Restoring(thread: Thread, previous: Option<string>)
    | NothingReactivated

  datatype Event =
    | Reactivated(snapshot: Snapshot)
    | EvaluatedFirst
    | EvaluatedSecond
    | Consumed(consumer: nat, snapshot: Snapshot)
    | Closed(context: Context)

  datatype EventKind = Reactivation | FirstEvaluation | SecondEvaluation | Consumption | Closing

  function KindOf(e: Event): EventKind {
    match e
    case Reactivated(_) => Reactivation
    case EvaluatedFirst => FirstEvaluation
    case EvaluatedSecond => SecondEvaluation
    case Consumed(_, _) => Consumption
    case Closed(_) => Closing
  }

  /** How many events of one kind a trace holds. */
  function Count(events: seq<Event>, kind: EventKind): nat {
    if events == [] then 0
    else (if KindOf(events[0]) == kind then 1 else 0) + Count(events[1..], kind)
  }

  /** What a predicate does on one input: possibly set the current value on the executing
      thread, then return a boolean or throw. */
  datatype Behaviour = Behaviour(sets: Option<string>, outcome: Result<bool, Throwable>)

  /** Where a wrapper gets its snapshot: given at construction, or asked of a supplier on
      every evaluation. */
  datatype SnapshotSource = Given(snapshot: Snapshot) | Supplied(get: () -> Snapshot)

  /** A wrapper around `delegate`; `consumer` identifies the optional snapshot consumer. */
  datatype PredicateWithContext<!T> =
    PredicateWithContext(source: SnapshotSource, delegate: T -> Behaviour, consumer: Option<nat>)

  datatype Connective = And | Or

  /** The second operand of an `and`/`or` combination; it is evaluated unwrapped. */
  datatype Operand<!T> = Operand(connective: Connective, other: T -> Behaviour)

  /** The predicate `and`/`or` return: both operands under one reactivation of `wrapper`'s snapshot. */
  datatype Combined<!T> = Combined(wrapper: PredicateWithContext<T>, operand: Operand<T>)

  const NoSnapshotMessage := "No context snapshot provided"
  const NoSupplierMessage := "No context snapshot supplier provided"
  const AndNullMessage := "'and' <null>"
  const OrNullMessage := "'or' <null>"

  /** Constructor from a snapshot: a null snapshot is rejected at once. */
  function WithSnapshot<T>(snapshot: Option<Snapshot>, delegate: T -> Behaviour, consumer: Option<nat>)
    : (r: Result<PredicateWithContext<T>, Throwable>)
    ensures r.Err? <==> snapshot.None?
    ensures r.Err? ==> r.error == NullPointer(NoSnapshotMessage)
    ensures r.Ok? ==> SnapshotOf(r.value.source) == snapshot.value
    ensures r.Ok? ==> r.value.delegate == delegate && r.value.consumer == consumer
  {
    if snapshot.None? then Err(NullPointer(NoSnapshotMessage))
    else Ok(PredicateWithContext(Given(snapshot.value), delegate, consumer))
  }

  /** Constructor from a snapshot supplier: a null supplier is rejected at once. */
  function WithSupplier<T>(supplier: Option<() -> Snapshot>, delegate: T -> Behaviour, consumer: Option<nat>)
    : (r: Result<PredicateWithContext<T>, Throwable>)
    ensures r.Err? <==> supplier.None?
    ensures r.Err? ==> r.error == NullPointer(NoSupplierMessage)
    ensures r.Ok? ==> SnapshotOf(r.value.source) == supplier.value()
    ensures r.Ok? ==> r.value.delegate == delegate && r.value.consumer == consumer
  {
    if supplier.None? then Err(NullPointer(NoSupplierMessage))
    else Ok(PredicateWithContext(Supplied(supplier.value), delegate, consumer))
  }

  /** `and(other)`: a null operand is rejected at once, before anything is evaluated. */
  function AndThen<T>(p: PredicateWithContext<T>, other: Option<T -> Behaviour>): (r: Result<Combined<T>, Throwable>)
    ensures r.Err? <==> other.None?
    ensures r.Err? ==> r.error == NullPointer(AndNullMessage)
    ensures r.Ok? ==> r.value.wrapper == p && r.value.operand == Operand(And, other.value)
  {
    if other.None? then Err(NullPointer(AndNullMessage)) else Ok(Combined(p, Operand(And, other.value)))
  }

  /** `or(other)`: a null operand is rejected at once, before anything is evaluated. */
  function OrElse<T>(p: PredicateWithContext<T>, other: Option<T -> Behaviour>): (r: Result<Combined<T>, Throwable>)
    ensures r.Err? <==> other.None?
    ensures r.Err? ==> r.error == NullPointer(OrNullMessage)
    ensures r.Ok? ==> r.value.wrapper == p && r.value.operand == Operand(Or, other.value)
  {
    if other.None? then Err(NullPointer(OrNullMessage)) else Ok(Combined(p, Operand(Or, other.value)))
  }

  function SnapshotOf(source: SnapshotSource): Snapshot {
    match source
    case Given(s) => s
    case Supplied(get) => get()
  }

  /** The context `s.reactivate()` returns on thread `t`, if any. */
  function ReactivationOf(s: Snapshot, t: Thread, slots: Slots): Option<Context> {
    match s
    case MockSnapshot(_, stub) => if stub.Some? then Some(MockContext(stub.value)) else None
    case Captured(v) => Some(if v.Some? then Restoring(t, Current(slots, t)) else NothingReactivated)
  }

  /** The slots after `s.reactivate()` on thread `t`. */
  function ReactivatedSlots(s: Snapshot, t: Thread, slots: Slots): Slots {
    if s.Captured? && s.value.Some? then Assign(slots, t, s.value) else slots
  }

  /** The slots after closing `c`. */
  function ClosedSlots(c: Context, slots: Slots): Slots {
    if c.Restoring? then Assign(slots, c.thread, c.previous) else slots
  }

  /** The slots after a predicate behaved as `b` on thread `t`. */
  function PerformedSlots(b: Behaviour, t: Thread, slots: Slots): Slots {
    if b.sets.Some? then Assign(slots, t, b.sets) else slots
  }

  /** Whether the first operand's result alone decides the combination. */
  function Decides(c: Connective, first: bool): bool {
    match c
    case And => !first
    case Or => first
  }

  /** What one evaluation records, leaves in the slots and returns. */
  datatype Run = Run(events: seq<Event>, slots: Slots, outcome: Result<bool, Throwable>)

  /** The body inside the reactivation: the delegate, then the operand unless the delegate
      threw or decided the result. */
  function Evaluation<T>(delegate: T -> Behaviour, operand: Option<Operand<T>>, input: T, t: Thread, slots: Slots): (r: Run)
    ensures r.events == [EvaluatedFirst] ==> r.outcome == delegate(input).outcome
    ensures r.events == [EvaluatedFirst, EvaluatedSecond] ==>
              operand.Some? && delegate(input).outcome.Ok? && r.outcome == operand.value.other(input).outcome
    ensures r.events == [EvaluatedFirst] || r.events == [EvaluatedFirst, EvaluatedSecond]
    ensures forall u :: u != t ==> Current(r.slots, u) == Current(slots, u)
  {
    var first := delegate(input);
    var afterFirst := PerformedSlots(first, t, slots);
    if operand.None? || first.outcome.Err? || Decides(operand.value.connective, first.outcome.value) then
      Run([EvaluatedFirst], afterFirst, first.outcome)
    else
      var second := operand.value.other(input);
      Run([EvaluatedFirst, EvaluatedSecond], PerformedSlots(second, t, afterFirst), second.outcome)
  }

  /** One evaluation of a wrapper (with an operand for a combination) on thread `t`. */
  function Invocation<T>(p: PredicateWithContext<T>, operand: Option<Operand<T>>, input: T, t: Thread, slots: Slots): (r: Run)
    ensures 2 <= |r.events| && r.events[0] == Reactivated(SnapshotOf(p.source)) && r.events[1] == EvaluatedFirst
    ensures r.outcome == Evaluation(p.delegate, operand, input, t, ReactivatedSlots(SnapshotOf(p.source), t, slots)).outcome
    ensures forall u :: u != t ==> Current(r.slots, u) == Current(slots, u)
  {
    var s := SnapshotOf(p.source);
    var context := ReactivationOf(s, t, slots);
    var inner := Evaluation(p.delegate, operand, input, t, ReactivatedSlots(s, t, slots));
    var consumed := if p.consumer.Some? then [Consumed(p.consumer.value, Captured(Current(inner.slots, t)))] else [];
    var closed := if context.Some? then [Closed(context.value)] else [];
    Run([Reactivated(s)] + inner.events + consumed + closed,
        if context.Some? then ClosedSlots(context.value, inner.slots) else inner.slots,
        inner.outcome)
  }

  lemma {:induction false} CountAppend(a: seq<Event>, b: seq<Event>, kind: EventKind)
    ensures Count(a + b, kind) == Count(a, kind) + Count(b, kind)
  {
    if a == [] {
      assert a + b == b;
    } else {
      assert (a + b)[0] == a[0] && (a + b)[1..] == a[1..] + b;
      CountAppend(a[1..], b, kind);
    }
  }

  lemma CountOne(e: Event, kind: EventKind)
    ensures Count([e], kind) == if KindOf(e) == kind then 1 else 0
  {
  }

  lemma CountParts(a: seq<Event>, b: seq<Event>, c: seq<Event>, d: seq<Event>, kind: EventKind)
    ensures Count(a + b + c + d, kind) == Count(a, kind) + Count(b, kind) + Count(c, kind) + Count(d, kind)
  {
    CountAppend(a + b + c, d, kind);
    CountAppend(a + b, c, kind);
    CountAppend(a, b, kind);
  }

  /** Counting over the frame an evaluation puts around its inner events: one reactivation
      in front, then at most one consumption and at most one closing. */
  lemma CountFrame(s: Snapshot, inner: seq<Event>, consumed: seq<Event>, closed: seq<Event>, kind: EventKind)
    requires consumed == [] || (|consumed| == 1 && consumed[0].Consumed?)
    requires closed == [] || (|closed| == 1 && closed[0].Closed?)
    ensures Count([Reactivated(s)] + inner + consumed + closed, kind)
         == (if kind == Reactivation then 1 else 0)
          + Count(inner, kind)
          + (if kind == Consumption && consumed != [] then 1 else 0)
          + (if kind == Closing && closed != [] then 1 else 0)
  {
    CountParts([Reactivated(s)], inner, consumed, closed, kind);
    CountOne(Reactivated(s), kind);
    if consumed != [] { CountOne(consumed[0], kind); }
    if closed != [] { CountOne(closed[0], kind); }
  }

  /** The number of events of each kind in one evaluation, split along its four parts. */
  lemma InvocationCounts<T>(p: PredicateWithContext<T>, operand: Option<Operand<T>>, input: T, t: Thread, slots: Slots, kind: EventKind)
    ensures var s := SnapshotOf(p.source);
            var inner := Evaluation(p.delegate, operand, input, t, ReactivatedSlots(s, t, slots));
            Count(Invocation(p, operand, input, t, slots).events, kind)
              == (if kind == Reactivation then 1 else 0)
               + Count(inner.events, kind)
               + (if kind == Consumption && p.consumer.Some? then 1 else 0)
               + (if kind == Closing && ReactivationOf(s, t, slots).Some? then 1 else 0)
  {
    var s := SnapshotOf(p.source);
    var context := ReactivationOf(s, t, slots);
    var inner := Evaluation(p.delegate, operand, input, t, ReactivatedSlots(s, t, slots));
    var consumed := if p.consumer.Some? then [Consumed(p.consumer.value, Captured(Current(inner.slots, t)))] else [];
    var closed := if context.Some? then [Closed(context.value)] else [];
    assert Invocation(p, operand, input, t, slots).events == [Reactivated(s)] + inner.events + consumed + closed;
    CountFrame(s, inner.events, consumed, closed, kind);
  }

  lemma EvaluationCounts<T>(delegate: T -> Behaviour, operand: Option<Operand<T>>, input: T, t: Thread, slots: Slots, kind: EventKind)
    ensures var events := Evaluation(delegate, operand, input, t, slots).events;
            Count(events, kind) == (if kind == FirstEvaluation then 1 else 0)
                                 + (if kind == SecondEvaluation && |events| == 2 then 1 else 0)
  {
  }

  /** Every evaluation starts by reactivating the wrapper's snapshot and reactivates it
      exactly once, evaluates the delegate exactly once, and makes no other call on the
      snapshot. */
  lemma ReactivatesOnce<T>(p: PredicateWithContext<T>, operand: Option<Operand<T>>, input: T, t: Thread, slots: Slots)
    ensures var events := Invocation(p, operand, input, t, slots).events;
            && events[0] == Reactivated(SnapshotOf(p.source))
            && Count(events, Reactivation) == 1
            && Count(events, FirstEvaluation) == 1
  {
    var s := SnapshotOf(p.source);
    EvaluationCounts(p.delegate, operand, input, t, ReactivatedSlots(s, t, slots), Reactivation);
    EvaluationCounts(p.delegate, operand, input, t, ReactivatedSlots(s, t, slots), FirstEvaluation);
    InvocationCounts(p, operand, input, t, slots, Reactivation);
    InvocationCounts(p, operand, input, t, slots, FirstEvaluation);
  }

  /** The reactivated context, when `reactivate()` returned one, is closed exactly once and
      last, whether the delegate returned or threw; nothing is closed when it returned none. */
  lemma ClosesOnce<T>(p: PredicateWithContext<T>, operand: Option<Operand<T>>, input: T, t: Thread, slots: Slots)
    ensures var context := ReactivationOf(SnapshotOf(p.source), t, slots);
            var events := Invocation(p, operand, input, t, slots).events;
            && Count(events, Closing) == (if context.Some? then 1 else 0)
            && (context.Some? ==> events[|events| - 1] == Closed(context.value))
  {
    var s := SnapshotOf(p.source);
    EvaluationCounts(p.delegate, operand, input, t, ReactivatedSlots(s, t, slots), Closing);
    InvocationCounts(p, operand, input, t, slots, Closing);
  }

  /** The snapshot consumer, when there is one, is called exactly once per evaluation, after
      the operands and before the close; without one nothing is consumed. */
  lemma ConsumesOnce<T>(p: PredicateWithContext<T>, operand: Option<Operand<T>>, input: T, t: Thread, slots: Slots)
    ensures var events := Invocation(p, operand, input, t, slots).events;
            && Count(events, Consumption) == (if p.consumer.Some? then 1 else 0)
            && (p.consumer.Some? ==>
                  exists k :: 0 < k < |events| && events[k].Consumed? && events[k].consumer == p.consumer.value
                    && events[k].snapshot == Captured(Current(Evaluation(p.delegate, operand, input, t,
                                                        ReactivatedSlots(SnapshotOf(p.source), t, slots)).slots, t))
                    && (forall j :: k < j < |events| ==> events[j].Closed?)
                    && (forall j :: 0 < j < k ==> events[j].EvaluatedFirst? || events[j].EvaluatedSecond?))
  {
    var s := SnapshotOf(p.source);
    var inner := Evaluation(p.delegate, operand, input, t, ReactivatedSlots(s, t, slots));
    EvaluationCounts(p.delegate, operand, input, t, ReactivatedSlots(s, t, slots), Consumption);
    InvocationCounts(p, operand, input, t, slots, Consumption);
    if p.consumer.Some? {
      var events := Invocation(p, operand, input, t, slots).events;
      var k := 1 + |inner.events|;
      assert events[k].Consumed? && events[k].consumer == p.consumer.value;
    }
  }

  /** An exception from the delegate reaches the caller as that very instance, and the other
      operand is then never evaluated. */
  lemma PropagatesDelegateException<T>(p: PredicateWithContext<T>, operand: Option<Operand<T>>, input: T, t: Thread, slots: Slots)
    requires p.delegate(input).outcome.Err?
    ensures var run := Invocation(p, operand, input, t, slots);
            && run.outcome == p.delegate(input).outcome
            && Count(run.events, SecondEvaluation) == 0
  {
    var s := SnapshotOf(p.source);
    EvaluationCounts(p.delegate, operand, input, t, ReactivatedSlots(s, t, slots), SecondEvaluation);
    InvocationCounts(p, operand, input, t, slots, SecondEvaluation);
  }

  /** `and`/`or` evaluate the other operand exactly when the first result does not decide the
      combination: then the result is the other operand's; otherwise it is the first result
      and the other operand is never invoked. */
  lemma ShortCircuits<T>(c: Combined<T>, input: T, t: Thread, slots: Slots)
    requires c.wrapper.delegate(input).outcome.Ok?
    ensures var first := c.wrapper.delegate(input).outcome.value;
            var run := Invocation(c.wrapper, Some(c.operand), input, t, slots);
            && (Decides(c.operand.connective, first) ==>
                  run.outcome == Ok(first) && Count(run.events, SecondEvaluation) == 0)
            && (!Decides(c.operand.connective, first) ==>
                  run.outcome == c.operand.other(input).outcome && Count(run.events, SecondEvaluation) == 1)
  {
    var s := SnapshotOf(c.wrapper.source);
    EvaluationCounts(c.wrapper.delegate, Some(c.operand), input, t, ReactivatedSlots(s, t, slots), SecondEvaluation);
    InvocationCounts(c.wrapper, Some(c.operand), input, t, slots, SecondEvaluation);
  }

  /** When both operands return, a combination returns their conjunction or disjunction. */
  lemma CombinationValue<T>(c: Combined<T>, input: T, t: Thread, slots: Slots)
    requires c.wrapper.delegate(input).outcome.Ok? && c.operand.other(input).outcome.Ok?
    ensures var a := c.wrapper.delegate(input).outcome.value;
            var b := c.operand.other(input).outcome.value;
            Invocation(c.wrapper, Some(c.operand), input, t, slots).outcome
              == Ok(if c.operand.connective == And then a && b else a || b)
  {
  }

  /** An evaluation on thread `t` leaves every other thread's current value as it was. */
  lemma OtherThreadsUntouched<T>(p: PredicateWithContext<T>, operand: Option<Operand<T>>, input: T, t: Thread, slots: Slots)
    ensures forall u :: u != t ==> Current(Invocation(p, operand, input, t, slots).slots, u) == Current(slots, u)
  {
  }

  /** Reactivating a snapshot that captured a value and closing it afterwards restores the
      executing thread's value exactly, whatever the operands set in between. */
  lemma RestoresExecutingThread<T>(p: PredicateWithContext<T>, operand: Option<Operand<T>>, input: T, t: Thread, slots: Slots)
    requires SnapshotOf(p.source).Captured? && SnapshotOf(p.source).value.Some?
    ensures Current(Invocation(p, operand, input, t, slots).slots, t) == Current(slots, t)
  {
  }

  /** What the consumer receives, for any delegate: a snapshot of the executing thread's
      value once the operands ran (the delegate's own value when it alone ran and set one).
      Reactivating that snapshot on another thread shows its value there, and closing the
      context restores that thread's value from before the evaluation. */
  lemma ConsumedSnapshotRoundTrip<T>(p: PredicateWithContext<T>, operand: Option<Operand<T>>, input: T, t: Thread, u: Thread, slots: Slots)
    requires p.consumer.Some? && u != t
    ensures var run := Invocation(p, operand, input, t, slots);
            var inner := Evaluation(p.delegate, operand, input, t, ReactivatedSlots(SnapshotOf(p.source), t, slots));
            var held := Captured(Current(inner.slots, t));
            var reactivated := ReactivatedSlots(held, u, run.slots);
            var context := ReactivationOf(held, u, run.slots);
            && Consumed(p.consumer.value, held) in run.events
            && (inner.events == [EvaluatedFirst] && p.delegate(input).sets.Some? ==> held.value == p.delegate(input).sets)
            && (held.value.Some? ==> Current(reactivated, u) == held.value)
            && context.Some?
            && (held.value.Some? ==> Current(ClosedSlots(context.value, reactivated), u) == Current(slots, u))
  {
    ConsumesOnce(p, operand, input, t, slots);
  }

  /** The consumer scenario: the caller holds "Old value"; on another thread a wrapper
      around an unstubbed mock snapshot runs a delegate that sets "New value". The consumer
      receives a snapshot of "New value"; the caller still sees "Old value"; reactivating
      the consumed snapshot on the caller shows "New value", and closing it brings back
      "Old value". The mock snapshot is reactivated once and no context is closed. */
  lemma SnapshotConsumerScenario(caller: Thread, worker: Thread, mock: nat, consumer: nat, slots: Slots)
    requires caller != worker && Current(slots, caller) == Some("Old value")
    ensures var p := PredicateWithContext(Given(MockSnapshot(mock, None)),
                                          (input: string) => Behaviour(Some("New value"), Ok(true)),
                                          Some(consumer));
            var run := Invocation(p, None, "input", worker, slots);
            var held := Captured(Some("New value"));
            var reactivated := ReactivatedSlots(held, caller, run.slots);
            var context := ReactivationOf(held, caller, run.slots);
            && run.outcome == Ok(true)
            && run.events == [Reactivated(MockSnapshot(mock, None)), EvaluatedFirst, Consumed(consumer, held)]
            && Current(run.slots, caller) == Some("Old value")
            && Current(reactivated, caller) == Some("New value")
            && context.Some?
            && Current(ClosedSlots(context.value, reactivated), caller) == Some("Old value")
  {
  }

  /** Per-thread slots of the dummy context manager, and the record of every call the
      wrappers make on snapshots, contexts, operands and consumers. */
  class ContextRuntime {
    var slots: Slots
    var trace: seq<Event>

    constructor()
      ensures slots == map[] && trace == []
    {
      slots := map[];
      trace := [];
    }

    function CurrentValue(t: Thread): (r: Option<string>)
      reads this
      ensures r.Some? <==> t in slots
      ensures r.Some? ==> r.value == slots[t]
    {
      Current(slots, t)
    }

    /** The dummy manager's `setCurrentValue` on thread `t`. */
    method SetCurrentValue(t: Thread, value: string)
      modifies this
      ensures slots == Assign(old(slots), t, Some(value)) && trace == old(trace)
    {
      slots := Assign(slots, t, Some(value));
    }

    /** `s.reactivate()` on thread `t`. */
    method Reactivate(s: Snapshot, t: Thread) returns (context: Option<Context>)
      modifies this
      ensures context == ReactivationOf(s, t, old(slots))
      ensures slots == ReactivatedSlots(s, t, old(slots))
      ensures trace == old(trace) + [Reactivated(s)]
    {
      trace := trace + [Reactivated(s)];
      match s {
        case MockSnapshot(_, stub) =>
          context := if stub.Some? then Some(MockContext(stub.value)) else None;
        case Captured(v) =>
          if v.Some? {
            context := Some(Restoring(t, CurrentValue(t)));
            slots := Assign(slots, t, v);
          } else {
            context := Some(NothingReactivated);
          }
      }
    }

    /** `context.close()`. */
    method Close(context: Context)
      modifies this
      ensures slots == ClosedSlots(context, old(slots))
      ensures trace == old(trace) + [Closed(context)]
    {
      trace := trace + [Closed(context)];
      if context.Restoring? {
        slots := Assign(slots, context.thread, context.previous);
      }
    }

    /** Runs predicate behaviour `b` on thread `t` and records it as `event`. */
    method Perform(b: Behaviour, t: Thread, event: Event) returns (outcome: Result<bool, Throwable>)
      modifies this
      ensures slots == PerformedSlots(b, t, old(slots)) && trace == old(trace) + [event]
      ensures outcome == b.outcome
    {
      trace := trace + [event];
      if b.sets.Some? {
        slots := Assign(slots, t, b.sets);
      }
      outcome := b.outcome;
    }

    /** The body of the try block: the delegate, then the operand unless the delegate threw
        or decided the result. */
    method EvaluateOperands<T>(delegate: T -> Behaviour, operand: Option<Operand<T>>, input: T, t: Thread)
      returns (r: Result<bool, Throwable>)
      modifies this
      ensures var run := Evaluation(delegate, operand, input, t, old(slots));
              trace == old(trace) + run.events && slots == run.slots && r == run.outcome
    {
      r := Perform(delegate(input), t, EvaluatedFirst);
      if operand.Some? && r.Ok? && !Decides(operand.value.connective, r.value) {
        r := Perform(operand.value.other(input), t, EvaluatedSecond);
      }
    }

    /** Reactivate, evaluate the operands, consume, and close in a finally. */
    method Evaluate<T>(p: PredicateWithContext<T>, operand: Option<Operand<T>>, input: T, t: Thread)
      returns (r: Result<bool, Throwable>)
      modifies this
      ensures var run := Invocation(p, operand, input, t, old(slots));
              trace == old(trace) + run.events && slots == run.slots && r == run.outcome
    {
      var s := SnapshotOf(p.source);
      var context := Reactivate(s, t);
      r := EvaluateOperands(p.delegate, operand, input, t);
      if p.consumer.Some? {
        trace := trace + [Consumed(p.consumer.value, Captured(CurrentValue(t)))];
      }
      if context.Some? {
        Close(context.value);
      }
    }

    /** `test(input)` on thread `t`. */
    method Test<T>(p: PredicateWithContext<T>, input: T, t: Thread) returns (r: Result<bool, Throwable>)
      modifies this
      ensures var run := Invocation(p, None, input, t, old(slots));
              trace == old(trace) + run.events && slots == run.slots && r == run.outcome
    {
      r := Evaluate(p, None, input, t);
    }

    /** `test(input)` of the predicate `and`/`or` returned, on thread `t`. */
    method TestCombined<T>(c: Combined<T>, input: T, t: Thread) returns (r: Result<bool, Throwable>)
      modifies this
      ensures var run := Invocation(c.wrapper, Some(c.operand), input, t, old(slots));
              trace == old(trace) + run.events && slots == run.slots && r == run.outcome
    {
      r := Evaluate(c.wrapper, Some(c.operand), input, t);
    }
  }
}
