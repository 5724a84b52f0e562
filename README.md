# context-propagation: provider loading and the context-carrying predicate, in Dafny

This project models two sequential pieces of the context-propagation library and proves
their properties.

**`PriorityServiceLoader`** finds the installed providers of a service type and caches
them. It is a two-state cache: there is either no list or a cached, non-empty list.
`iterator()` returns the cached list if there is one. Otherwise it runs a discovery pass.
The pass asks the platform `ServiceLoader` for a provider iterator. If that class is
missing, it falls back to the Java 5 `ServiceRegistry` lookup by reflection. The pass then
walks the providers one by one. It drops nulls. It skips providers that fail with a
`RuntimeException` or a `ServiceConfigurationError`. It rethrows any other error. It sorts
the survivors when priority support is present. A non-empty result is cached; an empty
result is returned but not cached. `reload()` clears the cache.

Module `ServiceLoading` (`service_loader.dfy`) holds the model:
- the class `PriorityServiceLoader` with its `delegate` field;
- the pure outcome mappings `LoadServices`, `LoadJava5Services` and `IsServiceConfigurationError`;
- the collecting loop's specification `Collect` and its reference definition `Providers`.

The platform discovery is an input. A `Discovery` value says what the platform loader, the
reflective fallback and each round of the provider iterator do.

Module `PrioritySort` (`priority_sort.dfy`) holds the priority ordering.

**`PredicateWithContext`** wraps a predicate so that every evaluation runs inside a
reactivated context snapshot. Its tests fix this protocol:
- the snapshot is reactivated once per evaluation;
- the returned context is closed once, also when the delegate throws;
- the delegate's exception reaches the caller unchanged;
- `and`/`or` run both operands under one reactivation and short-circuit;
- the optional snapshot consumer is called once with a snapshot taken after the operands ran;
- null arguments are rejected at once.

Module `ContextFunctions` (`predicate_with_context.dfy`) models the wrapper and its
combinations as values. The pure function `Invocation` specifies one evaluation: the events
it records, the per-thread values it leaves, and its outcome. The class `ContextRuntime`
holds the mutable part: one current-value slot per thread (the test's dummy context manager)
and the trace of calls made on snapshots, contexts, operands and consumers. Its methods
perform an evaluation step by step and are proved against `Invocation`. The lemmas state
the protocol's guarantees about `Invocation`.

`wrappers.dfy` (Option, Result) and `throwables.dfy` (the Java exception kinds the routing
depends on) are shared helpers.

Two facts about the code are worth stating on their own:
- The snapshot consumer gets a snapshot taken on the executing thread after the delegate
  ran (PredicateWithContextTest.java:96-117). Reactivating that snapshot shows the value the
  delegate set.
- A failure to start discovery gives an empty list in only three cases: a `RuntimeException` from
  `ServiceLoader` (PriorityServiceLoader.java:94-96), a missing registry class, or denied
  access (PriorityServiceLoader.java:106-111). A `LinkageError` when the pass starts falls
  back to the Java 5 lookup (PriorityServiceLoader.java:91-93). Any other throwable from
  `ServiceLoader.load`, a `ServiceConfigurationError` included, propagates. A missing
  lookup method becomes an `IllegalStateException`. A failing lookup rethrows its
  `RuntimeException` or wraps its cause in an `UnsupportedOperationException`
  (PriorityServiceLoader.java:108-115). While the providers are iterated, errors other than
  `ServiceConfigurationError` propagate (PriorityServiceLoader.java:55-59).

## Model

| member | source | states |
|---|---|---|
| `ServiceLoading.PriorityServiceLoader.constructor` | context-propagation-java5/src/main/java/nl/talsmasoftware/context/PriorityServiceLoader.java:39-41 | A new loader has no cached list. |
| `ServiceLoading.PriorityServiceLoader.Reload` | context-propagation-java5/src/main/java/nl/talsmasoftware/context/PriorityServiceLoader.java:43-45 | The cache is cleared, so the next use runs discovery again. The cache invariant is kept. |
| `ServiceLoading.PriorityServiceLoader.Delegate` | context-propagation-java5/src/main/java/nl/talsmasoftware/context/PriorityServiceLoader.java:47-75 | With a list cached, returns that same list and ignores discovery. Otherwise returns the result of a fresh pass and caches it only if it is a non-empty list. An empty result or a thrown exception leaves the cache unset. Keeps the invariant that a cached list is non-empty, and sorted when priority support is present. The filtering loop is proved against `Collect` by its invariant. |
| `ServiceLoading.PriorityServiceLoader.Iterator` | context-propagation-java5/src/main/java/nl/talsmasoftware/context/PriorityServiceLoader.java:120-122 | Same cache behaviour as `Delegate`, whose list it iterates. |
| `ServiceLoading.IsServiceConfigurationError` | context-propagation-java5/src/main/java/nl/talsmasoftware/context/PriorityServiceLoader.java:77-85 | True exactly when the error is a `ServiceConfigurationError` and that class exists. False for a `LinkageError` or any other error, and false where the class is missing, because the failing instance test answers false. |
| `ServiceLoading.LoadServices` | context-propagation-java5/src/main/java/nl/talsmasoftware/context/PriorityServiceLoader.java:87-98 | Uses the platform loader's iterator when it is available. A `LinkageError` falls back to the Java 5 lookup. A `RuntimeException` gives no providers. Any other throwable propagates. |
| `ServiceLoading.LoadJava5Services` | context-propagation-java5/src/main/java/nl/talsmasoftware/context/PriorityServiceLoader.java:100-118 | A missing registry class or denied access gives no providers. A missing lookup method gives an `IllegalStateException` with that cause. A failing lookup always surfaces as a RuntimeException: its own cause if that is one, otherwise an `UnsupportedOperationException` wrapping the cause. |
| `ServiceLoading.StartFailuresAreUnchecked` | context-propagation-java5/src/main/java/nl/talsmasoftware/context/PriorityServiceLoader.java:88-118 | If the platform throws only unchecked exceptions, only unchecked exceptions leave the start of discovery. |
| `ServiceLoading.CollectCorrect` | context-propagation-java5/src/main/java/nl/talsmasoftware/context/PriorityServiceLoader.java:50-64 | Without an aborting step, the loop yields exactly the non-null providers in discovery order. Otherwise it throws what the first aborting step threw. A step aborts when `hasNext()` fails, or when `next()` throws something other than a RuntimeException or a ServiceConfigurationError. |
| `ServiceLoading.FirstAbort` | context-propagation-java5/src/main/java/nl/talsmasoftware/context/PriorityServiceLoader.java:51-59 | If some step aborts, there is a first one, and no step before it aborts. |
| `ServiceLoading.SkippedStepIsInvisible` | context-propagation-java5/src/main/java/nl/talsmasoftware/context/PriorityServiceLoader.java:52-63 | A null provider, or a provider failing with a RuntimeException or a ServiceConfigurationError, changes nothing in the pass. Every later step is still considered as if the skipped one were absent. |
| `ServiceLoading.Aborts` | context-propagation-java5/src/main/java/nl/talsmasoftware/context/PriorityServiceLoader.java:51-63 | A failing `hasNext()` always ends the pass. A `next()` that throws ends the pass exactly when it throws neither a `RuntimeException` nor a `ServiceConfigurationError`. A provider or a null never ends it. |
| `ServiceLoading.Collect` | context-propagation-java5/src/main/java/nl/talsmasoftware/context/PriorityServiceLoader.java:51-64 | The loop collects at most one provider per step. If it throws, some step aborted and it throws that step's exception. |
| `ServiceLoading.Discover` | context-propagation-java5/src/main/java/nl/talsmasoftware/context/PriorityServiceLoader.java:50-68 | A failure to start discovery is returned unchanged, and so is a failure of the pass. On success the result is a permutation of what the loop collected. Without priority support it is that list unchanged. |
| `ServiceLoading.DiscoverCorrect` | context-propagation-java5/src/main/java/nl/talsmasoftware/context/PriorityServiceLoader.java:50-68 | A pass succeeds exactly when no step aborts. Otherwise it throws the first aborting step's exception. On success the result is a permutation of the non-null providers. Without priority support it is in discovery order. With priority support it is sorted by priority, and providers of equal priority keep their discovery order. |
| `PrioritySort.SortByPriority` | context-propagation-java5/src/main/java/nl/talsmasoftware/context/PriorityServiceLoader.java:66 | The sort returns a permutation of its input. |
| `PrioritySort.SortByPriorityCorrect` | context-propagation-java5/src/main/java/nl/talsmasoftware/context/PriorityServiceLoader.java:66 | Sorting yields a sorted permutation of its input. Elements of equal priority keep their relative order. |
| `ContextFunctions.WithSnapshot` | context-propagation-java8/src/test/java/nl/talsmasoftware/context/functions/PredicateWithContextTest.java:75-83 | Construction fails at once with "No context snapshot provided" exactly when the snapshot is null. Otherwise the wrapper reactivates the given snapshot. |
| `ContextFunctions.WithSupplier` | context-propagation-java8/src/test/java/nl/talsmasoftware/context/functions/PredicateWithContextTest.java:85-94 | Construction fails at once with "No context snapshot supplier provided" exactly when the supplier is null. Otherwise the wrapper reactivates what the supplier gives. |
| `ContextFunctions.AndThen` | context-propagation-java8/src/test/java/nl/talsmasoftware/context/functions/PredicateWithContextTest.java:135-143 | `and(null)` fails at once with a NullPointerException mentioning "'and' <null>". Otherwise it combines the wrapper with the operand under `And`. |
| `ContextFunctions.OrElse` | context-propagation-java8/src/test/java/nl/talsmasoftware/context/functions/PredicateWithContextTest.java:178-186 | `or(null)` fails at once with a NullPointerException mentioning "'or' <null>". Otherwise it combines the wrapper with the operand under `Or`. |
| `ContextFunctions.Evaluation` | context-propagation-java8/src/test/java/nl/talsmasoftware/context/functions/PredicateWithContextTest.java:145-219 | The delegate always runs first. The other operand runs at most once, and only after the delegate returned. The outcome is that of the last operand that ran. No other thread's value changes. |
| `ContextFunctions.Invocation` | context-propagation-java8/src/test/java/nl/talsmasoftware/context/functions/PredicateWithContextTest.java:69-73 | One `test` reactivates the snapshot, then evaluates the delegate. It returns what the evaluation inside returned and changes no other thread's value. |
| `ContextFunctions.ReactivatesOnce` | context-propagation-java8/src/test/java/nl/talsmasoftware/context/functions/PredicateWithContextTest.java:69-73 | Every evaluation, single or combined, starts by reactivating the wrapper's snapshot. It reactivates exactly once and evaluates the delegate exactly once. |
| `ContextFunctions.ClosesOnce` | context-propagation-java8/src/test/java/nl/talsmasoftware/context/functions/PredicateWithContextTest.java:119-133 | A context returned by `reactivate()` is closed exactly once, as the last event, whether the delegate returned or threw. When `reactivate()` returned none, nothing is closed. |
| `ContextFunctions.PropagatesDelegateException` | context-propagation-java8/src/test/java/nl/talsmasoftware/context/functions/PredicateWithContextTest.java:119-133 | When the delegate throws, the caller gets that very exception instance, and the other operand is never evaluated. |
| `ContextFunctions.ConsumesOnce` | context-propagation-java8/src/test/java/nl/talsmasoftware/context/functions/PredicateWithContextTest.java:145-158 | A present consumer is called exactly once per evaluation, after the operands and before the close. It receives a snapshot of the executing thread's value after the operands ran. Without a consumer, nothing is consumed. |
| `ContextFunctions.ShortCircuits` | context-propagation-java8/src/test/java/nl/talsmasoftware/context/functions/PredicateWithContextTest.java:145-219 | Under one reactivation, `and`/`or` evaluate the other operand exactly when the first result does not decide the combination. Then the result is the other operand's. Otherwise the result is the first one and the other operand is never invoked. |
| `ContextFunctions.CombinationValue` | context-propagation-java8/src/test/java/nl/talsmasoftware/context/functions/PredicateWithContextTest.java:145-201 | When both operands return, the combination returns their conjunction (`and`) or disjunction (`or`). |
| `ContextFunctions.OtherThreadsUntouched` | context-propagation-java8/src/test/java/nl/talsmasoftware/context/functions/PredicateWithContextTest.java:96-110 | An evaluation on one thread leaves every other thread's current value unchanged. |
| `ContextFunctions.RestoresExecutingThread` | context-propagation-java8/src/test/java/nl/talsmasoftware/context/functions/PredicateWithContextTest.java:111-114 | Reactivating a snapshot that captured a value and then closing it restores the executing thread's value exactly, whatever the operands set in between. |
| `ContextFunctions.ConsumedSnapshotRoundTrip` | context-propagation-java8/src/test/java/nl/talsmasoftware/context/functions/PredicateWithContextTest.java:96-117 | For any delegate, the consumer receives a snapshot of the executing thread's value after the operands ran. When only the delegate ran and it set a value, that is the delegate's value. Reactivating the snapshot on another thread shows that value, and closing it restores that thread's earlier value. |
| `ContextFunctions.SnapshotConsumerScenario` | context-propagation-java8/src/test/java/nl/talsmasoftware/context/functions/PredicateWithContextTest.java:96-117 | The consumer gets a snapshot of "New value", which the delegate set on the worker thread. The caller still sees "Old value". Reactivating the consumed snapshot on the caller shows "New value", and closing it brings back "Old value". The mock snapshot is reactivated once and no context is closed. |
| `ContextFunctions.ContextRuntime.constructor` | context-propagation-java8/src/test/java/nl/talsmasoftware/context/functions/PredicateWithContextTest.java:51-55 | Starts with every slot cleared and nothing recorded. |
| `ContextFunctions.ContextRuntime.CurrentValue` | context-propagation-java8/src/test/java/nl/talsmasoftware/context/functions/PredicateWithContextTest.java:110-114 | A thread has a current value exactly when it holds one, and that value is the one it holds. |
| `ContextFunctions.ContextRuntime.SetCurrentValue` | context-propagation-java8/src/test/java/nl/talsmasoftware/context/functions/PredicateWithContextTest.java:99 | Sets one thread's current value and no other, recording nothing. |
| `ContextFunctions.ContextRuntime.Reactivate` | context-propagation-java8/src/test/java/nl/talsmasoftware/context/functions/PredicateWithContextTest.java:111-112 | Records the reactivation. A captured value becomes current on the thread, and the returned context remembers the value it replaced. A mock changes no slot and returns its stubbed context, or none. |
| `ContextFunctions.ContextRuntime.Close` | context-propagation-java8/src/test/java/nl/talsmasoftware/context/functions/PredicateWithContextTest.java:113-114 | Records the close and puts back the value the context remembered. |
| `ContextFunctions.ContextRuntime.Perform` | context-propagation-java8/src/test/java/nl/talsmasoftware/context/functions/PredicateWithContextTest.java:101-105 | Records one operand evaluation, applies the value it sets on the executing thread, and returns its outcome. |
| `ContextFunctions.ContextRuntime.EvaluateOperands` | context-propagation-java8/src/test/java/nl/talsmasoftware/context/functions/PredicateWithContextTest.java:145-219 | Runs the delegate, then the other operand only when the delegate returned a value that does not decide the combination. It appends exactly the events of `Evaluation`, leaves the slots as `Evaluation` does, and returns its outcome. |
| `ContextFunctions.ContextRuntime.Evaluate` | context-propagation-java8/src/test/java/nl/talsmasoftware/context/functions/PredicateWithContextTest.java:119-133 | Reactivates, evaluates with short-circuiting, consumes, and closes in a finally. Its trace, slots and outcome are exactly those of `Invocation`. |
| `ContextFunctions.ContextRuntime.Test` | context-propagation-java8/src/test/java/nl/talsmasoftware/context/functions/PredicateWithContextTest.java:69-73 | `test(input)` on a wrapper behaves as `Invocation` without an operand. |
| `ContextFunctions.ContextRuntime.TestCombined` | context-propagation-java8/src/test/java/nl/talsmasoftware/context/functions/PredicateWithContextTest.java:145-219 | `test(input)` on the predicate returned by `and`/`or` behaves as `Invocation` with that operand. |

## Left out

- The `synchronized` and `volatile` behaviour of the cache is not modelled (PriorityServiceLoader.java:37, 47). The cache is modelled sequentially, so "one discovery pass even under racing threads" is not stated.
- The JDK `ServiceLoader`, class loading and the reflective calls of the Java 5 fallback are not modelled. They are replaced by their outcomes, given as the `Discovery` input of each call. The service type is implied by that input.
- Logging is left out. It has no effect on behaviour.
- `PriorityComparator` is not part of this model. Its ordering is an abstract integer priority per provider, lower first. The platform's list sort is modelled as a stable insertion sort on values (`SortByPriority`), because that sort is stable.
- `trimToSize`, `unmodifiableList` and the shared `emptySet()` are not modelled separately. Dafny sequences are immutable values, so every returned list is unmodifiable.
- The messages of the `IllegalStateException` and `UnsupportedOperationException` the loader creates are not modelled; only their causes are. An `InvocationTargetException` without a cause is not modelled.
- The wrapper class `PredicateWithContext` itself is not part of this model. The model follows the protocol its tests assert. The consumer is modelled as called in a finally, after the operands. This means it is called also when the delegate throws, which the tests do not exercise.
- ContextFunctions.WithSnapshot: the exception messages are only the fragments the tests check ("No context snapshot provided" and the others), not the full wording. A null delegate is not modelled.
- Snapshot consumers and `close()` are modelled as never throwing.
- ContextFunctions.ReactivationOf: `reactivate()` is modelled as never throwing, so an exception from reactivating a snapshot is not modelled.
- ContextFunctions.SnapshotOf: the snapshot supplier is modelled as never returning null and never throwing.
- The snapshot supplier is modelled as a fixed function that gives the same snapshot on every call.
- The test's second thread (PredicateWithContextTest.java:101-108) is a second value slot, used sequentially. Thread start and join are not modelled.
- DummyContextManager is not part of this model. Its slot is a single current value per thread. Closing a reactivated context puts back the value that was current at reactivation.
- Mockito and hamcrest are not modelled beyond the calls they count. These calls are recorded as the event trace.
- MdcManagerTest.java is not modelled. It tests a foreign logging library on a real thread pool. Its restore sequence (lines 78-92) is the same round trip as `SnapshotConsumerScenario` and `RestoresExecutingThread`.
