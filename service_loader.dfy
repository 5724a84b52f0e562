/** The cached, failure-tolerant provider list of `PriorityServiceLoader`: a two-state cache
    (no list / a cached non-empty list) in front of a discovery pass that walks the providers
    one by one, routes each failure by its type, and sorts the survivors by priority. */
module ServiceLoading {
  import opened Wrappers
  import opened Throwables
  import opened PrioritySort

  /** What one round of the provider iterator does: `next()` returns a provider, returns null,
      or throws; or `hasNext()` itself throws, which the loop does not guard. */
  datatype Step<S> =
    | Provider(service: S)
    | NullProvider
    | NextThrew(thrown: Throwable)
    | HasNextThrew(thrown: Throwable)

  /** Outcome of asking the platform's `ServiceLoader` for the provider iterator. */
  datatype PrimaryLookup<S> = Loaded(steps: seq<Step<S>>) | LoadThrew(thrown: Throwable)

  /** Outcome of the reflective Java 5 lookup through `ServiceRegistry.lookupProviders`. */
  datatype RegistryLookup<S> =
    | RegistryFound(steps: seq<Step<S>>)
    | ClassNotFound                      // the registry class is missing
    | NoSuchMethod(failure: Throwable)   // the class has no lookup method
    | IllegalAccess                      // calling the lookup method is not allowed
    | InvocationFailed(cause: Throwable) // the lookup method itself threw `cause`
    | ReflectionThrew(thrown: Throwable) // the reflective calls threw something not caught

  /** Everything one discovery pass would observe of the platform. */
  datatype Discovery<S> = Discovery(primary: PrimaryLookup<S>, fallback: RegistryLookup<S>)

  /** Static facts of the running platform: whether `ServiceConfigurationError` exists
      (not on Java 5) and whether priority support is available. */
  datatype Platform = Platform(serviceConfigurationErrorAvailable: bool, priorityAvailable: bool)

  /** Whether `e` is a `ServiceConfigurationError`; where that class is missing the instance
      test fails with a LinkageError and the answer is false. */
  function IsServiceConfigurationError(e: Throwable, platform: Platform): (r: bool)
    ensures r ==> platform.serviceConfigurationErrorAvailable && e.Raised? && e.kind == ServiceConfiguration
    ensures platform.serviceConfigurationErrorAvailable && e.Raised? && e.kind == ServiceConfiguration ==> r
  {
    if !platform.serviceConfigurationErrorAvailable then false
    else e.Raised? && e.kind == ServiceConfiguration
  }

  /** The Java 5 fallback: a missing registry or denied access give no providers, a missing
      lookup method is an IllegalStateException, and a failing lookup surfaces as a
      RuntimeException, its own if it threw one and a wrapping one otherwise. */
  function LoadJava5Services<S>(f: RegistryLookup<S>): (r: Result<seq<Step<S>>, Throwable>)
    ensures f.RegistryFound? ==> r == Ok(f.steps)
    ensures f.ClassNotFound? || f.IllegalAccess? ==> r == Ok([])
    ensures f.NoSuchMethod? ==> r == Err(IllegalState(f.failure))
    ensures f.InvocationFailed? ==> r.Err? && IsRuntimeException(r.error)
    ensures f.InvocationFailed? ==> (r == Err(f.cause) <==> IsRuntimeException(f.cause))
    ensures f.InvocationFailed? && !IsRuntimeException(f.cause) ==> r == Err(UnsupportedOperation(f.cause))
  {
    match f
    case RegistryFound(steps) => Ok(steps)
    case ClassNotFound => Ok([])
    case NoSuchMethod(failure) => Err(IllegalState(failure))
    case IllegalAccess => Ok([])
    case InvocationFailed(cause) =>
      if IsRuntimeException(cause) then Err(cause) else Err(UnsupportedOperation(cause))
    case ReflectionThrew(thrown) => Err(thrown)
  }

  /** Starting discovery: the platform loader's iterator, the Java 5 fallback when the loader
      class is missing, and no providers when the loader fails with a RuntimeException. */
  function LoadServices<S>(d: Discovery<S>): (r: Result<seq<Step<S>>, Throwable>)
    ensures d.primary.Loaded? ==> r == Ok(d.primary.steps)
    ensures d.primary.LoadThrew? && IsRuntimeException(d.primary.thrown) ==> r == Ok([])
    ensures d.primary.LoadThrew? && IsLinkageError(d.primary.thrown) ==> r == LoadJava5Services(d.fallback)
    ensures (d.primary.LoadThrew? && !IsRuntimeException(d.primary.thrown) && !IsLinkageError(d.primary.thrown))
              ==> r == Err(d.primary.thrown)
  {
    match d.primary
    case Loaded(steps) => Ok(steps)
    case LoadThrew(e) =>
      if IsLinkageError(e) then LoadJava5Services(d.fallback)
      else if IsRuntimeException(e) then Ok([])
      else Err(e)
  }

  /** Only unchecked exceptions leave the start of discovery when the platform throws only
      unchecked ones: the checked failures of the reflective lookup are all handled. */
  lemma StartFailuresAreUnchecked<S>(d: Discovery<S>)
    requires d.primary.LoadThrew? ==> IsUnchecked(d.primary.thrown)
    requires d.fallback.ReflectionThrew? ==> IsUnchecked(d.fallback.thrown)
    ensures LoadServices(d).Err? ==> IsUnchecked(LoadServices(d).error)
  {
  }

  /** Whether a step ends the whole pass: `hasNext()` failing, or `next()` throwing something
      other than a RuntimeException or a ServiceConfigurationError. */
  predicate Aborts<S>(step: Step<S>, platform: Platform): (r: bool)
    ensures step.HasNextThrew? ==> r
    ensures step.NextThrew? ==>
              (r <==> !IsRuntimeException(step.thrown) && !IsServiceConfigurationError(step.thrown, platform))
    ensures step.Provider? || step.NullProvider? ==> !r
  {
    match step
    case HasNextThrew(_) => true
    case NextThrew(e) =>
      if IsError(e) then !IsServiceConfigurationError(e, platform) else !IsRuntimeException(e)
    case _ => false
  }

  ghost predicate NoAbort<S>(steps: seq<Step<S>>, platform: Platform) {
    forall i :: 0 <= i < |steps| ==> !Aborts(steps[i], platform)
  }

  /** One round of the collecting loop applied to the list built so far. */
  function Visit<S>(services: seq<S>, step: Step<S>, platform: Platform): Result<seq<S>, Throwable> {
    match step
    case Provider(p) => Ok(services + [p])
    case NullProvider => Ok(services)
    case HasNextThrew(e) => Err(e)
    case NextThrew(e) => if Aborts(step, platform) then Err(e) else Ok(services)
  }

  /** The list the collecting loop has built after the given steps, or what it threw. */
  function Collect<S>(steps: seq<Step<S>>, platform: Platform): (r: Result<seq<S>, Throwable>)
    ensures r.Ok? ==> |r.value| <= |steps|
    ensures r.Err? ==> exists i :: 0 <= i < |steps| && Aborts(steps[i], platform) && r.error == steps[i].thrown
    decreases |steps|
  {
    if steps == [] then Ok([])
    else match Collect(steps[..|steps| - 1], platform)
      case Err(e) => Err(e)
      case Ok(services) => Visit(services, steps[|steps| - 1], platform)
  }

  /** Reference definition: the non-null providers of the steps, in discovery order. */
  function Providers<S>(steps: seq<Step<S>>): seq<S> {
    if steps == [] then [] else ProviderOf(steps[0]) + Providers(steps[1..])
  }

  function ProviderOf<S>(step: Step<S>): seq<S> {
    if step.Provider? then [step.service] else []
  }

  /** The position of the first step that ends the pass. */
  function FirstAbort<S>(steps: seq<Step<S>>, platform: Platform): (i: nat)
    requires !NoAbort(steps, platform)
    ensures i < |steps| && Aborts(steps[i], platform) && NoAbort(steps[..i], platform)
  {
    if Aborts(steps[0], platform) then 0
    else
      var k := FirstAbort(steps[1..], platform);
      assert steps[..k + 1] == [steps[0]] + steps[1..][..k];
      k + 1
  }

  lemma {:induction false} ProvidersAppend<S>(a: seq<Step<S>>, b: seq<Step<S>>)
    ensures Providers(a + b) == Providers(a) + Providers(b)
  {
    if a == [] {
      assert a + b == b;
    } else {
      assert (a + b)[0] == a[0] && (a + b)[1..] == a[1..] + b;
      ProvidersAppend(a[1..], b);
      calc {
        Providers(a + b);
        ProviderOf(a[0]) + Providers(a[1..] + b);
        ProviderOf(a[0]) + (Providers(a[1..]) + Providers(b));
        (ProviderOf(a[0]) + Providers(a[1..])) + Providers(b);
      }
    }
  }

  lemma VisitWithoutAbort<S>(services: seq<S>, step: Step<S>, platform: Platform)
    requires !Aborts(step, platform)
    ensures Visit(services, step, platform) == Ok(services + ProviderOf(step))
  {
    if !step.Provider? {
      assert services + [] == services;
    }
  }

  lemma {:induction false} CollectWithoutAbort<S>(steps: seq<Step<S>>, platform: Platform)
    requires NoAbort(steps, platform)
    ensures Collect(steps, platform) == Ok(Providers(steps))
  {
    if steps != [] {
      var n := |steps| - 1;
      assert NoAbort(steps[..n], platform);
      CollectWithoutAbort(steps[..n], platform);
      assert steps == steps[..n] + [steps[n]];
      ProvidersAppend(steps[..n], [steps[n]]);
      assert [steps[n]][1..] == [];
      assert Providers([steps[n]]) == ProviderOf(steps[n]);
      assert !Aborts(steps[n], platform);
      VisitWithoutAbort(Providers(steps[..n]), steps[n], platform);
    }
  }

  lemma {:induction false} CollectErrorSticks<S>(steps: seq<Step<S>>, n: nat, platform: Platform)
    requires n <= |steps| && Collect(steps[..n], platform).Err?
    ensures Collect(steps, platform) == Collect(steps[..n], platform)
  {
    if n < |steps| {
      var m := |steps| - 1;
      assert steps[..m][..n] == steps[..n];
      CollectErrorSticks(steps[..m], n, platform);
    } else {
      assert steps[..n] == steps;
    }
  }

  lemma CollectStopsAtFirstAbort<S>(steps: seq<Step<S>>, i: nat, platform: Platform)
    requires i < |steps| && Aborts(steps[i], platform) && NoAbort(steps[..i], platform)
    ensures Collect(steps, platform) == Err(steps[i].thrown)
  {
    CollectWithoutAbort(steps[..i], platform);
    assert steps[..i + 1][..i] == steps[..i];
    CollectErrorSticks(steps, i + 1, platform);
  }

  /** The collecting loop against its reference: without an aborting step it yields exactly
      the non-null providers in discovery order; otherwise it throws what the first aborting
      step threw. */
  lemma CollectCorrect<S>(steps: seq<Step<S>>, platform: Platform)
    ensures NoAbort(steps, platform) ==> Collect(steps, platform) == Ok(Providers(steps))
    ensures !NoAbort(steps, platform) ==>
              Collect(steps, platform) == Err(steps[FirstAbort(steps, platform)].thrown)
  {
    if NoAbort(steps, platform) {
      CollectWithoutAbort(steps, platform);
    } else {
      CollectStopsAtFirstAbort(steps, FirstAbort(steps, platform), platform);
    }
  }

  /** A step the loop skips: a null provider, or `next()` failing without aborting the pass. */
  predicate Skipped<S>(step: Step<S>, platform: Platform) {
    step.NullProvider? || (step.NextThrew? && !Aborts(step, platform))
  }

  lemma SkippedStepProvidesNothing<S>(a: seq<Step<S>>, x: Step<S>, b: seq<Step<S>>, platform: Platform)
    requires Skipped(x, platform)
    ensures Providers(a + [x] + b) == Providers(a + b)
  {
    assert [x][1..] == [];
    assert Providers([x]) == [];
    ProvidersAppend(a, [x]);
    assert Providers(a + [x]) == Providers(a);
    ProvidersAppend(a + [x], b);
    ProvidersAppend(a, b);
  }

  lemma SkippedStepWithoutAbort<S>(a: seq<Step<S>>, x: Step<S>, b: seq<Step<S>>, platform: Platform)
    requires Skipped(x, platform) && NoAbort(a + b, platform)
    ensures Collect(a + [x] + b, platform) == Collect(a + b, platform)
  {
    var s, s' := a + b, a + [x] + b;
    forall k | 0 <= k < |s'| ensures !Aborts(s'[k], platform) {
      if k < |a| { assert s'[k] == s[k]; }
      else if k > |a| { assert s'[k] == s[k - 1]; }
    }
    CollectWithoutAbort(s, platform);
    CollectWithoutAbort(s', platform);
    SkippedStepProvidesNothing(a, x, b, platform);
  }

  lemma SkippedStepBeforeAbort<S>(a: seq<Step<S>>, x: Step<S>, b: seq<Step<S>>, platform: Platform)
    requires Skipped(x, platform) && !NoAbort(a + b, platform)
    ensures Collect(a + [x] + b, platform) == Collect(a + b, platform)
  {
    var s, s' := a + b, a + [x] + b;
    var i := FirstAbort(s, platform);
    CollectStopsAtFirstAbort(s, i, platform);
    if i < |a| {
      assert s'[..i] == s[..i];
      assert s'[i] == s[i];
      CollectStopsAtFirstAbort(s', i, platform);
    } else {
      forall k | 0 <= k < i + 1 ensures !Aborts(s'[k], platform) {
        if k < |a| { assert s[..i][k] == s[k]; }
        else if k > |a| { assert s'[k] == s[k - 1] && s[..i][k - 1] == s[k - 1]; }
      }
      assert NoAbort(s'[..i + 1], platform);
      assert s'[i + 1] == s[i];
      CollectStopsAtFirstAbort(s', i + 1, platform);
    }
  }

  /** A null provider, or a provider failing with a RuntimeException or a
      ServiceConfigurationError, is skipped and every later step is still considered:
      the pass behaves as if that step were not there. */
  lemma SkippedStepIsInvisible<S>(a: seq<Step<S>>, x: Step<S>, b: seq<Step<S>>, platform: Platform)
    requires Skipped(x, platform)
    ensures Collect(a + [x] + b, platform) == Collect(a + b, platform)
  {
    if NoAbort(a + b, platform) {
      SkippedStepWithoutAbort(a, x, b, platform);
    } else {
      SkippedStepBeforeAbort(a, x, b, platform);
    }
  }

  /** One full discovery pass: start discovery, collect, and sort when priority support is present. */
  function Discover<S>(d: Discovery<S>, platform: Platform, priority: S -> int): (r: Result<seq<S>, Throwable>)
    ensures LoadServices(d).Err? ==> r == Err(LoadServices(d).error)
    ensures LoadServices(d).Ok? ==>
              var pass := Collect(LoadServices(d).value, platform);
              && (pass.Err? ==> r == Err(pass.error))
              && (pass.Ok? ==> r.Ok? && multiset(r.value) == multiset(pass.value))
              && (pass.Ok? && !platform.priorityAvailable ==> r == pass)
  {
    match LoadServices(d)
    case Err(e) => Err(e)
    case Ok(steps) =>
      match Collect(steps, platform)
      case Err(e) => Err(e)
      case Ok(services) =>
        Ok(if platform.priorityAvailable then SortByPriority(services, priority) else services)
  }

  /** What a discovery pass returns: a permutation of the non-null providers, in discovery
      order without priority support and stably sorted by priority with it; or, if a step
      aborts, what the first aborting step threw. */
  lemma DiscoverCorrect<S>(d: Discovery<S>, platform: Platform, priority: S -> int, steps: seq<Step<S>>)
    requires LoadServices(d) == Ok(steps)
    ensures NoAbort(steps, platform) <==> Discover(d, platform, priority).Ok?
    ensures !NoAbort(steps, platform) ==>
              Discover(d, platform, priority) == Err(steps[FirstAbort(steps, platform)].thrown)
    ensures Discover(d, platform, priority).Ok? ==>
              var r := Discover(d, platform, priority).value;
              && multiset(r) == multiset(Providers(steps))
              && (!platform.priorityAvailable ==> r == Providers(steps))
              && (platform.priorityAvailable ==> Sorted(r, priority))
              && (platform.priorityAvailable ==> forall level ::
                    AtLevel(r, priority, level) == AtLevel(Providers(steps), priority, level))
  {
    CollectCorrect(steps, platform);
    SortByPriorityCorrect(Providers(steps), priority);
  }

  /** The loader: `delegate` is the cached provider list, absent until a pass finds providers. */
  class PriorityServiceLoader<S> {
    const platform: Platform
    const priority: S -> int
    var delegate: Option<seq<S>>

    /** Only a non-empty list is ever cached, and it is sorted when priority support is present. */
    ghost predicate Valid()
      reads this
    {
      delegate.Some? ==>
        delegate.value != [] && (platform.priorityAvailable ==> Sorted(delegate.value, priority))
    }

    constructor(platform: Platform, priority: S -> int)
      ensures Valid() && delegate == None
      ensures this.platform == platform && this.priority == priority
    {
      this.platform := platform;
      this.priority := priority;
      delegate := None;
    }

    /** Drops the cached list, so that the next use runs discovery again. */
    method Reload()
      modifies this
      ensures Valid() && delegate == None
    {
      delegate := None;
    }

    /** The provider list: the cached one if there is one, without looking at `discovery`;
        otherwise the result of a fresh pass over `discovery`, cached when it is a non-empty
        list. An empty result and a thrown exception leave the cache unset. */
    method Delegate(discovery: Discovery<S>) returns (r: Result<seq<S>, Throwable>)
      requires Valid()
      modifies this
      ensures Valid()
      ensures old(delegate).Some? ==> r == Ok(old(delegate).value) && delegate == old(delegate)
      ensures old(delegate).None? ==> r == Discover(discovery, platform, priority)
      ensures old(delegate).None? ==> delegate == (if r.Ok? && r.value != [] then Some(r.value) else None)
    {
      if delegate.Some? {
        return Ok(delegate.value);
      }
      var loaded := LoadServices(discovery);
      if loaded.Err? {
        return Err(loaded.error);
      }
      var steps := loaded.value;
      var services: seq<S> := [];
      var i := 0;
      while i < |steps|
        invariant 0 <= i <= |steps|
        invariant Collect(steps[..i], platform) == Ok(services)
      {
        assert steps[..i + 1][..i] == steps[..i];
        match steps[i] {
          case HasNextThrew(e) =>
            CollectErrorSticks(steps, i + 1, platform);
            return Err(e);
          case Provider(service) =>
            services := services + [service];
          case NullProvider =>
          case NextThrew(e) =>
            if IsError(e) {
              if !IsServiceConfigurationError(e, platform) {
                CollectErrorSticks(steps, i + 1, platform);
                return Err(e);
              }
            } else if !IsRuntimeException(e) {
              CollectErrorSticks(steps, i + 1, platform);
              return Err(e);
            }
        }
        i := i + 1;
      }
      assert steps[..i] == steps;
      if platform.priorityAvailable {
        SortByPriorityCorrect(services, priority);
        services := SortByPriority(services, priority);
      }
      if services == [] {
        r := Ok([]);
      } else {
        delegate := Some(services);
        r := Ok(services);
      }
    }

    /** `iterator()`: iterates over the provider list `Delegate` returns. */
    method Iterator(discovery: Discovery<S>) returns (r: Result<seq<S>, Throwable>)
      requires Valid()
      modifies this
      ensures Valid()
      ensures old(delegate).Some? ==> r == Ok(old(delegate).value) && delegate == old(delegate)
      ensures old(delegate).None? ==> r == Discover(discovery, platform, priority)
      ensures old(delegate).None? ==> delegate == (if r.Ok? && r.value != [] then Some(r.value) else None)
    {
      r := Delegate(discovery);
    }
  }
}
