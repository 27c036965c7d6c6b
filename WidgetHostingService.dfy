/**
 * The dashboard's widget hosting service: a wrapper around the out-of-process
 * widget host and widget catalog that caches one handle to each, creates a
 * handle only when none is cached, and makes at most three attempts at every
 * call, dropping both handles when the remote server is gone.
 *
 * Each remote call is an oracle: its outcome at a given attempt (and, for
 * calls on a handle, on that handle with those arguments).
 */
module WidgetHosting {
  import opened Wrappers

  const MaxAttempts: nat := 3

  /** `unchecked((int)u)`: a 32-bit pattern read as a signed 32-bit integer. */
  function ToInt32(u: int): (r: int)
    requires 0 <= u < 0x1_0000_0000
    ensures -0x8000_0000 <= r < 0x8000_0000
    ensures (u - r) % 0x1_0000_0000 == 0
  {
    if u < 0x8000_0000 then u else u - 0x1_0000_0000
  }

  /** HRESULTs of a lost out-of-process server, the only errors recovered from. */
  const RpcServerUnavailable: int := ToInt32(0x800706BA)
  const RpcCallFailed: int := ToInt32(0x800706BE)

  /** How one remote call ends: a value, a `COMException` with its HRESULT, or another exception. */
  datatype Outcome<+T> = Returned(value: T) | ComException(hResult: int) | OtherException

  predicate IsRpcFailure<T>(o: Outcome<T>) {
    o.ComException? && (o.hResult == RpcServerUnavailable || o.hResult == RpcCallFailed)
  }

  // The remote objects, known only by identity.
  datatype WidgetHost = WidgetHost(hostId: nat)
  datatype WidgetCatalog = WidgetCatalog(catalogId: nat)
  datatype Widget = Widget(widgetId: nat)
  datatype WidgetDefinition = WidgetDefinition(definitionId: string)
  datatype WidgetProviderDefinition = WidgetProviderDefinition(providerId: string)
  datatype WidgetSize = Small | Medium | Large

  /** The definition id the catalog's liveness probe asks for. */
  const FakeWidgetDefinitionId := "fakeWidgetDefinitionId"

  /** The two cached handles, `None` standing for `null`. */
  datatype Cache = Cache(host: Option<WidgetHost>, catalog: Option<WidgetCatalog>)

  /** Which catch clause a failed attempt ran. */
  datatype Fault = Rpc | Other

  /** One attempt: it returned a value, or it failed and the loop goes on. */
  datatype Step<T> = Done(value: T, cache: Cache) | Retry(fault: Fault, cache: Cache)

  /** A whole call: the value returned (`None` when attempts ran out), the final cache, the attempts made. */
  datatype Run<T> = Run(value: Option<T>, cache: Cache, attempts: nat)

  function FaultOf<T>(o: Outcome<T>): Fault
    requires !o.Returned?
  {
    if IsRpcFailure(o) then Rpc else Other
  }

  /** The catch clauses of every method but `GetWidgetCatalogAsync`. */
  function Caught(c: Cache, f: Fault): (c': Cache)
    ensures f == Rpc ==> c' == Cache(None, None)
    ensures f == Other ==> c' == c
  {
    if f == Rpc then Cache(None, None) else c
  }

  /** The catch clauses of `GetWidgetCatalogAsync`: any other exception drops the catalog. */
  function ProbeCaught(c: Cache, f: Fault): (c': Cache)
    ensures f == Rpc ==> c' == Cache(None, None)
    ensures f == Other ==> c' == c.(catalog := None)
  {
    if f == Rpc then Cache(None, None) else c.(catalog := None)
  }

  // ---------------------------------------------------------------------------
  // Calls on the widget host: GetWidgetsAsync, CreateWidgetAsync
  // ---------------------------------------------------------------------------

  /** One attempt of a call on the host: register it if none is cached, then call it. */
  function HostStep<Q, T>(c: Cache, registered: Outcome<WidgetHost>,
                          call: (WidgetHost, Q, nat) -> Outcome<T>, q: Q, i: nat): (s: Step<T>)
    ensures s.Retry? && s.fault == Rpc ==> s.cache == Cache(None, None)
    ensures s.Retry? && s.fault == Other ==> s.cache.catalog == c.catalog && (c.host.Some? ==> s.cache == c)
    ensures s.Done? ==> s.cache.catalog == c.catalog && s.cache.host.Some?
                        && call(s.cache.host.value, q, i) == Returned(s.value)
    ensures c.host.Some? && s.Done? ==> s.cache == c
    ensures c.host.Some? ==> s.cache.host == c.host || s.cache.host.None?
    ensures c.host.None? && s.cache.host.Some? ==> registered == Returned(s.cache.host.value)
    // which outcome ends the attempt: the cached host is used as is, and
    // only without one does the registration's outcome matter
    ensures c.host.Some? && call(c.host.value, q, i).Returned?
            ==> s == Done(call(c.host.value, q, i).value, c)
    ensures c.host.Some? && !call(c.host.value, q, i).Returned?
            ==> s.Retry? && s.fault == FaultOf(call(c.host.value, q, i))
    ensures c.host.None? && registered.Returned? && call(registered.value, q, i).Returned?
            ==> s == Done(call(registered.value, q, i).value, c.(host := Some(registered.value)))
    ensures c.host.None? && registered.Returned? && !call(registered.value, q, i).Returned?
            ==> s.Retry? && s.fault == FaultOf(call(registered.value, q, i))
    ensures c.host.None? && registered.Returned? && !call(registered.value, q, i).Returned?
            && !IsRpcFailure(call(registered.value, q, i))
            ==> s == Retry(Other, c.(host := Some(registered.value)))
    ensures c.host.None? && !registered.Returned? ==> s.Retry? && s.fault == FaultOf(registered)
  {
    if c.host.None? && !registered.Returned? then
      Retry(FaultOf(registered), Caught(c, FaultOf(registered)))
    else
      var host := if c.host.Some? then c.host.value else registered.value;
      var c1 := c.(host := Some(host));
      var o := call(host, q, i);
      if o.Returned? then Done(o.value, c1) else Retry(FaultOf(o), Caught(c1, FaultOf(o)))
  }

  /** The retry loop of a call on the host, from attempt `attempt` on. */
  function HostLoop<Q, T>(c: Cache, register: nat -> Outcome<WidgetHost>,
                          call: (WidgetHost, Q, nat) -> Outcome<T>, q: Q, attempt: nat): (r: Run<T>)
    requires attempt <= MaxAttempts
    ensures attempt <= r.attempts <= MaxAttempts
    ensures r.attempts == attempt <==> attempt == MaxAttempts
    decreases MaxAttempts - attempt
  {
    if attempt == MaxAttempts then Run(None, c, attempt)
    else
      match HostStep(c, register(attempt), call, q, attempt)
      case Done(v, c') => Run(Some(v), c', attempt + 1)
      case Retry(_, c') => HostLoop(c', register, call, q, attempt + 1)
  }

  /**
   * The loop body runs at least once and at most `MaxAttempts` times; it
   * returns `None` only when every attempt ran, and a value only as the
   * result of the last attempt's call on the host that stays cached.
   */
  lemma {:induction false} HostLoopOutcome<Q, T>(c: Cache, register: nat -> Outcome<WidgetHost>,
                                                 call: (WidgetHost, Q, nat) -> Outcome<T>, q: Q, attempt: nat)
    requires attempt < MaxAttempts
    ensures var r := HostLoop(c, register, call, q, attempt);
      && attempt < r.attempts <= MaxAttempts
      && (r.value.None? ==> r.attempts == MaxAttempts)
      && (r.value.Some? ==> r.cache.host.Some? && call(r.cache.host.value, q, r.attempts - 1) == Returned(r.value.value))
    decreases MaxAttempts - attempt
  {
    match HostStep(c, register(attempt), call, q, attempt)
    case Done(_, _) =>
    case Retry(_, c') =>
      if attempt + 1 < MaxAttempts {
        HostLoopOutcome(c', register, call, q, attempt + 1);
      }
  }

  /**
   * Attempts after the one that returned are never made: outcomes the
   * oracles would give from then on do not change the run.
   */
  lemma {:induction false} HostLoopStopsAtSuccess<Q, T>(c: Cache, register: nat -> Outcome<WidgetHost>,
                                                        call: (WidgetHost, Q, nat) -> Outcome<T>,
                                                        register': nat -> Outcome<WidgetHost>,
                                                        call': (WidgetHost, Q, nat) -> Outcome<T>, q: Q, attempt: nat)
    requires attempt <= MaxAttempts
    requires forall k :: attempt <= k < HostLoop(c, register, call, q, attempt).attempts ==> register'(k) == register(k)
    requires forall h, k :: attempt <= k < HostLoop(c, register, call, q, attempt).attempts ==> call'(h, q, k) == call(h, q, k)
    ensures HostLoop(c, register', call', q, attempt) == HostLoop(c, register, call, q, attempt)
    decreases MaxAttempts - attempt
  {
    if attempt < MaxAttempts {
      HostLoopOutcome(c, register, call, q, attempt);
      assert register'(attempt) == register(attempt);
      assert forall h :: call'(h, q, attempt) == call(h, q, attempt);
      assert HostStep(c, register'(attempt), call', q, attempt) == HostStep(c, register(attempt), call, q, attempt);
      match HostStep(c, register(attempt), call, q, attempt)
      case Done(_, _) =>
      case Retry(_, c') =>
        HostLoopStopsAtSuccess(c', register, call, register', call', q, attempt + 1);
    }
  }

  /** With a host cached, the outcome of registering one is never consulted. */
  lemma HostStepIgnoresRegistrationWhenCached<Q, T>(c: Cache, registered: Outcome<WidgetHost>, registered': Outcome<WidgetHost>,
                                                    call: (WidgetHost, Q, nat) -> Outcome<T>, q: Q, i: nat)
    requires c.host.Some?
    ensures HostStep(c, registered', call, q, i) == HostStep(c, registered, call, q, i)
  {
  }

  /** The loop ends with the first attempt whose step returns, with that step's value and cache. */
  lemma HostLoopEndsAtReturningStep<Q, T>(c: Cache, register: nat -> Outcome<WidgetHost>,
                                          call: (WidgetHost, Q, nat) -> Outcome<T>, q: Q, attempt: nat)
    requires attempt < MaxAttempts
    ensures var s := HostStep(c, register(attempt), call, q, attempt);
      && (s.Done? ==> HostLoop(c, register, call, q, attempt) == Run(Some(s.value), s.cache, attempt + 1))
      && (s.Retry? ==> HostLoop(c, register, call, q, attempt) == HostLoop(s.cache, register, call, q, attempt + 1))
  {
  }

  /**
   * A cached host that answers ends the loop at once with its answer: no
   * registration, no further attempt, and the cache unchanged.
   */
  lemma HostLoopCachedHostAnswers<Q, T>(c: Cache, register: nat -> Outcome<WidgetHost>,
                                        call: (WidgetHost, Q, nat) -> Outcome<T>, q: Q, attempt: nat)
    requires attempt < MaxAttempts
    requires c.host.Some? && call(c.host.value, q, attempt).Returned?
    ensures HostLoop(c, register, call, q, attempt) == Run(Some(call(c.host.value, q, attempt).value), c, attempt + 1)
  {
  }

  /** Without a cached host, a registration whose host answers ends the loop with that host cached. */
  lemma HostLoopRegisteredHostAnswers<Q, T>(c: Cache, register: nat -> Outcome<WidgetHost>,
                                            call: (WidgetHost, Q, nat) -> Outcome<T>, q: Q, attempt: nat)
    requires attempt < MaxAttempts
    requires c.host.None? && register(attempt).Returned?
    requires call(register(attempt).value, q, attempt).Returned?
    ensures HostLoop(c, register, call, q, attempt)
            == Run(Some(call(register(attempt).value, q, attempt).value), c.(host := Some(register(attempt).value)), attempt + 1)
  {
  }

  /**
   * Without an RPC error from the call, a cached host stays cached to the end
   * of the loop, so `Register` is never consulted again.
   */
  lemma {:induction false} HostLoopKeepsCachedHostWithoutRpc<Q, T>(c: Cache, register: nat -> Outcome<WidgetHost>,
                                                                   register': nat -> Outcome<WidgetHost>,
                                                                   call: (WidgetHost, Q, nat) -> Outcome<T>, q: Q, attempt: nat)
    requires attempt <= MaxAttempts
    requires c.host.Some?
    requires forall h, k :: attempt <= k < MaxAttempts ==> !IsRpcFailure(call(h, q, k))
    ensures HostLoop(c, register', call, q, attempt) == HostLoop(c, register, call, q, attempt)
    ensures HostLoop(c, register, call, q, attempt).cache == c
    decreases MaxAttempts - attempt
  {
    if attempt < MaxAttempts {
      assert HostStep(c, register'(attempt), call, q, attempt) == HostStep(c, register(attempt), call, q, attempt);
      match HostStep(c, register(attempt), call, q, attempt)
      case Done(_, _) =>
      case Retry(_, c') =>
        assert !IsRpcFailure(call(c.host.value, q, attempt));
        HostLoopKeepsCachedHostWithoutRpc(c', register, register', call, q, attempt + 1);
    }
  }

  /**
   * Without an RPC error from the call, a host is registered at most once: once
   * `Register` returned one, no later registration outcome changes the loop.
   */
  lemma HostLoopRegistersOnceWithoutRpc<Q, T>(c: Cache, register: nat -> Outcome<WidgetHost>,
                                              register': nat -> Outcome<WidgetHost>,
                                              call: (WidgetHost, Q, nat) -> Outcome<T>, q: Q, attempt: nat)
    requires attempt < MaxAttempts
    requires c.host.None? && register(attempt).Returned? && register'(attempt) == register(attempt)
    requires forall h, k :: attempt <= k < MaxAttempts ==> !IsRpcFailure(call(h, q, k))
    ensures HostLoop(c, register', call, q, attempt) == HostLoop(c, register, call, q, attempt)
    ensures HostLoop(c, register, call, q, attempt).cache == c.(host := Some(register(attempt).value))
  {
    var c' := c.(host := Some(register(attempt).value));
    if !call(register(attempt).value, q, attempt).Returned? {
      assert !IsRpcFailure(call(register(attempt).value, q, attempt));
      HostLoopKeepsCachedHostWithoutRpc(c', register, register', call, q, attempt + 1);
    }
  }

  /** A call on the host never fetches a catalog: the cached one is kept or dropped. */
  lemma {:induction false} HostLoopNeverFetchesCatalog<Q, T>(c: Cache, register: nat -> Outcome<WidgetHost>,
                                                             call: (WidgetHost, Q, nat) -> Outcome<T>, q: Q, attempt: nat)
    requires attempt <= MaxAttempts
    ensures var r := HostLoop(c, register, call, q, attempt);
      r.cache.catalog == c.catalog || r.cache.catalog.None?
    decreases MaxAttempts - attempt
  {
    if attempt < MaxAttempts {
      match HostStep(c, register(attempt), call, q, attempt)
      case Done(_, _) =>
      case Retry(_, c') =>
        HostLoopNeverFetchesCatalog(c', register, call, q, attempt + 1);
    }
  }

  // ---------------------------------------------------------------------------
  // Calls on the catalog: GetProviderDefinitionsAsync, GetWidgetDefinitionsAsync,
  // GetWidgetDefinitionAsync
  // ---------------------------------------------------------------------------

  /** One attempt of a call on the catalog: fetch it if none is cached, then call it. */
  function CatalogStep<Q, T>(c: Cache, fetched: Outcome<WidgetCatalog>,
                             call: (WidgetCatalog, Q, nat) -> Outcome<T>, q: Q, i: nat): (s: Step<T>)
    ensures s.Retry? && s.fault == Rpc ==> s.cache == Cache(None, None)
    ensures s.Retry? && s.fault == Other ==> s.cache.host == c.host && (c.catalog.Some? ==> s.cache == c)
    ensures s.Done? ==> s.cache.host == c.host && s.cache.catalog.Some?
                        && call(s.cache.catalog.value, q, i) == Returned(s.value)
    ensures c.catalog.Some? && s.Done? ==> s.cache == c
    ensures c.catalog.Some? ==> s.cache.catalog == c.catalog || s.cache.catalog.None?
    ensures c.catalog.None? && s.cache.catalog.Some? ==> fetched == Returned(s.cache.catalog.value)
    // which outcome ends the attempt: the cached catalog is used as is, and
    // only without one does the fetch's outcome matter
    ensures c.catalog.Some? && call(c.catalog.value, q, i).Returned?
            ==> s == Done(call(c.catalog.value, q, i).value, c)
    ensures c.catalog.Some? && !call(c.catalog.value, q, i).Returned?
            ==> s.Retry? && s.fault == FaultOf(call(c.catalog.value, q, i))
    ensures c.catalog.None? && fetched.Returned? && call(fetched.value, q, i).Returned?
            ==> s == Done(call(fetched.value, q, i).value, c.(catalog := Some(fetched.value)))
    ensures c.catalog.None? && fetched.Returned? && !call(fetched.value, q, i).Returned?
            ==> s.Retry? && s.fault == FaultOf(call(fetched.value, q, i))
    ensures c.catalog.None? && fetched.Returned? && !call(fetched.value, q, i).Returned?
            && !IsRpcFailure(call(fetched.value, q, i))
            ==> s == Retry(Other, c.(catalog := Some(fetched.value)))
    ensures c.catalog.None? && !fetched.Returned? ==> s.Retry? && s.fault == FaultOf(fetched)
  {
    if c.catalog.None? && !fetched.Returned? then
      Retry(FaultOf(fetched), Caught(c, FaultOf(fetched)))
    else
      var catalog := if c.catalog.Some? then c.catalog.value else fetched.value;
      var c1 := c.(catalog := Some(catalog));
      var o := call(catalog, q, i);
      if o.Returned? then Done(o.value, c1) else Retry(FaultOf(o), Caught(c1, FaultOf(o)))
  }

  /** The retry loop of a call on the catalog, from attempt `attempt` on. */
  function CatalogLoop<Q, T>(c: Cache, getDefault: nat -> Outcome<WidgetCatalog>,
                             call: (WidgetCatalog, Q, nat) -> Outcome<T>, q: Q, attempt: nat): (r: Run<T>)
    requires attempt <= MaxAttempts
    ensures attempt <= r.attempts <= MaxAttempts
    ensures r.attempts == attempt <==> attempt == MaxAttempts
    decreases MaxAttempts - attempt
  {
    if attempt == MaxAttempts then Run(None, c, attempt)
    else
      match CatalogStep(c, getDefault(attempt), call, q, attempt)
      case Done(v, c') => Run(Some(v), c', attempt + 1)
      case Retry(_, c') => CatalogLoop(c', getDefault, call, q, attempt + 1)
  }

  /**
   * At most `MaxAttempts` attempts; `None` only when every attempt ran, and a
   * value only as the result of the last attempt's call on the catalog that
   * stays cached.
   */
  lemma {:induction false} CatalogLoopOutcome<Q, T>(c: Cache, getDefault: nat -> Outcome<WidgetCatalog>,
                                                    call: (WidgetCatalog, Q, nat) -> Outcome<T>, q: Q, attempt: nat)
    requires attempt < MaxAttempts
    ensures var r := CatalogLoop(c, getDefault, call, q, attempt);
      && attempt < r.attempts <= MaxAttempts
      && (r.value.None? ==> r.attempts == MaxAttempts)
      && (r.value.Some? ==> r.cache.catalog.Some? && call(r.cache.catalog.value, q, r.attempts - 1) == Returned(r.value.value))
    decreases MaxAttempts - attempt
  {
    match CatalogStep(c, getDefault(attempt), call, q, attempt)
    case Done(_, _) =>
    case Retry(_, c') =>
      if attempt + 1 < MaxAttempts {
        CatalogLoopOutcome(c', getDefault, call, q, attempt + 1);
      }
  }

  /** With a catalog cached, the outcome of fetching one is never consulted. */
  lemma CatalogStepIgnoresFetchWhenCached<Q, T>(c: Cache, fetched: Outcome<WidgetCatalog>, fetched': Outcome<WidgetCatalog>,
                                                call: (WidgetCatalog, Q, nat) -> Outcome<T>, q: Q, i: nat)
    requires c.catalog.Some?
    ensures CatalogStep(c, fetched', call, q, i) == CatalogStep(c, fetched, call, q, i)
  {
  }

  /** The loop ends with the first attempt whose step returns, with that step's value and cache. */
  lemma CatalogLoopEndsAtReturningStep<Q, T>(c: Cache, getDefault: nat -> Outcome<WidgetCatalog>,
                                             call: (WidgetCatalog, Q, nat) -> Outcome<T>, q: Q, attempt: nat)
    requires attempt < MaxAttempts
    ensures var s := CatalogStep(c, getDefault(attempt), call, q, attempt);
      && (s.Done? ==> CatalogLoop(c, getDefault, call, q, attempt) == Run(Some(s.value), s.cache, attempt + 1))
      && (s.Retry? ==> CatalogLoop(c, getDefault, call, q, attempt) == CatalogLoop(s.cache, getDefault, call, q, attempt + 1))
  {
  }

  /** A cached catalog that answers ends the loop at once with its answer and the cache unchanged. */
  lemma CatalogLoopCachedCatalogAnswers<Q, T>(c: Cache, getDefault: nat -> Outcome<WidgetCatalog>,
                                              call: (WidgetCatalog, Q, nat) -> Outcome<T>, q: Q, attempt: nat)
    requires attempt < MaxAttempts
    requires c.catalog.Some? && call(c.catalog.value, q, attempt).Returned?
    ensures CatalogLoop(c, getDefault, call, q, attempt) == Run(Some(call(c.catalog.value, q, attempt).value), c, attempt + 1)
  {
  }

  /** Without a cached catalog, a fetched catalog that answers ends the loop with that catalog cached. */
  lemma CatalogLoopFetchedCatalogAnswers<Q, T>(c: Cache, getDefault: nat -> Outcome<WidgetCatalog>,
                                               call: (WidgetCatalog, Q, nat) -> Outcome<T>, q: Q, attempt: nat)
    requires attempt < MaxAttempts
    requires c.catalog.None? && getDefault(attempt).Returned?
    requires call(getDefault(attempt).value, q, attempt).Returned?
    ensures CatalogLoop(c, getDefault, call, q, attempt)
            == Run(Some(call(getDefault(attempt).value, q, attempt).value), c.(catalog := Some(getDefault(attempt).value)), attempt + 1)
  {
  }

  /**
   * Without an RPC error from the call, a cached catalog stays cached to the
   * end of the loop, so `GetDefault` is never consulted again.
   */
  lemma {:induction false} CatalogLoopKeepsCachedCatalogWithoutRpc<Q, T>(c: Cache, getDefault: nat -> Outcome<WidgetCatalog>,
                                                                         getDefault': nat -> Outcome<WidgetCatalog>,
                                                                         call: (WidgetCatalog, Q, nat) -> Outcome<T>, q: Q, attempt: nat)
    requires attempt <= MaxAttempts
    requires c.catalog.Some?
    requires forall h, k :: attempt <= k < MaxAttempts ==> !IsRpcFailure(call(h, q, k))
    ensures CatalogLoop(c, getDefault', call, q, attempt) == CatalogLoop(c, getDefault, call, q, attempt)
    ensures CatalogLoop(c, getDefault, call, q, attempt).cache == c
    decreases MaxAttempts - attempt
  {
    if attempt < MaxAttempts {
      assert CatalogStep(c, getDefault'(attempt), call, q, attempt) == CatalogStep(c, getDefault(attempt), call, q, attempt);
      match CatalogStep(c, getDefault(attempt), call, q, attempt)
      case Done(_, _) =>
      case Retry(_, c') =>
        assert !IsRpcFailure(call(c.catalog.value, q, attempt));
        CatalogLoopKeepsCachedCatalogWithoutRpc(c', getDefault, getDefault', call, q, attempt + 1);
    }
  }

  /**
   * Without an RPC error from the call, a catalog is fetched at most once: once
   * `GetDefault` returned one, no later fetch outcome changes the loop.
   */
  lemma CatalogLoopFetchesOnceWithoutRpc<Q, T>(c: Cache, getDefault: nat -> Outcome<WidgetCatalog>,
                                               getDefault': nat -> Outcome<WidgetCatalog>,
                                               call: (WidgetCatalog, Q, nat) -> Outcome<T>, q: Q, attempt: nat)
    requires attempt < MaxAttempts
    requires c.catalog.None? && getDefault(attempt).Returned? && getDefault'(attempt) == getDefault(attempt)
    requires forall h, k :: attempt <= k < MaxAttempts ==> !IsRpcFailure(call(h, q, k))
    ensures CatalogLoop(c, getDefault', call, q, attempt) == CatalogLoop(c, getDefault, call, q, attempt)
    ensures CatalogLoop(c, getDefault, call, q, attempt).cache == c.(catalog := Some(getDefault(attempt).value))
  {
    var c' := c.(catalog := Some(getDefault(attempt).value));
    if !call(getDefault(attempt).value, q, attempt).Returned? {
      assert !IsRpcFailure(call(getDefault(attempt).value, q, attempt));
      CatalogLoopKeepsCachedCatalogWithoutRpc(c', getDefault, getDefault', call, q, attempt + 1);
    }
  }

  /** A call on the catalog never registers a host: the cached one is kept or dropped. */
  lemma {:induction false} CatalogLoopNeverRegistersHost<Q, T>(c: Cache, getDefault: nat -> Outcome<WidgetCatalog>,
                                                               call: (WidgetCatalog, Q, nat) -> Outcome<T>, q: Q, attempt: nat)
    requires attempt <= MaxAttempts
    ensures var r := CatalogLoop(c, getDefault, call, q, attempt);
      r.cache.host == c.host || r.cache.host.None?
    decreases MaxAttempts - attempt
  {
    if attempt < MaxAttempts {
      match CatalogStep(c, getDefault(attempt), call, q, attempt)
      case Done(_, _) =>
      case Retry(_, c') =>
        CatalogLoopNeverRegistersHost(c', getDefault, call, q, attempt + 1);
    }
  }

  // ---------------------------------------------------------------------------
  // GetWidgetCatalogAsync: fetch the catalog and probe that it is alive
  // ---------------------------------------------------------------------------

  /** One attempt: fetch the catalog if none is cached, then ask it for a made-up definition. */
  function ProbeStep(c: Cache, fetched: Outcome<WidgetCatalog>,
                     getDefinition: (WidgetCatalog, string, nat) -> Outcome<Option<WidgetDefinition>>,
                     i: nat): (s: Step<WidgetCatalog>)
    ensures s.Retry? && s.fault == Rpc ==> s.cache == Cache(None, None)
    ensures s.Retry? && s.fault == Other ==> s.cache == c.(catalog := None)
    ensures s.Retry? ==> s.cache.catalog.None?
    ensures s.Done? ==> s.cache == c.(catalog := Some(s.value))
                        && getDefinition(s.value, FakeWidgetDefinitionId, i).Returned?
    ensures c.catalog.Some? && s.Done? ==> s.cache == c
    ensures c.catalog.None? && s.Done? ==> fetched == Returned(s.value)
    // which outcome ends the attempt: the cached catalog is probed as is,
    // and only without one does the fetch's outcome matter
    ensures c.catalog.Some? && getDefinition(c.catalog.value, FakeWidgetDefinitionId, i).Returned?
            ==> s == Done(c.catalog.value, c)
    ensures c.catalog.Some? && !getDefinition(c.catalog.value, FakeWidgetDefinitionId, i).Returned?
            ==> s.Retry? && s.fault == FaultOf(getDefinition(c.catalog.value, FakeWidgetDefinitionId, i))
    ensures c.catalog.None? && fetched.Returned? && getDefinition(fetched.value, FakeWidgetDefinitionId, i).Returned?
            ==> s == Done(fetched.value, c.(catalog := Some(fetched.value)))
    ensures c.catalog.None? && fetched.Returned? && !getDefinition(fetched.value, FakeWidgetDefinitionId, i).Returned?
            ==> s.Retry? && s.fault == FaultOf(getDefinition(fetched.value, FakeWidgetDefinitionId, i))
    ensures c.catalog.None? && !fetched.Returned? ==> s.Retry? && s.fault == FaultOf(fetched)
  {
    if c.catalog.None? && !fetched.Returned? then
      Retry(FaultOf(fetched), ProbeCaught(c, FaultOf(fetched)))
    else
      var catalog := if c.catalog.Some? then c.catalog.value else fetched.value;
      var c1 := c.(catalog := Some(catalog));
      var o := getDefinition(catalog, FakeWidgetDefinitionId, i);
      if o.Returned? then Done(catalog, c1) else Retry(FaultOf(o), ProbeCaught(c1, FaultOf(o)))
  }

  /** The retry loop of `GetWidgetCatalogAsync`; when attempts run out it returns the cached catalog. */
  function ProbeLoop(c: Cache, getDefault: nat -> Outcome<WidgetCatalog>,
                     getDefinition: (WidgetCatalog, string, nat) -> Outcome<Option<WidgetDefinition>>,
                     attempt: nat): (r: Run<WidgetCatalog>)
    requires attempt <= MaxAttempts
    ensures attempt <= r.attempts <= MaxAttempts
    ensures r.attempts == attempt <==> attempt == MaxAttempts
    ensures r.value == r.cache.catalog
    decreases MaxAttempts - attempt
  {
    if attempt == MaxAttempts then Run(c.catalog, c, attempt)
    else
      match ProbeStep(c, getDefault(attempt), getDefinition, attempt)
      case Done(v, c') => Run(Some(v), c', attempt + 1)
      case Retry(_, c') => ProbeLoop(c', getDefault, getDefinition, attempt + 1)
  }

  /**
   * The catalog returned is always the cached one; it is not `null` only
   * when the probe on it succeeded at the last attempt made, and when every
   * attempt failed it is `null`.
   */
  lemma {:induction false} ProbeLoopOutcome(c: Cache, getDefault: nat -> Outcome<WidgetCatalog>,
                                            getDefinition: (WidgetCatalog, string, nat) -> Outcome<Option<WidgetDefinition>>,
                                            attempt: nat)
    requires attempt < MaxAttempts
    ensures var r := ProbeLoop(c, getDefault, getDefinition, attempt);
      && attempt < r.attempts <= MaxAttempts
      && r.value == r.cache.catalog
      && (r.value.None? ==> r.attempts == MaxAttempts)
      && (r.value.Some? ==> getDefinition(r.value.value, FakeWidgetDefinitionId, r.attempts - 1).Returned?)
    decreases MaxAttempts - attempt
  {
    match ProbeStep(c, getDefault(attempt), getDefinition, attempt)
    case Done(_, _) =>
    case Retry(_, c') =>
      if attempt + 1 < MaxAttempts {
        ProbeLoopOutcome(c', getDefault, getDefinition, attempt + 1);
      }
  }

  /** With a catalog cached, the outcome of fetching one is never consulted. */
  lemma ProbeStepIgnoresFetchWhenCached(c: Cache, fetched: Outcome<WidgetCatalog>, fetched': Outcome<WidgetCatalog>,
                                        getDefinition: (WidgetCatalog, string, nat) -> Outcome<Option<WidgetDefinition>>, i: nat)
    requires c.catalog.Some?
    ensures ProbeStep(c, fetched', getDefinition, i) == ProbeStep(c, fetched, getDefinition, i)
  {
  }

  /** The loop ends with the first attempt whose probe returns, with that catalog and cache. */
  lemma ProbeLoopEndsAtReturningStep(c: Cache, getDefault: nat -> Outcome<WidgetCatalog>,
                                     getDefinition: (WidgetCatalog, string, nat) -> Outcome<Option<WidgetDefinition>>,
                                     attempt: nat)
    requires attempt < MaxAttempts
    ensures var s := ProbeStep(c, getDefault(attempt), getDefinition, attempt);
      && (s.Done? ==> ProbeLoop(c, getDefault, getDefinition, attempt) == Run(Some(s.value), s.cache, attempt + 1))
      && (s.Retry? ==> ProbeLoop(c, getDefault, getDefinition, attempt) == ProbeLoop(s.cache, getDefault, getDefinition, attempt + 1))
  {
  }

  /** A cached catalog whose probe returns is returned at once, with the cache unchanged. */
  lemma ProbeLoopCachedCatalogAnswers(c: Cache, getDefault: nat -> Outcome<WidgetCatalog>,
                                      getDefinition: (WidgetCatalog, string, nat) -> Outcome<Option<WidgetDefinition>>,
                                      attempt: nat)
    requires attempt < MaxAttempts
    requires c.catalog.Some? && getDefinition(c.catalog.value, FakeWidgetDefinitionId, attempt).Returned?
    ensures ProbeLoop(c, getDefault, getDefinition, attempt) == Run(c.catalog, c, attempt + 1)
  {
  }

  /** Without a cached catalog, a fetched catalog whose probe returns is cached and returned. */
  lemma ProbeLoopFetchedCatalogAnswers(c: Cache, getDefault: nat -> Outcome<WidgetCatalog>,
                                       getDefinition: (WidgetCatalog, string, nat) -> Outcome<Option<WidgetDefinition>>,
                                       attempt: nat)
    requires attempt < MaxAttempts
    requires c.catalog.None? && getDefault(attempt).Returned?
    requires getDefinition(getDefault(attempt).value, FakeWidgetDefinitionId, attempt).Returned?
    ensures ProbeLoop(c, getDefault, getDefinition, attempt)
            == Run(Some(getDefault(attempt).value), c.(catalog := Some(getDefault(attempt).value)), attempt + 1)
  {
  }

  /** An "other" exception in the probe loop never drops the host; only an RPC error does. */
  lemma {:induction false} ProbeLoopKeepsHostWithoutRpc(c: Cache, getDefault: nat -> Outcome<WidgetCatalog>,
                                                        getDefinition: (WidgetCatalog, string, nat) -> Outcome<Option<WidgetDefinition>>,
                                                        attempt: nat)
    requires attempt <= MaxAttempts
    requires forall k :: attempt <= k < MaxAttempts ==> !IsRpcFailure(getDefault(k))
    requires forall h, k :: attempt <= k < MaxAttempts ==> !IsRpcFailure(getDefinition(h, FakeWidgetDefinitionId, k))
    ensures ProbeLoop(c, getDefault, getDefinition, attempt).cache.host == c.host
    decreases MaxAttempts - attempt
  {
    if attempt < MaxAttempts {
      match ProbeStep(c, getDefault(attempt), getDefinition, attempt)
      case Done(_, _) =>
      case Retry(f, c') =>
        assert f == Other;
        ProbeLoopKeepsHostWithoutRpc(c', getDefault, getDefinition, attempt + 1);
    }
  }

  // ---------------------------------------------------------------------------
  // The service
  // ---------------------------------------------------------------------------

  /** The service object with its two cached handles. */
  class WidgetHostingService {
    var widgetHost: Option<WidgetHost>
    var widgetCatalog: Option<WidgetCatalog>

    function Fields(): Cache
      reads this
    {
      Cache(widgetHost, widgetCatalog)
    }

    constructor ()
      ensures Fields() == Cache(None, None)
    {
      widgetHost := None;
      widgetCatalog := None;
    }

    /** The loop shared by `GetWidgetsAsync` and `CreateWidgetAsync`. */
    method RetryOnHost<Q, T>(register: nat -> Outcome<WidgetHost>, call: (WidgetHost, Q, nat) -> Outcome<T>, q: Q)
      returns (r: Option<T>)
      modifies this
      ensures var run := HostLoop(old(Fields()), register, call, q, 0);
        r == run.value && Fields() == run.cache
    {
      var attempt := 0;
      while attempt < MaxAttempts
        invariant attempt <= MaxAttempts
        invariant HostLoop(Fields(), register, call, q, attempt) == HostLoop(old(Fields()), register, call, q, 0)
      {
        var i := attempt;
        attempt := attempt + 1;
        if widgetHost.None? {
          var registered := register(i);
          if !registered.Returned? {
            if IsRpcFailure(registered) {
              widgetHost := None;
              widgetCatalog := None;
            }
            continue;
          }
          widgetHost := Some(registered.value);
        }
        var result := call(widgetHost.value, q, i);
        if result.Returned? {
          return Some(result.value);
        }
        if IsRpcFailure(result) {
          widgetHost := None;
          widgetCatalog := None;
        }
      }
      return None;
    }

    /** The loop shared by the three calls on the catalog. */
    method RetryOnCatalog<Q, T>(getDefault: nat -> Outcome<WidgetCatalog>, call: (WidgetCatalog, Q, nat) -> Outcome<T>, q: Q)
      returns (r: Option<T>)
      modifies this
      ensures var run := CatalogLoop(old(Fields()), getDefault, call, q, 0);
        r == run.value && Fields() == run.cache
    {
      var attempt := 0;
      while attempt < MaxAttempts
        invariant attempt <= MaxAttempts
        invariant CatalogLoop(Fields(), getDefault, call, q, attempt) == CatalogLoop(old(Fields()), getDefault, call, q, 0)
      {
        var i := attempt;
        attempt := attempt + 1;
        if widgetCatalog.None? {
          var fetched := getDefault(i);
          if !fetched.Returned? {
            if IsRpcFailure(fetched) {
              widgetHost := None;
              widgetCatalog := None;
            }
            continue;
          }
          widgetCatalog := Some(fetched.value);
        }
        var result := call(widgetCatalog.value, q, i);
        if result.Returned? {
          return Some(result.value);
        }
        if IsRpcFailure(result) {
          widgetHost := None;
          widgetCatalog := None;
        }
      }
      return None;
    }

    /** The current widgets, or `None` (null) when every attempt failed. */
    method GetWidgetsAsync(register: nat -> Outcome<WidgetHost>, getWidgets: (WidgetHost, (), nat) -> Outcome<seq<Widget>>)
      returns (r: Option<seq<Widget>>)
      modifies this
      ensures var run := HostLoop(old(Fields()), register, getWidgets, (), 0);
        r == run.value && Fields() == run.cache
    {
      r := RetryOnHost(register, getWidgets, ());
    }

    /** A new widget, or `None` (null) when every attempt failed. */
    method CreateWidgetAsync(widgetDefinitionId: string, widgetSize: WidgetSize, register: nat -> Outcome<WidgetHost>,
                             createWidget: (WidgetHost, (string, WidgetSize), nat) -> Outcome<Widget>)
      returns (r: Option<Widget>)
      modifies this
      ensures var run := HostLoop(old(Fields()), register, createWidget, (widgetDefinitionId, widgetSize), 0);
        r == run.value && Fields() == run.cache
    {
      r := RetryOnHost(register, createWidget, (widgetDefinitionId, widgetSize));
    }

    /** A live catalog, or `None` (null) when every attempt failed; the cache then holds no catalog. */
    method GetWidgetCatalogAsync(getDefault: nat -> Outcome<WidgetCatalog>,
                                 getDefinition: (WidgetCatalog, string, nat) -> Outcome<Option<WidgetDefinition>>)
      returns (r: Option<WidgetCatalog>)
      modifies this
      ensures var run := ProbeLoop(old(Fields()), getDefault, getDefinition, 0);
        r == run.value && Fields() == run.cache
      ensures r == widgetCatalog
    {
      var attempt := 0;
      while attempt < MaxAttempts
        invariant attempt <= MaxAttempts
        invariant ProbeLoop(Fields(), getDefault, getDefinition, attempt) == ProbeLoop(old(Fields()), getDefault, getDefinition, 0)
      {
        var i := attempt;
        attempt := attempt + 1;
        if widgetCatalog.None? {
          var fetched := getDefault(i);
          if !fetched.Returned? {
            if IsRpcFailure(fetched) {
              widgetHost := None;
            }
            widgetCatalog := None;
            continue;
          }
          widgetCatalog := Some(fetched.value);
        }
        var probe := getDefinition(widgetCatalog.value, FakeWidgetDefinitionId, i);
        if probe.Returned? {
          return widgetCatalog;
        }
        if IsRpcFailure(probe) {
          widgetHost := None;
        }
        widgetCatalog := None;
      }
      ProbeLoopOutcome(old(Fields()), getDefault, getDefinition, 0);
      return widgetCatalog;
    }

    /** The provider definitions, or none when every attempt failed. */
    method GetProviderDefinitionsAsync(getDefault: nat -> Outcome<WidgetCatalog>,
                                       getProviderDefinitions: (WidgetCatalog, (), nat) -> Outcome<seq<WidgetProviderDefinition>>)
      returns (r: seq<WidgetProviderDefinition>)
      modifies this
      ensures var run := CatalogLoop(old(Fields()), getDefault, getProviderDefinitions, (), 0);
        r == run.value.GetOr([]) && Fields() == run.cache
    {
      var o := RetryOnCatalog(getDefault, getProviderDefinitions, ());
      r := o.GetOr([]);
    }

    /** The widget definitions, or none when every attempt failed. */
    method GetWidgetDefinitionsAsync(getDefault: nat -> Outcome<WidgetCatalog>,
                                     getWidgetDefinitions: (WidgetCatalog, (), nat) -> Outcome<seq<WidgetDefinition>>)
      returns (r: seq<WidgetDefinition>)
      modifies this
      ensures var run := CatalogLoop(old(Fields()), getDefault, getWidgetDefinitions, (), 0);
        r == run.value.GetOr([]) && Fields() == run.cache
    {
      var o := RetryOnCatalog(getDefault, getWidgetDefinitions, ());
      r := o.GetOr([]);
    }

    /**
     * The definition with the given id: what the catalog returned (itself
     * `None` for an unknown id), or `None` when every attempt failed.
     */
    method GetWidgetDefinitionAsync(widgetDefinitionId: string, getDefault: nat -> Outcome<WidgetCatalog>,
                                    getDefinition: (WidgetCatalog, string, nat) -> Outcome<Option<WidgetDefinition>>)
      returns (r: Option<WidgetDefinition>)
      modifies this
      ensures var run := CatalogLoop(old(Fields()), getDefault, getDefinition, widgetDefinitionId, 0);
        r == (if run.value.Some? then run.value.value else None) && Fields() == run.cache
    {
      var o := RetryOnCatalog(getDefault, getDefinition, widgetDefinitionId);
      r := if o.Some? then o.value else None;
    }
  }
}
