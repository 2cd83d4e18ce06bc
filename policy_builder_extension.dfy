/**
 * AddPolicies: reads the HttpPolicyOptions section of the configuration and
 * registers, for one service, a retry policy and a circuit-breaker policy in
 * a string-keyed policy registry, under `{ServiceName}_Retry` and
 * `{ServiceName}_CircuitBreaker`.
 */
module PolicyBuilderExtension {

  datatype PolicyType = Retry | CircuitBreaker

  /** How a PolicyType renders inside an interpolated string: its member name. */
  function PolicyTypeName(p: PolicyType): string {
    match p
    case Retry => "Retry"
    case CircuitBreaker => "CircuitBreaker"
  }

  /** The registry key of one policy of one service. */
  function PolicyKey(serviceName: string, policy: PolicyType): string {
    serviceName + "_" + PolicyTypeName(policy)
  }

  /** Different (service, policy) pairs never share a key. */
  lemma PolicyKeyInjective(s1: string, p1: PolicyType, s2: string, p2: PolicyType)
    ensures PolicyKey(s1, p1) == PolicyKey(s2, p2) <==> s1 == s2 && p1 == p2
  {
    var k1, k2 := PolicyKey(s1, p1), PolicyKey(s2, p2);
    // "Retry" ends in 'y', "CircuitBreaker" in 'r'.
    assert k1[|k1| - 1] == if p1 == Retry then 'y' else 'r';
    assert k2[|k2| - 1] == if p2 == Retry then 'y' else 'r';
    if k1 == k2 && p1 == p2 {
      var n := |PolicyTypeName(p1)| + 1;
      assert s1 == k1[..|k1| - n];
      assert s2 == k2[..|k2| - n];
    }
  }

  // ---------------------------------------------------------------------------
  // Options

  /** The integer settings of HttpPolicyOptions (backoff power and break duration are not modelled). */
  datatype HttpPolicyOptions = HttpPolicyOptions(httpRetryCount: int, circuitBreakerToleranceCount: int)

  const DefaultHttpPolicyOptions: HttpPolicyOptions := HttpPolicyOptions(3, 5)

  const OptionsSection: string := "HttpPolicyOptions"

  /** Configuration values by their full path, `Section:Setting`, already read as integers. */
  type Configuration = map<string, int>

  function SettingPath(setting: string): string {
    OptionsSection + ":" + setting
  }

  /** Binding the section onto a fresh options object: a present setting overrides its default. */
  function BindOptions(config: Configuration): HttpPolicyOptions {
    var retry := SettingPath("HttpRetryCount");
    var tolerance := SettingPath("CircuitBreakerToleranceCount");
    HttpPolicyOptions(
      if retry in config then config[retry] else DefaultHttpPolicyOptions.httpRetryCount,
      if tolerance in config then config[tolerance] else DefaultHttpPolicyOptions.circuitBreakerToleranceCount)
  }

  /** Only the section's own two settings matter; absent ones keep the defaults 3 and 5. */
  lemma BindOptionsReadsSection(config: Configuration, other: Configuration)
    ensures SettingPath("HttpRetryCount") !in config ==> BindOptions(config).httpRetryCount == 3
    ensures SettingPath("CircuitBreakerToleranceCount") !in config ==> BindOptions(config).circuitBreakerToleranceCount == 5
    ensures (forall s :: s in {"HttpRetryCount", "CircuitBreakerToleranceCount"} ==>
               (SettingPath(s) in config <==> SettingPath(s) in other)
               && (SettingPath(s) in config ==> config[SettingPath(s)] == other[SettingPath(s)]))
            ==> BindOptions(config) == BindOptions(other)
  {
  }

  // ---------------------------------------------------------------------------
  // Policies and the registry

  /** The failure predicate a policy is built with. */
  datatype FailurePredicate = HandleTransientHttpError

  /** A consecutive-count breaker's state: handled failures in a row, and whether it is open. */
  datatype BreakerState = BreakerState(consecutiveFailures: nat, isOpen: bool)

  const Closed: BreakerState := BreakerState(0, false)

  /**
   * The mutable state inside one circuit-breaker policy object. The registry
   * holds a reference to it, so every handler fetched from the registry under
   * the same key works on this one state.
   */
  class Circuit {
    var state: BreakerState

    constructor()
      ensures state == Closed
    {
      state := Closed;
    }
  }

  datatype Policy =
    | RetryPolicy(handles: FailurePredicate, retryCount: nat)
    | CircuitBreakerPolicy(handles: FailurePredicate, handledEventsAllowedBeforeBreaking: nat, circuit: Circuit)

  /** How AddPolicies ends: normally, or by an exception from policy construction or Add. */
  datatype Completion =
    | Completed
    | NegativeRetryCount            // the retry policy refuses a negative count
    | NonPositiveTolerance          // the breaker refuses fewer than one allowed event
    | DuplicateKey(key: string)     // the registry refuses a key it already holds

  class PolicyRegistry {
    var policies: map<string, Policy>

    constructor()
      ensures policies == map[]
    {
      policies := map[];
    }

    /** Add refuses (throws, in the source) a key that is already registered. */
    method Add(key: string, policy: Policy) returns (added: bool)
      modifies this
      ensures added <==> key !in old(policies)
      ensures policies == if added then old(policies)[key := policy] else old(policies)
    {
      added := key !in policies;
      if added {
        policies := policies[key := policy];
      }
    }
  }

  /** The registry contents and completion AddPolicies produces from `before`. */
  datatype Registration = Registration(policies: map<string, Policy>, completion: Completion)

  /** What AddPolicies does to the registry, `circuit` being the new breaker's state object. */
  function Register(serviceName: string, options: HttpPolicyOptions, before: map<string, Policy>, circuit: Circuit): Registration {
    var retryKey := PolicyKey(serviceName, Retry);
    var breakerKey := PolicyKey(serviceName, CircuitBreaker);
    if options.httpRetryCount < 0 then Registration(before, NegativeRetryCount)
    else if retryKey in before then Registration(before, DuplicateKey(retryKey))
    else
      var afterRetry := before[retryKey := RetryPolicy(HandleTransientHttpError, options.httpRetryCount)];
      if options.circuitBreakerToleranceCount < 1 then Registration(afterRetry, NonPositiveTolerance)
      else if breakerKey in afterRetry then Registration(afterRetry, DuplicateKey(breakerKey))
      else Registration(afterRetry[breakerKey := CircuitBreakerPolicy(HandleTransientHttpError, options.circuitBreakerToleranceCount, circuit)], Completed)
  }

  /**
   * AddPolicies. A null registry is left alone (neither policy is even built);
   * otherwise the retry policy is built and added, then the breaker. The
   * breaker's state object is allocated up front, which no caller can observe.
   */
  method AddPolicies(serviceName: string, config: Configuration, registry: PolicyRegistry?)
    returns (completion: Completion, ghost circuit: Circuit?)
    modifies registry
    ensures registry == null ==> completion == Completed && circuit == null
    ensures registry != null ==> circuit != null && fresh(circuit) && circuit.state == Closed
    ensures registry != null ==>
      Registration(registry.policies, completion) == Register(serviceName, BindOptions(config), old(registry.policies), circuit)
  {
    var options := BindOptions(config);
    completion, circuit := Completed, null;
    if registry != null {
      var state := new Circuit();
      circuit := state;
      if options.httpRetryCount < 0 {
        return NegativeRetryCount, circuit;
      }
      var retryKey := PolicyKey(serviceName, Retry);
      var added := registry.Add(retryKey, RetryPolicy(HandleTransientHttpError, options.httpRetryCount));
      if !added {
        return DuplicateKey(retryKey), circuit;
      }
      if options.circuitBreakerToleranceCount < 1 {
        return NonPositiveTolerance, circuit;
      }
      var breakerKey := PolicyKey(serviceName, CircuitBreaker);
      added := registry.Add(breakerKey, CircuitBreakerPolicy(HandleTransientHttpError, options.circuitBreakerToleranceCount, state));
      if !added {
        return DuplicateKey(breakerKey), circuit;
      }
    }
  }

  /** Two inserts under fresh, distinct keys grow a map by exactly those two entries. */
  lemma InsertTwo<K, V>(before: map<K, V>, k1: K, v1: V, k2: K, v2: V)
    requires k1 != k2 && k1 !in before && k2 !in before
    ensures var after := before[k1 := v1][k2 := v2];
      && after.Keys == before.Keys + {k1, k2}
      && |after| == |before| + 2
  {
    var mid := before[k1 := v1];
    assert mid.Keys == before.Keys + {k1};
    assert mid[k2 := v2].Keys == mid.Keys + {k2};
  }

  /** A completed registration adds exactly the two keyed policies and keeps every other entry. */
  lemma RegistersExactlyTwo(serviceName: string, options: HttpPolicyOptions, before: map<string, Policy>, circuit: Circuit)
    requires Register(serviceName, options, before, circuit).completion == Completed
    ensures var after := Register(serviceName, options, before, circuit).policies;
      && after.Keys == before.Keys + {PolicyKey(serviceName, Retry), PolicyKey(serviceName, CircuitBreaker)}
      && |after| == |before| + 2
      && after[PolicyKey(serviceName, Retry)] == RetryPolicy(HandleTransientHttpError, options.httpRetryCount)
      && after[PolicyKey(serviceName, CircuitBreaker)]
           == CircuitBreakerPolicy(HandleTransientHttpError, options.circuitBreakerToleranceCount, circuit)
      && forall k :: k in before ==> after[k] == before[k]
  {
    var retryKey := PolicyKey(serviceName, Retry);
    var breakerKey := PolicyKey(serviceName, CircuitBreaker);
    PolicyKeyInjective(serviceName, Retry, serviceName, CircuitBreaker);
    InsertTwo(before, retryKey, RetryPolicy(HandleTransientHttpError, options.httpRetryCount),
              breakerKey, CircuitBreakerPolicy(HandleTransientHttpError, options.circuitBreakerToleranceCount, circuit));
  }

  /** Registration completes exactly when the options are valid and neither key is taken. */
  lemma RegisterCompletes(serviceName: string, options: HttpPolicyOptions, before: map<string, Policy>, circuit: Circuit)
    ensures Register(serviceName, options, before, circuit).completion == Completed
        <==> options.httpRetryCount >= 0 && options.circuitBreakerToleranceCount >= 1
             && PolicyKey(serviceName, Retry) !in before && PolicyKey(serviceName, CircuitBreaker) !in before
  {
    PolicyKeyInjective(serviceName, Retry, serviceName, CircuitBreaker);
  }

  /** An empty configuration and an empty registry give the two default policies. */
  lemma DefaultRegistration(serviceName: string, circuit: Circuit)
    ensures Register(serviceName, BindOptions(map[]), map[], circuit)
         == Registration(map[PolicyKey(serviceName, Retry) := RetryPolicy(HandleTransientHttpError, 3),
                             PolicyKey(serviceName, CircuitBreaker) := CircuitBreakerPolicy(HandleTransientHttpError, 5, circuit)],
                         Completed)
  {
    PolicyKeyInjective(serviceName, Retry, serviceName, CircuitBreaker);
  }
}
