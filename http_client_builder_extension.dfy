/**
 * AddHttpClientBuilder: attaches to a typed HTTP client one handler per
 * requested PolicyType, each fetched from the policy registry under
 * `{ServiceName}_{PolicyType}`, outermost first. With the registrations
 * AddPolicies makes and the order [Retry, CircuitBreaker], every request of
 * the client goes through a retry policy wrapped around a consecutive-count
 * circuit breaker, whose state outlives a single call.
 */
module HttpClientBuilderExtension {
  import opened Text
  import opened PolicyBuilderExtension

  /** The handler chain of one typed client, as registry keys, outermost first. */
  class HttpClientBuilder {
    var handlerKeys: seq<string>

    constructor()
      ensures handlerKeys == []
    {
      handlerKeys := [];
    }

    method AddPolicyHandlerFromRegistry(key: string)
      modifies this
      ensures handlerKeys == old(handlerKeys) + [key]
    {
      handlerKeys := handlerKeys + [key];
    }
  }

  /** One handler per requested policy, in the order requested, each under the service's key. */
  method AddHttpClientBuilder(serviceName: string, policies: seq<PolicyType>) returns (builder: HttpClientBuilder)
    ensures fresh(builder)
    ensures |builder.handlerKeys| == |policies|
    ensures forall i :: 0 <= i < |policies| ==> builder.handlerKeys[i] == PolicyKey(serviceName, policies[i])
  {
    builder := new HttpClientBuilder();
    for i := 0 to |policies|
      invariant |builder.handlerKeys| == i
      invariant forall k :: 0 <= k < i ==> builder.handlerKeys[k] == PolicyKey(serviceName, policies[k])
    {
      builder.AddPolicyHandlerFromRegistry(PolicyKey(serviceName, policies[i]));
    }
  }

  /**
   * Building the client looks every handler key up in the registry; a key
   * that is not there makes the build fail.
   */
  function ResolveHandlers(keys: seq<string>, registry: map<string, Policy>): (r: Option<seq<Policy>>)
    ensures r.Some? <==> forall i :: 0 <= i < |keys| ==> keys[i] in registry
    ensures r.Some? ==> |r.value| == |keys| && forall i :: 0 <= i < |keys| ==> r.value[i] == registry[keys[i]]
    decreases |keys|
  {
    if keys == [] then Some([])
    else if keys[0] !in registry then None
    else
      match ResolveHandlers(keys[1..], registry)
      case None => None
      case Some(rest) => Some([registry[keys[0]]] + rest)
  }

  /** The policy AddPolicies registers for one PolicyType. */
  function PolicyFor(options: HttpPolicyOptions, p: PolicyType, circuit: Circuit): Policy
    requires options.httpRetryCount >= 0 && options.circuitBreakerToleranceCount >= 1
  {
    match p
    case Retry => RetryPolicy(HandleTransientHttpError, options.httpRetryCount)
    case CircuitBreaker => CircuitBreakerPolicy(HandleTransientHttpError, options.circuitBreakerToleranceCount, circuit)
  }

  /**
   * After AddPolicies completes for a service, any list of policies
   * requested for that service resolves, each to the policy built from the
   * options; every CircuitBreaker handler refers to the one registered
   * breaker state.
   */
  lemma RegisteredPoliciesResolve(serviceName: string, options: HttpPolicyOptions,
                                  before: map<string, Policy>, circuit: Circuit, policies: seq<PolicyType>)
    requires Register(serviceName, options, before, circuit).completion == Completed
    ensures options.httpRetryCount >= 0 && options.circuitBreakerToleranceCount >= 1
    ensures var keys := seq(|policies|, i requires 0 <= i < |policies| => PolicyKey(serviceName, policies[i]));
      var r := ResolveHandlers(keys, Register(serviceName, options, before, circuit).policies);
      && r.Some?
      && |r.value| == |policies|
      && forall i :: 0 <= i < |policies| ==> r.value[i] == PolicyFor(options, policies[i], circuit)
  {
    RegisterCompletes(serviceName, options, before, circuit);
    RegistersExactlyTwo(serviceName, options, before, circuit);
  }

  /** The contracts client asks for [Retry, CircuitBreaker] and gets retry outside breaker. */
  lemma ContractsClientHandlers(config: Configuration, before: map<string, Policy>, circuit: Circuit)
    requires Register("IContractsDataService", BindOptions(config), before, circuit).completion == Completed
    ensures var options := BindOptions(config);
      ResolveHandlers([PolicyKey("IContractsDataService", Retry), PolicyKey("IContractsDataService", CircuitBreaker)],
                      Register("IContractsDataService", options, before, circuit).policies)
      == Some([RetryPolicy(HandleTransientHttpError, options.httpRetryCount),
               CircuitBreakerPolicy(HandleTransientHttpError, options.circuitBreakerToleranceCount, circuit)])
  {
    var policies := [Retry, CircuitBreaker];
    RegisteredPoliciesResolve("IContractsDataService", BindOptions(config), before, circuit, policies);
    assert seq(|policies|, i requires 0 <= i < |policies| => PolicyKey("IContractsDataService", policies[i]))
        == [PolicyKey("IContractsDataService", Retry), PolicyKey("IContractsDataService", CircuitBreaker)];
    var r := ResolveHandlers([PolicyKey("IContractsDataService", Retry), PolicyKey("IContractsDataService", CircuitBreaker)],
                             Register("IContractsDataService", BindOptions(config), before, circuit).policies);
    var options := BindOptions(config);
    assert r.Some? && |r.value| == 2;
    assert r.value[0] == PolicyFor(options, policies[0], circuit);
    assert r.value[1] == PolicyFor(options, policies[1], circuit);
    assert r.value == [RetryPolicy(HandleTransientHttpError, options.httpRetryCount),
                       CircuitBreakerPolicy(HandleTransientHttpError, options.circuitBreakerToleranceCount, circuit)];
  }

  // ---------------------------------------------------------------------------
  // The handler pipeline at run time

  /** What one send on the wire produces. */
  datatype Reply = Response(statusCode: int) | HttpRequestError

  /** The failures both policies handle: a network error, a 5xx status or 408. */
  predicate IsTransient(r: Reply) {
    r.HttpRequestError? || r.statusCode >= 500 || r.statusCode == 408
  }

  /** What a caller of the client sees: the last reply, or the open breaker's exception. */
  datatype CallResult = Delivered(reply: Reply) | BrokenCircuit

  /** The closed breaker's bookkeeping for one reply: count a handled failure, reset on anything else. */
  function Record(tolerance: nat, st: BreakerState, reply: Reply): BreakerState {
    if IsTransient(reply) then BreakerState(st.consecutiveFailures + 1, st.consecutiveFailures + 1 >= tolerance)
    else Closed
  }

  /** Breaker state and send count after a call, with what the call returned. */
  datatype Run = Run(breaker: BreakerState, sends: nat, result: CallResult)

  /**
   * One call: the retry policy (outside) makes attempts through the breaker
   * (inside). `transport(n)` is the reply to the n-th send since the client
   * was built. An open breaker rejects the attempt without sending, and the
   * retry policy does not handle that rejection.
   */
  function RetryOverBreaker(retriesLeft: nat, tolerance: nat, st: BreakerState, sends: nat, transport: nat -> Reply): Run
    decreases retriesLeft
  {
    if st.isOpen then Run(st, sends, BrokenCircuit)
    else
      var reply := transport(sends);
      var next := Record(tolerance, st, reply);
      if IsTransient(reply) && retriesLeft > 0 then RetryOverBreaker(retriesLeft - 1, tolerance, next, sends + 1, transport)
      else Run(next, sends + 1, Delivered(reply))
  }

  /**
   * One client's handlers at run time. The breaker's state is the registered
   * policy's `circuit`, shared with every other client built from the same
   * registry entry; the send count is this client's own.
   */
  class ResilientTransport {
    const retryCount: nat
    const tolerance: nat
    const circuit: Circuit
    var sends: nat

    constructor(retry: Policy, circuitBreaker: Policy)
      requires retry.RetryPolicy? && circuitBreaker.CircuitBreakerPolicy?
      ensures retryCount == retry.retryCount
      ensures tolerance == circuitBreaker.handledEventsAllowedBeforeBreaking
      ensures circuit == circuitBreaker.circuit && sends == 0
    {
      retryCount := retry.retryCount;
      tolerance := circuitBreaker.handledEventsAllowedBeforeBreaking;
      circuit := circuitBreaker.circuit;
      sends := 0;
    }

    method Send(transport: nat -> Reply) returns (result: CallResult)
      modifies this, circuit
      ensures Run(circuit.state, sends, result)
           == RetryOverBreaker(retryCount, tolerance, old(circuit.state), old(sends), transport)
    {
      var left := retryCount;
      while true
        invariant RetryOverBreaker(left, tolerance, circuit.state, sends, transport)
               == RetryOverBreaker(retryCount, tolerance, old(circuit.state), old(sends), transport)
        decreases left
      {
        if circuit.state.isOpen {
          return BrokenCircuit;
        }
        var reply := transport(sends);
        circuit.state := Record(tolerance, circuit.state, reply);
        sends := sends + 1;
        if !IsTransient(reply) || left == 0 {
          return Delivered(reply);
        }
        left := left - 1;
      }
    }
  }

  /**
   * A call makes at most one send per allowed attempt; an open breaker
   * rejects it without any send; a rejection only ever comes from an open
   * breaker, and a delivered reply that was not a handled failure leaves the
   * breaker closed with its count reset.
   */
  lemma {:induction false} RetryOverBreakerBounds(retriesLeft: nat, tolerance: nat, st: BreakerState, sends: nat,
                                                 transport: nat -> Reply)
    ensures var r := RetryOverBreaker(retriesLeft, tolerance, st, sends, transport);
      && sends <= r.sends <= sends + retriesLeft + 1
      && (st.isOpen ==> r == Run(st, sends, BrokenCircuit))
      && (r.result.BrokenCircuit? ==> r.breaker.isOpen)
      && (r.result.Delivered? ==> r.sends > sends && r.result.reply == transport(r.sends - 1))
      && (r.result.Delivered? && !IsTransient(r.result.reply) ==> r.breaker == Closed)
    decreases retriesLeft
  {
    if !st.isOpen && retriesLeft > 0 {
      RetryOverBreakerBounds(retriesLeft - 1, tolerance, Record(tolerance, st, transport(sends)), sends + 1, transport);
    }
  }

  /** A reply that is not a handled failure ends the call at once and closes the breaker. */
  lemma NonTransientNotRetried(retriesLeft: nat, tolerance: nat, st: BreakerState, sends: nat, transport: nat -> Reply)
    requires !st.isOpen && !IsTransient(transport(sends))
    ensures RetryOverBreaker(retriesLeft, tolerance, st, sends, transport) == Run(Closed, sends + 1, Delivered(transport(sends)))
  {
  }

  /**
   * `k` handled failures followed by a good reply: if the retries and the
   * breaker's tolerance both allow them, the call makes k + 1 sends,
   * returns the good reply and leaves the breaker closed and reset.
   */
  lemma {:induction false} RecoversAfterFailures(k: nat, retriesLeft: nat, tolerance: nat, failures: nat, sends: nat,
                                                transport: nat -> Reply)
    requires k <= retriesLeft && failures + k < tolerance
    requires forall i :: sends <= i < sends + k ==> IsTransient(transport(i))
    requires !IsTransient(transport(sends + k))
    ensures RetryOverBreaker(retriesLeft, tolerance, BreakerState(failures, false), sends, transport)
         == Run(Closed, sends + k + 1, Delivered(transport(sends + k)))
    decreases k
  {
    if k > 0 {
      assert IsTransient(transport(sends));
      RecoversAfterFailures(k - 1, retriesLeft - 1, tolerance, failures + 1, sends + 1, transport);
    }
  }

  /**
   * Only handled failures: with `failures` already counted, a call either
   * uses up its retries (the breaker opening at the very last send at most)
   * and returns the last failure, or opens the breaker after
   * `tolerance - failures` sends and is then rejected.
   */
  lemma {:induction false} PersistentFailure(retriesLeft: nat, tolerance: nat, failures: nat, sends: nat,
                                            transport: nat -> Reply)
    requires failures < tolerance
    requires forall i :: sends <= i <= sends + retriesLeft ==> IsTransient(transport(i))
    ensures RetryOverBreaker(retriesLeft, tolerance, BreakerState(failures, false), sends, transport)
         == if failures + retriesLeft + 1 <= tolerance then
              Run(BreakerState(failures + retriesLeft + 1, failures + retriesLeft + 1 == tolerance),
                  sends + retriesLeft + 1, Delivered(transport(sends + retriesLeft)))
            else
              Run(BreakerState(tolerance, true), sends + tolerance - failures, BrokenCircuit)
    decreases retriesLeft
  {
    assert IsTransient(transport(sends));
    if retriesLeft > 0 && failures + 1 < tolerance {
      PersistentFailure(retriesLeft - 1, tolerance, failures + 1, sends + 1, transport);
    }
  }

  // ---------------------------------------------------------------------------
  // The client built the way the contracts client and its tests build it

  const DummyServiceName: string := "IDummyService"

  /**
   * AddPolicies on a fresh registry with no HttpPolicyOptions settings, then
   * AddHttpClientBuilder with [Retry, CircuitBreaker], then the handlers
   * resolved from the registry.
   */
  method CreateDummyHandlers() returns (retry: Policy, circuitBreaker: Policy)
    ensures retry == RetryPolicy(HandleTransientHttpError, 3)
    ensures circuitBreaker.CircuitBreakerPolicy? && circuitBreaker.handledEventsAllowedBeforeBreaking == 5
    ensures fresh(circuitBreaker.circuit) && circuitBreaker.circuit.state == Closed
  {
    var registry := new PolicyRegistry();
    var completion;
    ghost var circuit;
    completion, circuit := AddPolicies(DummyServiceName, map[], registry);
    DefaultRegistration(DummyServiceName, circuit);
    var builder := AddHttpClientBuilder(DummyServiceName, [Retry, CircuitBreaker]);
    var handlers := ResolveHandlers(builder.handlerKeys, registry.policies);
    assert handlers.Some?;
    retry, circuitBreaker := handlers.value[0], handlers.value[1];
  }

  /** One client built on those handlers. */
  method CreateDummyClient() returns (client: ResilientTransport)
    ensures fresh(client) && fresh(client.circuit)
    ensures client.retryCount == 3 && client.tolerance == 5
    ensures client.circuit.state == Closed && client.sends == 0
  {
    var retry, circuitBreaker := CreateDummyHandlers();
    client := new ResilientTransport(retry, circuitBreaker);
  }

  /** A first reply of 200 is returned after one send. */
  method FirstAttemptSucceeds() returns (result: CallResult, sends: nat)
    ensures result == Delivered(Response(200)) && sends == 1
  {
    var client := CreateDummyClient();
    result := client.Send(n => Response(200));
    sends := client.sends;
  }

  /** A 500 followed by 200 is retried once: two sends, and the 200 comes back. */
  method ServerErrorIsRetried() returns (result: CallResult, sends: nat)
    ensures result == Delivered(Response(200)) && sends == 2
  {
    var client := CreateDummyClient();
    var transport: nat -> Reply := n => if n == 0 then Response(500) else Response(200);
    RecoversAfterFailures(1, 3, 5, 0, 0, transport);
    result := client.Send(transport);
    sends := client.sends;
  }

  /**
   * Persistent 500s: the first call makes four sends and returns the 500;
   * the second opens the breaker on its first send and is rejected on its
   * first retry; five sends in all.
   */
  method PersistentServerErrorBreaksCircuit() returns (first: CallResult, second: CallResult, sends: nat)
    ensures first == Delivered(Response(500)) && second == BrokenCircuit && sends == 5
  {
    var client := CreateDummyClient();
    var transport: nat -> Reply := n => Response(500);
    PersistentFailure(3, 5, 0, 0, transport);
    first := client.Send(transport);
    PersistentFailure(3, 5, 4, 4, transport);
    second := client.Send(transport);
    sends := client.sends;
  }

  /**
   * Two clients built on the same registered handlers share one breaker:
   * after persistent 500s through the first client open it, the second
   * client's first call is rejected without sending anything.
   */
  method ClientsShareTheBreaker() returns (first: CallResult, second: CallResult, other: CallResult, otherSends: nat)
    ensures first == Delivered(Response(500)) && second == BrokenCircuit
    ensures other == BrokenCircuit && otherSends == 0
  {
    var retry, circuitBreaker := CreateDummyHandlers();
    var client := new ResilientTransport(retry, circuitBreaker);
    var otherClient := new ResilientTransport(retry, circuitBreaker);
    var failing: nat -> Reply := n => Response(500);
    PersistentFailure(3, 5, 0, 0, failing);
    first := client.Send(failing);
    PersistentFailure(3, 5, 4, 4, failing);
    second := client.Send(failing);
    other := otherClient.Send(n => Response(200));
    otherSends := otherClient.sends;
  }
}
