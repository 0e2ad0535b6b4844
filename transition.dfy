/** TransitionService of helpers.go: the traffic cutover of the base
    service, a read-modify-write repeated by RetryOnConflict while the
    write reports a conflict and the retry budget lasts. */
module Transition {
  import opened Wrappers
  import opened Objects
  import opened Store
  import opened Models

  /** Injected faults for the Get and the Update of one attempt. */
  datatype AttemptFaults = AttemptFaults(get: Option<ApiError>, update: Option<ApiError>)

  /** Attempt `i`'s faults; attempts past the end of the script see none. */
  function FaultAt(faults: seq<AttemptFaults>, i: nat): AttemptFaults {
    if i < |faults| then faults[i] else AttemptFaults(None, None)
  }

  /** The API server keeps each service under its own name. */
  predicate WellNamed(services: map<string, Service>) {
    forall n :: n in services ==> services[n].meta.name == n
  }

  /** The mutation of the fetched service: it now selects the pods of
      endpoint + version, and its first port is named endpoint and targets
      the container port endpoint + version. Nothing else changes. */
  function Cutover(svc: Service, endpoint: string, version: string): (r: Service)
    requires |svc.ports| > 0
    ensures r.meta == svc.meta
    ensures r.selector == map[AppLabel := endpoint + version]
    ensures |r.ports| == |svc.ports| && r.ports[1..] == svc.ports[1..]
    ensures r.ports[0].name == endpoint && r.ports[0].targetPort == StrVal(endpoint + version)
    ensures r.ports[0].protocol == svc.ports[0].protocol && r.ports[0].port == svc.ports[0].port
  {
    var port := svc.ports[0].(name := endpoint, targetPort := StrVal(endpoint + version));
    svc.(selector := map[AppLabel := endpoint + version], ports := [port] + svc.ports[1..])
  }

  /** One run of the closure handed to RetryOnConflict: its error, and the
      services after it. */
  function Attempt(services: map<string, Service>, endpoint: string, canaryVersion: Option<string>, f: AttemptFaults)
    : (r: Completion<(map<string, Service>, Option<ApiError>)>)
    // no update, and no write, unless the get succeeded
    ensures f.get.Some? ==> r == Normal((services, f.get))
    ensures f.get.None? && endpoint !in services ==> r == Normal((services, Some(NotFoundError(ServiceKind, endpoint))))
    // a failed attempt writes nothing
    ensures r.Normal? && r.value.1.Some? ==> r.value.0 == services
    ensures r.Panic? ==> f.get.None? && endpoint in services
  {
    match Get(services, ServiceKind, endpoint, f.get)
    case Failure(getErr) => Normal((services, Some(getErr)))
    case Success(svc) =>
      if canaryVersion.None? then Panic(NilDereference)
      else if |svc.ports| == 0 then Panic(IndexOutOfRange)
      else
        var svc' := Cutover(svc, endpoint, canaryVersion.value);
        Normal(Update(services, ServiceKind, svc'.meta.name, svc', f.update))
  }

  /** The attempt ended in a conflict, the one error RetryOnConflict retries. */
  predicate Conflicted(r: Completion<(map<string, Service>, Option<ApiError>)>) {
    r.Normal? && r.value.1.Some? && r.value.1.value.reason == Conflict
  }

  /** RetryOnConflict from attempt `i` on, with attempts 0 to `retries`. */
  function Retry(services: map<string, Service>, endpoint: string, canaryVersion: Option<string>,
                 faults: seq<AttemptFaults>, i: nat, retries: nat)
    : (r: Completion<(map<string, Service>, Option<ApiError>)>)
    requires i <= retries
    // a conflict is returned only once the budget is spent: it is the last attempt's
    ensures Conflicted(r) ==> r == Attempt(services, endpoint, canaryVersion, FaultAt(faults, retries))
    // the result is the outcome of one of the attempts i..retries
    ensures exists j :: i <= j <= retries && r == Attempt(services, endpoint, canaryVersion, FaultAt(faults, j))
    decreases retries - i
  {
    var r := Attempt(services, endpoint, canaryVersion, FaultAt(faults, i));
    if Conflicted(r) && i < retries then Retry(services, endpoint, canaryVersion, faults, i + 1, retries) else r
  }

  /** `toDestroy` is passed by the handler but not used. `retries` is the
      number of attempts RetryOnConflict may add after the first. */
  method TransitionService(services: map<string, Service>, model: ModelTransition, toDestroy: string,
                           retries: nat, faults: seq<AttemptFaults>)
    returns (services': map<string, Service>, exit: Completion<Option<ApiError>>)
    ensures var spec := Retry(services, model.endpoint, model.canaryVersion, faults, 0, retries);
      && (spec.Panic? ==> exit == Panic(spec.reason) && services' == services)
      && (spec.Normal? ==> exit == Normal(spec.value.1) && services' == spec.value.0)
  {
    var i := 0;
    while true
      invariant i <= retries
      invariant Retry(services, model.endpoint, model.canaryVersion, faults, 0, retries)
             == Retry(services, model.endpoint, model.canaryVersion, faults, i, retries)
      decreases retries - i
    {
      var f := FaultAt(faults, i);
      var attemptErr: ApiError;
      var got := Get(services, ServiceKind, model.endpoint, f.get);
      if got.Failure? {
        attemptErr := got.error;
      } else {
        var service := got.value;
        if model.canaryVersion.None? {
          return services, Panic(NilDereference);
        }
        service := service.(selector := map[AppLabel := model.endpoint + model.canaryVersion.value]);
        if |service.ports| == 0 {
          return services, Panic(IndexOutOfRange);
        }
        service := service.(ports := service.ports[0 := service.ports[0].(name := model.endpoint)]);
        service := service.(ports := service.ports[0 := service.ports[0].(targetPort := StrVal(model.endpoint + model.canaryVersion.value))]);
        assert service == Cutover(got.value, model.endpoint, model.canaryVersion.value);
        var updated := Update(services, ServiceKind, service.meta.name, service, f.update);
        if updated.1.None? {
          return updated.0, Normal(None);
        }
        attemptErr := updated.1.value;
      }
      if attemptErr.reason != Conflict || i == retries {
        return services, Normal(Some(attemptErr));
      }
      i := i + 1;
    }
  }

  /** A successful transition has rewritten exactly the base service:
      its selector, the name of its first port and that port's target. */
  lemma {:induction false} RetrySuccessCutsOver(services: map<string, Service>, endpoint: string,
      canaryVersion: Option<string>, faults: seq<AttemptFaults>, i: nat, retries: nat, m: map<string, Service>)
    requires WellNamed(services) && i <= retries
    requires Retry(services, endpoint, canaryVersion, faults, i, retries) == Normal((m, None))
    ensures canaryVersion.Some? && endpoint in services && |services[endpoint].ports| > 0
    ensures m == services[endpoint := Cutover(services[endpoint], endpoint, canaryVersion.value)]
    ensures m[endpoint].selector == map[AppLabel := endpoint + canaryVersion.value]
    ensures m[endpoint].ports[0].name == endpoint
    ensures m[endpoint].ports[0].targetPort == StrVal(endpoint + canaryVersion.value)
    decreases retries - i
  {
    var r := Attempt(services, endpoint, canaryVersion, FaultAt(faults, i));
    if Conflicted(r) && i < retries {
      RetrySuccessCutsOver(services, endpoint, canaryVersion, faults, i + 1, retries, m);
    }
  }

  /** A failed transition leaves the services as they were. */
  lemma {:induction false} RetryFailureWritesNothing(services: map<string, Service>, endpoint: string,
      canaryVersion: Option<string>, faults: seq<AttemptFaults>, i: nat, retries: nat)
    requires i <= retries
    requires var r := Retry(services, endpoint, canaryVersion, faults, i, retries); r.Normal? && r.value.1.Some?
    ensures Retry(services, endpoint, canaryVersion, faults, i, retries).value.0 == services
    decreases retries - i
  {
    var r := Attempt(services, endpoint, canaryVersion, FaultAt(faults, i));
    if Conflicted(r) && i < retries {
      RetryFailureWritesNothing(services, endpoint, canaryVersion, faults, i + 1, retries);
    }
  }

  /** An error other than a conflict ends the retry at once. */
  lemma RetryStopsOnOtherError(services: map<string, Service>, endpoint: string,
      canaryVersion: Option<string>, faults: seq<AttemptFaults>, i: nat, retries: nat)
    requires i <= retries
    requires var r := Attempt(services, endpoint, canaryVersion, FaultAt(faults, i));
      r.Normal? && r.value.1.Some? && r.value.1.value.reason != Conflict
    ensures Retry(services, endpoint, canaryVersion, faults, i, retries)
         == Attempt(services, endpoint, canaryVersion, FaultAt(faults, i))
  {
  }

  /** Conflicts on every remaining attempt exhaust the budget: the last
      conflict is returned and nothing is written. */
  lemma {:induction false} RetryExhausted(services: map<string, Service>, endpoint: string,
      canaryVersion: Option<string>, faults: seq<AttemptFaults>, i: nat, retries: nat)
    requires i <= retries
    requires forall j :: i <= j <= retries ==> Conflicted(Attempt(services, endpoint, canaryVersion, FaultAt(faults, j)))
    ensures Retry(services, endpoint, canaryVersion, faults, i, retries)
         == Attempt(services, endpoint, canaryVersion, FaultAt(faults, retries))
    ensures Conflicted(Retry(services, endpoint, canaryVersion, faults, i, retries))
    ensures Retry(services, endpoint, canaryVersion, faults, i, retries).value.0 == services
    decreases retries - i
  {
    if i < retries {
      RetryExhausted(services, endpoint, canaryVersion, faults, i + 1, retries);
    }
  }

  /** One conflict followed by a clean attempt succeeds on the first retry. */
  lemma OneConflictThenSuccess(services: map<string, Service>, endpoint: string,
      canaryVersion: Option<string>, faults: seq<AttemptFaults>, retries: nat)
    requires retries >= 1
    requires Conflicted(Attempt(services, endpoint, canaryVersion, FaultAt(faults, 0)))
    requires var r := Attempt(services, endpoint, canaryVersion, FaultAt(faults, 1)); r.Normal? && r.value.1.None?
    ensures Retry(services, endpoint, canaryVersion, faults, 0, retries)
         == Attempt(services, endpoint, canaryVersion, FaultAt(faults, 1))
  {
  }
}
