/** The /deploy, /destroy and /transition handlers of main.go, as
    sequential pipelines over the cluster. Each fan-out of goroutines into
    a buffered channel is modelled by a schedule: the order in which their
    outcomes reach the channel. */
module Server {
  import opened Wrappers
  import opened Naming
  import opened Objects
  import opened Store
  import opened Models
  import opened Crud
  import opened Transition
  import opened ErrorJoin

  const BadRequest := 400
  const WrongJsonFormat := "Wrong json format"

  /** How a handler ends: a reply body is sent, a fiber error is returned,
      or a panic brings the server down. */
  datatype Response = Sent(reply: Reply) | Rejected(status: int, message: string) | Crashed(reason: string)

  /** Injected faults for the four get-then-write calls of /deploy. */
  datatype DeployFaults = DeployFaults(deployment: CallFaults, service: CallFaults, ingress: CallFaults, hpa: CallFaults)

  /** Injected faults for the four deletes of a teardown. */
  datatype DeleteFaults = DeleteFaults(deployment: Option<ApiError>, service: Option<ApiError>,
                                       ingress: Option<ApiError>, hpa: Option<ApiError>)

  /** The name each delete of a teardown uses, by kind. */
  datatype Targets = Targets(deployment: string, service: string, ingress: string, hpa: string)

  /** The cutover's per-attempt faults, the number of retries the backoff
      allows after the first attempt, and the teardown's faults. */
  datatype TransitionFaults = TransitionFaults(attempts: seq<AttemptFaults>, retries: nat, deletes: DeleteFaults)

  /** `order` lists the `n` goroutines of a fan-out, by launch position,
      in the order their outcomes are received: each exactly once. */
  predicate IsSchedule(order: seq<nat>, n: nat) {
    && |order| == n
    && (forall j :: 0 <= j < n ==> order[j] < n)
    && (forall j, k :: 0 <= j < k < n ==> order[j] != order[k])
    && (forall x :: 0 <= x < n ==> x in order)
  }

  /** The channel holds the outcomes `outs` (by launch position) in the
      order of `order`. */
  predicate Received(channel: seq<Option<string>>, outs: seq<Option<string>>, order: seq<nat>) {
    |channel| == |order| && forall j :: 0 <= j < |order| ==> order[j] < |outs| && channel[j] == outs[order[j]]
  }

  /** The channel's content when the outcomes `outs` arrive in the order
      of `order`. */
  function Receive(outs: seq<Option<string>>, order: seq<nat>): (channel: seq<Option<string>>)
    requires forall j :: 0 <= j < |order| ==> order[j] < |outs|
    ensures Received(channel, outs, order)
  {
    seq(|order|, j requires 0 <= j < |order| => outs[order[j]])
  }

  /** The position at which `x` is received. */
  function IndexOf(order: seq<nat>, x: nat): (p: nat)
    ensures x in order ==> p < |order| && order[p] == x
  {
    if order == [] || order[0] == x then 0 else 1 + IndexOf(order[1..], x)
  }

  /** Whether the join reports a failure does not depend on the schedule. */
  lemma ScheduleKeepsVerdict(channel: seq<Option<string>>, outs: seq<Option<string>>, order: seq<nat>)
    requires IsSchedule(order, |outs|) && Received(channel, outs, order)
    ensures AnyError(channel) <==> AnyError(outs)
  {
    if AnyError(outs) {
      var x :| 0 <= x < |outs| && outs[x].Some?;
      assert x in order;
      var j :| 0 <= j < |order| && order[j] == x;
      assert channel[j].Some?;
    }
  }

  // ----- /deploy -----

  /** The request record after InitModelDefaults, BodyParser and
      ParseModelParams: defaults kept where the body is silent, the GPU
      request forced to the GPU limit when both are given. */
  predicate ParsedDeploy(model: ModelDeploy, b: DeployBody)
    reads model
  {
    && model.modelNames == b.modelNames && model.endpoint == b.endpoint && model.canary == b.canary
    && model.canaryWeight == b.canaryWeight && model.canaryVersion == b.canaryVersion
    && model.image == (if b.image.Some? then b.image.value else DefaultImage)
    && model.modelStage == (if b.modelStage.Some? then b.modelStage.value else DefaultStage)
    && model.limits == b.limits
    && model.requests == (if b.limits.gpu.Some? && b.requests.gpu.Some? then b.requests.(gpu := b.limits.gpu) else b.requests)
  }

  /** The ingress builder dereferences a nil canary weight. */
  predicate IngressPanics(model: ModelDeploy)
    reads model
  {
    model.canary && model.canaryWeight.None?
  }

  /** The outcomes of the three upserts of /deploy, by launch position:
      deployment, service, ingress. */
  function UpsertOutcomes(c: Cluster, model: ModelDeploy, names: string, endpoint: string, f: DeployFaults)
    : seq<Option<string>>
    reads model
    requires !IngressPanics(model)
  {
    [CrudDeployment(c, model, names, endpoint, f.deployment).1,
     CrudService(c, model, endpoint, f.service).1,
     CrudIngress(c, model, endpoint, f.ingress).value.1]
  }

  /** The cluster after the three upserts: each writes its own kind only. */
  function AfterUpserts(c: Cluster, model: ModelDeploy, names: string, endpoint: string, f: DeployFaults): Cluster
    reads model
    requires !IngressPanics(model)
  {
    c.(deployments := CrudDeployment(c, model, names, endpoint, f.deployment).0.deployments,
       services := CrudService(c, model, endpoint, f.service).0.services,
       ingresses := CrudIngress(c, model, endpoint, f.ingress).value.0.ingresses)
  }

  /** The part of /deploy after parsing: the three upsert goroutines,
      the join, and the autoscaler only when the join is clean. */
  method DeployParsed(cluster: Cluster, model: ModelDeploy, names: string, endpoint: string,
                      faults: DeployFaults, order: seq<nat>)
    returns (cluster': Cluster, response: Response, channel: seq<Option<string>>)
    requires IsSchedule(order, 3)
    ensures IngressPanics(model) ==>
      response == Crashed(NilDereference) && cluster'.ingresses == cluster.ingresses && cluster'.hpas == cluster.hpas
    ensures !IngressPanics(model) ==>
      var fanned := AfterUpserts(cluster, model, names, endpoint, faults);
      && Received(channel, UpsertOutcomes(cluster, model, names, endpoint, faults), order)
      && (AnyError(channel) ==> cluster' == fanned && response == Rejected(BadRequest, ErrorText(channel)))
      && (!AnyError(channel) ==>
            var hpa := CrudHpa(fanned, model, endpoint, faults.hpa);
            && cluster' == hpa.0
            && response == if hpa.1.Some? then Rejected(BadRequest, hpa.1.value) else Sent(CreateResponse(model, endpoint)))
  {
    // the three goroutines, each on its own kind of object
    var dep := CrudDeployment(cluster, model, names, endpoint, faults.deployment);
    var svc := CrudService(cluster, model, endpoint, faults.service);
    var ing := CrudIngress(cluster, model, endpoint, faults.ingress);
    if ing.Panic? {
      // the process ends: only the upserts received before it have written
      cluster' := cluster.(deployments := if IndexOf(order, 0) < IndexOf(order, 2) then dep.0.deployments else cluster.deployments,
                           services := if IndexOf(order, 1) < IndexOf(order, 2) then svc.0.services else cluster.services);
      return cluster', Crashed(ing.reason), [];
    }
    var c := cluster.(deployments := dep.0.deployments, services := svc.0.services, ingresses := ing.value.0.ingresses);
    channel := Receive([dep.1, svc.1, ing.value.1], order);
    var errValue, errCheck := CheckErrors(channel);
    if errCheck {
      return c, Rejected(BadRequest, errValue), channel;
    }
    var hpa := CrudHpa(c, model, endpoint, faults.hpa);
    if hpa.1.Some? {
      return hpa.0, Rejected(BadRequest, hpa.1.value), channel;
    }
    return hpa.0, Sent(CreateResponse(model, endpoint)), channel;
  }

  /** The /deploy handler. `body` is None when BodyParser rejects it. */
  method HandleDeploy(cluster: Cluster, body: Option<DeployBody>, faults: DeployFaults, order: seq<nat>)
    returns (cluster': Cluster, response: Response, ghost model: ModelDeploy, ghost channel: seq<Option<string>>)
    requires IsSchedule(order, 3)
    ensures body.None? ==> cluster' == cluster && response == Rejected(BadRequest, WrongJsonFormat)
    ensures body.Some? ==> ParsedDeploy(model, body.value)
    ensures body.Some? && IngressPanics(model) ==>
      response == Crashed(NilDereference) && cluster'.ingresses == cluster.ingresses && cluster'.hpas == cluster.hpas
    ensures body.Some? && !IngressPanics(model) ==>
      var names, endpoint := Join(body.value.modelNames, ","), Normalize(body.value.endpoint);
      var fanned := AfterUpserts(cluster, model, names, endpoint, faults);
      && Received(channel, UpsertOutcomes(cluster, model, names, endpoint, faults), order)
      && (AnyError(channel) ==> cluster' == fanned && response == Rejected(BadRequest, ErrorText(channel)))
      && (!AnyError(channel) ==>
            var hpa := CrudHpa(fanned, model, endpoint, faults.hpa);
            && cluster' == hpa.0
            && response == if hpa.1.Some? then Rejected(BadRequest, hpa.1.value) else Sent(CreateResponse(model, endpoint)))
  {
    var m := new ModelDeploy();
    m.InitModelDefaults();
    model := m;
    if body.None? {
      return cluster, Rejected(BadRequest, WrongJsonFormat), model, [];
    }
    m.Decode(body.value);
    var modelNames, endpoint := m.ParseModelParams();
    cluster', response, channel := DeployParsed(cluster, m, modelNames, endpoint, faults, order);
  }

  // ----- teardowns -----

  /** The outcomes of the four deletes, by launch position: deployment,
      service, ingress, autoscaler. */
  function DeleteOutcomes(c: Cluster, t: Targets, f: DeleteFaults): seq<Option<string>> {
    [DeleteDeployment(c, t.deployment, f.deployment).1, DeleteService(c, t.service, f.service).1,
     DeleteIngress(c, t.ingress, f.ingress).1, DeleteHpa(c, t.hpa, f.hpa).1]
  }

  /** The cluster after the four deletes: each removes from its own kind only. */
  function AfterDeletes(c: Cluster, t: Targets, f: DeleteFaults): Cluster {
    Cluster(DeleteDeployment(c, t.deployment, f.deployment).0.deployments, DeleteService(c, t.service, f.service).0.services,
            DeleteIngress(c, t.ingress, f.ingress).0.ingresses, DeleteHpa(c, t.hpa, f.hpa).0.hpas)
  }

  /** A teardown removes each target that exists and whose delete is not
      faulted, reports an error for each other one, and touches nothing else. */
  lemma TeardownRemovesTargets(c: Cluster, t: Targets, f: DeleteFaults)
    ensures var outs, c' := DeleteOutcomes(c, t, f), AfterDeletes(c, t, f);
      && |outs| == 4
      && (outs[0].None? <==> f.deployment.None? && t.deployment in c.deployments)
      && (outs[1].None? <==> f.service.None? && t.service in c.services)
      && (outs[2].None? <==> f.ingress.None? && t.ingress in c.ingresses)
      && (outs[3].None? <==> f.hpa.None? && t.hpa in c.hpas)
      && c'.deployments == (if outs[0].None? then c.deployments - {t.deployment} else c.deployments)
      && c'.services == (if outs[1].None? then c.services - {t.service} else c.services)
      && c'.ingresses == (if outs[2].None? then c.ingresses - {t.ingress} else c.ingresses)
      && c'.hpas == (if outs[3].None? then c.hpas - {t.hpa} else c.hpas)
  {
  }

  // ----- /destroy -----

  /** The /destroy handler. `body` is None when BodyParser rejects it. */
  method HandleDestroy(cluster: Cluster, body: Option<DestroyBody>, faults: DeleteFaults, order: seq<nat>)
    returns (cluster': Cluster, response: Response, ghost channel: seq<Option<string>>)
    requires IsSchedule(order, 4)
    ensures body.None? ==> cluster' == cluster && response == Rejected(BadRequest, WrongJsonFormat)
    ensures body.Some? && body.value.canary && body.value.canaryVersion.None? ==>
      cluster' == cluster && response == Crashed(NilDereference)
    ensures body.Some? && !(body.value.canary && body.value.canaryVersion.None?) ==>
      var b := body.value;
      var name := if b.canary then Variant(Normalize(b.endpoint), b.canaryVersion.value) else Normalize(b.endpoint);
      var t := Targets(name, name, name, name);
      && Received(channel, DeleteOutcomes(cluster, t, faults), order)
      && cluster' == AfterDeletes(cluster, t, faults)
      && response == if AnyError(channel) then Rejected(BadRequest, ErrorText(channel))
                     else Sent(DestroyReturn("/invocations/" + name, b.canary, OrEmpty(b.canaryVersion)))
  {
    if body.None? {
      return cluster, Rejected(BadRequest, WrongJsonFormat), [];
    }
    var model := new ModelDestroy(body.value);
    var exit := model.ParseDestroyParams();
    if exit.Panic? {
      return cluster, Crashed(exit.reason), [];
    }
    var name := model.endpoint;
    var dep := DeleteDeployment(cluster, name, faults.deployment);
    var svc := DeleteService(cluster, name, faults.service);
    var ing := DeleteIngress(cluster, name, faults.ingress);
    var hpa := DeleteHpa(cluster, name, faults.hpa);
    var c := Cluster(dep.0.deployments, svc.0.services, ing.0.ingresses, hpa.0.hpas);
    var received := Receive([dep.1, svc.1, ing.1, hpa.1], order);
    channel := received;
    var errValue, errCheck := CheckErrors(received);
    if errCheck {
      return c, Rejected(BadRequest, errValue), channel;
    }
    return c, Sent(CreateDestroyResponse(model, name)), channel;
  }

  // ----- /transition -----

  /** The /transition handler. `body` is None when BodyParser rejects it.
      The teardown deletes the old deployment and autoscaler under the base
      endpoint and the canary's service and ingress under `toDestroy`. */
  method HandleTransition(cluster: Cluster, body: Option<TransitionBody>, faults: TransitionFaults, order: seq<nat>)
    returns (cluster': Cluster, response: Response, ghost channel: seq<Option<string>>)
    requires IsSchedule(order, 4)
    ensures body.None? ==> cluster' == cluster && response == Rejected(BadRequest, WrongJsonFormat)
    ensures body.Some? ==>
      var b := body.value;
      var endpoint := Normalize(b.endpoint);
      var toDestroy := if b.canaryVersion.Some? then Variant(endpoint, b.canaryVersion.value) else "";
      var cutover := Retry(cluster.services, endpoint, b.canaryVersion, faults.attempts, 0, faults.retries);
      && (cutover.Panic? ==> cluster' == cluster && response == Crashed(cutover.reason))
      && (cutover.Normal? && cutover.value.1.Some? ==>
            cluster' == cluster && response == Rejected(BadRequest, cutover.value.1.value.message))
      && (cutover.Normal? && cutover.value.1.None? ==>
            var t := Targets(endpoint, toDestroy, toDestroy, endpoint);
            var switched := cluster.(services := cutover.value.0);
            && Received(channel, DeleteOutcomes(switched, t, faults.deletes), order)
            && cluster' == AfterDeletes(switched, t, faults.deletes)
            && response == if AnyError(channel) then Rejected(BadRequest, ErrorText(channel))
                           else Sent(TransReturn("/invocations/" + endpoint)))
  {
    if body.None? {
      return cluster, Rejected(BadRequest, WrongJsonFormat), [];
    }
    var model := new ModelTransition(body.value);
    var toDestroy := model.ParseTransitionParams();
    var services, exit := TransitionService(cluster.services, model, toDestroy, faults.retries, faults.attempts);
    if exit.Panic? {
      return cluster, Crashed(exit.reason), [];
    }
    if exit.value.Some? {
      return cluster, Rejected(BadRequest, exit.value.value.message), [];
    }
    var switched := cluster.(services := services);
    var dep := DeleteDeployment(switched, model.endpoint, faults.deletes.deployment);
    var svc := DeleteService(switched, toDestroy, faults.deletes.service);
    var ing := DeleteIngress(switched, toDestroy, faults.deletes.ingress);
    var hpa := DeleteHpa(switched, model.endpoint, faults.deletes.hpa);
    var c := Cluster(dep.0.deployments, svc.0.services, ing.0.ingresses, hpa.0.hpas);
    var received := Receive([dep.1, svc.1, ing.1, hpa.1], order);
    channel := received;
    var errValue, errCheck := CheckErrors(received);
    if errCheck {
      return c, Rejected(BadRequest, errValue), channel;
    }
    return c, Sent(CreateTransResponse(model.endpoint)), channel;
  }

  /** With a non-empty version the teardown removes only the canary's
      service: the base service survives, cut over to the canary's pods. */
  lemma TeardownKeepsSwitchedService(cluster: Cluster, endpoint: string, version: string,
                                     faults: TransitionFaults, m: map<string, Service>)
    requires version != "" && WellNamed(cluster.services)
    requires Retry(cluster.services, endpoint, Some(version), faults.attempts, 0, faults.retries) == Normal((m, None))
    ensures var toDestroy := Variant(endpoint, version);
      var after := AfterDeletes(cluster.(services := m), Targets(endpoint, toDestroy, toDestroy, endpoint), faults.deletes);
      && endpoint in after.services
      && after.services[endpoint].selector == map[AppLabel := endpoint + version]
      && |after.services[endpoint].ports| > 0
      && after.services[endpoint].ports[0].name == endpoint
      && after.services[endpoint].ports[0].targetPort == StrVal(endpoint + version)
  {
    RetrySuccessCutsOver(cluster.services, endpoint, Some(version), faults.attempts, 0, faults.retries, m);
    assert endpoint != Variant(endpoint, version) by {
      assert |Variant(endpoint, version)| > |endpoint|;
    }
  }

  /** With an empty version `toDestroy` is the base endpoint itself: a
      clean teardown deletes the service that was just cut over. */
  lemma EmptyVersionDeletesBaseService(cluster: Cluster, endpoint: string, faults: TransitionFaults, m: map<string, Service>)
    requires WellNamed(cluster.services) && faults.deletes.service.None?
    requires Retry(cluster.services, endpoint, Some(""), faults.attempts, 0, faults.retries) == Normal((m, None))
    ensures var toDestroy := Variant(endpoint, "");
      toDestroy == endpoint && endpoint !in AfterDeletes(cluster.(services := m), Targets(endpoint, toDestroy, toDestroy, endpoint), faults.deletes).services
  {
    RetrySuccessCutsOver(cluster.services, endpoint, Some(""), faults.attempts, 0, faults.retries, m);
    assert Variant(endpoint, "") == endpoint;
  }
}
