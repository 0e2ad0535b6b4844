/** CrudDeployment, CrudService, CrudIngress, CrudHpa and the four Delete*
    functions of helpers.go, over the abstract store. Each reports exactly
    one outcome: nil, or the text of the error that stopped it. */
module Crud {
  import opened Wrappers
  import opened Naming
  import opened Objects
  import opened Store
  import opened Models
  import opened Builders

  /** Injected faults for the Get and for the Create or Update that follows. */
  datatype CallFaults = CallFaults(get: Option<ApiError>, write: Option<ApiError>)

  const NoFaults := CallFaults(None, None)

  /** The get-then-create-or-update shared by the four Crud* functions:
      get `getName`; a get error ending in "not found" means create, any
      other get error is returned unchanged, and a successful get means
      update. The object written is `obj`, named `name`. */
  function Upsert<T>(m: map<string, T>, k: Kind, getName: string, name: string, obj: T, f: CallFaults)
    : (r: (map<string, T>, Option<string>))
    // a failed upsert writes nothing, a successful one stores exactly `obj`
    ensures r.1.Some? ==> r.0 == m
    ensures r.1.None? ==> r.0 == m[name := obj]
    // a get error other than not-found is reported as it is, with no write
    ensures f.get.Some? && !EndsWith(f.get.value.message, NotFoundSuffix) ==> r == (m, Some(f.get.value.message))
    // get found the object: the update succeeds iff `name` exists
    ensures f.get.None? && getName in m ==> (r.1.None? <==> f.write.None? && name in m)
    // get reported not found: the create succeeds iff `name` is free
    ensures (f.get.None? && getName !in m) || (f.get.Some? && EndsWith(f.get.value.message, NotFoundSuffix))
      ==> (r.1.None? <==> f.write.None? && name !in m)
  {
    match Get(m, k, getName, f.get)
    case Failure(getErr) =>
      if EndsWith(getErr.message, NotFoundSuffix) then
        var (m', err) := Create(m, k, name, obj, f.write);
        (m', Text(err))
      else
        (m, Some(getErr.message))
    case Success(_) =>
      var (m', err) := Update(m, k, name, obj, f.write);
      (m', Text(err))
  }

  function CrudDeployment(c: Cluster, model: ModelDeploy, modelNames: string, endpoint: string, f: CallFaults)
    : (r: (Cluster, Option<string>))
    reads model
    ensures r.0 == c.(deployments := r.0.deployments)
    ensures r.1.None? ==> r.0.deployments == c.deployments[VariantOf(model, endpoint) := NewDeployment(model, modelNames, endpoint)]
    ensures r.1.Some? ==> r.0 == c
    // the get is of the bare endpoint: another get error is returned with no
    // write, a found object means an update of the bundle name, not-found its create
    ensures f.get.Some? && !EndsWith(f.get.value.message, NotFoundSuffix) ==> r == (c, Some(f.get.value.message))
    ensures f.get.None? && endpoint in c.deployments ==> (r.1.None? <==> f.write.None? && VariantOf(model, endpoint) in c.deployments)
    ensures ((f.get.None? && endpoint !in c.deployments) || (f.get.Some? && EndsWith(f.get.value.message, NotFoundSuffix)))
      ==> (r.1.None? <==> f.write.None? && VariantOf(model, endpoint) !in c.deployments)
  {
    var (m, out) := Upsert(c.deployments, DeploymentKind, endpoint, VariantOf(model, endpoint),
                           NewDeployment(model, modelNames, endpoint), f);
    (c.(deployments := m), out)
  }

  function CrudService(c: Cluster, model: ModelDeploy, endpoint: string, f: CallFaults)
    : (r: (Cluster, Option<string>))
    reads model
    ensures r.0 == c.(services := r.0.services)
    ensures r.1.None? ==> r.0.services == c.services[VariantOf(model, endpoint) := NewService(model, endpoint)]
    ensures r.1.Some? ==> r.0 == c
    // the get is of the bare endpoint: another get error is returned with no
    // write, a found object means an update of the bundle name, not-found its create
    ensures f.get.Some? && !EndsWith(f.get.value.message, NotFoundSuffix) ==> r == (c, Some(f.get.value.message))
    ensures f.get.None? && endpoint in c.services ==> (r.1.None? <==> f.write.None? && VariantOf(model, endpoint) in c.services)
    ensures ((f.get.None? && endpoint !in c.services) || (f.get.Some? && EndsWith(f.get.value.message, NotFoundSuffix)))
      ==> (r.1.None? <==> f.write.None? && VariantOf(model, endpoint) !in c.services)
  {
    var (m, out) := Upsert(c.services, ServiceKind, endpoint, VariantOf(model, endpoint), NewService(model, endpoint), f);
    (c.(services := m), out)
  }

  /** Builds the route first: a canary without a weight panics before any
      call to the cluster. */
  function CrudIngress(c: Cluster, model: ModelDeploy, endpoint: string, f: CallFaults)
    : (r: Completion<(Cluster, Option<string>)>)
    reads model
    ensures r.Panic? <==> model.canary && model.canaryWeight.None?
    ensures r.Normal? ==> r.value.0 == c.(ingresses := r.value.0.ingresses)
    ensures r.Normal? && r.value.1.None? ==>
      r.value.0.ingresses == c.ingresses[VariantOf(model, endpoint) := NewIngress(model, endpoint).value]
    ensures r.Normal? && r.value.1.Some? ==> r.value.0 == c
    // the get is of the bare endpoint: another get error is returned with no
    // write, a found object means an update of the bundle name, not-found its create
    ensures r.Normal? && f.get.Some? && !EndsWith(f.get.value.message, NotFoundSuffix) ==> r.value == (c, Some(f.get.value.message))
    ensures r.Normal? && f.get.None? && endpoint in c.ingresses ==> (r.value.1.None? <==> f.write.None? && VariantOf(model, endpoint) in c.ingresses)
    ensures r.Normal? && ((f.get.None? && endpoint !in c.ingresses) || (f.get.Some? && EndsWith(f.get.value.message, NotFoundSuffix)))
      ==> (r.value.1.None? <==> f.write.None? && VariantOf(model, endpoint) !in c.ingresses)
  {
    match NewIngress(model, endpoint)
    case Panic(reason) => Panic(reason)
    case Normal(ingress) =>
      var (m, out) := Upsert(c.ingresses, IngressKind, endpoint, VariantOf(model, endpoint), ingress, f);
      Normal((c.(ingresses := m), out))
  }

  /** The autoscaler is looked up and written under the bare endpoint. */
  function CrudHpa(c: Cluster, model: ModelDeploy, endpoint: string, f: CallFaults)
    : (r: (Cluster, Option<string>))
    reads model
    ensures r.0 == c.(hpas := r.0.hpas)
    ensures r.1.None? ==> r.0.hpas == c.hpas[endpoint := NewHpa(model, endpoint)]
    ensures r.1.Some? ==> r.0 == c
    // get and write are both of the bare endpoint
    ensures f.get.Some? && !EndsWith(f.get.value.message, NotFoundSuffix) ==> r == (c, Some(f.get.value.message))
    ensures f.get.None? && endpoint in c.hpas ==> (r.1.None? <==> f.write.None? && endpoint in c.hpas)
    ensures ((f.get.None? && endpoint !in c.hpas) || (f.get.Some? && EndsWith(f.get.value.message, NotFoundSuffix)))
      ==> (r.1.None? <==> f.write.None? && endpoint !in c.hpas)
  {
    var (m, out) := Upsert(c.hpas, HpaKind, endpoint, endpoint, NewHpa(model, endpoint), f);
    (c.(hpas := m), out)
  }

  function DeleteDeployment(c: Cluster, name: string, fault: Option<ApiError>): (r: (Cluster, Option<string>))
    ensures r.1.None? <==> fault.None? && name in c.deployments
    ensures r.0 == c.(deployments := if r.1.None? then c.deployments - {name} else c.deployments)
  {
    var (m, err) := Delete(c.deployments, DeploymentKind, name, fault);
    (c.(deployments := m), Text(err))
  }

  function DeleteService(c: Cluster, name: string, fault: Option<ApiError>): (r: (Cluster, Option<string>))
    ensures r.1.None? <==> fault.None? && name in c.services
    ensures r.0 == c.(services := if r.1.None? then c.services - {name} else c.services)
  {
    var (m, err) := Delete(c.services, ServiceKind, name, fault);
    (c.(services := m), Text(err))
  }

  function DeleteIngress(c: Cluster, name: string, fault: Option<ApiError>): (r: (Cluster, Option<string>))
    ensures r.1.None? <==> fault.None? && name in c.ingresses
    ensures r.0 == c.(ingresses := if r.1.None? then c.ingresses - {name} else c.ingresses)
  {
    var (m, err) := Delete(c.ingresses, IngressKind, name, fault);
    (c.(ingresses := m), Text(err))
  }

  function DeleteHpa(c: Cluster, name: string, fault: Option<ApiError>): (r: (Cluster, Option<string>))
    ensures r.1.None? <==> fault.None? && name in c.hpas
    ensures r.0 == c.(hpas := if r.1.None? then c.hpas - {name} else c.hpas)
  {
    var (m, err) := Delete(c.hpas, HpaKind, name, fault);
    (c.(hpas := m), Text(err))
  }

  /** Where the object is looked up and written under the same name (no
      canary version, and always for the autoscaler), a second fault-free
      upsert of the same object changes nothing and succeeds. */
  lemma UpsertIdempotent<T>(m: map<string, T>, k: Kind, name: string, obj: T)
    requires Upsert(m, k, name, name, obj, NoFaults).1.None?
    ensures var m1 := Upsert(m, k, name, name, obj, NoFaults).0;
      Upsert(m1, k, name, name, obj, NoFaults) == (m1, None)
  {
    var m1 := Upsert(m, k, name, name, obj, NoFaults).0;
    assert m1[name := obj] == m1;
  }

  /** A canary (written as endpoint + version, looked up as endpoint) with
      no production object: the first deploy creates it, the second finds
      nothing under the bare endpoint, creates again and fails. */
  lemma CanaryRedeployFails<T>(m: map<string, T>, k: Kind, endpoint: string, version: string, obj: T)
    requires version != "" && endpoint !in m && endpoint + version !in m
    ensures var m1 := Upsert(m, k, endpoint, endpoint + version, obj, NoFaults).0;
      && Upsert(m, k, endpoint, endpoint + version, obj, NoFaults).1.None?
      && m1 == m[endpoint + version := obj]
      && Upsert(m1, k, endpoint, endpoint + version, obj, NoFaults)
         == (m1, Some(AlreadyExistsError(k, endpoint + version).message))
  {
    assert endpoint != endpoint + version by {
      assert |endpoint + version| > |endpoint|;
    }
  }

  /** A first canary deploy next to an existing production object: the get
      finds production, the update of endpoint + version fails not-found,
      and nothing is written. */
  lemma CanaryBesideProductionFails<T>(m: map<string, T>, k: Kind, endpoint: string, version: string, obj: T)
    requires endpoint in m && endpoint + version !in m
    ensures Upsert(m, k, endpoint, endpoint + version, obj, NoFaults)
         == (m, Some(NotFoundError(k, endpoint + version).message))
  {
  }

  /** A canary redeployed while both the production object and the canary
      exist: the get finds production, the update of endpoint + version
      succeeds, and the repeated deploy changes nothing. */
  lemma CanaryUpdateIdempotent<T>(m: map<string, T>, k: Kind, endpoint: string, version: string, obj: T)
    requires endpoint in m && endpoint + version in m
    ensures var m1 := Upsert(m, k, endpoint, endpoint + version, obj, NoFaults).0;
      && Upsert(m, k, endpoint, endpoint + version, obj, NoFaults) == (m1, None)
      && m1 == m[endpoint + version := obj]
      && Upsert(m1, k, endpoint, endpoint + version, obj, NoFaults) == (m1, None)
  {
    var m1 := m[endpoint + version := obj];
    assert m1[endpoint + version := obj] == m1;
  }

  /** The canary cases of the deployment upsert itself (the other three
      Crud* functions decide the same way, by the same ensures): with no
      production deployment a repeated canary deploy fails with
      AlreadyExists, and a first canary beside production fails NotFound. */
  lemma DeploymentCanaryRedeployFails(c: Cluster, model: ModelDeploy, modelNames: string, endpoint: string)
    requires model.canaryVersion.Some? && model.canaryVersion.value != ""
    requires endpoint !in c.deployments && VariantOf(model, endpoint) !in c.deployments
    ensures var c1 := CrudDeployment(c, model, modelNames, endpoint, NoFaults).0;
      && CrudDeployment(c, model, modelNames, endpoint, NoFaults).1.None?
      && CrudDeployment(c1, model, modelNames, endpoint, NoFaults)
         == (c1, Some(AlreadyExistsError(DeploymentKind, VariantOf(model, endpoint)).message))
  {
    CanaryRedeployFails(c.deployments, DeploymentKind, endpoint, model.canaryVersion.value,
                        NewDeployment(model, modelNames, endpoint));
  }

  lemma DeploymentCanaryBesideProductionFails(c: Cluster, model: ModelDeploy, modelNames: string, endpoint: string)
    requires endpoint in c.deployments && VariantOf(model, endpoint) !in c.deployments
    ensures CrudDeployment(c, model, modelNames, endpoint, NoFaults)
         == (c, Some(NotFoundError(DeploymentKind, VariantOf(model, endpoint)).message))
  {
    CanaryBesideProductionFails(c.deployments, DeploymentKind, endpoint, OrEmpty(model.canaryVersion),
                                NewDeployment(model, modelNames, endpoint));
  }
}
