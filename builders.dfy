/** The desired-state builders of helpers.go: newDeployment, newService,
    createIngressAnnotations, newIngress and newHpa. All objects of a
    bundle are named endpoint + canary_version, except the autoscaler,
    which is named by the bare endpoint. */
module Builders {
  import opened Wrappers
  import opened Naming
  import opened Objects
  import opened Models

  const RewriteTargetAnnotation := "nginx.ingress.kubernetes.io/rewrite-target"
  const CanaryAnnotation := "nginx.ingress.kubernetes.io/canary"
  const CanaryWeightAnnotation := "nginx.ingress.kubernetes.io/canary-weight"
  const RewriteTarget := "/$2"
  const IngressClass := "inference"
  const MinReplicas := 1
  const MaxReplicas := 10
  const CpuUtilization := 50

  /** The name of every object of the bundle, except the autoscaler. */
  function VariantOf(model: ModelDeploy, endpoint: string): string
    reads model
  {
    Variant(endpoint, OrEmpty(model.canaryVersion))
  }

  /** The workload: one container serving on 8080, every name and label
      the bundle name. */
  function NewDeployment(model: ModelDeploy, modelNames: string, endpoint: string): (d: Deployment)
    reads model
    ensures d.meta.name == VariantOf(model, endpoint) && d.meta.namespace == Namespace
    ensures d.meta.labels == d.selector == d.templateLabels == map[AppLabel := d.meta.name]
    ensures |d.containers| == 1
    ensures d.containers[0].name == d.meta.name && d.containers[0].image == model.image
    ensures d.containers[0].pullPolicy == "Always"
    ensures d.containers[0].ports == [ContainerPort(d.meta.name, ServingPort)]
    ensures d.containers[0].resources == ResourceRequirements(LastDefined(model.limits), LastDefined(model.requests))
  {
    var name := VariantOf(model, endpoint);
    Deployment(
      ObjectMeta(name, Namespace, map[AppLabel := name], map[]),
      map[AppLabel := name],
      map[AppLabel := name],
      [Container(
        name,
        model.image,
        "Always",
        [ContainerPort(name, ServingPort)],
        [EnvVar("MODEL_NAMES", modelNames), EnvVar("ENDPOINT", endpoint), EnvVar("MODEL_STAGE", model.modelStage)],
        ResourceRequirements(LastDefined(model.limits), LastDefined(model.requests)))])
  }

  /** The service: selects the bundle's pods and targets the container
      port of the same name. */
  function NewService(model: ModelDeploy, endpoint: string): (s: Service)
    reads model
    ensures s.meta.name == VariantOf(model, endpoint) && s.meta.namespace == Namespace
    ensures s.selector == map[AppLabel := s.meta.name]
    ensures s.ports == [ServicePort(s.meta.name, "TCP", ServingPort, StrVal(s.meta.name))]
  {
    var name := VariantOf(model, endpoint);
    Service(
      ObjectMeta(name, Namespace, map[], map[]),
      map[AppLabel := name],
      [ServicePort(name, "TCP", ServingPort, StrVal(name))])
  }

  /** The route's annotations; a canary without a weight dereferences nil. */
  function CreateIngressAnnotations(model: ModelDeploy): (r: Completion<map<string, string>>)
    reads model
    ensures !model.canary ==> r == Normal(map[RewriteTargetAnnotation := RewriteTarget])
    ensures model.canary ==> (r.Normal? <==> model.canaryWeight.Some?)
    ensures model.canary && r.Normal? ==>
      && r.value.Keys == {RewriteTargetAnnotation, CanaryAnnotation, CanaryWeightAnnotation}
      && r.value[RewriteTargetAnnotation] == RewriteTarget
      && r.value[CanaryAnnotation] == "true"
      && r.value[CanaryWeightAnnotation] == model.canaryWeight.value
    ensures r.Panic? ==> r.reason == NilDereference
  {
    if !model.canary then
      Normal(map[RewriteTargetAnnotation := RewriteTarget])
    else if model.canaryWeight.None? then
      Panic(NilDereference)
    else
      Normal(map[
        RewriteTargetAnnotation := RewriteTarget,
        CanaryAnnotation := "true",
        CanaryWeightAnnotation := model.canaryWeight.value])
  }

  /** The path pattern `/()(invocations/<endpoint>.*)`. */
  function InvocationsPattern(endpoint: string): string {
    "/()(invocations/" + endpoint + ".*)"
  }

  /** The route of `/invocations/<endpoint>` to the bundle's service;
      it panics where the annotations do. */
  function NewIngress(model: ModelDeploy, endpoint: string): (r: Completion<Ingress>)
    reads model
    ensures r.Panic? <==> CreateIngressAnnotations(model).Panic?
    ensures r.Panic? ==> r.reason == NilDereference
    ensures r.Normal? ==>
      && r.value.meta.name == VariantOf(model, endpoint) && r.value.meta.namespace == Namespace
      && r.value.meta.annotations == CreateIngressAnnotations(model).value
      && r.value.ingressClassName == IngressClass
      && r.value.paths == [IngressPath(InvocationsPattern(endpoint), "Prefix", r.value.meta.name, ServingPort)]
  {
    var name := VariantOf(model, endpoint);
    match CreateIngressAnnotations(model)
    case Panic(reason) => Panic(reason)
    case Normal(annotations) =>
      Normal(Ingress(
        ObjectMeta(name, Namespace, map[], annotations),
        IngressClass,
        [IngressPath(InvocationsPattern(endpoint), "Prefix", name, ServingPort)]))
  }

  /** The autoscaler: named by the bare endpoint, scaling the bundle's
      deployment between 1 and 10 replicas at 50% CPU. */
  function NewHpa(model: ModelDeploy, endpoint: string): (h: Hpa)
    reads model
    ensures h.meta.name == endpoint && h.meta.namespace == Namespace
    ensures h.target == ScaleTarget("Deployment", "apps/v1", VariantOf(model, endpoint))
    ensures h.minReplicas == MinReplicas && h.maxReplicas == MaxReplicas
    ensures h.metrics == [MetricSpec("Resource", CpuResource, "Utilization", CpuUtilization)]
  {
    Hpa(
      ObjectMeta(endpoint, Namespace, map[], map[]),
      ScaleTarget("Deployment", "apps/v1", VariantOf(model, endpoint)),
      MinReplicas,
      MaxReplicas,
      [MetricSpec("Resource", CpuResource, "Utilization", CpuUtilization)])
  }

  /** The four objects of a bundle share one name, endpoint + version,
      and one namespace; only the autoscaler is named by the endpoint. */
  lemma BundleNaming(model: ModelDeploy, modelNames: string, endpoint: string)
    ensures var name := endpoint + OrEmpty(model.canaryVersion);
      var d, s, h := NewDeployment(model, modelNames, endpoint), NewService(model, endpoint), NewHpa(model, endpoint);
      && d.meta.name == s.meta.name == h.target.name == name
      && h.meta.name == endpoint
      && (NewIngress(model, endpoint).Normal? ==> NewIngress(model, endpoint).value.meta.name == name)
      && d.meta.namespace == s.meta.namespace == h.meta.namespace == "namespace"
  {
  }

  /** The built objects select, route to and scale each other. */
  lemma BundleIsWired(model: ModelDeploy, modelNames: string, endpoint: string)
    requires NewIngress(model, endpoint).Normal?
    ensures BundleWired(NewDeployment(model, modelNames, endpoint), NewService(model, endpoint),
                        NewIngress(model, endpoint).value, NewHpa(model, endpoint))
  {
  }

  /** The container's environment: the joined model names, the endpoint
      and the model stage. */
  lemma DeploymentEnvironment(model: ModelDeploy, modelNames: string, endpoint: string)
    ensures NewDeployment(model, modelNames, endpoint).containers[0].env
         == [EnvVar("MODEL_NAMES", modelNames), EnvVar("ENDPOINT", endpoint), EnvVar("MODEL_STAGE", model.modelStage)]
  {
  }

  /** A given dimension survives in the container's limits (and,
      separately, its requests) exactly when no later one of memory, cpu,
      nvidia.com/gpu is given. */
  lemma ResourcesKeepLastDimension(model: ModelDeploy, modelNames: string, endpoint: string)
    ensures var res := NewDeployment(model, modelNames, endpoint).containers[0].resources;
      var l, q := model.limits, model.requests;
      && (Kept(res.limits, GpuResource) <==> l.gpu.Some?)
      && (Kept(res.limits, CpuResource) <==> l.cpu.Some? && l.gpu.None?)
      && (Kept(res.limits, MemoryResource) <==> l.memory.Some? && l.cpu.None? && l.gpu.None?)
      && (Kept(res.requests, GpuResource) <==> q.gpu.Some?)
      && (Kept(res.requests, CpuResource) <==> q.cpu.Some? && q.gpu.None?)
      && (Kept(res.requests, MemoryResource) <==> q.memory.Some? && q.cpu.None? && q.gpu.None?)
  {
  }

  /** Once the GPU request equals the GPU limit (ParseModelParams sees to
      that), the container requests exactly what it is limited to. */
  lemma GpuRequestEqualsLimit(model: ModelDeploy, modelNames: string, endpoint: string)
    requires model.limits.gpu.Some? && model.requests.gpu == model.limits.gpu
    ensures var res := NewDeployment(model, modelNames, endpoint).containers[0].resources;
      res.requests == res.limits == Some(map[GpuResource := Quantity(model.limits.gpu.value, Milli, DecimalSI)])
  {
  }

  /** A container port name, and the service's named target port that
      refers to it, is an IANA service name of at most 15 characters: the
      13-rune cut leaves room for a canary version of up to two. */
  lemma PortNamesFit(model: ModelDeploy, modelNames: string, rawName: string)
    requires |OrEmpty(model.canaryVersion)| <= 2
    ensures |NewDeployment(model, modelNames, Normalize(rawName)).containers[0].ports[0].name| <= 15
    ensures |NewService(model, Normalize(rawName)).ports[0].targetPort.s| <= 15
  {
  }
}
