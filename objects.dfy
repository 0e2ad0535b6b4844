/** The parts of the Kubernetes objects that the core sets or reads. A Go
    nil map and an empty map are both the empty `map` here, except for the
    two resource lists, where nil is `None`. */
module Objects {
  import opened Wrappers

  const Namespace := "namespace"
  const ServingPort := 8080
  const AppLabel := "app"

  /** `resource.NewQuantity(v, BinarySI)` is `Quantity(v, Units, BinarySI)`;
      `resource.NewMilliQuantity(v, DecimalSI)` is `Quantity(v, Milli, DecimalSI)`. */
  datatype Scale = Units | Milli
  datatype Format = BinarySI | DecimalSI
  datatype Quantity = Quantity(amount: int, scale: Scale, format: Format)

  type ResourceList = map<string, Quantity>

  const MemoryResource := "memory"
  const CpuResource := "cpu"
  const GpuResource := "nvidia.com/gpu"

  /** The optional integers of the `limits` and `requests` request fields. */
  datatype Quantities = Quantities(memory: Option<int>, cpu: Option<int>, gpu: Option<int>)

  datatype ResourceRequirements = ResourceRequirements(limits: Option<ResourceList>, requests: Option<ResourceList>)

  /** The resource list initResources ends with for one of `limits` or
      `requests`: each of its `if`s replaces the whole list, so the last
      dimension that is set is the only one left. */
  function LastDefined(q: Quantities): (r: Option<ResourceList>)
    ensures r.None? <==> q.memory.None? && q.cpu.None? && q.gpu.None?
    ensures r.Some? ==> |r.value.Keys| == 1
  {
    if q.gpu.Some? then Some(map[GpuResource := Quantity(q.gpu.value, Milli, DecimalSI)])
    else if q.cpu.Some? then Some(map[CpuResource := Quantity(q.cpu.value, Milli, DecimalSI)])
    else if q.memory.Some? then Some(map[MemoryResource := Quantity(q.memory.value, Units, BinarySI)])
    else None
  }

  datatype ObjectMeta = ObjectMeta(
    name: string,
    namespace: string,
    labels: map<string, string>,
    annotations: map<string, string>)

  datatype IntOrString = IntVal(i: int) | StrVal(s: string)

  datatype EnvVar = EnvVar(name: string, value: string)
  datatype ContainerPort = ContainerPort(name: string, containerPort: int)
  datatype Container = Container(
    name: string,
    image: string,
    pullPolicy: string,
    ports: seq<ContainerPort>,
    env: seq<EnvVar>,
    resources: ResourceRequirements)

  datatype Deployment = Deployment(
    meta: ObjectMeta,
    selector: map<string, string>,
    templateLabels: map<string, string>,
    containers: seq<Container>)

  datatype ServicePort = ServicePort(name: string, protocol: string, port: int, targetPort: IntOrString)
  datatype Service = Service(meta: ObjectMeta, selector: map<string, string>, ports: seq<ServicePort>)

  datatype IngressPath = IngressPath(path: string, pathType: string, backendService: string, backendPort: int)
  datatype Ingress = Ingress(meta: ObjectMeta, ingressClassName: string, paths: seq<IngressPath>)

  datatype ScaleTarget = ScaleTarget(kind: string, apiVersion: string, name: string)
  datatype MetricSpec = MetricSpec(sourceType: string, resourceName: string, targetType: string, averageUtilization: int)
  datatype Hpa = Hpa(meta: ObjectMeta, target: ScaleTarget, minReplicas: int, maxReplicas: int, metrics: seq<MetricSpec>)

  /** The resource list is set and holds `key`. */
  predicate Kept(list: Option<ResourceList>, key: string) {
    list.Some? && key in list.value
  }

  /** Every key of `selector` is a label with the same value. */
  predicate Selects(selector: map<string, string>, labels: map<string, string>) {
    forall k :: k in selector ==> k in labels && labels[k] == selector[k]
  }

  /** The wiring the four objects of one bundle must have for traffic to
      reach the pods and for the autoscaler to find its workload. */
  predicate BundleWired(d: Deployment, s: Service, i: Ingress, h: Hpa) {
    && |d.containers| > 0 && |d.containers[0].ports| > 0
    && |s.ports| > 0 && |i.paths| > 0
    // the workload's selector picks its own pod template
    && Selects(d.selector, d.templateLabels)
    // the service sends traffic to those pods, on the named container port
    && Selects(s.selector, d.templateLabels)
    && s.ports[0].targetPort == StrVal(d.containers[0].ports[0].name)
    // the route forwards to the service's port
    && i.paths[0].backendService == s.meta.name
    && i.paths[0].backendPort == s.ports[0].port
    // the autoscaler scales this workload
    && h.target.kind == "Deployment" && h.target.name == d.meta.name
  }
}
