/** The request records of helpers.go (ModelDeploy, ModelDestroy,
    ModelTransition), their Parse* methods and the reply records. */
module Models {
  import opened Wrappers
  import opened Naming
  import opened Objects

  const DefaultImage := "000000000000.dkr.ecr.us-east-1.amazonaws.com/name:latest"
  const DefaultStage := "Production"
  const NoQuantities := Quantities(None, None, None)

  /** A well-formed /deploy body after JSON decoding. A string field that
      is absent (or null) is `None`: decoding leaves the field as it was. */
  datatype DeployBody = DeployBody(
    modelNames: seq<string>,
    endpoint: string,
    image: Option<string>,
    canary: bool,
    canaryWeight: Option<string>,
    canaryVersion: Option<string>,
    modelStage: Option<string>,
    limits: Quantities,
    requests: Quantities)

  datatype DestroyBody = DestroyBody(endpoint: string, canary: bool, canaryVersion: Option<string>)

  datatype TransitionBody = TransitionBody(endpoint: string, canaryVersion: Option<string>)

  /** The reply records DeployReturn, DestroyReturn and TransReturn. */
  datatype Reply =
    | DeployReturn(endpoint: string, canary: bool, canaryVersion: string)
    | DestroyReturn(deleted: string, canary: bool, canaryVersion: string)
    | TransReturn(transition: string)

  class ModelDeploy {
    var modelNames: seq<string>
    var endpoint: string
    var image: string
    var canary: bool
    var canaryWeight: Option<string>
    var canaryVersion: Option<string>
    var modelStage: string
    var limits: Quantities
    var requests: Quantities

    /** `new(helpers.ModelDeploy)`: every field at its zero value. */
    constructor ()
      ensures modelNames == [] && endpoint == "" && image == "" && !canary
      ensures canaryWeight.None? && canaryVersion.None? && modelStage == ""
      ensures limits == NoQuantities && requests == NoQuantities
    {
      modelNames, endpoint, image, canary := [], "", "", false;
      canaryWeight, canaryVersion, modelStage := None, None, "";
      limits, requests := NoQuantities, NoQuantities;
    }

    method InitModelDefaults()
      modifies this`image, this`modelStage
      ensures image == DefaultImage && modelStage == DefaultStage
    {
      image := DefaultImage;
      modelStage := DefaultStage;
    }

    /** What `c.BodyParser(model)` stores from a well-formed body. */
    method Decode(body: DeployBody)
      modifies this
      ensures modelNames == body.modelNames && endpoint == body.endpoint && canary == body.canary
      ensures canaryWeight == body.canaryWeight && canaryVersion == body.canaryVersion
      ensures image == (if body.image.Some? then body.image.value else old(image))
      ensures modelStage == (if body.modelStage.Some? then body.modelStage.value else old(modelStage))
      ensures limits == body.limits && requests == body.requests
    {
      modelNames, endpoint, canary := body.modelNames, body.endpoint, body.canary;
      canaryWeight, canaryVersion := body.canaryWeight, body.canaryVersion;
      if body.image.Some? { image := body.image.value; }
      if body.modelStage.Some? { modelStage := body.modelStage.value; }
      limits, requests := body.limits, body.requests;
    }

    /** Forces the GPU request to the GPU limit when both are given, and
        returns the joined model names and the derived endpoint. */
    method ParseModelParams() returns (joinedNames: string, parsedEndpoint: string)
      modifies this`requests
      ensures limits.gpu.Some? && old(requests).gpu.Some? ==> requests == old(requests).(gpu := limits.gpu)
      ensures limits.gpu.None? || old(requests).gpu.None? ==> requests == old(requests)
      ensures requests.memory == old(requests).memory && requests.cpu == old(requests).cpu
      ensures joinedNames == Join(modelNames, ",")
      ensures parsedEndpoint == Normalize(endpoint)
    {
      if limits.gpu.Some? && requests.gpu.Some? {
        if limits.gpu.value != requests.gpu.value {
          requests := requests.(gpu := Some(limits.gpu.value));
        }
      }
      joinedNames := Join(modelNames, ",");
      parsedEndpoint := Normalize(endpoint);
    }

    /** `initResources`: the container's limits and requests, assigned one
        dimension after the other. */
    method InitResources() returns (resources: ResourceRequirements)
      ensures resources == ResourceRequirements(LastDefined(limits), LastDefined(requests))
    {
      resources := ResourceRequirements(None, None);
      if limits.memory.Some? {
        resources := resources.(limits := Some(map[MemoryResource := Quantity(limits.memory.value, Units, BinarySI)]));
      }
      if limits.cpu.Some? {
        resources := resources.(limits := Some(map[CpuResource := Quantity(limits.cpu.value, Milli, DecimalSI)]));
      }
      if limits.gpu.Some? {
        resources := resources.(limits := Some(map[GpuResource := Quantity(limits.gpu.value, Milli, DecimalSI)]));
      }
      if requests.memory.Some? {
        resources := resources.(requests := Some(map[MemoryResource := Quantity(requests.memory.value, Units, BinarySI)]));
      }
      if requests.cpu.Some? {
        resources := resources.(requests := Some(map[CpuResource := Quantity(requests.cpu.value, Milli, DecimalSI)]));
      }
      if requests.gpu.Some? {
        resources := resources.(requests := Some(map[GpuResource := Quantity(requests.gpu.value, Milli, DecimalSI)]));
      }
    }
  }

  class ModelDestroy {
    var endpoint: string
    var canary: bool
    var canaryVersion: Option<string>

    /** `new(helpers.ModelDestroy)` filled by `c.BodyParser`. */
    constructor (body: DestroyBody)
      ensures endpoint == body.endpoint && canary == body.canary && canaryVersion == body.canaryVersion
    {
      endpoint, canary, canaryVersion := body.endpoint, body.canary, body.canaryVersion;
    }

    /** Replaces the name by the derived endpoint, suffixed by the canary
        version for a canary. A canary without a version dereferences nil. */
    method ParseDestroyParams() returns (exit: Completion<()>)
      modifies this`endpoint
      ensures canary && canaryVersion.None? ==> exit == Panic(NilDereference) && endpoint == Normalize(old(endpoint))
      ensures !canary ==> exit == Normal(()) && endpoint == Normalize(old(endpoint))
      ensures canary && canaryVersion.Some? ==> exit == Normal(()) && endpoint == Normalize(old(endpoint)) + canaryVersion.value
    {
      endpoint := Normalize(endpoint);
      if canary {
        if canaryVersion.None? {
          return Panic(NilDereference);
        }
        endpoint := endpoint + canaryVersion.value;
      }
      return Normal(());
    }
  }

  class ModelTransition {
    var endpoint: string
    var canaryVersion: Option<string>

    /** `new(helpers.ModelTransition)` filled by `c.BodyParser`. */
    constructor (body: TransitionBody)
      ensures endpoint == body.endpoint && canaryVersion == body.canaryVersion
    {
      endpoint, canaryVersion := body.endpoint, body.canaryVersion;
    }

    /** Replaces the name by the derived endpoint and returns the name of
        the canary service and route to tear down ("" without a version). */
    method ParseTransitionParams() returns (toDestroy: string)
      modifies this`endpoint
      ensures endpoint == Normalize(old(endpoint))
      ensures toDestroy == if canaryVersion.Some? then Variant(endpoint, canaryVersion.value) else ""
    {
      endpoint := Normalize(endpoint);
      toDestroy := "";
      if canaryVersion.Some? {
        toDestroy := endpoint + canaryVersion.value;
      }
    }
  }

  const InvocationsPrefix := "/invocations/"

  /** The path under which an endpoint serves predictions. */
  function InvocationPath(endpoint: string): string {
    InvocationsPrefix + endpoint
  }

  /** `CreateResponse` (before JSON encoding). */
  function CreateResponse(model: ModelDeploy, endpoint: string): (r: Reply)
    reads model
    ensures r.DeployReturn? && r.endpoint == endpoint && r.canary == model.canary
    // a nil version is reported as ""
    ensures r.canaryVersion == if model.canaryVersion.Some? then model.canaryVersion.value else ""
  {
    DeployReturn(endpoint, model.canary, OrEmpty(model.canaryVersion))
  }

  /** `CreateDestroyResponse` (before JSON encoding). */
  function CreateDestroyResponse(model: ModelDestroy, endpoint: string): (r: Reply)
    reads model
    ensures r.DestroyReturn? && r.canary == model.canary
    // the deleted route is the invocation path of `endpoint`
    ensures r.deleted == InvocationPath(endpoint) && r.deleted[|InvocationsPrefix|..] == endpoint
    ensures r.canaryVersion == if model.canaryVersion.Some? then model.canaryVersion.value else ""
  {
    DestroyReturn(InvocationPath(endpoint), model.canary, OrEmpty(model.canaryVersion))
  }

  /** `CreateTransResponse` (before JSON encoding). */
  function CreateTransResponse(endpoint: string): (r: Reply)
    ensures r.TransReturn? && r.transition == InvocationPath(endpoint)
    ensures r.transition[|InvocationsPrefix|..] == endpoint
  {
    TransReturn(InvocationPath(endpoint))
  }
}
