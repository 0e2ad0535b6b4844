/** An abstract stand-in for the four Kubernetes clients of the namespace:
    one map from name to object per resource kind. Each call can be given
    an injected fault (a network error, a conflict, a forbidden write …)
    that it returns instead of touching the store; without one, the store
    answers as the API server does for a missing or an existing name. */
module Store {
  import opened Wrappers
  import opened Objects

  datatype Kind = DeploymentKind | ServiceKind | IngressKind | HpaKind

  /** The resource name the API server puts in its error messages. */
  function Resource(k: Kind): string {
    match k
    case DeploymentKind => "deployments.apps"
    case ServiceKind => "services"
    case IngressKind => "ingresses.networking.k8s.io"
    case HpaKind => "horizontalpodautoscalers.autoscaling"
  }

  datatype Reason = NotFound | AlreadyExists | Conflict | OtherReason

  /** A status error: its reason and its `Error()` text. */
  datatype ApiError = ApiError(reason: Reason, message: string)

  const NotFoundSuffix := "not found"

  /** `strings.HasSuffix`. */
  predicate EndsWith(s: string, suffix: string) {
    |suffix| <= |s| && s[|s| - |suffix|..] == suffix
  }

  function NotFoundError(k: Kind, name: string): (e: ApiError)
    ensures EndsWith(e.message, NotFoundSuffix)
  {
    ApiError(NotFound, Resource(k) + " \"" + name + "\" " + NotFoundSuffix)
  }

  function AlreadyExistsError(k: Kind, name: string): (e: ApiError)
    ensures !EndsWith(e.message, NotFoundSuffix)
  {
    var head, tail := Resource(k) + " \"" + name, "\" already exists";
    assert (head + tail)[|head + tail| - 9..] == tail[|tail| - 9..];
    ApiError(AlreadyExists, head + tail)
  }

  datatype Cluster = Cluster(
    deployments: map<string, Deployment>,
    services: map<string, Service>,
    ingresses: map<string, Ingress>,
    hpas: map<string, Hpa>)

  /** `Get(ctx, name, GetOptions{})`. */
  function Get<T>(m: map<string, T>, k: Kind, name: string, fault: Option<ApiError>): (r: Result<T, ApiError>)
    ensures r.Success? <==> fault.None? && name in m
    ensures r.Success? ==> r.value == m[name]
    // the injected fault, or else the not-found error of a missing name
    ensures r.Failure? ==> r.error == if fault.Some? then fault.value else NotFoundError(k, name)
  {
    if fault.Some? then Failure(fault.value)
    else if name in m then Success(m[name])
    else Failure(NotFoundError(k, name))
  }

  /** `Create(ctx, obj, CreateOptions{})` for an object named `name`. */
  function Create<T>(m: map<string, T>, k: Kind, name: string, obj: T, fault: Option<ApiError>): (r: (map<string, T>, Option<ApiError>))
    ensures r.1.None? <==> fault.None? && name !in m
    ensures r.0 == if r.1.None? then m[name := obj] else m
  {
    if fault.Some? then (m, fault)
    else if name in m then (m, Some(AlreadyExistsError(k, name)))
    else (m[name := obj], None)
  }

  /** `Update(ctx, obj, UpdateOptions{})` for an object named `name`. */
  function Update<T>(m: map<string, T>, k: Kind, name: string, obj: T, fault: Option<ApiError>): (r: (map<string, T>, Option<ApiError>))
    ensures r.1.None? <==> fault.None? && name in m
    ensures r.0 == if r.1.None? then m[name := obj] else m
  {
    if fault.Some? then (m, fault)
    else if name !in m then (m, Some(NotFoundError(k, name)))
    else (m[name := obj], None)
  }

  /** `Delete(ctx, name, DeleteOptions{PropagationPolicy: Foreground})`; the
      dependants the foreground policy removes first are not modelled. */
  function Delete<T>(m: map<string, T>, k: Kind, name: string, fault: Option<ApiError>): (r: (map<string, T>, Option<ApiError>))
    ensures r.1.None? <==> fault.None? && name in m
    ensures r.0 == if r.1.None? then m - {name} else m
  {
    if fault.Some? then (m, fault)
    else if name !in m then (m, Some(NotFoundError(k, name)))
    else (m - {name}, None)
  }

  /** `err.Error()` of a Go error, nil staying nil. */
  function Text(e: Option<ApiError>): (t: Option<string>)
    ensures t.None? <==> e.None?
  {
    match e
    case None => None
    case Some(err) => Some(err.message)
  }
}
