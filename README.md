# go-k8-ml-deploy in Dafny

This project models the request core of go-k8-ml-deploy. That is an HTTP server that deploys machine-learning inference endpoints onto Kubernetes. It has three handlers:

- `/deploy` derives an endpoint name from the request. Then it creates or updates a Deployment, a Service and an Ingress, all named `endpoint + canary_version`. Last comes a HorizontalPodAutoscaler named by the bare endpoint.
- `/destroy` deletes the four objects of a bundle.
- `/transition` cuts the production service over to a canary's pods, then tears the old objects down.

Modules, one per file:

- `Wrappers`: `Option` (a Go nil pointer or nil error), `Result`, and `Completion`. A `Completion` records a Go call that returned or panicked.
- `Naming`: the endpoint derivation shared by the three `Parse*Params` methods. It lower-cases ASCII, strips everything outside `[a-z0-9]`, and cuts to 13 runes when the result has 14 or more. It also holds `strings.Join`.
- `Objects`: the Kubernetes objects the builders produce, the resource quantities, and `LastDefined`. `LastDefined` is the quirk of `initResources`: only the last given dimension survives.
- `Store`: the Kubernetes API as maps from name to object, with injectable faults. Get of a missing name fails with `<resource> "<name>" not found`. Create of an existing name fails with AlreadyExists. Update and Delete of a missing name fail with NotFound.
- `Models`: the request records `ModelDeploy`, `ModelDestroy` and `ModelTransition` as classes, with their `Parse*` methods, `InitModelDefaults` and `initResources`, plus the reply records.
- `Builders`: `newDeployment`, `newService`, `createIngressAnnotations`, `newIngress` and `newHpa`.
- `Crud`: the get-then-create-or-update decision of the four `Crud*` functions, and the four `Delete*` functions.
- `ErrorJoin`: `CheckErrors`, which drains a buffered channel and joins the error texts.
- `Transition`: `TransitionService`. It is a read-modify-write of the base service, repeated while the write reports a conflict and the retry budget lasts.
- `Server`: the three handlers of `main.go` as sequential methods over the cluster. Each goroutine fan-out into a buffered channel is modelled by a schedule: the order in which the outcomes are received.

Two consequences of the code are worth stating:

- A name whose stripped form has 14 or more runes keeps its first 13: `"a_very_long_endpoint_name_here"` derives `"averylongendp"` (`Naming.Normalize`).
- The upserts look an object up under the bare endpoint but write it under `endpoint + canary_version`. A repeated deploy changes nothing when the two names agree, which is always the case for the autoscaler and for a deploy without a canary version (`Crud.UpsertIdempotent`). It also changes nothing when both the production object and the canary already exist (`Crud.CanaryUpdateIdempotent`). With no production object, a repeated canary deploy fails with AlreadyExists (`Crud.CanaryRedeployFails`, and for the deployment upsert itself `Crud.DeploymentCanaryRedeployFails`). A first canary deploy next to an existing production object fails with NotFound (`Crud.CanaryBesideProductionFails`, `Crud.DeploymentCanaryBesideProductionFails`).

## Model

| member | source | states |
|---|---|---|
| Naming.Strip | go-k8-ml-deploy/server/helpers/helpers.go:92-96 | removing `[\W_]` never lengthens the text and leaves only ASCII letters and digits |
| Naming.Truncate | go-k8-ml-deploy/server/helpers/helpers.go:98-105 | the cut keeps a prefix of at most 13 runes: the whole text when it has fewer than 13, otherwise exactly 13 |
| Naming.Normalize | go-k8-ml-deploy/server/helpers/helpers.go:92-105 | the derived endpoint has at most 13 characters, is a prefix of the stripped name, and is the whole stripped name when that has fewer than 14 runes |
| Naming.StripOfLower | go-k8-ml-deploy/server/helpers/helpers.go:96 | stripping text that has no upper-case letters leaves only `a`-`z` and `0`-`9` |
| Naming.NormalizeCharset | go-k8-ml-deploy/server/helpers/helpers.go:92-105 | every character of a derived endpoint is in `[a-z0-9]` |
| Naming.LowerOfEndpointChars | go-k8-ml-deploy/server/helpers/helpers.go:96 | lower-casing text already in `[a-z0-9]` changes nothing |
| Naming.StripOfAlnum | go-k8-ml-deploy/server/helpers/helpers.go:96 | stripping text made only of letters and digits changes nothing |
| Naming.NormalizeIdempotent | go-k8-ml-deploy/server/helpers/helpers.go:92-105 | deriving the endpoint of a derived endpoint gives it back unchanged |
| Naming.NormalizeIgnoresCase | go-k8-ml-deploy/server/helpers/helpers.go:96 | names that differ only in ASCII case derive the same endpoint |
| Naming.StripConcat | go-k8-ml-deploy/server/helpers/helpers.go:96 | stripping distributes over concatenation |
| Naming.StripOfPunctuation | go-k8-ml-deploy/server/helpers/helpers.go:96 | text with no letters or digits strips to the empty string |
| Naming.StripWords | go-k8-ml-deploy/server/helpers/helpers.go:96 | word, separator, word, separator strips to the two words joined |
| Naming.LowerConcat | go-k8-ml-deploy/server/helpers/helpers.go:96 | lower-casing works character by character, so it distributes over concatenation |
| Naming.NormalizeWords | go-k8-ml-deploy/server/helpers/helpers.go:92-105 | a short name of word, separator, word, separator derives the two words lower-cased and joined |
| Naming.ExampleSpacesAndPunctuation | go-k8-ml-deploy/server/helpers/helpers.go:92-105 | "My Endpoint!!" derives "myendpoint" |
| Naming.Lower | go-k8-ml-deploy/server/helpers/helpers.go:96 | ASCII lower-casing keeps the length and every character outside `A`-`Z`, and turns `A`-`Z` into `a`-`z` letter for letter (by an alphabet table), so no upper-case letter is left |
| Naming.Join | go-k8-ml-deploy/server/helpers/helpers.go:90 | no names join to "", one name to itself; the first name leads, and the length is the names' lengths plus one separator between each two (Naming.SplitJoin is its inverse) |
| Naming.Split | go-k8-ml-deploy/server/helpers/helpers.go:90 | splitting at a separator gives at least one field (the inverse of the names join) |
| Naming.SplitWithout | go-k8-ml-deploy/server/helpers/helpers.go:90 | text without the separator splits to itself alone |
| Naming.SplitAfter | go-k8-ml-deploy/server/helpers/helpers.go:90 | a separator after a field splits off that field |
| Naming.SplitJoin | go-k8-ml-deploy/server/helpers/helpers.go:90 | model names without commas are recovered by splitting their comma join |
| Objects.LastDefined | go-k8-ml-deploy/server/helpers/helpers.go:162-196 | a resource list is nil iff no dimension is given, and otherwise has exactly one key |
| Builders.ResourcesKeepLastDimension | go-k8-ml-deploy/server/helpers/helpers.go:162-196 | a given dimension survives in the container's limits, and separately its requests, exactly when no later one of memory, cpu, `nvidia.com/gpu` is given |
| Store.NotFoundError | go-k8-ml-deploy/server/helpers/helpers.go:415-418 | a get of a missing object fails with a text ending in "not found" |
| Store.AlreadyExistsError | go-k8-ml-deploy/server/helpers/helpers.go:420-425 | a create of an existing object fails with a text that does not end in "not found" |
| Store.Get | go-k8-ml-deploy/server/helpers/helpers.go:415 | a get succeeds iff no fault and the name exists, and returns the stored object; a failed get returns the fault, or else the not-found error of the name |
| Store.Create | go-k8-ml-deploy/server/helpers/helpers.go:420-422 | a create succeeds iff no fault and the name is free, and then stores exactly the object; otherwise nothing changes |
| Store.Update | go-k8-ml-deploy/server/helpers/helpers.go:434-436 | an update succeeds iff no fault and the name exists, and then stores exactly the object; otherwise nothing changes |
| Store.Delete | go-k8-ml-deploy/server/helpers/helpers.go:671-675 | a delete succeeds iff no fault and the name exists, and then removes exactly that name; otherwise nothing changes |
| Store.Text | go-k8-ml-deploy/server/helpers/helpers.go:424 | an error's text is reported iff there was an error |
| Models.ModelDeploy.constructor | go-k8-ml-deploy/server/main.go:33 | a fresh request record has every field at its zero value |
| Models.ModelDeploy.InitModelDefaults | go-k8-ml-deploy/server/helpers/helpers.go:77-80 | sets the default image and the stage "Production" and nothing else |
| Models.ModelDeploy.Decode | go-k8-ml-deploy/server/main.go:36 | the body's fields replace the record's; an absent image or stage keeps the default |
| Models.ModelDeploy.ParseModelParams | go-k8-ml-deploy/server/helpers/helpers.go:82-109 | the GPU request becomes the GPU limit when both are given and is untouched otherwise; memory and cpu are never touched; returns the comma join of the names and the derived endpoint |
| Models.ModelDeploy.InitResources | go-k8-ml-deploy/server/helpers/helpers.go:158-199 | the sequence of six replacements yields the last given dimension of the limits and of the requests |
| Models.ModelDestroy.constructor | go-k8-ml-deploy/server/main.go:71-75 | the record holds the decoded body |
| Models.ModelDestroy.ParseDestroyParams | go-k8-ml-deploy/server/helpers/helpers.go:111-132 | the name becomes the derived endpoint, with the canary version appended iff canary is set; a canary without a version panics on the nil pointer after the name was derived |
| Models.ModelTransition.constructor | go-k8-ml-deploy/server/main.go:105-109 | the record holds the decoded body |
| Models.ModelTransition.ParseTransitionParams | go-k8-ml-deploy/server/helpers/helpers.go:134-156 | the name becomes the derived endpoint; `toDestroy` is endpoint + version when a version is given and "" otherwise |
| Models.CreateResponse | go-k8-ml-deploy/server/helpers/helpers.go:600-613 | the deploy reply carries the endpoint, the canary flag, and the version or "" when it is nil |
| Models.CreateDestroyResponse | go-k8-ml-deploy/server/helpers/helpers.go:615-628 | the destroy reply names the deleted route "/invocations/" followed by exactly the endpoint, with the canary flag and the version or "" |
| Models.CreateTransResponse | go-k8-ml-deploy/server/helpers/helpers.go:630-638 | the transition reply names the route "/invocations/" followed by exactly the endpoint |
| Builders.CreateIngressAnnotations | go-k8-ml-deploy/server/helpers/helpers.go:290-305 | exactly `{rewrite-target: "/$2"}` when not canary; when canary, exactly three keys with `canary: "true"` and the weight; a canary without a weight panics |
| Builders.NewDeployment | go-k8-ml-deploy/server/helpers/helpers.go:201-256 | the deployment, its labels, selector, pod template, single container and container port all carry the bundle name endpoint + version; the image, the "Always" pull policy, port 8080, and the resources from the last given dimension |
| Builders.NewService | go-k8-ml-deploy/server/helpers/helpers.go:258-288 | the service is named endpoint + version, selects `{app: endpoint + version}`, and has one TCP port 8080 of that name whose target is the container port of that name |
| Builders.NewIngress | go-k8-ml-deploy/server/helpers/helpers.go:307-358 | panics exactly where the annotations do; otherwise the route is named endpoint + version, carries the annotations and class "inference", and sends `/()(invocations/<endpoint>.*)` to the service endpoint + version on 8080 |
| Builders.NewHpa | go-k8-ml-deploy/server/helpers/helpers.go:360-404 | the autoscaler is named by the bare endpoint, targets Deployment endpoint + version (apps/v1), and scales between 1 and 10 replicas on 50% CPU utilisation |
| Builders.BundleNaming | go-k8-ml-deploy/server/helpers/helpers.go:201-404 | the deployment, service, ingress and the autoscaler's target share one name, endpoint + version, and one namespace; only the autoscaler itself is named by the bare endpoint |
| Builders.BundleIsWired | go-k8-ml-deploy/server/helpers/helpers.go:210-401 | the service selects the deployment's pods, the route targets the service, and the autoscaler targets the deployment |
| Builders.DeploymentEnvironment | go-k8-ml-deploy/server/helpers/helpers.go:242-246 | the container gets MODEL_NAMES, ENDPOINT and MODEL_STAGE, in that order |
| Builders.GpuRequestEqualsLimit | go-k8-ml-deploy/server/helpers/helpers.go:84-88 | once a GPU limit is given and matched, the container's limit and request are the same single GPU quantity |
| Builders.PortNamesFit | go-k8-ml-deploy/server/helpers/helpers.go:236-281 | with a version of at most two characters, the container port name and the service's named target port stay within the 15-character limit of IANA service names |
| Crud.Upsert | go-k8-ml-deploy/server/helpers/helpers.go:415-444 | one outcome per call: a not-found get leads to a create, any other get error is reported unchanged with no write, a successful get leads to an update; a success stores exactly the built object and a failure writes nothing |
| Crud.CrudDeployment | go-k8-ml-deploy/server/helpers/helpers.go:406-446 | only deployments change: the built deployment under endpoint + version on success, nothing on failure; the get is of the bare endpoint, a get error other than not-found is returned with no write, a found endpoint succeeds iff the write has no fault and endpoint + version exists, a missing one iff no fault and endpoint + version is free |
| Crud.CrudService | go-k8-ml-deploy/server/helpers/helpers.go:448-488 | only services change: the built service under endpoint + version on success, nothing on failure; the same decision on the bare endpoint's get as for the deployment |
| Crud.CrudIngress | go-k8-ml-deploy/server/helpers/helpers.go:521-561 | panics iff canary without a weight; otherwise only ingresses change, with the same decision on the bare endpoint's get as for the deployment |
| Crud.CrudHpa | go-k8-ml-deploy/server/helpers/helpers.go:563-598 | only autoscalers change: the built autoscaler under the bare endpoint on success, nothing on failure; the get and the write are both of the bare endpoint, so a found one is updated and a missing one created, each succeeding iff the write has no fault |
| Crud.DeleteDeployment | go-k8-ml-deploy/server/helpers/helpers.go:669-682 | succeeds iff no fault and the deployment exists, and then removes just it |
| Crud.DeleteService | go-k8-ml-deploy/server/helpers/helpers.go:684-697 | succeeds iff no fault and the service exists, and then removes just it |
| Crud.DeleteIngress | go-k8-ml-deploy/server/helpers/helpers.go:699-712 | succeeds iff no fault and the ingress exists, and then removes just it |
| Crud.DeleteHpa | go-k8-ml-deploy/server/helpers/helpers.go:714-727 | succeeds iff no fault and the autoscaler exists, and then removes just it |
| Crud.UpsertIdempotent | go-k8-ml-deploy/server/helpers/helpers.go:415-444 | when the get name and the write name agree, a second fault-free upsert of the same object succeeds and changes nothing |
| Crud.CanaryRedeployFails | go-k8-ml-deploy/server/helpers/helpers.go:415-426 | a canary with no production object: the first deploy creates it, the second fails with AlreadyExists and writes nothing |
| Crud.CanaryBesideProductionFails | go-k8-ml-deploy/server/helpers/helpers.go:432-440 | a first canary next to production: the update of endpoint + version fails not-found and nothing is written |
| Crud.CanaryUpdateIdempotent | go-k8-ml-deploy/server/helpers/helpers.go:415-444 | with both the production object and the canary present, a canary deploy updates the canary, and repeating it succeeds and changes nothing |
| Crud.DeploymentCanaryRedeployFails | go-k8-ml-deploy/server/helpers/helpers.go:406-446 | `CrudDeployment` itself, canary with no production deployment: the first deploy succeeds and the second fails with AlreadyExists and writes nothing |
| Crud.DeploymentCanaryBesideProductionFails | go-k8-ml-deploy/server/helpers/helpers.go:406-446 | `CrudDeployment` itself, first canary beside production: fails with not-found on endpoint + version and writes nothing |
| ErrorJoin.CheckErrors | go-k8-ml-deploy/server/helpers/helpers.go:640-667 | drains all `cap` outcomes; the flag is true iff some outcome is an error; the text is each error followed by " \n" in the order received, and is empty iff there was none |
| ErrorJoin.ErrorsExistIffAnyError | go-k8-ml-deploy/server/helpers/helpers.go:640-655 | the collected error list is non-empty iff some outcome is an error |
| ErrorJoin.LinesEmptyIffNone | go-k8-ml-deploy/server/helpers/helpers.go:657-664 | the joined text is empty iff no error was collected |
| ErrorJoin.ErrorTextEmptyIffNoError | go-k8-ml-deploy/server/helpers/helpers.go:640-667 | the message is empty iff every outcome was nil |
| ErrorJoin.ErrorCount | go-k8-ml-deploy/server/helpers/helpers.go:645-653 | one error is collected per failed outcome |
| ErrorJoin.NewlinesConcat | go-k8-ml-deploy/server/helpers/helpers.go:661 | newline counts add up over concatenation |
| ErrorJoin.ErrorLines | go-k8-ml-deploy/server/helpers/helpers.go:657-664 | with single-line error texts, the message has one line per failed outcome |
| ErrorJoin.LinesOfTexts | go-k8-ml-deploy/server/helpers/helpers.go:657-664 | with single-line error texts, the joined message has one newline per collected error |
| ErrorJoin.NewlinesFree | go-k8-ml-deploy/server/helpers/helpers.go:661 | a text without '\n' counts no newlines |
| Transition.Cutover | go-k8-ml-deploy/server/helpers/helpers.go:503-507 | the service now selects `{app: endpoint + version}`, its first port is named endpoint and targets endpoint + version, and nothing else changes |
| Transition.Attempt | go-k8-ml-deploy/server/helpers/helpers.go:498-509 | no update and no write unless the get succeeded; a missing base service reports not-found; a failed attempt writes nothing; a panic needs a successful get |
| Transition.Retry | go-k8-ml-deploy/server/helpers/helpers.go:496-510 | retry-on-conflict repeats an attempt only after a conflict while the budget lasts: its result is one attempt's outcome, and a conflict is returned only as the last allowed attempt's |
| Transition.TransitionService | go-k8-ml-deploy/server/helpers/helpers.go:490-519 | the retry loop ends exactly as retry-on-conflict over the attempts does: same panic, same error, same services |
| Transition.RetrySuccessCutsOver | go-k8-ml-deploy/server/helpers/helpers.go:496-514 | a successful transition rewrote exactly the base service: selector `{app: endpoint + version}`, port 0 named endpoint and targeting endpoint + version |
| Transition.RetryFailureWritesNothing | go-k8-ml-deploy/server/helpers/helpers.go:496-514 | a failed transition leaves the services as they were |
| Transition.RetryStopsOnOtherError | go-k8-ml-deploy/server/helpers/helpers.go:496-514 | an error other than a conflict ends the retry with that error |
| Transition.RetryExhausted | go-k8-ml-deploy/server/helpers/helpers.go:496-514 | conflicts on every remaining attempt return the last conflict and write nothing |
| Transition.OneConflictThenSuccess | go-k8-ml-deploy/server/helpers/helpers.go:496-514 | a conflict followed by a clean attempt succeeds on the first retry |
| Server.ScheduleKeepsVerdict | go-k8-ml-deploy/server/main.go:45-54 | whether the join reports a failure does not depend on the order in which the goroutines finish |
| Server.DeployParsed | go-k8-ml-deploy/server/main.go:45-66 | each of the three upserts is received exactly once; any failure gives 400 with the joined message; the autoscaler is written only when the join is clean, and a reply is sent only after it succeeds |
| Server.HandleDeploy | go-k8-ml-deploy/server/main.go:31-67 | a malformed body gives 400 "Wrong json format" with no change; otherwise the parsed record goes through the three upserts, the join and the gated autoscaler |
| Server.TeardownRemovesTargets | go-k8-ml-deploy/server/helpers/helpers.go:669-727 | each of the four deletes reports one outcome and removes its target iff it exists and is not faulted; nothing else changes |
| Server.HandleDestroy | go-k8-ml-deploy/server/main.go:69-101 | all four kinds are deleted under the same derived, possibly suffixed, name, and each outcome is received once; a failure gives 400 with the joined message; otherwise the reply names "/invocations/" + name |
| Server.HandleTransition | go-k8-ml-deploy/server/main.go:103-140 | no delete is launched unless the cutover succeeded; the deployment and autoscaler are deleted under the endpoint and the service and ingress under `toDestroy`; a cutover error gives 400 with its text |
| Server.TeardownKeepsSwitchedService | go-k8-ml-deploy/server/main.go:116-126 | with a non-empty version the base service survives the teardown, cut over to the canary's pods |
| Server.EmptyVersionDeletesBaseService | go-k8-ml-deploy/server/main.go:111-126 | with an empty version `toDestroy` is the endpoint itself, so a clean teardown deletes the service just cut over |

## Left out

- The Kubernetes client (Get, Create, Update, Delete) is foreign code. It is replaced by maps with one injectable fault per call. Foreground propagation of deletes, resource versions and server-side defaulting are not modelled.
- `retry.RetryOnConflict` and `retry.DefaultRetry` live in a library. The model keeps the retry-on-conflict shape with an abstract budget `retries`. The backoff timings and the real step count are not modelled.
- Goroutines and buffered channels are replaced by a schedule, meaning any order of the outcomes. Scheduling, timing and deadlock are not modelled. When a goroutine panics, the model takes the upserts received before the panic as written.
- HTTP is not modelled: fiber routing, `BodyParser` (a malformed body is `None`, a well-formed one a decoded record), `Listen`, and `InClusterConfig` with the clientset.
- JSON encoding in `CreateResponse`, `CreateDestroyResponse` and `CreateTransResponse` is not modelled. Only the reply records are modelled.
- `resource.Quantity` is an integer with a unit and a format tag. Its encoding and the int64 conversion are not modelled.
- Logging (`fmt.Println`, `fmt.Printf`) is not modelled.
- The API server's own validation of objects is not modelled: the store accepts every object the builders produce. Rejections by the real server, such as a container port name over 15 characters or a fractional `nvidia.com/gpu` quantity like the `2m` that `NewMilliQuantity` makes of `gpu: 2`, appear only as injected write faults.
- Naming.Normalize: `strings.ToLower` is modelled on ASCII only. A non-ASCII character therefore always counts as stripped, which differs from Go for characters that lower-case to ASCII (the Kelvin sign, for instance).
- The error branches after `regexp.Compile` of a constant pattern and after `json.Marshal` of the reply records cannot be taken, so they are not modelled. The same goes for the "Wrong endpoint format" and "Wrong name" responses that only those errors reach.
