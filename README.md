# Kubernetes client core of the MCP server, in Dafny

This project models the Kubernetes client behind the MCP server's tools
(`pkg/k8s/client.go`) and proves properties of the model:

- **Connection configuration** (`KubeConfig`). `BuildKubernetesConfig` tries four
  sources in a fixed order:
  1. inline kubeconfig in `KUBECONFIG_DATA`;
  2. `KUBERNETES_SERVER` with `KUBERNETES_TOKEN`, `KUBERNETES_INSECURE` and an optional CA;
  3. the in-cluster service account;
  4. a kubeconfig file: the argument, else `KUBECONFIG`, else `~/.kube/config`.

  The first source whose trigger is present decides the outcome, success or failure.
  Nothing falls through to a later source.
- **Kind resolution** (`Discovery`, `K8sClient.Client.GetCachedGVR`). A kind name
  maps to its (group, version, resource) coordinates. The client keeps a cache of
  resolved kinds:
  - a hit calls no discovery;
  - a miss calls discovery once and takes the first match in list order, then
    resource order, skipping lists whose groupVersion does not parse;
  - a kind that is not found is never cached.
- **Create-or-update** of unstructured manifests (`CreateOrUpdate`, `K8sClient`). Both
  variants patch first and create only when the patch answers NotFound.
  - The JSON variant always targets the namespace argument. It looks the namespace up
    and creates it on NotFound, and it does this before it checks the object's name.
  - The YAML variant takes the kind from the manifest when none is given. It overrides
    the namespace only when one is given, and it never creates a namespace.
  - Both send the manifest as given as the patch body; only the created object gets the
    namespace argument. A manifest naming another namespace than the target is
    therefore created once, and applying it again is refused by the server.
- **Rollout restart**. A strategic patch stamps
  `kubectl.kubernetes.io/restartedAt` into the pod template. The check for
  `spec.template` happens only after the patch, so an error can come back with the
  stored object already changed.
- **Pod logs** (`PodLogs`). The call reads one named container (spec, init or
  ephemeral), the only container, or every spec container in turn. A per-container
  failure becomes an inline marker and the other containers are still reported.
- **Projections** (`Projections`):
  - the scope filter of `GetAPIResources`;
  - the per-item summary of `ListResources`;
  - the host filter and summary of `GetIngresses`.

The Kubernetes API server is an abstract `Cluster.Store` (objects keyed by resource,
namespace and name, plus the set of namespaces). Its answers to each request are pure
functions of the store, and a `denied` set of verbs models authorization refusals.
The `Cluster.Cluster` class holds the store and a ghost log of requests: the calls the
client makes through client-go, in order. The client methods are proved to make exactly
the calls, and leave exactly the store and kind cache, that the pure protocol functions
specify. Discovery answers, pod and list answers, and the restart timestamp are inputs.

client-go refuses a call with an empty resource name locally, without sending anything
to the server: the typed client used for the namespace lookup answers "resource name
may not be empty", and the dynamic client used for the patches answers "name is
required". The model keeps this rule, without the message texts: such a call
is answered `EmptyName`, and it is still recorded in the request log, which lists calls
into client-go rather than requests that reached the server. As a consequence, the JSON
variant called with an empty namespace always fails with
`NamespaceUnavailable(EmptyName)` (`CreateOrUpdate.JsonNamespaceHandling`).

## Model

| member | source | states |
|---|---|---|
| KubeConfig.BuildKubernetesConfig | pkg/k8s/client.go:53-127 | The first source whose trigger is present produces the result, success or error, and an error names that source. A kubeconfig-file result carries the path chosen by the argument, then KUBECONFIG, then home. |
| KubeConfig.LoaderSourcesReturnTheirConfig | pkg/k8s/client.go:55-126 | The inline-kubeconfig, in-cluster and kubeconfig-file sources return exactly their loader's connection on success. Each fails with its own error exactly when its loader fails. The file source reads the path chosen by argument, KUBECONFIG, then home. |
| KubeConfig.OnlyTriggeredSourceDecides | pkg/k8s/client.go:53-127 | No fall-through. Two environments with the same triggered source and the same inputs for that source get the same result, whatever the later sources hold. |
| KubeConfig.ServerAndTokenSource | pkg/k8s/client.go:71-97 | Server and token: the token is required. Host and token come from the environment. Insecure holds iff the variable is exactly "true". An inline CA wins over a CA path. A readable CA path puts the file's contents into the CA data. An unreadable CA path is an error naming that path. Without a CA, no CA data is set. |
| KubeConfig.KubeconfigPath | pkg/k8s/client.go:111-119 | The kubeconfig path is the argument if non-empty, else KUBECONFIG if set, else home + "/.kube/config" if home is known, else empty. |
| KubeConfig.ServerAndTokenConfig | pkg/k8s/client.go:71-97 | Its results and errors all belong to the server-and-token source, and they carry no kubeconfig path. |
| Discovery.IndexOfKind | pkg/k8s/client.go:465-475 | The first index whose kind matches exactly, or None when no resource of the list has that kind. |
| Discovery.FindKindIsFirstMatch | pkg/k8s/client.go:459-479 | The lookup is None iff no list with a parsable groupVersion holds the kind. Otherwise it returns the coordinates (list's group and version, resource's plural name) of the first match in list order, then resource order. |
| Discovery.ResolveKindContract | pkg/k8s/client.go:445-480 | A hit returns the cached value, calls no discovery and keeps the cache. A miss calls discovery. A fatal discovery error is returned. A success adds exactly the entry for the kind, holding the first match. Every failure leaves the cache unchanged. Not-found holds iff there is no match. |
| Discovery.NotFoundIsRediscovered | pkg/k8s/client.go:478-479 | A kind that was not found is not cached, so asking again calls discovery again. |
| Discovery.ResolvedKindIsCached | pkg/k8s/client.go:446-450 | After a successful resolution, the next lookup returns the same coordinates without discovery, whatever discovery would say. |
| K8sClient.Client.constructor | pkg/k8s/client.go:164-171 | A new client starts with an empty kind cache and has made no discovery call. |
| K8sClient.Client.GetCachedGVR | pkg/k8s/client.go:445-480 | The nested scan returns exactly the specified lookup result and leaves exactly the specified cache. It counts one discovery call iff the kind was not cached. |
| K8sClient.Client.CreateOrUpdateResourceJSON | pkg/k8s/client.go:273-339 | The result, the kind cache, the store and the requests sent, in order, are those of `CreateOrUpdate.ApplyJson`. |
| K8sClient.Client.CreateOrUpdateResourceYAML | pkg/k8s/client.go:365-420 | The result, the kind cache, the store and the requests sent, in order, are those of `CreateOrUpdate.ApplyYaml`. |
| K8sClient.Client.RolloutRestart | pkg/k8s/client.go:726-751 | The result, the kind cache, the store and the single patch request are those of `CreateOrUpdate.RolloutRestart`. |
| K8sClient.Client.ListResources | pkg/k8s/client.go:232-265 | A kind resolution error or a list error is returned. Otherwise there is one summary per listed item, in order, with its name, kind, namespace and labels. The cache follows the lookup specification. |
| K8sClient.PatchOrCreate | pkg/k8s/client.go:322-336 | Patch, then create only on NotFound. The result, store and requests are those of `CreateOrUpdate.PatchThenCreate`. |
| CreateOrUpdate.PatchThenCreate | pkg/k8s/client.go:322-336 | The requests are one merge patch, plus one create iff the patch answered NotFound. Any other patch answer is the result. After NotFound, the create's answer is the result. |
| CreateOrUpdate.AsWriteResult | pkg/k8s/client.go:334-336 | A write error is reported as a write failure carrying the server's cause. A success is passed through. |
| CreateOrUpdate.YamlKind | pkg/k8s/client.go:367-386 | An undecodable manifest is an error. A non-empty kind argument wins, else the manifest's kind. If both are empty the result is the kind-required error. A chosen kind is never empty. |
| CreateOrUpdate.YamlChecksBeforeClusterCalls | pkg/k8s/client.go:365-400 | YAML sends no request iff decoding, kind selection, kind resolution or the name check failed, and then the store is unchanged. Decode and kind errors leave the cache unchanged too. |
| CreateOrUpdate.JsonChecksBeforeObjectWrites | pkg/k8s/client.go:273-318 | JSON: a decode error or an unresolved kind sends nothing and changes nothing. An empty name sends no patch and no create, and leaves every object as it was. |
| CreateOrUpdate.CreateWhenAbsent | pkg/k8s/client.go:322-333 | An absent object, in an existing namespace, is created by exactly one NotFound patch and one create. The stored object is the manifest at resourceVersion 1. |
| CreateOrUpdate.MergeOfAbsorbedPatch | pkg/k8s/client.go:322-328 | Merge-patching an object that already holds every entry of the patch changes only its resourceVersion. |
| CreateOrUpdate.ApplyYamlIsIdempotent | pkg/k8s/client.go:365-420 | For a manifest that names no namespace or the target one, applying the same YAML manifest a second time resolves the kind from the cache, sends a single patch, and returns the same object with only its resourceVersion advanced. |
| CreateOrUpdate.ApplyJsonIsIdempotent | pkg/k8s/client.go:273-339 | For a manifest that names no namespace or the namespace argument, applying the same JSON manifest a second time resolves the kind from the cache, sends exactly a namespace lookup and one patch, and returns the same object with only its resourceVersion advanced. |
| CreateOrUpdate.JsonManifestInOtherNamespaceIsNotReapplicable | pkg/k8s/client.go:314-336 | The patch body is the manifest as given (:323), so a JSON manifest naming another namespace than the argument succeeds only by creating the object. Applying it again is refused with BadRequest and changes nothing. |
| CreateOrUpdate.YamlManifestInOtherNamespaceIsNotReapplicable | pkg/k8s/client.go:393-417 | The patch body is the manifest as given (:409), so YAML with a namespace argument and a manifest naming another namespace succeeds only by creating the object. Applying it again is refused with BadRequest and changes nothing. |
| CreateOrUpdate.YamlNamespaceHandling | pkg/k8s/client.go:393-402 | YAML never creates a namespace. On success the object is stored under the namespace argument if non-empty, else under the manifest's own namespace. |
| CreateOrUpdate.YamlResultIsInTargetNamespace | pkg/k8s/client.go:393-419 | In a store where every object carries its key's name and namespace, the document YAML returns is in the namespace argument when non-empty, else the manifest's own, and carries the manifest's name. The store stays that way. |
| CreateOrUpdate.JsonResultIsInTargetNamespace | pkg/k8s/client.go:314-338 | In such a store, the document JSON returns is in the namespace argument and carries the manifest's name. The store stays that way. |
| CreateOrUpdate.RestartKeepsWellKeyed | pkg/k8s/client.go:731-750 | In such a store, a restart keeps every object under its key and returns the object with the requested name and namespace. |
| CreateOrUpdate.YamlIntoMissingNamespaceFails | pkg/k8s/client.go:393-417 | In a consistent store, YAML into a namespace that does not exist fails and leaves the store unchanged. |
| CreateOrUpdate.JsonNamespaceHandling | pkg/k8s/client.go:286-314 | JSON looks the namespace up first and creates it iff the lookup answered NotFound. Any other lookup error aborts before any object request. An empty namespace always fails. On success the namespace exists and the object is stored under it. |
| CreateOrUpdate.JsonNamelessCallCanCreateNamespace | pkg/k8s/client.go:286-318 | The name check follows the namespace creation, so a JSON call that fails for want of a name still creates a missing namespace. |
| CreateOrUpdate.RestartFailsAfterPatching | pkg/k8s/client.go:739-748 | The patch request is sent before the template check: restarting an object without a pod template sends the patch and then reports the no-template error. Because the modelled server advances resourceVersion on every accepted patch, the stored object has changed. |
| CreateOrUpdate.RestartStampsTemplate | pkg/k8s/client.go:733-750 | At most one request is sent. A successful restart returns the stored object, whose pod template carries the restartedAt annotation set to the timestamp. |
| Cluster.MergePatch | pkg/k8s/client.go:322-328 | A merge patch keeps the object's identity, takes every label, field and template entry of the patch over the object's own, keeps the rest, and advances the resourceVersion. |
| Cluster.RestartPatch | pkg/k8s/client.go:733-740 | The restart patch sets the restartedAt annotation in an existing pod template and keeps every other annotation, adds no template where there is none, keeps identity, labels and fields, and advances the resourceVersion. |
| Cluster.Cluster.GetNamespace | pkg/k8s/client.go:288 | The namespace lookup answers as specified, leaves the store unchanged and logs the request. |
| Cluster.Cluster.CreateNamespace | pkg/k8s/client.go:294-308 | The namespace creation answers and updates the store as specified, and logs the request. |
| Cluster.Cluster.Patch | pkg/k8s/client.go:324-330 | The merge patch answers and updates the store as specified, and logs the request. |
| Cluster.Cluster.Create | pkg/k8s/client.go:331-333 | The create answers and updates the store as specified, and logs the request. |
| Cluster.Cluster.StrategicRestartPatch | pkg/k8s/client.go:739 | The restart patch answers and updates the store as specified, and logs the request. |
| PodLogs.GetPodsLogs | pkg/k8s/client.go:511-582 | A named container's log (spec, init or ephemeral), or its stream or read error, with no pod fetch. A pod that cannot be fetched is an error. The only container's log, or its error. Otherwise every container's section concatenated in spec order, with per-container failures written inline. |
| PodLogs.FirstNamedFinds | pkg/k8s/client.go:517-520 | The stream read for a named container is that of the first container with that name. |
| PodLogs.NamedInitOrEphemeralIsRead | pkg/k8s/client.go:514-530 | Naming an init or ephemeral container returns that container's log. |
| PodLogs.AggregateReportsEachContainer | pkg/k8s/client.go:558-579 | Every container is reported in spec order. The aggregate is the part before container i, then i's own section (its log or its error marker), then the part after. |
| PodLogs.PartialFailureIsInline | pkg/k8s/client.go:562-578 | With one container streamed and one failing, the result holds the first container's header and log followed by the second's error marker. |
| PodLogs.JoinedAppend | pkg/k8s/client.go:558-579 | Building the aggregate over two runs of containers is building each and concatenating. |
| Projections.GetAPIResources | pkg/k8s/client.go:178-202 | A fatal discovery error is returned, and a group discovery failure is tolerated. Otherwise the result is the in-scope resources of all lists, in order. |
| Projections.ScopeFilterKeepsExactlyInScope | pkg/k8s/client.go:185-190 | A resource is returned iff it appears in some list and its scope (namespaced or cluster) is asked for. |
| Projections.InScopeOfMembers | pkg/k8s/client.go:186-190 | Within one list, a resource is kept iff it is in the list and in scope. |
| Projections.BothScopesKeepEverything | pkg/k8s/client.go:185-190 | Asking for both scopes returns every discovered resource, in order. |
| Projections.Summaries | pkg/k8s/client.go:253-262 | One summary per item, in list order, each with its item's name, kind, namespace and labels. |
| Projections.GetIngresses | pkg/k8s/client.go:673-721 | A list error is returned. Otherwise the result is the summaries of the ingresses with a matching rule, in list order. |
| Projections.SummarizeIngress | pkg/k8s/client.go:681-717 | An ingress is reported iff one of its rules matches the host (every rule matches an empty host). It then carries the paths and backend services of the matching rules, in order. |
| Projections.CollectRulePaths | pkg/k8s/client.go:696-705 | Appends every path of the rule, and the service name of each path whose backend is a service. |
| Projections.MatchedPathsComeFromMatchingRules | pkg/k8s/client.go:687-699 | Every reported path belongs to a rule that matches the host. |
| Projections.NoHostFilterReportsRuledIngresses | pkg/k8s/client.go:688-694 | Without a host filter, an ingress is reported iff it has at least one rule. |
| Projections.SummarizeAllAppend | pkg/k8s/client.go:680-717 | List order is kept: summarizing two runs of ingresses is summarizing each and concatenating. |
| Projections.SummarizeAllMembers | pkg/k8s/client.go:680-717 | A summary is reported iff it is the summary of some listed ingress. |

## Left out

- The `sync.RWMutex` around the kind cache is left out. Concurrency is not modelled: each method runs alone on the client.
- Every network call is an input, not a real call:
  - discovery (`ServerPreferredResources`) is a `DiscoveryResult`;
  - the pod GET and log streams are a `PodFetch`;
  - the ingress and object lists are `Result` values;
  - the namespace and object writes are answered by the abstract store.
- Decoding of JSON and YAML (`json.Unmarshal`, `yaml.YAMLToJSON`) is not modelled. A manifest is `Option<Object>`, and None means it did not decode.
- `schema.ParseGroupVersion` is not modelled. A list's groupVersion is `Option<GroupVersion>`, and None means it does not parse.
- Cluster.MergePatch: JSON merge patch semantics are simplified to a flat union of labels, fields and pod-template annotations. Deletion by null and nested documents are not modelled.
- Cluster.RestartPatch: the strategic patch of an object without a pod template is modelled as accepted with only a resourceVersion change. What a real server does then is not modelled: it drops an unknown `spec.template` from built-in kinds and refuses strategic merge patch on custom resources.
- Cluster.MergePatch: the modelled server advances resourceVersion on every accepted patch, no-op patches included, where a real server leaves a no-op patch's resourceVersion unchanged. The resourceVersion changes stated by CreateOrUpdate.RestartFailsAfterPatching, CreateOrUpdate.MergeOfAbsorbedPatch, CreateOrUpdate.ApplyYamlIsIdempotent and CreateOrUpdate.ApplyJsonIsIdempotent rest on this simplification.
- The server's own validation of a created object is not modelled. The modelled server refuses on authorization (`denied`), an empty name, a missing object or namespace, an existing object, and a patch body naming another namespace than the request (BadRequest).
- K8sClient.Client.ListResources: the namespace, label selector and field selector are passed to the server, so the list it answers is an input. Only the projection is modelled.
- `GetResource`, `DescribeResource` and `DeleteResource` are not modelled. After kind resolution (modelled) they pass one request to the server and return its answer unchanged.
- The `TailLines` option of 100 in `GetPodsLogs` is applied by the server, so the streamed text is an input.
- `time.Now().Format(time.RFC3339)` is not modelled. The restart timestamp is an input string.
- KubeConfig.BuildKubernetesConfig: each source's loader is an input: `clientcmd.Load`/`ClientConfig`, `rest.InClusterConfig`, `clientcmd.BuildConfigFromFlags` per path, `os.ReadFile` and `os.Stat`. The `filepath.Join` cleaning of the home directory is not modelled (it concatenates), and neither is client-go's fallback when the kubeconfig path is empty.
- The metrics and events operations are not modelled: `GetPodMetrics`, `GetNodeMetrics`, `GetEvents`, `NewClient`'s construction of the clientsets, and the `Printf` progress messages.
- Error message texts are not modelled. Errors are datatype values that carry their cause.
- The Helm client, the MCP tool handlers and the server entry point are not part of this model.
