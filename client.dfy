/**
 * The client object: it owns the kind cache, resolves kinds through it, and drives the
 * cluster through the create-or-update, rollout-restart and list operations. Each
 * method performs the source's steps in the source's order and is proved to produce
 * exactly what the pure protocol functions specify.
 */
module K8sClient {
  import opened Wrappers
  import opened Discovery
  import opened Cluster
  import opened CreateOrUpdate
  import opened Projections

  /** Why a list call failed: the kind did not resolve, or the server refused the list. */
  datatype ListError = ListKindUnresolved(resolveError: ResolveError) | ListFailed(cause: ClusterError)

  /**
   * Patch at `key`; on NotFound, create `obj` there. The result, the store and the
   * requests sent are those of `PatchThenCreate`.
   */
  method PatchOrCreate(cluster: Cluster, key: ObjectKey, patch: Object, obj: Object) returns (r: Result<Object, ApplyError>)
    modifies cluster
    ensures var x := PatchThenCreate(old(cluster.store), cluster.denied, key, patch, obj);
      r == x.result && cluster.store == x.store && cluster.requests == old(cluster.requests) + x.requests
  {
    var result := cluster.Patch(key, patch);
    if result == Err(NotFound) {
      result := cluster.Create(key, obj);
    }
    if result.Err? {
      return Err(WriteFailed(result.error));
    }
    return Ok(result.value);
  }

  class Client {
    /** Kind name to resolved coordinates; filled on successful lookups only. */
    var apiResourceCache: Cache
    /** How many times discovery has been asked. */
    ghost var discoveryCalls: nat

    /** A new client starts with an empty kind cache. */
    constructor ()
      ensures apiResourceCache == map[] && discoveryCalls == 0
    {
      apiResourceCache := map[];
      discoveryCalls := 0;
    }

    /**
     * `getCachedGVR`: answer from the cache on a hit; otherwise ask discovery once, scan
     * its lists in order (skipping those whose groupVersion does not parse) and cache
     * the first resource of that kind.
     */
    method GetCachedGVR(kind: string, discovery: DiscoveryResult) returns (r: Result<GroupVersionResource, ResolveError>)
      modifies this
      ensures var lk := ResolveKind(old(apiResourceCache), discovery, kind);
        && r == lk.result
        && apiResourceCache == lk.cache
        && discoveryCalls == old(discoveryCalls) + (if lk.discovered then 1 else 0)
    {
      if kind in apiResourceCache {
        return Ok(apiResourceCache[kind]);
      }
      discoveryCalls := discoveryCalls + 1;
      if discovery.status.DiscoveryFailed? {
        return Err(DiscoveryUnavailable(discovery.status.reason));
      }
      var lists := discovery.lists;
      var i := 0;
      while i < |lists|
        invariant 0 <= i <= |lists|
        invariant FindKind(lists[i..], kind) == FindKind(lists, kind)
        invariant apiResourceCache == old(apiResourceCache)
        invariant discoveryCalls == old(discoveryCalls) + 1
      {
        var resourceList := lists[i];
        assert lists[i..][0] == resourceList;
        if resourceList.groupVersion.Some? {
          var gv := resourceList.groupVersion.value;
          var resources := resourceList.apiResources;
          var j := 0;
          while j < |resources|
            invariant 0 <= j <= |resources|
            invariant forall k :: 0 <= k < j ==> resources[k].kind != kind
          {
            if resources[j].kind == kind {
              var gvr := GroupVersionResource(gv.group, gv.version, resources[j].name);
              assert IndexOfKind(resources, kind) == Some(j);
              assert FindKind(lists[i..], kind) == Some(gvr);
              apiResourceCache := apiResourceCache[kind := gvr];
              return Ok(gvr);
            }
            j := j + 1;
          }
          assert IndexOfKind(resources, kind).None?;
        }
        assert lists[i..][1..] == lists[i + 1..];
        i := i + 1;
      }
      return Err(KindNotFound(kind));
    }

    /**
     * `CreateOrUpdateResourceJSON`: decode, resolve the kind argument, make sure the
     * namespace exists (creating it on NotFound), overwrite the object's namespace,
     * require a name, then patch and create on NotFound.
     */
    method CreateOrUpdateResourceJSON(cluster: Cluster, namespace: string, manifest: Option<Object>, kind: string,
                                      discovery: DiscoveryResult)
      returns (r: Result<Object, ApplyError>)
      modifies this, cluster
      ensures var p := ApplyJson(old(apiResourceCache), discovery, old(cluster.store), cluster.denied, namespace, manifest, kind);
        && r == p.result
        && apiResourceCache == p.cache
        && cluster.store == p.store
        && cluster.requests == old(cluster.requests) + p.requests
        && discoveryCalls == old(discoveryCalls) + (if p.discovered then 1 else 0)
    {
      if manifest.None? {
        return Err(ManifestInvalid);
      }
      var gvr := GetCachedGVR(kind, discovery);
      if gvr.Err? {
        return Err(KindUnresolved(gvr.error));
      }
      var err := cluster.GetNamespace(namespace);
      if err == Some(NotFound) {
        err := cluster.CreateNamespace(namespace);
      }
      if err.Some? {
        return Err(NamespaceUnavailable(err.value));
      }
      var obj := manifest.value.(namespace := namespace);
      if obj.name == "" {
        return Err(NameRequired);
      }
      r := PatchOrCreate(cluster, ObjectKey(gvr.value, obj.namespace, obj.name), manifest.value, obj);
    }

    /**
     * `CreateOrUpdateResourceYAML`: decode, take the kind argument or else the manifest's
     * kind, resolve it, override the namespace only when one is given, require a name,
     * then patch and create on NotFound. No namespace is looked up or created.
     */
    method CreateOrUpdateResourceYAML(cluster: Cluster, namespace: string, manifest: Option<Object>, kind: string,
                                      discovery: DiscoveryResult)
      returns (r: Result<Object, ApplyError>)
      modifies this, cluster
      ensures var p := ApplyYaml(old(apiResourceCache), discovery, old(cluster.store), cluster.denied, namespace, manifest, kind);
        && r == p.result
        && apiResourceCache == p.cache
        && cluster.store == p.store
        && cluster.requests == old(cluster.requests) + p.requests
        && discoveryCalls == old(discoveryCalls) + (if p.discovered then 1 else 0)
    {
      if manifest.None? {
        return Err(ManifestInvalid);
      }
      var obj := manifest.value;
      var resourceKind := kind;
      if resourceKind == "" {
        resourceKind := obj.kind;
        if resourceKind == "" {
          return Err(KindRequired);
        }
      }
      var gvr := GetCachedGVR(resourceKind, discovery);
      if gvr.Err? {
        return Err(KindUnresolved(gvr.error));
      }
      if namespace != "" {
        obj := obj.(namespace := namespace);
      }
      if obj.name == "" {
        return Err(NameRequired);
      }
      r := PatchOrCreate(cluster, ObjectKey(gvr.value, obj.namespace, obj.name), manifest.value, obj);
    }

    /**
     * `RolloutRestart`: resolve, send the strategic patch stamping the restart
     * annotation, and only then reject an object without a pod template.
     */
    method RolloutRestart(cluster: Cluster, kind: string, name: string, namespace: string, timestamp: string,
                          discovery: DiscoveryResult)
      returns (r: Result<Object, ApplyError>)
      modifies this, cluster
      ensures var p := CreateOrUpdate.RolloutRestart(old(apiResourceCache), discovery, old(cluster.store), cluster.denied,
                                                     kind, name, namespace, timestamp);
        && r == p.result
        && apiResourceCache == p.cache
        && cluster.store == p.store
        && cluster.requests == old(cluster.requests) + p.requests
        && discoveryCalls == old(discoveryCalls) + (if p.discovered then 1 else 0)
    {
      var gvr := GetCachedGVR(kind, discovery);
      if gvr.Err? {
        return Err(KindUnresolved(gvr.error));
      }
      var result := cluster.StrategicRestartPatch(ObjectKey(gvr.value, namespace, name), timestamp);
      if result.Err? {
        return Err(WriteFailed(result.error));
      }
      if result.value.template.None? {
        return Err(NoPodTemplate(kind));
      }
      return Ok(result.value);
    }

    /**
     * `ListResources`: resolve the kind, then project the server's list (`listed`, its
     * answer for the resolved resource, namespace and selectors) to one summary per item.
     */
    method ListResources(kind: string, discovery: DiscoveryResult, listed: Result<seq<Object>, ClusterError>)
      returns (r: Result<seq<ResourceSummary>, ListError>)
      modifies this
      ensures var lk := ResolveKind(old(apiResourceCache), discovery, kind);
        && apiResourceCache == lk.cache
        && discoveryCalls == old(discoveryCalls) + (if lk.discovered then 1 else 0)
        && (lk.result.Err? ==> r == Err(ListKindUnresolved(lk.result.error)))
        && (lk.result.Ok? && listed.Err? ==> r == Err(ListFailed(listed.error)))
        && (lk.result.Ok? && listed.Ok? ==> r.Ok? && SummarizesEach(r.value, listed.value))
    {
      var gvr := GetCachedGVR(kind, discovery);
      if gvr.Err? {
        return Err(ListKindUnresolved(gvr.error));
      }
      if listed.Err? {
        return Err(ListFailed(listed.error));
      }
      var resources := Summaries(listed.value);
      return Ok(resources);
    }
  }
}
