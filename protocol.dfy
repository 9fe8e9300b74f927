/**
 * The create-or-update protocol for unstructured manifests (JSON and YAML variants) and
 * the rollout restart, as pure functions of the kind cache, the discovery answer, the
 * cluster store and the server's refusal policy. Each function returns the result, the
 * cache and store afterwards, and the requests sent to the cluster in order.
 */
module CreateOrUpdate {
  import opened Wrappers
  import opened Discovery
  import opened Cluster

  datatype ApplyError =
    | ManifestInvalid                          // the JSON (or YAML) text does not decode to an object
    | KindRequired                             // YAML: neither the argument nor the manifest names a kind
    | KindUnresolved(resolveError: ResolveError)
    | NamespaceUnavailable(cause: ClusterError) // JSON: the namespace lookup or creation failed
    | NameRequired
    | WriteFailed(cause: ClusterError)          // the patch, or the create after a NotFound patch, failed
    | NoPodTemplate(kind: string)               // rollout restart: the patched object has no spec.template

  /** The cluster-facing part of a call: result, store afterwards, requests in order. */
  datatype Exchange = Exchange(result: Result<Object, ApplyError>, store: Store, requests: seq<Request>)

  /** A whole call: the exchange plus the kind cache afterwards and whether discovery was called. */
  datatype Protocol = Protocol(
    result: Result<Object, ApplyError>,
    cache: Cache,
    store: Store,
    requests: seq<Request>,
    discovered: bool)

  function AsWriteResult(r: Result<Object, ClusterError>): (w: Result<Object, ApplyError>)
    ensures r.Ok? <==> w.Ok?
    ensures r.Ok? ==> w.value == r.value
    ensures r.Err? ==> w.error == WriteFailed(r.error)
  {
    match r
    case Ok(o) => Ok(o)
    case Err(e) => Err(WriteFailed(e))
  }

  /**
   * Patch first; create only when the patch answered NotFound. Any other patch error,
   * or the create's error, is the result.
   */
  function PatchThenCreate(s: Store, denied: set<Verb>, key: ObjectKey, patch: Object, obj: Object): (x: Exchange)
    ensures var p := PatchAnswer(s, denied, key, patch);
      x.requests == [MergePatchCall(key)] + (if p.result == Err(NotFound) then [CreateCall(key)] else [])
    ensures var p := PatchAnswer(s, denied, key, patch);
      p.result != Err(NotFound) ==> x.result == AsWriteResult(p.result) && x.store == p.store
    ensures PatchAnswer(s, denied, key, patch).result == Err(NotFound) ==>
      var c := CreateAnswer(s, denied, key, obj); x.result == AsWriteResult(c.result) && x.store == c.store
  {
    var p := PatchAnswer(s, denied, key, patch);
    if p.result == Err(NotFound) then
      var c := CreateAnswer(p.store, denied, key, obj);
      Exchange(AsWriteResult(c.result), c.store, [MergePatchCall(key), CreateCall(key)])
    else
      Exchange(AsWriteResult(p.result), p.store, [MergePatchCall(key)])
  }

  // ---------------------------------------------------------------- YAML variant

  /** YAML: the kind argument if non-empty, else the manifest's kind; an error if both are empty. */
  function YamlKind(manifest: Option<Object>, kind: string): (r: Result<string, ApplyError>)
    ensures manifest.None? ==> r == Err(ManifestInvalid)
    ensures manifest.Some? && kind != "" ==> r == Ok(kind)
    ensures manifest.Some? && kind == "" ==> r == (if manifest.value.kind != "" then Ok(manifest.value.kind) else Err(KindRequired))
    ensures r.Ok? ==> r.value != ""
  {
    if manifest.None? then Err(ManifestInvalid)
    else if kind != "" then Ok(kind)
    else if manifest.value.kind != "" then Ok(manifest.value.kind)
    else Err(KindRequired)
  }

  /** YAML: the target namespace is the argument when non-empty, else the manifest's own. */
  function YamlTarget(namespace: string, manifest: Object): Object {
    if namespace != "" then manifest.(namespace := namespace) else manifest
  }

  function WriteYaml(s: Store, denied: set<Verb>, gvr: GroupVersionResource, namespace: string, manifest: Object): Exchange {
    var obj := YamlTarget(namespace, manifest);
    if obj.name == "" then Exchange(Err(NameRequired), s, [])
    else PatchThenCreate(s, denied, ObjectKey(gvr, obj.namespace, obj.name), manifest, obj)
  }

  /** `CreateOrUpdateResourceYAML`: decode, pick the kind, resolve it, set the namespace, check the name, patch, create on NotFound. */
  function ApplyYaml(cache: Cache, discovery: DiscoveryResult, s: Store, denied: set<Verb>,
                     namespace: string, manifest: Option<Object>, kind: string): Protocol
  {
    match YamlKind(manifest, kind)
    case Err(e) => Protocol(Err(e), cache, s, [], false)
    case Ok(k) =>
      var lk := ResolveKind(cache, discovery, k);
      match lk.result
      case Err(e) => Protocol(Err(KindUnresolved(e)), lk.cache, s, [], lk.discovered)
      case Ok(gvr) =>
        var w := WriteYaml(s, denied, gvr, namespace, manifest.value);
        Protocol(w.result, lk.cache, w.store, w.requests, lk.discovered)
  }

  // ---------------------------------------------------------------- JSON variant

  /** The outcome of making sure a namespace exists. */
  datatype Ensured = Ensured(err: Option<ClusterError>, store: Store, requests: seq<Request>)

  /** JSON: look the namespace up; create it iff the lookup says NotFound; any other lookup error stands. */
  function EnsureNamespace(s: Store, denied: set<Verb>, namespace: string): Ensured {
    var lookup := NamespaceGetAnswer(s, denied, namespace);
    if lookup == Some(NotFound) then
      var c := NamespaceCreateAnswer(s, denied, namespace);
      Ensured(c.err, c.store, [GetNamespaceCall(namespace), CreateNamespaceCall(namespace)])
    else
      Ensured(lookup, s, [GetNamespaceCall(namespace)])
  }

  function WriteJson(s: Store, denied: set<Verb>, gvr: GroupVersionResource, namespace: string, manifest: Object): Exchange {
    var e := EnsureNamespace(s, denied, namespace);
    if e.err.Some? then Exchange(Err(NamespaceUnavailable(e.err.value)), e.store, e.requests)
    else
      var obj := manifest.(namespace := namespace);
      if obj.name == "" then Exchange(Err(NameRequired), e.store, e.requests)
      else
        var w := PatchThenCreate(e.store, denied, ObjectKey(gvr, namespace, obj.name), manifest, obj);
        Exchange(w.result, w.store, e.requests + w.requests)
  }

  /** `CreateOrUpdateResourceJSON`: decode, resolve the kind argument, ensure the namespace, overwrite it, check the name, patch, create on NotFound. */
  function ApplyJson(cache: Cache, discovery: DiscoveryResult, s: Store, denied: set<Verb>,
                     namespace: string, manifest: Option<Object>, kind: string): Protocol
  {
    if manifest.None? then Protocol(Err(ManifestInvalid), cache, s, [], false)
    else
      var lk := ResolveKind(cache, discovery, kind);
      match lk.result
      case Err(e) => Protocol(Err(KindUnresolved(e)), lk.cache, s, [], lk.discovered)
      case Ok(gvr) =>
        var w := WriteJson(s, denied, gvr, namespace, manifest.value);
        Protocol(w.result, lk.cache, w.store, w.requests, lk.discovered)
  }

  // ---------------------------------------------------------------- rollout restart

  /** `RolloutRestart`: resolve, stamp the restart annotation by a strategic patch, and only then check for spec.template. */
  function RolloutRestart(cache: Cache, discovery: DiscoveryResult, s: Store, denied: set<Verb>,
                          kind: string, name: string, namespace: string, timestamp: string): Protocol
  {
    var lk := ResolveKind(cache, discovery, kind);
    match lk.result
    case Err(e) => Protocol(Err(KindUnresolved(e)), lk.cache, s, [], lk.discovered)
    case Ok(gvr) =>
      var key := ObjectKey(gvr, namespace, name);
      var a := RestartAnswer(s, denied, key, timestamp);
      var result :=
        match a.result
        case Err(e) => Err(WriteFailed(e))
        case Ok(o) => if o.template.None? then Err(NoPodTemplate(kind)) else Ok(o);
      Protocol(result, lk.cache, a.store, [RestartPatchCall(key)], lk.discovered)
  }

  // ---------------------------------------------------------------- properties

  /**
   * YAML: the cluster sees no request, and the store does not change, unless the manifest
   * decoded, a kind was found, it resolved, and the object has a name; each of those
   * failures is reported as such.
   */
  lemma YamlChecksBeforeClusterCalls(cache: Cache, discovery: DiscoveryResult, s: Store, denied: set<Verb>,
                                     namespace: string, manifest: Option<Object>, kind: string)
    ensures var p := ApplyYaml(cache, discovery, s, denied, namespace, manifest, kind);
      && (p.requests == [] ==> p.store == s)
      && (p.requests == [] <==>
            || manifest.None?
            || (kind == "" && manifest.value.kind == "")
            || ResolveKind(cache, discovery, YamlKind(manifest, kind).value).result.Err?
            || YamlTarget(namespace, manifest.value).name == "")
      && (manifest.None? ==> p.result == Err(ManifestInvalid) && p.cache == cache && !p.discovered)
      && (manifest.Some? && kind == "" && manifest.value.kind == "" ==> p.result == Err(KindRequired) && p.cache == cache)
  {
  }

  /**
   * JSON: a manifest that does not decode, or a kind that does not resolve, sends no request
   * and changes nothing; an empty name sends no patch and no create.
   */
  lemma JsonChecksBeforeObjectWrites(cache: Cache, discovery: DiscoveryResult, s: Store, denied: set<Verb>,
                                     namespace: string, manifest: Option<Object>, kind: string)
    ensures var p := ApplyJson(cache, discovery, s, denied, namespace, manifest, kind);
      && (manifest.None? ==> p == Protocol(Err(ManifestInvalid), cache, s, [], false))
      && (manifest.Some? && ResolveKind(cache, discovery, kind).result.Err? ==> p.requests == [] && p.store == s)
      && (manifest.Some? && manifest.value.name == "" ==>
            p.store.objects == s.objects && forall k :: MergePatchCall(k) !in p.requests && CreateCall(k) !in p.requests)
  {
  }

  /** An object the cluster does not hold yet is created by exactly one patch (answered NotFound) and one create. */
  lemma CreateWhenAbsent(s: Store, denied: set<Verb>, key: ObjectKey, patch: Object, obj: Object)
    requires key.name != "" && key !in s.objects
    requires key.namespace == "" || key.namespace in s.namespaces
    requires PatchVerb !in denied && CreateVerb !in denied
    ensures var x := PatchThenCreate(s, denied, key, patch, obj);
      && x.requests == [MergePatchCall(key), CreateCall(key)]
      && x.result == Ok(obj.(resourceVersion := 1))
      && x.store.objects == s.objects[key := obj.(resourceVersion := 1)]
  {
  }

  /** The object `o` already holds every entry the patch `p` sets. */
  predicate Absorbs(o: Object, p: Object) {
    && (forall k :: k in p.labels ==> k in o.labels && o.labels[k] == p.labels[k])
    && (forall k :: k in p.fields ==> k in o.fields && o.fields[k] == p.fields[k])
    && (p.template.Some? ==>
          && o.template.Some?
          && forall k :: k in p.template.value ==> k in o.template.value && o.template.value[k] == p.template.value[k])
  }

  /** Patching an object that already holds the patch's entries changes only its resourceVersion. */
  lemma MergeOfAbsorbedPatch(o: Object, p: Object)
    requires Absorbs(o, p)
    ensures MergePatch(o, p) == o.(resourceVersion := o.resourceVersion + 1)
  {
    var m := MergePatch(o, p);
    assert m.labels == o.labels;
    assert m.fields == o.fields;
    if p.template.Some? {
      assert o.template.value + p.template.value == o.template.value;
    }
  }

  /**
   * Create-or-update is idempotent for a manifest that names no namespace, or the target
   * one: applying the same YAML manifest again succeeds, resolves the kind from the cache,
   * sends a single patch, and returns the same document with only its resourceVersion
   * advanced.
   */
  lemma ApplyYamlIsIdempotent(cache: Cache, d1: DiscoveryResult, d2: DiscoveryResult, s: Store, denied: set<Verb>,
                              namespace: string, manifest: Option<Object>, kind: string)
    requires ApplyYaml(cache, d1, s, denied, namespace, manifest, kind).result.Ok?
    requires manifest.Some? && namespace != "" ==> manifest.value.namespace == "" || manifest.value.namespace == namespace
    ensures var first := ApplyYaml(cache, d1, s, denied, namespace, manifest, kind);
      var second := ApplyYaml(first.cache, d2, first.store, denied, namespace, manifest, kind);
      && !second.discovered
      && second.cache == first.cache
      && |second.requests| == 1 && second.requests[0].MergePatchCall?
      && second.result == Ok(first.result.value.(resourceVersion := first.result.value.resourceVersion + 1))
  {
    var first := ApplyYaml(cache, d1, s, denied, namespace, manifest, kind);
    var k := YamlKind(manifest, kind).value;
    var lk := ResolveKind(cache, d1, k);
    var gvr := lk.result.value;
    var m := manifest.value;
    var obj := YamlTarget(namespace, m);
    var key := ObjectKey(gvr, obj.namespace, obj.name);
    var o1 := first.result.value;
    assert first.store.objects[key] == o1;
    if PatchAnswer(s, denied, key, m).result == Err(NotFound) {
      assert o1 == obj.(resourceVersion := 1);
    } else {
      assert o1 == MergePatch(s.objects[key], m);
    }
    assert Absorbs(o1, m);
    MergeOfAbsorbedPatch(o1, m);
  }

  /**
   * The JSON variant is idempotent too, for a manifest that names no namespace or the
   * namespace argument: applying it again resolves the kind from the cache, finds the
   * namespace, sends a single patch, and returns the same document with only its
   * resourceVersion advanced.
   */
  lemma ApplyJsonIsIdempotent(cache: Cache, d1: DiscoveryResult, d2: DiscoveryResult, s: Store, denied: set<Verb>,
                              namespace: string, manifest: Option<Object>, kind: string)
    requires ApplyJson(cache, d1, s, denied, namespace, manifest, kind).result.Ok?
    requires manifest.Some? ==> manifest.value.namespace == "" || manifest.value.namespace == namespace
    ensures var first := ApplyJson(cache, d1, s, denied, namespace, manifest, kind);
      var second := ApplyJson(first.cache, d2, first.store, denied, namespace, manifest, kind);
      var key := ObjectKey(ResolveKind(cache, d1, kind).result.value, namespace, manifest.value.name);
      && !second.discovered
      && second.cache == first.cache
      && second.requests == [GetNamespaceCall(namespace), MergePatchCall(key)]
      && second.result == Ok(first.result.value.(resourceVersion := first.result.value.resourceVersion + 1))
  {
    var first := ApplyJson(cache, d1, s, denied, namespace, manifest, kind);
    var gvr := ResolveKind(cache, d1, kind).result.value;
    var m := manifest.value;
    var obj := m.(namespace := namespace);
    var key := ObjectKey(gvr, namespace, m.name);
    var e := EnsureNamespace(s, denied, namespace);
    assert e.err.None? && namespace in e.store.namespaces;
    var o1 := first.result.value;
    assert first.store.objects[key] == o1;
    if PatchAnswer(e.store, denied, key, m).result == Err(NotFound) {
      assert o1 == obj.(resourceVersion := 1);
    } else {
      assert o1 == MergePatch(e.store.objects[key], m);
    }
    assert Absorbs(o1, m);
    MergeOfAbsorbedPatch(o1, m);
  }

  /**
   * The patch body is the manifest as given, not the object with the namespace argument
   * applied. A JSON manifest naming another namespace than the argument therefore
   * succeeds only by creating the object, and applying it again is refused with
   * BadRequest, changing nothing.
   */
  lemma JsonManifestInOtherNamespaceIsNotReapplicable(cache: Cache, d1: DiscoveryResult, d2: DiscoveryResult, s: Store,
                                                      denied: set<Verb>, namespace: string, manifest: Option<Object>, kind: string)
    requires manifest.Some? && manifest.value.namespace != "" && manifest.value.namespace != namespace
    requires ApplyJson(cache, d1, s, denied, namespace, manifest, kind).result.Ok?
    ensures var first := ApplyJson(cache, d1, s, denied, namespace, manifest, kind);
      var second := ApplyJson(first.cache, d2, first.store, denied, namespace, manifest, kind);
      var key := ObjectKey(ResolveKind(cache, d1, kind).result.value, namespace, manifest.value.name);
      && CreateCall(key) in first.requests
      && second.result == Err(WriteFailed(BadRequest))
      && second.store == first.store
  {
    var first := ApplyJson(cache, d1, s, denied, namespace, manifest, kind);
    var gvr := ResolveKind(cache, d1, kind).result.value;
    var key := ObjectKey(gvr, namespace, manifest.value.name);
    var e := EnsureNamespace(s, denied, namespace);
    assert e.err.None? && namespace in e.store.namespaces;
    assert PatchAnswer(e.store, denied, key, manifest.value).result == Err(NotFound);
    assert key in first.store.objects;
  }

  /**
   * YAML with a namespace argument and a manifest naming another namespace: the call
   * succeeds only by creating the object, and applying it again is refused with
   * BadRequest, changing nothing.
   */
  lemma YamlManifestInOtherNamespaceIsNotReapplicable(cache: Cache, d1: DiscoveryResult, d2: DiscoveryResult, s: Store,
                                                      denied: set<Verb>, namespace: string, manifest: Option<Object>, kind: string)
    requires manifest.Some? && namespace != "" && manifest.value.namespace != "" && manifest.value.namespace != namespace
    requires ApplyYaml(cache, d1, s, denied, namespace, manifest, kind).result.Ok?
    ensures var first := ApplyYaml(cache, d1, s, denied, namespace, manifest, kind);
      var second := ApplyYaml(first.cache, d2, first.store, denied, namespace, manifest, kind);
      var key := ObjectKey(ResolveKind(cache, d1, YamlKind(manifest, kind).value).result.value, namespace, manifest.value.name);
      && CreateCall(key) in first.requests
      && second.result == Err(WriteFailed(BadRequest))
      && second.store == first.store
  {
    var first := ApplyYaml(cache, d1, s, denied, namespace, manifest, kind);
    var gvr := ResolveKind(cache, d1, YamlKind(manifest, kind).value).result.value;
    var key := ObjectKey(gvr, namespace, manifest.value.name);
    assert PatchAnswer(s, denied, key, manifest.value).result == Err(NotFound);
    assert key in first.store.objects;
  }

  /**
   * YAML never creates a namespace; the object is written under the namespace argument
   * when it is non-empty and under the manifest's own namespace otherwise.
   */
  lemma YamlNamespaceHandling(cache: Cache, discovery: DiscoveryResult, s: Store, denied: set<Verb>,
                              namespace: string, manifest: Option<Object>, kind: string)
    ensures var p := ApplyYaml(cache, discovery, s, denied, namespace, manifest, kind);
      && p.store.namespaces == s.namespaces
      && (p.result.Ok? ==>
            var ns := if namespace != "" then namespace else manifest.value.namespace;
            var gvr := ResolveKind(cache, discovery, YamlKind(manifest, kind).value).result.value;
            && ObjectKey(gvr, ns, manifest.value.name) in p.store.objects
            && p.store.objects[ObjectKey(gvr, ns, manifest.value.name)] == p.result.value)
  {
  }

  /** Every stored object carries the name and namespace of the key it is stored under. */
  ghost predicate WellKeyed(s: Store) {
    forall k :: k in s.objects ==> s.objects[k].namespace == k.namespace && s.objects[k].name == k.name
  }

  /**
   * The document YAML returns is in the target namespace (the argument when non-empty,
   * else the manifest's own) and carries the manifest's name; the store stays well keyed.
   */
  lemma YamlResultIsInTargetNamespace(cache: Cache, discovery: DiscoveryResult, s: Store, denied: set<Verb>,
                                      namespace: string, manifest: Option<Object>, kind: string)
    requires WellKeyed(s)
    ensures var p := ApplyYaml(cache, discovery, s, denied, namespace, manifest, kind);
      && WellKeyed(p.store)
      && (p.result.Ok? ==>
            && p.result.value.namespace == (if namespace != "" then namespace else manifest.value.namespace)
            && p.result.value.name == manifest.value.name)
  {
  }

  /** The document JSON returns is in the namespace argument and carries the manifest's name; the store stays well keyed. */
  lemma JsonResultIsInTargetNamespace(cache: Cache, discovery: DiscoveryResult, s: Store, denied: set<Verb>,
                                      namespace: string, manifest: Option<Object>, kind: string)
    requires WellKeyed(s)
    ensures var p := ApplyJson(cache, discovery, s, denied, namespace, manifest, kind);
      && WellKeyed(p.store)
      && (p.result.Ok? ==> p.result.value.namespace == namespace && p.result.value.name == manifest.value.name)
  {
  }

  /** A restart keeps the store well keyed and returns the object stored under the requested name and namespace. */
  lemma RestartKeepsWellKeyed(cache: Cache, discovery: DiscoveryResult, s: Store, denied: set<Verb>,
                              kind: string, name: string, namespace: string, timestamp: string)
    requires WellKeyed(s)
    ensures var p := RolloutRestart(cache, discovery, s, denied, kind, name, namespace, timestamp);
      && WellKeyed(p.store)
      && (p.result.Ok? ==> p.result.value.namespace == namespace && p.result.value.name == name)
  {
  }

  /** Every namespaced object of the store lives in a namespace the store holds. */
  ghost predicate Consistent(s: Store) {
    forall k :: k in s.objects && k.namespace != "" ==> k.namespace in s.namespaces
  }

  /** Unlike the JSON variant, YAML into a namespace that does not exist fails, and changes nothing. */
  lemma YamlIntoMissingNamespaceFails(cache: Cache, discovery: DiscoveryResult, s: Store, denied: set<Verb>,
                                      namespace: string, manifest: Option<Object>, kind: string)
    requires Consistent(s)
    requires namespace != "" && namespace !in s.namespaces
    ensures var p := ApplyYaml(cache, discovery, s, denied, namespace, manifest, kind);
      p.result.Err? && p.store == s
  {
    var p := ApplyYaml(cache, discovery, s, denied, namespace, manifest, kind);
    if manifest.Some? && YamlKind(manifest, kind).Ok? && ResolveKind(cache, discovery, YamlKind(manifest, kind).value).result.Ok? {
      var gvr := ResolveKind(cache, discovery, YamlKind(manifest, kind).value).result.value;
      var key := ObjectKey(gvr, namespace, manifest.value.name);
      assert key !in s.objects;
    }
  }

  /**
   * JSON always targets the namespace argument: it looks the namespace up first, creates
   * it iff the lookup says NotFound, and aborts before any object request on any other
   * lookup error (an empty namespace is one). On success the namespace exists and the
   * object is stored under it.
   */
  lemma JsonNamespaceHandling(cache: Cache, discovery: DiscoveryResult, s: Store, denied: set<Verb>,
                              namespace: string, manifest: Option<Object>, kind: string)
    requires manifest.Some? && ResolveKind(cache, discovery, kind).result.Ok?
    ensures var p := ApplyJson(cache, discovery, s, denied, namespace, manifest, kind);
      var lookup := NamespaceGetAnswer(s, denied, namespace);
      var gvr := ResolveKind(cache, discovery, kind).result.value;
      && p.requests[0] == GetNamespaceCall(namespace)
      && (CreateNamespaceCall(namespace) in p.requests <==> lookup == Some(NotFound))
      && (lookup.Some? && lookup != Some(NotFound) ==>
            p.result == Err(NamespaceUnavailable(lookup.value)) && p.requests == [GetNamespaceCall(namespace)] && p.store == s)
      && (namespace == "" ==> p.result == Err(NamespaceUnavailable(EmptyName)))
      && (p.result.Ok? ==>
            && namespace in p.store.namespaces
            && ObjectKey(gvr, namespace, manifest.value.name) in p.store.objects
            && p.store.objects[ObjectKey(gvr, namespace, manifest.value.name)] == p.result.value)
  {
  }

  /**
   * The JSON variant checks the name only after it has made sure of the namespace, so a
   * call that fails for want of a name can still have created the namespace.
   */
  lemma JsonNamelessCallCanCreateNamespace(cache: Cache, discovery: DiscoveryResult, s: Store, denied: set<Verb>,
                                           namespace: string, manifest: Option<Object>, kind: string)
    requires manifest.Some? && manifest.value.name == "" && ResolveKind(cache, discovery, kind).result.Ok?
    requires namespace != "" && namespace !in s.namespaces
    requires GetNamespaceVerb !in denied && CreateNamespaceVerb !in denied
    ensures var p := ApplyJson(cache, discovery, s, denied, namespace, manifest, kind);
      && p.result == Err(NameRequired)
      && p.store.namespaces == s.namespaces + {namespace}
      && p.store.namespaces != s.namespaces
  {
  }

  /**
   * The template check comes after the patch: restarting an object without spec.template
   * reports an error although the patch was applied and the stored object changed.
   */
  lemma RestartFailsAfterPatching(cache: Cache, discovery: DiscoveryResult, s: Store, denied: set<Verb>,
                                  kind: string, name: string, namespace: string, timestamp: string)
    requires ResolveKind(cache, discovery, kind).result.Ok?
    requires var key := ObjectKey(ResolveKind(cache, discovery, kind).result.value, namespace, name);
      name != "" && PatchVerb !in denied && key in s.objects && s.objects[key].template.None?
    ensures var p := RolloutRestart(cache, discovery, s, denied, kind, name, namespace, timestamp);
      var key := ObjectKey(ResolveKind(cache, discovery, kind).result.value, namespace, name);
      && p.result == Err(NoPodTemplate(kind))
      && p.requests == [RestartPatchCall(key)]
      && p.store.objects[key] != s.objects[key]
      && p.store != s
  {
    var key := ObjectKey(ResolveKind(cache, discovery, kind).result.value, namespace, name);
    var p := RolloutRestart(cache, discovery, s, denied, kind, name, namespace, timestamp);
    assert p.store.objects[key].resourceVersion == s.objects[key].resourceVersion + 1;
  }

  /** A successful restart returns the stored object, whose pod template carries the restart timestamp. */
  lemma RestartStampsTemplate(cache: Cache, discovery: DiscoveryResult, s: Store, denied: set<Verb>,
                              kind: string, name: string, namespace: string, timestamp: string)
    ensures var p := RolloutRestart(cache, discovery, s, denied, kind, name, namespace, timestamp);
      && |p.requests| <= 1
      && (p.result.Ok? ==>
            var key := ObjectKey(ResolveKind(cache, discovery, kind).result.value, namespace, name);
            && key in p.store.objects && p.store.objects[key] == p.result.value
            && p.result.value.template.Some?
            && RestartedAtAnnotation in p.result.value.template.value
            && p.result.value.template.value[RestartedAtAnnotation] == timestamp)
      && (p.result.Err? && p.result.error.NoPodTemplate? ==> |p.requests| == 1)
  {
  }
}
