/**
 * The API server as this layer sees it: a store of objects keyed by
 * (resource, namespace, name) plus a set of namespaces. The server's answer to each
 * request the client makes is a function of the store; `denied` names the verbs the
 * server refuses (Forbidden), standing for authorization, admission and every other
 * refusal this model does not look into.
 */
module Cluster {
  import opened Wrappers
  import opened Discovery

  const RestartedAtAnnotation := "kubectl.kubernetes.io/restartedAt"

  /**
   * An unstructured resource document, reduced to what this layer reads or writes:
   * identity (kind, name, namespace), labels, the remaining content as flat `fields`,
   * the pod-template annotations when the document has a `spec.template`, and the
   * server-populated resourceVersion.
   */
  datatype Object = Object(
    kind: string,
    name: string,
    namespace: string,
    labels: map<string, string>,
    fields: map<string, string>,
    template: Option<map<string, string>>,
    resourceVersion: nat)

  datatype ObjectKey = ObjectKey(resource: GroupVersionResource, namespace: string, name: string)

  datatype Store = Store(objects: map<ObjectKey, Object>, namespaces: set<string>)

  /**
   * NotFound is the one error kind the client tells apart. EmptyName is client-go's local
   * refusal of an empty name, given before any request is sent: "resource name may not be
   * empty" from the typed client (the namespace lookup), "name is required" from the
   * dynamic client (the patches). BadRequest is the server's refusal of a patch whose
   * body names another namespace than the request.
   */
  datatype ClusterError = NotFound | AlreadyExists | Forbidden | EmptyName | BadRequest

  datatype Verb = GetNamespaceVerb | CreateNamespaceVerb | PatchVerb | CreateVerb

  /**
   * The calls the client makes through client-go, in order. A call that client-go
   * refuses locally for an empty name (answered EmptyName) is recorded too, although it
   * never reaches the server.
   */
  datatype Request =
    | GetNamespaceCall(namespace: string)
    | CreateNamespaceCall(namespace: string)
    | MergePatchCall(key: ObjectKey)
    | CreateCall(key: ObjectKey)
    | RestartPatchCall(key: ObjectKey)

  /** The server's answer to a write: the returned object or an error, and the store afterwards. */
  datatype Answer = Answer(result: Result<Object, ClusterError>, store: Store)

  /** The answer to a namespace creation: None on success. */
  datatype NamespaceAnswer = NamespaceAnswer(err: Option<ClusterError>, store: Store)

  /** A JSON merge patch restricted to flat documents: the patch's entries override the stored ones. */
  function MergePatch(existing: Object, patch: Object): (o: Object)
    ensures o.kind == existing.kind && o.name == existing.name && o.namespace == existing.namespace
    ensures o.fields.Keys == existing.fields.Keys + patch.fields.Keys
    ensures forall k :: k in patch.fields ==> o.fields[k] == patch.fields[k]
    ensures forall k :: k in existing.fields && k !in patch.fields ==> o.fields[k] == existing.fields[k]
    ensures o.labels.Keys == existing.labels.Keys + patch.labels.Keys
    ensures forall k :: k in patch.labels ==> o.labels[k] == patch.labels[k]
    ensures forall k :: k in existing.labels && k !in patch.labels ==> o.labels[k] == existing.labels[k]
    ensures patch.template.None? ==> o.template == existing.template
    ensures patch.template.Some? ==> o.template.Some?
    ensures patch.template.Some? && existing.template.None? ==> o.template == patch.template
    ensures patch.template.Some? && existing.template.Some? ==>
              && o.template.value.Keys == existing.template.value.Keys + patch.template.value.Keys
              && (forall k :: k in patch.template.value ==> o.template.value[k] == patch.template.value[k])
              && (forall k :: k in existing.template.value && k !in patch.template.value ==>
                    o.template.value[k] == existing.template.value[k])
    ensures o.resourceVersion == existing.resourceVersion + 1
  {
    existing.(
      labels := existing.labels + patch.labels,
      fields := existing.fields + patch.fields,
      template :=
        if patch.template.None? then existing.template
        else if existing.template.None? then patch.template
        else Some(existing.template.value + patch.template.value),
      resourceVersion := existing.resourceVersion + 1)
  }

  /**
   * The strategic patch that stamps the restart annotation onto the pod template. The
   * server accepts it whether or not the object has a template; only an object that has
   * one gets the annotation.
   */
  function RestartPatch(existing: Object, timestamp: string): (o: Object)
    ensures o.kind == existing.kind && o.name == existing.name && o.namespace == existing.namespace
    ensures o.labels == existing.labels && o.fields == existing.fields
    ensures o.template.Some? <==> existing.template.Some?
    ensures o.template.Some? ==> RestartedAtAnnotation in o.template.value && o.template.value[RestartedAtAnnotation] == timestamp
    ensures o.template.Some? ==>
              && o.template.value.Keys == existing.template.value.Keys + {RestartedAtAnnotation}
              && forall k :: k in existing.template.value && k != RestartedAtAnnotation ==>
                   o.template.value[k] == existing.template.value[k]
    ensures o.resourceVersion == existing.resourceVersion + 1
  {
    existing.(
      template := if existing.template.None? then None else Some(existing.template.value[RestartedAtAnnotation := timestamp]),
      resourceVersion := existing.resourceVersion + 1)
  }

  /** GET of a namespace: None when it exists. */
  function NamespaceGetAnswer(s: Store, denied: set<Verb>, namespace: string): Option<ClusterError> {
    if namespace == "" then Some(EmptyName)
    else if GetNamespaceVerb in denied then Some(Forbidden)
    else if namespace in s.namespaces then None
    else Some(NotFound)
  }

  function NamespaceCreateAnswer(s: Store, denied: set<Verb>, namespace: string): NamespaceAnswer {
    if CreateNamespaceVerb in denied then NamespaceAnswer(Some(Forbidden), s)
    else if namespace in s.namespaces then NamespaceAnswer(Some(AlreadyExists), s)
    else NamespaceAnswer(None, s.(namespaces := s.namespaces + {namespace}))
  }

  /**
   * A merge patch of the object at `key`: NotFound when there is none; BadRequest when the
   * body names a namespace other than the request's, since the patched object would then
   * leave the namespace it is requested in.
   */
  function PatchAnswer(s: Store, denied: set<Verb>, key: ObjectKey, patch: Object): Answer {
    if key.name == "" then Answer(Err(EmptyName), s)
    else if PatchVerb in denied then Answer(Err(Forbidden), s)
    else if key !in s.objects then Answer(Err(NotFound), s)
    else if patch.namespace != "" && patch.namespace != key.namespace then Answer(Err(BadRequest), s)
    else
      var o := MergePatch(s.objects[key], patch);
      Answer(Ok(o), s.(objects := s.objects[key := o]))
  }

  /** The restart patch of the object at `key`. */
  function RestartAnswer(s: Store, denied: set<Verb>, key: ObjectKey, timestamp: string): Answer {
    if key.name == "" then Answer(Err(EmptyName), s)
    else if PatchVerb in denied then Answer(Err(Forbidden), s)
    else if key !in s.objects then Answer(Err(NotFound), s)
    else
      var o := RestartPatch(s.objects[key], timestamp);
      Answer(Ok(o), s.(objects := s.objects[key := o]))
  }

  /** A create at `key`: refused if the object exists or its namespace does not. */
  function CreateAnswer(s: Store, denied: set<Verb>, key: ObjectKey, obj: Object): Answer {
    if CreateVerb in denied then Answer(Err(Forbidden), s)
    else if key.namespace != "" && key.namespace !in s.namespaces then Answer(Err(NotFound), s)
    else if key in s.objects then Answer(Err(AlreadyExists), s)
    else
      var o := obj.(resourceVersion := 1);
      Answer(Ok(o), s.(objects := s.objects[key := o]))
  }

  /** The cluster: its store changes under the client's requests, and a ghost log records each call made. */
  class Cluster {
    var store: Store
    const denied: set<Verb>
    ghost var requests: seq<Request>

    constructor (initial: Store, denied: set<Verb>)
      ensures store == initial && this.denied == denied && requests == []
    {
      store := initial;
      this.denied := denied;
      requests := [];
    }

    method GetNamespace(namespace: string) returns (err: Option<ClusterError>)
      modifies this
      ensures err == NamespaceGetAnswer(old(store), denied, namespace)
      ensures store == old(store) && requests == old(requests) + [GetNamespaceCall(namespace)]
    {
      err := NamespaceGetAnswer(store, denied, namespace);
      requests := requests + [GetNamespaceCall(namespace)];
    }

    method CreateNamespace(namespace: string) returns (err: Option<ClusterError>)
      modifies this
      ensures var a := NamespaceCreateAnswer(old(store), denied, namespace);
        err == a.err && store == a.store && requests == old(requests) + [CreateNamespaceCall(namespace)]
    {
      var a := NamespaceCreateAnswer(store, denied, namespace);
      err, store := a.err, a.store;
      requests := requests + [CreateNamespaceCall(namespace)];
    }

    method Patch(key: ObjectKey, patch: Object) returns (r: Result<Object, ClusterError>)
      modifies this
      ensures var a := PatchAnswer(old(store), denied, key, patch);
        r == a.result && store == a.store && requests == old(requests) + [MergePatchCall(key)]
    {
      var a := PatchAnswer(store, denied, key, patch);
      r, store := a.result, a.store;
      requests := requests + [MergePatchCall(key)];
    }

    method Create(key: ObjectKey, obj: Object) returns (r: Result<Object, ClusterError>)
      modifies this
      ensures var a := CreateAnswer(old(store), denied, key, obj);
        r == a.result && store == a.store && requests == old(requests) + [CreateCall(key)]
    {
      var a := CreateAnswer(store, denied, key, obj);
      r, store := a.result, a.store;
      requests := requests + [CreateCall(key)];
    }

    method StrategicRestartPatch(key: ObjectKey, timestamp: string) returns (r: Result<Object, ClusterError>)
      modifies this
      ensures var a := RestartAnswer(old(store), denied, key, timestamp);
        r == a.result && store == a.store && requests == old(requests) + [RestartPatchCall(key)]
    {
      var a := RestartAnswer(store, denied, key, timestamp);
      r, store := a.result, a.store;
      requests := requests + [RestartPatchCall(key)];
    }
  }
}
