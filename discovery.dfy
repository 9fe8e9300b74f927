/**
 * Kind resolution: mapping a kind name to its (group, version, resource) coordinates
 * from a discovery result, and the pure specification of the cached lookup.
 */
module Discovery {
  import opened Wrappers

  datatype GroupVersion = GroupVersion(group: string, version: string)

  datatype GroupVersionResource = GroupVersionResource(group: string, version: string, resource: string)

  /** One entry of a discovery list: `name` is the plural resource name. */
  datatype APIResource = APIResource(
    name: string,
    singularName: string,
    namespaced: bool,
    kind: string,
    group: string,
    version: string,
    verbs: seq<string>)

  /** One discovery list; `groupVersion` is None when the list's groupVersion string does not parse. */
  datatype APIResourceList = APIResourceList(groupVersion: Option<GroupVersion>, apiResources: seq<APIResource>)

  /** How the discovery call ended: fully, with some groups failing (tolerated), or with a fatal error. */
  datatype DiscoveryStatus = Complete | GroupDiscoveryFailed | DiscoveryFailed(reason: string)

  /** The answer of `ServerPreferredResources()`: the lists it returned and how it ended. */
  datatype DiscoveryResult = DiscoveryResult(lists: seq<APIResourceList>, status: DiscoveryStatus)

  datatype ResolveError = DiscoveryUnavailable(reason: string) | KindNotFound(kind: string)

  type Cache = map<string, GroupVersionResource>

  /** Resource j of list i has exactly the kind `kind` (case-sensitive) and list i's groupVersion parsed. */
  ghost predicate MatchAt(lists: seq<APIResourceList>, kind: string, i: int, j: int) {
    && 0 <= i < |lists|
    && lists[i].groupVersion.Some?
    && 0 <= j < |lists[i].apiResources|
    && lists[i].apiResources[j].kind == kind
  }

  /** (i, j) is a match and no match precedes it in list order, then resource order. */
  ghost predicate IsFirstMatch(lists: seq<APIResourceList>, kind: string, i: int, j: int) {
    && MatchAt(lists, kind, i, j)
    && forall i', j' :: MatchAt(lists, kind, i', j') ==> i < i' || (i == i' && j <= j')
  }

  /** The coordinates that resource j of list i stands for. */
  function CoordinatesAt(lists: seq<APIResourceList>, i: nat, j: nat): GroupVersionResource
    requires i < |lists| && lists[i].groupVersion.Some? && j < |lists[i].apiResources|
  {
    GroupVersionResource(lists[i].groupVersion.value.group, lists[i].groupVersion.value.version,
                         lists[i].apiResources[j].name)
  }

  /** The index of the first resource of kind `kind`. */
  function IndexOfKind(resources: seq<APIResource>, kind: string): (r: Option<nat>)
    ensures r.Some? ==> r.value < |resources| && resources[r.value].kind == kind
    ensures r.Some? ==> forall j :: 0 <= j < r.value ==> resources[j].kind != kind
    ensures r.None? ==> forall j :: 0 <= j < |resources| ==> resources[j].kind != kind
  {
    if resources == [] then None
    else if resources[0].kind == kind then Some(0)
    else match IndexOfKind(resources[1..], kind)
      case None => None
      case Some(j) => Some(j + 1)
  }

  /** The coordinates of the first resource of kind `kind`, skipping lists whose groupVersion does not parse. */
  function FindKind(lists: seq<APIResourceList>, kind: string): Option<GroupVersionResource>
    decreases |lists|
  {
    if lists == [] then None
    else
      var hit := if lists[0].groupVersion.Some? then IndexOfKind(lists[0].apiResources, kind) else None;
      match hit
      case Some(j) => Some(CoordinatesAt(lists, 0, j))
      case None => FindKind(lists[1..], kind)
  }

  /** Matches in `lists[1..]` are the matches of `lists` shifted by one list. */
  lemma MatchAtTail(lists: seq<APIResourceList>, kind: string, i: int, j: int)
    requires lists != [] && 0 <= i
    ensures MatchAt(lists[1..], kind, i, j) <==> MatchAt(lists, kind, i + 1, j)
  {
    if i < |lists[1..]| {
      assert lists[1..][i] == lists[i + 1];
    }
  }

  /**
   * FindKind is the first match: it is None exactly when no list with a parsable
   * groupVersion holds a resource of that kind, and otherwise it gives the coordinates
   * of the first such resource in list order, then resource order.
   */
  lemma {:induction false} FindKindIsFirstMatch(lists: seq<APIResourceList>, kind: string)
    ensures FindKind(lists, kind).None? <==> forall i, j :: !MatchAt(lists, kind, i, j)
    ensures FindKind(lists, kind).Some? ==>
              exists i: nat, j: nat :: IsFirstMatch(lists, kind, i, j) && i < |lists| && lists[i].groupVersion.Some?
                && j < |lists[i].apiResources| && FindKind(lists, kind) == Some(CoordinatesAt(lists, i, j))
    decreases |lists|
  {
    if lists == [] {
      return;
    }
    var hit := if lists[0].groupVersion.Some? then IndexOfKind(lists[0].apiResources, kind) else None;
    if hit.Some? {
      var j := hit.value;
      assert MatchAt(lists, kind, 0, j);
      forall i', j' | MatchAt(lists, kind, i', j') ensures 0 < i' || (0 == i' && j <= j') {
      }
      assert IsFirstMatch(lists, kind, 0, j);
    } else {
      FindKindIsFirstMatch(lists[1..], kind);
      forall j' ensures !MatchAt(lists, kind, 0, j') {
      }
      forall i', j' ensures MatchAt(lists, kind, i', j') <==> (i' >= 1 && MatchAt(lists[1..], kind, i' - 1, j')) {
        if i' >= 1 { MatchAtTail(lists, kind, i' - 1, j'); }
      }
      if FindKind(lists[1..], kind).Some? {
        var i: nat, j: nat :| IsFirstMatch(lists[1..], kind, i, j) && i < |lists[1..]| && lists[1..][i].groupVersion.Some?
                    && j < |lists[1..][i].apiResources| && FindKind(lists[1..], kind) == Some(CoordinatesAt(lists[1..], i, j));
        MatchAtTail(lists, kind, i, j);
        assert IsFirstMatch(lists, kind, i + 1, j);
        assert CoordinatesAt(lists[1..], i, j) == CoordinatesAt(lists, i + 1, j);
      } else {
        forall i', j' ensures !MatchAt(lists, kind, i', j') {
          if i' >= 1 { MatchAtTail(lists, kind, i' - 1, j'); }
        }
      }
    }
  }

  /** The outcome of a cached lookup: the result, the cache afterwards, and whether discovery was called. */
  datatype Lookup = Lookup(result: Result<GroupVersionResource, ResolveError>, cache: Cache, discovered: bool)

  /**
   * The specification of `getCachedGVR`: a hit answers from the cache without discovery;
   * a miss calls discovery, propagates a fatal discovery error, tolerates group failures,
   * and caches the first match. A kind that is not found is never cached.
   */
  function ResolveKind(cache: Cache, discovery: DiscoveryResult, kind: string): Lookup {
    if kind in cache then Lookup(Ok(cache[kind]), cache, false)
    else if discovery.status.DiscoveryFailed? then
      Lookup(Err(DiscoveryUnavailable(discovery.status.reason)), cache, true)
    else
      match FindKind(discovery.lists, kind)
      case None => Lookup(Err(KindNotFound(kind)), cache, true)
      case Some(gvr) => Lookup(Ok(gvr), cache[kind := gvr], true)
  }

  /**
   * The cache properties: a hit returns the stored coordinates, calls no discovery and
   * keeps the cache; a miss always calls discovery; a successful miss adds exactly the
   * entry for `kind`, holding the first match in discovery order; every failure leaves
   * the cache as it was.
   */
  lemma ResolveKindContract(cache: Cache, discovery: DiscoveryResult, kind: string)
    ensures var o := ResolveKind(cache, discovery, kind);
      && (kind in cache ==> o == Lookup(Ok(cache[kind]), cache, false))
      && (kind !in cache ==> o.discovered)
      && (o.result.Err? ==> o.cache == cache)
      && (discovery.status.DiscoveryFailed? && kind !in cache ==> o.result == Err(DiscoveryUnavailable(discovery.status.reason)))
      && (kind !in cache && o.result.Ok? ==>
            && o.cache.Keys == cache.Keys + {kind}
            && o.cache[kind] == o.result.value
            && (forall k :: k in cache ==> o.cache[k] == cache[k])
            && exists i: nat, j: nat :: IsFirstMatch(discovery.lists, kind, i, j) && i < |discovery.lists|
                 && discovery.lists[i].groupVersion.Some? && j < |discovery.lists[i].apiResources|
                 && o.result.value == CoordinatesAt(discovery.lists, i, j))
      && (kind !in cache && !discovery.status.DiscoveryFailed? ==>
            (o.result == Err(KindNotFound(kind)) <==> forall i, j :: !MatchAt(discovery.lists, kind, i, j)))
  {
    FindKindIsFirstMatch(discovery.lists, kind);
  }

  /** No negative caching: a kind not found stays a miss, so asking again calls discovery again. */
  lemma NotFoundIsRediscovered(cache: Cache, d1: DiscoveryResult, d2: DiscoveryResult, kind: string)
    requires ResolveKind(cache, d1, kind).result == Err(KindNotFound(kind))
    ensures ResolveKind(ResolveKind(cache, d1, kind).cache, d2, kind).discovered
  {
  }

  /** After a successful resolution, asking again returns the same coordinates without discovery, whatever discovery would say. */
  lemma ResolvedKindIsCached(cache: Cache, d1: DiscoveryResult, d2: DiscoveryResult, kind: string)
    requires ResolveKind(cache, d1, kind).result.Ok?
    ensures var first := ResolveKind(cache, d1, kind);
      ResolveKind(first.cache, d2, kind) == Lookup(first.result, first.cache, false)
  {
  }
}
