/**
 * The filter and projection steps that turn cluster answers into tool results: the
 * scope filter of `GetAPIResources`, the per-item summary of `ListResources`, and the
 * host-filtered ingress summary of `GetIngresses`. Each keeps the input order.
 */
module Projections {
  import opened Wrappers
  import opened Discovery
  import opened Cluster

  // ---------------------------------------------------------------- GetAPIResources

  /** A resource is kept when its scope (namespaced or cluster-wide) is asked for. */
  predicate InScope(r: APIResource, includeNamespaced: bool, includeCluster: bool) {
    !((r.namespaced && !includeNamespaced) || (!r.namespaced && !includeCluster))
  }

  /** The in-scope resources of all lists, in list order, then resource order. */
  function ScopeFiltered(lists: seq<APIResourceList>, includeNamespaced: bool, includeCluster: bool): seq<APIResource> {
    if lists == [] then []
    else ScopeFiltered(lists[..|lists| - 1], includeNamespaced, includeCluster)
         + InScopeOf(lists[|lists| - 1].apiResources, includeNamespaced, includeCluster)
  }

  function InScopeOf(rs: seq<APIResource>, includeNamespaced: bool, includeCluster: bool): seq<APIResource> {
    if rs == [] then []
    else InScopeOf(rs[..|rs| - 1], includeNamespaced, includeCluster)
         + (if InScope(rs[|rs| - 1], includeNamespaced, includeCluster) then [rs[|rs| - 1]] else [])
  }

  /** Every resource of every list, in order. */
  function Flattened(lists: seq<APIResourceList>): seq<APIResource> {
    if lists == [] then [] else Flattened(lists[..|lists| - 1]) + lists[|lists| - 1].apiResources
  }

  /**
   * `GetAPIResources`: a fatal discovery error is returned; otherwise (a group discovery
   * failure is tolerated) the in-scope resources of whatever lists came back. Unlike kind
   * resolution, no list is skipped for its groupVersion.
   */
  method GetAPIResources(discovery: DiscoveryResult, includeNamespaced: bool, includeCluster: bool)
    returns (r: Result<seq<APIResource>, string>)
    ensures discovery.status.DiscoveryFailed? ==> r == Err(discovery.status.reason)
    ensures !discovery.status.DiscoveryFailed? ==> r == Ok(ScopeFiltered(discovery.lists, includeNamespaced, includeCluster))
  {
    if discovery.status.DiscoveryFailed? {
      return Err(discovery.status.reason);
    }
    var lists := discovery.lists;
    var resources := [];
    for i := 0 to |lists|
      invariant resources == ScopeFiltered(lists[..i], includeNamespaced, includeCluster)
    {
      var rs := lists[i].apiResources;
      ghost var before := resources;
      for j := 0 to |rs|
        invariant resources == before + InScopeOf(rs[..j], includeNamespaced, includeCluster)
      {
        var resource := rs[j];
        if (resource.namespaced && !includeNamespaced) || (!resource.namespaced && !includeCluster) {
          assert rs[..j + 1][..j] == rs[..j];
          continue;
        }
        resources := resources + [resource];
        assert rs[..j + 1][..j] == rs[..j];
      }
      assert rs[..|rs|] == rs;
      assert lists[..i + 1][..i] == lists[..i];
    }
    assert lists[..|lists|] == lists;
    return Ok(resources);
  }

  lemma {:induction false} InScopeOfMembers(rs: seq<APIResource>, includeNamespaced: bool, includeCluster: bool, x: APIResource)
    ensures x in InScopeOf(rs, includeNamespaced, includeCluster) <==> x in rs && InScope(x, includeNamespaced, includeCluster)
    decreases |rs|
  {
    if rs != [] {
      var init := rs[..|rs| - 1];
      InScopeOfMembers(init, includeNamespaced, includeCluster, x);
      assert rs == init + [rs[|rs| - 1]];
    }
  }

  /** The filter keeps exactly the in-scope resources of the lists: nothing else, and none of them is lost. */
  lemma {:induction false} ScopeFilterKeepsExactlyInScope(lists: seq<APIResourceList>, includeNamespaced: bool, includeCluster: bool, x: APIResource)
    ensures x in ScopeFiltered(lists, includeNamespaced, includeCluster) <==>
              InScope(x, includeNamespaced, includeCluster) && x in Flattened(lists)
    decreases |lists|
  {
    if lists != [] {
      ScopeFilterKeepsExactlyInScope(lists[..|lists| - 1], includeNamespaced, includeCluster, x);
      InScopeOfMembers(lists[|lists| - 1].apiResources, includeNamespaced, includeCluster, x);
    }
  }

  lemma {:induction false} InScopeOfAll(rs: seq<APIResource>)
    ensures InScopeOf(rs, true, true) == rs
    decreases |rs|
  {
    if rs != [] {
      InScopeOfAll(rs[..|rs| - 1]);
      assert rs == rs[..|rs| - 1] + [rs[|rs| - 1]];
    }
  }

  /** Asking for both scopes returns every resource, in order. */
  lemma {:induction false} BothScopesKeepEverything(lists: seq<APIResourceList>)
    ensures ScopeFiltered(lists, true, true) == Flattened(lists)
    decreases |lists|
  {
    if lists != [] {
      BothScopesKeepEverything(lists[..|lists| - 1]);
      InScopeOfAll(lists[|lists| - 1].apiResources);
    }
  }

  // ---------------------------------------------------------------- ListResources

  /** The lightweight projection of a listed item. */
  datatype ResourceSummary = ResourceSummary(name: string, kind: string, namespace: string, labels: map<string, string>)

  /** `r` holds one summary per item, in list order, each with its item's own name, kind, namespace and labels. */
  predicate SummarizesEach(r: seq<ResourceSummary>, items: seq<Object>) {
    && |r| == |items|
    && forall i :: 0 <= i < |items| ==>
         r[i].name == items[i].name && r[i].kind == items[i].kind
         && r[i].namespace == items[i].namespace && r[i].labels == items[i].labels
  }

  /** The projection loop of `ListResources`. */
  method Summaries(items: seq<Object>) returns (r: seq<ResourceSummary>)
    ensures SummarizesEach(r, items)
  {
    r := [];
    for i := 0 to |items|
      invariant SummarizesEach(r, items[..i])
    {
      var item := items[i];
      r := r + [ResourceSummary(item.name, item.kind, item.namespace, item.labels)];
    }
  }

  // ---------------------------------------------------------------- GetIngresses

  /** One HTTP path of a rule; `serviceName` is the backend service's name when the backend is a service. */
  datatype IngressPath = IngressPath(path: string, serviceName: Option<string>)

  /** A rule: its host and, when it has an HTTP section, that section's paths. */
  datatype IngressRule = IngressRule(host: string, http: Option<seq<IngressPath>>)

  datatype Ingress = Ingress(name: string, namespace: string, rules: seq<IngressRule>)

  datatype IngressSummary = IngressSummary(name: string, namespace: string, paths: seq<string>, backendServices: seq<string>)

  /** With no host filter every rule matches; otherwise only rules for exactly that host. */
  predicate RuleMatches(rule: IngressRule, host: string) {
    host == "" || rule.host == host
  }

  function HttpPaths(rule: IngressRule): seq<IngressPath> {
    if rule.http.Some? then rule.http.value else []
  }

  function PathNames(ps: seq<IngressPath>): seq<string> {
    if ps == [] then [] else PathNames(ps[..|ps| - 1]) + [ps[|ps| - 1].path]
  }

  function ServiceNames(ps: seq<IngressPath>): seq<string> {
    if ps == [] then []
    else ServiceNames(ps[..|ps| - 1])
         + (if ps[|ps| - 1].serviceName.Some? then [ps[|ps| - 1].serviceName.value] else [])
  }

  /** The paths of the matching rules, in rule order. */
  function MatchedPaths(rules: seq<IngressRule>, host: string): seq<string> {
    if rules == [] then []
    else MatchedPaths(rules[..|rules| - 1], host)
         + (if RuleMatches(rules[|rules| - 1], host) then PathNames(HttpPaths(rules[|rules| - 1])) else [])
  }

  /** The backend service names of the matching rules' paths, in order. */
  function MatchedServices(rules: seq<IngressRule>, host: string): seq<string> {
    if rules == [] then []
    else MatchedServices(rules[..|rules| - 1], host)
         + (if RuleMatches(rules[|rules| - 1], host) then ServiceNames(HttpPaths(rules[|rules| - 1])) else [])
  }

  predicate HasMatchingRule(ingress: Ingress, host: string) {
    exists k :: 0 <= k < |ingress.rules| && RuleMatches(ingress.rules[k], host)
  }

  /** An ingress is reported iff one of its rules matches; it then carries the matching rules' paths and services. */
  function Summarize(ingress: Ingress, host: string): Option<IngressSummary> {
    if HasMatchingRule(ingress, host) then
      Some(IngressSummary(ingress.name, ingress.namespace, MatchedPaths(ingress.rules, host), MatchedServices(ingress.rules, host)))
    else None
  }

  /** The summaries of the reported ingresses, in list order. */
  function SummarizeAll(ingresses: seq<Ingress>, host: string): seq<IngressSummary> {
    if ingresses == [] then []
    else
      var s := Summarize(ingresses[|ingresses| - 1], host);
      SummarizeAll(ingresses[..|ingresses| - 1], host) + (if s.Some? then [s.value] else [])
  }

  /** The path loop for one matching rule: appends its paths and its service backends' names. */
  method CollectRulePaths(rule: IngressRule, paths: seq<string>, services: seq<string>)
    returns (paths': seq<string>, services': seq<string>)
    ensures paths' == paths + PathNames(HttpPaths(rule))
    ensures services' == services + ServiceNames(HttpPaths(rule))
  {
    paths', services' := paths, services;
    var ps := HttpPaths(rule);
    for k := 0 to |ps|
      invariant paths' == paths + PathNames(ps[..k])
      invariant services' == services + ServiceNames(ps[..k])
    {
      assert ps[..k + 1][..k] == ps[..k];
      paths' := paths' + [ps[k].path];
      if ps[k].serviceName.Some? {
        services' := services' + [ps[k].serviceName.value];
      }
    }
    assert ps[..|ps|] == ps;
  }

  /** The rule loop for one ingress: whether some rule matched, and the matching rules' paths and services. */
  method SummarizeIngress(ingress: Ingress, host: string) returns (s: Option<IngressSummary>)
    ensures s == Summarize(ingress, host)
  {
    var rules := ingress.rules;
    var hasMatchingHost := false;
    var matchingPaths := [];
    var matchingBackendServices := [];
    for j := 0 to |rules|
      invariant hasMatchingHost <==> exists k :: 0 <= k < j && RuleMatches(rules[k], host)
      invariant matchingPaths == MatchedPaths(rules[..j], host)
      invariant matchingBackendServices == MatchedServices(rules[..j], host)
    {
      var rule := rules[j];
      assert rules[..j + 1][..j] == rules[..j];
      if host != "" && rule.host != host {
        continue;
      }
      hasMatchingHost := true;
      matchingPaths, matchingBackendServices := CollectRulePaths(rule, matchingPaths, matchingBackendServices);
    }
    assert rules[..|rules|] == rules;
    if hasMatchingHost {
      return Some(IngressSummary(ingress.name, ingress.namespace, matchingPaths, matchingBackendServices));
    }
    return None;
  }

  /** `GetIngresses(host)`: a failed list is returned as an error; otherwise the host-filtered summaries. */
  method GetIngresses(listed: Result<seq<Ingress>, ClusterError>, host: string)
    returns (r: Result<seq<IngressSummary>, ClusterError>)
    ensures listed.Err? ==> r == Err(listed.error)
    ensures listed.Ok? ==> r == Ok(SummarizeAll(listed.value, host))
  {
    if listed.Err? {
      return Err(listed.error);
    }
    var ingresses := listed.value;
    var ingressList := [];
    for i := 0 to |ingresses|
      invariant ingressList == SummarizeAll(ingresses[..i], host)
    {
      var s := SummarizeIngress(ingresses[i], host);
      if s.Some? {
        ingressList := ingressList + [s.value];
      }
      assert ingresses[..i + 1][..i] == ingresses[..i];
    }
    assert ingresses[..|ingresses|] == ingresses;
    return Ok(ingressList);
  }

  /** Host filtering is sound: every reported path belongs to a rule that matches the host. */
  lemma {:induction false} MatchedPathsComeFromMatchingRules(rules: seq<IngressRule>, host: string, p: string)
    requires p in MatchedPaths(rules, host)
    ensures exists k :: 0 <= k < |rules| && RuleMatches(rules[k], host) && p in PathNames(HttpPaths(rules[k]))
    decreases |rules|
  {
    var last := |rules| - 1;
    if p in MatchedPaths(rules[..last], host) {
      MatchedPathsComeFromMatchingRules(rules[..last], host, p);
      var k :| 0 <= k < |rules[..last]| && RuleMatches(rules[..last][k], host) && p in PathNames(HttpPaths(rules[..last][k]));
      assert rules[..last][k] == rules[k];
    } else {
      assert RuleMatches(rules[last], host) && p in PathNames(HttpPaths(rules[last]));
    }
  }

  /** Without a host filter, an ingress is reported iff it has at least one rule. */
  lemma NoHostFilterReportsRuledIngresses(ingress: Ingress)
    ensures Summarize(ingress, "").Some? <==> |ingress.rules| > 0
  {
    if |ingress.rules| > 0 {
      assert RuleMatches(ingress.rules[0], "");
    }
  }

  /** Order is kept: summarizing two runs of ingresses is summarizing each and concatenating. */
  lemma {:induction false} SummarizeAllAppend(a: seq<Ingress>, b: seq<Ingress>, host: string)
    ensures SummarizeAll(a + b, host) == SummarizeAll(a, host) + SummarizeAll(b, host)
    decreases |b|
  {
    if b == [] {
      assert a + b == a;
    } else {
      var b' := b[..|b| - 1];
      assert (a + b)[..|a + b| - 1] == a + b';
      SummarizeAllAppend(a, b', host);
    }
  }

  /** A summary is reported iff it is the summary of some listed ingress. */
  lemma {:induction false} SummarizeAllMembers(ingresses: seq<Ingress>, host: string, s: IngressSummary)
    ensures s in SummarizeAll(ingresses, host) <==>
              exists i :: 0 <= i < |ingresses| && Summarize(ingresses[i], host) == Some(s)
    decreases |ingresses|
  {
    if ingresses != [] {
      var init := ingresses[..|ingresses| - 1];
      SummarizeAllMembers(init, host, s);
      if exists i :: 0 <= i < |init| && Summarize(init[i], host) == Some(s) {
        var i :| 0 <= i < |init| && Summarize(init[i], host) == Some(s);
        assert ingresses[i] == init[i];
      }
      if exists i :: 0 <= i < |ingresses| && Summarize(ingresses[i], host) == Some(s) {
        var i :| 0 <= i < |ingresses| && Summarize(ingresses[i], host) == Some(s);
        if i < |init| {
          assert init[i] == ingresses[i];
        }
      }
    }
  }
}
