/** The node-zone cache of the Kubernetes client, and the availability zones used by a list of pods. */
module Zones {
  import opened Wrappers

  const ZONE_LABEL := "topology.kubernetes.io/zone"

  /** A pod; an unscheduled one has no node. */
  datatype Pod = Pod(nodeName: string)

  /** What reading each node returns at some moment; a node not listed does not exist. */
  type Nodes = map<string, Reply<map<string, string>>>

  /** The zone as the API server tells it. */
  function UncachedZone(nodes: Nodes, name: string): Reply<string> {
    if name !in nodes then Err(Error(NotFound, name))
    else match nodes[name]
      case Err(e) => Err(e)
      case Got(labels) =>
        if ZONE_LABEL !in labels || labels[ZONE_LABEL] == "" then Err(Error(ZoneLabelMissing, name))
        else Got(labels[ZONE_LABEL])
  }

  /** The node can be read and is labelled with this zone. */
  predicate ZoneLabelled(nodes: Nodes, name: string, zone: string) {
    && name in nodes && nodes[name].Got?
    && "topology.kubernetes.io/zone" in nodes[name].value && nodes[name].value["topology.kubernetes.io/zone"] == zone
    && zone != ""
  }

  type Cache = map<string, string>

  function CachedZone(cache: Cache, nodes: Nodes, name: string): Reply<string> {
    if name in cache && cache[name] != "" then Got(cache[name]) else UncachedZone(nodes, name)
  }

  predicate Scheduled(p: Pod) {
    p.nodeName != ""
  }

  /** The zones of the scheduled pods. */
  function ZoneSet(cache: Cache, nodes: Nodes, pods: seq<Pod>): set<string> {
    set p | p in pods && Scheduled(p) && CachedZone(cache, nodes, p.nodeName).Got? ::
      CachedZone(cache, nodes, p.nodeName).value
  }

  predicate AllResolve(cache: Cache, nodes: Nodes, pods: seq<Pod>) {
    forall p :: p in pods && Scheduled(p) ==> CachedZone(cache, nodes, p.nodeName).Got?
  }

  /** The first scheduled pod whose zone does not resolve, and why. */
  predicate FirstUnresolved(cache: Cache, nodes: Nodes, pods: seq<Pod>, i: nat, error: Error)
    requires i < |pods|
  {
    && Scheduled(pods[i]) && CachedZone(cache, nodes, pods[i].nodeName) == Err(error)
    && AllResolve(cache, nodes, pods[..i])
  }

  /** `later` keeps every usable entry of `cache` and adds only zones the lookups gave. */
  ghost predicate Grown(cache: Cache, later: Cache, nodes: Nodes) {
    && (forall n :: n in cache && cache[n] != "" ==> n in later && later[n] == cache[n])
    && (forall n :: n in later && (n !in cache || later[n] != cache[n]) ==> CachedZone(cache, nodes, n) == Got(later[n]))
  }

  class KubeClient {
    var nodesZoneCache: Cache

    constructor ()
      ensures nodesZoneCache == map[]
    {
      nodesZoneCache := map[];
    }

    method GetNodeZone(nodes: Nodes, name: string) returns (r: Reply<string>)
      modifies this
      ensures r == CachedZone(old(nodesZoneCache), nodes, name)
      ensures var cache := old(nodesZoneCache);
              if name in cache && cache[name] != "" then r == Got(cache[name])
              else (forall zone :: r == Got(zone) <==> ZoneLabelled(nodes, name, zone))
      ensures r.Err? ==>
                r.error.kind == (if name !in nodes then NotFound else if nodes[name].Err? then nodes[name].error.kind else ZoneLabelMissing)
      ensures nodesZoneCache == if r.Got? then old(nodesZoneCache)[name := r.value] else old(nodesZoneCache)
    {
      if name in nodesZoneCache && nodesZoneCache[name] != "" {
        return Got(nodesZoneCache[name]);
      }
      if name !in nodes {
        return Err(Error(NotFound, name));
      }
      var node := nodes[name];
      if node.Err? {
        return Err(node.error);
      }
      var labels := node.value;
      if ZONE_LABEL !in labels || labels[ZONE_LABEL] == "" {
        return Err(Error(ZoneLabelMissing, name));
      }
      nodesZoneCache := nodesZoneCache[name := labels[ZONE_LABEL]];
      return Got(labels[ZONE_LABEL]);
    }

    /** Counts the zones of the scheduled pods, or stops at the first pod whose zone cannot be resolved. */
    method GetNumberOfAvailabilityZonesUsedByPods(listed: Reply<seq<Pod>>, nodes: Nodes) returns (r: Reply<int>)
      modifies this
      ensures listed.Err? ==> r == Err(listed.error) && nodesZoneCache == old(nodesZoneCache)
      ensures listed.Got? ==> (r.Got? <==> AllResolve(old(nodesZoneCache), nodes, listed.value))
      ensures listed.Got? && r.Got? ==> r.value == |ZoneSet(old(nodesZoneCache), nodes, listed.value)|
      ensures listed.Got? && r.Err? ==>
                exists i :: 0 <= i < |listed.value| && FirstUnresolved(old(nodesZoneCache), nodes, listed.value, i, r.error)
      ensures Grown(old(nodesZoneCache), nodesZoneCache, nodes)
    {
      if listed.Err? {
        return Err(listed.error);
      }
      var pods := listed.value;
      var podZonesSet: set<string> := {};
      ghost var cache := nodesZoneCache;
      hide ZoneSet, AllResolve, CachedZone;
      NoPods(cache, nodes, pods[..0]);
      for i := 0 to |pods|
        invariant Grown(cache, nodesZoneCache, nodes)
        invariant AllResolve(cache, nodes, pods[..i])
        invariant podZonesSet == ZoneSet(cache, nodes, pods[..i])
      {
        OnePodMore(cache, nodes, pods, i);
        if pods[i].nodeName != "" {
          GrownSameZone(cache, nodesZoneCache, nodes, pods[i].nodeName);
          var zone := GetNodeZone(nodes, pods[i].nodeName);
          if zone.Err? {
            assert FirstUnresolved(cache, nodes, pods, i, zone.error);
            UnresolvedStops(cache, nodes, pods, i);
            return Err(zone.error);
          }
          podZonesSet := podZonesSet + {zone.value};
        }
      }
      assert pods[..|pods|] == pods;
      return Got(|podZonesSet|);
    }
  }

  lemma NoPods(cache: Cache, nodes: Nodes, pods: seq<Pod>)
    requires pods == []
    ensures ZoneSet(cache, nodes, pods) == {} && AllResolve(cache, nodes, pods)
  {
  }

  /** What one more pod adds to the zones. */
  lemma OnePodMore(cache: Cache, nodes: Nodes, pods: seq<Pod>, i: nat)
    requires i < |pods|
    ensures var r := CachedZone(cache, nodes, pods[i].nodeName);
            && ZoneSet(cache, nodes, pods[..i + 1]) ==
                 ZoneSet(cache, nodes, pods[..i]) + (if Scheduled(pods[i]) && r.Got? then {r.value} else {})
            && (AllResolve(cache, nodes, pods[..i + 1]) <==> AllResolve(cache, nodes, pods[..i]) && (Scheduled(pods[i]) ==> r.Got?))
  {
    hide CachedZone;
    assert pods[..i + 1] == pods[..i] + [pods[i]];
  }

  lemma UnresolvedStops(cache: Cache, nodes: Nodes, pods: seq<Pod>, i: nat)
    requires i < |pods| && Scheduled(pods[i]) && CachedZone(cache, nodes, pods[i].nodeName).Err?
    ensures !AllResolve(cache, nodes, pods)
  {
    hide CachedZone;
    assert pods[i] in pods;
  }

  lemma GrownSameZone(cache: Cache, later: Cache, nodes: Nodes, name: string)
    requires Grown(cache, later, nodes)
    ensures CachedZone(later, nodes, name) == CachedZone(cache, nodes, name)
  {
  }

  // ---- The cache refines the lookup ----

  /** Every cached zone is the node's true, non-empty zone. */
  ghost predicate Truthful(cache: Cache, truth: Cache) {
    forall n :: n in cache ==> cache[n] != "" && n in truth && truth[n] == cache[n]
  }

  /** Whenever the zone label of a node can be read at this moment it says what it always says. */
  ghost predicate TellsTruth(nodes: Nodes, truth: Cache) {
    forall n, zone :: ZoneLabelled(nodes, n, zone) ==> n in truth && truth[n] == zone
  }

  /** The lookup answers with the label, for no usable entry, and with the entry otherwise. */
  lemma LookupIsLabel(cache: Cache, nodes: Nodes, name: string, zone: string)
    ensures (name !in cache || cache[name] == "") ==> (CachedZone(cache, nodes, name) == Got(zone) <==> ZoneLabelled(nodes, name, zone))
    ensures name in nodes && nodes[name].Got? && (forall z :: !ZoneLabelled(nodes, name, z)) && (name !in cache || cache[name] == "") ==>
              CachedZone(cache, nodes, name).Err? && CachedZone(cache, nodes, name).error.kind.ZoneLabelMissing?
  {
    if name in nodes && nodes[name].Got? {
      var labels := nodes[name].value;
      if ZONE_LABEL in labels {
        assert ZoneLabelled(nodes, name, labels[ZONE_LABEL]) <==> labels[ZONE_LABEL] != "";
      }
    }
  }

  /** A truthful cache and lookups that tell the truth resolve each pod to its node's true zone. */
  lemma ResolvesToTruth(cache: Cache, truth: Cache, nodes: Nodes, name: string)
    requires Truthful(cache, truth) && TellsTruth(nodes, truth) && CachedZone(cache, nodes, name).Got?
    ensures name in truth && CachedZone(cache, nodes, name) == Got(truth[name])
  {
    LookupIsLabel(cache, nodes, name, CachedZone(cache, nodes, name).value);
  }

  /** Whenever a count succeeds, it counts the distinct true zones of the pods that have a node. */
  lemma CountsTrueZones(cache: Cache, truth: Cache, nodes: Nodes, pods: seq<Pod>)
    requires Truthful(cache, truth) && TellsTruth(nodes, truth) && AllResolve(cache, nodes, pods)
    ensures forall p :: p in pods && p.nodeName != "" ==> p.nodeName in truth
    ensures ZoneSet(cache, nodes, pods) == set p | p in pods && p.nodeName != "" && p.nodeName in truth :: truth[p.nodeName]
  {
    forall p | p in pods && p.nodeName != ""
      ensures p.nodeName in truth && CachedZone(cache, nodes, p.nodeName) == Got(truth[p.nodeName])
    {
      assert Scheduled(p);
      ResolvesToTruth(cache, truth, nodes, p.nodeName);
    }
  }

  /** Pods whose nodes carry one label value count as one zone, however many nodes they are on. */
  lemma SameLabelCountsOnce(nodes: Nodes, pods: seq<Pod>, zone: string)
    requires pods != [] && forall p :: p in pods ==> p.nodeName != "" && ZoneLabelled(nodes, p.nodeName, zone)
    ensures AllResolve(map[], nodes, pods) && |ZoneSet(map[], nodes, pods)| == 1
  {
    forall p | p in pods ensures CachedZone(map[], nodes, p.nodeName) == Got(zone) {
      LookupIsLabel(map[], nodes, p.nodeName, zone);
    }
    assert pods[0] in pods && Scheduled(pods[0]);
    assert ZoneSet(map[], nodes, pods) == {zone};
  }

  /** Spread, told by the labels: every pod has a node, and no two of their nodes carry the same label value. */
  lemma SpreadByLabels(cache: Cache, truth: Cache, nodes: Nodes, pods: seq<Pod>)
    requires Truthful(cache, truth) && TellsTruth(nodes, truth) && AllResolve(cache, nodes, pods)
    ensures Spread(cache, nodes, pods) <==>
            && (forall p :: p in pods ==> p.nodeName != "" && p.nodeName in truth)
            && (forall i, j :: 0 <= i < j < |pods| && pods[i].nodeName in truth && pods[j].nodeName in truth ==>
                  truth[pods[i].nodeName] != truth[pods[j].nodeName])
  {
    hide CachedZone;
    forall p | p in pods && p.nodeName != ""
      ensures p.nodeName in truth && CachedZone(cache, nodes, p.nodeName) == Got(truth[p.nodeName])
    {
      assert Scheduled(p);
      ResolvesToTruth(cache, truth, nodes, p.nodeName);
    }
    forall i | 0 <= i < |pods| ensures pods[i] in pods {
    }
  }

  /** One call: the node asked for and what the API server would answer then. */
  datatype Call = Call(nodes: Nodes, name: string)

  function AfterCalls(cache: Cache, calls: seq<Call>): Cache {
    if calls == [] then cache
    else
      var before := AfterCalls(cache, calls[..|calls| - 1]);
      var c := calls[|calls| - 1];
      var r := CachedZone(before, c.nodes, c.name);
      if r.Got? then before[c.name := r.value] else before
  }

  /**
   * Over any sequence of lookups, with any failures among them: the cache stays truthful and keeps its
   * entries, and the next lookup answers what the API server answers whenever that succeeds.
   */
  lemma {:induction false} CacheRefinesLookup(truth: Cache, cache: Cache, calls: seq<Call>, next: Call)
    requires Truthful(cache, truth) && TellsTruth(next.nodes, truth)
    requires forall c :: c in calls ==> TellsTruth(c.nodes, truth)
    ensures var now := AfterCalls(cache, calls);
            && Truthful(now, truth)
            && (forall n :: n in cache ==> n in now && now[n] == cache[n])
            && (forall zone :: ZoneLabelled(next.nodes, next.name, zone) ==> CachedZone(now, next.nodes, next.name) == Got(zone))
            && var direct := UncachedZone(next.nodes, next.name);
               (direct.Got? ==> CachedZone(now, next.nodes, next.name) == direct)
  {
    if calls != [] {
      var front, c := calls[..|calls| - 1], calls[|calls| - 1];
      assert c in calls;
      CacheRefinesLookup(truth, cache, front, c);
      if CachedZone(AfterCalls(cache, front), c.nodes, c.name).Got? {
        ResolvesToTruth(AfterCalls(cache, front), truth, c.nodes, c.name);
      }
    }
    if UncachedZone(next.nodes, next.name).Got? {
      LookupIsLabel(map[], next.nodes, next.name, UncachedZone(next.nodes, next.name).value);
    }
  }

  /** A count, complete or broken off, leaves the cache truthful. */
  lemma CountKeepsTruth(truth: Cache, cache: Cache, later: Cache, nodes: Nodes)
    requires Truthful(cache, truth) && TellsTruth(nodes, truth) && Grown(cache, later, nodes)
    ensures Truthful(later, truth) && forall n :: n in cache ==> n in later && later[n] == cache[n]
  {
    forall n | n in later ensures later[n] != "" && n in truth && truth[n] == later[n] {
      if n !in cache || later[n] != cache[n] {
        ResolvesToTruth(cache, truth, nodes, n);
      }
    }
  }

  // ---- What the count means ----

  function NodeNames(pods: seq<Pod>): set<string> {
    set p | p in pods && Scheduled(p) :: p.nodeName
  }

  /** Each pod runs on its own node in its own zone. */
  ghost predicate Spread(cache: Cache, nodes: Nodes, pods: seq<Pod>) {
    && (forall p :: p in pods ==> Scheduled(p) && CachedZone(cache, nodes, p.nodeName).Got?)
    && (forall i, j :: 0 <= i < j < |pods| ==>
          CachedZone(cache, nodes, pods[i].nodeName) != CachedZone(cache, nodes, pods[j].nodeName))
  }

  /** Zones are bounded by distinct nodes, and those by pods. */
  lemma ZoneBounds(cache: Cache, nodes: Nodes, pods: seq<Pod>)
    ensures |ZoneSet(cache, nodes, pods)| <= |NodeNames(pods)| <= |pods|
  {
    var names := NodeNames(pods);
    var zoneOf := map n | n in names && CachedZone(cache, nodes, n).Got? :: CachedZone(cache, nodes, n).value;
    forall z | z in ZoneSet(cache, nodes, pods) ensures z in zoneOf.Values {
      var p :| p in pods && Scheduled(p) && CachedZone(cache, nodes, p.nodeName) == Got(z);
      assert p.nodeName in zoneOf;
    }
    FewerValues(zoneOf);
    SubsetSize(ZoneSet(cache, nodes, pods), zoneOf.Values);
    SubsetSize(zoneOf.Keys, names);
    var nodeOf := seq(|pods|, i requires 0 <= i < |pods| => if Scheduled(pods[i]) then Some(pods[i].nodeName) else None);
    forall n | n in names ensures n in Present(nodeOf) {
      var i :| 0 <= i < |pods| && Scheduled(pods[i]) && pods[i].nodeName == n;
      assert nodeOf[i] == Some(n);
    }
    SubsetSize(names, Present(nodeOf));
    PresentBound(nodeOf);
  }

  lemma {:induction false} SubsetSize<T>(a: set<T>, b: set<T>)
    requires a <= b
    ensures |a| <= |b|
  {
    if x :| x in a {
      SubsetSize(a - {x}, b - {x});
    }
  }

  lemma {:induction false} FewerValues<K, V>(m: map<K, V>)
    ensures |m.Values| <= |m.Keys|
    decreases |m.Keys|
  {
    if k :| k in m {
      var rest := m - {k};
      FewerValues(rest);
      assert rest.Keys == m.Keys - {k};
      assert m.Values <= rest.Values + {m[k]} by {
        forall v | v in m.Values ensures v in rest.Values + {m[k]} {
          var j :| j in m && m[j] == v;
          assert j != k ==> j in rest && rest[j] == v;
        }
      }
      SubsetSize(m.Values, rest.Values + {m[k]});
    } else {
      assert m.Values == {};
    }
  }

  /** The values present in a list of options. */
  function Present<T>(s: seq<Option<T>>): set<T> {
    set o | o in s && o.Some? :: o.value
  }

  ghost predicate AllDistinct<T>(s: seq<Option<T>>) {
    (forall o :: o in s ==> o.Some?) && (forall i, j :: 0 <= i < j < |s| ==> s[i] != s[j])
  }

  lemma {:induction false} PresentBound<T>(s: seq<Option<T>>)
    ensures |Present(s)| <= |s|
    ensures |Present(s)| == |s| <==> AllDistinct(s)
  {
    if s != [] {
      var tail := s[1..];
      PresentBound(tail);
      assert s == [s[0]] + tail;
      assert Present(s) == Present(tail) + if s[0].Some? then {s[0].value} else {};
      DistinctStep(s[0], tail);
    }
  }

  lemma DistinctStep<T>(o: Option<T>, tail: seq<Option<T>>)
    ensures AllDistinct([o] + tail) <==> AllDistinct(tail) && o.Some? && o.value !in Present(tail)
  {
    var s := [o] + tail;
    assert s[0] == o && forall i :: 0 <= i < |tail| ==> tail[i] == s[i + 1];
    if AllDistinct(s) {
      assert forall i :: 0 <= i < |tail| ==> tail[i] != o;
    }
    if AllDistinct(tail) && o.Some? && o.value !in Present(tail) {
      forall i, j | 0 <= i < j < |s| ensures s[i] != s[j] {
        assert s[j] == tail[j - 1] && s[j] in tail;
        if i > 0 {
          assert s[i] == tail[i - 1];
        }
      }
    }
  }

  /** As many zones as pods: exactly when every pod is scheduled and no two share a zone. */
  lemma FullCountIffSpread(cache: Cache, nodes: Nodes, pods: seq<Pod>)
    ensures |ZoneSet(cache, nodes, pods)| == |pods| <==> Spread(cache, nodes, pods)
  {
    hide CachedZone;
    var zones := seq(|pods|, i requires 0 <= i < |pods| => ZoneOf(cache, nodes, pods[i]));
    forall z ensures z in ZoneSet(cache, nodes, pods) <==> z in Present(zones) {
      if z in ZoneSet(cache, nodes, pods) {
        var i :| 0 <= i < |pods| && ZoneOf(cache, nodes, pods[i]) == Some(z);
        assert zones[i] == Some(z);
      }
      if z in Present(zones) {
        var i :| 0 <= i < |zones| && zones[i] == Some(z);
        assert pods[i] in pods;
      }
    }
    assert ZoneSet(cache, nodes, pods) == Present(zones);
    PresentBound(zones);
    if AllDistinct(zones) {
      forall p | p in pods ensures ZoneOf(cache, nodes, p).Some? {
        var i :| 0 <= i < |pods| && pods[i] == p;
        assert zones[i] in zones;
      }
      forall i, j | 0 <= i < j < |pods|
        ensures CachedZone(cache, nodes, pods[i].nodeName) != CachedZone(cache, nodes, pods[j].nodeName)
      {
        assert zones[i] != zones[j] && pods[i] in pods && pods[j] in pods;
      }
    }
    if Spread(cache, nodes, pods) {
      forall i, j | 0 <= i < j < |zones| ensures zones[i] != zones[j] {
        assert pods[i] in pods && pods[j] in pods;
      }
    }
  }

  function ZoneOf(cache: Cache, nodes: Nodes, p: Pod): Option<string> {
    var r := CachedZone(cache, nodes, p.nodeName);
    if Scheduled(p) && r.Got? then Some(r.value) else None
  }
}
