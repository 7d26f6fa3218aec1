/** Whose streams the deletion checks see, and whose pods the zone count sees. */
module Reach {
  import opened Wrappers
  import opened Conditions
  import opened NatsStatus
  import opened Naming
  import opened Operator
  import opened Deletion
  import opened StatusRules
  import opened Convergence
  import O = Overrides
  import Z = Zones

  // ---- The dialed address ----

  /** The host part of the formatted URL that depends on the resource; the rest is the same for all. */
  function Host(name: string, ns: string): string {
    name + "." + ns
  }

  /** Namespaces hold no dot, so hosts tell Services apart. */
  lemma HostInjective(a: Key, b: Key)
    requires '.' !in a.ns && '.' !in b.ns && Host(a.name, a.ns) == Host(b.name, b.ns)
    ensures a == b
  {
    var s := Host(a.name, a.ns);
    assert s[|a.name|] == '.' && s[|b.name|] == '.';
    assert s[|a.name| + 1..] == a.ns && s[|b.name| + 1..] == b.ns;
    assert a.name == s[..|a.name|] == b.name;
  }

  /** The Service the chart creates for a resource. */
  function ServiceOf(k: Key): Key {
    Key(k.ns, Fullname(k.name))
  }

  /** The chart's name for a name is one it keeps. */
  lemma FullnameFixed(name: string)
    requires ValidName(name)
    ensures Fullname(Fullname(name)) == Fullname(name)
  {
    hide Contains;
    if Contains(name, CHART_NAME) {
      CutKeeps(name);
    } else {
      var whole := name + "-" + CHART_NAME;
      if |name| <= 58 {
        CutKeeps(whole);
        ContainsSuffix(name + "-", CHART_NAME);
      } else {
        LongFullname(name);
        FullnameIsNameIff(Fullname(name));
      }
    }
  }

  lemma LongFullname(name: string)
    requires ValidName(name) && |name| > 58 && !Contains(name, CHART_NAME)
    ensures ValidName(Fullname(name)) && |Fullname(name)| >= 62
  {
    hide Contains;
    var whole := name + "-" + CHART_NAME;
    assert whole[|name|..] == "-" + CHART_NAME;
    assert |name| <= 61 ==> whole[62] == ("-" + CHART_NAME)[62 - |name|];
    assert |name| == 62 ==> whole[61] == name[61] && whole[62] == '-';
    assert |name| == 63 ==> whole[62] == name[62];
  }

  /** Some Service the chart creates has the address dialed for a resource, exactly when the chart uses the resource's name unchanged. */
  lemma DialedIsServedIff(k: Key)
    requires ValidName(k.name)
    ensures (exists b: Key :: ValidName(b.name) && ServiceOf(b) == k) <==> Fullname(k.name) == k.name
  {
    hide Fullname, ValidName;
    if b: Key :| ValidName(b.name) && ServiceOf(b) == k {
      FullnameFixed(b.name);
    }
    if Fullname(k.name) == k.name {
      assert ServiceOf(k) == k;
    }
  }

  // ---- Whose streams are seen ----

  /** A NATS server behind a Service: its streams, and whether `sap` has consumers. */
  datatype NatsServer = NatsServer(streams: seq<string>, sapConsumers: bool)

  type Services = map<Key, NatsServer>

  ghost predicate MadeByChart(services: Services) {
    forall s :: s in services ==> exists b: Key :: ValidName(b.name) && ServiceOf(b) == s
  }

  /** What the calls of a reconcile of `k` can observe: those that succeed tell of the server at the dialed address, if there is one. */
  predicate Sees(o: Obs, services: Services, k: Key) {
    if k !in services then o.connectFault.Some?
    else o.connectFault.None? ==>
      && (o.streams.Got? ==> o.streams.value == services[k].streams)
      && (o.streamsAgain.Got? ==> o.streamsAgain.value == services[k].streams)
      && (o.consumers.Got? ==> o.consumers.value == services[k].sapConsumers)
  }

  predicate AllAnswer(o: Obs) {
    o.connectFault.None? && o.streams.Got? && o.streamsAgain.Got? && o.consumers.Got?
  }

  /** A server whose streams or consumers are reason to hold a deletion. */
  predicate Holds(s: NatsServer) {
    ForeignStream(s.streams) || (SAP_STREAM in s.streams && s.sapConsumers)
  }

  /**
   * The gate closes only for what the server at the dialed address holds, and does so whenever all checks
   * are answered; for a name the chart changes there is no such server, and the gate is open.
   */
  lemma GateSees(services: Services, k: Key, o: Obs)
    requires ValidName(k.name) && MadeByChart(services) && Sees(o, services, k)
    ensures DeletionGate(o).Blocked? ==> k in services && Holds(services[k])
    ensures k in services && AllAnswer(o) ==> (DeletionGate(o).Blocked? <==> Holds(services[k]))
    ensures Fullname(k.name) != k.name ==> DeletionGate(o).Open?
  {
    hide Fullname, ValidName;
    if k in services {
      DialedIsServedIff(k);
    }
  }

  /**
   * For a name the chart changes, the deletion is never held back: it sweeps the claims and lets the
   * resource go, whatever streams and consumers the resource's own server has.
   */
  lemma OwnServerUnseen(services: Services, w: World, k: Key, o: Obs, ordinal: nat)
    requires ValidName(k.name) && Fullname(k.name) != k.name
    requires MadeByChart(services) && Sees(o, services, k)
    requires k in w.server.crs && Holding(w, k, w.server.crs[k].uid)
    requires o.updateFault.None? && o.pvcListFault.None? && o.pvcFaults == map[]
    ensures var w1 := Delete(w, k, o).0;
            !Holding(w1, k, w.server.crs[k].uid) && CreatedPvc(k, ordinal) !in w1.server.pvcs
  {
    hide Fullname, ValidName, Sees, MadeByChart, DeletionGate, CreatedPvc, Sweep, RegistryKey;
    GateSees(services, k, o);
    var at := Emit(ConnectClient(w, k), SweepStarted(k, w.server.crs[k].uid));
    SweepSucceeds(at, k, o);
    DeletionStep(w, k, o);
    SweepLeavesNothing(at, k, o, ordinal);
  }

  lemma SweepSucceeds(w: World, k: Key, o: Obs)
    requires o.pvcListFault.None? && o.pvcFaults == map[]
    ensures Sweep(w, k, o).1.None?
  {
    hide Labelled, SweepLabel;
    NoFaultNoError(w.server.pvcs, Labelled(w.server.pvcs, k.ns, SweepLabel(k.name)), k.name, o.pvcFaults);
  }

  lemma {:induction false} NoFaultNoError(pvcs: seq<Pvc>, list: seq<Pvc>, prefix: string, faults: map<Pvc, Error>)
    requires faults == map[]
    ensures DeleteAll(pvcs, list, prefix, faults).1.None?
    decreases |list|
  {
    hide HasPrefix, Without;
    if list != [] {
      NoFaultNoError(pvcs, list[1..], prefix, faults);
      NoFaultNoError(Without(pvcs, list[0]), list[1..], prefix, faults);
    }
  }

  /** The input: `eventing` with a customer stream on its own server, `eventing-nats`, is deleted all the same. */
  lemma EventingUnseen(ns: string, w: World, o: Obs, ordinal: nat)
    requires var k := Key(ns, "eventing"); k in w.server.crs && Holding(w, k, w.server.crs[k].uid)
    requires o.connectFault.Some? && o.updateFault.None? && o.pvcListFault.None? && o.pvcFaults == map[]
    ensures var k := Key(ns, "eventing");
            var services := map[ServiceOf(k) := NatsServer(["orders"], false)];
            var w1 := Delete(w, k, o).0;
            && MadeByChart(services) && Sees(o, services, k) && Holds(services[ServiceOf(k)])
            && !Holding(w1, k, w.server.crs[k].uid) && CreatedPvc(k, ordinal) !in w1.server.pvcs
  {
    hide Fullname, Delete, CreatedPvc, Holding;
    EventingFullnames();
    var k := Key(ns, "eventing");
    assert |Fullname(k.name)| != |k.name|;
    var server := NatsServer(["orders"], false);
    assert "orders" in server.streams && |"orders"| != |SAP_STREAM|;
    OwnServerUnseen(map[ServiceOf(k) := server], w, k, o, ordinal);
  }

  // ---- Whose pods are counted ----

  /** A pod with its namespace and instance label; the other labels selected by are the same for all resources. */
  datatype LabelledPod = LabelledPod(ns: string, instance: string, pod: Z.Pod)

  const COUNTED_INSTANCE := "eventing"

  /** The pods the zone count lists: those of a namespace with the fixed instance label. */
  function Listed(pods: seq<LabelledPod>, ns: string): seq<Z.Pod> {
    if pods == [] then []
    else (if pods[0].ns == ns && pods[0].instance == COUNTED_INSTANCE then [pods[0].pod] else []) + Listed(pods[1..], ns)
  }

  /** The fixed label is the one a resource's pods carry exactly for two names. */
  lemma CountsOwnPodsIff(name: string)
    ensures InstanceLabel(name) == COUNTED_INSTANCE <==> name == "eventing" || name == "eventing-nats"
  {
  }

  /** All pods of a namespace are those of one resource. */
  ghost predicate Alone(pods: seq<LabelledPod>, k: Key) {
    forall p :: p in pods && p.ns == k.ns ==> p.instance == InstanceLabel(k.name)
  }

  lemma {:induction false} ListedOwn(pods: seq<LabelledPod>, k: Key)
    requires Alone(pods, k)
    ensures InstanceLabel(k.name) != COUNTED_INSTANCE ==> Listed(pods, k.ns) == []
    ensures InstanceLabel(k.name) == COUNTED_INSTANCE ==> |Listed(pods, k.ns)| == |PodsIn(pods, k.ns)|
  {
    hide InstanceLabel;
    if pods != [] {
      assert pods[0] in pods && forall p :: p in pods[1..] ==> p in pods;
      ListedOwn(pods[1..], k);
    }
  }

  function PodsIn(pods: seq<LabelledPod>, ns: string): seq<LabelledPod> {
    if pods == [] then [] else (if pods[0].ns == ns then [pods[0]] else []) + PodsIn(pods[1..], ns)
  }

  /** Ready, clustered, and alone in its namespace, with the zones of the listed pods counted. */
  ghost predicate CountedAlone(cfg: Config, w: World, k: Key, o: Obs, cache: Z.Cache, nodes: Z.Nodes, pods: seq<LabelledPod>) {
    && Live(w, k) && NatsFinalizer in w.server.crs[k].finalizers && (cfg.allowed.Some? ==> cfg.allowed.value == k)
    && Proper(w.server.crs[k].status.conditions) && w.server.crs[k].spec.clusterSize >= O.MIN_CLUSTER_SIZE
    && Alone(pods, k) && Completes(o)
    && o.zones == Got(|Z.ZoneSet(cache, nodes, Listed(pods, k.ns))|) && VerdictOf(w, k, o) == Running(o.zones)
  }

  /**
   * A clustered resource under any other name, alone in its namespace, counts no zone: however its pods
   * are spread, every reconcile that finds it ready leaves it in Warning.
   */
  lemma OthersStayInWarning(cfg: Config, w: World, k: Key, o: Obs, cache: Z.Cache, nodes: Z.Nodes, pods: seq<LabelledPod>)
    requires CountedAlone(cfg, w, k, o, cache, nodes, pods) && k.name != "eventing" && k.name != "eventing-nats"
    ensures var w1 := Reconcile(cfg, w, k, o).0;
            k in w1.server.crs &&
            w1.server.crs[k].status.state.Warning? && w1.server.crs[k].status.zones == 0 &&
            ShowsReason(w1.server.crs[k].status, AvailabilityZones, IsFalse, ReasonUnknown)
  {
    hide Provision, Decide, StatusFor, Status.IsEqual, Proper, CondOf, VerdictOf, InstanceLabel;
    CountsOwnPodsIff(k.name);
    ListedOwn(pods, k);
    assert Z.ZoneSet(cache, nodes, []) == {};
    ProvisionStep(w, k, o, o);
    var size := w.server.crs[k].spec.clusterSize;
    var d := Judged(Running(Got(0)), size);
    var s := Provision(w, k, o).0.server.crs[k].status;
    DecisionReaches(d, s, k, o.now);
    IsEqualIffSame(s, Decide(d, s, k, o.now));
    assert CondOf(Decide(d, s, k, o.now).conditions, AvailabilityZones) == Some(ZonesSay(0, size));
  }

  /** Under the two names, alone in the namespace with as many pods as the cluster size, AvailabilityZones is True exactly when these pods are spread. */
  lemma EventingSpreadIsReal(cfg: Config, w: World, k: Key, o: Obs, cache: Z.Cache, nodes: Z.Nodes, pods: seq<LabelledPod>)
    requires CountedAlone(cfg, w, k, o, cache, nodes, pods) && (k.name == "eventing" || k.name == "eventing-nats")
    requires |PodsIn(pods, k.ns)| == w.server.crs[k].spec.clusterSize
    ensures var w1 := Reconcile(cfg, w, k, o).0;
            k in w1.server.crs &&
            (Shows(w1.server.crs[k].status, AvailabilityZones, IsTrue) <==> Z.Spread(cache, nodes, Listed(pods, k.ns)))
  {
    hide Reconcile, Z.Spread, Z.ZoneSet, VerdictOf, Proper, InstanceLabel;
    CountsOwnPodsIff(k.name);
    ListedOwn(pods, k);
    StoredSpreadIsReal(cfg, w, k, o, cache, nodes, Listed(pods, k.ns));
  }
}
