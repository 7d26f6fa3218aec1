/** What the life of one resource fixes over runs: its identity, its cluster size, and its NATS client. */
module Lifecycle {
  import opened Wrappers
  import opened NatsStatus
  import opened Naming
  import opened Operator
  import opened Deletion
  import opened Convergence
  import O = Overrides
  import V = Values

  // ---- Cluster size ----

  /** A reconcile keeps the spec and the identity of what it leaves on the server. */
  lemma ReconcileKeepsSpec(cfg: Config, w: World, k: Key, o: Obs)
    ensures var w1 := Reconcile(cfg, w, k, o).0;
            && w1.server.nextUid == w.server.nextUid
            && forall j :: j in w1.server.crs ==>
                 j in w.server.crs && w1.server.crs[j].uid == w.server.crs[j].uid && w1.server.crs[j].spec == w.server.crs[j].spec
  {
    hide Reconcile;
    SameBesides(cfg, w, k, o);
    KeptHere(cfg, w, k, o);
  }

  lemma KeptHere(cfg: Config, w: World, k: Key, o: Obs)
    ensures var w1 := Reconcile(cfg, w, k, o).0;
            k in w1.server.crs ==>
              k in w.server.crs && w1.server.crs[k].uid == w.server.crs[k].uid && w1.server.crs[k].spec == w.server.crs[k].spec
  {
    hide SweepAndRelease, StatusFor, ForbiddenStatus, BlockedStatus, Status.IsEqual, Assess, DeletionGate, RegistryKey;
    if o.readFault.None? && k in w.server.crs {
      if w.server.crs[k].deleting {
        if NatsFinalizer in w.server.crs[k].finalizers {
          ReleaseKeepsSpec(ConnectClient(w, k), k, o);
        }
      } else {
        ApplyAllKeeps(SyncCloudProvider(w, o), k, o);
      }
    }
  }

  lemma SameBesides(cfg: Config, w: World, k: Key, o: Obs)
    ensures var w1 := Reconcile(cfg, w, k, o).0;
            && w1.server.nextUid == w.server.nextUid
            && (forall j :: j != k ==> (j in w.server.crs <==> j in w1.server.crs))
            && (forall j :: j != k && j in w.server.crs ==> w1.server.crs[j] == w.server.crs[j])
  {
    hide Reconcile, Belongs;
    ReconcileActs(cfg, w, k, o);
  }

  lemma ReleaseKeepsSpec(w: World, k: Key, o: Obs)
    requires k in w.server.crs
    ensures var w1 := SweepAndRelease(w, k, o).0;
            k in w1.server.crs ==> w1.server.crs[k].uid == w.server.crs[k].uid && w1.server.crs[k].spec == w.server.crs[k].spec
  {
    hide DeleteAll, Labelled, SweepLabel, RegistryKey;
  }

  /** Every stored cluster size is one the schema admits, and no identity is handed out twice. */
  ghost predicate SizesOk(w: World) {
    forall k :: k in w.server.crs ==> O.ValidSize(w.server.crs[k].spec.clusterSize) && w.server.crs[k].uid < w.server.nextUid
  }

  /** Whether a resource keeps the cluster mode that its predecessor of the same identity had. */
  ghost predicate ModeKept(a: Resource, b: Resource) {
    b.uid == a.uid && O.ValidSize(b.spec.clusterSize) && (a.spec.clusterSize >= O.MIN_CLUSTER_SIZE ==> b.spec.clusterSize >= O.MIN_CLUSTER_SIZE)
  }

  lemma StepKeepsMode(cfg: Config, w: World, e: Event, k: Key)
    requires SizesOk(w)
    ensures var w1 := Step(cfg, w, e);
            && SizesOk(w1) && w.server.nextUid <= w1.server.nextUid
            && (k in w1.server.crs ==>
                  || (k in w.server.crs && ModeKept(w.server.crs[k], w1.server.crs[k]))
                  || (k !in w.server.crs && w1.server.crs[k].uid == w.server.nextUid))
  {
    if e.Reconciled? {
      hide Reconcile;
      ReconcileKeepsSpec(cfg, w, e.k, e.o);
    } else if e.SpecEdited? {
      if e.k in w.server.crs && O.AdmittedUpdate(w.server.crs[e.k].spec.clusterSize, e.spec.clusterSize) {
        O.ClusterModeMonotone([w.server.crs[e.k].spec.clusterSize, e.spec.clusterSize], 0, 1);
      }
    } else {
      hide Reconcile, Without, ModeKept, O.ValidSize;
      StepKeepsSpec(cfg, w, e);
      var w1 := Step(cfg, w, e);
      if k in w.server.crs && k in w1.server.crs {
        SameMode(w, w1, k);
      }
    }
  }

  lemma StepKeepsSpec(cfg: Config, w: World, e: Event)
    requires !e.Reconciled? && !e.SpecEdited?
    ensures var w1 := Step(cfg, w, e);
            && w.server.nextUid <= w1.server.nextUid
            && forall j :: j in w1.server.crs ==>
                 || (j in w.server.crs && w1.server.crs[j].uid == w.server.crs[j].uid && w1.server.crs[j].spec == w.server.crs[j].spec)
                 || (j !in w.server.crs && w1.server.crs[j].uid == w.server.nextUid < w1.server.nextUid
                     && O.ValidSize(w1.server.crs[j].spec.clusterSize))
  {
    hide Without, O.ValidSize;
  }

  lemma SameMode(w: World, w1: World, k: Key)
    requires SizesOk(w)
    requires k in w.server.crs && k in w1.server.crs
    requires w1.server.crs[k].uid == w.server.crs[k].uid && w1.server.crs[k].spec == w.server.crs[k].spec
    ensures ModeKept(w.server.crs[k], w1.server.crs[k])
  {
  }

  lemma {:induction false} RunKeepsMode(cfg: Config, w: World, es: seq<Event>, k: Key)
    requires SizesOk(w)
    ensures var now := Run(cfg, w, es);
            && SizesOk(now) && w.server.nextUid <= now.server.nextUid
            && (k in w.server.crs && k in now.server.crs && now.server.crs[k].uid == w.server.crs[k].uid ==>
                  ModeKept(w.server.crs[k], now.server.crs[k]))
            && (k in now.server.crs && now.server.crs[k].uid < w.server.nextUid ==>
                  k in w.server.crs && now.server.crs[k].uid == w.server.crs[k].uid)
  {
    hide Step;
    if es != [] {
      RunKeepsMode(cfg, w, es[..|es| - 1], k);
      StepKeepsMode(cfg, Run(cfg, w, es[..|es| - 1]), es[|es| - 1], k);
    }
  }

  /**
   * In every run, stored sizes are valid, and as long as a resource lives its rendered `cluster.enabled`
   * never goes from true to false.
   */
  lemma ClusterModeStays(cfg: Config, w: World, es: seq<Event>, later: seq<Event>, k: Key)
    requires Initial(w)
    ensures var before := Run(cfg, w, es);
            var now := Run(cfg, before, later);
            && (forall j :: j in now.server.crs ==> O.ValidSize(now.server.crs[j].spec.clusterSize))
            && (k in before.server.crs && k in now.server.crs && now.server.crs[k].uid == before.server.crs[k].uid ==>
                  Enabled(before.server.crs[k].spec) == Some(V.Leaf(V.Bool(true))) ==>
                    Enabled(now.server.crs[k].spec) == Some(V.Leaf(V.Bool(true))))
  {
    hide Run;
    RunKeepsMode(cfg, w, es, k);
    RunKeepsMode(cfg, Run(cfg, w, es), later, k);
  }

  /** What a render of a spec is asked to set `cluster.enabled` to; no other input matters to it. */
  function Enabled(spec: O.Spec): Option<V.Tree> {
    O.Wanted(O.ClusterEnabled, spec, false, false, 0, O.NO_IMAGES)
  }

  /** In every run, whatever is rendered for a stored spec has as many replicas as the spec says. */
  lemma StoredReplicas(cfg: Config, w: World, es: seq<Event>, k: Key, values: V.Tree, istio: bool, rotate: bool, size: nat, images: O.Images)
    requires Initial(w)
    ensures var now := Run(cfg, w, es);
            k in now.server.crs && O.Holds(values, O.Chosen(now.server.crs[k].spec, istio, rotate, size, images)) ==>
              O.Replicas(V.ViewAt(values, O.Path(O.ClusterEnabled)), V.ViewAt(values, O.Path(O.ClusterSize))) ==
              V.Value(V.Int(now.server.crs[k].spec.clusterSize))
  {
    hide Run, O.Replicas, O.Path, V.ViewAt, O.Holds, O.Chosen;
    RunKeepsMode(cfg, w, es, k);
    var now := Run(cfg, w, es);
    if k in now.server.crs && O.Holds(values, O.Chosen(now.server.crs[k].spec, istio, rotate, size, images)) {
      var spec := now.server.crs[k].spec;
      O.ReplicasFollowSpec(values, O.Chosen(spec, istio, rotate, size, images), spec, istio, rotate, size, images);
    }
  }

  // ---- When a resource leaves ----

  /** The finalizers others see once an edit of them went through: the controller's is not theirs to change. */
  function EditedFinalizers(r: Resource, finalizers: set<Finalizer>): set<Finalizer> {
    set f | f in finalizers + r.finalizers && (if f.NatsFinalizer? then f in r.finalizers else f in finalizers)
  }

  /**
   * A step takes a resource off the server exactly when its deletion is or was requested and the step
   * leaves it no finalizer.
   */
  lemma LeavesIff(cfg: Config, w: World, e: Event, k: Key)
    requires k in w.server.crs
    ensures var r := w.server.crs[k];
            k !in Step(cfg, w, e).server.crs <==>
              || (e == DeletionRequested(k) && r.finalizers == {})
              || (r.deleting && e.FinalizersEdited? && e.k == k && EditedFinalizers(r, e.finalizers) == {})
              || (r.deleting && e.SpecEdited? && e.k == k && r.finalizers == {} && O.AdmittedUpdate(r.spec.clusterSize, e.spec.clusterSize))
              || (r.deleting && e.Reconciled? && e.k == k && r.finalizers == {NatsFinalizer} && e.o.readFault.None?
                  && DeletionGate(e.o).Open? && StepSweep(w, k, e.o).None? && e.o.updateFault.None?)
  {
    hide Reconcile, Without, DeletionGate, O.ValidSize;
    match e
    case Reconciled(j, o) =>
      if j != k {
        SameBesides(cfg, w, j, o);
      } else {
        ReconcileLeavesIff(cfg, w, k, o);
      }
    case FinalizersEdited(j, finalizers) =>
      var r := w.server.crs[k];
      assert EditedFinalizers(r, finalizers) == (finalizers - {NatsFinalizer}) + (r.finalizers * {NatsFinalizer});
    case _ =>
  }

  lemma ReconcileLeavesIff(cfg: Config, w: World, k: Key, o: Obs)
    requires k in w.server.crs
    ensures var r := w.server.crs[k];
            k !in Reconcile(cfg, w, k, o).0.server.crs <==>
              r.deleting && r.finalizers == {NatsFinalizer} && o.readFault.None?
              && DeletionGate(o).Open? && StepSweep(w, k, o).None? && o.updateFault.None?
  {
    hide StatusFor, ForbiddenStatus, BlockedStatus, Status.IsEqual, Assess, DeletionGate, DeleteAll, Labelled, SweepLabel, RegistryKey;
    if o.readFault.None? && !w.server.crs[k].deleting {
      ApplyAllKeeps(SyncCloudProvider(w, o), k, o);
    }
  }

  // ---- No client is left behind ----

  /** A resource that accounts for a registered client: on the server, being deleted, holding the finalizer. */
  ghost predicate Owns(w: World, k: Key, key: string) {
    RegistryKey(k) == key && k in w.server.crs && w.server.crs[k].deleting && NatsFinalizer in w.server.crs[k].finalizers
  }

  ghost predicate NoLeak(w: World) {
    forall key :: key in w.mem.clients ==> exists k :: Owns(w, k, key)
  }

  /** Owners stay owners, and no client is added. */
  lemma OwnersStay(w: World, w1: World)
    requires NoLeak(w) && w1.mem.clients.Keys <= w.mem.clients.Keys
    requires forall k, key :: key in w1.mem.clients && Owns(w, k, key) ==> Owns(w1, k, key)
    ensures NoLeak(w1)
  {
    forall key | key in w1.mem.clients ensures exists k :: Owns(w1, k, key) {
      assert key in w.mem.clients;
      var k :| Owns(w, k, key);
    }
  }

  lemma DeleteNoLeak(w: World, k: Key, o: Obs)
    requires NoLeak(w) && k in w.server.crs && w.server.crs[k].deleting
    ensures NoLeak(Delete(w, k, o).0)
  {
    hide RegistryKey, DeletionGate, BlockedStatus, Status.IsEqual, SweepAndRelease;
    if NatsFinalizer in w.server.crs[k].finalizers {
      var w1 := ConnectClient(w, k);
      forall key | key in w1.mem.clients ensures exists j :: Owns(w1, j, key) {
        if key == RegistryKey(k) {
          assert Owns(w1, k, key);
        } else {
          var j :| Owns(w, j, key);
          assert Owns(w1, j, key);
        }
      }
      if DeletionGate(o).Open? {
        ReleaseNoLeak(w1, k, o);
      } else {
        OwnersStay(w1, Delete(w, k, o).0);
      }
    }
  }

  lemma ReleaseNoLeak(w: World, k: Key, o: Obs)
    requires NoLeak(w) && k in w.server.crs
    ensures NoLeak(SweepAndRelease(w, k, o).0)
  {
    hide RegistryKey, DeleteAll, Labelled, SweepLabel, NoLeak;
    OwnersStay(w, SweepAndRelease(w, k, o).0);
  }

  lemma ReconcileNoLeak(cfg: Config, w: World, k: Key, o: Obs)
    requires NoLeak(w)
    ensures NoLeak(Reconcile(cfg, w, k, o).0)
  {
    hide NoLeak, Delete, RegistryKey;
    if o.readFault.None? && k in w.server.crs {
      if w.server.crs[k].deleting {
        DeleteNoLeak(w, k, o);
      } else {
        SameBesides(cfg, w, k, o);
        LiveKeepsClients(cfg, w, k, o);
        hide Reconcile;
        OwnersStay(w, Reconcile(cfg, w, k, o).0);
      }
    }
  }

  lemma LiveKeepsClients(cfg: Config, w: World, k: Key, o: Obs)
    requires k in w.server.crs && !w.server.crs[k].deleting
    ensures Reconcile(cfg, w, k, o).0.mem.clients == w.mem.clients
  {
    hide Assess, StatusFor, ForbiddenStatus, Status.IsEqual;
    var w0 := SyncCloudProvider(w, o);
    AssessEffect(w0, k, o);
    ApplyAllKeeps(w0, k, o);
  }

  lemma StepNoLeak(cfg: Config, w: World, e: Event)
    requires NoLeak(w)
    ensures NoLeak(Step(cfg, w, e))
  {
    hide NoLeak, Reconcile, RegistryKey, Without;
    if e.Reconciled? {
      ReconcileNoLeak(cfg, w, e.k, e.o);
    } else {
      OwnersStay(w, Step(cfg, w, e));
    }
  }

  /** At every point of every run, each registered client belongs to a resource that is still there, being deleted and holding the finalizer. */
  lemma {:induction false} NoClientLeaks(cfg: Config, w: World, es: seq<Event>)
    requires Initial(w)
    ensures NoLeak(Run(cfg, w, es))
  {
    hide Step, Owns;
    if es != [] {
      NoClientLeaks(cfg, w, es[..|es| - 1]);
      StepNoLeak(cfg, Run(cfg, w, es[..|es| - 1]), es[|es| - 1]);
    }
  }

  // ---- A stalled deletion ----

  /** A resource being deleted, with the one claim its StatefulSet created. */
  function StalledWorld(k: Key, spec: O.Spec): World {
    var r := Resource(0, spec, {NatsFinalizer}, true, EMPTY_STATUS, 1);
    World(Server(map[k := r], 1, [CreatedPvc(k, 0)], {}), FRESH_MEMORY, [])
  }

  /** The NATS server is unreachable, and the claim disappears between its listing and its deletion. */
  function VanishedClaim(k: Key): Obs {
    var fault := Error(Failure, "");
    Obs(0, None, Err(fault), None, None, None, map[], None, Err(fault), Err(fault), None, None, None,
        Some(fault), Err(fault), Err(fault), Err(fault), None, map[CreatedPvc(k, 0) := Error(NotFound, "")])
  }

  /** The input of the silent stall: the deletion reports success and asks for no requeue, and the finalizer is still there. */
  lemma StallsSilently(k: Key, spec: O.Spec)
    requires ValidName(k.name)
    ensures var w := StalledWorld(k, spec);
            var (w1, out) := Reconcile(Config(None), w, k, VanishedClaim(k));
            out == DONE && Holding(w1, k, 0)
  {
    hide CreatedPvc, SweepLabel, RegistryKey, HasPrefix;
    var w, o := StalledWorld(k, spec), VanishedClaim(k);
    var p := CreatedPvc(k, 0);
    SweepIsComplete(k);
    assert SweepMatches(k, p);
    OneClaim(p, k, o);
    DeletionStep(w, k, o);
  }

  lemma OneClaim(p: Pvc, k: Key, o: Obs)
    requires SweepMatches(k, p) && p in o.pvcFaults
    ensures DeleteAll([p], Labelled([p], k.ns, SweepLabel(k.name)), k.name, o.pvcFaults) == ([p], Some(o.pvcFaults[p]))
  {
    hide SweepLabel, HasPrefix;
    assert Labelled([p], k.ns, SweepLabel(k.name)) == [p];
  }
}
