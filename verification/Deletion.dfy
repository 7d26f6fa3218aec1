/** What the deletion of a resource does and does not do, step by step and over runs. */
module Deletion {
  import opened Wrappers
  import opened NatsStatus
  import opened Naming
  import opened Operator

  // ---- The sweep ----

  lemma {:induction false} LabelledMember(pvcs: seq<Pvc>, ns: string, instance: string, p: Pvc)
    ensures p in Labelled(pvcs, ns, instance) <==> p in pvcs && p.ns == ns && p.instance == instance
  {
    if pvcs != [] {
      LabelledMember(pvcs[1..], ns, instance, p);
      assert pvcs == [pvcs[0]] + pvcs[1..];
    }
  }

  lemma {:induction false} WithoutMember(pvcs: seq<Pvc>, gone: Pvc, p: Pvc)
    ensures p in Without(pvcs, gone) <==> p in pvcs && p != gone
  {
    if pvcs != [] {
      WithoutMember(pvcs[1..], gone, p);
      assert pvcs == [pvcs[0]] + pvcs[1..];
    }
  }

  lemma {:induction false} DeleteAllMember(pvcs: seq<Pvc>, list: seq<Pvc>, prefix: string, faults: map<Pvc, Error>, p: Pvc)
    ensures var (rest, fault) := DeleteAll(pvcs, list, prefix, faults);
            && (p in rest ==> p in pvcs)
            && (p in pvcs && !(p in list && HasPrefix(p.name, prefix)) ==> p in rest)
            && (fault.None? && p in list && HasPrefix(p.name, prefix) ==> p !in rest)
    decreases |list|
  {
    if list != [] {
      var head, tail := list[0], list[1..];
      assert list == [head] + tail;
      if !HasPrefix(head.name, prefix) {
        DeleteAllMember(pvcs, tail, prefix, faults, p);
      } else if head !in faults {
        DeleteAllMember(Without(pvcs, head), tail, prefix, faults, p);
        WithoutMember(pvcs, head, p);
      }
    }
  }

  /** No selected claim up to and including this one fails. */
  ghost predicate NoneFails(list: seq<Pvc>, i: nat, prefix: string, faults: map<Pvc, Error>)
    requires i < |list|
  {
    forall j :: 0 <= j <= i && HasPrefix(list[j].name, prefix) ==> list[j] !in faults
  }

  /** A claim is deleted exactly when it is selected and comes before the first selected one that fails. */
  lemma {:induction false} DeletedUpToFault(pvcs: seq<Pvc>, list: seq<Pvc>, prefix: string, faults: map<Pvc, Error>, p: Pvc)
    ensures p in DeleteAll(pvcs, list, prefix, faults).0 <==>
            p in pvcs && !(HasPrefix(p.name, prefix) && exists i :: 0 <= i < |list| && list[i] == p && NoneFails(list, i, prefix, faults))
    decreases |list|
  {
    hide HasPrefix, Without;
    if list != [] && !(HasPrefix(list[0].name, prefix) && list[0] in faults) {
      var head, rest := list[0], list[1..];
      DeletedUpToFault(if HasPrefix(head.name, prefix) then Without(pvcs, head) else pvcs, rest, prefix, faults, p);
      WithoutMember(pvcs, head, p);
      forall i | 0 <= i < |rest| ensures NoneFails(rest, i, prefix, faults) <==> NoneFails(list, i + 1, prefix, faults) {
        assert forall j :: 0 <= j <= i ==> rest[j] == list[j + 1];
        assert forall j :: 0 < j <= i + 1 ==> list[j] == rest[j - 1];
      }
      assert NoneFails(list, 0, prefix, faults);
      if i :| 0 <= i < |list| && list[i] == p && NoneFails(list, i, prefix, faults) {
        assert i > 0 ==> rest[i - 1] == p && NoneFails(rest, i - 1, prefix, faults);
      }
      if i :| 0 <= i < |rest| && rest[i] == p && NoneFails(rest, i, prefix, faults) {
        assert list[i + 1] == p && NoneFails(list, i + 1, prefix, faults);
      }
    }
  }

  /** A sweep that succeeds leaves no selected claim; no sweep touches any other claim. */
  lemma SweepExact(w: World, k: Key, o: Obs, p: Pvc)
    ensures var (w1, fault) := Sweep(w, k, o);
            && (p in w1.server.pvcs ==> p in w.server.pvcs)
            && (!SweepMatches(k, p) && p in w.server.pvcs ==> p in w1.server.pvcs)
            && (fault.None? && SweepMatches(k, p) ==> p !in w1.server.pvcs)
  {
    hide DeleteAll, Labelled, SweepLabel;
    var list := Labelled(w.server.pvcs, k.ns, SweepLabel(k.name));
    LabelledMember(w.server.pvcs, k.ns, SweepLabel(k.name), p);
    DeleteAllMember(w.server.pvcs, list, k.name, o.pvcFaults, p);
  }

  /** After a sweep that succeeded, no claim the resource's StatefulSet created is on the server. */
  lemma SweepLeavesNothing(w: World, k: Key, o: Obs, ordinal: nat)
    requires ValidName(k.name) && Sweep(w, k, o).1.None?
    ensures CreatedPvc(k, ordinal) !in Sweep(w, k, o).0.server.pvcs
  {
    hide Sweep, CreatedPvc, SweepMatches;
    SweepIsComplete(k);
    SweepExact(w, k, o, CreatedPvc(k, ordinal));
  }

  /** A sweep of one resource leaves every claim created for another, but for the paired names. */
  lemma SweepSparesOthers(w: World, a: Key, b: Key, o: Obs, ordinal: nat)
    requires ValidName(a.name) && ValidName(b.name) && a != b
    requires !(a.ns == b.ns && EventingPair(a.name, b.name))
    requires CreatedPvc(a, ordinal) in w.server.pvcs
    ensures CreatedPvc(a, ordinal) in Sweep(w, b, o).0.server.pvcs
  {
    hide Sweep, CreatedPvc, SweepMatches;
    SweepOfOther(a, b, ordinal);
    SweepExact(w, b, o, CreatedPvc(a, ordinal));
  }

  // ---- One step ----

  /** The gate opens exactly when a check failed, or all observed streams are `sap` and no `sap` consumer was found. */
  lemma GateOpensIff(o: Obs)
    ensures DeletionGate(o).Open? <==>
            || o.connectFault.Some?
            || o.streams.Err?
            || ((forall s :: s in o.streams.value ==> s == SAP_STREAM) &&
                (o.streamsAgain.Err? || SAP_STREAM !in o.streamsAgain.value || o.consumers != Got(true)))
  {
  }

  /** The sweep within a deletion step, seen from the step's start. */
  function StepSweep(w: World, k: Key, o: Obs): Option<Error>
    requires k in w.server.crs
  {
    Sweep(Emit(ConnectClient(w, k), SweepStarted(k, w.server.crs[k].uid)), k, o).1
  }

  predicate Holding(w: World, k: Key, uid: nat) {
    k in w.server.crs && w.server.crs[k].uid == uid && w.server.crs[k].deleting && NatsFinalizer in w.server.crs[k].finalizers
  }

  /**
   * One deletion step, exactly: the finalizer goes only through an open gate, a completed sweep and a
   * successful update; a closed gate touches no claim and requeues; and a step that keeps the finalizer
   * reports it by an error or a requeue, except when the sweep failed with NotFound.
   */
  lemma DeletionStep(w: World, k: Key, o: Obs)
    requires k in w.server.crs && Holding(w, k, w.server.crs[k].uid)
    ensures var uid := w.server.crs[k].uid;
            var (w1, out) := Delete(w, k, o);
            && (!Holding(w1, k, uid) <==> DeletionGate(o).Open? && StepSweep(w, k, o).None? && o.updateFault.None?)
            && (DeletionGate(o).Blocked? ==> w1.server.pvcs == w.server.pvcs && out.requeue)
            && (Holding(w1, k, uid) ==>
                  (!out.failed && !out.requeue <==>
                   DeletionGate(o).Open? && StepSweep(w, k, o).Some? && StepSweep(w, k, o).value.kind.NotFound?))
  {
    hide DeletionGate, DeleteAll, Labelled, SweepLabel, RegistryKey, Status.IsEqual;
  }

  // ---- Frames ----

  /** Whom an effect concerns. */
  predicate Belongs(e: Effect, k: Key) {
    match e
    case SecretApplied(owner, _) => owner == k
    case ShootInfoRead => true
    case ProcessStarted => true
    case WatchStarted => true
    case ClientStored(_, _) => true
    case ClientClosed(_) => true
    case _ => e.k == k
  }

  /** A step for `k`: it adds effects concerning `k` and leaves every other resource alone. */
  ghost predicate Acts(w: World, w1: World, k: Key) {
    && w.trace <= w1.trace
    && (forall e :: e in w1.trace[|w.trace|..] ==> Belongs(e, k))
    && (forall j :: j != k ==> (j in w.server.crs <==> j in w1.server.crs))
    && (forall j :: j != k && j in w.server.crs && j in w1.server.crs ==> w1.server.crs[j] == w.server.crs[j])
    && w1.server.nextUid == w.server.nextUid
  }

  lemma ActsTransitive(a: World, b: World, c: World, k: Key)
    requires Acts(a, b, k) && Acts(b, c, k)
    ensures Acts(a, c, k)
  {
    forall e | e in c.trace[|a.trace|..] ensures Belongs(e, k) {
      assert c.trace[|a.trace|..] == b.trace[|a.trace|..] + c.trace[|b.trace|..];
    }
  }

  lemma ActsEmit(w: World, e: Effect, k: Key)
    requires Belongs(e, k)
    ensures Acts(w, Emit(w, e), k)
  {
    assert (w.trace + [e])[|w.trace|..] == [e];
  }

  lemma ActsStore(w: World, k: Key, r: Resource)
    ensures Acts(w, Store(w, k, r), k)
  {
    assert w.trace[|w.trace|..] == [];
    if r.deleting && r.finalizers == {} {
      var w1 := w.(server := w.server.(crs := w.server.crs - {k}));
      ActsEmit(w1, Gone(k, r.uid), k);
      ActsTransitive(w, w1, Emit(w1, Gone(k, r.uid)), k);
    }
  }

  lemma ActsElsewhere(w: World, w1: World, k: Key)
    requires w1.trace == w.trace && w1.server.crs == w.server.crs && w1.server.nextUid == w.server.nextUid
    ensures Acts(w, w1, k)
  {
    assert w.trace[|w.trace|..] == [];
  }

  lemma SyncStatusActs(w: World, k: Key, s: Status, o: Obs)
    requires k in w.server.crs
    ensures Acts(w, SyncStatus(w, k, s, o).0, k)
  {
    hide Status.IsEqual;
    ActsElsewhere(w, w, k);
    var r := w.server.crs[k];
    var w1 := w.(server := w.server.(crs := w.server.crs[k := r.(status := s, writes := r.writes + 1)]));
    assert Acts(w, w1, k);
    ActsEmit(w1, StatusWritten(k, r.uid, s), k);
    ActsTransitive(w, w1, Emit(w1, StatusWritten(k, r.uid, s)), k);
  }

  lemma UpdateActs(w: World, k: Key, e: Effect, finalizers: set<Finalizer>)
    requires k in w.server.crs && Belongs(e, k)
    ensures Acts(w, UpdateFinalizers(Emit(w, e), k, finalizers), k)
  {
    var r := w.server.crs[k];
    ActsEmit(w, e, k);
    ActsStore(Emit(w, e), k, r.(finalizers := finalizers, writes := r.writes + 1));
    ActsTransitive(w, Emit(w, e), UpdateFinalizers(Emit(w, e), k, finalizers), k);
  }

  lemma SyncCloudActs(w: World, k: Key, o: Obs)
    ensures Acts(w, SyncCloudProvider(w, o), k)
  {
    ActsElsewhere(w, w, k);
    if w.mem.cloudProvider.None? {
      ActsEmit(w, ShootInfoRead, k);
      ActsElsewhere(Emit(w, ShootInfoRead), SyncCloudProvider(w, o), k);
      ActsTransitive(w, Emit(w, ShootInfoRead), SyncCloudProvider(w, o), k);
    }
  }

  lemma AssessActs(w: World, k: Key, o: Obs)
    requires k in w.server.crs
    ensures Acts(w, Assess(w, k, o).0, k)
  {
    hide InitInstance, ApplyAll, Acts;
    var r := w.server.crs[k];
    ActsElsewhere(w, w, k);
    var i := InitInstance(w, k, r.spec, o);
    if i.Got? {
      var e := Deployed(k, r.uid, i.value.fileSize);
      var w0 := Emit(w, e);
      ActsEmit(w, e, k);
      var w1 := ApplyAll(w0, k, i.value.manifests, o.applyFaults).0;
      ApplyAllActs(w0, k, i.value.manifests, o.applyFaults);
      ActsTransitive(w, w0, w1, k);
      var w2 := w1.(mem := w1.mem.(watchStarted := true));
      ActsElsewhere(w1, w2, k);
      ActsEmit(w2, WatchStarted, k);
      ActsTransitive(w1, w2, Emit(w2, WatchStarted), k);
      ActsTransitive(w, w1, Emit(w2, WatchStarted), k);
    }
  }

  lemma ApplyAllActs(w: World, k: Key, manifests: seq<Manifest>, faults: map<Manifest, Error>)
    ensures Acts(w, ApplyAll(w, k, manifests, faults).0, k)
  {
    hide ApplyAll;
    ApplyAllFrame(w, k, manifests, faults);
  }

  lemma ConnectActs(w: World, k: Key, j: Key)
    ensures Acts(w, ConnectClient(w, j), k)
  {
    hide RegistryKey;
    ActsElsewhere(w, w, k);
    var w0 := w.(mem := ConnectClient(w, j).mem);
    ActsElsewhere(w, w0, k);
    ActsEmit(w0, ClientStored(w.mem.nextClient, RegistryKey(j)), k);
    ActsTransitive(w, w0, Emit(w0, ClientStored(w.mem.nextClient, RegistryKey(j))), k);
  }

  lemma CloseActs(w: World, k: Key, j: Key)
    ensures Acts(w, CloseClient(w, j), k)
  {
    hide RegistryKey;
    ActsElsewhere(w, w, k);
    if RegistryKey(j) in w.mem.clients {
      var w0 := w.(mem := CloseClient(w, j).mem);
      ActsElsewhere(w, w0, k);
      var e := ClientClosed(w.mem.clients[RegistryKey(j)]);
      ActsEmit(w0, e, k);
      ActsTransitive(w, w0, Emit(w0, e), k);
    }
  }

  lemma SweepAndReleaseActs(w: World, k: Key, o: Obs)
    requires k in w.server.crs
    ensures Acts(w, SweepAndRelease(w, k, o).0, k)
  {
    hide Acts, DeleteAll, Labelled, SweepLabel, RegistryKey;
    var uid := w.server.crs[k].uid;
    var w0 := Emit(w, SweepStarted(k, uid));
    ActsEmit(w, SweepStarted(k, uid), k);
    var (w1, fault) := Sweep(w0, k, o);
    ActsElsewhere(w0, w1, k);
    ActsTransitive(w, w0, w1, k);
    if fault.None? {
      var w2 := Emit(w1, Swept(k, uid));
      ActsEmit(w1, Swept(k, uid), k);
      ActsTransitive(w, w1, w2, k);
      var w3 := CloseClient(w2, k);
      CloseActs(w2, k, k);
      ActsTransitive(w, w2, w3, k);
      UpdateActs(w3, k, FinalizerRemoved(k, uid), w3.server.crs[k].finalizers - {NatsFinalizer});
      ActsElsewhere(w3, w3, k);
      ActsTransitive(w, w3, RemoveFinalizer(w3, k, o).0, k);
    }
  }

  /** A reconcile of one resource concerns no other. */
  lemma ReconcileActs(cfg: Config, w: World, k: Key, o: Obs)
    ensures Acts(w, Reconcile(cfg, w, k, o).0, k)
  {
    hide Acts, SweepAndRelease, DeletionGate, ConnectClient, SyncStatus, SyncCloudProvider, Assess, StatusFor, UpdateFinalizers;
    ActsElsewhere(w, w, k);
    if o.readFault.None? && k in w.server.crs {
      var r := w.server.crs[k];
      if r.deleting {
        if NatsFinalizer in r.finalizers {
          var w1 := ConnectClient(w, k);
          ConnectActs(w, k, k);
          assert w1.server == w.server by { assert ConnectClient(w, k).server == w.server by { ConnectServer(w, k); } }
          var gate := DeletionGate(o);
          if gate.Open? {
            SweepAndReleaseActs(w1, k, o);
          } else {
            SyncStatusActs(w1, k, BlockedStatus(r.status, gate.message, o.now), o);
          }
          ActsTransitive(w, w1, Delete(w, k, o).0, k);
        }
      } else if cfg.allowed.Some? && cfg.allowed.value != k {
        SyncStatusActs(w, k, ForbiddenStatus(r.status, cfg.allowed.value, o.now), o);
      } else {
        ProvisionActs(w, k, o);
      }
    }
  }

  lemma ConnectServer(w: World, k: Key)
    ensures ConnectClient(w, k).server == w.server
  {
  }

  lemma ProvisionActs(w: World, k: Key, o: Obs)
    requires k in w.server.crs
    ensures Acts(w, Provision(w, k, o).0, k)
  {
    hide Acts, SyncStatus, Assess, StatusFor, UpdateFinalizers;
    var w1 := SyncCloudProvider(w, o);
    SyncCloudActs(w, k, o);
    if NatsFinalizer !in w1.server.crs[k].finalizers {
      UpdateActs(w1, k, FinalizerAdded(k, w1.server.crs[k].uid), w1.server.crs[k].finalizers + {NatsFinalizer});
      ActsElsewhere(w1, w1, k);
    } else {
      var (w2, v) := Assess(w1, k, o);
      ApplyAllKeeps(w1, k, o);
      AssessActs(w1, k, o);
      var r := w2.server.crs[k];
      SyncStatusActs(w2, k, StatusFor(v, r.status, k, r.spec.clusterSize, o.now), o);
      ActsTransitive(w1, w2, Provision(w, k, o).0, k);
    }
    ActsTransitive(w, w1, Provision(w, k, o).0, k);
  }

  // ---- Any number of steps ----

  /** Each reconcile of `k` finds the gate closed, or cannot read the resource. */
  ghost predicate AlwaysBlocked(es: seq<Event>, k: Key) {
    forall e :: e in es && e.Reconciled? && e.k == k ==> e.o.readFault.Some? || DeletionGate(e.o).Blocked?
  }

  /**
   * While the checks succeed and find a foreign stream or a `sap` consumer, over any number of steps of
   * anyone the resource keeps its finalizer and no sweep of it is even started.
   */
  lemma {:induction false} BlockedHolds(cfg: Config, w: World, es: seq<Event>, k: Key, uid: nat)
    requires Holding(w, k, uid) && AlwaysBlocked(es, k)
    ensures var now := Run(cfg, w, es);
            && Holding(now, k, uid)
            && w.trace <= now.trace
            && forall e :: e in now.trace[|w.trace|..] ==> !(e.SweepStarted? && e.k == k)
  {
    if es == [] {
      assert w.trace[|w.trace|..] == [];
    } else {
      var front, last := es[..|es| - 1], es[|es| - 1];
      assert last in es && forall e :: e in front ==> e in es;
      BlockedHolds(cfg, w, front, k, uid);
      BlockedStep(cfg, Run(cfg, w, front), last, k, uid);
      var a, b := Run(cfg, w, front).trace, Run(cfg, w, es).trace;
      assert b[|w.trace|..] == a[|w.trace|..] + b[|a|..];
    }
  }

  lemma BlockedStep(cfg: Config, w: World, e: Event, k: Key, uid: nat)
    requires Holding(w, k, uid) && AlwaysBlocked([e], k)
    ensures var now := Step(cfg, w, e);
            && Holding(now, k, uid)
            && w.trace <= now.trace
            && forall x :: x in now.trace[|w.trace|..] ==> !(x.SweepStarted? && x.k == k)
  {
    hide Reconcile, DeletionGate, Without;
    assert w.trace[|w.trace|..] == [];
    match e
    case Reconciled(j, o) =>
      assert e in [e];
      if j != k {
        ReconcileActs(cfg, w, j, o);
      } else {
        BlockedReconcile(cfg, w, k, o, uid);
      }
    case SpecEdited(j, spec) =>
      if j in w.server.crs {
        ActsStore(w, j, w.server.crs[j].(spec := spec));
      }
    case FinalizersEdited(j, finalizers) =>
      if j in w.server.crs {
        var r := w.server.crs[j];
        ActsStore(w, j, r.(finalizers := (finalizers - {NatsFinalizer}) + (r.finalizers * {NatsFinalizer})));
      }
    case DeletionRequested(j) =>
      if j in w.server.crs {
        ActsStore(w, j, w.server.crs[j].(deleting := true));
      }
    case _ =>
  }

  lemma BlockedReconcile(cfg: Config, w: World, k: Key, o: Obs, uid: nat)
    requires Holding(w, k, uid) && (o.readFault.Some? || DeletionGate(o).Blocked?)
    ensures var now := Reconcile(cfg, w, k, o).0;
            && Holding(now, k, uid)
            && w.trace <= now.trace
            && forall x :: x in now.trace[|w.trace|..] ==> !(x.SweepStarted? && x.k == k)
  {
    hide DeletionGate, RegistryKey, Status.IsEqual, BlockedStatus;
    assert w.trace[|w.trace|..] == [];
    if o.readFault.None? {
      DeletionStep(w, k, o);
      var w1 := ConnectClient(w, k);
      var s := BlockedStatus(w.server.crs[k].status, DeletionGate(o).message, o.now);
      var now := SyncStatus(w1, k, s, o).0;
      assert forall x :: x in now.trace[|w.trace|..] ==> x.ClientStored? || x.StatusWritten?;
    }
  }

  // ---- What that means for the claims ----

  predicate Finalized(w: World, k: Key) {
    k in w.server.crs && NatsFinalizer in w.server.crs[k].finalizers
  }

  /** What a reconcile of `k` does to the claims: nothing, or one sweep for `k`. */
  lemma ReconcilePvcs(cfg: Config, w: World, k: Key, o: Obs)
    ensures var w1 := Reconcile(cfg, w, k, o).0;
            || w1.server.pvcs == w.server.pvcs
            || exists at: World :: at.server.pvcs == w.server.pvcs && w1.server.pvcs == Sweep(at, k, o).0.server.pvcs
  {
    hide Assess, StatusFor, Status.IsEqual, DeletionGate, RegistryKey, Sweep, BlockedStatus, ForbiddenStatus;
    if o.readFault.None? && k in w.server.crs {
      var r := w.server.crs[k];
      if r.deleting {
        SweepFrame(Emit(ConnectClient(w, k), SweepStarted(k, r.uid)), k, o);
      } else {
        var w0 := SyncCloudProvider(w, o);
        AssessPvcs(w0, k, o);
        ApplyAllKeeps(w0, k, o);
      }
    }
  }

  lemma SweepFrame(w: World, k: Key, o: Obs)
    ensures Sweep(w, k, o).0 == w.(server := w.server.(pvcs := Sweep(w, k, o).0.server.pvcs))
  {
    hide DeleteAll, Labelled, SweepLabel;
  }

  lemma AssessPvcs(w: World, k: Key, o: Obs)
    requires k in w.server.crs
    ensures Assess(w, k, o).0.server.pvcs == w.server.pvcs
  {
    hide InitInstance, ApplyAll;
    var r := w.server.crs[k];
    var i := InitInstance(w, k, r.spec, o);
    if i.Got? {
      ApplyAllFrame(Emit(w, Deployed(k, r.uid, i.value.fileSize)), k, i.value.manifests, o.applyFaults);
    }
  }

  /** Only a reconcile of the resource itself, once its deletion was requested, can take its finalizer. */
  lemma FinalizerTaken(cfg: Config, w: World, e: Event, k: Key)
    requires Finalized(w, k)
    ensures Finalized(Step(cfg, w, e), k) || (e.Reconciled? && e.k == k && e.o.readFault.None? && w.server.crs[k].deleting)
  {
    hide Reconcile, Without;
    if e.Reconciled? {
      if e.k != k {
        ReconcileActs(cfg, w, e.k, e.o);
      } else if e.o.readFault.Some? || !w.server.crs[k].deleting {
        LiveKeepsFinalizer(cfg, w, k, e.o);
      }
    }
  }

  lemma LiveKeepsFinalizer(cfg: Config, w: World, k: Key, o: Obs)
    requires Finalized(w, k) && (o.readFault.Some? || !w.server.crs[k].deleting)
    ensures Finalized(Reconcile(cfg, w, k, o).0, k)
  {
    hide Assess, StatusFor, Status.IsEqual, ForbiddenStatus;
    ApplyAllKeeps(SyncCloudProvider(w, o), k, o);
  }

  /** In whatever step of anyone a resource loses the finalizer, none of its StatefulSet's claims is left afterwards. */
  lemma ReleaseLeavesNothing(cfg: Config, w: World, e: Event, k: Key, ordinal: nat)
    requires ValidName(k.name) && Finalized(w, k)
    ensures Finalized(Step(cfg, w, e), k) || CreatedPvc(k, ordinal) !in Step(cfg, w, e).server.pvcs
  {
    FinalizerTaken(cfg, w, e, k);
    if !Finalized(Step(cfg, w, e), k) {
      hide Sweep, DeletionGate, CreatedPvc, ValidName, RegistryKey, Status.IsEqual, BlockedStatus;
      var at := Emit(ConnectClient(w, k), SweepStarted(k, w.server.crs[k].uid));
      DeletionStep(w, k, e.o);
      SweepLeavesNothing(at, k, e.o, ordinal);
    }
  }

  /** No event of the run takes this claim away but through a sweep, and no sweep is for a resource that shares it. */
  ghost predicate LeavesAlone(es: seq<Event>, k: Key, p: Pvc) {
    forall e :: e in es ==>
      && (e.PvcRemoved? ==> e.p != p)
      && (e.Reconciled? && e.k != k ==> ValidName(e.k.name) && !(e.k.ns == k.ns && EventingPair(k.name, e.k.name)))
  }

  /** A blocked deletion loses no claim, over any number of steps, while other resources come and go. */
  lemma {:induction false} BlockedKeepsClaims(cfg: Config, w: World, es: seq<Event>, k: Key, uid: nat, ordinal: nat)
    requires ValidName(k.name) && Holding(w, k, uid) && AlwaysBlocked(es, k)
    requires CreatedPvc(k, ordinal) in w.server.pvcs && LeavesAlone(es, k, CreatedPvc(k, ordinal))
    ensures CreatedPvc(k, ordinal) in Run(cfg, w, es).server.pvcs
  {
    hide CreatedPvc, ValidName, Step, Holding;
    if es != [] {
      var front, last := es[..|es| - 1], es[|es| - 1];
      assert last in es && forall e :: e in front ==> e in es;
      BlockedKeepsClaims(cfg, w, front, k, uid, ordinal);
      BlockedHolds(cfg, w, front, k, uid);
      KeepsClaim(cfg, Run(cfg, w, front), last, k, uid, ordinal);
    }
  }

  lemma KeepsClaim(cfg: Config, w: World, e: Event, k: Key, uid: nat, ordinal: nat)
    requires ValidName(k.name) && Holding(w, k, uid) && AlwaysBlocked([e], k)
    requires CreatedPvc(k, ordinal) in w.server.pvcs && LeavesAlone([e], k, CreatedPvc(k, ordinal))
    ensures CreatedPvc(k, ordinal) in Step(cfg, w, e).server.pvcs
  {
    hide CreatedPvc, ValidName, Reconcile, Sweep, DeletionGate;
    var p := CreatedPvc(k, ordinal);
    assert e in [e];
    match e
    case Reconciled(j, o) =>
      if j == k {
        BlockedPvcs(cfg, w, k, o, uid);
      } else {
        ReconcilePvcs(cfg, w, j, o);
        var w1 := Reconcile(cfg, w, j, o).0;
        if w1.server.pvcs != w.server.pvcs {
          var at: World :| at.server.pvcs == w.server.pvcs && w1.server.pvcs == Sweep(at, j, o).0.server.pvcs;
          SweepSparesOthers(at, k, j, o, ordinal);
        }
      }
    case PvcRemoved(q) => WithoutMember(w.server.pvcs, q, p);
    case _ =>
  }

  lemma BlockedPvcs(cfg: Config, w: World, k: Key, o: Obs, uid: nat)
    requires Holding(w, k, uid) && (o.readFault.Some? || DeletionGate(o).Blocked?)
    ensures Reconcile(cfg, w, k, o).0.server.pvcs == w.server.pvcs
  {
    hide DeletionGate, Delete;
    if o.readFault.None? {
      DeletionStep(w, k, o);
    }
  }
}
