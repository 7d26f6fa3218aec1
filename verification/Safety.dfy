/** Safety over all runs: stored statuses, storage that is never orphaned, and the single allowed resource. */
module Safety {
  import opened Wrappers
  import opened NatsStatus
  import opened Naming
  import opened Operator
  import opened StatusRules

  // ---- Deployed and not swept since ----

  /** Has the resource been deployed with no completed sweep since? */
  ghost predicate Dirty(trace: seq<Effect>, k: Key, uid: nat) {
    trace != [] &&
    var last := trace[|trace| - 1];
    if last.Deployed? && last.k == k && last.uid == uid then true
    else if last == Swept(k, uid) then false
    else Dirty(trace[..|trace| - 1], k, uid)
  }

  lemma DirtyEmit(trace: seq<Effect>, e: Effect, k: Key, uid: nat)
    ensures Dirty(trace + [e], k, uid) ==
            if e.Deployed? && e.k == k && e.uid == uid then true
            else if e == Swept(k, uid) then false
            else Dirty(trace, k, uid)
  {
    assert (trace + [e])[..|trace|] == trace;
  }

  /** Not dirty means: every deployment was followed by a completed sweep. */
  lemma {:induction false} CleanMeansSwept(trace: seq<Effect>, k: Key, uid: nat, j: nat)
    requires !Dirty(trace, k, uid) && j < |trace|
    requires trace[j].Deployed? && trace[j].k == k && trace[j].uid == uid
    ensures exists m :: j < m < |trace| && trace[m] == Swept(k, uid)
  {
    if trace[|trace| - 1] != Swept(k, uid) {
      var front := trace[..|trace| - 1];
      CleanMeansSwept(front, k, uid, j);
      var m :| j < m < |front| && front[m] == Swept(k, uid);
      assert trace[m] == Swept(k, uid);
    }
  }

  // ---- The invariant ----

  predicate Permitted(cfg: Config, k: Key) {
    cfg.allowed.Some? ==> cfg.allowed.value == k
  }

  /** Effects only a permitted resource may cause. */
  predicate Restricted(e: Effect) {
    e.FinalizerAdded? || e.FinalizerRemoved? || e.Deployed? || e.SweepStarted? || e.Swept?
  }

  ghost predicate ResourceOk(cfg: Config, w: World, k: Key, r: Resource) {
    && r.uid < w.server.nextUid
    && WellFormed(r.status, k, r.deleting)
    && (NatsFinalizer in r.finalizers ==> Permitted(cfg, k))
  }

  ghost predicate EffectOk(cfg: Config, w: World, e: Effect) {
    && (e.StatusWritten? ==> WellFormed(e.status, e.k, true))
    && (Restricted(e) ==> Permitted(cfg, e.k))
    && (e.SecretApplied? ==> Permitted(cfg, e.owner))
    && (e.Deployed? ==> e.uid < w.server.nextUid)
  }

  /** Whatever is deployed and not swept is still on the server and holds the controller's finalizer. */
  ghost predicate Guarded(w: World) {
    forall k, uid :: Dirty(w.trace, k, uid) ==>
                       k in w.server.crs && w.server.crs[k].uid == uid && NatsFinalizer in w.server.crs[k].finalizers
  }

  /** No resource ever left the server dirty. */
  ghost predicate NoOrphan(trace: seq<Effect>) {
    forall i :: 0 <= i < |trace| && trace[i].Gone? ==> !Dirty(trace[..i], trace[i].k, trace[i].uid)
  }

  ghost predicate Safe(cfg: Config, w: World) {
    && (forall k :: k in w.server.crs ==> ResourceOk(cfg, w, k, w.server.crs[k]))
    && (forall e :: e in w.trace ==> EffectOk(cfg, w, e))
    && Guarded(w)
    && NoOrphan(w.trace)
  }

  // ---- Primitive steps keep it ----

  lemma NoOrphanEmit(trace: seq<Effect>, e: Effect)
    requires NoOrphan(trace) && (e.Gone? ==> !Dirty(trace, e.k, e.uid))
    ensures NoOrphan(trace + [e])
  {
    var t := trace + [e];
    forall i | 0 <= i < |t| && t[i].Gone? ensures !Dirty(t[..i], t[i].k, t[i].uid) {
      assert t[..i] == trace[..i];
      assert trace[..|trace|] == trace;
    }
  }

  lemma EmitKeeps(cfg: Config, w: World, e: Effect)
    requires Safe(cfg, w) && EffectOk(cfg, w, e)
    requires e.Gone? ==> !Dirty(w.trace, e.k, e.uid)
    requires e.Deployed? ==>
               e.k in w.server.crs && w.server.crs[e.k].uid == e.uid && NatsFinalizer in w.server.crs[e.k].finalizers
    ensures Safe(cfg, Emit(w, e))
  {
    hide Dirty, WellFormed;
    NoOrphanEmit(w.trace, e);
    forall k, uid | Dirty(w.trace + [e], k, uid)
      ensures k in w.server.crs && w.server.crs[k].uid == uid && NatsFinalizer in w.server.crs[k].finalizers
    {
      DirtyEmit(w.trace, e, k, uid);
    }
  }

  lemma StoreKeeps(cfg: Config, w: World, k: Key, r: Resource)
    requires Safe(cfg, w) && k in w.server.crs && r.uid == w.server.crs[k].uid
    requires ResourceOk(cfg, w, k, r)
    requires NatsFinalizer in r.finalizers || !Dirty(w.trace, k, r.uid)
    ensures Safe(cfg, Store(w, k, r))
  {
    hide Dirty, WellFormed;
    if r.deleting && r.finalizers == {} {
      var w1 := w.(server := w.server.(crs := w.server.crs - {k}));
      assert Safe(cfg, w1);
      EmitKeeps(cfg, w1, Gone(k, r.uid));
    }
  }

  lemma ElsewhereKeeps(cfg: Config, w: World, w1: World)
    requires Safe(cfg, w) && w1.trace == w.trace && w1.server.crs == w.server.crs && w1.server.nextUid == w.server.nextUid
    ensures Safe(cfg, w1)
  {
    hide Dirty, WellFormed;
  }

  // ---- A reconcile keeps it ----

  lemma SyncStatusKeeps(cfg: Config, w: World, k: Key, d: Decision, o: Obs)
    requires Safe(cfg, w) && k in w.server.crs && (d.Held? <==> w.server.crs[k].deleting)
    requires NatsFinalizer in w.server.crs[k].finalizers || !w.server.crs[k].deleting
    ensures Safe(cfg, SyncStatus(w, k, Decide(d, w.server.crs[k].status, k, o.now), o).0)
  {
    hide Dirty, WellFormed, Decide, Status.IsEqual;
    var r := w.server.crs[k];
    var status := Decide(d, r.status, k, o.now);
    DecisionWellFormed(d, r.status, k, r.deleting, o.now);
    var r1 := r.(status := status, writes := r.writes + 1);
    if NatsFinalizer !in r.finalizers {
      assert !Dirty(w.trace, k, r.uid);
    }
    StoreKeeps(cfg, w, k, r1);
    WellFormedDeleting(status, k, r.deleting);
    EmitKeeps(cfg, Store(w, k, r1), StatusWritten(k, r.uid, status));
  }

  lemma WellFormedDeleting(s: Status, k: Key, deleting: bool)
    requires WellFormed(s, k, deleting)
    ensures WellFormed(s, k, true)
  {
  }

  lemma {:induction false} ApplyAllSafe(cfg: Config, w: World, owner: Key, manifests: seq<Manifest>, faults: map<Manifest, Error>)
    requires Safe(cfg, w) && Permitted(cfg, owner)
    ensures Safe(cfg, ApplyAll(w, owner, manifests, faults).0)
    decreases |manifests|
  {
    hide Safe;
    if manifests != [] && manifests[0] !in faults {
      var w1 := Apply(w, owner, manifests[0]);
      if manifests[0].SecretManifest? {
        var w0 := w.(server := w.server.(secrets := w.server.secrets + {manifests[0].key}));
        ElsewhereKeeps(cfg, w, w0);
        EmitKeeps(cfg, w0, SecretApplied(owner, manifests[0].key));
      }
      ApplyAllSafe(cfg, w1, owner, manifests[1..], faults);
    }
  }

  lemma AssessKeeps(cfg: Config, w: World, k: Key, o: Obs)
    requires Safe(cfg, w) && k in w.server.crs && NatsFinalizer in w.server.crs[k].finalizers
    ensures Safe(cfg, Assess(w, k, o).0)
  {
    hide Dirty, WellFormed;
    var r := w.server.crs[k];
    assert ResourceOk(cfg, w, k, r);
    var i := InitInstance(w, k, r.spec, o);
    if i.Got? {
      hide Safe, InitInstance, ApplyAll;
      var e := Deployed(k, r.uid, i.value.fileSize);
      EmitKeeps(cfg, w, e);
      ApplyAllSafe(cfg, Emit(w, e), k, i.value.manifests, o.applyFaults);
      var w1 := ApplyAll(Emit(w, e), k, i.value.manifests, o.applyFaults).0;
      var w2 := w1.(mem := w1.mem.(watchStarted := true));
      ElsewhereKeeps(cfg, w1, w2);
      EmitKeeps(cfg, w2, WatchStarted);
    }
  }

  lemma SyncCloudKeeps(cfg: Config, w: World, o: Obs)
    requires Safe(cfg, w)
    ensures Safe(cfg, SyncCloudProvider(w, o))
  {
    hide Safe;
    if w.mem.cloudProvider.None? {
      EmitKeeps(cfg, w, ShootInfoRead);
      ElsewhereKeeps(cfg, Emit(w, ShootInfoRead), SyncCloudProvider(w, o));
    }
  }

  lemma ProvisionKeeps(cfg: Config, w: World, k: Key, o: Obs)
    requires Safe(cfg, w) && k in w.server.crs && !w.server.crs[k].deleting && Permitted(cfg, k)
    ensures Safe(cfg, Provision(w, k, o).0)
  {
    hide Dirty, WellFormed, StatusFor, Assess;
    SyncCloudKeeps(cfg, w, o);
    var w1 := SyncCloudProvider(w, o);
    var r := w1.server.crs[k];
    assert r == w.server.crs[k] && ResourceOk(cfg, w1, k, r);
    if NatsFinalizer !in r.finalizers {
      var e := FinalizerAdded(k, r.uid);
      EmitKeeps(cfg, w1, e);
      StoreKeeps(cfg, Emit(w1, e), k, r.(finalizers := r.finalizers + {NatsFinalizer}, writes := r.writes + 1));
    } else {
      AssessKeeps(cfg, w1, k, o);
      ApplyAllKeeps(w1, k, o);
      var (w2, v) := Assess(w1, k, o);
      SyncStatusKeeps(cfg, w2, k, Judged(v, r.spec.clusterSize), o);
    }
  }

  lemma DeleteKeeps(cfg: Config, w: World, k: Key, o: Obs)
    requires Safe(cfg, w) && k in w.server.crs && w.server.crs[k].deleting
    ensures Safe(cfg, Delete(w, k, o).0)
  {
    hide Dirty, WellFormed, DeletionGate, ForeignStream, RegistryKey;
    var r := w.server.crs[k];
    assert ResourceOk(cfg, w, k, r);
    if NatsFinalizer in r.finalizers {
      var w1 := ConnectClient(w, k);
      if RegistryKey(k) !in w.mem.clients {
        var w0 := w.(mem := w1.mem);
        ElsewhereKeeps(cfg, w, w0);
        EmitKeeps(cfg, w0, ClientStored(w.mem.nextClient, RegistryKey(k)));
      }
      var gate := DeletionGate(o);
      if gate.Blocked? {
        SyncStatusKeeps(cfg, w1, k, Held(gate.message), o);
      } else {
        SweepAndReleaseKeeps(cfg, w1, k, o);
      }
    }
  }

  lemma SweepAndReleaseKeeps(cfg: Config, w: World, k: Key, o: Obs)
    requires Safe(cfg, w) && k in w.server.crs && w.server.crs[k].deleting && NatsFinalizer in w.server.crs[k].finalizers
    ensures Safe(cfg, SweepAndRelease(w, k, o).0)
  {
    hide Dirty, WellFormed, Labelled, DeleteAll, RegistryKey, SweepLabel;
    var r := w.server.crs[k];
    assert ResourceOk(cfg, w, k, r);
    var e := SweepStarted(k, r.uid);
    EmitKeeps(cfg, w, e);
    var (w1, fault) := Sweep(Emit(w, e), k, o);
    ElsewhereKeeps(cfg, Emit(w, e), w1);
    if fault.None? {
      var w2 := Emit(w1, Swept(k, r.uid));
      EmitKeeps(cfg, w1, Swept(k, r.uid));
      DirtyEmit(w1.trace, Swept(k, r.uid), k, r.uid);
      ReleaseKeeps(cfg, w2, k, o);
    }
  }

  /** Once swept, closing the client and giving the finalizer up orphans nothing. */
  lemma ReleaseKeeps(cfg: Config, w: World, k: Key, o: Obs)
    requires Safe(cfg, w) && k in w.server.crs && w.server.crs[k].deleting && NatsFinalizer in w.server.crs[k].finalizers
    requires !Dirty(w.trace, k, w.server.crs[k].uid)
    ensures Safe(cfg, RemoveFinalizer(CloseClient(w, k), k, o).0)
  {
    hide Dirty, WellFormed, RegistryKey;
    var r := w.server.crs[k];
    var w1 := CloseClient(w, k);
    if RegistryKey(k) in w.mem.clients {
      var id := w.mem.clients[RegistryKey(k)];
      var w0 := w.(mem := w1.mem);
      ElsewhereKeeps(cfg, w, w0);
      EmitKeeps(cfg, w0, ClientClosed(id));
      DirtyEmit(w0.trace, ClientClosed(id), k, r.uid);
    }
    assert ResourceOk(cfg, w1, k, r);
    var f := FinalizerRemoved(k, r.uid);
    EmitKeeps(cfg, w1, f);
    DirtyEmit(w1.trace, f, k, r.uid);
    StoreKeeps(cfg, Emit(w1, f), k, r.(finalizers := r.finalizers - {NatsFinalizer}, writes := r.writes + 1));
  }

  lemma ReconcileKeeps(cfg: Config, w: World, k: Key, o: Obs)
    requires Safe(cfg, w)
    ensures Safe(cfg, Reconcile(cfg, w, k, o).0)
  {
    hide Safe, Delete, Provision, ForbiddenStatus, SyncStatus;
    if o.readFault.None? && k in w.server.crs {
      if w.server.crs[k].deleting {
        DeleteKeeps(cfg, w, k, o);
      } else if cfg.allowed.Some? && cfg.allowed.value != k {
        SyncStatusKeeps(cfg, w, k, Refused(cfg.allowed.value), o);
      } else {
        ProvisionKeeps(cfg, w, k, o);
      }
    }
  }

  // ---- Every step and every run keeps it ----

  lemma StepKeeps(cfg: Config, w: World, e: Event)
    requires Safe(cfg, w)
    ensures Safe(cfg, Step(cfg, w, e))
  {
    hide Dirty, WellFormed, Reconcile, Without;
    match e
    case Reconciled(k, o) =>
      ReconcileKeeps(cfg, w, k, o);
    case Created(k, spec, finalizers) =>
      EmptyWellFormed(k);
    case SpecEdited(k, spec) =>
      if k in w.server.crs {
        assert ResourceOk(cfg, w, k, w.server.crs[k]);
        StoreKeeps(cfg, w, k, w.server.crs[k].(spec := spec));
      }
    case FinalizersEdited(k, finalizers) =>
      if k in w.server.crs {
        var r := w.server.crs[k];
        assert ResourceOk(cfg, w, k, r);
        StoreKeeps(cfg, w, k, r.(finalizers := (finalizers - {NatsFinalizer}) + (r.finalizers * {NatsFinalizer})));
      }
    case DeletionRequested(k) =>
      if k in w.server.crs {
        var r := w.server.crs[k];
        assert ResourceOk(cfg, w, k, r);
        DeletingWellFormed(r.status, k);
        StoreKeeps(cfg, w, k, r.(deleting := true));
      }
    case Restarted =>
      var w1 := w.(mem := Step(cfg, w, e).mem);
      ElsewhereKeeps(cfg, w, w1);
      EmitKeeps(cfg, w1, ProcessStarted);
    case _ =>
      ElsewhereKeeps(cfg, w, Step(cfg, w, e));
  }

  lemma DeletingWellFormed(s: Status, k: Key)
    ensures WellFormed(s, k, false) ==> WellFormed(s, k, true)
  {
  }

  lemma {:induction false} RunKeeps(cfg: Config, w: World, es: seq<Event>)
    requires Safe(cfg, w)
    ensures Safe(cfg, Run(cfg, w, es))
  {
    if es != [] {
      RunKeeps(cfg, w, es[..|es| - 1]);
      StepKeeps(cfg, Run(cfg, w, es[..|es| - 1]), es[|es| - 1]);
    }
  }

  lemma RunSafe(cfg: Config, w: World, es: seq<Event>)
    requires Initial(w)
    ensures Safe(cfg, Run(cfg, w, es))
  {
    RunKeeps(cfg, w, es);
  }

  // ---- The theorems ----

  /** In every run, every status ever written and every status stored is well formed. */
  lemma StatusesWellFormed(cfg: Config, w: World, es: seq<Event>)
    requires Initial(w)
    ensures var now := Run(cfg, w, es);
            && (forall k :: k in now.server.crs ==> WellFormed(now.server.crs[k].status, k, now.server.crs[k].deleting))
            && (forall e :: e in now.trace && e.StatusWritten? ==> WellFormed(e.status, e.k, true) && !e.status.state.Deleting?)
  {
    hide WellFormed, Run, Guarded, NoOrphan;
    RunSafe(cfg, w, es);
    var now := Run(cfg, w, es);
    forall k | k in now.server.crs
      ensures WellFormed(now.server.crs[k].status, k, now.server.crs[k].deleting)
    {
      assert ResourceOk(cfg, now, k, now.server.crs[k]);
    }
    forall e | e in now.trace && e.StatusWritten? ensures WellFormed(e.status, e.k, true) && !e.status.state.Deleting? {
      assert EffectOk(cfg, now, e);
      NeverDeleting(e.status, e.k);
    }
  }

  lemma NeverDeleting(s: Status, k: Key)
    requires WellFormed(s, k, true)
    ensures !s.state.Deleting?
  {
  }

  /** In every run, a resource that was deployed leaves the server only after a later sweep of it completed. */
  lemma NoOrphanedStorage(cfg: Config, w: World, es: seq<Event>, i: nat, j: nat)
    requires Initial(w)
    requires var t := Run(cfg, w, es).trace;
             && j < i < |t| && t[i].Gone?
             && t[j].Deployed? && t[j].k == t[i].k && t[j].uid == t[i].uid
    ensures var t := Run(cfg, w, es).trace;
            exists m :: j < m < i && t[m] == Swept(t[i].k, t[i].uid)
  {
    hide Run, Dirty;
    RunSafe(cfg, w, es);
    var t := Run(cfg, w, es).trace;
    CleanMeansSwept(t[..i], t[i].k, t[i].uid, j);
    var m :| j < m < i && t[..i][m] == Swept(t[i].k, t[i].uid);
    assert t[m] == Swept(t[i].k, t[i].uid);
  }

  /**
   * With a single allowed resource, in every run no other resource gets the controller's finalizer, is
   * deployed, or is swept; and once its deletion is requested its reconcile does nothing at all.
   */
  lemma OnlyAllowedIsManaged(cfg: Config, w: World, es: seq<Event>, k: Key)
    requires Initial(w) && cfg.allowed.Some? && cfg.allowed.value != k
    ensures var now := Run(cfg, w, es);
            && (forall e :: e in now.trace && Restricted(e) ==> e.k != k)
            && (forall e :: e in now.trace && e.SecretApplied? ==> e.owner != k)
            && (k in now.server.crs ==> NatsFinalizer !in now.server.crs[k].finalizers)
            && (k in now.server.crs && now.server.crs[k].deleting ==>
                  forall o: Obs :: o.readFault.None? ==> Reconcile(cfg, now, k, o) == (now, DONE))
            && (k in now.server.crs && now.server.crs[k].finalizers == {} ==>
                  k !in Step(cfg, now, DeletionRequested(k)).server.crs)
  {
    hide Run, Guarded, NoOrphan, WellFormed;
    RunSafe(cfg, w, es);
    var now := Run(cfg, w, es);
    forall e | e in now.trace ensures (Restricted(e) ==> e.k != k) && (e.SecretApplied? ==> e.owner != k) {
      assert EffectOk(cfg, now, e);
    }
    if k in now.server.crs {
      assert ResourceOk(cfg, now, k, now.server.crs[k]);
    }
  }
}
