/** What one reconcile decides, told by its observations alone: outcomes, writes, readiness, provider, watch and client. */
module Outcomes {
  import opened Wrappers
  import opened Conditions
  import opened NatsStatus
  import opened Naming
  import opened Operator
  import opened StatusRules
  import opened Deletion
  import opened Convergence
  import O = Overrides
  import P = Process

  const GI := 1024 * 1024 * 1024

  // ---- What can go wrong on the way to the status decision ----

  /** The provider a reconcile goes by: the cached one, else what shoot-info answers. */
  function KnownProvider(w: World, o: Obs): string {
    match w.mem.cloudProvider
    case Some(p) => p
    case None => if o.shootInfo.Got? then o.shootInfo.value else ""
  }

  predicate InstanceFails(w: World, k: Key, o: Obs)
    requires k in w.server.crs
  {
    var requested := w.server.crs[k].spec.fileStorageSize;
    || (o.crdFault.Some? && !o.crdFault.value.kind.NotFound?)
    || o.secretFault.Some?
    || (KnownProvider(w, o) == "alicloud" && 0 < requested < 20 * GI)
    || o.renderFault.Some?
  }

  /** The objects deployed: the Secret only when the looked-up one is missing, the DestinationRule only with Istio. */
  predicate Deploys(w: World, k: Key, o: Obs, m: Manifest) {
    var full := Key(k.ns, Fullname(k.name));
    match m
    case SecretManifest(s) => s == Key(k.ns, Fullname(k.name) + "-secret") && Key(k.ns, k.name + "-secret") !in w.server.secrets
    case DestinationRuleManifest(r) => r == full && o.crdFault.None?
    case _ => m.key == full
  }

  predicate ApplyFails(w: World, k: Key, o: Obs) {
    exists m :: m in o.applyFaults && Deploys(w, k, o, m)
  }

  predicate WatchFails(w: World, o: Obs) {
    o.crdFault.None? && !w.mem.watchStarted && o.watchFault.Some?
  }

  predicate DeployFails(w: World, k: Key, o: Obs)
    requires k in w.server.crs
  {
    InstanceFails(w, k, o) || ApplyFails(w, k, o) || WatchFails(w, o)
  }

  /** All replicas are current, updated and ready. */
  predicate AllReady(s: StatefulSetState) {
    s.current == s.replicas && s.updated == s.replicas && s.ready == s.replicas
  }

  lemma RenderedIs(w: World, k: Key, o: Obs, m: Manifest)
    ensures m in Rendered(k, LookupSecret(k) !in w.server.secrets, o.crdFault.None?) <==> Deploys(w, k, o, m)
  {
    hide Fullname;
  }

  lemma {:induction false} FirstFaultIff(manifests: seq<Manifest>, faults: map<Manifest, Error>)
    ensures FirstFault(manifests, faults).Some? <==> exists m :: m in manifests && m in faults
  {
    if manifests != [] {
      assert manifests == [manifests[0]] + manifests[1..];
      FirstFaultIff(manifests[1..], faults);
    }
  }

  lemma DeployFaultIff(w: World, k: Key, o: Obs)
    requires k in w.server.crs
    ensures var d := DeployFault(SyncCloudProvider(w, o), k, w.server.crs[k].spec, o);
            && (d.Err? <==> InstanceFails(w, k, o))
            && (d.Got? ==> (d.value.0.Some? <==> ApplyFails(w, k, o)) && (d.value.1 <==> o.crdFault.None?))
  {
    hide Rendered, FirstFault, Deploys, LookupSecret;
    var ms := Rendered(k, LookupSecret(k) !in w.server.secrets, o.crdFault.None?);
    FirstFaultIff(ms, o.applyFaults);
    forall m ensures m in ms <==> Deploys(w, k, o, m) {
      RenderedIs(w, k, o, m);
    }
  }

  /** The verdict, from the observations. */
  lemma VerdictIs(w: World, k: Key, o: Obs)
    requires k in w.server.crs
    ensures VerdictOf(w, k, o).Broken? <==> DeployFails(w, k, o)
    ensures !DeployFails(w, k, o) ==>
              VerdictOf(w, k, o) == match o.statefulSet
                                    case Err(e) => StatefulSetUnknown(e.message)
                                    case Got(s) => if AllReady(s) then Running(o.zones) else NotReady
  {
    hide Assess, DeployFault, InstanceFails, ApplyFails;
    VerdictFromFault(SyncCloudProvider(w, o), k, o);
    DeployFaultIff(w, k, o);
  }

  // ---- The outcome of a live resource ----

  predicate Forbidden(cfg: Config, k: Key) {
    cfg.allowed.Some? && !(cfg.allowed.value.ns == k.ns && cfg.allowed.value.name == k.name)
  }

  /** The resource can be read again, and its status is as it should be or can be written. */
  predicate Synced(cfg: Config, w: World, k: Key, o: Obs)
    requires k in w.server.crs
  {
    o.latestFault.None? && (Settled(cfg, w, k, o) || o.statusFault.None?)
  }

  predicate Waits(w: World, k: Key, o: Obs)
    requires k in w.server.crs
  {
    !DeployFails(w, k, o) && o.statefulSet.Got? && !AllReady(o.statefulSet.value)
  }

  predicate ZonesFail(o: Obs) {
    o.zones.Err? && !o.zones.error.kind.ZoneLabelMissing?
  }

  predicate RunsReady(w: World, k: Key, o: Obs)
    requires k in w.server.crs
  {
    !DeployFails(w, k, o) && o.statefulSet.Got? && AllReady(o.statefulSet.value)
  }

  /**
   * The reconcile of a live resource: exactly when it fails, exactly when it comes back after ten seconds,
   * and exactly when it does neither.
   */
  lemma LiveOutcome(cfg: Config, w: World, k: Key, o: Obs)
    requires Live(w, k)
    ensures var out := Reconcile(cfg, w, k, o).1;
            var finalized := NatsFinalizer in w.server.crs[k].finalizers;
            && (out.failed <==>
                  || o.readFault.Some?
                  || (Forbidden(cfg, k) && !Synced(cfg, w, k, o))
                  || (!Forbidden(cfg, k) && !finalized && o.updateFault.Some?)
                  || (!Forbidden(cfg, k) && finalized &&
                      (DeployFails(w, k, o) || o.statefulSet.Err? || (RunsReady(w, k, o) && ZonesFail(o)) || !Synced(cfg, w, k, o))))
            && out.after == (if o.readFault.None? && !Forbidden(cfg, k) && finalized && Waits(w, k, o) then 10 else 0)
            && !out.requeue
            && (!out.failed && out.after == 0 <==>
                  && o.readFault.None?
                  && (|| (Forbidden(cfg, k) && Synced(cfg, w, k, o))
                      || (!Forbidden(cfg, k) && !finalized && o.updateFault.None?)
                      || (!Forbidden(cfg, k) && finalized && RunsReady(w, k, o) && !ZonesFail(o) && Synced(cfg, w, k, o))))
  {
    hide Decide, StatusFor, ForbiddenStatus, Status.IsEqual, DeployFails, AllReady, VerdictOf;
    if o.readFault.None? {
      if Forbidden(cfg, k) {
        RefusedIs(cfg.allowed.value, w.server.crs[k].status, k, o.now);
      } else {
        ProvisionOutcome(cfg, w, k, o);
      }
    }
  }

  lemma ProvisionOutcome(cfg: Config, w: World, k: Key, o: Obs)
    requires k in w.server.crs && !Forbidden(cfg, k)
    ensures var out := Provision(w, k, o).1;
            if NatsFinalizer !in w.server.crs[k].finalizers then out == Outcome(false, 0, o.updateFault.Some?)
            else
              && (out.failed <==> DeployFails(w, k, o) || o.statefulSet.Err? || (RunsReady(w, k, o) && ZonesFail(o)) || !Synced(cfg, w, k, o))
              && out.after == (if Waits(w, k, o) then 10 else 0) && !out.requeue
  {
    hide Decide, StatusFor, Status.IsEqual, DeployFails, Assess;
    var w0 := SyncCloudProvider(w, o);
    ApplyAllKeeps(w0, k, o);
    VerdictIs(w, k, o);
    JudgedIs(VerdictOf(w, k, o), w.server.crs[k].spec.clusterSize, w.server.crs[k].status, k, o.now);
  }

  /** A resource that is not there, or no longer, is nothing to do; not being able to tell is a failure. */
  lemma MissingOutcome(cfg: Config, w: World, k: Key, o: Obs)
    requires k !in w.server.crs
    ensures Reconcile(cfg, w, k, o) == (w, Outcome(false, 0, o.readFault.Some?))
  {
  }

  // ---- What is written ----

  predicate WritesStatus(cfg: Config, w: World, k: Key, o: Obs)
    requires k in w.server.crs
  {
    && o.readFault.None? && o.latestFault.None? && o.statusFault.None?
    && (Forbidden(cfg, k) || NatsFinalizer in w.server.crs[k].finalizers) && !Settled(cfg, w, k, o)
  }

  predicate AddsFinalizer(cfg: Config, w: World, k: Key, o: Obs)
    requires k in w.server.crs
  {
    o.readFault.None? && !Forbidden(cfg, k) && NatsFinalizer !in w.server.crs[k].finalizers && o.updateFault.None?
  }

  /** What the reconcile of a live resource writes to it, exactly: the status, or the finalizer, or nothing. */
  lemma LiveWrites(cfg: Config, w: World, k: Key, o: Obs)
    requires Live(w, k)
    ensures var r, w1 := w.server.crs[k], Reconcile(cfg, w, k, o).0;
            k in w1.server.crs &&
            w1.server.crs[k] == if AddsFinalizer(cfg, w, k, o) then r.(finalizers := r.finalizers + {NatsFinalizer}, writes := r.writes + 1)
                                else if WritesStatus(cfg, w, k, o)
                                then r.(status := Decide(DecisionOf(cfg, w, k, o), r.status, k, o.now), writes := r.writes + 1)
                                else r
  {
    hide Decide, StatusFor, ForbiddenStatus, Status.IsEqual, Assess;
    var r := w.server.crs[k];
    if o.readFault.None? {
      if Forbidden(cfg, k) {
        RefusedIs(cfg.allowed.value, r.status, k, o.now);
      } else {
        ApplyAllKeeps(SyncCloudProvider(w, o), k, o);
        JudgedIs(VerdictOf(w, k, o), r.spec.clusterSize, r.status, k, o.now);
      }
    }
  }

  /**
   * Whenever the reads and the write of the resource succeed, the status a provisioning reconcile leaves
   * shows StatefulSet True exactly when nothing failed and all replicas are current, updated and ready.
   */
  lemma StoredReadyIff(cfg: Config, w: World, k: Key, o: Obs)
    requires Live(w, k) && NatsFinalizer in w.server.crs[k].finalizers && !Forbidden(cfg, k)
    requires Proper(w.server.crs[k].status.conditions) && Completes(o)
    ensures var w1 := Reconcile(cfg, w, k, o).0;
            k in w1.server.crs &&
            (Shows(w1.server.crs[k].status, StatefulSet, IsTrue) <==>
               && !DeployFails(w, k, o) && o.statefulSet.Got?
               && var s := o.statefulSet.value; s.current == s.replicas && s.updated == s.replicas && s.ready == s.replicas)
  {
    hide Provision, Decide, Status.IsEqual, Proper, CondOf, VerdictOf, DeployFails, StatusFor;
    VerdictIs(w, k, o);
    ProvisionStep(w, k, o, o);
    var d := Judged(VerdictOf(w, k, o), w.server.crs[k].spec.clusterSize);
    var s := Provision(w, k, o).0.server.crs[k].status;
    DecisionReaches(d, s, k, o.now);
    IsEqualIffSame(s, Decide(d, s, k, o.now));
    ReachedStatefulSet(d, s, k, o.now);
  }

  lemma ReachedStatefulSet(d: Decision, s: Status, k: Key, now: int)
    requires d.Judged? && Reaches(Decide(d, s, k, now), s, TargetOf(d, k))
    ensures Shows(Decide(d, s, k, now), StatefulSet, IsTrue) <==> d.v.Running?
  {
    hide Decide, CondOf, Proper;
    assert StatefulSet in TargetOf(d, k).conds;
  }

  // ---- The outcome of a deletion ----

  predicate CustomerStream(o: Obs) {
    o.connectFault.None? && o.streams.Got? && exists s :: s in o.streams.value && s != "sap"
  }

  predicate SapConsumer(o: Obs) {
    && o.connectFault.None? && o.streams.Got? && (forall s :: s in o.streams.value ==> s == "sap")
    && o.streamsAgain.Got? && "sap" in o.streamsAgain.value && o.consumers == Got(true)
  }

  /** What the gate says is what was seen: a customer stream, or a consumer of `sap`, or nothing. */
  lemma GateSays(o: Obs)
    ensures DeletionGate(o) == (if CustomerStream(o) then Blocked(Message.CustomerStreamExists)
                                else if SapConsumer(o) then Blocked(StreamConsumerExists) else Open)
  {
  }

  /** A sweep fails exactly when the claims cannot be listed, or one that it selects cannot be deleted. */
  predicate SweepFails(w: World, k: Key, o: Obs) {
    o.pvcListFault.Some? || exists p :: p in w.server.pvcs && SweepMatches(k, p) && p in o.pvcFaults
  }

  lemma {:induction false} DeleteAllFails(pvcs: seq<Pvc>, list: seq<Pvc>, prefix: string, faults: map<Pvc, Error>)
    ensures var fault := DeleteAll(pvcs, list, prefix, faults).1;
            && (fault.Some? <==> exists p :: p in list && HasPrefix(p.name, prefix) && p in faults)
            && (fault.Some? ==> exists p :: p in list && HasPrefix(p.name, prefix) && p in faults && fault.value == faults[p])
    decreases |list|
  {
    hide HasPrefix, Without;
    if list != [] {
      assert list == [list[0]] + list[1..];
      DeleteAllFails(pvcs, list[1..], prefix, faults);
      DeleteAllFails(Without(pvcs, list[0]), list[1..], prefix, faults);
    }
  }

  lemma SweepFailsIff(w: World, k: Key, o: Obs)
    ensures Sweep(w, k, o).1.Some? <==> SweepFails(w, k, o)
  {
    hide DeleteAll, HasPrefix, SweepLabel, Labelled;
    var list := Labelled(w.server.pvcs, k.ns, SweepLabel(k.name));
    DeleteAllFails(w.server.pvcs, list, k.name, o.pvcFaults);
    forall p ensures p in list && HasPrefix(p.name, k.name) <==> p in w.server.pvcs && SweepMatches(k, p) {
      LabelledMember(w.server.pvcs, k.ns, SweepLabel(k.name), p);
    }
  }

  predicate BlockageSynced(w: World, k: Key, o: Obs, message: Message)
    requires k in w.server.crs
  {
    o.latestFault.None? && (w.server.crs[k].status.IsEqual(BlockedStatus(w.server.crs[k].status, message, o.now)) || o.statusFault.None?)
  }

  /** The reconcile of a resource being deleted: exactly when it fails, and exactly when it comes back at once. */
  lemma DeletingOutcome(cfg: Config, w: World, k: Key, o: Obs)
    requires k in w.server.crs && w.server.crs[k].deleting
    ensures var out := Reconcile(cfg, w, k, o).1;
            var finalized := NatsFinalizer in w.server.crs[k].finalizers;
            var blocked := CustomerStream(o) || SapConsumer(o);
            var message := if CustomerStream(o) then Message.CustomerStreamExists else StreamConsumerExists;
            && (out.failed <==>
                  || o.readFault.Some?
                  || (finalized && blocked && !BlockageSynced(w, k, o, message))
                  || (finalized && !blocked && StepSweep(w, k, o).Some? && !StepSweep(w, k, o).value.kind.NotFound?)
                  || (finalized && !blocked && !SweepFails(w, k, o) && o.updateFault.Some?))
            && (out.requeue <==> o.readFault.None? && finalized && blocked)
            && out.after == 0
            && (StepSweep(w, k, o).Some? <==> SweepFails(w, k, o))
  {
    hide BlockedStatus, Status.IsEqual, DeletionGate, CustomerStream, SapConsumer, SweepFails, DeleteAll, Labelled, SweepLabel, RegistryKey;
    GateSays(o);
    SweepFailsIff(Emit(ConnectClient(w, k), SweepStarted(k, w.server.crs[k].uid)), k, o);
    SameClaims(w, Emit(ConnectClient(w, k), SweepStarted(k, w.server.crs[k].uid)), k, o);
  }

  lemma SameClaims(w: World, w1: World, k: Key, o: Obs)
    requires w1.server.pvcs == w.server.pvcs
    ensures SweepFails(w1, k, o) == SweepFails(w, k, o)
  {
  }

  /**
   * A deletion that connects holds a client from then on, storing a new one if there was none, until its
   * sweep succeeds; the clients of others are not touched.
   */
  lemma DeletingClient(cfg: Config, w: World, k: Key, o: Obs)
    requires k in w.server.crs && w.server.crs[k].deleting && NatsFinalizer in w.server.crs[k].finalizers && o.readFault.None?
    ensures var w1 := Reconcile(cfg, w, k, o).0;
            var key := k.ns + "/" + k.name;
            && (key in w1.mem.clients <==> CustomerStream(o) || SapConsumer(o) || SweepFails(w, k, o))
            && (key in w1.mem.clients ==> w1.mem.clients[key] == if key in w.mem.clients then w.mem.clients[key] else w.mem.nextClient)
            && (forall other :: other != key ==> (other in w1.mem.clients <==> other in w.mem.clients))
            && |w.trace| <= |w1.trace|
            && (key !in w.mem.clients ==> ClientStored(w.mem.nextClient, key) in w1.trace[|w.trace|..])
  {
    hide BlockedStatus, Status.IsEqual, DeletionGate, CustomerStream, SapConsumer, SweepFails, DeleteAll, Labelled, SweepLabel;
    GateSays(o);
    SweepFailsIff(Emit(ConnectClient(w, k), SweepStarted(k, w.server.crs[k].uid)), k, o);
    SameClaims(w, Emit(ConnectClient(w, k), SweepStarted(k, w.server.crs[k].uid)), k, o);
    var key := RegistryKey(k);
    if key !in w.mem.clients {
      var w1 := Reconcile(cfg, w, k, o).0;
      assert w1.trace[|w.trace|] == ClientStored(w.mem.nextClient, key);
      assert w1.trace[|w.trace|..][0] == ClientStored(w.mem.nextClient, key);
    }
  }

  // ---- The watch ----

  /** After the reconcile of a live resource the watch is on exactly when it was, or Istio is there, all was deployed and the watch could start. */
  lemma WatchAfter(cfg: Config, w: World, k: Key, o: Obs)
    requires Live(w, k)
    ensures Reconcile(cfg, w, k, o).0.mem.watchStarted <==>
            || w.mem.watchStarted
            || (&& o.readFault.None? && !Forbidden(cfg, k) && NatsFinalizer in w.server.crs[k].finalizers
                && !InstanceFails(w, k, o) && !ApplyFails(w, k, o) && o.crdFault.None? && o.watchFault.None?)
  {
    hide StatusFor, ForbiddenStatus, Status.IsEqual, Assess, InstanceFails, ApplyFails;
    if o.readFault.None? && !Forbidden(cfg, k) {
      ApplyAllKeeps(SyncCloudProvider(w, o), k, o);
      AssessWatch(w, k, o);
    }
  }

  lemma AssessWatch(w: World, k: Key, o: Obs)
    requires k in w.server.crs
    ensures var w0 := SyncCloudProvider(w, o);
            Assess(w0, k, o).0.mem.watchStarted <==>
              w.mem.watchStarted || (!InstanceFails(w, k, o) && !ApplyFails(w, k, o) && o.crdFault.None? && o.watchFault.None?)
  {
    hide ApplyAll, FirstFault, InitInstance, InstanceFails, ApplyFails;
    var w0 := SyncCloudProvider(w, o);
    DeployFaultIff(w, k, o);
    var i := InitInstance(w0, k, w.server.crs[k].spec, o);
    if i.Got? {
      var wd := Emit(w0, Deployed(k, w.server.crs[k].uid, i.value.fileSize));
      ApplyAllFault(wd, k, i.value.manifests, o.applyFaults);
      ApplyAllFrame(wd, k, i.value.manifests, o.applyFaults);
    }
  }

  // ---- Applying stops at the first failure ----

  /** A Secret is there afterwards exactly when it was, or an object of it came before the first one that fails. */
  lemma {:induction false} AppliedUpToFault(w: World, owner: Key, manifests: seq<Manifest>, faults: map<Manifest, Error>, s: Key)
    ensures s in ApplyAll(w, owner, manifests, faults).0.server.secrets <==>
            || s in w.server.secrets
            || exists i :: 0 <= i < |manifests| && manifests[i] == SecretManifest(s) && forall j :: 0 <= j <= i ==> manifests[j] !in faults
    decreases |manifests|
  {
    if manifests != [] && manifests[0] !in faults {
      var rest := manifests[1..];
      AppliedUpToFault(Apply(w, owner, manifests[0]), owner, rest, faults, s);
      if i :| 0 <= i < |manifests| && manifests[i] == SecretManifest(s) && forall j :: 0 <= j <= i ==> manifests[j] !in faults {
        if i > 0 {
          assert rest[i - 1] == manifests[i] && forall j :: 0 <= j <= i - 1 ==> rest[j] == manifests[j + 1];
        }
      }
      if i :| 0 <= i < |rest| && rest[i] == SecretManifest(s) && forall j :: 0 <= j <= i ==> rest[j] !in faults {
        assert manifests[i + 1] == rest[i] && forall j :: 0 < j <= i + 1 ==> manifests[j] == rest[j - 1];
      }
      if manifests[0] == SecretManifest(s) {
        assert forall j :: 0 <= j <= 0 ==> manifests[j] !in faults;
      }
    }
  }

  // ---- The provider ----

  /** A provisioning reconcile with nothing cached caches what shoot-info answers, "" when it is not found, and nothing on another failure. */
  lemma ProviderAfter(cfg: Config, w: World, k: Key, o: Obs)
    requires Live(w, k) && !Forbidden(cfg, k) && o.readFault.None?
    ensures Reconcile(cfg, w, k, o).0.mem.cloudProvider ==
            if w.mem.cloudProvider.Some? then w.mem.cloudProvider
            else match o.shootInfo
              case Got(p) => Some(p)
              case Err(e) => if e.kind.NotFound? then Some("") else None
  {
    hide StatusFor, Status.IsEqual, Assess;
    var w0 := SyncCloudProvider(w, o);
    AssessEffect(w0, k, o);
    ApplyAllKeeps(w0, k, o);
  }

  /** No other reconcile touches the cached provider. */
  lemma ProviderUntouched(cfg: Config, w: World, k: Key, o: Obs)
    requires !Live(w, k) || Forbidden(cfg, k) || o.readFault.Some?
    ensures Reconcile(cfg, w, k, o).0.mem.cloudProvider == w.mem.cloudProvider
  {
    hide ForbiddenStatus, BlockedStatus, Status.IsEqual, DeletionGate, DeleteAll, Labelled, SweepLabel, RegistryKey;
  }

  /** Shoot-info says alicloud whenever it can be read, and is always there. */
  ghost predicate SaysAlicloud(e: Event) {
    e.Reconciled? ==>
      match e.o.shootInfo case Got(p) => p == "alicloud" case Err(fault) => !fault.kind.NotFound?
  }

  /** In a run on alicloud no process ever caches another provider. */
  lemma {:induction false} OnlyAlicloudCached(cfg: Config, w: World, es: seq<Event>)
    requires Initial(w) && forall e :: e in es ==> SaysAlicloud(e)
    ensures var p := Run(cfg, w, es).mem.cloudProvider; p == None || p == Some("alicloud")
  {
    hide Reconcile;
    if es != [] {
      var front, last := es[..|es| - 1], es[|es| - 1];
      assert last in es && forall e :: e in front ==> e in es;
      OnlyAlicloudCached(cfg, w, front);
      var a := Run(cfg, w, front);
      if last.Reconciled? {
        if Live(a, last.k) && !Forbidden(cfg, last.k) && last.o.readFault.None? {
          ProviderAfter(cfg, a, last.k, last.o);
        } else {
          ProviderUntouched(cfg, a, last.k, last.o);
        }
      }
    }
  }

  // ---- The deployed file size ----

  /** The record goes on, and each deployment in what is added asks for the given size. */
  ghost predicate Adds(a: seq<Effect>, b: seq<Effect>, size: Option<nat>) {
    a <= b && forall e :: e in b[|a|..] && e.Deployed? ==> size == Some(e.fileSize)
  }

  lemma AddsAll(a: seq<Effect>, b: seq<Effect>, c: seq<Effect>, size: Option<nat>)
    requires Adds(a, b, size) && Adds(b, c, size)
    ensures Adds(a, c, size)
  {
    assert c[|a|..] == b[|a|..] + c[|b|..];
  }

  lemma AssessAdds(w: World, k: Key, o: Obs)
    requires k in w.server.crs
    ensures var i := InitInstance(w, k, w.server.crs[k].spec, o);
            Adds(w.trace, Assess(w, k, o).0.trace, if i.Got? then Some(i.value.fileSize) else None)
  {
    hide ApplyAll, InitInstance;
    var r := w.server.crs[k];
    var i := InitInstance(w, k, r.spec, o);
    if i.Got? {
      var size := Some(i.value.fileSize);
      var wd := Emit(w, Deployed(k, r.uid, i.value.fileSize));
      ApplyAllFrame(wd, k, i.value.manifests, o.applyFaults);
      var wa := ApplyAll(wd, k, i.value.manifests, o.applyFaults).0;
      assert wd.trace[|w.trace|..] == [Deployed(k, r.uid, i.value.fileSize)];
      AddsAll(w.trace, wd.trace, wa.trace, size);
      assert Adds(wa.trace, Assess(w, k, o).0.trace, size);
      AddsAll(w.trace, wa.trace, Assess(w, k, o).0.trace, size);
    }
  }

  lemma EmitAdds(a: seq<Effect>, b: seq<Effect>, e: Effect, size: Option<nat>)
    requires Adds(a, b, size) && !e.Deployed?
    ensures Adds(a, b + [e], size)
  {
    assert (b + [e])[|a|..] == b[|a|..] + [e];
  }

  lemma NothingAdds(a: seq<Effect>, size: Option<nat>)
    ensures Adds(a, a, size)
  {
  }

  lemma SyncAdds(w: World, k: Key, s: Status, o: Obs, size: Option<nat>)
    requires k in w.server.crs
    ensures Adds(w.trace, SyncStatus(w, k, s, o).0.trace, size)
  {
    hide Adds, Status.IsEqual;
    NothingAdds(w.trace, size);
    EmitAdds(w.trace, w.trace, StatusWritten(k, w.server.crs[k].uid, s), size);
  }

  lemma UpdateAdds(w: World, k: Key, e: Effect, finalizers: set<Finalizer>, size: Option<nat>)
    requires k in w.server.crs && !e.Deployed?
    ensures Adds(w.trace, UpdateFinalizers(Emit(w, e), k, finalizers).trace, size)
  {
    hide Adds;
    NothingAdds(w.trace, size);
    EmitAdds(w.trace, w.trace, e, size);
    EmitAdds(w.trace, w.trace + [e], Gone(k, w.server.crs[k].uid), size);
  }

  lemma ReleaseAdds(w: World, k: Key, o: Obs)
    requires k in w.server.crs
    ensures Adds(w.trace, SweepAndRelease(w, k, o).0.trace, None)
  {
    hide Adds, DeleteAll, Labelled, SweepLabel, RegistryKey;
    var uid := w.server.crs[k].uid;
    NothingAdds(w.trace, None);
    EmitAdds(w.trace, w.trace, SweepStarted(k, uid), None);
    var (w1, fault) := Sweep(Emit(w, SweepStarted(k, uid)), k, o);
    if fault.None? {
      var w2 := Emit(w1, Swept(k, uid));
      EmitAdds(w.trace, w1.trace, Swept(k, uid), None);
      if RegistryKey(k) in w2.mem.clients {
        EmitAdds(w.trace, w2.trace, ClientClosed(w2.mem.clients[RegistryKey(k)]), None);
      }
      var w3 := CloseClient(w2, k);
      NothingAdds(w3.trace, None);
      UpdateAdds(w3, k, FinalizerRemoved(k, uid), w3.server.crs[k].finalizers - {NatsFinalizer}, None);
      AddsAll(w.trace, w3.trace, RemoveFinalizer(w3, k, o).0.trace, None);
    }
  }

  lemma DeleteAdds(w: World, k: Key, o: Obs)
    requires k in w.server.crs
    ensures Adds(w.trace, Delete(w, k, o).0.trace, None)
  {
    hide Adds, SweepAndRelease, SyncStatus, BlockedStatus, DeletionGate, RegistryKey;
    NothingAdds(w.trace, None);
    if NatsFinalizer in w.server.crs[k].finalizers {
      var w1 := ConnectClient(w, k);
      EmitAdds(w.trace, w.trace, ClientStored(w.mem.nextClient, RegistryKey(k)), None);
      match DeletionGate(o) {
        case Open => ReleaseAdds(w1, k, o);
        case Blocked(message) => SyncAdds(w1, k, BlockedStatus(w.server.crs[k].status, message, o.now), o, None);
      }
      AddsAll(w.trace, w1.trace, Delete(w, k, o).0.trace, None);
    }
  }

  lemma ProvisionAdds(w: World, k: Key, o: Obs)
    requires k in w.server.crs
    ensures var i := InitInstance(SyncCloudProvider(w, o), k, w.server.crs[k].spec, o);
            Adds(w.trace, Provision(w, k, o).0.trace, if i.Got? then Some(i.value.fileSize) else None)
  {
    hide Adds, Assess, InitInstance, StatusFor, SyncStatus;
    var w0 := SyncCloudProvider(w, o);
    var i := InitInstance(w0, k, w.server.crs[k].spec, o);
    var size := if i.Got? then Some(i.value.fileSize) else None;
    NothingAdds(w.trace, size);
    EmitAdds(w.trace, w.trace, ShootInfoRead, size);
    var r := w.server.crs[k];
    if NatsFinalizer !in r.finalizers {
      UpdateAdds(w0, k, FinalizerAdded(k, r.uid), r.finalizers + {NatsFinalizer}, size);
      NothingAdds(w0.trace, size);
    } else {
      AssessAdds(w0, k, o);
      ApplyAllKeeps(w0, k, o);
      var (wa, v) := Assess(w0, k, o);
      SyncAdds(wa, k, StatusFor(v, r.status, k, r.spec.clusterSize, o.now), o, size);
      AddsAll(w0.trace, wa.trace, Provision(w, k, o).0.trace, size);
    }
    AddsAll(w.trace, w0.trace, Provision(w, k, o).0.trace, size);
  }

  /** Every deployment asks for the size in the spec, else for 20Gi on alicloud and 1Gi elsewhere, and never for one that is refused. */
  lemma DeployedSize(cfg: Config, w: World, k: Key, o: Obs, e: Effect)
    requires var w1 := Reconcile(cfg, w, k, o).0; |w.trace| <= |w1.trace| && e in w1.trace[|w.trace|..] && e.Deployed?
    ensures k in w.server.crs &&
            var requested := w.server.crs[k].spec.fileStorageSize;
            && !(KnownProvider(w, o) == "alicloud" && 0 < requested < 20 * GI)
            && e.fileSize == if requested != 0 then requested else if KnownProvider(w, o) == "alicloud" then 20 * GI else GI
  {
    hide ForbiddenStatus, SyncStatus, Provision, Delete;
    if k in w.server.crs && o.readFault.None? {
      if w.server.crs[k].deleting {
        DeleteAdds(w, k, o);
      } else if cfg.allowed.Some? && cfg.allowed.value != k {
        SyncAdds(w, k, ForbiddenStatus(w.server.crs[k].status, cfg.allowed.value, o.now), o, None);
      } else {
        ProvisionAdds(w, k, o);
      }
    }
  }

  /**
   * In a run on alicloud, from the first provisioning reconcile that could read shoot-info on, every
   * deployment of the process asks for at least 20Gi.
   */
  lemma AlicloudDeploysEnough(cfg: Config, w: World, es: seq<Event>, k: Key, o: Obs, later: seq<Event>, e: Effect)
    requires Initial(w) && (forall x :: x in es ==> SaysAlicloud(x)) && SaysAlicloud(Reconciled(k, o)) && P.OneProcess(later)
    requires var at := Run(cfg, w, es);
             Live(at, k) && !Forbidden(cfg, k) && o.readFault.None? && o.shootInfo.Got?
    requires var at := Run(cfg, w, es);
             var now := Run(cfg, Reconcile(cfg, at, k, o).0, later);
             |at.trace| <= |now.trace| && e in now.trace[|at.trace|..] && e.Deployed?
    ensures e.fileSize >= 20 * GI
  {
    hide Run, Reconcile, P.ProcessOk;
    OnlyAlicloudCached(cfg, w, es);
    P.RunPlain(cfg, w, es) by { P.FreshOk(w); }
    var at := Run(cfg, w, es);
    P.ReconcilePlain(cfg, at, k, o);
    ProviderAfter(cfg, at, k, o);
    var w1 := Reconcile(cfg, at, k, o).0;
    P.ProviderWrittenOnce(cfg, w1, later);
    var now := Run(cfg, w1, later);
    ReconcileActs(cfg, at, k, o);
    assert now.trace[|at.trace|..] == w1.trace[|at.trace|..] + now.trace[|w1.trace|..];
    if e in w1.trace[|at.trace|..] {
      DeployedSize(cfg, at, k, o, e);
    }
  }
}
