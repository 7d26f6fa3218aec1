/** Reconciling again under unchanged conditions: it writes nothing, and gets there in at most two writes. */
module Convergence {
  import opened Wrappers
  import opened Conditions
  import opened NatsStatus
  import opened Naming
  import opened Operator
  import opened StatusRules
  import O = Overrides
  import F = Safety
  import Z = Zones

  // ---- The verdict depends on observations, not on the reconciles before ----

  function FirstFault(manifests: seq<Manifest>, faults: map<Manifest, Error>): Option<Error> {
    if manifests == [] then None
    else if manifests[0] in faults then Some(faults[manifests[0]])
    else FirstFault(manifests[1..], faults)
  }

  lemma {:induction false} ApplyAllFault(w: World, owner: Key, manifests: seq<Manifest>, faults: map<Manifest, Error>)
    ensures ApplyAll(w, owner, manifests, faults).1 == FirstFault(manifests, faults)
    decreases |manifests|
  {
    if manifests != [] && manifests[0] !in faults {
      ApplyAllFault(Apply(w, owner, manifests[0]), owner, manifests[1..], faults);
    }
  }

  lemma {:induction false} ApplyAllSecrets(w: World, owner: Key, manifests: seq<Manifest>, faults: map<Manifest, Error>, s: Key)
    requires s in ApplyAll(w, owner, manifests, faults).0.server.secrets && s !in w.server.secrets
    ensures SecretManifest(s) in manifests && SecretManifest(s) !in faults
    decreases |manifests|
  {
    if manifests != [] && manifests[0] !in faults && manifests[0] != SecretManifest(s) {
      ApplyAllSecrets(Apply(w, owner, manifests[0]), owner, manifests[1..], faults, s);
    }
  }

  lemma {:induction false} FirstFaultConcat(a: seq<Manifest>, b: seq<Manifest>, faults: map<Manifest, Error>)
    ensures FirstFault(a + b, faults) == if FirstFault(a, faults).Some? then FirstFault(a, faults) else FirstFault(b, faults)
  {
    if a == [] {
      assert a + b == b;
    } else {
      assert (a + b)[1..] == a[1..] + b;
      FirstFaultConcat(a[1..], b, faults);
    }
  }

  /** A Secret that can be applied makes no difference to the first failure. */
  lemma SecretNoDifference(k: Key, istio: bool, faults: map<Manifest, Error>)
    requires SecretManifest(DeployedSecret(k)) !in faults
    ensures FirstFault(Rendered(k, true, istio), faults) == FirstFault(Rendered(k, false, istio), faults)
  {
    hide FirstFault, Fullname;
    var full := Key(k.ns, Fullname(k.name));
    var pdb, secret := [DisruptionBudgetManifest(full)], [SecretManifest(DeployedSecret(k))];
    var rest := [ConfigMapManifest(full), ServiceManifest(full), StatefulSetManifest(full)] +
                if istio then [DestinationRuleManifest(full)] else [];
    assert Rendered(k, true, istio) == pdb + (secret + rest);
    assert Rendered(k, false, istio) == pdb + rest;
    FirstFaultConcat(pdb, secret + rest, faults);
    FirstFaultConcat(pdb, rest, faults);
    FirstFaultConcat(secret, rest, faults);
    assert FirstFault(secret, faults) == None by { NoFault(secret[0], faults); }
  }

  lemma {:induction false} NoFirstFault(manifests: seq<Manifest>, faults: map<Manifest, Error>)
    requires faults == map[]
    ensures FirstFault(manifests, faults) == None
  {
    if manifests != [] {
      NoFirstFault(manifests[1..], faults);
    }
  }

  lemma NoFault(m: Manifest, faults: map<Manifest, Error>)
    requires m !in faults
    ensures FirstFault([m], faults) == None
  {
  }

  lemma RenderedSecret(k: Key, rotate: bool, istio: bool, s: Key)
    requires SecretManifest(s) in Rendered(k, rotate, istio)
    ensures rotate && s == DeployedSecret(k)
  {
  }

  /** The verdict of a provisioning run that starts in `w`. */
  function VerdictOf(w: World, k: Key, o: Obs): Verdict
    requires k in w.server.crs
  {
    Assess(SyncCloudProvider(w, o), k, o).1
  }

  /** The same external observations, at another time and whatever happens to the status writes. */
  ghost predicate SameObservations(a: Obs, b: Obs) {
    b == a.(now := b.now, latestFault := b.latestFault, statusFault := b.statusFault)
  }

  /** `w1` is a world the same observations can follow on after `w`. */
  ghost predicate Follows(w: World, w1: World, k: Key, o: Obs) {
    && k in w.server.crs && k in w1.server.crs
    && w1.server.crs[k].spec == w.server.crs[k].spec
    && var w0 := SyncCloudProvider(w, o);
       && w1.mem.cloudProvider == w0.mem.cloudProvider
       && ((w1.mem.watchStarted == w.mem.watchStarted && w1.server.secrets == w.server.secrets)
           || (w1.mem.watchStarted == Assess(w0, k, o).0.mem.watchStarted
               && w1.server.secrets == Assess(w0, k, o).0.server.secrets))
  }

  lemma SyncCloudStable(w: World, w1: World, o: Obs, o2: Obs)
    requires SameObservations(o, o2) && w1.mem.cloudProvider == SyncCloudProvider(w, o).mem.cloudProvider
    ensures SyncCloudProvider(w1, o2).mem.cloudProvider == w1.mem.cloudProvider
    ensures SyncCloudProvider(w1, o2).server == w1.server
    ensures SyncCloudProvider(w1, o2).mem.watchStarted == w1.mem.watchStarted
  {
  }

  /** The parts of an instance that decide the verdict. */
  function DeployFault(w: World, k: Key, spec: O.Spec, o: Obs): Reply<(Option<Error>, bool)> {
    match InitInstance(w, k, spec, o)
    case Err(e) => Err(e)
    case Got(i) => Got((FirstFault(i.manifests, o.applyFaults), i.istio))
  }

  lemma VerdictFromFault(w: World, k: Key, o: Obs)
    requires k in w.server.crs
    ensures Assess(w, k, o).1 ==
            match DeployFault(w, k, w.server.crs[k].spec, o)
            case Err(e) => Broken(e.message)
            case Got((fault, istio)) =>
              if fault.Some? then Broken(fault.value.message)
              else if istio && !w.mem.watchStarted && o.watchFault.Some? then Broken(o.watchFault.value.message)
              else match o.statefulSet
                case Err(e) => StatefulSetUnknown(e.message)
                case Got(s) => if SetReady(s) then Running(o.zones) else NotReady
  {
    hide FirstFault, ApplyAll, InitInstance;
    var r := w.server.crs[k];
    var i := InitInstance(w, k, r.spec, o);
    if i.Got? {
      var w0 := Emit(w, Deployed(k, r.uid, i.value.fileSize));
      ApplyAllFault(w0, k, i.value.manifests, o.applyFaults);
      ApplyAllFrame(w0, k, i.value.manifests, o.applyFaults);
    }
  }

  /** What an assessment does to the memory and the Secrets. */
  lemma AssessEffect(w: World, k: Key, o: Obs)
    requires k in w.server.crs
    ensures var w1 := Assess(w, k, o).0;
            && w1.mem == w.mem.(watchStarted := w1.mem.watchStarted)
            && w1.server == w.server.(secrets := w1.server.secrets)
            && w.server.secrets <= w1.server.secrets
            && (forall s :: s in w1.server.secrets && s !in w.server.secrets ==>
                  SecretManifest(s) !in o.applyFaults && s == DeployedSecret(k) && LookupSecret(k) !in w.server.secrets)
            && (w1.mem.watchStarted ==> w.mem.watchStarted || o.watchFault.None?)
            && (w.mem.watchStarted ==> w1.mem.watchStarted)
  {
    hide ApplyAll, Rendered, DeployedSecret, LookupSecret;
    var r := w.server.crs[k];
    var i := InitInstance(w, k, r.spec, o);
    if i.Got? {
      var w0 := Emit(w, Deployed(k, r.uid, i.value.fileSize));
      ApplyAllFrame(w0, k, i.value.manifests, o.applyFaults);
      var w1 := Assess(w, k, o).0;
      forall s | s in w1.server.secrets && s !in w.server.secrets
        ensures SecretManifest(s) !in o.applyFaults && s == DeployedSecret(k) && LookupSecret(k) !in w.server.secrets
      {
        ApplyAllSecrets(w0, k, i.value.manifests, o.applyFaults, s);
        RenderedSecret(k, LookupSecret(k) !in w.server.secrets, i.value.istio, s);
      }
    }
  }

  lemma FaultStable(w: World, w1: World, k: Key, spec: O.Spec, o: Obs, o2: Obs)
    requires SameObservations(o, o2) && w1.mem.cloudProvider == w.mem.cloudProvider
    requires w.server.secrets <= w1.server.secrets
    requires LookupSecret(k) in w1.server.secrets && LookupSecret(k) !in w.server.secrets ==>
               SecretManifest(DeployedSecret(k)) !in o.applyFaults
    ensures DeployFault(w1, k, spec, o2) == DeployFault(w, k, spec, o)
  {
    hide Rendered, FirstFault, LookupSecret, DeployedSecret;
    if LookupSecret(k) in w1.server.secrets && LookupSecret(k) !in w.server.secrets {
      SecretNoDifference(k, o.crdFault.None?, o.applyFaults);
    }
  }

  /** Under the same observations the verdict does not change. */
  lemma VerdictStable(w: World, w1: World, k: Key, o: Obs, o2: Obs)
    requires SameObservations(o, o2) && Follows(w, w1, k, o)
    ensures VerdictOf(w1, k, o2) == VerdictOf(w, k, o)
  {
    hide Assess, DeployFault, LookupSecret, DeployedSecret;
    var a, b := SyncCloudProvider(w, o), SyncCloudProvider(w1, o2);
    SyncCloudStable(w, w1, o, o2);
    assert a.server == w.server && a.mem.watchStarted == w.mem.watchStarted;
    AssessEffect(a, k, o);
    FaultStable(a, b, k, w.server.crs[k].spec, o, o2);
    VerdictFromFault(a, k, o);
    VerdictFromFault(b, k, o2);
  }

  // ---- Quiescence ----

  /** The reads of the resource and the write of its status succeed. */
  predicate Completes(o: Obs) {
    o.readFault.None? && o.latestFault.None? && o.statusFault.None?
  }

  /** A status synced successfully is equal to what the same decision yields at any later time. */
  lemma SyncSettles(w: World, k: Key, d: Decision, o: Obs, later: int)
    requires k in w.server.crs && Proper(w.server.crs[k].status.conditions) && Completes(o)
    ensures var w1 := SyncStatus(w, k, Decide(d, w.server.crs[k].status, k, o.now), o).0;
            && w1.server == w.server.(crs := w1.server.crs) && w1.mem == w.mem
            && k in w1.server.crs
            && w1.server.crs[k] == w.server.crs[k].(status := w1.server.crs[k].status, writes := w1.server.crs[k].writes)
            && Proper(w1.server.crs[k].status.conditions)
            && w1.server.crs[k].status.IsEqual(Decide(d, w1.server.crs[k].status, k, later))
            && w1.server.crs[k].writes == w.server.crs[k].writes +
                 (if w.server.crs[k].status.IsEqual(Decide(d, w.server.crs[k].status, k, o.now)) then 0 else 1)
  {
    hide Decide, Status.IsEqual, Proper;
    var s := w.server.crs[k].status;
    var s1 := Decide(d, s, k, o.now);
    DecisionProper(d, s, k, o.now);
    DecisionProper(d, s, k, later);
    DecisionProper(d, s1, k, later);
    DecisionIdempotent(d, s, k, o.now, later);
    IsEqualEquivalence(Decide(d, s1, k, later), s1, s1);
    IsEqualEquivalence(s, s, s);
    DecisionRespectsEqual(d, s, s, k, o.now, later);
    IsEqualEquivalence(s, s1, Decide(d, s, k, later));
  }

  lemma DecisionProper(d: Decision, s: Status, k: Key, now: int)
    requires Proper(s.conditions)
    ensures Proper(Decide(d, s, k, now).conditions)
  {
    DecisionReaches(d, s, k, now);
  }

  lemma SyncQuiet(w: World, k: Key, s: Status, o: Obs)
    requires k in w.server.crs && w.server.crs[k].status.IsEqual(s)
    ensures SyncStatus(w, k, s, o).0 == w
  {
  }

  /** The decision a reconcile of a resource that is not being deleted takes. */
  function DecisionOf(cfg: Config, w: World, k: Key, o: Obs): Decision
    requires k in w.server.crs
  {
    if cfg.allowed.Some? && cfg.allowed.value != k then Refused(cfg.allowed.value)
    else Judged(VerdictOf(w, k, o), w.server.crs[k].spec.clusterSize)
  }

  predicate Live(w: World, k: Key) {
    k in w.server.crs && !w.server.crs[k].deleting
  }

  predicate Managed(cfg: Config, w: World, k: Key)
    requires k in w.server.crs
  {
    NatsFinalizer in w.server.crs[k].finalizers || (cfg.allowed.Some? && cfg.allowed.value != k)
  }

  /** Is the stored status what the reconcile would store? */
  predicate Settled(cfg: Config, w: World, k: Key, o: Obs)
    requires k in w.server.crs
  {
    w.server.crs[k].status.IsEqual(Decide(DecisionOf(cfg, w, k, o), w.server.crs[k].status, k, o.now))
  }

  /** What one completed reconcile of a managed live resource does. */
  lemma ManagedStep(cfg: Config, w: World, k: Key, o: Obs, o2: Obs)
    requires Live(w, k) && Managed(cfg, w, k) && Proper(w.server.crs[k].status.conditions)
    requires Completes(o) && SameObservations(o, o2)
    ensures var w1 := Reconcile(cfg, w, k, o).0;
            && Live(w1, k) && Managed(cfg, w1, k) && Proper(w1.server.crs[k].status.conditions)
            && Settled(cfg, w1, k, o2)
            && w1.server.crs[k].writes == w.server.crs[k].writes + (if Settled(cfg, w, k, o) then 0 else 1)
  {
    hide Decide, Status.IsEqual, Proper, StatusFor, Assess, ForbiddenStatus, VerdictOf, SyncStatus, SyncCloudProvider;
    var r := w.server.crs[k];
    if cfg.allowed.Some? && cfg.allowed.value != k {
      SyncSettles(w, k, Refused(cfg.allowed.value), o, o2.now);
      RefusedIs(cfg.allowed.value, r.status, k, o.now);
    } else {
      ProvisionStep(w, k, o, o2);
    }
  }

  lemma RefusedIs(allowed: Key, s: Status, k: Key, now: int)
    ensures Decide(Refused(allowed), s, k, now) == ForbiddenStatus(s, allowed, now)
  {
  }

  lemma JudgedIs(v: Verdict, size: int, s: Status, k: Key, now: int)
    ensures Decide(Judged(v, size), s, k, now) == StatusFor(v, s, k, size, now)
  {
  }

  lemma ProvisionStep(w: World, k: Key, o: Obs, o2: Obs)
    requires k in w.server.crs && NatsFinalizer in w.server.crs[k].finalizers
    requires Proper(w.server.crs[k].status.conditions) && Completes(o) && SameObservations(o, o2)
    ensures var w1 := Provision(w, k, o).0;
            var d := Judged(VerdictOf(w, k, o), w.server.crs[k].spec.clusterSize);
            && k in w1.server.crs && VerdictOf(w1, k, o2) == VerdictOf(w, k, o)
            && w1.server.crs[k] == w.server.crs[k].(status := w1.server.crs[k].status, writes := w1.server.crs[k].writes)
            && Proper(w1.server.crs[k].status.conditions)
            && w1.server.crs[k].status.IsEqual(Decide(d, w1.server.crs[k].status, k, o2.now))
            && w1.server.crs[k].writes == w.server.crs[k].writes +
                 (if w.server.crs[k].status.IsEqual(Decide(d, w.server.crs[k].status, k, o.now)) then 0 else 1)
  {
    hide Decide, Status.IsEqual, Proper, StatusFor, Assess, SyncStatus;
    var w0 := SyncCloudProvider(w, o);
    assert w0.server == w.server;
    var (wa, v) := Assess(w0, k, o);
    ApplyAllKeeps(w0, k, o);
    AssessEffect(w0, k, o);
    var r := wa.server.crs[k];
    JudgedIs(v, r.spec.clusterSize, r.status, k, o.now);
    SyncSettles(wa, k, Judged(v, r.spec.clusterSize), o, o2.now);
    var w1 := Provision(w, k, o).0;
    assert Follows(w, w1, k, o);
    VerdictStable(w, w1, k, o, o2);
  }

  /** A settled reconcile stores nothing, although it moves the conditions in memory. */
  lemma SettledIsQuiet(cfg: Config, w: World, k: Key, o: Obs)
    requires Live(w, k) && Managed(cfg, w, k) && Settled(cfg, w, k, o)
    ensures Reconcile(cfg, w, k, o).0.server.crs == w.server.crs
  {
    hide Decide, Status.IsEqual, StatusFor, Assess, ForbiddenStatus, SyncStatus;
    var r := w.server.crs[k];
    if o.readFault.Some? {
    } else if cfg.allowed.Some? && cfg.allowed.value != k {
      RefusedIs(cfg.allowed.value, r.status, k, o.now);
      SyncQuiet(w, k, ForbiddenStatus(r.status, cfg.allowed.value, o.now), o);
    } else {
      var w0 := SyncCloudProvider(w, o);
      var (wa, v) := Assess(w0, k, o);
      ApplyAllKeeps(w0, k, o);
      JudgedIs(v, r.spec.clusterSize, r.status, k, o.now);
      SyncQuiet(wa, k, StatusFor(v, r.status, k, r.spec.clusterSize, o.now), o);
    }
  }

  /**
   * Once a reconcile of a managed live resource completed, a second one with the same observations
   * writes nothing: neither status nor transition times move, on every path.
   */
  lemma Quiescence(cfg: Config, w: World, k: Key, o: Obs, o2: Obs)
    requires Live(w, k) && Managed(cfg, w, k) && Proper(w.server.crs[k].status.conditions)
    requires Completes(o) && SameObservations(o, o2)
    ensures var w1 := Reconcile(cfg, w, k, o).0;
            Reconcile(cfg, w1, k, o2).0.server.crs == w1.server.crs
  {
    hide Reconcile, Settled, Proper;
    ManagedStep(cfg, w, k, o, o2);
    SettledIsQuiet(cfg, Reconcile(cfg, w, k, o).0, k, o2);
  }

  // ---- Bounded convergence ----

  /** Every call on the resource itself succeeds. */
  predicate Undisturbed(o: Obs) {
    Completes(o) && o.updateFault.None?
  }

  function Distance(cfg: Config, w: World, k: Key, o: Obs): nat
    requires k in w.server.crs
  {
    (if Managed(cfg, w, k) then 0 else 2) + (if Settled(cfg, w, k, o) then 0 else 1)
  }

  /** Each reconcile under the same undisturbed observations strictly shortens the distance, with one write, until it is 0. */
  lemma DistanceFalls(cfg: Config, w: World, k: Key, o: Obs, o2: Obs)
    requires Live(w, k) && Proper(w.server.crs[k].status.conditions)
    requires Undisturbed(o) && Undisturbed(o2) && SameObservations(o, o2)
    ensures var w1 := Reconcile(cfg, w, k, o).0;
            && Live(w1, k) && Proper(w1.server.crs[k].status.conditions)
            && (if Distance(cfg, w, k, o) == 0 then Distance(cfg, w1, k, o2) == 0 && w1.server.crs == w.server.crs
                else Distance(cfg, w1, k, o2) == Distance(cfg, w, k, o) - (if Managed(cfg, w, k) then 1 else 2)
                     && w1.server.crs[k].writes == w.server.crs[k].writes + 1)
            && Managed(cfg, w1, k)
  {
    hide Proper, Settled;
    if Managed(cfg, w, k) {
      hide Reconcile;
      ManagedStep(cfg, w, k, o, o2);
      if Settled(cfg, w, k, o) {
        SettledIsQuiet(cfg, w, k, o);
      }
    } else {
      FinalizerStep(cfg, w, k, o, o2);
    }
  }

  lemma FinalizerStep(cfg: Config, w: World, k: Key, o: Obs, o2: Obs)
    requires Live(w, k) && !Managed(cfg, w, k) && Proper(w.server.crs[k].status.conditions)
    requires Undisturbed(o) && SameObservations(o, o2)
    ensures var w1 := Reconcile(cfg, w, k, o).0;
            && Live(w1, k) && Managed(cfg, w1, k)
            && w1.server.crs[k].status == w.server.crs[k].status
            && w1.server.crs[k].writes == w.server.crs[k].writes + 1
            && (Settled(cfg, w1, k, o2) <==> Settled(cfg, w, k, o))
  {
    hide Decide, Status.IsEqual, Assess, Proper;
    var w1 := Reconcile(cfg, w, k, o).0;
    assert Follows(w, w1, k, o);
    VerdictStable(w, w1, k, o, o2);
    SettledAnytime(DecisionOf(cfg, w, k, o), w.server.crs[k].status, k, o.now, o2.now);
  }

  lemma SettledAnytime(d: Decision, s: Status, k: Key, t1: int, t2: int)
    requires Proper(s.conditions)
    ensures s.IsEqual(Decide(d, s, k, t1)) <==> s.IsEqual(Decide(d, s, k, t2))
  {
    hide Decide, Status.IsEqual, Proper;
    DecisionProper(d, s, k, t1);
    DecisionProper(d, s, k, t2);
    IsEqualEquivalence(s, s, s);
    DecisionRespectsEqual(d, s, s, k, t1, t2);
    IsEqualEquivalence(s, Decide(d, s, k, t1), Decide(d, s, k, t2));
    IsEqualEquivalence(s, Decide(d, s, k, t2), Decide(d, s, k, t1));
    IsEqualEquivalence(Decide(d, s, k, t1), Decide(d, s, k, t2), s);
  }

  function ReconcileAll(cfg: Config, w: World, k: Key, os: seq<Obs>): World
    decreases |os|
  {
    if os == [] then w else ReconcileAll(cfg, Reconcile(cfg, w, k, os[0]).0, k, os[1..])
  }

  ghost predicate Steady(o: Obs, os: seq<Obs>) {
    Undisturbed(o) && forall x :: x in os ==> Undisturbed(x) && SameObservations(o, x)
  }

  /** However often a live resource is reconciled in a steady world, it is written at most twice, and never after the second time. */
  lemma {:induction false} AtMostTwoWrites(cfg: Config, w: World, k: Key, o: Obs, os: seq<Obs>)
    requires Live(w, k) && Proper(w.server.crs[k].status.conditions) && Steady(o, os)
    ensures var now := ReconcileAll(cfg, w, k, os);
            && Live(now, k) && Proper(now.server.crs[k].status.conditions)
            && now.server.crs[k].writes <= w.server.crs[k].writes + (Distance(cfg, w, k, o) + 1) / 2
            && (|os| >= 2 || Distance(cfg, w, k, o) == 0 || (|os| == 1 && Distance(cfg, w, k, o) <= 2) ==>
                  Distance(cfg, now, k, o) == 0)
            && (Distance(cfg, w, k, o) == 0 ==> now.server.crs == w.server.crs)
    decreases |os|
  {
    hide Reconcile, Proper, Settled;
    if os != [] {
      assert os[0] in os && forall x :: x in os[1..] ==> x in os;
      DistanceAnytime(cfg, w, k, o, os[0]);
      DistanceFalls(cfg, w, k, os[0], o);
      AtMostTwoWrites(cfg, Reconcile(cfg, w, k, os[0]).0, k, o, os[1..]);
    }
  }

  /** The distance does not depend on the time of the observations. */
  lemma DistanceAnytime(cfg: Config, w: World, k: Key, o: Obs, x: Obs)
    requires k in w.server.crs && Proper(w.server.crs[k].status.conditions) && SameObservations(o, x)
    ensures Distance(cfg, w, k, x) == Distance(cfg, w, k, o)
  {
    hide Decide, Status.IsEqual, Proper, Assess;
    VerdictAnytime(w, k, o, x);
    SettledAnytime(DecisionOf(cfg, w, k, o), w.server.crs[k].status, k, o.now, x.now);
  }

  lemma VerdictAnytime(w: World, k: Key, o: Obs, x: Obs)
    requires k in w.server.crs && SameObservations(o, x)
    ensures VerdictOf(w, k, x) == VerdictOf(w, k, o)
  {
    hide Assess, FirstFault, Rendered;
    var a, b := SyncCloudProvider(w, o), SyncCloudProvider(w, x);
    assert a == b;
    VerdictFromFault(a, k, o);
    VerdictFromFault(b, k, x);
  }

  // ---- From any reachable state ----

  lemma ReachableProper(cfg: Config, w: World, es: seq<Event>, k: Key)
    requires Initial(w) && k in Run(cfg, w, es).server.crs
    ensures Proper(Run(cfg, w, es).server.crs[k].status.conditions)
  {
    hide Run;
    F.RunSafe(cfg, w, es);
    var now := Run(cfg, w, es);
    assert F.ResourceOk(cfg, now, k, now.server.crs[k]);
  }

  /** After any run, two reconciles of a live resource in a steady world write it at most twice, and no further one writes it. */
  lemma RunsConverge(cfg: Config, w: World, es: seq<Event>, k: Key, o: Obs, os: seq<Obs>, o2: Obs)
    requires Initial(w) && Live(Run(cfg, w, es), k)
    requires Steady(o, os) && |os| >= 2 && Undisturbed(o2) && SameObservations(o, o2)
    ensures var before := Run(cfg, w, es);
            var now := ReconcileAll(cfg, before, k, os);
            && Live(now, k) && now.server.crs[k].writes <= before.server.crs[k].writes + 2
            && Reconcile(cfg, now, k, o2).0.server.crs == now.server.crs
  {
    hide Run, ReconcileAll, Reconcile, Settled, Proper;
    ReachableProper(cfg, w, es, k);
    AtMostTwoWrites(cfg, Run(cfg, w, es), k, o, os);
    var now := ReconcileAll(cfg, Run(cfg, w, es), k, os);
    DistanceAnytime(cfg, now, k, o, o2);
    SettledIsQuiet(cfg, now, k, o2);
  }

  // ---- The zones condition, as stored ----

  /**
   * A reconcile that finds the StatefulSet ready and counts the zones of as many pods as the cluster size
   * leaves AvailabilityZones True on the server exactly when the cluster is clustered and each pod is
   * scheduled in a zone of its own.
   */
  lemma StoredSpreadIsReal(cfg: Config, w: World, k: Key, o: Obs, cache: Z.Cache, nodes: Z.Nodes, pods: seq<Z.Pod>)
    requires Live(w, k) && NatsFinalizer in w.server.crs[k].finalizers && (cfg.allowed.Some? ==> cfg.allowed.value == k)
    requires Proper(w.server.crs[k].status.conditions) && Completes(o) && VerdictOf(w, k, o) == Running(o.zones)
    requires o.zones == Got(|Z.ZoneSet(cache, nodes, pods)|) && |pods| == w.server.crs[k].spec.clusterSize
    ensures var w1 := Reconcile(cfg, w, k, o).0;
            k in w1.server.crs &&
            (Shows(w1.server.crs[k].status, AvailabilityZones, IsTrue) <==>
               |pods| >= O.MIN_CLUSTER_SIZE && Z.Spread(cache, nodes, pods))
  {
    hide Provision, Decide, StatusFor, Status.IsEqual, Proper, CondOf, Z.ZoneSet, Z.Spread, VerdictOf;
    ProvisionStep(w, k, o, o);
    var s := Provision(w, k, o).0.server.crs[k].status;
    JudgedIs(Running(o.zones), |pods|, s, k, o.now);
    DecisionProper(Judged(Running(o.zones), |pods|), s, k, o.now);
    SpreadIsReal(cache, nodes, pods, s, k, o.now);
    IsEqualIffSame(s, StatusFor(Running(o.zones), s, k, |pods|, o.now));
  }

  /**
   * The same told by node labels: with a truthful cache and every zone resolved, the stored condition is
   * True exactly when every pod has a node and no two of their nodes carry the same zone label.
   */
  lemma StoredSpreadByLabels(cfg: Config, w: World, k: Key, o: Obs, cache: Z.Cache, truth: Z.Cache, nodes: Z.Nodes, pods: seq<Z.Pod>)
    requires Live(w, k) && NatsFinalizer in w.server.crs[k].finalizers && (cfg.allowed.Some? ==> cfg.allowed.value == k)
    requires Proper(w.server.crs[k].status.conditions) && Completes(o) && VerdictOf(w, k, o) == Running(o.zones)
    requires o.zones == Got(|Z.ZoneSet(cache, nodes, pods)|) && |pods| == w.server.crs[k].spec.clusterSize
    requires Z.Truthful(cache, truth) && Z.TellsTruth(nodes, truth) && Z.AllResolve(cache, nodes, pods)
    ensures var w1 := Reconcile(cfg, w, k, o).0;
            k in w1.server.crs &&
            (Shows(w1.server.crs[k].status, AvailabilityZones, IsTrue) <==>
               && |pods| >= 3
               && (forall p :: p in pods ==> p.nodeName != "" && p.nodeName in truth)
               && (forall i, j :: 0 <= i < j < |pods| && pods[i].nodeName in truth && pods[j].nodeName in truth ==>
                     truth[pods[i].nodeName] != truth[pods[j].nodeName]))
  {
    hide Reconcile, Z.Spread, Z.ZoneSet, Z.Truthful, Z.TellsTruth, Z.AllResolve, VerdictOf, Proper;
    StoredSpreadIsReal(cfg, w, k, o, cache, nodes, pods);
    Z.SpreadByLabels(cache, truth, nodes, pods);
  }
}
