/** The account Secret over runs: when the password is written once, and when deployments rotate it. */
module Passwords {
  import opened Wrappers
  import opened NatsStatus
  import opened Naming
  import opened Operator
  import opened Convergence
  import opened Process
  import opened Lifecycle
  import O = Overrides

  // ---- Written once ----

  /**
   * Once the Secret the controller looks up exists and nobody deletes it, no later reconcile of the
   * resource applies a Secret, whatever errors and restarts occur in between.
   */
  lemma {:induction false} PasswordWrittenOnce(cfg: Config, w: World, es: seq<Event>, k: Key)
    requires ProcessOk(w)
    requires LookupSecret(k) in w.server.secrets && SecretRemoved(LookupSecret(k)) !in es
    ensures var now := Run(cfg, w, es);
            && LookupSecret(k) in now.server.secrets
            && w.trace <= now.trace
            && forall e :: e in now.trace[|w.trace|..] ==> !(e.SecretApplied? && e.owner == k)
  {
    hide Step, ProcessOk, LookupSecret, DeployedSecret;
    if es == [] {
      assert w.trace[|w.trace|..] == [];
    } else {
      var front, last := es[..|es| - 1], es[|es| - 1];
      assert last in es && forall e :: e in front ==> e in es;
      PasswordWrittenOnce(cfg, w, front, k);
      RunPlain(cfg, w, front);
      var a := Run(cfg, w, front);
      StepSince(cfg, a, last);
      var b := Step(cfg, a, last);
      assert b.trace[|w.trace|..] == a.trace[|w.trace|..] + b.trace[|a.trace|..];
    }
  }

  /** Nobody deletes a Secret, and no other resource reconciled deploys a Secret of that name. */
  ghost predicate LeavesSecret(es: seq<Event>, k: Key) {
    && SecretRemoved(LookupSecret(k)) !in es
    && forall e :: e in es && e.Reconciled? && e.k != k ==> DeployedSecret(e.k) != LookupSecret(k)
  }

  /**
   * Once the looked-up Secret exists and nobody deletes it, nobody applies it again either, as long as no
   * other resource deploys a Secret of that name.
   */
  lemma {:induction false} SecretLeftAlone(cfg: Config, w: World, es: seq<Event>, k: Key)
    requires ProcessOk(w) && LookupSecret(k) in w.server.secrets && LeavesSecret(es, k)
    ensures var now := Run(cfg, w, es);
            && LookupSecret(k) in now.server.secrets
            && w.trace <= now.trace
            && forall e :: e in now.trace[|w.trace|..] ==> !(e.SecretApplied? && e.secret == LookupSecret(k))
  {
    hide Step, ProcessOk, LookupSecret, DeployedSecret;
    if es == [] {
      assert w.trace[|w.trace|..] == [];
    } else {
      var front, last := es[..|es| - 1], es[|es| - 1];
      assert last in es && forall e :: e in front ==> e in es;
      SecretLeftAlone(cfg, w, front, k);
      RunPlain(cfg, w, front);
      var a := Run(cfg, w, front);
      StepSince(cfg, a, last);
      var b := Step(cfg, a, last);
      assert b.trace[|w.trace|..] == a.trace[|w.trace|..] + b.trace[|a.trace|..];
    }
  }

  /** Another resource deploys the Secret this one looks up exactly when the chart turns its name into this one's. */
  lemma SharesSecretIff(j: Key, k: Key)
    ensures DeployedSecret(j) == LookupSecret(k) <==> j.ns == k.ns && Fullname(j.name) == k.name
  {
    hide Fullname;
    var suffix := "-secret";
    if Fullname(j.name) + suffix == k.name + suffix {
      assert |k.name| == |Fullname(j.name)|;
      assert (k.name + suffix)[..|k.name|] == k.name;
      assert (Fullname(j.name) + suffix)[..|k.name|] == Fullname(j.name);
    }
  }

  /**
   * For a name the chart uses unchanged: once a reconcile applied the Secret, no later reconcile of the
   * resource does, as long as nobody deletes it; and nobody else does, unless another resource reconciled
   * has a name that the chart turns into this one.
   */
  lemma PasswordNeverRotates(cfg: Config, w: World, k: Key, o: Obs, e: Effect, es: seq<Event>)
    requires ProcessOk(w) && ValidName(k.name) && (Contains(k.name, CHART_NAME) || |k.name| >= 62)
    requires var w1 := Reconcile(cfg, w, k, o).0;
             |w.trace| <= |w1.trace| && e in w1.trace[|w.trace|..] && e.SecretApplied? && e.owner == k
    requires SecretRemoved(LookupSecret(k)) !in es
    ensures var w1 := Reconcile(cfg, w, k, o).0;
            var now := Run(cfg, w1, es);
            && w1.trace <= now.trace
            && (forall x :: x in now.trace[|w1.trace|..] ==> !(x.SecretApplied? && x.owner == k))
            && ((forall x :: x in es && x.Reconciled? && x.k != k ==> !(x.k.ns == k.ns && Fullname(x.k.name) == k.name)) ==>
                  forall x :: x in now.trace[|w1.trace|..] ==> !(x.SecretApplied? && x.secret == LookupSecret(k)))
  {
    hide Reconcile, Run, ProcessOk, Fullname, Contains, ValidName;
    ReconcilePlain(cfg, w, k, o);
    FullnameIsNameIff(k.name);
    SharesSecretIff(k, k);
    assert Fine(w, e, k);
    var w1 := Reconcile(cfg, w, k, o).0;
    PasswordWrittenOnce(cfg, w1, es, k);
    if forall x :: x in es && x.Reconciled? && x.k != k ==> !(x.k.ns == k.ns && Fullname(x.k.name) == k.name) {
      forall x | x in es && x.Reconciled? && x.k != k ensures DeployedSecret(x.k) != LookupSecret(k) {
        SharesSecretIff(x.k, k);
      }
      SecretLeftAlone(cfg, w1, es, k);
    }
  }

  // ---- Deployments without failures ----

  /** A permitted live resource with the finalizer. */
  predicate Deployable(cfg: Config, w: World, k: Key) {
    && k in w.server.crs && !w.server.crs[k].deleting && NatsFinalizer in w.server.crs[k].finalizers
    && (cfg.allowed.Some? ==> cfg.allowed.value == k)
  }

  /** The reconcile gets as far as a rendered instance, and every object of it can be applied. */
  predicate Smooth(w: World, k: Key, o: Obs)
    requires k in w.server.crs
  {
    o.readFault.None? && InitInstance(SyncCloudProvider(w, o), k, w.server.crs[k].spec, o).Got? && o.applyFaults == map[]
  }

  lemma RenderedSecrets(k: Key, rotate: bool, istio: bool, s: Key)
    ensures SecretManifest(s) in Rendered(k, rotate, istio) <==> rotate && s == DeployedSecret(k)
  {
    hide DeployedSecret, Fullname;
  }

  lemma {:induction false} AppliedSecrets(w: World, k: Key, manifests: seq<Manifest>, faults: map<Manifest, Error>)
    requires faults == map[]
    ensures var w1 := ApplyAll(w, k, manifests, faults).0;
            && (forall s :: s in w1.server.secrets <==> s in w.server.secrets || SecretManifest(s) in manifests)
            && w.trace <= w1.trace
            && (forall s :: SecretManifest(s) in manifests ==> SecretApplied(k, s) in w1.trace[|w.trace|..])
    decreases |manifests|
  {
    if manifests != [] {
      var next := Apply(w, k, manifests[0]);
      AppliedSecrets(next, k, manifests[1..], faults);
      assert manifests == [manifests[0]] + manifests[1..];
      var w1 := ApplyAll(w, k, manifests, faults).0;
      assert w1.trace[|w.trace|..] == next.trace[|w.trace|..] + w1.trace[|next.trace|..];
    }
  }

  /** What an assessment without failures does to the Secrets and the record. */
  lemma SmoothAssess(w: World, k: Key, o: Obs)
    requires k in w.server.crs && InitInstance(w, k, w.server.crs[k].spec, o).Got? && o.applyFaults == map[]
    ensures var w1 := Assess(w, k, o).0;
            var missing := LookupSecret(k) !in w.server.secrets;
            && w1.server.secrets == w.server.secrets + (if missing then {DeployedSecret(k)} else {})
            && w.trace <= w1.trace
            && (missing ==> SecretApplied(k, DeployedSecret(k)) in w1.trace[|w.trace|..])
  {
    hide LookupSecret, DeployedSecret, ApplyAll, Rendered;
    var r := w.server.crs[k];
    var i := InitInstance(w, k, r.spec, o).value;
    var wd := Emit(w, Deployed(k, r.uid, i.fileSize));
    AppliedSecrets(wd, k, i.manifests, o.applyFaults);
    forall s ensures SecretManifest(s) in i.manifests <==> LookupSecret(k) !in w.server.secrets && s == DeployedSecret(k) {
      RenderedSecrets(k, LookupSecret(k) !in w.server.secrets, i.istio, s);
    }
    var wa, w1 := ApplyAll(wd, k, i.manifests, o.applyFaults).0, Assess(w, k, o).0;
    assert wa.trace <= w1.trace && w1.server.secrets == wa.server.secrets;
    if LookupSecret(k) !in w.server.secrets {
      LaterEffect(w.trace, wd.trace, wa.trace, w1.trace, SecretApplied(k, DeployedSecret(k)));
    }
  }

  /** A smooth deployment leaves the Secret the chart names, unless the looked-up one exists. */
  lemma SmoothDeployment(cfg: Config, w: World, k: Key, o: Obs)
    requires Deployable(cfg, w, k) && Smooth(w, k, o)
    ensures var w1 := Reconcile(cfg, w, k, o).0;
            && Deployable(cfg, w1, k)
            && (LookupSecret(k) in w.server.secrets ==> w1.server.secrets == w.server.secrets)
            && (LookupSecret(k) !in w.server.secrets ==> w1.server.secrets == w.server.secrets + {DeployedSecret(k)})
  {
    hide LookupSecret, DeployedSecret, StatusFor, Status.IsEqual, Assess, InitInstance;
    var w0 := SyncCloudProvider(w, o);
    SmoothAssess(w0, k, o);
    ApplyAllKeeps(w0, k, o);
  }

  predicate AppliesSecret(w: World, w1: World, k: Key) {
    |w.trace| <= |w1.trace| && exists e :: e in w1.trace[|w.trace|..] && e == SecretApplied(k, DeployedSecret(k))
  }

  /** A smooth deployment applies the Secret exactly when the looked-up one is missing. */
  lemma SmoothAppliesIff(cfg: Config, w: World, k: Key, o: Obs)
    requires Deployable(cfg, w, k) && Smooth(w, k, o) && ProcessOk(w)
    ensures AppliesSecret(w, Reconcile(cfg, w, k, o).0, k) <==> LookupSecret(k) !in w.server.secrets
  {
    hide LookupSecret, DeployedSecret, ProcessOk, StatusFor, Status.IsEqual, Assess, InitInstance;
    ReconcilePlain(cfg, w, k, o);
    if LookupSecret(k) !in w.server.secrets {
      var w0 := SyncCloudProvider(w, o);
      SmoothAssess(w0, k, o);
      ApplyAllKeeps(w0, k, o);
      var wa, w1 := Assess(w0, k, o).0, Reconcile(cfg, w, k, o).0;
      LaterEffect(w.trace, w0.trace, wa.trace, w1.trace, SecretApplied(k, DeployedSecret(k)));
    }
  }

  lemma LaterEffect(a: seq<Effect>, b: seq<Effect>, c: seq<Effect>, d: seq<Effect>, e: Effect)
    requires |a| <= |b| && b <= c && c <= d && e in c[|b|..]
    ensures e in d[|a|..]
  {
    var i :| 0 <= i < |c[|b|..]| && c[|b|..][i] == e;
    assert d[|b| + i] == e;
    assert d[|a|..][|b| + i - |a|] == e;
  }

  /**
   * Two smooth deployments in a row, the first of which had to create the Secret: the second applies it
   * again, with a new password, exactly when the chart does not use the resource's name unchanged, that
   * is when the name neither contains "nats" nor has 62 characters or more.
   */
  lemma PasswordRotatesAgainIff(cfg: Config, w: World, k: Key, o: Obs, o2: Obs)
    requires ValidName(k.name) && Deployable(cfg, w, k) && ProcessOk(w)
    requires LookupSecret(k) !in w.server.secrets && Smooth(w, k, o)
    requires var w1 := Reconcile(cfg, w, k, o).0; k in w1.server.crs && Smooth(w1, k, o2)
    ensures var w1 := Reconcile(cfg, w, k, o).0;
            && AppliesSecret(w, w1, k)
            && (AppliesSecret(w1, Reconcile(cfg, w1, k, o2).0, k) <==>
                !(Contains(k.name, CHART_NAME) || |k.name| >= 62))
  {
    hide Reconcile, Fullname, Contains, ProcessOk, AppliesSecret, Smooth;
    SmoothAppliesIff(cfg, w, k, o);
    SmoothDeployment(cfg, w, k, o);
    ReconcilePlain(cfg, w, k, o);
    SmoothAppliesIff(cfg, Reconcile(cfg, w, k, o).0, k, o2);
    FullnameIsNameIff(k.name);
    SharesSecretIff(k, k);
  }

  /**
   * A smooth deployment of any resource applies the Secret that `k` looks up, rotating its password, exactly
   * when its own looked-up Secret is missing and the chart turns its name into `k`'s.
   */
  lemma SmoothAppliesToIff(cfg: Config, w: World, j: Key, o: Obs, k: Key)
    requires Deployable(cfg, w, j) && Smooth(w, j, o) && ProcessOk(w)
    ensures var w1 := Reconcile(cfg, w, j, o).0;
            |w.trace| <= |w1.trace| &&
            (SecretApplied(j, LookupSecret(k)) in w1.trace[|w.trace|..] <==>
             LookupSecret(j) !in w.server.secrets && j.ns == k.ns && Fullname(j.name) == k.name)
  {
    hide Reconcile, Fullname, ProcessOk, Smooth;
    SmoothAppliesIff(cfg, w, j, o);
    ReconcilePlain(cfg, w, j, o);
    SharesSecretIff(j, k);
    if SecretApplied(j, LookupSecret(k)) in Reconcile(cfg, w, j, o).0.trace[|w.trace|..] {
      assert Fine(w, SecretApplied(j, LookupSecret(k)), j);
    }
  }

  // ---- Rotated by every deployment ----

  /** A reconcile adds no Secret but the one its resource deploys. */
  lemma ReconcileSecrets(cfg: Config, w: World, k: Key, o: Obs)
    ensures forall s :: s in Reconcile(cfg, w, k, o).0.server.secrets ==> s in w.server.secrets || s == DeployedSecret(k)
  {
    hide Assess, StatusFor, ForbiddenStatus, BlockedStatus, Status.IsEqual, DeletionGate, DeleteAll, Labelled, SweepLabel,
      RegistryKey, DeployedSecret, LookupSecret;
    if o.readFault.None? && k in w.server.crs && !w.server.crs[k].deleting {
      var w0 := SyncCloudProvider(w, o);
      AssessEffect(w0, k, o);
      ApplyAllKeeps(w0, k, o);
    }
  }

  /** Nobody adds a Secret, by hand or by deploying it. */
  ghost predicate NobodyAdds(es: seq<Event>, s: Key) {
    SecretAdded(s) !in es && forall e :: e in es && e.Reconciled? ==> DeployedSecret(e.k) != s
  }

  lemma {:induction false} StaysMissing(cfg: Config, w: World, es: seq<Event>, s: Key)
    requires s !in w.server.secrets && NobodyAdds(es, s)
    ensures s !in Run(cfg, w, es).server.secrets
  {
    hide Reconcile, DeployedSecret, Without;
    if es != [] {
      var front, last := es[..|es| - 1], es[|es| - 1];
      assert last in es && forall e :: e in front ==> e in es;
      StaysMissing(cfg, w, front, s);
      if last.Reconciled? {
        ReconcileSecrets(cfg, Run(cfg, w, front), last.k, last.o);
      }
    }
  }

  /**
   * For a name the chart changes: in every run in which nobody adds the looked-up Secret, every deployment
   * without failures applies the deployed one, with a new password.
   */
  lemma EveryDeploymentRotates(cfg: Config, w: World, es: seq<Event>, k: Key, o: Obs)
    requires Initial(w) && LookupSecret(k) !in w.server.secrets && NobodyAdds(es, LookupSecret(k))
    ensures var now := Run(cfg, w, es);
            Deployable(cfg, now, k) && Smooth(now, k, o) ==> AppliesSecret(now, Reconcile(cfg, now, k, o).0, k)
  {
    hide Run, Reconcile, LookupSecret, DeployedSecret, AppliesSecret, Smooth;
    RunPlain(cfg, w, es);
    StaysMissing(cfg, w, es, LookupSecret(k));
    var now := Run(cfg, w, es);
    if Deployable(cfg, now, k) && Smooth(now, k, o) {
      SmoothAppliesIff(cfg, now, k, o);
    }
  }

  // ---- Inputs ----

  /** A world in which one resource is about to be deployed, with some Secrets there already. */
  function DeployWorld(k: Key, spec: O.Spec, secrets: set<Key>): World {
    var r := Resource(0, spec.(fileStorageSize := 0), {NatsFinalizer}, false, EMPTY_STATUS, 1);
    World(Server(map[k := r], 1, [], secrets), FRESH_MEMORY.(cloudProvider := Some("")), [])
  }

  lemma DeployWorldReady(k: Key, spec: O.Spec, secrets: set<Key>, o: Obs)
    requires o.readFault.None? && o.crdFault.None? && o.secretFault.None? && o.renderFault.None? && o.applyFaults == map[]
    ensures var w := DeployWorld(k, spec, secrets);
            Deployable(Config(None), w, k) && Smooth(w, k, o) && ProcessOk(w)
  {
    hide Rendered, LookupSecret;
  }

  /** The input: `eventing`, whose Secret is deployed as `eventing-nats-secret`, has its password rotated by two deployments in a row. */
  lemma EventingRotates(ns: string, spec: O.Spec, o: Obs, o2: Obs)
    requires o.readFault.None? && o.crdFault.None? && o.secretFault.None? && o.renderFault.None? && o.applyFaults == map[]
    requires o2.readFault.None? && o2.crdFault.None? && o2.secretFault.None? && o2.renderFault.None? && o2.applyFaults == map[]
    ensures var k := Key(ns, "eventing");
            var w := DeployWorld(k, spec, {});
            var w1 := Reconcile(Config(None), w, k, o).0;
            AppliesSecret(w, w1, k) && AppliesSecret(w1, Reconcile(Config(None), w1, k, o2).0, k)
  {
    hide Reconcile, Fullname, Contains, LookupSecret, DeployedSecret, AppliesSecret, Smooth, ProcessOk;
    var k := Key(ns, "eventing");
    var w := DeployWorld(k, spec, {});
    DeployWorldReady(k, spec, {}, o);
    NotContainsShort(k.name);
    SmoothAgain(Config(None), w, k, o, o2);
    PasswordRotatesAgainIff(Config(None), w, k, o, o2);
  }

  /** What keeps a deployment smooth keeps the next one smooth. */
  lemma SmoothAgain(cfg: Config, w: World, k: Key, o: Obs, o2: Obs)
    requires Deployable(cfg, w, k) && Smooth(w, k, o) && ProcessOk(w)
    requires w.mem.cloudProvider == Some("") && w.server.crs[k].spec.fileStorageSize == 0
    requires o2.readFault.None? && o2.crdFault.None? && o2.secretFault.None? && o2.renderFault.None? && o2.applyFaults == map[]
    ensures var w1 := Reconcile(cfg, w, k, o).0; k in w1.server.crs && Smooth(w1, k, o2)
  {
    hide Reconcile, Rendered, LookupSecret, DeployedSecret, ProcessOk;
    SmoothDeployment(cfg, w, k, o);
    ReconcileKeepsSpec(cfg, w, k, o);
    ReconcilePlain(cfg, w, k, o);
  }

  /** The input: `foo` deploys its Secret under the name that `foo-nats` looks up, so it rotates the password of `foo-nats`. */
  lemma FooRotatesFooNats(ns: string, spec: O.Spec, o: Obs)
    requires o.readFault.None? && o.crdFault.None? && o.secretFault.None? && o.renderFault.None? && o.applyFaults == map[]
    ensures var j, k := Key(ns, "foo"), Key(ns, "foo-nats");
            var w := DeployWorld(j, spec, {LookupSecret(k)});
            var w1 := Reconcile(Config(None), w, j, o).0;
            && Fullname(k.name) == k.name && LookupSecret(k) in w.server.secrets
            && |w.trace| <= |w1.trace| && SecretApplied(j, LookupSecret(k)) in w1.trace[|w.trace|..]
  {
    hide Reconcile, Contains, Smooth, ProcessOk, Trunc63, TrimDash;
    var j, k := Key(ns, "foo"), Key(ns, "foo-nats");
    DeployWorldReady(j, spec, {LookupSecret(k)}, o);
    NotContainsShort(j.name);
    assert k.name == "foo" + "-" + CHART_NAME;
    ContainsSuffix("foo" + "-", CHART_NAME);
    CutKeeps(k.name);
    assert |LookupSecret(j).name| != |LookupSecret(k).name|;
    SmoothAppliesToIff(Config(None), DeployWorld(j, spec, {LookupSecret(k)}), j, o, k);
  }
}
