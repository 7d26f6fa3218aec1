/** Convergence of one resource in a run in which other resources are reconciled, created, edited and deleted. */
module Interleaving {
  import opened Wrappers
  import opened Conditions
  import opened NatsStatus
  import opened Naming
  import opened Operator
  import opened StatusRules
  import opened Deletion
  import opened Convergence
  import O = Overrides

  /** Every object can be applied and the watch can be started. */
  predicate Faultless(o: Obs) {
    o.applyFaults == map[] && o.watchFault.None?
  }

  /** The provider a reconcile goes by. */
  function ProviderSeen(w: World, o: Obs): string {
    Provider(SyncCloudProvider(w, o).mem)
  }

  /** Without faults the verdict depends on the spec and the provider only, not on Secrets and watches of others. */
  lemma VerdictShared(w: World, w1: World, k: Key, o: Obs)
    requires k in w.server.crs && k in w1.server.crs && w1.server.crs[k].spec == w.server.crs[k].spec
    requires Faultless(o) && ProviderSeen(w1, o) == ProviderSeen(w, o)
    ensures VerdictOf(w1, k, o) == VerdictOf(w, k, o)
  {
    hide Assess, DeployFault;
    var a, b := SyncCloudProvider(w, o), SyncCloudProvider(w1, o);
    VerdictFromFault(a, k, o);
    VerdictFromFault(b, k, o);
    FaultShared(a, b, k, w.server.crs[k].spec, o);
  }

  lemma FaultShared(a: World, b: World, k: Key, spec: O.Spec, o: Obs)
    requires o.applyFaults == map[] && Provider(a.mem) == Provider(b.mem)
    ensures DeployFault(a, k, spec, o) == DeployFault(b, k, spec, o)
  {
    hide FirstFault, Rendered, LookupSecret;
    forall rotate, istio ensures FirstFault(Rendered(k, rotate, istio), o.applyFaults) == None {
      NoFirstFault(Rendered(k, rotate, istio), o.applyFaults);
    }
  }

  /** A reconcile reads shoot-info at most once, and nothing else touches the cached provider. */
  lemma ReconcileProvider(cfg: Config, w: World, j: Key, o: Obs)
    ensures var p := Reconcile(cfg, w, j, o).0.mem.cloudProvider;
            p == w.mem.cloudProvider || p == SyncCloudProvider(w, o).mem.cloudProvider
  {
    hide Assess, StatusFor, ForbiddenStatus, BlockedStatus, Status.IsEqual, DeletionGate, DeleteAll, Labelled, SweepLabel, RegistryKey;
    if o.readFault.None? && j in w.server.crs && !w.server.crs[j].deleting {
      AssessEffect(SyncCloudProvider(w, o), j, o);
      ApplyAllKeeps(SyncCloudProvider(w, o), j, o);
    }
  }

  /**
   * A step the resource may be interleaved with: no restart, the cluster's shoot-info reads the same for
   * all, and nobody but the controller touches the resource; its own reconciles observe what `o` does.
   */
  ghost predicate Benign(e: Event, k: Key, o: Obs) {
    match e
    case Reconciled(j, x) => x.shootInfo == o.shootInfo && (j == k ==> Undisturbed(x) && SameObservations(o, x))
    case Created(j, _, _) => j != k
    case SpecEdited(j, _) => j != k
    case FinalizersEdited(j, _) => j != k
    case DeletionRequested(j) => j != k
    case Restarted => false
    case _ => true
  }

  predicate IsTurn(e: Event, k: Key) {
    e.Reconciled? && e.k == k
  }

  function Turns(es: seq<Event>, k: Key): nat {
    if es == [] then 0 else Turns(es[..|es| - 1], k) + if IsTurn(es[|es| - 1], k) then 1 else 0
  }

  /** A step that is no turn of the resource leaves it, and how far it has to go, as they were. */
  lemma OtherStep(cfg: Config, w: World, e: Event, k: Key, o: Obs)
    requires Live(w, k) && Faultless(o) && Benign(e, k, o) && !IsTurn(e, k)
    ensures var w1 := Step(cfg, w, e);
            k in w1.server.crs && w1.server.crs[k] == w.server.crs[k] && Distance(cfg, w1, k, o) == Distance(cfg, w, k, o)
  {
    hide Decide, Status.IsEqual, VerdictOf;
    OtherStepFrame(cfg, w, e, k, o);
    hide Step;
    VerdictShared(w, Step(cfg, w, e), k, o);
  }

  lemma OtherStepFrame(cfg: Config, w: World, e: Event, k: Key, o: Obs)
    requires Live(w, k) && Benign(e, k, o) && !IsTurn(e, k)
    ensures var w1 := Step(cfg, w, e);
            k in w1.server.crs && w1.server.crs[k] == w.server.crs[k] && ProviderSeen(w1, o) == ProviderSeen(w, o)
  {
    hide Reconcile, Without;
    if e.Reconciled? {
      hide Belongs;
      ReconcileActs(cfg, w, e.k, e.o);
      ReconcileProvider(cfg, w, e.k, e.o);
    }
  }

  /** One turn of the resource, as `DistanceFalls` has it, measured by `o`. */
  lemma Turn(cfg: Config, w: World, x: Obs, k: Key, o: Obs)
    requires Live(w, k) && Proper(w.server.crs[k].status.conditions)
    requires Undisturbed(o) && Undisturbed(x) && SameObservations(o, x)
    ensures var w1 := Reconcile(cfg, w, k, x).0;
            var before := Distance(cfg, w, k, o);
            && Live(w1, k) && Proper(w1.server.crs[k].status.conditions)
            && (before == 0 ==> w1.server.crs[k] == w.server.crs[k] && Distance(cfg, w1, k, o) == 0)
            && (before > 0 ==> w1.server.crs[k].writes == w.server.crs[k].writes + 1)
            && (0 < before <= 2 ==> Distance(cfg, w1, k, o) == 0)
            && (before == 3 ==> Distance(cfg, w1, k, o) == 1)
  {
    hide Reconcile, Proper, Settled;
    DistanceAnytime(cfg, w, k, o, x);
    DistanceFalls(cfg, w, k, x, o);
  }

  /**
   * In any run of benign steps, however the resource's reconciles are mixed with those of others, it is
   * written at most twice, and from its second reconcile on nothing writes it.
   */
  lemma {:induction false} AtMostTwoWritesInRun(cfg: Config, w: World, es: seq<Event>, k: Key, o: Obs)
    requires Live(w, k) && Proper(w.server.crs[k].status.conditions) && Undisturbed(o) && Faultless(o)
    requires forall e :: e in es ==> Benign(e, k, o)
    ensures var now := Run(cfg, w, es);
            && Live(now, k) && Proper(now.server.crs[k].status.conditions)
            && now.server.crs[k].writes + (Distance(cfg, now, k, o) + 1) / 2 <= w.server.crs[k].writes + (Distance(cfg, w, k, o) + 1) / 2
            && Distance(cfg, now, k, o) <= Distance(cfg, w, k, o)
            && (Turns(es, k) >= 1 ==> Distance(cfg, now, k, o) <= 1)
            && (Turns(es, k) >= 2 || Distance(cfg, w, k, o) == 0 ==> Distance(cfg, now, k, o) == 0)
  {
    hide Proper, Settled, Step, Benign, SameObservations;
    if es != [] {
      var front, last := es[..|es| - 1], es[|es| - 1];
      assert last in es && forall e :: e in front ==> e in es;
      AtMostTwoWritesInRun(cfg, w, front, k, o);
      EventStep(cfg, Run(cfg, w, front), last, k, o);
      DistanceBound(cfg, Run(cfg, w, front), k, o);
    }
  }

  lemma DistanceBound(cfg: Config, w: World, k: Key, o: Obs)
    requires k in w.server.crs
    ensures Distance(cfg, w, k, o) <= 3
  {
  }

  lemma EventStep(cfg: Config, w: World, e: Event, k: Key, o: Obs)
    requires Live(w, k) && Proper(w.server.crs[k].status.conditions) && Undisturbed(o) && Faultless(o) && Benign(e, k, o)
    ensures var w1 := Step(cfg, w, e);
            var before := Distance(cfg, w, k, o);
            && Live(w1, k) && Proper(w1.server.crs[k].status.conditions)
            && (!IsTurn(e, k) || before == 0 ==> w1.server.crs[k] == w.server.crs[k] && Distance(cfg, w1, k, o) == before)
            && (IsTurn(e, k) && before > 0 ==> w1.server.crs[k].writes == w.server.crs[k].writes + 1)
            && (IsTurn(e, k) && 0 < before <= 2 ==> Distance(cfg, w1, k, o) == 0)
            && (IsTurn(e, k) && before == 3 ==> Distance(cfg, w1, k, o) == 1)
  {
    hide Proper, Distance, Reconcile;
    if IsTurn(e, k) {
      Turn(cfg, w, e.o, k, o);
    } else {
      hide Step;
      OtherStep(cfg, w, e, k, o);
    }
  }

  /** After any run, any number of further benign steps write a live resource at most twice, and once it had two turns none writes it. */
  lemma RunsConvergeTogether(cfg: Config, w: World, es: seq<Event>, k: Key, o: Obs, more: seq<Event>, e: Event)
    requires Initial(w) && Live(Run(cfg, w, es), k) && Undisturbed(o) && Faultless(o)
    requires (forall x :: x in more ==> Benign(x, k, o)) && Benign(e, k, o)
    ensures var before := Run(cfg, w, es);
            var now := Run(cfg, before, more);
            && Live(now, k) && now.server.crs[k].writes <= before.server.crs[k].writes + 2
            && (Turns(more, k) >= 2 ==> k in Step(cfg, now, e).server.crs && Step(cfg, now, e).server.crs[k] == now.server.crs[k])
  {
    hide Run, Step, Proper, Distance, Benign, Turns;
    ReachableProper(cfg, w, es, k);
    AtMostTwoWritesInRun(cfg, Run(cfg, w, es), more, k, o);
    DistanceBound(cfg, Run(cfg, w, es), k, o);
    EventStep(cfg, Run(cfg, Run(cfg, w, es), more), e, k, o);
  }
}
