/** When a stored transition time moves: exactly which writes move it although the condition's status stays. */
module Transitions {
  import opened Wrappers
  import opened Conditions
  import opened NatsStatus
  import opened Naming
  import opened Operator
  import opened StatusRules
  import opened Convergence
  import O = Overrides

  // ---- One condition through one decision ----

  /** What a setter does to one type: it keeps the time as long as it keeps the status. */
  function Touched(c: Option<Condition>, status: ConditionStatus, now: int): (ConditionStatus, int) {
    if c.Some? && c.value.status == status then (status, c.value.time) else (status, now)
  }

  function Look(s: Status, t: ConditionType): Option<Condition> {
    Find(s.conditions, t)
  }

  function Stamp(c: Option<Condition>): Option<(ConditionStatus, int)> {
    match c case None => None case Some(v) => Some((v.status, v.time))
  }

  lemma SetLook(s: Status, typ: ConditionType, status: ConditionStatus, reason: Reason, message: Message, now: int, t: ConditionType)
    ensures var r := Look(s.Set(typ, status, reason, message, now), t);
            if t == typ then Stamp(r) == Some(Touched(Look(s, t), status, now)) else r == Look(s, t)
  {
    SetConditionFind(s.conditions, Condition(typ, status, now, reason, message), t);
  }

  /** A pair of setters for StatefulSet and Available with one status. */
  lemma PairLook(s: Status, status: ConditionStatus, r1: Reason, m1: Message, r2: Reason, m2: Message, now: int, t: ConditionType)
    ensures var r := Look(s.Set(StatefulSet, status, r1, m1, now).Set(Available, status, r2, m2, now), t);
            if t == StatefulSet || t == Available then Stamp(r) == Some(Touched(Look(s, t), status, now)) else r == Look(s, t)
  {
    SetLook(s, StatefulSet, status, r1, m1, now, t);
    SetLook(s.Set(StatefulSet, status, r1, m1, now), Available, status, r2, m2, now, t);
  }

  /** The decisions of a StatefulSet seen ready; they turn both conditions False and True again. */
  predicate Restamps(d: Decision, t: ConditionType) {
    d.Judged? && d.v.Running? && (t == StatefulSet || t == Available)
  }

  /**
   * A decision that leaves the status of a condition as it was keeps its transition time exactly when it
   * is not one for a ready StatefulSet about StatefulSet or Available, or the clock stood still.
   */
  lemma TimeKeptIff(d: Decision, s: Status, k: Key, now: int, t: ConditionType)
    requires Find(s.conditions, t).Some?
    ensures var was, got := Find(s.conditions, t), Find(Decide(d, s, k, now).conditions, t);
            got.Some? && (got.value.status == was.value.status ==>
                            (got.value.time == was.value.time <==> !Restamps(d, t) || was.value.time == now))
  {
    hide Find, SetCondition;
    match d
    case Refused(allowed) =>
      PairLook(s.(state := Failed), IsFalse, ReasonSyncFailError, NoMessage, ReasonProcessingError, NoMessage, now, t);
      PairLook(s.InError(now), IsFalse, ReasonForbidden, NoMessage, ReasonForbidden, OnlyAllowed(allowed.ns, allowed.name), now, t);
    case Held(message) =>
      SetLook(s.(state := Warning), Deleted, IsFalse, ReasonDeletionError, message, now, t);
    case Judged(v, size) =>
      JudgedLook(v, s, k, size, now, t);
  }

  lemma JudgedLook(v: Verdict, s: Status, k: Key, size: int, now: int, t: ConditionType)
    requires Look(s, t).Some?
    ensures var was, got := Look(s, t), Look(StatusFor(v, s, k, size, now), t);
            got.Some? && (got.value.status == was.value.status ==>
                            (got.value.time == was.value.time <==> !Restamps(Judged(v, size), t) || was.value.time == now))
  {
    hide Find, SetCondition;
    var s0 := s.Initialized(now);
    PairLook(s.(state := Processing), IsFalse, ReasonProcessing, NoMessage, ReasonProcessing, NoMessage, now, t);
    match v
    case Broken(m) =>
      ExplainedLook(s0, m, now, t);
    case StatefulSetUnknown(m) =>
      var s1 := s0.(url := NoUrl);
      SetLook(s1, StatefulSet, IsFalse, ReasonSyncFailError, Text(m), now, t);
      ExplainedLook(s1.Set(StatefulSet, IsFalse, ReasonSyncFailError, Text(m), now), m, now, t);
    case NotReady =>
      var s1 := s0.(url := NoUrl).(state := Processing);
      PairLook(s1, IsFalse, ReasonStatefulSetPending, NoMessage, ReasonDeploying, NoMessage, now, t);
      SetLook(s1.Set(StatefulSet, IsFalse, ReasonStatefulSetPending, NoMessage, now).Set(Available, IsFalse, ReasonDeploying, NoMessage, now),
              AvailabilityZones, IsFalse, ReasonStatefulSetPending, NoMessage, now, t);
    case Running(zones) =>
      RunningLook(zones, s, k, size, now, t);
  }

  lemma ExplainedLook(s: Status, m: string, now: int, t: ConditionType)
    ensures var r := Look(Explained(s, m, now), t);
            if t == StatefulSet || t == Available then Stamp(r) == Some(Touched(Look(s, t), IsFalse, now)) else r == Look(s, t)
  {
    hide Find, SetCondition;
    PairLook(s.(state := Failed), IsFalse, ReasonSyncFailError, NoMessage, ReasonProcessingError, NoMessage, now, t);
    SetLook(s.InError(now), Available, IsFalse, ReasonProcessingError, Text(m), now, t);
  }

  /** A ready StatefulSet: both conditions end True and stamped with the current time, whatever they were. */
  lemma RunningLook(zones: Reply<int>, s: Status, k: Key, size: int, now: int, t: ConditionType)
    ensures var r := Look(StatusFor(Running(zones), s, k, size, now), t);
            if t == StatefulSet || t == Available then Stamp(r) == Some((IsTrue, now))
            else if t == AvailabilityZones then r.Some? && Stamp(r) == Some(Touched(Look(s, t), r.value.status, now))
            else r == Look(s, t)
  {
    hide Find, SetCondition;
    var s0 := s.Initialized(now);
    PairLook(s.(state := Processing), IsFalse, ReasonProcessing, NoMessage, ReasonProcessing, NoMessage, now, t);
    PairLook(s0.(state := Ready), IsTrue, ReasonStatefulSetAvailable, StatefulSetIsReady, ReasonDeployed, NatsIsDeployed, now, t);
    match zones
    case Err(e) =>
      SetLook(s0.InReady(now).(url := ServiceUrl(k), zones := 0), AvailabilityZones, IsFalse, ReasonProcessingError, Text(e.message), now, t);
    case Got(n) =>
      var c := ZonesSay(n, size);
      SetLook(s0.InReady(now).(url := ServiceUrl(k), zones := n), AvailabilityZones, c.status, c.reason, c.message, now, t);
  }

  // ---- What a reconcile stores ----

  /** The decision a reconcile takes about the status of a stored resource, if it takes any. */
  function DecisionTaken(cfg: Config, w: World, k: Key, o: Obs): Option<Decision>
    requires k in w.server.crs
  {
    var r := w.server.crs[k];
    if o.readFault.Some? then None
    else if r.deleting then
      match DeletionGate(o)
      case Open => None
      case Blocked(message) => if NatsFinalizer in r.finalizers then Some(Held(message)) else None
    else if Managed(cfg, w, k) then Some(DecisionOf(cfg, w, k, o))
    else None
  }

  /** A stored status is the old one, or what the decision taken makes of it. */
  lemma StoredStatus(cfg: Config, w: World, k: Key, o: Obs)
    requires k in w.server.crs
    ensures var w1 := Reconcile(cfg, w, k, o).0;
            k in w1.server.crs && w1.server.crs[k].status != w.server.crs[k].status ==>
              var d := DecisionTaken(cfg, w, k, o);
              d.Some? && w1.server.crs[k].status == Decide(d.value, w.server.crs[k].status, k, o.now)
  {
    hide StatusFor, ForbiddenStatus, BlockedStatus, Status.IsEqual, Assess, DeleteAll, Labelled, SweepLabel, RegistryKey, DeletionGate;
    if o.readFault.None? && !w.server.crs[k].deleting {
      ApplyAllKeeps(SyncCloudProvider(w, o), k, o);
    }
  }

  /**
   * For every reconcile that changes the stored status, of a live or a deleting resource: a condition whose
   * status stays keeps its time exactly when the decision is not one for a ready StatefulSet about
   * StatefulSet or Available, or the clock stood still.
   */
  lemma StoredTimeKeptIff(cfg: Config, w: World, k: Key, o: Obs, t: ConditionType)
    requires k in w.server.crs && Find(w.server.crs[k].status.conditions, t).Some?
    ensures var w1 := Reconcile(cfg, w, k, o).0;
            k in w1.server.crs && w1.server.crs[k].status != w.server.crs[k].status ==>
              var was, got := Find(w.server.crs[k].status.conditions, t), Find(w1.server.crs[k].status.conditions, t);
              var d := DecisionTaken(cfg, w, k, o);
              d.Some? && got.Some? &&
              (got.value.status == was.value.status ==>
                 (got.value.time == was.value.time <==> !Restamps(d.value, t) || was.value.time == o.now))
  {
    hide Reconcile, Decide, DecisionTaken, Restamps, Find;
    StoredStatus(cfg, w, k, o);
    var d := DecisionTaken(cfg, w, k, o);
    if d.Some? {
      TimeKeptIff(d.value, w.server.crs[k].status, k, o.now, t);
    }
  }

  // ---- A write that moves times and no status ----

  /** A resource stored as ready at one time. */
  ghost predicate ReadySince(s: Status, time: int) {
    && Proper(s.conditions) && s.state.Ready?
    && Stamp(Find(s.conditions, StatefulSet)) == Some((IsTrue, time))
    && Stamp(Find(s.conditions, Available)) == Some((IsTrue, time))
  }

  /** When the zones observed for a ready resource change, the status is written, both conditions stay True, and both times move. */
  lemma ZoneChangeMovesTimes(cfg: Config, w: World, k: Key, o: Obs, time: int, n: int)
    requires Live(w, k) && NatsFinalizer in w.server.crs[k].finalizers && (cfg.allowed.Some? ==> cfg.allowed.value == k)
    requires ReadySince(w.server.crs[k].status, time) && Completes(o) && time != o.now
    requires VerdictOf(w, k, o) == Running(Got(n)) && w.server.crs[k].status.zones != n
    ensures var w1 := Reconcile(cfg, w, k, o).0;
            && Live(w1, k) && w1.server.crs[k].writes == w.server.crs[k].writes + 1
            && Stamp(Find(w1.server.crs[k].status.conditions, StatefulSet)) == Some((IsTrue, o.now))
            && Stamp(Find(w1.server.crs[k].status.conditions, Available)) == Some((IsTrue, o.now))
  {
    hide StatusFor, Assess, Find, Match;
    var r := w.server.crs[k];
    var w0 := SyncCloudProvider(w, o);
    ApplyAllKeeps(w0, k, o);
    var size := r.spec.clusterSize;
    var s := StatusFor(Running(Got(n)), r.status, k, size, o.now);
    assert s.zones == n by { ZonesOf(r.status, k, size, o.now, n); }
    RunningLook(Got(n), r.status, k, size, o.now, StatefulSet);
    RunningLook(Got(n), r.status, k, size, o.now, Available);
  }

  lemma ZonesOf(s: Status, k: Key, size: int, now: int, n: int)
    ensures StatusFor(Running(Got(n)), s, k, size, now).zones == n
  {
  }

  /** A world whose one resource is ready in three zones since time 1. */
  function ReadyWorld(k: Key, spec: O.Spec): World {
    var status := StatusFor(Running(Got(3)), EMPTY_STATUS, k, 3, 1);
    var r := Resource(0, spec.(clusterSize := 3), {NatsFinalizer}, false, status, 2);
    World(Server(map[k := r], 1, [], {LookupSecret(k)}), FRESH_MEMORY.(cloudProvider := Some("")), [])
  }

  /** Everything succeeds, there is no Istio, and the pods use a given number of zones. */
  function SmoothObs(now: int, zones: int): Obs {
    Obs(now, None, Got(""), Some(Error(NotFound, "")), None, None, map[], None, Got(StatefulSetState(3, 3, 3, 3)), Got(zones),
        None, None, None, None, Got([]), Got([]), Got(false), None, map[])
  }

  /** The input: a resource ready in three zones since time 1, reconciled at time 2 with pods in two zones. */
  lemma TimeMovesWithoutTransition(k: Key, spec: O.Spec)
    requires spec.fileStorageSize == 0
    ensures var w := ReadyWorld(k, spec);
            var w1 := Reconcile(Config(None), w, k, SmoothObs(2, 2)).0;
            && Live(w1, k) && w1.server.crs[k].writes == w.server.crs[k].writes + 1
            && Stamp(Find(w.server.crs[k].status.conditions, Available)) == Some((IsTrue, 1))
            && Stamp(Find(w1.server.crs[k].status.conditions, Available)) == Some((IsTrue, 2))
            && Stamp(Find(w.server.crs[k].status.conditions, StatefulSet)) == Some((IsTrue, 1))
            && Stamp(Find(w1.server.crs[k].status.conditions, StatefulSet)) == Some((IsTrue, 2))
  {
    hide StatusFor, Find, LookupSecret;
    var w, o := ReadyWorld(k, spec), SmoothObs(2, 2);
    ReadyWorldStatus(k);
    SmoothVerdict(w, k, o);
    ZoneChangeMovesTimes(Config(None), w, k, o, 1, 2);
  }

  lemma ReadyWorldStatus(k: Key)
    ensures var s := StatusFor(Running(Got(3)), EMPTY_STATUS, k, 3, 1); ReadySince(s, 1) && s.zones == 3
  {
    hide StatusFor, Find, Decide;
    var d := Judged(Running(Got(3)), 3);
    assert Proper(EMPTY_STATUS.conditions);
    DecisionReaches(d, EMPTY_STATUS, k, 1);
    JudgedIs(Running(Got(3)), 3, EMPTY_STATUS, k, 1);
    RunningLook(Got(3), EMPTY_STATUS, k, 3, 1, StatefulSet);
    RunningLook(Got(3), EMPTY_STATUS, k, 3, 1, Available);
  }

  lemma SmoothVerdict(w: World, k: Key, o: Obs)
    requires k in w.server.crs && w.mem.cloudProvider == Some("") && w.server.crs[k].spec.fileStorageSize == 0
    requires o.crdFault.Some? && o.crdFault.value.kind.NotFound? && o.secretFault.None? && o.renderFault.None?
    requires o.applyFaults == map[] && o.statefulSet.Got? && SetReady(o.statefulSet.value)
    ensures VerdictOf(w, k, o) == Running(o.zones)
  {
    hide Assess, FirstFault, Rendered, LookupSecret;
    VerdictFromFault(w, k, o);
    NoFirstFault(Rendered(k, LookupSecret(k) !in w.server.secrets, false), o.applyFaults);
  }
}
