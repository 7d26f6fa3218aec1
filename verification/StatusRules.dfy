/** Which statuses the controller can ever store, and why computing a status again changes nothing. */
module StatusRules {
  import opened Wrappers
  import opened Conditions
  import opened NatsStatus
  import opened Naming
  import opened Operator
  import O = Overrides
  import Z = Zones

  /** Every way the controller arrives at a status. */
  datatype Decision = Judged(v: Verdict, size: int) | Refused(allowed: Key) | Held(message: Message)

  function Decide(d: Decision, s: Status, k: Key, now: int): Status {
    match d
    case Judged(v, size) => StatusFor(v, s, k, size, now)
    case Refused(allowed) => ForbiddenStatus(s, allowed, now)
    case Held(message) => BlockedStatus(s, message, now)
  }

  /** What a decision fixes; everything else is kept from the stored status. */
  datatype Target = Target(state: State, url: Option<Url>, zones: Option<int>, conds: map<ConditionType, Condition>)

  function Says(typ: ConditionType, status: ConditionStatus, reason: Reason, message: Message): Condition {
    Condition(typ, status, 0, reason, message)
  }

  function TargetOf(d: Decision, k: Key): Target {
    match d
    case Judged(Broken(m), _) => Target(Failed, None, None, Down(ReasonSyncFailError, ReasonProcessingError, Text(m)))
    case Judged(StatefulSetUnknown(m), _) =>
      Target(Failed, Some(NoUrl), None, Down(ReasonSyncFailError, ReasonProcessingError, Text(m)))
    case Judged(NotReady, _) =>
      Target(Processing, Some(NoUrl), Some(0),
             Down(ReasonStatefulSetPending, ReasonDeploying, NoMessage)
             [AvailabilityZones := Says(AvailabilityZones, IsFalse, ReasonStatefulSetPending, NoMessage)])
    case Judged(Running(Err(e)), _) =>
      Target(if e.kind.ZoneLabelMissing? then Ready else Failed, Some(ServiceUrl(k)), Some(0),
             Up(Says(AvailabilityZones, IsFalse, ReasonProcessingError, Text(e.message))))
    case Judged(Running(Got(n)), size) =>
      Target(if size >= O.MIN_CLUSTER_SIZE && n != size then Warning else Ready, Some(ServiceUrl(k)), Some(n), Up(ZonesSay(n, size)))
    case Refused(allowed) => Target(Failed, None, None, Down(ReasonForbidden, ReasonForbidden, OnlyAllowed(allowed.ns, allowed.name)))
    case Held(message) => Target(Warning, None, None, map[Deleted := Says(Deleted, IsFalse, ReasonDeletionError, message)])
  }

  function ZonesSay(n: int, size: int): Condition {
    if size < O.MIN_CLUSTER_SIZE then Says(AvailabilityZones, IsFalse, ReasonNotConfigured, NotClustered)
    else if n == size then Says(AvailabilityZones, IsTrue, ReasonDeployed, SpreadOverZones)
    else Says(AvailabilityZones, IsFalse, ReasonUnknown, TooFewZones(n))
  }

  function Down(setReason: Reason, availableReason: Reason, message: Message): map<ConditionType, Condition> {
    map[StatefulSet := Says(StatefulSet, IsFalse, setReason, NoMessage),
        Available := Says(Available, IsFalse, availableReason, message)]
  }

  function Up(zones: Condition): map<ConditionType, Condition> {
    map[StatefulSet := Says(StatefulSet, IsTrue, ReasonStatefulSetAvailable, StatefulSetIsReady),
        Available := Says(Available, IsTrue, ReasonDeployed, NatsIsDeployed),
        AvailabilityZones := zones]
  }

  /** `r` is `s` with exactly the target's parts put in place. */
  ghost predicate Reaches(r: Status, s: Status, t: Target) {
    && Proper(r.conditions)
    && r.state == t.state
    && r.url == (if t.url.Some? then t.url.value else s.url)
    && r.zones == (if t.zones.Some? then t.zones.value else s.zones)
    && forall typ :: CondOf(r.conditions, typ) == if typ in t.conds then Some(t.conds[typ]) else CondOf(s.conditions, typ)
  }

  lemma Two(s: Status, a: Condition, b: Condition, now: int)
    requires Proper(s.conditions) && a.typ != NoType && b.typ != NoType && a.typ != b.typ
    ensures var r := s.Set(a.typ, a.status, a.reason, a.message, now).Set(b.typ, b.status, b.reason, b.message, now);
            && Proper(r.conditions)
            && forall t :: CondOf(r.conditions, t) ==
                           if t == a.typ then Some(Strip(a)) else if t == b.typ then Some(Strip(b)) else CondOf(s.conditions, t)
  {
    SetFacts(s, a.typ, a.status, a.reason, a.message, now);
    SetFacts(s.Set(a.typ, a.status, a.reason, a.message, now), b.typ, b.status, b.reason, b.message, now);
  }

  /** The part of a condition list a pair of setters for StatefulSet and Available leaves alone, and what it sets. */
  lemma Pair(s: Status, status: ConditionStatus, r1: Reason, m1: Message, r2: Reason, m2: Message, now: int)
    requires Proper(s.conditions)
    ensures var r := s.Set(StatefulSet, status, r1, m1, now).Set(Available, status, r2, m2, now);
            && Proper(r.conditions)
            && CondOf(r.conditions, StatefulSet) == Some(Says(StatefulSet, status, r1, m1))
            && CondOf(r.conditions, Available) == Some(Says(Available, status, r2, m2))
            && forall t :: t != StatefulSet && t != Available ==> CondOf(r.conditions, t) == CondOf(s.conditions, t)
  {
    Two(s, Says(StatefulSet, status, r1, m1), Says(Available, status, r2, m2), now);
  }

  lemma One(s: Status, typ: ConditionType, status: ConditionStatus, reason: Reason, message: Message, now: int)
    requires Proper(s.conditions) && typ != NoType
    ensures var r := s.Set(typ, status, reason, message, now);
            && Proper(r.conditions)
            && CondOf(r.conditions, typ) == Some(Says(typ, status, reason, message))
            && forall t :: t != typ ==> CondOf(r.conditions, t) == CondOf(s.conditions, t)
  {
    SetFacts(s, typ, status, reason, message, now);
  }

  /** Every decision reaches its target, whatever status was stored before. */
  lemma DecisionReaches(d: Decision, s: Status, k: Key, now: int)
    requires Proper(s.conditions)
    ensures Reaches(Decide(d, s, k, now), s, TargetOf(d, k))
  {
    hide Find, SetCondition, Match, CondOf, Proper;
    match d
    case Judged(v, size) =>
      JudgedReaches(v, s, k, size, now);
    case Refused(allowed) =>
      Pair(s.(state := Failed), IsFalse, ReasonSyncFailError, NoMessage, ReasonProcessingError, NoMessage, now);
      Pair(s.InError(now), IsFalse, ReasonForbidden, NoMessage, ReasonForbidden, OnlyAllowed(allowed.ns, allowed.name), now);
    case Held(message) =>
      One(s.(state := Warning), Deleted, IsFalse, ReasonDeletionError, message, now);
  }

  lemma JudgedReaches(v: Verdict, s: Status, k: Key, size: int, now: int)
    requires Proper(s.conditions)
    ensures Reaches(StatusFor(v, s, k, size, now), s, TargetOf(Judged(v, size), k))
  {
    hide Find, SetCondition, Match, CondOf, Proper;
    var s0 := s.Initialized(now);
    Pair(s.(state := Processing), IsFalse, ReasonProcessing, NoMessage, ReasonProcessing, NoMessage, now);
    match v
    case Broken(m) => ExplainedReaches(s0, m, now);
    case StatefulSetUnknown(m) =>
      var s1 := s0.(url := NoUrl);
      One(s1, StatefulSet, IsFalse, ReasonSyncFailError, Text(m), now);
      ExplainedReaches(s1.Set(StatefulSet, IsFalse, ReasonSyncFailError, Text(m), now), m, now);
    case NotReady =>
      var s1 := s0.(url := NoUrl);
      Pair(s1.(state := Processing), IsFalse, ReasonStatefulSetPending, NoMessage, ReasonDeploying, NoMessage, now);
      One(s1.(state := Processing).Set(StatefulSet, IsFalse, ReasonStatefulSetPending, NoMessage, now)
          .Set(Available, IsFalse, ReasonDeploying, NoMessage, now),
          AvailabilityZones, IsFalse, ReasonStatefulSetPending, NoMessage, now);
    case Running(zones) => RunningReaches(zones, s, k, size, now);
  }

  lemma ExplainedReaches(s: Status, m: string, now: int)
    requires Proper(s.conditions)
    ensures var r := Explained(s, m, now);
            && Proper(r.conditions) && r.state == Failed && r.url == s.url && r.zones == s.zones
            && CondOf(r.conditions, StatefulSet) == Some(Says(StatefulSet, IsFalse, ReasonSyncFailError, NoMessage))
            && CondOf(r.conditions, Available) == Some(Says(Available, IsFalse, ReasonProcessingError, Text(m)))
            && forall t :: t != StatefulSet && t != Available ==> CondOf(r.conditions, t) == CondOf(s.conditions, t)
  {
    Pair(s.(state := Failed), IsFalse, ReasonSyncFailError, NoMessage, ReasonProcessingError, NoMessage, now);
    One(s.InError(now), Available, IsFalse, ReasonProcessingError, Text(m), now);
  }

  lemma RunningReaches(zones: Reply<int>, s: Status, k: Key, size: int, now: int)
    requires Proper(s.conditions)
    ensures Reaches(StatusFor(Running(zones), s, k, size, now), s, TargetOf(Judged(Running(zones), size), k))
  {
    hide Find, SetCondition, Match, CondOf, Proper;
    var s0 := s.Initialized(now);
    Pair(s.(state := Processing), IsFalse, ReasonProcessing, NoMessage, ReasonProcessing, NoMessage, now);
    Pair(s0.(state := Ready), IsTrue, ReasonStatefulSetAvailable, StatefulSetIsReady, ReasonDeployed, NatsIsDeployed, now);
    match zones
    case Err(e) =>
      One(s0.InReady(now).(url := ServiceUrl(k), zones := 0), AvailabilityZones, IsFalse, ReasonProcessingError, Text(e.message), now);
    case Got(n) =>
      var c := ZonesSay(n, size);
      One(s0.InReady(now).(url := ServiceUrl(k), zones := n), AvailabilityZones, c.status, c.reason, c.message, now);
  }

  // ---- Deciding again ----

  /** `IsEqual` is an equivalence on proper statuses. */
  lemma IsEqualEquivalence(a: Status, b: Status, c: Status)
    requires Proper(a.conditions) && Proper(b.conditions) && Proper(c.conditions)
    ensures a.IsEqual(a)
    ensures a.IsEqual(b) <==> b.IsEqual(a)
    ensures a.IsEqual(b) && b.IsEqual(c) ==> a.IsEqual(c)
  {
    MatchEquivalence(a.conditions, b.conditions, c.conditions);
  }

  /** From equal statuses a decision leads to equal statuses, whenever it is taken. */
  lemma DecisionRespectsEqual(d: Decision, a: Status, b: Status, k: Key, t1: int, t2: int)
    requires Proper(a.conditions) && Proper(b.conditions) && a.IsEqual(b)
    ensures Decide(d, a, k, t1).IsEqual(Decide(d, b, k, t2))
  {
    DecisionReaches(d, a, k, t1);
    DecisionReaches(d, b, k, t2);
    IsEqualIffSame(a, b);
    IsEqualIffSame(Decide(d, a, k, t1), Decide(d, b, k, t2));
  }

  /** A decision taken again on its own result changes nothing but transition times. */
  lemma DecisionIdempotent(d: Decision, s: Status, k: Key, t1: int, t2: int)
    requires Proper(s.conditions)
    ensures var once := Decide(d, s, k, t1); Decide(d, once, k, t2).IsEqual(once)
  {
    DecisionReaches(d, s, k, t1);
    var once := Decide(d, s, k, t1);
    DecisionReaches(d, once, k, t2);
    IsEqualIffSame(Decide(d, once, k, t2), once);
  }

  // ---- Well-formed statuses ----

  /** The stored statuses of a resource; `deleting` says whether its deletion has been requested. */
  ghost predicate WellFormed(s: Status, k: Key, deleting: bool) {
    && Proper(s.conditions)
    && (forall t :: CondOf(s.conditions, t).Some? ==> t in {Available, StatefulSet, Deleted, AvailabilityZones})
    && (s.url == NoUrl || s.url == ServiceUrl(k))
    && (s.state.NoState? ==> s.url == NoUrl && s.zones == 0)
    && (s.state.Ready? ==> Shows(s, StatefulSet, IsTrue) && Shows(s, Available, IsTrue) && s.url == ServiceUrl(k))
    && (s.state.Processing? ==>
          && s.url == NoUrl && s.zones == 0
          && Shows(s, StatefulSet, IsFalse) && Shows(s, Available, IsFalse) && Shows(s, AvailabilityZones, IsFalse))
    && (s.state.Warning? ==>
          || ShowsReason(s, Deleted, IsFalse, ReasonDeletionError)
          || ShowsReason(s, AvailabilityZones, IsFalse, ReasonUnknown))
    && (s.state.Failed? ==>
          || Shows(s, Available, IsFalse)
          || ShowsReason(s, AvailabilityZones, IsFalse, ReasonProcessingError))
    && !s.state.Deleting?
    && (CondOf(s.conditions, Deleted).Some? ==> deleting && s.state.Warning?)
    && (Shows(s, AvailabilityZones, IsTrue) ==> s.zones >= O.MIN_CLUSTER_SIZE)
  }

  predicate Shows(s: Status, typ: ConditionType, status: ConditionStatus) {
    var c := CondOf(s.conditions, typ);
    c.Some? && c.value.status == status
  }

  predicate ShowsReason(s: Status, typ: ConditionType, status: ConditionStatus, reason: Reason) {
    var c := CondOf(s.conditions, typ);
    c.Some? && c.value.status == status && c.value.reason == reason
  }

  lemma EmptyWellFormed(k: Key)
    ensures WellFormed(EMPTY_STATUS, k, false)
  {
  }

  /** Every decision leads from a well-formed status to a well-formed one. */
  lemma DecisionWellFormed(d: Decision, s: Status, k: Key, deleting: bool, now: int)
    requires WellFormed(s, k, deleting)
    requires d.Held? <==> deleting
    ensures WellFormed(Decide(d, s, k, now), k, deleting)
  {
    DecisionReaches(d, s, k, now);
    ReachedWellFormed(d, s, Decide(d, s, k, now), k, deleting);
  }

  lemma ReachedWellFormed(d: Decision, s: Status, r: Status, k: Key, deleting: bool)
    requires WellFormed(s, k, deleting) && (d.Held? <==> deleting)
    requires Reaches(r, s, TargetOf(d, k))
    ensures WellFormed(r, k, deleting)
  {
    hide Proper, CondOf;
    var t := TargetOf(d, k);
    forall typ | CondOf(r.conditions, typ).Some? ensures typ in {Available, StatefulSet, Deleted, AvailabilityZones} {
      assert typ in t.conds || CondOf(s.conditions, typ).Some?;
    }
    assert d.Held? <==> Deleted in t.conds;
    assert !d.Held? <==> StatefulSet in t.conds;
    assert !d.Held? <==> Available in t.conds;
  }

  // ---- The zones condition ----

  /**
   * When the pods listed number exactly the cluster size, the status claims spread over zones exactly
   * when the cluster is clustered and every pod is scheduled, in a zone of its own.
   */
  lemma SpreadIsReal(cache: Z.Cache, nodes: Z.Nodes, pods: seq<Z.Pod>, s: Status, k: Key, now: int)
    requires Proper(s.conditions)
    ensures var size, zones := |pods|, |Z.ZoneSet(cache, nodes, pods)|;
            Shows(StatusFor(Running(Got(zones)), s, k, size, now), AvailabilityZones, IsTrue) <==>
            size >= O.MIN_CLUSTER_SIZE && Z.Spread(cache, nodes, pods)
  {
    hide Z.ZoneSet, Z.Spread, StatusFor, Proper, CondOf;
    var zones := |Z.ZoneSet(cache, nodes, pods)|;
    var d := Judged(Running(Got(zones)), |pods|);
    DecisionReaches(d, s, k, now);
    var r := StatusFor(Running(Got(zones)), s, k, |pods|, now);
    assert Decide(d, s, k, now) == r;
    assert CondOf(r.conditions, AvailabilityZones) == Some(ZonesSay(zones, |pods|));
    Z.FullCountIffSpread(cache, nodes, pods);
  }
}
