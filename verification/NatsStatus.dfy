/** The status of a NATS resource: its setters and the comparison that decides whether to write it. */
module NatsStatus {
  import opened Wrappers
  import opened Conditions
  import opened Naming

  /** The five documented states, and the empty string of a status never written. */
  datatype State = NoState | Ready | Failed | Processing | Deleting | Warning

  /** No URL, or the one formatted from a resource's own name and namespace; whether a Service answers there is another matter. */
  datatype Url = NoUrl | ServiceUrl(k: Key)

  /** The value of a status, as the API server stores it. */
  datatype Status = Status(state: State, url: Url, zones: int, conditions: seq<Condition>) {

    function Set(typ: ConditionType, status: ConditionStatus, reason: Reason, message: Message, now: int): Status {
      this.(conditions := SetCondition(conditions, Condition(typ, status, now, reason, message)))
    }

    function Initialized(now: int): Status {
      this.(state := Processing)
      .Set(StatefulSet, IsFalse, ReasonProcessing, NoMessage, now)
      .Set(Available, IsFalse, ReasonProcessing, NoMessage, now)
    }

    function InError(now: int): Status {
      this.(state := Failed)
      .Set(StatefulSet, IsFalse, ReasonSyncFailError, NoMessage, now)
      .Set(Available, IsFalse, ReasonProcessingError, NoMessage, now)
    }

    function Waiting(now: int): Status {
      this.(state := Processing)
      .Set(StatefulSet, IsFalse, ReasonStatefulSetPending, NoMessage, now)
      .Set(Available, IsFalse, ReasonDeploying, NoMessage, now)
      .Set(AvailabilityZones, IsFalse, ReasonStatefulSetPending, NoMessage, now)
    }

    function InReady(now: int): Status {
      this.(state := Ready)
      .Set(StatefulSet, IsTrue, ReasonStatefulSetAvailable, StatefulSetIsReady, now)
      .Set(Available, IsTrue, ReasonDeployed, NatsIsDeployed, now)
    }

    /** Equal but for transition times and the order of conditions. */
    predicate IsEqual(other: Status) {
      state == other.state && url == other.url && zones == other.zones && Match(conditions, other.conditions)
    }
  }

  const EMPTY_STATUS := Status(NoState, NoUrl, 0, [])

  /** The status held by a fetched copy of the resource: the setters update it in place. */
  class NATSStatus {
    var state: State
    var url: Url
    var availabilityZonesUsed: int
    var conditions: seq<Condition>

    ghost function Snapshot(): Status
      reads this
    {
      Status(state, url, availabilityZonesUsed, conditions)
    }

    constructor DeepCopy(s: Status)
      ensures Snapshot() == s
    {
      state, url, availabilityZonesUsed, conditions := s.state, s.url, s.zones, s.conditions;
    }

    method Value() returns (s: Status)
      ensures s == Snapshot()
    {
      s := Status(state, url, availabilityZonesUsed, conditions);
    }

    method UpdateCondition(typ: ConditionType, status: ConditionStatus, reason: Reason, message: Message, now: int)
      modifies this
      ensures Snapshot() == old(Snapshot()).Set(typ, status, reason, message, now)
    {
      conditions := SetCondition(conditions, Condition(typ, status, now, reason, message));
    }

    method Initialize(now: int)
      modifies this
      ensures Snapshot() == old(Snapshot()).Initialized(now)
    {
      state := Processing;
      UpdateCondition(StatefulSet, IsFalse, ReasonProcessing, NoMessage, now);
      UpdateCondition(Available, IsFalse, ReasonProcessing, NoMessage, now);
    }

    method SetStateError(now: int)
      modifies this
      ensures Snapshot() == old(Snapshot()).InError(now)
    {
      state := Failed;
      UpdateCondition(StatefulSet, IsFalse, ReasonSyncFailError, NoMessage, now);
      UpdateCondition(Available, IsFalse, ReasonProcessingError, NoMessage, now);
    }

    method SetWaitingStateForStatefulSet(now: int)
      modifies this
      ensures Snapshot() == old(Snapshot()).Waiting(now)
    {
      state := Processing;
      UpdateCondition(StatefulSet, IsFalse, ReasonStatefulSetPending, NoMessage, now);
      UpdateCondition(Available, IsFalse, ReasonDeploying, NoMessage, now);
      UpdateCondition(AvailabilityZones, IsFalse, ReasonStatefulSetPending, NoMessage, now);
    }

    method SetStateReady(now: int)
      modifies this
      ensures Snapshot() == old(Snapshot()).InReady(now)
    {
      state := Ready;
      UpdateCondition(StatefulSet, IsTrue, ReasonStatefulSetAvailable, StatefulSetIsReady, now);
      UpdateCondition(Available, IsTrue, ReasonDeployed, NatsIsDeployed, now);
    }

    method SetStateWarning()
      modifies this
      ensures Snapshot() == old(Snapshot()).(state := Warning)
    {
      state := Warning;
    }

    method SetStateDeleting()
      modifies this
      ensures Snapshot() == old(Snapshot()).(state := Deleting)
    {
      state := Deleting;
    }

    method ClearURL()
      modifies this
      ensures Snapshot() == old(Snapshot()).(url := NoUrl)
    {
      url := NoUrl;
    }

    method SetURL(u: Url)
      modifies this
      ensures Snapshot() == old(Snapshot()).(url := u)
    {
      url := u;
    }

    method IsEqualTo(other: Status) returns (r: bool)
      ensures r <==> Snapshot().IsEqual(other)
    {
      var same := ConditionsEquals(conditions, other.conditions);
      r := state == other.state && url == other.url && availabilityZonesUsed == other.zones && same;
    }
  }

  // ---- Consequences ----

  lemma SetFacts(s: Status, typ: ConditionType, status: ConditionStatus, reason: Reason, message: Message, now: int)
    requires Proper(s.conditions) && typ != NoType
    ensures Proper(s.Set(typ, status, reason, message, now).conditions)
    ensures forall t :: CondOf(s.Set(typ, status, reason, message, now).conditions, t) ==
                        if t == typ then Some(Condition(typ, status, 0, reason, message)) else CondOf(s.conditions, t)
    ensures forall t :: t != typ ==>
                        Find(s.Set(typ, status, reason, message, now).conditions, t) == Find(s.conditions, t)
  {
    var c := Condition(typ, status, now, reason, message);
    SetConditionProper(s.conditions, c);
    forall t {
      SetConditionFind(s.conditions, c, t);
    }
  }

  /** `IsEqual` on proper statuses, answered type by type. */
  lemma IsEqualIffSame(a: Status, b: Status)
    requires Proper(a.conditions) && Proper(b.conditions)
    ensures a.IsEqual(b) <==>
            a.state == b.state && a.url == b.url && a.zones == b.zones && forall t :: CondOf(a.conditions, t) == CondOf(b.conditions, t)
  {
    MatchIffSameFind(a.conditions, b.conditions);
  }
}
