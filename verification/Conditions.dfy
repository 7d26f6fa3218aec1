/** Kubernetes status conditions: update in place, lookup, and the comparison used before a status write. */
module Conditions {
  import opened Wrappers

  /** `ConditionStatus` is a string; `NoStatus` is its zero value. */
  datatype ConditionStatus = NoStatus | IsTrue | IsFalse | IsUnknown

  /** `NoType` is the empty string; any string but the four the operator declares is an `OtherType`. */
  datatype ConditionType = NoType | StatefulSet | Available | Deleted | AvailabilityZones | OtherType(name: string)

  datatype Reason =
    | NoReason | ReasonProcessing | ReasonDeploying | ReasonDeployed | ReasonProcessingError | ReasonForbidden
    | ReasonStatefulSetAvailable | ReasonStatefulSetPending | ReasonSyncFailError | ReasonDeletionError
    | ReasonNotConfigured | ReasonUnknown | OtherReason(name: string)

  /** The operator's fixed messages, the warning that prints a count, and free text. */
  datatype Message =
    | NoMessage | StatefulSetIsReady | NatsIsDeployed | NotClustered | SpreadOverZones | TooFewZones(current: int)
    | CustomerStreamExists | StreamConsumerExists | OnlyAllowed(ns: string, name: string) | Text(text: string)

  datatype Condition = Condition(typ: ConditionType, status: ConditionStatus, time: int, reason: Reason, message: Message)

  /** The zero value a Go map lookup yields for a missing key. */
  const ZERO_CONDITION := Condition(NoType, NoStatus, 0, NoReason, NoMessage)

  /** A condition with its transition time forgotten. */
  function Strip(c: Condition): Condition {
    c.(time := 0)
  }

  function StripAll(cs: seq<Condition>): (r: seq<Condition>)
    ensures |r| == |cs|
    ensures forall i :: 0 <= i < |cs| ==> r[i] == Strip(cs[i])
  {
    seq(|cs|, i requires 0 <= i < |cs| => Strip(cs[i]))
  }

  predicate ConditionEquals(existing: Condition, expected: Condition) {
    && existing.status == expected.status
    && existing.reason == expected.reason
    && existing.message == expected.message
    && existing.typ == expected.typ
  }

  /** The first condition of a type, as `FindStatusCondition` and `FindCondition` return it. */
  function Find(cs: seq<Condition>, typ: ConditionType): (r: Option<Condition>)
    ensures r.Some? ==> r.value in cs && r.value.typ == typ
    ensures r.None? ==> forall c :: c in cs ==> c.typ != typ
  {
    if cs == [] then None
    else if cs[0].typ == typ then Some(cs[0])
    else Find(cs[1..], typ)
  }

  /** The position of the condition that is found: no earlier one has its type. */
  ghost predicate FirstAt(cs: seq<Condition>, typ: ConditionType, i: nat) {
    i < |cs| && cs[i].typ == typ && forall j :: 0 <= j < i ==> cs[j].typ != typ
  }

  method FindCondition(cs: seq<Condition>, typ: ConditionType) returns (r: Option<Condition>)
    ensures r == Find(cs, typ)
    ensures forall i: nat :: FirstAt(cs, typ, i) ==> r == Some(cs[i])
    ensures (forall c :: c in cs ==> c.typ != typ) ==> r == None
  {
    for i := 0 to |cs|
      invariant Find(cs, typ) == Find(cs[i..], typ)
      invariant forall j :: 0 <= j < i ==> cs[j].typ != typ
    {
      if cs[i].typ == typ {
        return Some(cs[i]);
      }
      assert cs[i..][1..] == cs[i + 1..];
    }
    return None;
  }

  /** `existing` overwritten by `update`; the time moves only with the status. */
  function Overwrite(existing: Condition, update: Condition): Condition {
    update.(time := if existing.status != update.status then update.time else existing.time)
  }

  /** `meta.SetStatusCondition`: overwrite the first condition of that type in place, else append. */
  function SetCondition(cs: seq<Condition>, c: Condition): seq<Condition> {
    if cs == [] then [c]
    else if cs[0].typ == c.typ then [Overwrite(cs[0], c)] + cs[1..]
    else [cs[0]] + SetCondition(cs[1..], c)
  }

  ghost predicate UniqueTypes(cs: seq<Condition>) {
    forall i, j :: 0 <= i < j < |cs| ==> cs[i].typ != cs[j].typ
  }

  ghost predicate NonEmptyTypes(cs: seq<Condition>) {
    forall c :: c in cs ==> c.typ != NoType
  }

  /** Distinct condition types, none of them the zero value: what every list built by the setters is. */
  ghost predicate Proper(cs: seq<Condition>) {
    UniqueTypes(cs) && NonEmptyTypes(cs)
  }

  lemma {:induction false} SetConditionFind(cs: seq<Condition>, c: Condition, typ: ConditionType)
    ensures Find(SetCondition(cs, c), typ) ==
            if typ != c.typ then Find(cs, typ)
            else match Find(cs, typ) case None => Some(c) case Some(prior) => Some(Overwrite(prior, c))
  {
    if cs != [] && cs[0].typ != c.typ {
      assert SetCondition(cs, c)[1..] == SetCondition(cs[1..], c);
      SetConditionFind(cs[1..], c, typ);
    } else if cs != [] {
      assert SetCondition(cs, c)[1..] == cs[1..];
    }
  }

  lemma {:induction false} FindIsFirst(cs: seq<Condition>, typ: ConditionType, i: nat)
    requires FirstAt(cs, typ, i)
    ensures Find(cs, typ) == Some(cs[i])
  {
    if i > 0 {
      assert cs[0].typ != typ;
      FindIsFirst(cs[1..], typ, i - 1);
    }
  }

  /** An update in place: the first condition of the type is overwritten, everything else stays where it is. */
  lemma {:induction false} SetConditionInPlace(cs: seq<Condition>, c: Condition, i: nat)
    requires FirstAt(cs, c.typ, i)
    ensures SetCondition(cs, c) == cs[i := Overwrite(cs[i], c)]
  {
    if i > 0 {
      SetConditionInPlace(cs[1..], c, i - 1);
      assert cs[i := Overwrite(cs[i], c)] == [cs[0]] + cs[1..][i - 1 := Overwrite(cs[i], c)];
    } else {
      assert cs[0 := Overwrite(cs[0], c)] == [Overwrite(cs[0], c)] + cs[1..];
    }
  }

  /** A condition of a new type goes to the end. */
  lemma {:induction false} SetConditionAppends(cs: seq<Condition>, c: Condition)
    requires forall x :: x in cs ==> x.typ != c.typ
    ensures SetCondition(cs, c) == cs + [c]
  {
    if cs != [] {
      assert cs[0] in cs && forall x :: x in cs[1..] ==> x in cs;
      SetConditionAppends(cs[1..], c);
      assert cs + [c] == [cs[0]] + (cs[1..] + [c]);
    }
  }

  lemma {:induction false} SetConditionTypes(cs: seq<Condition>, c: Condition)
    ensures forall x :: x in SetCondition(cs, c) ==> x.typ == c.typ || exists y :: y in cs && y.typ == x.typ
    ensures UniqueTypes(cs) ==> UniqueTypes(SetCondition(cs, c))
  {
    if cs != [] && cs[0].typ != c.typ {
      SetConditionTypes(cs[1..], c);
      var rest := SetCondition(cs[1..], c);
      assert SetCondition(cs, c) == [cs[0]] + rest;
      if UniqueTypes(cs) {
        assert forall x :: x in rest ==> x.typ != cs[0].typ;
      }
    } else if cs != [] {
      var r := SetCondition(cs, c);
      assert forall k :: 0 <= k < |r| ==> r[k].typ == cs[k].typ;
      forall x | x in r ensures exists y :: y in cs && y.typ == x.typ {
        var k :| 0 <= k < |r| && r[k] == x;
        assert cs[k] in cs;
      }
    }
  }

  /** Setting a condition keeps a list proper. */
  lemma SetConditionProper(cs: seq<Condition>, c: Condition)
    requires Proper(cs) && c.typ != NoType
    ensures Proper(SetCondition(cs, c))
  {
    SetConditionTypes(cs, c);
  }

  // ---- The comparison ----

  /** The map `ConditionsEquals` compiles: the last condition of each type wins, a missing type is the zero value. */
  function LastOfType(cs: seq<Condition>, typ: ConditionType): Condition {
    if cs == [] then ZERO_CONDITION
    else if cs[|cs| - 1].typ == typ then cs[|cs| - 1]
    else LastOfType(cs[..|cs| - 1], typ)
  }

  /** With a repeated type it is the last condition of that type that counts. */
  lemma {:induction false} LastOfTypeIs(cs: seq<Condition>, typ: ConditionType, i: nat)
    requires i < |cs| && cs[i].typ == typ && forall j :: i < j < |cs| ==> cs[j].typ != typ
    ensures LastOfType(cs, typ) == cs[i]
  {
    if i < |cs| - 1 {
      LastOfTypeIs(cs[..|cs| - 1], typ, i);
    }
  }

  /** Every expected condition equals, up to time, what the compiled map holds for its type. */
  predicate Match(existing: seq<Condition>, expected: seq<Condition>) {
    && |existing| == |expected|
    && forall i :: 0 <= i < |expected| ==> ConditionEquals(LastOfType(existing, expected[i].typ), expected[i])
  }

  method ConditionsEquals(existing: seq<Condition>, expected: seq<Condition>) returns (r: bool)
    ensures r <==> Match(existing, expected)
  {
    if |existing| != |expected| {
      return false;
    }
    var existingMap: map<ConditionType, Condition> := map[];
    for i := 0 to |existing|
      invariant forall t :: (if t in existingMap then existingMap[t] else ZERO_CONDITION) == LastOfType(existing[..i], t)
    {
      existingMap := existingMap[existing[i].typ := existing[i]];
      assert existing[..i + 1][..i] == existing[..i];
    }
    assert existing[..|existing|] == existing;
    for i := 0 to |expected|
      invariant forall j :: 0 <= j < i ==> ConditionEquals(LastOfType(existing, expected[j].typ), expected[j])
    {
      var found := if expected[i].typ in existingMap then existingMap[expected[i].typ] else ZERO_CONDITION;
      if !ConditionEquals(found, expected[i]) {
        return false;
      }
    }
    return true;
  }

  lemma {:induction false} LastOfTypeMember(cs: seq<Condition>, typ: ConditionType)
    ensures (LastOfType(cs, typ) in cs && LastOfType(cs, typ).typ == typ) || LastOfType(cs, typ) == ZERO_CONDITION
    ensures (exists c :: c in cs && c.typ == typ) ==> LastOfType(cs, typ) in cs && LastOfType(cs, typ).typ == typ
  {
    if cs != [] && cs[|cs| - 1].typ != typ {
      LastOfTypeMember(cs[..|cs| - 1], typ);
      forall c | c in cs && c.typ == typ ensures c in cs[..|cs| - 1] {
      }
    }
  }

  lemma {:induction false} FindUnique(cs: seq<Condition>, c: Condition)
    requires UniqueTypes(cs) && c in cs
    ensures Find(cs, c.typ) == Some(c)
  {
    if cs[0] != c {
      assert c in cs[1..];
      FindUnique(cs[1..], c);
    }
  }

  /** Distinct types make the stripped list free of duplicates. */
  lemma StripAllDistinct(cs: seq<Condition>)
    requires UniqueTypes(cs)
    ensures forall i, j :: 0 <= i < j < |cs| ==> StripAll(cs)[i] != StripAll(cs)[j]
  {
    forall i, j | 0 <= i < j < |cs| ensures StripAll(cs)[i] != StripAll(cs)[j] {
      assert StripAll(cs)[i].typ == cs[i].typ && StripAll(cs)[j].typ == cs[j].typ;
    }
  }

  lemma {:induction false} DistinctMultiset<T>(s: seq<T>, x: T)
    requires forall i, j :: 0 <= i < j < |s| ==> s[i] != s[j]
    ensures multiset(s)[x] == if x in s then 1 else 0
  {
    if s != [] {
      assert s == [s[0]] + s[1..];
      DistinctMultiset(s[1..], x);
    }
  }

  /** A duplicate-free list contained in one of the same length is a permutation of it. */
  lemma DistinctPermutation<T>(a: seq<T>, b: seq<T>)
    requires |a| == |b|
    requires forall i, j :: 0 <= i < j < |b| ==> b[i] != b[j]
    requires forall x :: x in b ==> x in a
    ensures multiset(a) == multiset(b)
  {
    var ma, mb := multiset(a), multiset(b);
    forall x ensures mb[x] <= ma[x] {
      DistinctMultiset(b, x);
      assert x in a <==> x in ma;
    }
    assert mb <= ma;
    assert ma == mb + (ma - mb);
  }

  /**
   * The one-directional map lookup decides permutation up to transition times, as soon as the
   * expected list is proper. Nothing is asked of the existing list.
   */
  lemma MatchIffPermutation(existing: seq<Condition>, expected: seq<Condition>)
    requires Proper(expected)
    ensures Match(existing, expected) <==> multiset(StripAll(existing)) == multiset(StripAll(expected))
  {
    var a, b := StripAll(existing), StripAll(expected);
    StripAllDistinct(expected);
    if Match(existing, expected) {
      forall x | x in b ensures x in a {
        var i :| 0 <= i < |b| && b[i] == x;
        assert expected[i] in expected;
        LastOfTypeMember(existing, expected[i].typ);
        var c := LastOfType(existing, expected[i].typ);
        var k :| 0 <= k < |existing| && existing[k] == c;
        assert a[k] == x;
      }
      DistinctPermutation(a, b);
    }
    if multiset(a) == multiset(b) {
      assert |existing| == |multiset(a)| == |multiset(b)| == |expected|;
      forall x ensures x in b <==> x in a {
        assert x in multiset(a) <==> x in multiset(b);
      }
      forall i | 0 <= i < |expected|
        ensures ConditionEquals(LastOfType(existing, expected[i].typ), expected[i])
      {
        assert b[i] in a;
        var k :| 0 <= k < |a| && a[k] == b[i];
        assert existing[k] in existing && existing[k].typ == expected[i].typ;
        LastOfTypeMember(existing, expected[i].typ);
        var c := LastOfType(existing, expected[i].typ);
        var m :| 0 <= m < |existing| && existing[m] == c;
        assert a[m] in b;
        var n :| 0 <= n < |b| && b[n] == a[m];
        assert expected[n].typ == expected[i].typ;
        assert n == i;
      }
    }
  }

  /** On proper lists the comparison is an equivalence relation. */
  lemma MatchEquivalence(a: seq<Condition>, b: seq<Condition>, c: seq<Condition>)
    requires Proper(a) && Proper(b) && Proper(c)
    ensures Match(a, a)
    ensures Match(a, b) <==> Match(b, a)
    ensures Match(a, b) && Match(b, c) ==> Match(a, c)
  {
    MatchIffPermutation(a, a);
    MatchIffPermutation(a, b);
    MatchIffPermutation(b, a);
    MatchIffPermutation(b, c);
    MatchIffPermutation(a, c);
  }

  /** With a repeated type the comparison is not symmetric, so properness of the list is needed. */
  lemma MatchAsymmetricWithDuplicates()
    ensures exists a: seq<Condition>, b: seq<Condition> ::
              NonEmptyTypes(a) && NonEmptyTypes(b) && UniqueTypes(a) && Match(a, b) && !Match(b, a)
  {
    var x, y := Condition(Available, IsTrue, 0, NoReason, NoMessage), Condition(Deleted, IsTrue, 0, NoReason, NoMessage);
    var a, b := [x, y], [x, x];
    assert b[..1] == [x] && b[..1][..0] == [];
    assert a[..1] == [x] && a[..1][..0] == [];
    assert LastOfType(b, Deleted) == LastOfType(b[..1], Deleted) == LastOfType(b[..1][..0], Deleted) == ZERO_CONDITION;
    assert LastOfType(a, Available) == LastOfType(a[..1], Available) == x;
    assert a[1].typ == Deleted && a[0].typ == Available;
    assert !Match(b, a);
    assert Match(a, b);
  }

  /**
   * When a match can be turned around, for any lists of non-empty types: exactly when the existing list
   * repeats no type with another content and has no type the expected list lacks.
   */
  lemma MatchReversesIff(a: seq<Condition>, b: seq<Condition>)
    requires NonEmptyTypes(a) && NonEmptyTypes(b) && Match(a, b)
    ensures Match(b, a) <==> forall c :: c in a ==> ConditionEquals(LastOfType(a, c.typ), c) && exists x :: x in b && x.typ == c.typ
  {
    forall i | 0 <= i < |a|
      ensures ConditionEquals(LastOfType(b, a[i].typ), a[i]) <==>
              ConditionEquals(LastOfType(a, a[i].typ), a[i]) && exists x :: x in b && x.typ == a[i].typ
    {
      var t := a[i].typ;
      assert a[i] in a;
      LastOfTypeMember(b, t);
      if LastOfType(b, t) in b {
        var j :| 0 <= j < |b| && b[j] == LastOfType(b, t);
        assert b[j].typ == t ==> ConditionEquals(LastOfType(a, t), b[j]);
        assert b[j] in b;
      }
    }
  }

  /** Proper lists match exactly when they answer every type alike, transition times aside. */
  lemma MatchIffSameFind(a: seq<Condition>, b: seq<Condition>)
    requires Proper(a) && Proper(b)
    ensures Match(a, b) <==> forall t :: CondOf(a, t) == CondOf(b, t)
  {
    MatchIffPermutation(a, b);
    var sa, sb := StripAll(a), StripAll(b);
    if Match(a, b) {
      forall t ensures CondOf(a, t) == CondOf(b, t) {
        if Find(a, t).Some? {
          FoundOther(a, b, t);
        } else if Find(b, t).Some? {
          FoundOther(b, a, t);
        }
      }
    }
    if forall t :: CondOf(a, t) == CondOf(b, t) {
      SameFindIncluded(a, b);
      SameFindIncluded(b, a);
      StripAllDistinct(a);
      StripAllDistinct(b);
      forall x ensures multiset(sa)[x] == multiset(sb)[x] {
        DistinctMultiset(sa, x);
        DistinctMultiset(sb, x);
      }
    }
  }

  function CondOf(cs: seq<Condition>, t: ConditionType): Option<Condition> {
    match Find(cs, t) case None => None case Some(c) => Some(Strip(c))
  }

  lemma FoundOther(a: seq<Condition>, b: seq<Condition>, t: ConditionType)
    requires UniqueTypes(b) && Find(a, t).Some?
    requires multiset(StripAll(a)) == multiset(StripAll(b))
    ensures CondOf(a, t) == CondOf(b, t)
  {
    var c := Find(a, t).value;
    var k :| 0 <= k < |a| && a[k] == c;
    assert StripAll(a)[k] in multiset(StripAll(a));
    assert StripAll(a)[k] in StripAll(b);
    var m :| 0 <= m < |b| && StripAll(b)[m] == StripAll(a)[k];
    FindUnique(b, b[m]);
  }

  lemma SameFindIncluded(a: seq<Condition>, b: seq<Condition>)
    requires UniqueTypes(a) && forall t :: CondOf(a, t) == CondOf(b, t)
    ensures forall x :: x in StripAll(a) ==> x in StripAll(b)
  {
    forall x | x in StripAll(a) ensures x in StripAll(b) {
      var k :| 0 <= k < |a| && StripAll(a)[k] == x;
      FindUnique(a, a[k]);
      assert CondOf(a, a[k].typ) == CondOf(b, a[k].typ);
      var c := Find(b, a[k].typ).value;
      var m :| 0 <= m < |b| && b[m] == c;
      assert StripAll(b)[m] == x;
    }
  }
}
