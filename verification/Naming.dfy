/** Names and labels the chart generates, and the ones the controller looks for. */
module Naming {

  /** A namespaced name. */
  datatype Key = Key(ns: string, name: string)

  predicate HasPrefix(s: string, prefix: string) {
    prefix <= s
  }

  predicate Contains(s: string, sub: string) {
    HasPrefix(s, sub) || (s != "" && Contains(s[1..], sub))
  }

  function Trunc63(s: string): string {
    if |s| > 63 then s[..63] else s
  }

  function TrimDash(s: string): string {
    if s != "" && s[|s| - 1] == '-' then s[..|s| - 1] else s
  }

  const CHART_NAME := "nats"

  /** The template `nats.fullname` for a release name, with no name override set. */
  function Fullname(release: string): string {
    if Contains(release, CHART_NAME) then TrimDash(Trunc63(release))
    else TrimDash(Trunc63(release + "-" + CHART_NAME))
  }

  /** The instance label in the template `nats.selectorLabels`. */
  function InstanceLabel(release: string): string {
    if release == "eventing-nats" then "eventing" else release
  }

  function Digit(d: nat): char
    requires d < 10
  {
    ['0', '1', '2', '3', '4', '5', '6', '7', '8', '9'][d]
  }

  function Decimal(n: nat): string {
    if n < 10 then [Digit(n)] else Decimal(n / 10) + [Digit(n % 10)]
  }

  /** A claim: its namespace, name and instance label. */
  datatype Pvc = Pvc(ns: string, name: string, instance: string)

  /** The claim a StatefulSet creates for one replica: template name, set name, ordinal; labelled like its selector. */
  function CreatedPvc(k: Key, ordinal: nat): Pvc {
    var full := Fullname(k.name);
    Pvc(k.ns, full + "-js-pvc-" + full + "-" + Decimal(ordinal), InstanceLabel(k.name))
  }

  /** The label value the deletion of a resource selects claims by. */
  function SweepLabel(name: string): string {
    if name == "eventing-nats" then "eventing" else name
  }

  /** Would deleting resource `k` delete this claim? */
  predicate SweepMatches(k: Key, p: Pvc) {
    p.ns == k.ns && p.instance == SweepLabel(k.name) && HasPrefix(p.name, k.name)
  }

  /** The Secret the controller looks up, and the one the chart deploys. */
  function LookupSecret(k: Key): Key {
    Key(k.ns, k.name + "-secret")
  }

  function DeployedSecret(k: Key): Key {
    Key(k.ns, Fullname(k.name) + "-secret")
  }

  /** Names that are legal label values and do not end in a dash. */
  predicate ValidName(name: string) {
    1 <= |name| <= 63 && name[|name| - 1] != '-'
  }

  predicate EventingPair(a: string, b: string) {
    (a == "eventing" && b == "eventing-nats") || (a == "eventing-nats" && b == "eventing")
  }

  // ---- Properties ----

  /** Truncation and trimming never cut into the resource's own name. */
  lemma FullnameKeepsName(name: string)
    requires ValidName(name)
    ensures HasPrefix(Fullname(name), name)
  {
    if !Contains(name, CHART_NAME) {
      var whole := name + "-" + CHART_NAME;
      assert whole[|name|] == '-';
      var cut := Trunc63(whole);
      assert cut[..|name|] == name;
      if cut != name {
        assert TrimDash(cut)[..|name|] == name;
      } else {
        assert TrimDash(cut) == name;
      }
    }
  }

  /** Appending the chart name and cutting at 63 characters changes every name shorter than 62. */
  lemma SuffixCutIff(name: string, suffix: string)
    requires ValidName(name) && |suffix| == 5 && suffix[0] == '-' && suffix[1] != '-'
    ensures TrimDash(Trunc63(name + suffix)) == name <==> |name| >= 62
  {
    var cut := Trunc63(name + suffix);
    assert |name| == 62 ==> cut == name + ['-'];
    assert |name| == 63 ==> cut == name;
    assert |name| <= 61 ==> |cut| >= |name| + 2;
  }

  lemma CutKeeps(name: string)
    requires ValidName(name)
    ensures TrimDash(Trunc63(name)) == name
  {
  }

  /** Exactly which valid names the chart uses unchanged. */
  lemma FullnameIsNameIff(name: string)
    requires ValidName(name)
    ensures Fullname(name) == name <==> Contains(name, CHART_NAME) || |name| >= 62
  {
    hide Contains, TrimDash, Trunc63;
    CutKeeps(name);
    var suffix := "-" + CHART_NAME;
    assert name + "-" + CHART_NAME == name + suffix;
    assert suffix[0] == '-' && suffix[1] == 'n';
    SuffixCutIff(name, suffix);
  }

  /** Deleting a resource selects every claim its StatefulSet ever creates, whatever the replica count. */
  lemma SweepIsComplete(k: Key)
    requires ValidName(k.name)
    ensures forall ordinal: nat :: SweepMatches(k, CreatedPvc(k, ordinal))
  {
    FullnameKeepsName(k.name);
    forall ordinal: nat ensures SweepMatches(k, CreatedPvc(k, ordinal)) {
      var full := Fullname(k.name);
      var p := CreatedPvc(k, ordinal);
      assert p.name[..|full|] == full;
      assert p.name[..|k.name|] == full[..|k.name|];
    }
  }

  /**
   * Two resources can sweep a common claim exactly when they are the same resource, or the pair
   * `eventing` and `eventing-nats` of one namespace.
   */
  lemma SweepsOverlapIff(a: Key, b: Key)
    ensures (exists p :: SweepMatches(a, p) && SweepMatches(b, p)) <==>
            a == b || (a.ns == b.ns && EventingPair(a.name, b.name))
  {
    var longer := if |a.name| >= |b.name| then a else b;
    var p := Pvc(a.ns, longer.name, SweepLabel(a.name));
    if a == b {
      assert SweepMatches(a, p) && SweepMatches(b, p);
    } else if a.ns == b.ns && EventingPair(a.name, b.name) {
      assert "eventing" + "-nats" == "eventing-nats";
      assert SweepMatches(a, p) && SweepMatches(b, p);
    }
  }

  /** A claim created for one resource is swept by the deletion of another exactly for that pair. */
  lemma SweepOfOther(a: Key, b: Key, ordinal: nat)
    requires ValidName(a.name) && ValidName(b.name) && a != b
    ensures SweepMatches(b, CreatedPvc(a, ordinal)) <==> a.ns == b.ns && EventingPair(a.name, b.name)
  {
    SweepIsComplete(a);
    SweepsOverlapIff(a, b);
    if a.ns == b.ns && EventingPair(a.name, b.name) {
      EventingFullnames();
      assert CreatedPvc(a, ordinal) == CreatedPvc(b, ordinal);
      SweepIsComplete(b);
    }
  }

  /** The two paired resources share one StatefulSet name. */
  lemma EventingFullnames()
    ensures Fullname("eventing") == Fullname("eventing-nats") == "eventing-nats"
  {
    var e, n := "eventing", "eventing-nats";
    assert n == e + "-" + CHART_NAME;
    ContainsSuffix(e + "-", CHART_NAME);
    NotContainsShort(e);
  }

  lemma {:induction false} ContainsSuffix(s: string, sub: string)
    ensures Contains(s + sub, sub)
  {
    if s == "" {
      assert s + sub == sub;
    } else {
      ContainsSuffix(s[1..], sub);
      assert (s + sub)[1..] == s[1..] + sub;
    }
  }

  /** No occurrence without the letter `a`. */
  lemma {:induction false} NotContainsShort(s: string)
    requires 'a' !in s
    ensures !Contains(s, CHART_NAME)
  {
    assert CHART_NAME[1] == 'a';
    if s != "" {
      NotContainsShort(s[1..]);
    }
  }

  /** A key in the client registry: namespace, slash, name. */
  function RegistryKey(k: Key): string {
    k.ns + "/" + k.name
  }

  /** Namespaces hold no slash, so registry keys tell resources apart. */
  lemma {:induction false} RegistryKeyInjective(a: Key, b: Key)
    requires '/' !in a.ns && '/' !in b.ns
    requires RegistryKey(a) == RegistryKey(b)
    ensures a == b
    decreases |a.ns|
  {
    var s := RegistryKey(a);
    assert s[|a.ns|] == '/' && s[|b.ns|] == '/';
    assert a.ns == s[..|a.ns|] == b.ns;
    assert a.name == s[|a.ns| + 1..] == b.name;
  }
}
