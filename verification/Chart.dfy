/** A release's dotted-key configuration, its nested form, and the renderer that merges it into the chart values. */
module Chart {
  import opened Values

  // ---- Dotted keys ----

  /** `strings.Split(s, ".")`. */
  function Split(s: string): (tokens: seq<string>)
    ensures |tokens| >= 1
    ensures forall t :: t in tokens ==> '.' !in t
  {
    if s == "" then [""]
    else if s[0] == '.' then [""] + Split(s[1..])
    else
      var rest := Split(s[1..]);
      [[s[0]] + rest[0]] + rest[1..]
  }

  function Join(tokens: seq<string>): string
    requires |tokens| >= 1
  {
    if |tokens| == 1 then tokens[0] else tokens[0] + "." + Join(tokens[1..])
  }

  lemma {:induction false} JoinSplit(s: string)
    ensures Join(Split(s)) == s
  {
    if s != "" {
      JoinSplit(s[1..]);
      var rest := Split(s[1..]);
      if s[0] == '.' {
        assert Split(s)[1..] == rest;
      } else {
        assert Split(s)[1..] == rest[1..];
      }
    }
  }

  lemma SplitInjective(a: string, b: string)
    requires Split(a) == Split(b)
    ensures a == b
  {
    JoinSplit(a);
    JoinSplit(b);
  }

  lemma {:induction false} SplitAppend(token: string, s: string)
    requires '.' !in token
    ensures Split(token) == [token]
    ensures Split(token + "." + s) == [token] + Split(s)
  {
    var whole := token + "." + s;
    if token == "" {
      assert whole[1..] == s;
    } else {
      SplitAppend(token[1..], s);
      assert whole[1..] == token[1..] + "." + s;
      assert [token[0]] + token[1..] == token;
    }
  }

  lemma {:induction false} SplitJoin(tokens: seq<string>)
    requires |tokens| >= 1 && forall t :: t in tokens ==> '.' !in t
    ensures Split(Join(tokens)) == tokens
  {
    if |tokens| == 1 {
      SplitAppend(tokens[0], "");
    } else {
      SplitJoin(tokens[1..]);
      SplitAppend(tokens[0], Join(tokens[1..]));
    }
  }

  // ---- Nesting ----

  /** The nested maps that lead along `path` to `value`. */
  function Nested(path: seq<string>, value: Tree): Tree {
    if path == [] then value else Node(map[path[0] := Nested(path[1..], value)])
  }

  lemma {:induction false} NestedView(path: seq<string>, value: Tree, p: seq<string>)
    ensures ViewAt(Nested(path, value), p) ==
            if path <= p then ViewAt(value, p[|path|..])
            else if p <= path then Branch
            else Absent
  {
    if path == [] {
      assert p[0..] == p;
    } else if p != [] {
      NestedView(path[1..], value, p[1..]);
      if p[0] == path[0] {
        assert path <= p <==> path[1..] <= p[1..] by { PrefixTail(path, p); }
        assert p <= path <==> p[1..] <= path[1..] by { PrefixTail(p, path); }
        if path <= p {
          assert p[1..][|path[1..]|..] == p[|path|..];
        }
      }
    }
  }

  lemma PrefixTail<T>(a: seq<T>, b: seq<T>)
    requires a != [] && b != [] && a[0] == b[0]
    ensures a <= b <==> a[1..] <= b[1..]
  {
    assert a == [a[0]] + a[1..] && b == [b[0]] + b[1..];
  }

  /** Store `value` under `token` in the map a cursor points at. */
  function WriteAt(t: Tree, cursor: seq<string>, token: string, value: Tree): Tree
    requires ViewAt(t, cursor).Branch?
  {
    if cursor == [] then Node(t.children[token := value])
    else Node(t.children[cursor[0] := WriteAt(t.children[cursor[0]], cursor[1..], token, value)])
  }

  lemma {:induction false} WriteNested(path: seq<string>, token: string, value: Tree)
    ensures ViewAt(Nested(path, EMPTY), path).Branch?
    ensures WriteAt(Nested(path, EMPTY), path, token, value) == Nested(path + [token], value)
  {
    NestedView(path, EMPTY, path);
    assert path[|path|..] == [];
    if path != [] {
      WriteNested(path[1..], token, value);
      assert (path + [token])[1..] == path[1..] + [token];
    } else {
      assert (path + [token])[1..] == [];
    }
  }

  /** The loop walks down the map it is building; `lastNestedMap` is the path of the map it stands on. */
  method ConvertToNestedMap(key: string, value: Tree) returns (result: Tree)
    ensures result == Nested(Split(key), value)
  {
    result := EMPTY;
    var tokens := Split(key);
    var lastNestedMap: seq<string> := [];
    for depth := 0 to |tokens|
      invariant lastNestedMap == tokens[..if depth < |tokens| then depth else |tokens| - 1]
      invariant result == if depth < |tokens| then Nested(tokens[..depth], EMPTY) else Nested(tokens, value)
    {
      var token := tokens[depth];
      WriteNested(tokens[..depth], token, value);
      WriteNested(tokens[..depth], token, EMPTY);
      assert tokens[..depth] + [token] == tokens[..depth + 1];
      if depth == |tokens| - 1 {
        assert tokens[..depth + 1] == tokens;
        result := WriteAt(result, lastNestedMap, token, value);
      } else {
        result := WriteAt(result, lastNestedMap, token, EMPTY);
        lastNestedMap := lastNestedMap + [token];
      }
    }
  }

  // ---- Expanding a configuration ----

  type Config = map<string, Tree>

  /** No key's tokens are a prefix of another key's. */
  ghost predicate PrefixFree(keys: set<string>) {
    forall k, l :: k in keys && l in keys && Split(k) <= Split(l) ==> k == l
  }

  /** An iteration order over a set of keys. */
  ghost predicate IsOrder(order: seq<string>, keys: set<string>) {
    && (forall i, j :: 0 <= i < j < |order| ==> order[i] != order[j])
    && (forall k :: k in order <==> k in keys)
  }

  function ExpandInOrder(order: seq<string>, config: Config): Tree
    requires forall k :: k in order ==> k in config
  {
    if order == [] then EMPTY
    else
      var front, k := order[..|order| - 1], order[|order| - 1];
      Merge(ExpandInOrder(front, config), Nested(Split(k), config[k]))
  }

  /** Go visits the keys of a map in any order. */
  method GetConfiguration(config: Config) returns (result: Tree, ghost order: seq<string>)
    ensures IsOrder(order, config.Keys)
    ensures result == ExpandInOrder(order, config)
    ensures PrefixFree(config.Keys) ==> IsExpansion(result, config)
  {
    result := EMPTY;
    order := [];
    var rest := config.Keys;
    while rest != {}
      invariant rest <= config.Keys
      invariant IsOrder(order, config.Keys - rest)
      invariant result == ExpandInOrder(order, config)
    {
      var key :| key in rest;
      var nestedMap := ConvertToNestedMap(key, config[key]);
      result := Merge(result, nestedMap);
      assert (order + [key])[..|order|] == order;
      order := order + [key];
      rest := rest - {key};
    }
    if PrefixFree(config.Keys) {
      EveryOrderExpands(order, config);
      assert Only(order, config) == config;
    }
  }

  /** The one tree a configuration stands for: values at their keys, maps above them, nothing else. */
  ghost predicate IsExpansion(t: Tree, config: Config) {
    forall p :: ViewAt(t, p) == ConfigView(config, p)
  }

  ghost function ConfigView(config: Config, p: seq<string>): View {
    if k :| k in config && Split(k) <= p then ViewAt(config[k], p[|Split(k)|..])
    else if p == [] || exists k :: k in config && p <= Split(k) then Branch
    else Absent
  }

  lemma ExpansionUnique(a: Tree, b: Tree, config: Config)
    requires IsExpansion(a, config) && IsExpansion(b, config)
    ensures a == b
  {
    forall p ensures ViewAt(a, p) == ViewAt(b, p) {
      assert ViewAt(a, p) == ConfigView(config, p);
    }
    ViewsDetermineTree(a, b);
  }

  /** Looking a key's tokens up gives back its configured value. */
  lemma ExpansionLookup(t: Tree, config: Config, key: string, q: seq<string>)
    requires IsExpansion(t, config) && PrefixFree(config.Keys) && key in config
    ensures ViewAt(t, Split(key) + q) == ViewAt(config[key], q)
  {
    var p := Split(key) + q;
    assert Split(key) <= p && p[|Split(key)|..] == q;
    forall k | k in config && Split(k) <= p ensures k == key {
      PrefixesCompare(Split(k), Split(key), p);
      assert k in config.Keys && key in config.Keys;
    }
    assert ViewAt(t, p) == ConfigView(config, p);
  }

  /** Every leaf of the expansion lies at or below a configured key. */
  lemma ExpansionLeaves(t: Tree, config: Config, p: seq<string>)
    requires IsExpansion(t, config) && ViewAt(t, p).Value?
    ensures exists k :: k in config && Split(k) <= p && ViewAt(t, p) == ViewAt(config[k], p[|Split(k)|..])
  {
    assert ViewAt(t, p) == ConfigView(config, p);
  }

  lemma PrefixesCompare<T>(a: seq<T>, b: seq<T>, p: seq<T>)
    requires a <= p && b <= p
    ensures a <= b || b <= a
  {
    assert a == p[..|a|] && b == p[..|b|];
    if |a| <= |b| {
      assert a == b[..|a|];
    } else {
      assert b == a[..|b|];
    }
  }

  lemma PrefixTransitive<T>(a: seq<T>, b: seq<T>, c: seq<T>)
    requires a <= b && b <= c
    ensures a <= c
  {
  }

  /** The configuration restricted to the keys of an order. */
  function Only(order: seq<string>, config: Config): Config
    requires forall k :: k in order ==> k in config
  {
    map k | k in order :: config[k]
  }

  /** For prefix-free keys every iteration order yields the one expansion. */
  lemma {:induction false} EveryOrderExpands(order: seq<string>, config: Config)
    requires PrefixFree(config.Keys)
    requires forall i, j :: 0 <= i < j < |order| ==> order[i] != order[j]
    requires forall k :: k in order ==> k in config
    ensures IsExpansion(ExpandInOrder(order, config), Only(order, config))
  {
    hide ViewAt, Merge, Nested, Split, ConfigView;
    if order == [] {
      EmptyExpands(Only(order, config));
    } else {
      var front, key := order[..|order| - 1], order[|order| - 1];
      assert order == front + [key];
      EveryOrderExpands(front, config);
      ExpandOneMore(ExpandInOrder(front, config), front, key, config);
    }
  }

  lemma EmptyExpands(config: Config)
    requires config == map[]
    ensures IsExpansion(EMPTY, config)
  {
  }

  lemma ExpandOneMore(a: Tree, front: seq<string>, key: string, config: Config)
    requires PrefixFree(config.Keys) && key in config && key !in front
    requires forall k :: k in front ==> k in config
    requires IsExpansion(a, Only(front, config))
    ensures IsExpansion(Merge(a, Nested(Split(key), config[key])), Only(front + [key], config))
  {
    hide ViewAt, Merge, Nested, Split, ConfigView;
    var b := Nested(Split(key), config[key]);
    forall p
      ensures ViewAt(a, p).Absent? || ViewAt(b, p).Absent? || (ViewAt(a, p).Branch? && ViewAt(b, p).Branch?)
    {
      ExpandStep(a, front, key, config, p);
    }
    forall p ensures ViewAt(Merge(a, b), p) == ConfigView(Only(front + [key], config), p) {
      ExpandStep(a, front, key, config, p);
      MergeView(a, b, p);
    }
  }

  lemma ExpandStep(t: Tree, front: seq<string>, key: string, config: Config, p: seq<string>)
    requires PrefixFree(config.Keys) && key in config && key !in front
    requires forall k :: k in front ==> k in config
    requires IsExpansion(t, Only(front, config))
    ensures var a, b := ViewAt(t, p), ViewAt(Nested(Split(key), config[key]), p);
            && (a.Absent? || b.Absent? || (a.Branch? && b.Branch?))
            && Over(b, a) == ConfigView(Only(front + [key], config), p)
  {
    hide ViewAt, Nested, Split;
    var before, after := Only(front, config), Only(front + [key], config);
    assert ViewAt(t, p) == ConfigView(before, p);
    hide IsExpansion;
    NestedView(Split(key), config[key], p);
    assert forall k :: k in after <==> k in before || k == key;
    assert forall k :: k in config ==> k in config.Keys;
    if k :| k in after && Split(k) <= p {
      forall l | l in after && (Split(l) <= p || p <= Split(l)) ensures l == k {
        if Split(l) <= p {
          PrefixesCompare(Split(l), Split(k), p);
        } else {
          PrefixTransitive(Split(k), p, Split(l));
        }
      }
    }
  }

  // ---- When the order matters ----

  ghost predicate AllLeaves(config: Config) {
    forall k :: k in config ==> config[k].Leaf?
  }

  /** Every iteration order gives the same tree. */
  ghost predicate OrderIndependent(config: Config) {
    forall o1, o2 :: IsOrder(o1, config.Keys) && IsOrder(o2, config.Keys) ==>
                       ExpandInOrder(o1, config) == ExpandInOrder(o2, config)
  }

  /** For leaf values, the iteration order is immaterial exactly when the keys are prefix-free. */
  lemma OrderIndependentIff(config: Config)
    requires AllLeaves(config)
    ensures OrderIndependent(config) <==> PrefixFree(config.Keys)
  {
    hide ViewAt, Split, ExpandInOrder, IsExpansion;
    if PrefixFree(config.Keys) {
      forall o1, o2 | IsOrder(o1, config.Keys) && IsOrder(o2, config.Keys)
        ensures ExpandInOrder(o1, config) == ExpandInOrder(o2, config)
      {
        EveryOrderExpands(o1, config);
        EveryOrderExpands(o2, config);
        assert Only(o1, config) == config == Only(o2, config);
        ExpansionUnique(ExpandInOrder(o1, config), ExpandInOrder(o2, config), config);
      }
    } else {
      var k, l :| k in config.Keys && l in config.Keys && Split(k) <= Split(l) && k != l;
      PrefixedPairClashes(config, k, l);
    }
  }

  /** A leaf key that is a prefix of another key: visiting the two last, in either order, gives different trees. */
  lemma PrefixedPairClashes(config: Config, k: string, l: string)
    requires k in config && l in config && k != l && Split(k) <= Split(l) && config[k].Leaf?
    ensures !OrderIndependent(config)
  {
    hide ViewAt, Merge, Nested, Split, ExpandInOrder;
    var rest, o1, o2 := TwoOrders(config.Keys, k, l);
    if Split(l) <= Split(k) {
      assert Split(l) == Split(k);
      SplitInjective(k, l);
    }
    NestedView(Split(k), config[k], Split(k));
    NestedView(Split(l), config[l], Split(k));
    LeafView(config[k], Split(k));
    ClashAt(rest + [k], l, config, Split(k));
    ClashAt(rest + [l], k, config, Split(k));
    assert ViewAt(ExpandInOrder(o1, config), Split(k)) != ViewAt(ExpandInOrder(o2, config), Split(k));
  }

  lemma LeafView(t: Tree, p: seq<string>)
    requires t.Leaf?
    ensures ViewAt(t, p[|p|..]) == Value(t.value)
  {
  }

  /** Two orders that differ in which of two keys comes last. */
  lemma TwoOrders(keys: set<string>, k: string, l: string) returns (rest: seq<string>, o1: seq<string>, o2: seq<string>)
    requires k in keys && l in keys && k != l
    ensures o1 == rest + [k] + [l] && o2 == rest + [l] + [k]
    ensures IsOrder(o1, keys) && IsOrder(o2, keys)
  {
    rest := OrderOf(keys - {k, l});
    o1, o2 := rest + [k] + [l], rest + [l] + [k];
    OrderExtended(rest, keys - {k, l}, k);
    OrderExtended(rest, keys - {k, l}, l);
    assert keys - {k, l} + {k} == keys - {l} && keys - {k, l} + {l} == keys - {k};
    OrderExtended(rest + [k], keys - {l}, l);
    OrderExtended(rest + [l], keys - {k}, k);
    assert keys - {l} + {l} == keys == keys - {k} + {k};
  }

  lemma OrderExtended(order: seq<string>, keys: set<string>, k: string)
    requires IsOrder(order, keys) && k !in keys
    ensures IsOrder(order + [k], keys + {k})
  {
  }

  /** The key visited last decides every path it says anything about. */
  lemma ClashAt(front: seq<string>, last: string, config: Config, p: seq<string>)
    requires forall k :: k in front + [last] ==> k in config
    requires !ViewAt(Nested(Split(last), config[last]), p).Absent?
    ensures ViewAt(ExpandInOrder(front + [last], config), p) == ViewAt(Nested(Split(last), config[last]), p)
  {
    assert (front + [last])[..|front|] == front;
    SourceWins(ExpandInOrder(front, config), Nested(Split(last), config[last]), p);
  }

  lemma {:induction false} OrderOf(keys: set<string>) returns (order: seq<string>)
    ensures IsOrder(order, keys)
  {
    if keys == {} {
      order := [];
    } else {
      var k :| k in keys;
      var rest := OrderOf(keys - {k});
      order := rest + [k];
    }
  }

  // ---- The renderer ----

  /** The renderer keeps one chart in memory; every render merges its configuration into the chart's own values. */
  class HelmRenderer {
    var values: Tree
    ghost const defaults: Tree
    ghost var history: seq<Tree>

    ghost predicate Valid()
      reads this
    {
      values == Fold(defaults, history)
    }

    constructor (chartValues: Tree)
      ensures Valid() && values == defaults == chartValues && history == []
    {
      values := chartValues;
      defaults := chartValues;
      history := [];
    }

    method OverrideChartConfiguration(config: Config) returns (result: Tree, ghost expanded: Tree)
      requires Valid()
      modifies this
      ensures Valid()
      ensures exists order :: IsOrder(order, config.Keys) && expanded == ExpandInOrder(order, config)
      ensures PrefixFree(config.Keys) ==> IsExpansion(expanded, config)
      ensures history == old(history) + [expanded]
      ensures result == values == Merge(old(values), expanded)
    {
      var releaseInstanceConfig, order := GetConfiguration(config);
      expanded := releaseInstanceConfig;
      values := Merge(values, releaseInstanceConfig);
      assert (history + [expanded])[..|history|] == history;
      history := history + [expanded];
      result := values;
    }
  }

  /** Whatever was rendered before, a configured value is what the merged values hold at its key. */
  lemma ConfiguredValueWins(before: Tree, expanded: Tree, config: Config, key: string, q: seq<string>)
    requires PrefixFree(config.Keys) && IsExpansion(expanded, config) && key in config
    requires !ViewAt(config[key], q).Absent?
    ensures ViewAt(Merge(before, expanded), Split(key) + q) == ViewAt(config[key], q)
  {
    ExpansionLookup(expanded, config, key, q);
    SourceWins(before, expanded, Split(key) + q);
  }

  /** Rendering a configuration twice in a row leaves the chart values as one render does. */
  lemma RenderTwice(defaults: Tree, history: seq<Tree>, c: Tree)
    ensures Fold(defaults, history + [c, c]) == Fold(defaults, history + [c])
  {
    assert (history + [c, c])[..|history| + 1] == history + [c];
    assert (history + [c])[..|history|] == history;
    MergeIdempotent(Fold(defaults, history), c);
  }

  /** A render does not depend on the renders before it exactly when it sets every path on which they moved the values. */
  lemma RenderIndependentIff(defaults: Tree, history: seq<Tree>, c: Tree)
    requires AllCompatible(defaults, history + [c])
    ensures Fold(defaults, history + [c]) == Fold(defaults, [c]) <==> AgreeOutside(Fold(defaults, history), defaults, c)
  {
    var h := history + [c];
    assert h[..|history|] == history && [c][..0] == [];
    assert Compatible(defaults, h[|history|]);
    assert forall i :: 0 <= i < |history| ==> history[i] == h[i] && Compatible(h[i], h[|history|]);
    assert AllCompatible(defaults, history);
    FoldCompatible(defaults, history, c);
    HistoryIndependentIff(Fold(defaults, history), defaults, c);
  }
}
