/** Chart values: nested maps, their deep merge, and what a merge does to each path. */
module Values {

  datatype Scalar = Bool(b: bool) | Int(i: int) | Str(s: string) | Quantity(bytes: nat)

  datatype Tree = Leaf(value: Scalar) | Node(children: map<string, Tree>)

  const EMPTY := Node(map[])

  /** mergo's `Merge` with override: maps merge key by key, anything else is replaced by the source. */
  function Merge(dst: Tree, src: Tree): Tree {
    if dst.Node? && src.Node? then
      Node(map k | k in dst.children.Keys + src.children.Keys ::
             if k !in src.children then dst.children[k]
             else if k !in dst.children then src.children[k]
             else Merge(dst.children[k], src.children[k]))
    else src
  }

  /** What a tree holds at a path. */
  datatype View = Absent | Branch | Value(value: Scalar)

  function ViewAt(t: Tree, p: seq<string>): View {
    if p == [] then (if t.Leaf? then Value(t.value) else Branch)
    else if t.Node? && p[0] in t.children then ViewAt(t.children[p[0]], p[1..])
    else Absent
  }

  /** `hi` where it says anything, else `lo`. */
  function Over(hi: View, lo: View): View {
    if hi.Absent? then lo else hi
  }

  /** No path is a leaf of one tree and a branch of the other. */
  ghost predicate Compatible(a: Tree, b: Tree) {
    forall p: seq<string> :: !(ViewAt(a, p).Branch? && ViewAt(b, p).Value?) && !(ViewAt(a, p).Value? && ViewAt(b, p).Branch?)
  }

  // ---- A tree is its views ----

  lemma {:induction false} ViewsDetermineTree(a: Tree, b: Tree)
    requires forall p :: ViewAt(a, p) == ViewAt(b, p)
    ensures a == b
    decreases a
  {
    assert ViewAt(a, []) == ViewAt(b, []);
    if a.Node? {
      forall k ensures k in a.children <==> k in b.children {
        ViewOfChild(a, k);
        ViewOfChild(b, k);
        assert ViewAt(a, [k]) == ViewAt(b, [k]);
      }
      forall k | k in a.children ensures a.children[k] == b.children[k] {
        forall p ensures ViewAt(a.children[k], p) == ViewAt(b.children[k], p) {
          assert ([k] + p)[1..] == p;
          assert ViewAt(a, [k] + p) == ViewAt(b, [k] + p);
        }
        ViewsDetermineTree(a.children[k], b.children[k]);
      }
      assert a.children == b.children;
    }
  }

  lemma ViewOfChild(t: Tree, k: string)
    ensures ViewAt(t, [k]).Absent? <==> !(t.Node? && k in t.children)
  {
    assert [k][1..] == [];
  }

  lemma {:induction false} ViewAppend(t: Tree, p: seq<string>, q: seq<string>)
    requires !ViewAt(t, p + q).Absent?
    ensures !ViewAt(t, p).Absent?
    ensures q != [] ==> ViewAt(t, p).Branch?
  {
    if p == [] {
      assert p + q == q;
    } else {
      assert (p + q)[0] == p[0] && (p + q)[1..] == p[1..] + q;
      ViewAppend(t.children[p[0]], p[1..], q);
    }
  }

  // ---- What a merge does to one path ----

  /** Wherever the source says anything, the source wins, whatever the shapes. */
  lemma {:induction false} SourceWins(dst: Tree, src: Tree, p: seq<string>)
    requires !ViewAt(src, p).Absent?
    ensures ViewAt(Merge(dst, src), p) == ViewAt(src, p)
  {
    if p != [] && dst.Node? && p[0] in dst.children {
      SourceWins(dst.children[p[0]], src.children[p[0]], p[1..]);
    }
  }

  /** Elsewhere the target is kept, as long as the shapes agree. */
  lemma {:induction false} MergeView(dst: Tree, src: Tree, p: seq<string>)
    requires Compatible(dst, src)
    ensures ViewAt(Merge(dst, src), p) == Over(ViewAt(src, p), ViewAt(dst, p))
  {
    assert !(ViewAt(dst, []).Branch? && ViewAt(src, []).Value?) && !(ViewAt(dst, []).Value? && ViewAt(src, []).Branch?);
    if p != [] && dst.Node? && src.Node? && p[0] in dst.children && p[0] in src.children {
      var a, b := dst.children[p[0]], src.children[p[0]];
      forall q
        ensures !(ViewAt(a, q).Branch? && ViewAt(b, q).Value?) && !(ViewAt(a, q).Value? && ViewAt(b, q).Branch?)
      {
        assert ([p[0]] + q)[1..] == q;
        assert ViewAt(dst, [p[0]] + q) == ViewAt(a, q) && ViewAt(src, [p[0]] + q) == ViewAt(b, q);
      }
      MergeView(a, b, p[1..]);
    }
  }

  lemma MergeCompatible(a: Tree, b: Tree, c: Tree)
    requires Compatible(a, b) && Compatible(a, c) && Compatible(b, c)
    ensures Compatible(Merge(a, b), c)
  {
    forall p
      ensures !(ViewAt(Merge(a, b), p).Branch? && ViewAt(c, p).Value?)
      ensures !(ViewAt(Merge(a, b), p).Value? && ViewAt(c, p).Branch?)
    {
      MergeView(a, b, p);
      assert !(ViewAt(a, p).Branch? && ViewAt(c, p).Value?);
      assert !(ViewAt(b, p).Branch? && ViewAt(c, p).Value?);
    }
  }

  // ---- Merge laws ----

  /** Merging the same source again changes nothing, whatever the shapes. */
  lemma {:induction false} MergeIdempotent(dst: Tree, src: Tree)
    ensures Merge(Merge(dst, src), src) == Merge(dst, src)
    decreases src
  {
    var m := Merge(dst, src);
    if src.Node? {
      forall k | k in m.children && k in src.children
        ensures Merge(m.children[k], src.children[k]) == m.children[k]
      {
        if dst.Node? && k in dst.children {
          MergeIdempotent(dst.children[k], src.children[k]);
        } else {
          MergeSelf(src.children[k]);
        }
      }
      assert Merge(m, src).children == m.children;
    }
  }

  lemma {:induction false} MergeSelf(t: Tree)
    ensures Merge(t, t) == t
  {
    if t.Node? {
      forall k | k in t.children ensures Merge(t.children[k], t.children[k]) == t.children[k] {
        MergeSelf(t.children[k]);
      }
      assert Merge(t, t).children == t.children;
    }
  }

  // ---- Merging a history of sources ----

  function Fold(defaults: Tree, sources: seq<Tree>): Tree {
    if sources == [] then defaults
    else Merge(Fold(defaults, sources[..|sources| - 1]), sources[|sources| - 1])
  }

  ghost predicate AllCompatible(defaults: Tree, sources: seq<Tree>) {
    && (forall i :: 0 <= i < |sources| ==> Compatible(defaults, sources[i]))
    && (forall i, j :: 0 <= i < j < |sources| ==> Compatible(sources[i], sources[j]))
  }

  lemma {:induction false} FoldCompatible(defaults: Tree, sources: seq<Tree>, c: Tree)
    requires AllCompatible(defaults, sources) && Compatible(defaults, c)
    requires forall i :: 0 <= i < |sources| ==> Compatible(sources[i], c)
    ensures Compatible(Fold(defaults, sources), c)
  {
    if sources != [] {
      var front, last := sources[..|sources| - 1], sources[|sources| - 1];
      FoldCompatible(defaults, front, c);
      FoldCompatible(defaults, front, last);
      MergeCompatible(Fold(defaults, front), last, c);
    }
  }

  /** What the latest source that says anything at a path says there. */
  function Latest(sources: seq<Tree>, p: seq<string>): View {
    if sources == [] then Absent else Over(ViewAt(sources[|sources| - 1], p), Latest(sources[..|sources| - 1], p))
  }

  lemma {:induction false} FoldView(defaults: Tree, sources: seq<Tree>, p: seq<string>)
    requires AllCompatible(defaults, sources)
    ensures ViewAt(Fold(defaults, sources), p) == Over(Latest(sources, p), ViewAt(defaults, p))
  {
    hide ViewAt, Merge, Compatible;
    if sources != [] {
      var front, last := sources[..|sources| - 1], sources[|sources| - 1];
      FoldCompatible(defaults, front, last);
      MergeView(Fold(defaults, front), last, p);
      FoldView(defaults, front, p);
    }
  }

  lemma {:induction false} LatestIs(sources: seq<Tree>, p: seq<string>, i: nat)
    requires i < |sources| && !ViewAt(sources[i], p).Absent?
    requires forall j :: i < j < |sources| ==> ViewAt(sources[j], p).Absent?
    ensures Latest(sources, p) == ViewAt(sources[i], p)
  {
    hide ViewAt;
    if i < |sources| - 1 {
      LatestIs(sources[..|sources| - 1], p, i);
    }
  }

  lemma {:induction false} NoneLatest(sources: seq<Tree>, p: seq<string>)
    requires forall i :: 0 <= i < |sources| ==> ViewAt(sources[i], p).Absent?
    ensures Latest(sources, p).Absent?
  {
    hide ViewAt;
    if sources != [] {
      NoneLatest(sources[..|sources| - 1], p);
    }
  }

  /** After any history each path holds what the latest source that says anything there said, else the default. */
  lemma LatestWins(defaults: Tree, sources: seq<Tree>, p: seq<string>)
    requires AllCompatible(defaults, sources)
    ensures (forall i :: 0 <= i < |sources| ==> ViewAt(sources[i], p).Absent?) ==>
              ViewAt(Fold(defaults, sources), p) == ViewAt(defaults, p)
    ensures forall i :: 0 <= i < |sources| && !ViewAt(sources[i], p).Absent? &&
                        (forall j :: i < j < |sources| ==> ViewAt(sources[j], p).Absent?) ==>
              ViewAt(Fold(defaults, sources), p) == ViewAt(sources[i], p)
  {
    hide ViewAt, Fold, Latest, AllCompatible;
    FoldView(defaults, sources, p);
    if forall i :: 0 <= i < |sources| ==> ViewAt(sources[i], p).Absent? {
      NoneLatest(sources, p);
    }
    forall i | 0 <= i < |sources| && !ViewAt(sources[i], p).Absent? &&
               (forall j :: i < j < |sources| ==> ViewAt(sources[j], p).Absent?)
      ensures ViewAt(Fold(defaults, sources), p) == ViewAt(sources[i], p)
    {
      LatestIs(sources, p, i);
    }
  }

  /**
   * Merging `c` into a used target gives what merging it into a pristine one gives, exactly when every
   * path on which the two targets differ is one that `c` sets.
   */
  lemma HistoryIndependentIff(used: Tree, pristine: Tree, c: Tree)
    requires Compatible(used, c) && Compatible(pristine, c)
    ensures Merge(used, c) == Merge(pristine, c) <==> AgreeOutside(used, pristine, c)
  {
    forall p
      ensures ViewAt(Merge(used, c), p) == Over(ViewAt(c, p), ViewAt(used, p))
      ensures ViewAt(Merge(pristine, c), p) == Over(ViewAt(c, p), ViewAt(pristine, p))
    {
      MergeView(used, c, p);
      MergeView(pristine, c, p);
    }
    if AgreeOutside(used, pristine, c) {
      ViewsDetermineTree(Merge(used, c), Merge(pristine, c));
    }
  }

  /** The two trees agree on every path that `c` leaves alone. */
  ghost predicate AgreeOutside(a: Tree, b: Tree, c: Tree) {
    forall p :: ViewAt(c, p).Absent? ==> ViewAt(a, p) == ViewAt(b, p)
  }
}
