/** Histories of the operator's own renders: what each leaves in the shared chart values, and when that matters. */
module Renders {
  import opened Wrappers
  import opened Values
  import opened Chart
  import opened Overrides

  // ---- Shapes ----

  /** The overrides that are flat maps; every other one is a scalar. */
  predicate IsMap(k: OverrideKey) {
    k == CommonLabels || k == CommonAnnotations
  }

  ghost predicate HasShape(k: OverrideKey, t: Tree) {
    if IsMap(k) then t.Node? && forall x :: x in t.children ==> t.children[x].Leaf? else t.Leaf?
  }

  ghost predicate Shaped(m: Assignments) {
    forall k :: k in m ==> HasShape(k, m[k])
  }

  lemma ChosenShaped(r: Request)
    ensures Shaped(r.Assigns())
  {
    var m := r.Assigns();
    forall k | k in m ensures HasShape(k, m[k]) {
      assert Lookup(m, k) == r.Asks(k);
    }
  }

  /** Paths into a scalar, or into a flat map. */
  lemma ShapeViews(k: OverrideKey, t: Tree, q: seq<string>)
    requires HasShape(k, t)
    ensures ViewAt(t, q).Branch? <==> IsMap(k) && q == []
    ensures !IsMap(k) ==> (ViewAt(t, q).Absent? <==> q != [])
    ensures ViewAt(t, q).Value? ==> |q| == if IsMap(k) then 1 else 0
  {
    if IsMap(k) && q != [] && q[0] in t.children {
      assert ViewAt(t, q) == ViewAt(t.children[q[0]], q[1..]);
    }
  }

  /** The key an expansion's view at a path comes from: at or below its path the chosen value, above it a branch. */
  ghost predicate ComesFrom(v: View, m: Assignments, k: OverrideKey, p: seq<string>) {
    k in m && if Path(k) <= p then v == ViewAt(m[k], p[|Path(k)|..]) else p < Path(k) && v.Branch?
  }

  /** Whatever an expansion holds anywhere but at its root comes from one of the chosen keys. */
  lemma ExpansionAt(e: Tree, m: Assignments, p: seq<string>)
    requires IsExpansion(e, Keyed(m))
    ensures ViewAt(e, p).Absent? || (p == [] && ViewAt(e, p).Branch?) || exists k :: ComesFrom(ViewAt(e, p), m, k, p)
  {
    hide Path, Split, ViewAt, Join, Dotted;
    var c := Keyed(m);
    assert ViewAt(e, p) == ConfigView(c, p);
    hide IsExpansion;
    if s :| s in c && Split(s) <= p && ViewAt(e, p) == ViewAt(c[s], p[|Split(s)|..]) {
      var k :| k in m && s == Dotted(k);
      SplitDotted(k);
      assert ComesFrom(ViewAt(e, p), m, k, p);
    } else if p != [] && ViewAt(e, p).Branch? {
      var s :| s in c && p <= Split(s);
      var k :| k in m && s == Dotted(k);
      SplitDotted(k);
      assert ComesFrom(ViewAt(e, p), m, k, p);
    }
  }

  /** Below the path of one key, an expansion says exactly what was chosen for that key. */
  lemma ExpansionBelow(e: Tree, m: Assignments, k: OverrideKey, q: seq<string>)
    requires IsExpansion(e, Keyed(m))
    ensures ViewAt(e, Path(k) + q) == if k in m then ViewAt(m[k], q) else Absent
  {
    hide Path, Split, ViewAt;
    if k in m {
      KeyedPrefixFree(m);
      SplitDotted(k);
      ExpansionLookup(e, Keyed(m), Dotted(k), q);
    } else {
      UnassignedKept(e, m, k, q);
    }
  }

  /** A branch of one expansion is no leaf of another. */
  lemma LeafIsNoBranch(e1: Tree, m1: Assignments, e2: Tree, m2: Assignments, p: seq<string>)
    requires IsExpansion(e1, Keyed(m1)) && IsExpansion(e2, Keyed(m2)) && Shaped(m1) && Shaped(m2)
    requires ViewAt(e2, p).Value?
    ensures !ViewAt(e1, p).Branch?
  {
    hide Path, ViewAt, IsExpansion, HasShape;
    ExpansionAt(e2, m2, p);
    var a :| ComesFrom(ViewAt(e2, p), m2, a, p);
    var q := p[|Path(a)|..];
    assert p == Path(a) + q;
    ShapeViews(a, m2[a], q);
    ExpansionBelow(e1, m1, a, q);
    if a in m1 {
      ShapeViews(a, m1[a], q);
    }
  }

  /** The expansions of any two requests have compatible shapes. */
  lemma ExpansionsCompatible(e1: Tree, m1: Assignments, e2: Tree, m2: Assignments)
    requires IsExpansion(e1, Keyed(m1)) && IsExpansion(e2, Keyed(m2)) && Shaped(m1) && Shaped(m2)
    ensures Compatible(e1, e2)
  {
    hide IsExpansion, Shaped, ViewAt;
    forall p: seq<string>
      ensures !(ViewAt(e1, p).Branch? && ViewAt(e2, p).Value?) && !(ViewAt(e1, p).Value? && ViewAt(e2, p).Branch?)
    {
      if ViewAt(e2, p).Value? {
        LeafIsNoBranch(e1, m1, e2, m2, p);
      }
      if ViewAt(e1, p).Value? {
        LeafIsNoBranch(e2, m2, e1, m1, p);
      }
    }
  }

  /**
   * What is asked of the chart's own values: above an override's path they hold no scalar, where an
   * override is a scalar they hold no map, and their labels and annotations are flat maps.
   */
  ghost predicate Fits(defaults: Tree) {
    forall k: OverrideKey ::
      && (forall p :: p < Path(k) ==> !ViewAt(defaults, p).Value?)
      && (if IsMap(k) then !ViewAt(defaults, Path(k)).Value? && forall x :: !ViewAt(defaults, Path(k) + [x]).Branch?
          else !ViewAt(defaults, Path(k)).Branch?)
  }

  lemma FitsCompatible(defaults: Tree, e: Tree, m: Assignments)
    requires Fits(defaults) && IsExpansion(e, Keyed(m)) && Shaped(m)
    ensures Compatible(defaults, e)
  {
    hide ViewAt, IsExpansion, HasShape, Path;
    forall p: seq<string>
      ensures !(ViewAt(defaults, p).Branch? && ViewAt(e, p).Value?) && !(ViewAt(defaults, p).Value? && ViewAt(e, p).Branch?)
    {
      ExpansionAt(e, m, p);
      if ViewAt(e, p).Value? || ViewAt(e, p).Branch? {
        if p == [] && ViewAt(e, p).Branch? {
          assert [] < Path(IstioEnabled) by { PathNotEmpty(IstioEnabled); }
        } else {
          var k :| ComesFrom(ViewAt(e, p), m, k, p);
          if Path(k) <= p {
            FitsBelow(defaults, e, m, k, p);
          }
        }
      }
    }
  }

  lemma PathNotEmpty(k: OverrideKey)
    ensures Path(k) != []
  {
  }

  lemma FitsBelow(defaults: Tree, e: Tree, m: Assignments, k: OverrideKey, p: seq<string>)
    requires Fits(defaults) && k in m && HasShape(k, m[k])
    requires Path(k) <= p && ViewAt(e, p) == ViewAt(m[k], p[|Path(k)|..])
    ensures !(ViewAt(defaults, p).Branch? && ViewAt(e, p).Value?) && !(ViewAt(defaults, p).Value? && ViewAt(e, p).Branch?)
  {
    hide ViewAt, HasShape, Path;
    var q := p[|Path(k)|..];
    assert p == Path(k) + q;
    ShapeViews(k, m[k], q);
    if q == [] {
      assert p == Path(k);
    } else if |q| == 1 {
      assert q == [q[0]];
    }
  }

  // ---- Histories of requests ----

  /** What one render is asked for. */
  datatype Request = Request(spec: Spec, istio: bool, rotate: bool, fileSize: nat, images: Images) {

    function Asks(k: OverrideKey): Option<Tree> {
      Wanted(k, spec, istio, rotate, fileSize, images)
    }

    ghost function Assigns(): (m: Assignments)
      ensures forall k :: Lookup(m, k) == Asks(k)
    {
      Chosen(spec, istio, rotate, fileSize, images)
    }

    /** What it says below an override's path. */
    function Says(k: OverrideKey, q: seq<string>): View {
      match Asks(k) case None => Absent case Some(t) => ViewAt(t, q)
    }
  }

  /** The configurations the renderer merged, one for each request. */
  ghost predicate Answers(history: seq<Tree>, rs: seq<Request>) {
    |history| == |rs| && forall i :: 0 <= i < |rs| ==> IsExpansion(history[i], Keyed(rs[i].Assigns()))
  }

  /** What the latest request that says anything below a path says. */
  function LatestSaid(rs: seq<Request>, k: OverrideKey, q: seq<string>): View {
    if rs == [] then Absent
    else Over(rs[|rs| - 1].Says(k, q), LatestSaid(rs[..|rs| - 1], k, q))
  }

  lemma AnswersCompatible(defaults: Tree, history: seq<Tree>, rs: seq<Request>)
    requires Fits(defaults) && Answers(history, rs)
    ensures AllCompatible(defaults, history)
  {
    hide Fits, IsExpansion, Compatible;
    forall i | 0 <= i < |history| ensures Compatible(defaults, history[i]) {
      ChosenShaped(rs[i]);
      FitsCompatible(defaults, history[i], rs[i].Assigns());
    }
    forall i, j | 0 <= i < j < |history| ensures Compatible(history[i], history[j]) {
      ChosenShaped(rs[i]);
      ChosenShaped(rs[j]);
      ExpansionsCompatible(history[i], rs[i].Assigns(), history[j], rs[j].Assigns());
    }
  }

  lemma AnswerBelow(history: seq<Tree>, rs: seq<Request>, i: nat, k: OverrideKey, q: seq<string>)
    requires Answers(history, rs) && i < |rs|
    ensures ViewAt(history[i], Path(k) + q) == rs[i].Says(k, q)
  {
    hide Path, ViewAt, IsExpansion;
    ExpansionBelow(history[i], rs[i].Assigns(), k, q);
    assert Lookup(rs[i].Assigns(), k) == rs[i].Asks(k);
  }

  /** After any renders, the values below an override's path are what the latest request that set it said, else the chart's. */
  lemma {:induction false} LatestRequestWins(defaults: Tree, history: seq<Tree>, rs: seq<Request>, k: OverrideKey, q: seq<string>)
    requires Fits(defaults) && Answers(history, rs)
    ensures ViewAt(Fold(defaults, history), Path(k) + q) == Over(LatestSaid(rs, k, q), ViewAt(defaults, Path(k) + q))
  {
    hide Path, ViewAt, IsExpansion, Fits, Merge, Compatible, Request.Says;
    if rs != [] {
      var front, n := history[..|history| - 1], |rs| - 1;
      LatestRequestWins(defaults, front, rs[..n], k, q);
      AnswersCompatible(defaults, history, rs);
      assert forall i :: 0 <= i < n ==> front[i] == history[i];
      FoldCompatible(defaults, front, history[n]);
      MergeView(Fold(defaults, front), history[n], Path(k) + q);
      AnswerBelow(history, rs, n, k, q);
    }
  }

  /** A label outlives its removal from the spec: as long as no later request sets it, every render still carries its last value. */
  lemma LabelSurvivesRemoval(defaults: Tree, history: seq<Tree>, rs: seq<Request>, i: nat, lbl: string)
    requires Fits(defaults) && Answers(history, rs) && i < |rs|
    requires lbl in rs[i].spec.labels && forall j :: i < j < |rs| ==> lbl !in rs[j].spec.labels
    ensures ViewAt(Fold(defaults, history), ["commonLabels", lbl]) == Value(Str(rs[i].spec.labels[lbl]))
  {
    hide ViewAt, Fits, IsExpansion;
    assert ["commonLabels", lbl] == Path(CommonLabels) + [lbl];
    LatestRequestWins(defaults, history, rs, CommonLabels, [lbl]);
    LatestLabel(rs, i, lbl);
  }

  lemma {:induction false} LatestLabel(rs: seq<Request>, i: nat, lbl: string)
    requires i < |rs| && lbl in rs[i].spec.labels
    requires forall j :: i < j < |rs| ==> lbl !in rs[j].spec.labels
    ensures LatestSaid(rs, CommonLabels, [lbl]) == Value(Str(rs[i].spec.labels[lbl]))
  {
    LabelSaid(rs[|rs| - 1], lbl);
    if i < |rs| - 1 {
      LatestLabel(rs[..|rs| - 1], i, lbl);
    }
  }

  lemma LabelSaid(r: Request, lbl: string)
    ensures r.Says(CommonLabels, [lbl]) ==
            if lbl in r.spec.labels then Value(Str(r.spec.labels[lbl])) else Absent
  {
    assert [lbl][1..] == [];
    if r.spec.labels != map[] {
      var t := StringMap(r.spec.labels);
      assert r.Asks(CommonLabels) == Some(t);
      if lbl in r.spec.labels {
        assert ViewAt(t, [lbl]) == ViewAt(t.children[lbl], []);
      }
    }
  }

  // ---- When history matters ----

  /** The overrides a request may leave out. */
  predicate IsOptional(k: OverrideKey) {
    k.FileStorageClass? || k.MemStorageSize? || k.CommonLabels? || k.CommonAnnotations?
    || k.NatsImage? || k.ExporterImage? || k.ReloaderImage?
  }

  /**
   * What an earlier request set and the last one leaves out differs from the chart's own values, at a
   * scalar override or at one label or annotation.
   */
  ghost predicate Leftover(defaults: Tree, rs: seq<Request>, last: Request, k: OverrideKey, q: seq<string>) {
    && IsOptional(k) && last.Says(k, q).Absent?
    && !LatestSaid(rs, k, q).Absent? && LatestSaid(rs, k, q) != ViewAt(defaults, Path(k) + q)
  }

  ghost predicate NoLeftovers(defaults: Tree, rs: seq<Request>, last: Request) {
    forall k, q :: !Leftover(defaults, rs, last, k, q)
  }

  lemma MandatorySays(r: Request, k: OverrideKey, q: seq<string>)
    requires !IsOptional(k)
    ensures r.Says(k, q).Absent? <==> q != []
  {
  }

  lemma {:induction false} MandatoryLatest(rs: seq<Request>, k: OverrideKey, q: seq<string>)
    requires !IsOptional(k) && q != []
    ensures LatestSaid(rs, k, q).Absent?
  {
    if rs != [] {
      MandatorySays(rs[|rs| - 1], k, q);
      MandatoryLatest(rs[..|rs| - 1], k, q);
    }
  }

  /**
   * A render after any others gives what it would have given as the first one exactly when no optional
   * override that it leaves out was set before to anything but the chart's own value.
   */
  lemma HistoryMattersIff(defaults: Tree, history: seq<Tree>, rs: seq<Request>, c: Tree, last: Request)
    requires Fits(defaults) && Answers(history, rs) && IsExpansion(c, Keyed(last.Assigns()))
    ensures Fold(defaults, history + [c]) == Fold(defaults, [c]) <==> forall k, q :: !Leftover(defaults, rs, last, k, q)
  {
    hide Fits, IsExpansion, ViewAt, Fold, LatestSaid, Request.Says;
    assert Answers(history + [c], rs + [last]);
    AnswersCompatible(defaults, history + [c], rs + [last]);
    RenderIndependentIff(defaults, history, c);
    if AgreeOutside(Fold(defaults, history), defaults, c) {
      forall k, q ensures !Leftover(defaults, rs, last, k, q) {
        AnswerBelow([c], [last], 0, k, q);
        LatestRequestWins(defaults, history, rs, k, q);
      }
    }
    if forall k, q :: !Leftover(defaults, rs, last, k, q) {
      forall p | ViewAt(c, p).Absent? ensures ViewAt(Fold(defaults, history), p) == ViewAt(defaults, p) {
        NoLeftover(defaults, history, rs, c, last, p);
      }
    }
  }

  lemma NothingLeft(defaults: Tree, rs: seq<Request>, last: Request, k: OverrideKey, q: seq<string>)
    requires !Leftover(defaults, rs, last, k, q) && last.Says(k, q).Absent?
    ensures LatestSaid(rs, k, q).Absent? || LatestSaid(rs, k, q) == ViewAt(defaults, Path(k) + q)
  {
    hide ViewAt, Path, LatestSaid, Request.Says;
    if !IsOptional(k) {
      MandatorySays(last, k, q);
      MandatoryLatest(rs, k, q);
    }
  }

  lemma NoLeftover(defaults: Tree, history: seq<Tree>, rs: seq<Request>, c: Tree, last: Request, p: seq<string>)
    requires Fits(defaults) && Answers(history, rs) && IsExpansion(c, Keyed(last.Assigns()))
    requires NoLeftovers(defaults, rs, last)
    requires ViewAt(c, p).Absent?
    ensures ViewAt(Fold(defaults, history), p) == ViewAt(defaults, p)
  {
    hide Fits, IsExpansion, ViewAt, Fold, LatestSaid, Request.Says, Path, Leftover;
    AnswersCompatible(defaults, history, rs);
    LatestWins(defaults, history, p);
    if i :| 0 <= i < |history| && !ViewAt(history[i], p).Absent? {
      var last_i := LastSpeaker(history, p, i);
      SpeakerAgrees(defaults, history, rs, c, last, p, last_i);
    }
  }

  /** The last configuration that says anything at a path. */
  lemma {:induction false} LastSpeaker(history: seq<Tree>, p: seq<string>, i: nat) returns (j: nat)
    requires i < |history| && !ViewAt(history[i], p).Absent?
    ensures j < |history| && !ViewAt(history[j], p).Absent? && forall l :: j < l < |history| ==> ViewAt(history[l], p).Absent?
    decreases |history| - i
  {
    if l :| i < l < |history| && !ViewAt(history[l], p).Absent? {
      j := LastSpeaker(history, p, l);
    } else {
      j := i;
    }
  }

  /** The last speaker's key: what it says there is below the key's path, or a branch above it. */
  lemma SpeakerKey(history: seq<Tree>, rs: seq<Request>, j: nat, p: seq<string>) returns (k: OverrideKey)
    requires Answers(history, rs) && j < |history| && p != [] && !ViewAt(history[j], p).Absent?
    ensures ComesFrom(ViewAt(history[j], p), rs[j].Assigns(), k, p)
  {
    hide IsExpansion, ViewAt, Path;
    ExpansionAt(history[j], rs[j].Assigns(), p);
    k :| ComesFrom(ViewAt(history[j], p), rs[j].Assigns(), k, p);
  }

  lemma SpeakerAgrees(defaults: Tree, history: seq<Tree>, rs: seq<Request>, c: Tree, last: Request, p: seq<string>, j: nat)
    requires Fits(defaults) && Answers(history, rs) && IsExpansion(c, Keyed(last.Assigns()))
    requires NoLeftovers(defaults, rs, last)
    requires ViewAt(c, p).Absent? && j < |history| && !ViewAt(history[j], p).Absent?
    requires ViewAt(Fold(defaults, history), p) == ViewAt(history[j], p)
    ensures ViewAt(history[j], p) == ViewAt(defaults, p)
  {
    hide Fits, IsExpansion, ViewAt, Fold, Path, NoLeftovers, Answers;
    AsMany(history, rs);
    RootIsBranch(c, last);
    var k := SpeakerKey(history, rs, j, p);
    if Path(k) <= p {
      assert p == Path(k) + p[|Path(k)|..];
      BelowAgrees(defaults, history, rs, c, last, k, p[|Path(k)|..]);
    } else {
      AboveAgrees(defaults, history, rs, c, last, p, j, k);
    }
  }

  lemma BelowAgrees(defaults: Tree, history: seq<Tree>, rs: seq<Request>, c: Tree, last: Request, k: OverrideKey, q: seq<string>)
    requires Fits(defaults) && Answers(history, rs) && IsExpansion(c, Keyed(last.Assigns()))
    requires NoLeftovers(defaults, rs, last) && ViewAt(c, Path(k) + q).Absent?
    ensures ViewAt(Fold(defaults, history), Path(k) + q) == ViewAt(defaults, Path(k) + q)
  {
    hide Fits, IsExpansion, ViewAt, Fold, LatestSaid, Request.Says, Path, Leftover;
    AnswerBelow([c], [last], 0, k, q);
    LatestRequestWins(defaults, history, rs, k, q);
    NothingLeft(defaults, rs, last, k, q);
  }

  lemma RootIsBranch(c: Tree, last: Request)
    requires IsExpansion(c, Keyed(last.Assigns()))
    ensures !ViewAt(c, []).Absent?
  {
  }

  /** A branch that only earlier requests made stands above an override the last one leaves out, which the chart then has too. */
  lemma AboveAgrees(defaults: Tree, history: seq<Tree>, rs: seq<Request>, c: Tree, last: Request, p: seq<string>, j: nat, k: OverrideKey)
    requires Fits(defaults) && Answers(history, rs) && IsExpansion(c, Keyed(last.Assigns()))
    requires NoLeftovers(defaults, rs, last)
    requires ViewAt(c, p).Absent? && j < |rs| && k in rs[j].Assigns() && p < Path(k)
    ensures ViewAt(defaults, p).Branch?
  {
    hide Fits, IsExpansion, ViewAt, Fold, Request.Says, Path, NoLeftovers;
    var rest := Path(k)[|p|..];
    assert Path(k) == p + rest && Path(k) + [] == Path(k);
    if !ViewAt(c, Path(k)).Absent? {
      ViewAppend(c, p, rest);
    }
    AnswerBelow([c], [last], 0, k, []);
    LeftOutIsInChart(defaults, rs, last, j, k);
    ViewAppend(defaults, p, rest);
  }

  lemma LeftOutIsInChart(defaults: Tree, rs: seq<Request>, last: Request, j: nat, k: OverrideKey)
    requires NoLeftovers(defaults, rs, last) && j < |rs| && k in rs[j].Assigns() && last.Says(k, []).Absent?
    ensures !ViewAt(defaults, Path(k)).Absent?
  {
    hide ViewAt, LatestSaid, Request.Says, Path, Leftover;
    assert Path(k) + [] == Path(k);
    NothingLeft(defaults, rs, last, k, []);
    SaidOnce(rs, j, k);
  }

  lemma {:induction false} SaidOnce(rs: seq<Request>, j: nat, k: OverrideKey)
    requires j < |rs| && k in rs[j].Assigns()
    ensures !LatestSaid(rs, k, []).Absent?
  {
    if j < |rs| - 1 {
      SaidOnce(rs[..|rs| - 1], j, k);
    } else {
      assert Lookup(rs[j].Assigns(), k) == rs[j].Asks(k);
    }
  }

  /** The input: a label set by an earlier request, in no later one, and not in the chart makes the render depend on history. */
  lemma RemovedLabelMatters(defaults: Tree, history: seq<Tree>, rs: seq<Request>, c: Tree, last: Request, i: nat, lbl: string)
    requires Fits(defaults) && Answers(history, rs) && IsExpansion(c, Keyed(last.Assigns()))
    requires i < |rs| && lbl in rs[i].spec.labels && lbl !in last.spec.labels
    requires forall j :: i < j < |rs| ==> lbl !in rs[j].spec.labels
    requires ViewAt(defaults, Path(CommonLabels) + [lbl]).Absent?
    ensures Fold(defaults, history + [c]) != Fold(defaults, [c])
  {
    hide Fits, IsExpansion, ViewAt, Fold, LatestSaid, Request.Says;
    LabelSaid(last, lbl);
    LatestLabel(rs, i, lbl);
    assert Leftover(defaults, rs, last, CommonLabels, [lbl]);
    HistoryMattersIff(defaults, history, rs, c, last);
  }

  // ---- One process ----

  /** The images are configured once for a process. */
  ghost predicate SameImages(rs: seq<Request>, images: Images) {
    forall i :: 0 <= i < |rs| ==> rs[i].images == images
  }

  lemma AsMany(history: seq<Tree>, rs: seq<Request>)
    requires Answers(history, rs)
    ensures |history| == |rs|
  {
  }

  lemma OneMoreAnswer(history: seq<Tree>, rs: seq<Request>, e: Tree, q: Request)
    requires Answers(history, rs) && IsExpansion(e, Keyed(q.Assigns()))
    ensures Answers(history + [e], rs + [q])
  {
    hide IsExpansion;
  }

  predicate IsImage(k: OverrideKey) {
    k.NatsImage? || k.ExporterImage? || k.ReloaderImage?
  }

  /** With one set of images a request leaves out an image exactly when all requests do. */
  lemma {:induction false} ImagesLeaveNothing(rs: seq<Request>, last: Request, k: OverrideKey, q: seq<string>)
    requires SameImages(rs, last.images) && IsImage(k) && last.Says(k, q).Absent?
    ensures LatestSaid(rs, k, q).Absent?
  {
    if rs != [] {
      assert rs[|rs| - 1].Says(k, q) == last.Says(k, q);
      ImagesLeaveNothing(rs[..|rs| - 1], last, k, q);
    }
  }

  /**
   * Within one process: a render gives what it would have given as the first one exactly when it leaves out
   * no storage class, memory size, label or annotation that was set before to anything but the chart's own.
   */
  lemma ProcessHistoryMattersIff(defaults: Tree, history: seq<Tree>, rs: seq<Request>, c: Tree, last: Request)
    requires Fits(defaults) && Answers(history, rs) && IsExpansion(c, Keyed(last.Assigns())) && SameImages(rs, last.images)
    ensures Fold(defaults, history + [c]) == Fold(defaults, [c]) <==>
            forall k, q :: Leftover(defaults, rs, last, k, q) ==> IsImage(k)
  {
    hide Fits, IsExpansion, Answers, Fold, Leftover, LatestSaid, Request.Says, IsImage;
    HistoryMattersIff(defaults, history, rs, c, last);
    forall k, q | IsImage(k) ensures !Leftover(defaults, rs, last, k, q) {
      NoImageLeftover(defaults, rs, last, k, q);
    }
  }

  lemma NoImageLeftover(defaults: Tree, rs: seq<Request>, last: Request, k: OverrideKey, q: seq<string>)
    requires SameImages(rs, last.images) && IsImage(k)
    ensures !Leftover(defaults, rs, last, k, q)
  {
    hide LatestSaid, Request.Says;
    if last.Says(k, q).Absent? {
      ImagesLeaveNothing(rs, last, k, q);
    }
  }
}
