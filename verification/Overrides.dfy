/** The chart overrides computed from a NATS spec, and the admission rules on the spec. */
module Overrides {
  import opened Wrappers
  import opened Values
  import opened Chart

  /** Quantities are counted in their base unit; 0 is the quantity that was not set. */
  datatype Spec = Spec(
    clusterSize: int,
    fileStorageSize: nat,
    storageClassName: string,
    memEnabled: bool,
    memSize: nat,
    debug: bool,
    trace: bool,
    requestsCpu: nat,
    requestsMemory: nat,
    limitsCpu: nat,
    limitsMemory: nat,
    labels: map<string, string>,
    annotations: map<string, string>
  )

  datatype Images = Images(nats: string, exporter: string, reloader: string)

  const MIN_CLUSTER_SIZE := 3
  const ALICLOUD := "alicloud"
  const GI := 0x4000_0000
  const DEFAULT_FILE_SIZE_ALICLOUD := 20 * GI
  const DEFAULT_FILE_SIZE := GI
  const MIN_FILE_SIZE_ALICLOUD := 20 * GI

  /** The override key constants. */
  datatype OverrideKey =
    | IstioEnabled | RotatePassword | ClusterEnabled | ClusterSize
    | FileStorageClass | FileStorageSize | MemStorageEnabled | MemStorageSize
    | DebugEnabled | TraceEnabled | CommonLabels | CommonAnnotations
    | RequestsCpu | RequestsMemory | LimitsCpu | LimitsMemory
    | NatsImage | ExporterImage | ReloaderImage

  /** The tokens of a key constant. */
  function Path(k: OverrideKey): (p: seq<string>)
    ensures 1 <= |p| <= 4
  {
    match k
    case IstioEnabled => ["istio", "enabled"]
    case RotatePassword => ["auth", "rotatePassword"]
    case ClusterEnabled => ["cluster", "enabled"]
    case ClusterSize => ["cluster", "replicas"]
    case FileStorageClass => ["nats", "jetstream", "fileStorage", "storageClassName"]
    case FileStorageSize => ["global", "jetstream", "fileStorage", "size"]
    case MemStorageEnabled => ["nats", "jetstream", "memStorage", "enabled"]
    case MemStorageSize => ["nats", "jetstream", "memStorage", "size"]
    case DebugEnabled => ["nats", "logging", "debug"]
    case TraceEnabled => ["nats", "logging", "trace"]
    case CommonLabels => ["commonLabels"]
    case CommonAnnotations => ["commonAnnotations"]
    case RequestsCpu => ["nats", "resources", "requests", "cpu"]
    case RequestsMemory => ["nats", "resources", "requests", "memory"]
    case LimitsCpu => ["nats", "resources", "limits", "cpu"]
    case LimitsMemory => ["nats", "resources", "limits", "memory"]
    case NatsImage => ["global", "natsImageUrl"]
    case ExporterImage => ["global", "prometheusNatsExporterImageUrl"]
    case ReloaderImage => ["global", "natsServerConfigReloaderImageUrl"]
  }

  /** The dotted key. */
  function Dotted(k: OverrideKey): string {
    Join(Path(k))
  }

  predicate Dotless(t: string) {
    '.' !in t
  }

  lemma ShortTokensDotless()
    ensures Dotless("istio") && Dotless("enabled") && Dotless("auth") && Dotless("cluster") && Dotless("replicas")
    ensures Dotless("nats") && Dotless("jetstream") && Dotless("global") && Dotless("size") && Dotless("logging")
    ensures Dotless("debug") && Dotless("trace") && Dotless("requests") && Dotless("limits") && Dotless("cpu")
    ensures Dotless("memory")
  {
  }

  lemma LongTokensDotless()
    ensures Dotless("rotatePassword") && Dotless("fileStorage") && Dotless("storageClassName")
    ensures Dotless("memStorage") && Dotless("commonLabels") && Dotless("commonAnnotations")
    ensures Dotless("resources") && Dotless("natsImageUrl")
  {
  }

  lemma ImageTokensDotless()
    ensures Dotless("prometheusNatsExporterImageUrl") && Dotless("natsServerConfigReloaderImageUrl")
  {
  }

  lemma TokensDotless(k: OverrideKey)
    ensures forall t :: t in Path(k) ==> Dotless(t)
  {
    ShortTokensDotless();
    LongTokensDotless();
    ImageTokensDotless();
  }

  function Mark(t: string): (int, char) {
    if t == "" then (0, ' ') else (|t|, t[0])
  }

  /** No key constant's tokens are a prefix of another's. */
  lemma PathsPrefixFree(a: OverrideKey, b: OverrideKey)
    requires Path(a) <= Path(b)
    ensures a == b
  {
    var p, q := Path(a), Path(b);
    assert p[0] == q[0] && Mark(p[0]) == Mark(q[0]);
    assert |p| > 1 ==> p[1] == q[1] && Mark(p[1]) == Mark(q[1]);
    assert |p| > 2 ==> p[2] == q[2] && Mark(p[2]) == Mark(q[2]);
    assert |p| > 3 ==> p[3] == q[3] && Mark(p[3]) == Mark(q[3]);
  }

  lemma SplitDotted(k: OverrideKey)
    ensures Split(Dotted(k)) == Path(k)
  {
    TokensDotless(k);
    assert forall t :: t in Path(k) ==> Dotless(t);
    SplitJoin(Path(k));
  }

  lemma DottedInjective(a: OverrideKey, b: OverrideKey)
    requires Dotted(a) == Dotted(b)
    ensures a == b
  {
    SplitDotted(a);
    SplitDotted(b);
    PathsPrefixFree(a, b);
  }

  type Assignments = map<OverrideKey, Tree>

  /** The configuration with the dotted keys spelled out. */
  function Keyed(m: Assignments): (c: Config)
    ensures forall k :: k in m ==> Dotted(k) in c && c[Dotted(k)] == m[k]
    ensures forall s :: s in c ==> exists k :: k in m && s == Dotted(k)
  {
    assert forall a, b :: a in m && b in m && Dotted(a) == Dotted(b) ==> m[a] == m[b] by {
      forall a, b | a in m && b in m && Dotted(a) == Dotted(b) ensures m[a] == m[b] {
        DottedInjective(a, b);
      }
    }
    map k | k in m :: Dotted(k) := m[k]
  }

  function StringMap(m: map<string, string>): Tree {
    Node(map k | k in m :: Leaf(Str(m[k])))
  }

  /**
   * The effective file storage size: a supplied one is kept or refused, a missing one is defaulted,
   * and nothing below the minimum passes on alicloud.
   */
  function ResolveFileStorageSize(requested: nat, cloudProvider: string): (r: Reply<nat>)
    ensures r.Err? <==> cloudProvider == ALICLOUD && 0 < requested < MIN_FILE_SIZE_ALICLOUD
    ensures r.Got? ==> r.value > 0 && (requested > 0 ==> r.value == requested)
    ensures r.Got? && cloudProvider == ALICLOUD ==> r.value >= MIN_FILE_SIZE_ALICLOUD
    ensures requested == 0 ==>
              r == Got(if cloudProvider == "alicloud" then 20 * 1024 * 1024 * 1024 else 1024 * 1024 * 1024)
  {
    var isAlicloud := cloudProvider == ALICLOUD;
    if requested == 0 then
      Got(if isAlicloud then DEFAULT_FILE_SIZE_ALICLOUD else DEFAULT_FILE_SIZE)
    else if isAlicloud && requested < MIN_FILE_SIZE_ALICLOUD then
      var refused: Reply<nat> := Err(Error(Failure, "below minimum"));
      refused
    else
      Got(requested)
  }

  const NO_IMAGES := Images("", "", "")

  /** What each key is set to, if at all. */
  function Wanted(k: OverrideKey, spec: Spec, istio: bool, rotate: bool, fileSize: nat, images: Images): Option<Tree> {
    match k
    case IstioEnabled => Some(Leaf(Bool(istio)))
    case RotatePassword => Some(Leaf(Bool(rotate)))
    case ClusterEnabled => Some(Leaf(Bool(spec.clusterSize >= MIN_CLUSTER_SIZE)))
    case ClusterSize => Some(Leaf(Int(spec.clusterSize)))
    case FileStorageClass => WhenSet(spec.storageClassName)
    case FileStorageSize => Some(Leaf(Quantity(fileSize)))
    case MemStorageEnabled => Some(Leaf(Bool(spec.memEnabled)))
    case MemStorageSize => if spec.memEnabled then Some(Leaf(Quantity(spec.memSize))) else None
    case DebugEnabled => Some(Leaf(Bool(spec.debug)))
    case TraceEnabled => Some(Leaf(Bool(spec.trace)))
    case CommonLabels => if spec.labels != map[] then Some(StringMap(spec.labels)) else None
    case CommonAnnotations => if spec.annotations != map[] then Some(StringMap(spec.annotations)) else None
    case RequestsCpu => Some(Leaf(Quantity(spec.requestsCpu)))
    case RequestsMemory => Some(Leaf(Quantity(spec.requestsMemory)))
    case LimitsCpu => Some(Leaf(Quantity(spec.limitsCpu)))
    case LimitsMemory => Some(Leaf(Quantity(spec.limitsMemory)))
    case NatsImage => WhenSet(images.nats)
    case ExporterImage => WhenSet(images.exporter)
    case ReloaderImage => WhenSet(images.reloader)
  }

  function WhenSet(s: string): Option<Tree> {
    if s != "" then Some(Leaf(Str(s))) else None
  }

  ghost predicate Assigned(m: Assignments, spec: Spec, istio: bool, rotate: bool, fileSize: nat, images: Images) {
    forall k :: Lookup(m, k) == Wanted(k, spec, istio, rotate, fileSize, images)
  }

  function Lookup(m: Assignments, k: OverrideKey): Option<Tree> {
    if k in m then Some(m[k]) else None
  }

  /** The overrides a spec asks for. */
  ghost function Chosen(spec: Spec, istio: bool, rotate: bool, fileSize: nat, images: Images): (m: Assignments)
    ensures Assigned(m, spec, istio, rotate, fileSize, images)
  {
    map k: OverrideKey | Wanted(k, spec, istio, rotate, fileSize, images).Some? :: Wanted(k, spec, istio, rotate, fileSize, images).value
  }

  predicate IsStorage(k: OverrideKey) {
    k.FileStorageClass? || k.FileStorageSize? || k.MemStorageEnabled? || k.MemStorageSize?
  }

  predicate IsRuntime(k: OverrideKey) {
    k.DebugEnabled? || k.TraceEnabled? || k.RequestsCpu? || k.RequestsMemory? || k.LimitsCpu? || k.LimitsMemory?
  }

  predicate IsCommon(k: OverrideKey) {
    k.CommonLabels? || k.CommonAnnotations? || k.NatsImage? || k.ExporterImage? || k.ReloaderImage?
  }

  predicate IsBasic(k: OverrideKey) {
    k.IstioEnabled? || k.RotatePassword? || k.ClusterEnabled? || k.ClusterSize?
  }

  /** Istio, password rotation and clustering. */
  method AssignBasic(spec: Spec, istioEnabled: bool, rotatePassword: bool) returns (m: Assignments)
    ensures forall k :: Lookup(m, k) == if IsBasic(k) then Wanted(k, spec, istioEnabled, rotatePassword, 0, NO_IMAGES) else None
  {
    m := map[IstioEnabled := Leaf(Bool(istioEnabled)), RotatePassword := Leaf(Bool(rotatePassword))];
    m := m[ClusterSize := Leaf(Int(spec.clusterSize))];
    m := m[ClusterEnabled := Leaf(Bool(true))];
    if spec.clusterSize < MIN_CLUSTER_SIZE {
      m := m[ClusterEnabled := Leaf(Bool(false))];
    }
  }

  /** File and memory storage. */
  method AssignStorage(overrides: Assignments, spec: Spec, fileSize: nat) returns (m: Assignments)
    requires forall k :: IsStorage(k) ==> Lookup(overrides, k).None?
    ensures forall k :: if IsStorage(k) then Lookup(m, k) == Wanted(k, spec, false, false, fileSize, NO_IMAGES)
                        else Lookup(m, k) == Lookup(overrides, k)
  {
    m := overrides[FileStorageSize := Leaf(Quantity(fileSize))];
    if spec.storageClassName != "" {
      m := m[FileStorageClass := Leaf(Str(spec.storageClassName))];
    }
    m := m[MemStorageEnabled := Leaf(Bool(spec.memEnabled))];
    if spec.memEnabled {
      m := m[MemStorageSize := Leaf(Quantity(spec.memSize))];
    }
  }

  /** Logging, tracing and resources; the resource accessors never return nil. */
  method AssignRuntime(overrides: Assignments, spec: Spec) returns (m: Assignments)
    ensures forall k :: if IsRuntime(k) then Lookup(m, k) == Wanted(k, spec, false, false, 0, NO_IMAGES)
                        else Lookup(m, k) == Lookup(overrides, k)
  {
    m := overrides[DebugEnabled := Leaf(Bool(spec.debug))];
    m := m[TraceEnabled := Leaf(Bool(spec.trace))];
    m := m[RequestsCpu := Leaf(Quantity(spec.requestsCpu))];
    m := m[RequestsMemory := Leaf(Quantity(spec.requestsMemory))];
    m := m[LimitsCpu := Leaf(Quantity(spec.limitsCpu))];
    m := m[LimitsMemory := Leaf(Quantity(spec.limitsMemory))];
  }

  /** Common labels and annotations, and the container images. */
  method AssignCommon(overrides: Assignments, spec: Spec, images: Images) returns (m: Assignments)
    requires forall k :: IsCommon(k) ==> Lookup(overrides, k).None?
    ensures forall k :: if IsCommon(k) then Lookup(m, k) == Wanted(k, spec, false, false, 0, images)
                        else Lookup(m, k) == Lookup(overrides, k)
  {
    hide StringMap;
    m := overrides;
    if spec.labels != map[] {
      m := m[CommonLabels := StringMap(spec.labels)];
    }
    if spec.annotations != map[] {
      m := m[CommonAnnotations := StringMap(spec.annotations)];
    }
    if images.nats != "" {
      m := m[NatsImage := Leaf(Str(images.nats))];
    }
    if images.exporter != "" {
      m := m[ExporterImage := Leaf(Str(images.exporter))];
    }
    if images.reloader != "" {
      m := m[ReloaderImage := Leaf(Str(images.reloader))];
    }
  }

  /** The four groups cover all keys, overlap nowhere, and each depends on its own inputs. */
  lemma WantedInParts(spec: Spec, istio: bool, rotate: bool, fileSize: nat, images: Images)
    ensures forall k :: (IsBasic(k) || IsStorage(k) || IsRuntime(k) || IsCommon(k)) &&
                        (IsStorage(k) ==> !IsBasic(k)) && (IsRuntime(k) ==> !IsBasic(k) && !IsStorage(k)) &&
                        (IsCommon(k) ==> !IsBasic(k) && !IsStorage(k) && !IsRuntime(k))
    ensures forall k :: IsBasic(k) ==> Wanted(k, spec, istio, rotate, fileSize, images) == Wanted(k, spec, istio, rotate, 0, NO_IMAGES)
    ensures forall k :: IsStorage(k) ==> Wanted(k, spec, istio, rotate, fileSize, images) == Wanted(k, spec, false, false, fileSize, NO_IMAGES)
    ensures forall k :: IsRuntime(k) ==> Wanted(k, spec, istio, rotate, fileSize, images) == Wanted(k, spec, false, false, 0, NO_IMAGES)
    ensures forall k :: IsCommon(k) ==> Wanted(k, spec, istio, rotate, fileSize, images) == Wanted(k, spec, false, false, 0, images)
  {
  }

  method AssignOverrides(spec: Spec, istioEnabled: bool, rotatePassword: bool, cloudProvider: string, images: Images)
    returns (r: Reply<Assignments>)
    ensures var size := ResolveFileStorageSize(spec.fileStorageSize, cloudProvider);
            if size.Err? then r == Err(size.error)
            else r.Got? && Assigned(r.value, spec, istioEnabled, rotatePassword, size.value, images)
  {
    var size := ResolveFileStorageSize(spec.fileStorageSize, cloudProvider);
    if size.Err? {
      return Err(size.error);
    }
    WantedInParts(spec, istioEnabled, rotatePassword, size.value, images);
    hide Wanted, IsBasic, IsStorage, IsRuntime, IsCommon;
    var overrides := AssignBasic(spec, istioEnabled, rotatePassword);
    overrides := AssignStorage(overrides, spec, size.value);
    overrides := AssignRuntime(overrides, spec);
    overrides := AssignCommon(overrides, spec, images);
    return Got(overrides);
  }

  // ---- Properties ----

  /** Every key set the overrides can have is prefix-free. */
  lemma KeyedPrefixFree(m: Assignments)
    ensures PrefixFree(Keyed(m).Keys)
  {
    var c := Keyed(m);
    forall s, t | s in c.Keys && t in c.Keys && Split(s) <= Split(t) ensures s == t {
      var a :| a in m && s == Dotted(a);
      var b :| b in m && t == Dotted(b);
      SplitDotted(a);
      SplitDotted(b);
      PathsPrefixFree(a, b);
    }
  }

  /** Whatever was rendered before, the merged values hold each chosen override at its path. */
  lemma OverrideWins(before: Tree, expanded: Tree, m: Assignments, k: OverrideKey, q: seq<string>)
    requires IsExpansion(expanded, Keyed(m)) && k in m && !ViewAt(m[k], q).Absent?
    ensures ViewAt(Merge(before, expanded), Path(k) + q) == ViewAt(m[k], q)
  {
    KeyedPrefixFree(m);
    SplitDotted(k);
    ConfiguredValueWins(before, expanded, Keyed(m), Dotted(k), q);
  }

  /** The values hold every assigned scalar at its path. */
  ghost predicate Holds(values: Tree, m: Assignments) {
    forall k :: k in m && m[k].Leaf? ==> ViewAt(values, Path(k)) == Value(m[k].value)
  }

  /** After a render, the values hold every assigned scalar, whatever was rendered before. */
  lemma RenderHolds(before: Tree, expanded: Tree, m: Assignments)
    requires IsExpansion(expanded, Keyed(m))
    ensures Holds(Merge(before, expanded), m)
  {
    forall k | k in m && m[k].Leaf? ensures ViewAt(Merge(before, expanded), Path(k)) == Value(m[k].value) {
      OverrideWins(before, expanded, m, k, []);
      var p := Path(k);
      assert p + [] == p;
    }
  }

  /** An unassigned override leaves its path, and everything below it, as earlier renders left them. */
  lemma UnassignedKept(expanded: Tree, m: Assignments, k: OverrideKey, q: seq<string>)
    requires IsExpansion(expanded, Keyed(m)) && k !in m
    ensures ViewAt(expanded, Path(k) + q).Absent?
  {
    hide ViewAt, Split, Path, Join;
    var c := Keyed(m);
    var p := Path(k) + q;
    forall s | s in c ensures !(Split(s) <= p) && !(p <= Split(s)) {
      var a :| a in m && s == Dotted(a);
      SplitDotted(a);
      if Split(s) <= p {
        assert Path(k) <= p;
        PrefixesCompare(Path(a), Path(k), p);
        if Path(a) <= Path(k) {
          PathsPrefixFree(a, k);
        } else {
          PathsPrefixFree(k, a);
        }
      } else if p <= Split(s) {
        PrefixTransitive(Path(k), p, Path(a));
        PathsPrefixFree(k, a);
      }
    }
    assert p != [];
    assert ViewAt(expanded, p) == ConfigView(c, p);
  }

  // ---- Admission of spec.cluster.size ----

  /** The schema rules on a value of `spec.cluster.size`. */
  predicate ValidSize(size: int) {
    size >= 1 && size % 2 != 0
  }

  /** The transition rule on an update of it. */
  predicate AdmittedUpdate(oldSize: int, newSize: int) {
    ValidSize(newSize) && !(oldSize > 1 && newSize == 1)
  }

  /** The template's replica count. */
  function Replicas(enabled: View, replicas: View): View {
    if enabled == Value(Bool(true)) then replicas else Value(Int(1))
  }

  ghost predicate AdmittedHistory(sizes: seq<int>) {
    && (forall i :: 0 <= i < |sizes| ==> ValidSize(sizes[i]))
    && (forall i :: 0 < i < |sizes| ==> AdmittedUpdate(sizes[i - 1], sizes[i]))
  }

  /** Over any admitted history cluster mode, once on, stays on. */
  lemma {:induction false} ClusterModeMonotone(sizes: seq<int>, i: nat, j: nat)
    requires AdmittedHistory(sizes) && i <= j < |sizes|
    ensures sizes[i] >= MIN_CLUSTER_SIZE ==> sizes[j] >= MIN_CLUSTER_SIZE
    decreases j - i
  {
    if i < j {
      ClusterModeMonotone(sizes, i, j - 1);
      assert AdmittedUpdate(sizes[j - 1], sizes[j]) && ValidSize(sizes[j]);
    }
  }

  /** The rendered replica count is the size in the spec, and the password is rotated only on demand. */
  lemma ReplicasFollowSpec(values: Tree, m: Assignments, spec: Spec, istio: bool, rotate: bool, fileSize: nat, images: Images)
    requires ValidSize(spec.clusterSize)
    requires Assigned(m, spec, istio, rotate, fileSize, images) && Holds(values, m)
    ensures Replicas(ViewAt(values, Path(ClusterEnabled)), ViewAt(values, Path(ClusterSize))) == Value(Int(spec.clusterSize))
    ensures ViewAt(values, Path(RotatePassword)) == Value(Bool(rotate))
  {
    assert Lookup(m, ClusterEnabled).Some? && Lookup(m, ClusterSize).Some? && Lookup(m, RotatePassword).Some?;
  }
}
