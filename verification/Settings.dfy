/** The configuration made from a spec, dotted key by dotted key, and what the rendered values hold at each path. */
module Settings {
  import opened Wrappers
  import opened Values
  import opened Chart
  import opened Overrides

  // ---- The table ----

  /** What a configuration holds under a dotted key, if anything. */
  predicate At(c: Config, key: string, t: Option<Tree>) {
    match t case None => key !in c case Some(v) => key in c && c[key] == v
  }

  function FlatMap(m: map<string, string>): Option<Tree> {
    if |m| == 0 then None else Some(Node(map name | name in m :: Leaf(Str(m[name]))))
  }

  predicate SetsIstioEnabled(c: Config, istio: bool) {
    At(c, "istio.enabled", Some(Leaf(Bool(istio))))
  }

  predicate SetsRotatePassword(c: Config, rotate: bool) {
    At(c, "auth.rotatePassword", Some(Leaf(Bool(rotate))))
  }

  predicate SetsClusterEnabled(c: Config, spec: Spec) {
    At(c, "cluster.enabled", Some(Leaf(Bool(spec.clusterSize >= 3))))
  }

  predicate SetsClusterSize(c: Config, spec: Spec) {
    At(c, "cluster.replicas", Some(Leaf(Int(spec.clusterSize))))
  }

  predicate SetsFileStorageSize(c: Config, fileSize: nat) {
    At(c, "global.jetstream.fileStorage.size", Some(Leaf(Quantity(fileSize))))
  }

  predicate SetsFileStorageClass(c: Config, spec: Spec) {
    At(c, "nats.jetstream.fileStorage.storageClassName", if spec.storageClassName == "" then None else Some(Leaf(Str(spec.storageClassName))))
  }

  predicate SetsMemStorageEnabled(c: Config, spec: Spec) {
    At(c, "nats.jetstream.memStorage.enabled", Some(Leaf(Bool(spec.memEnabled))))
  }

  predicate SetsMemStorageSize(c: Config, spec: Spec) {
    At(c, "nats.jetstream.memStorage.size", if spec.memEnabled then Some(Leaf(Quantity(spec.memSize))) else None)
  }

  predicate SetsDebugEnabled(c: Config, spec: Spec) {
    At(c, "nats.logging.debug", Some(Leaf(Bool(spec.debug))))
  }

  predicate SetsTraceEnabled(c: Config, spec: Spec) {
    At(c, "nats.logging.trace", Some(Leaf(Bool(spec.trace))))
  }

  predicate SetsRequestsCpu(c: Config, spec: Spec) {
    At(c, "nats.resources.requests.cpu", Some(Leaf(Quantity(spec.requestsCpu))))
  }

  predicate SetsRequestsMemory(c: Config, spec: Spec) {
    At(c, "nats.resources.requests.memory", Some(Leaf(Quantity(spec.requestsMemory))))
  }

  predicate SetsLimitsCpu(c: Config, spec: Spec) {
    At(c, "nats.resources.limits.cpu", Some(Leaf(Quantity(spec.limitsCpu))))
  }

  predicate SetsLimitsMemory(c: Config, spec: Spec) {
    At(c, "nats.resources.limits.memory", Some(Leaf(Quantity(spec.limitsMemory))))
  }

  predicate SetsCommonLabels(c: Config, spec: Spec) {
    At(c, "commonLabels", FlatMap(spec.labels))
  }

  predicate SetsCommonAnnotations(c: Config, spec: Spec) {
    At(c, "commonAnnotations", FlatMap(spec.annotations))
  }

  predicate SetsNatsImage(c: Config, images: Images) {
    At(c, "global.natsImageUrl", if images.nats == "" then None else Some(Leaf(Str(images.nats))))
  }

  predicate SetsExporterImage(c: Config, images: Images) {
    At(c, "global.prometheusNatsExporterImageUrl", if images.exporter == "" then None else Some(Leaf(Str(images.exporter))))
  }

  predicate SetsReloaderImage(c: Config, images: Images) {
    At(c, "global.natsServerConfigReloaderImageUrl", if images.reloader == "" then None else Some(Leaf(Str(images.reloader))))
  }

  /** Every dotted key with what it is set to, or that it is absent. */
  predicate Configured(c: Config, spec: Spec, istio: bool, rotate: bool, fileSize: nat, images: Images) {
    && SetsIstioEnabled(c, istio)
    && SetsRotatePassword(c, rotate)
    && SetsClusterEnabled(c, spec)
    && SetsClusterSize(c, spec)
    && SetsFileStorageSize(c, fileSize)
    && SetsFileStorageClass(c, spec)
    && SetsMemStorageEnabled(c, spec)
    && SetsMemStorageSize(c, spec)
    && SetsDebugEnabled(c, spec)
    && SetsTraceEnabled(c, spec)
    && SetsRequestsCpu(c, spec)
    && SetsRequestsMemory(c, spec)
    && SetsLimitsCpu(c, spec)
    && SetsLimitsMemory(c, spec)
    && SetsCommonLabels(c, spec)
    && SetsCommonAnnotations(c, spec)
    && SetsNatsImage(c, images)
    && SetsExporterImage(c, images)
    && SetsReloaderImage(c, images)
  }

  /** The file size a spec ends up with, unless it is refused. */
  function FileSize(requested: nat, cloudProvider: string): nat {
    if requested != 0 then requested
    else if cloudProvider == "alicloud" then 20 * 1024 * 1024 * 1024 else 1024 * 1024 * 1024
  }

  predicate Refused(requested: nat, cloudProvider: string) {
    cloudProvider == "alicloud" && 0 < requested < 20 * 1024 * 1024 * 1024
  }

  method GenerateOverrides(spec: Spec, istioEnabled: bool, rotatePassword: bool, cloudProvider: string, images: Images)
    returns (r: Reply<Config>)
    ensures r.Err? <==> Refused(spec.fileStorageSize, cloudProvider)
    ensures r.Got? ==>
              Configured(r.value, spec, istioEnabled, rotatePassword, FileSize(spec.fileStorageSize, cloudProvider), images)
    ensures var size := ResolveFileStorageSize(spec.fileStorageSize, cloudProvider);
            r == if size.Err? then Err(size.error)
                 else Got(Keyed(Chosen(spec, istioEnabled, rotatePassword, size.value, images)))
  {
    hide Configured, Chosen, Keyed;
    var overrides := AssignOverrides(spec, istioEnabled, rotatePassword, cloudProvider, images);
    if overrides.Err? {
      r := Err(overrides.error);
    } else {
      ghost var size := ResolveFileStorageSize(spec.fileStorageSize, cloudProvider).value;
      SameLookups(overrides.value, Chosen(spec, istioEnabled, rotatePassword, size, images));
      r := Got(Keyed(overrides.value));
      ChosenConfigured(spec, istioEnabled, rotatePassword, size, images);
    }
  }

  lemma SameLookups(a: Assignments, b: Assignments)
    requires forall k :: Lookup(a, k) == Lookup(b, k)
    ensures a == b
  {
    forall k ensures k in a <==> k in b {
      assert Lookup(a, k) == Lookup(b, k);
    }
    forall k | k in a ensures a[k] == b[k] {
      assert Lookup(a, k) == Lookup(b, k);
    }
  }

  // ---- The keys, spelled out ----

  lemma JoinOne(a: string)
    ensures Join([a]) == a
  {
  }

  lemma JoinTwo(a: string, b: string)
    ensures Join([a, b]) == a + "." + b
  {
    assert [a, b][1..] == [b];
  }

  lemma JoinThree(a: string, b: string, c: string)
    ensures Join([a, b, c]) == a + "." + (b + "." + c)
  {
    assert [a, b, c][1..] == [b, c];
    JoinTwo(b, c);
  }

  lemma JoinFour(a: string, b: string, c: string, d: string)
    ensures Join([a, b, c, d]) == a + "." + (b + "." + (c + "." + d))
  {
    assert [a, b, c, d][1..] == [b, c, d];
    JoinThree(b, c, d);
  }

  lemma IstioEnabledSpelled()
    ensures Dotted(IstioEnabled) == "istio.enabled"
  {
    hide Join;
    JoinTwo("istio", "enabled");
  }

  lemma RotatePasswordSpelled()
    ensures Dotted(RotatePassword) == "auth.rotatePassword"
  {
    hide Join;
    JoinTwo("auth", "rotatePassword");
  }

  lemma ClusterEnabledSpelled()
    ensures Dotted(ClusterEnabled) == "cluster.enabled"
  {
    hide Join;
    JoinTwo("cluster", "enabled");
  }

  lemma ClusterSizeSpelled()
    ensures Dotted(ClusterSize) == "cluster.replicas"
  {
    hide Join;
    JoinTwo("cluster", "replicas");
  }

  lemma FileStorageSizeSpelled()
    ensures Dotted(FileStorageSize) == "global.jetstream.fileStorage.size"
  {
    hide Join;
    JoinFour("global", "jetstream", "fileStorage", "size");
  }

  lemma FileStorageClassSpelled()
    ensures Dotted(FileStorageClass) == "nats.jetstream.fileStorage.storageClassName"
  {
    hide Join;
    JoinFour("nats", "jetstream", "fileStorage", "storageClassName");
    StorageClassHead();
    StorageClassTail();
    StorageClassWhole();
    assert "nats" + "." + ("jetstream" + "." + ("fileStorage" + "." + "storageClassName")) ==
           "nats" + "." + ("jetstream" + ".") + ("fileStorage" + "." + "storageClassName");
  }

  lemma StorageClassHead()
    ensures "nats" + "." + ("jetstream" + ".") == "nats.jetstream."
  {
  }

  lemma StorageClassTail()
    ensures "fileStorage" + "." + "storageClassName" == "fileStorage.storageClassName"
  {
  }

  const STORAGE_CLASS_KEY := "nats.jetstream.fileStorage.storageClassName"

  lemma StorageClassFront()
    ensures |STORAGE_CLASS_KEY| == 43 && STORAGE_CLASS_KEY[..15] == "nats.jetstream."
  {
  }

  lemma StorageClassBack()
    ensures |STORAGE_CLASS_KEY| == 43 && STORAGE_CLASS_KEY[15..] == "fileStorage.storageClassName"
  {
  }

  lemma Halves(s: string, a: string, b: string, i: nat)
    requires i <= |s| && s[..i] == a && s[i..] == b
    ensures a + b == s
  {
  }

  lemma StorageClassWhole()
    ensures "nats.jetstream." + "fileStorage.storageClassName" == "nats.jetstream.fileStorage.storageClassName"
  {
    StorageClassFront();
    StorageClassBack();
    Halves(STORAGE_CLASS_KEY, "nats.jetstream.", "fileStorage.storageClassName", 15);
  }

  lemma MemStorageEnabledSpelled()
    ensures Dotted(MemStorageEnabled) == "nats.jetstream.memStorage.enabled"
  {
    hide Join;
    JoinFour("nats", "jetstream", "memStorage", "enabled");
  }

  lemma MemStorageSizeSpelled()
    ensures Dotted(MemStorageSize) == "nats.jetstream.memStorage.size"
  {
    hide Join;
    JoinFour("nats", "jetstream", "memStorage", "size");
  }

  lemma DebugEnabledSpelled()
    ensures Dotted(DebugEnabled) == "nats.logging.debug"
  {
    hide Join;
    JoinThree("nats", "logging", "debug");
  }

  lemma TraceEnabledSpelled()
    ensures Dotted(TraceEnabled) == "nats.logging.trace"
  {
    hide Join;
    JoinThree("nats", "logging", "trace");
  }

  lemma RequestsCpuSpelled()
    ensures Dotted(RequestsCpu) == "nats.resources.requests.cpu"
  {
    hide Join;
    JoinFour("nats", "resources", "requests", "cpu");
  }

  lemma RequestsMemorySpelled()
    ensures Dotted(RequestsMemory) == "nats.resources.requests.memory"
  {
    hide Join;
    JoinFour("nats", "resources", "requests", "memory");
  }

  lemma LimitsCpuSpelled()
    ensures Dotted(LimitsCpu) == "nats.resources.limits.cpu"
  {
    hide Join;
    JoinFour("nats", "resources", "limits", "cpu");
  }

  lemma LimitsMemorySpelled()
    ensures Dotted(LimitsMemory) == "nats.resources.limits.memory"
  {
    hide Join;
    JoinFour("nats", "resources", "limits", "memory");
  }

  lemma CommonLabelsSpelled()
    ensures Dotted(CommonLabels) == "commonLabels"
  {
    hide Join;
    JoinOne("commonLabels");
  }

  lemma CommonAnnotationsSpelled()
    ensures Dotted(CommonAnnotations) == "commonAnnotations"
  {
    hide Join;
    JoinOne("commonAnnotations");
  }

  lemma NatsImageSpelled()
    ensures Dotted(NatsImage) == "global.natsImageUrl"
  {
    hide Join;
    JoinTwo("global", "natsImageUrl");
  }

  lemma ExporterImageSpelled()
    ensures Dotted(ExporterImage) == "global.prometheusNatsExporterImageUrl"
  {
    hide Join;
    JoinTwo("global", "prometheusNatsExporterImageUrl");
  }

  lemma ReloaderImageSpelled()
    ensures Dotted(ReloaderImage) == "global.natsServerConfigReloaderImageUrl"
  {
    hide Join;
    JoinTwo("global", "natsServerConfigReloaderImageUrl");
  }

  // ---- The overrides of a spec fill the table ----

  lemma KeyedAt(m: Assignments, k: OverrideKey)
    ensures At(Keyed(m), Dotted(k), Lookup(m, k))
  {
    hide Dotted;
    if k !in m && Dotted(k) in Keyed(m) {
      var j :| j in m && Dotted(k) == Dotted(j);
      DottedInjective(j, k);
    }
  }

  lemma IstioEnabledSet(m: Assignments, istio: bool)
    requires Lookup(m, IstioEnabled) == Some(Leaf(Bool(istio)))
    ensures SetsIstioEnabled(Keyed(m), istio)
  {
    hide Dotted, Keyed, At;
    IstioEnabledSpelled();
    KeyedAt(m, IstioEnabled);
  }

  lemma RotatePasswordSet(m: Assignments, rotate: bool)
    requires Lookup(m, RotatePassword) == Some(Leaf(Bool(rotate)))
    ensures SetsRotatePassword(Keyed(m), rotate)
  {
    hide Dotted, Keyed, At;
    RotatePasswordSpelled();
    KeyedAt(m, RotatePassword);
  }

  lemma ClusterEnabledSet(m: Assignments, spec: Spec)
    requires Lookup(m, ClusterEnabled) == Some(Leaf(Bool(spec.clusterSize >= 3)))
    ensures SetsClusterEnabled(Keyed(m), spec)
  {
    hide Dotted, Keyed, At;
    ClusterEnabledSpelled();
    KeyedAt(m, ClusterEnabled);
  }

  lemma ClusterSizeSet(m: Assignments, spec: Spec)
    requires Lookup(m, ClusterSize) == Some(Leaf(Int(spec.clusterSize)))
    ensures SetsClusterSize(Keyed(m), spec)
  {
    hide Dotted, Keyed, At;
    ClusterSizeSpelled();
    KeyedAt(m, ClusterSize);
  }

  lemma FileStorageSizeSet(m: Assignments, fileSize: nat)
    requires Lookup(m, FileStorageSize) == Some(Leaf(Quantity(fileSize)))
    ensures SetsFileStorageSize(Keyed(m), fileSize)
  {
    hide Dotted, Keyed, At;
    FileStorageSizeSpelled();
    KeyedAt(m, FileStorageSize);
  }

  lemma FileStorageClassSet(m: Assignments, spec: Spec)
    requires Lookup(m, FileStorageClass) == if spec.storageClassName == "" then None else Some(Leaf(Str(spec.storageClassName)))
    ensures SetsFileStorageClass(Keyed(m), spec)
  {
    hide Dotted, Keyed, At;
    FileStorageClassSpelled();
    KeyedAt(m, FileStorageClass);
  }

  lemma MemStorageEnabledSet(m: Assignments, spec: Spec)
    requires Lookup(m, MemStorageEnabled) == Some(Leaf(Bool(spec.memEnabled)))
    ensures SetsMemStorageEnabled(Keyed(m), spec)
  {
    hide Dotted, Keyed, At;
    MemStorageEnabledSpelled();
    KeyedAt(m, MemStorageEnabled);
  }

  lemma MemStorageSizeSet(m: Assignments, spec: Spec)
    requires Lookup(m, MemStorageSize) == if spec.memEnabled then Some(Leaf(Quantity(spec.memSize))) else None
    ensures SetsMemStorageSize(Keyed(m), spec)
  {
    hide Dotted, Keyed, At;
    MemStorageSizeSpelled();
    KeyedAt(m, MemStorageSize);
  }

  lemma DebugEnabledSet(m: Assignments, spec: Spec)
    requires Lookup(m, DebugEnabled) == Some(Leaf(Bool(spec.debug)))
    ensures SetsDebugEnabled(Keyed(m), spec)
  {
    hide Dotted, Keyed, At;
    DebugEnabledSpelled();
    KeyedAt(m, DebugEnabled);
  }

  lemma TraceEnabledSet(m: Assignments, spec: Spec)
    requires Lookup(m, TraceEnabled) == Some(Leaf(Bool(spec.trace)))
    ensures SetsTraceEnabled(Keyed(m), spec)
  {
    hide Dotted, Keyed, At;
    TraceEnabledSpelled();
    KeyedAt(m, TraceEnabled);
  }

  lemma RequestsCpuSet(m: Assignments, spec: Spec)
    requires Lookup(m, RequestsCpu) == Some(Leaf(Quantity(spec.requestsCpu)))
    ensures SetsRequestsCpu(Keyed(m), spec)
  {
    hide Dotted, Keyed, At;
    RequestsCpuSpelled();
    KeyedAt(m, RequestsCpu);
  }

  lemma RequestsMemorySet(m: Assignments, spec: Spec)
    requires Lookup(m, RequestsMemory) == Some(Leaf(Quantity(spec.requestsMemory)))
    ensures SetsRequestsMemory(Keyed(m), spec)
  {
    hide Dotted, Keyed, At;
    RequestsMemorySpelled();
    KeyedAt(m, RequestsMemory);
  }

  lemma LimitsCpuSet(m: Assignments, spec: Spec)
    requires Lookup(m, LimitsCpu) == Some(Leaf(Quantity(spec.limitsCpu)))
    ensures SetsLimitsCpu(Keyed(m), spec)
  {
    hide Dotted, Keyed, At;
    LimitsCpuSpelled();
    KeyedAt(m, LimitsCpu);
  }

  lemma LimitsMemorySet(m: Assignments, spec: Spec)
    requires Lookup(m, LimitsMemory) == Some(Leaf(Quantity(spec.limitsMemory)))
    ensures SetsLimitsMemory(Keyed(m), spec)
  {
    hide Dotted, Keyed, At;
    LimitsMemorySpelled();
    KeyedAt(m, LimitsMemory);
  }

  lemma CommonLabelsSet(m: Assignments, spec: Spec)
    requires Lookup(m, CommonLabels) == FlatMap(spec.labels)
    ensures SetsCommonLabels(Keyed(m), spec)
  {
    hide Dotted, Keyed, At;
    CommonLabelsSpelled();
    KeyedAt(m, CommonLabels);
  }

  lemma CommonAnnotationsSet(m: Assignments, spec: Spec)
    requires Lookup(m, CommonAnnotations) == FlatMap(spec.annotations)
    ensures SetsCommonAnnotations(Keyed(m), spec)
  {
    hide Dotted, Keyed, At;
    CommonAnnotationsSpelled();
    KeyedAt(m, CommonAnnotations);
  }

  lemma NatsImageSet(m: Assignments, images: Images)
    requires Lookup(m, NatsImage) == if images.nats == "" then None else Some(Leaf(Str(images.nats)))
    ensures SetsNatsImage(Keyed(m), images)
  {
    hide Dotted, Keyed, At;
    NatsImageSpelled();
    KeyedAt(m, NatsImage);
  }

  lemma ExporterImageSet(m: Assignments, images: Images)
    requires Lookup(m, ExporterImage) == if images.exporter == "" then None else Some(Leaf(Str(images.exporter)))
    ensures SetsExporterImage(Keyed(m), images)
  {
    hide Dotted, Keyed, At;
    ExporterImageSpelled();
    KeyedAt(m, ExporterImage);
  }

  lemma ReloaderImageSet(m: Assignments, images: Images)
    requires Lookup(m, ReloaderImage) == if images.reloader == "" then None else Some(Leaf(Str(images.reloader)))
    ensures SetsReloaderImage(Keyed(m), images)
  {
    hide Dotted, Keyed, At;
    ReloaderImageSpelled();
    KeyedAt(m, ReloaderImage);
  }

  lemma FlatMapIs(m: map<string, string>)
    ensures FlatMap(m) == if m != map[] then Some(StringMap(m)) else None
  {
    assert |m| == 0 <==> m == map[];
  }

  lemma ModesConfigured(m: Assignments, spec: Spec, istio: bool, rotate: bool, fileSize: nat, images: Images)
    requires Assigned(m, spec, istio, rotate, fileSize, images)
    ensures SetsIstioEnabled(Keyed(m), istio)
         && SetsRotatePassword(Keyed(m), rotate)
         && SetsClusterEnabled(Keyed(m), spec)
         && SetsClusterSize(Keyed(m), spec)
  {
    hide Keyed, Dotted, StringMap, FlatMap, SetsIstioEnabled, SetsRotatePassword, SetsClusterEnabled, SetsClusterSize;
    IstioEnabledSet(m, istio);
    RotatePasswordSet(m, rotate);
    ClusterEnabledSet(m, spec);
    ClusterSizeSet(m, spec);
  }

  lemma StorageConfigured(m: Assignments, spec: Spec, istio: bool, rotate: bool, fileSize: nat, images: Images)
    requires Assigned(m, spec, istio, rotate, fileSize, images)
    ensures SetsFileStorageSize(Keyed(m), fileSize)
         && SetsFileStorageClass(Keyed(m), spec)
         && SetsMemStorageEnabled(Keyed(m), spec)
         && SetsMemStorageSize(Keyed(m), spec)
  {
    hide Keyed, Dotted, StringMap, FlatMap, SetsFileStorageSize, SetsFileStorageClass, SetsMemStorageEnabled, SetsMemStorageSize;
    FileStorageSizeSet(m, fileSize);
    FileStorageClassSet(m, spec);
    MemStorageEnabledSet(m, spec);
    MemStorageSizeSet(m, spec);
  }

  lemma LoggingConfigured(m: Assignments, spec: Spec, istio: bool, rotate: bool, fileSize: nat, images: Images)
    requires Assigned(m, spec, istio, rotate, fileSize, images)
    ensures SetsDebugEnabled(Keyed(m), spec)
         && SetsTraceEnabled(Keyed(m), spec)
  {
    hide Keyed, Dotted, StringMap, FlatMap, SetsDebugEnabled, SetsTraceEnabled;
    DebugEnabledSet(m, spec);
    TraceEnabledSet(m, spec);
  }

  lemma RequestsConfigured(m: Assignments, spec: Spec, istio: bool, rotate: bool, fileSize: nat, images: Images)
    requires Assigned(m, spec, istio, rotate, fileSize, images)
    ensures SetsRequestsCpu(Keyed(m), spec)
         && SetsRequestsMemory(Keyed(m), spec)
  {
    hide Keyed, Dotted, StringMap, FlatMap, SetsRequestsCpu, SetsRequestsMemory;
    RequestsCpuSet(m, spec);
    RequestsMemorySet(m, spec);
  }

  lemma LimitsConfigured(m: Assignments, spec: Spec, istio: bool, rotate: bool, fileSize: nat, images: Images)
    requires Assigned(m, spec, istio, rotate, fileSize, images)
    ensures SetsLimitsCpu(Keyed(m), spec)
         && SetsLimitsMemory(Keyed(m), spec)
  {
    hide Keyed, Dotted, StringMap, FlatMap, SetsLimitsCpu, SetsLimitsMemory;
    LimitsCpuSet(m, spec);
    LimitsMemorySet(m, spec);
  }

  lemma MetadataConfigured(m: Assignments, spec: Spec, istio: bool, rotate: bool, fileSize: nat, images: Images)
    requires Assigned(m, spec, istio, rotate, fileSize, images)
    ensures SetsCommonLabels(Keyed(m), spec)
         && SetsCommonAnnotations(Keyed(m), spec)
  {
    hide Keyed, Dotted, StringMap, FlatMap, SetsCommonLabels, SetsCommonAnnotations;
    FlatMapIs(spec.labels);
    FlatMapIs(spec.annotations);
    CommonLabelsSet(m, spec);
    CommonAnnotationsSet(m, spec);
  }

  lemma ImageConfigured(m: Assignments, spec: Spec, istio: bool, rotate: bool, fileSize: nat, images: Images)
    requires Assigned(m, spec, istio, rotate, fileSize, images)
    ensures SetsNatsImage(Keyed(m), images)
         && SetsExporterImage(Keyed(m), images)
         && SetsReloaderImage(Keyed(m), images)
  {
    hide Keyed, Dotted, StringMap, FlatMap, SetsNatsImage, SetsExporterImage, SetsReloaderImage;
    NatsImageSet(m, images);
    ExporterImageSet(m, images);
    ReloaderImageSet(m, images);
  }

  lemma ChosenConfigured(spec: Spec, istio: bool, rotate: bool, fileSize: nat, images: Images)
    ensures Configured(Keyed(Chosen(spec, istio, rotate, fileSize, images)), spec, istio, rotate, fileSize, images)
  {
    hide Keyed, Dotted, Chosen, Assigned, SetsIstioEnabled, SetsRotatePassword, SetsClusterEnabled, SetsClusterSize,
      SetsFileStorageSize, SetsFileStorageClass, SetsMemStorageEnabled, SetsMemStorageSize, SetsDebugEnabled,
      SetsTraceEnabled, SetsRequestsCpu, SetsRequestsMemory, SetsLimitsCpu, SetsLimitsMemory, SetsCommonLabels,
      SetsCommonAnnotations, SetsNatsImage, SetsExporterImage, SetsReloaderImage;
    var m := Chosen(spec, istio, rotate, fileSize, images);
    ModesConfigured(m, spec, istio, rotate, fileSize, images);
    StorageConfigured(m, spec, istio, rotate, fileSize, images);
    LoggingConfigured(m, spec, istio, rotate, fileSize, images);
    RequestsConfigured(m, spec, istio, rotate, fileSize, images);
    LimitsConfigured(m, spec, istio, rotate, fileSize, images);
    MetadataConfigured(m, spec, istio, rotate, fileSize, images);
    ImageConfigured(m, spec, istio, rotate, fileSize, images);
  }

  // ---- The rendered values, path by path ----

  predicate ModesHeld(values: Tree, spec: Spec, istio: bool, rotate: bool, fileSize: nat, images: Images) {
    && ViewAt(values, ["istio", "enabled"]) == Value(Bool(istio))
    && ViewAt(values, ["auth", "rotatePassword"]) == Value(Bool(rotate))
    && ViewAt(values, ["cluster", "enabled"]) == Value(Bool(spec.clusterSize >= 3))
    && ViewAt(values, ["cluster", "replicas"]) == Value(Int(spec.clusterSize))
  }

  predicate StorageHeld(values: Tree, spec: Spec, istio: bool, rotate: bool, fileSize: nat, images: Images) {
    && ViewAt(values, ["global", "jetstream", "fileStorage", "size"]) == Value(Quantity(fileSize))
    && (spec.storageClassName != "" ==>
         ViewAt(values, ["nats", "jetstream", "fileStorage", "storageClassName"]) == Value(Str(spec.storageClassName)))
    && ViewAt(values, ["nats", "jetstream", "memStorage", "enabled"]) == Value(Bool(spec.memEnabled))
    && (spec.memEnabled ==> ViewAt(values, ["nats", "jetstream", "memStorage", "size"]) == Value(Quantity(spec.memSize)))
  }

  predicate LoggingHeld(values: Tree, spec: Spec, istio: bool, rotate: bool, fileSize: nat, images: Images) {
    && ViewAt(values, ["nats", "logging", "debug"]) == Value(Bool(spec.debug))
    && ViewAt(values, ["nats", "logging", "trace"]) == Value(Bool(spec.trace))
  }

  predicate RequestsHeld(values: Tree, spec: Spec, istio: bool, rotate: bool, fileSize: nat, images: Images) {
    && ViewAt(values, ["nats", "resources", "requests", "cpu"]) == Value(Quantity(spec.requestsCpu))
    && ViewAt(values, ["nats", "resources", "requests", "memory"]) == Value(Quantity(spec.requestsMemory))
  }

  predicate LimitsHeld(values: Tree, spec: Spec, istio: bool, rotate: bool, fileSize: nat, images: Images) {
    && ViewAt(values, ["nats", "resources", "limits", "cpu"]) == Value(Quantity(spec.limitsCpu))
    && ViewAt(values, ["nats", "resources", "limits", "memory"]) == Value(Quantity(spec.limitsMemory))
  }

  predicate ImagesHeld(values: Tree, spec: Spec, istio: bool, rotate: bool, fileSize: nat, images: Images) {
    && (images.nats != "" ==> ViewAt(values, ["global", "natsImageUrl"]) == Value(Str(images.nats)))
    && (images.exporter != "" ==> ViewAt(values, ["global", "prometheusNatsExporterImageUrl"]) == Value(Str(images.exporter)))
    && (images.reloader != "" ==> ViewAt(values, ["global", "natsServerConfigReloaderImageUrl"]) == Value(Str(images.reloader)))
  }

  predicate MetadataHeld(values: Tree, spec: Spec) {
    && (forall name :: name in spec.labels ==> ViewAt(values, ["commonLabels", name]) == Value(Str(spec.labels[name])))
    && (forall name :: name in spec.annotations ==> ViewAt(values, ["commonAnnotations", name]) == Value(Str(spec.annotations[name])))
  }

  /** The values hold everything a spec asks for, each at its path. */
  predicate Held(values: Tree, spec: Spec, istio: bool, rotate: bool, fileSize: nat, images: Images) {
    && ModesHeld(values, spec, istio, rotate, fileSize, images)
    && StorageHeld(values, spec, istio, rotate, fileSize, images)
    && LoggingHeld(values, spec, istio, rotate, fileSize, images)
    && RequestsHeld(values, spec, istio, rotate, fileSize, images)
    && LimitsHeld(values, spec, istio, rotate, fileSize, images)
    && ImagesHeld(values, spec, istio, rotate, fileSize, images)
    && MetadataHeld(values, spec)
  }

  lemma ModesHold(values: Tree, m: Assignments, spec: Spec, istio: bool, rotate: bool, fileSize: nat, images: Images)
    requires Assigned(m, spec, istio, rotate, fileSize, images) && Holds(values, m)
    ensures ModesHeld(values, spec, istio, rotate, fileSize, images)
  {
    hide ViewAt;
    assert Lookup(m, IstioEnabled) == Wanted(IstioEnabled, spec, istio, rotate, fileSize, images);
    assert Lookup(m, RotatePassword) == Wanted(RotatePassword, spec, istio, rotate, fileSize, images);
    assert Lookup(m, ClusterEnabled) == Wanted(ClusterEnabled, spec, istio, rotate, fileSize, images);
    assert Lookup(m, ClusterSize) == Wanted(ClusterSize, spec, istio, rotate, fileSize, images);
  }

  lemma StorageHold(values: Tree, m: Assignments, spec: Spec, istio: bool, rotate: bool, fileSize: nat, images: Images)
    requires Assigned(m, spec, istio, rotate, fileSize, images) && Holds(values, m)
    ensures StorageHeld(values, spec, istio, rotate, fileSize, images)
  {
    hide ViewAt;
    assert Lookup(m, FileStorageSize) == Wanted(FileStorageSize, spec, istio, rotate, fileSize, images);
    assert Lookup(m, FileStorageClass) == Wanted(FileStorageClass, spec, istio, rotate, fileSize, images);
    assert Lookup(m, MemStorageEnabled) == Wanted(MemStorageEnabled, spec, istio, rotate, fileSize, images);
    assert Lookup(m, MemStorageSize) == Wanted(MemStorageSize, spec, istio, rotate, fileSize, images);
  }

  lemma LoggingHold(values: Tree, m: Assignments, spec: Spec, istio: bool, rotate: bool, fileSize: nat, images: Images)
    requires Assigned(m, spec, istio, rotate, fileSize, images) && Holds(values, m)
    ensures LoggingHeld(values, spec, istio, rotate, fileSize, images)
  {
    hide ViewAt;
    assert Lookup(m, DebugEnabled) == Wanted(DebugEnabled, spec, istio, rotate, fileSize, images);
    assert Lookup(m, TraceEnabled) == Wanted(TraceEnabled, spec, istio, rotate, fileSize, images);
  }

  lemma RequestsHold(values: Tree, m: Assignments, spec: Spec, istio: bool, rotate: bool, fileSize: nat, images: Images)
    requires Assigned(m, spec, istio, rotate, fileSize, images) && Holds(values, m)
    ensures RequestsHeld(values, spec, istio, rotate, fileSize, images)
  {
    hide ViewAt;
    assert Lookup(m, RequestsCpu) == Wanted(RequestsCpu, spec, istio, rotate, fileSize, images);
    assert Lookup(m, RequestsMemory) == Wanted(RequestsMemory, spec, istio, rotate, fileSize, images);
  }

  lemma LimitsHold(values: Tree, m: Assignments, spec: Spec, istio: bool, rotate: bool, fileSize: nat, images: Images)
    requires Assigned(m, spec, istio, rotate, fileSize, images) && Holds(values, m)
    ensures LimitsHeld(values, spec, istio, rotate, fileSize, images)
  {
    hide ViewAt;
    assert Lookup(m, LimitsCpu) == Wanted(LimitsCpu, spec, istio, rotate, fileSize, images);
    assert Lookup(m, LimitsMemory) == Wanted(LimitsMemory, spec, istio, rotate, fileSize, images);
  }

  lemma ImagesHold(values: Tree, m: Assignments, spec: Spec, istio: bool, rotate: bool, fileSize: nat, images: Images)
    requires Assigned(m, spec, istio, rotate, fileSize, images) && Holds(values, m)
    ensures ImagesHeld(values, spec, istio, rotate, fileSize, images)
  {
    hide ViewAt;
    assert Lookup(m, NatsImage) == Wanted(NatsImage, spec, istio, rotate, fileSize, images);
    assert Lookup(m, ExporterImage) == Wanted(ExporterImage, spec, istio, rotate, fileSize, images);
    assert Lookup(m, ReloaderImage) == Wanted(ReloaderImage, spec, istio, rotate, fileSize, images);
  }

  lemma MetadataHold(before: Tree, e: Tree, m: Assignments, spec: Spec, istio: bool, rotate: bool, fileSize: nat, images: Images)
    requires Assigned(m, spec, istio, rotate, fileSize, images) && IsExpansion(e, Keyed(m))
    ensures MetadataHeld(Merge(before, e), spec)
  {
    hide Merge, IsExpansion, Keyed, ViewAt, StringMap, Dotted;
    forall name | name in spec.labels
      ensures ViewAt(Merge(before, e), ["commonLabels", name]) == Value(Str(spec.labels[name]))
    {
      assert Lookup(m, CommonLabels) == Some(StringMap(spec.labels));
      EntryHolds(before, e, m, CommonLabels, spec.labels, name);
      assert Path(CommonLabels) + [name] == ["commonLabels", name];
    }
    forall name | name in spec.annotations
      ensures ViewAt(Merge(before, e), ["commonAnnotations", name]) == Value(Str(spec.annotations[name]))
    {
      assert Lookup(m, CommonAnnotations) == Some(StringMap(spec.annotations));
      EntryHolds(before, e, m, CommonAnnotations, spec.annotations, name);
      assert Path(CommonAnnotations) + [name] == ["commonAnnotations", name];
    }
  }

  lemma EntryHolds(before: Tree, e: Tree, m: Assignments, k: OverrideKey, entries: map<string, string>, name: string)
    requires IsExpansion(e, Keyed(m)) && name in entries && Lookup(m, k) == Some(StringMap(entries))
    ensures ViewAt(Merge(before, e), Path(k) + [name]) == Value(Str(entries[name]))
  {
    hide Merge, IsExpansion, Keyed, ViewAt, StringMap, Path, Dotted;
    FlatEntry(entries, name);
    OverrideWins(before, e, m, k, [name]);
  }

  lemma FlatEntry(m: map<string, string>, name: string)
    requires name in m
    ensures m != map[] && ViewAt(StringMap(m), [name]) == Value(Str(m[name]))
  {
    assert [name][1..] == [];
    assert ViewAt(StringMap(m), [name]) == ViewAt(StringMap(m).children[name], []);
  }

  /** After a render the values hold what its spec asks for, each at its path, whatever was rendered before. */
  lemma RenderedHold(before: Tree, e: Tree, spec: Spec, istio: bool, rotate: bool, fileSize: nat, images: Images)
    requires IsExpansion(e, Keyed(Chosen(spec, istio, rotate, fileSize, images)))
    ensures Held(Merge(before, e), spec, istio, rotate, fileSize, images)
  {
    hide Merge, IsExpansion, Keyed, Chosen, Assigned, Holds, MetadataHeld, ModesHeld, StorageHeld, LoggingHeld,
      RequestsHeld, LimitsHeld, ImagesHeld;
    var m := Chosen(spec, istio, rotate, fileSize, images);
    RenderHolds(before, e, m);
    ModesHold(Merge(before, e), m, spec, istio, rotate, fileSize, images);
    StorageHold(Merge(before, e), m, spec, istio, rotate, fileSize, images);
    LoggingHold(Merge(before, e), m, spec, istio, rotate, fileSize, images);
    RequestsHold(Merge(before, e), m, spec, istio, rotate, fileSize, images);
    LimitsHold(Merge(before, e), m, spec, istio, rotate, fileSize, images);
    ImagesHold(Merge(before, e), m, spec, istio, rotate, fileSize, images);
    MetadataHold(before, e, m, spec, istio, rotate, fileSize, images);
  }
}
