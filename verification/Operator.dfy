/**
 * What the reconcile loop acts on: the API server's objects, the controller's process memory, and the
 * record of what the controller did. One reconcile is one step; every external call's outcome is an
 * observation, so all failures are covered by quantifying over observations.
 */
module Operator {
  import opened Wrappers
  import opened Conditions
  import opened NatsStatus
  import opened Naming
  import O = Overrides

  /** The controller's own finalizer, and everyone else's. */
  datatype Finalizer = NatsFinalizer | OtherFinalizer(name: string)

  const SAP_STREAM := "sap"
  const REQUEUE_AFTER := 10

  // ---- State ----

  /** A NATS resource as stored: `writes` counts the updates of it, like its resource version. */
  datatype Resource = Resource(uid: nat, spec: O.Spec, finalizers: set<Finalizer>, deleting: bool, status: Status, writes: nat)

  datatype Server = Server(crs: map<Key, Resource>, nextUid: nat, pvcs: seq<Pvc>, secrets: set<Key>)

  /** Process-lifetime state: NATS clients by registry key, the cached cloud provider, the watch flag. */
  datatype Memory = Memory(clients: map<string, nat>, nextClient: nat, cloudProvider: Option<string>, watchStarted: bool)

  const FRESH_MEMORY := Memory(map[], 0, None, false)

  /** What the controller did, which resources left the server, and when the process started anew. */
  datatype Effect =
    | ProcessStarted
    | ShootInfoRead
    | WatchStarted
    | FinalizerAdded(k: Key, uid: nat)
    | FinalizerRemoved(k: Key, uid: nat)
    | Gone(k: Key, uid: nat)
    | StatusWritten(k: Key, uid: nat, status: Status)
    | Deployed(k: Key, uid: nat, fileSize: nat)
    | SecretApplied(owner: Key, secret: Key)
    | SweepStarted(k: Key, uid: nat)
    | Swept(k: Key, uid: nat)
    | ClientStored(id: nat, registryKey: string)
    | ClientClosed(id: nat)

  datatype World = World(server: Server, mem: Memory, trace: seq<Effect>)

  /** The single resource that is allowed, if the controller is so configured. */
  datatype Config = Config(allowed: Option<Key>)

  /** Rendered objects. */
  datatype Manifest =
    | SecretManifest(key: Key) | StatefulSetManifest(key: Key) | DisruptionBudgetManifest(key: Key)
    | ConfigMapManifest(key: Key) | ServiceManifest(key: Key) | DestinationRuleManifest(key: Key)

  datatype StatefulSetState = StatefulSetState(replicas: int, current: int, updated: int, ready: int)

  /** The outcomes of the external calls of one reconcile. */
  datatype Obs = Obs(
    now: int,
    readFault: Option<string>,
    shootInfo: Reply<string>,
    crdFault: Option<Error>,
    secretFault: Option<string>,
    renderFault: Option<Error>,
    applyFaults: map<Manifest, Error>,
    watchFault: Option<Error>,
    statefulSet: Reply<StatefulSetState>,
    zones: Reply<int>,
    latestFault: Option<Error>,
    statusFault: Option<Error>,
    updateFault: Option<Error>,
    connectFault: Option<Error>,
    streams: Reply<seq<string>>,
    streamsAgain: Reply<seq<string>>,
    consumers: Reply<bool>,
    pvcListFault: Option<Error>,
    pvcFaults: map<Pvc, Error>
  )

  /** What a reconcile returns: requeue at once, requeue after some seconds, an error. */
  datatype Outcome = Outcome(requeue: bool, after: nat, failed: bool)

  const DONE := Outcome(false, 0, false)
  const FAILED := Outcome(false, 0, true)

  function Emit(w: World, e: Effect): World {
    w.(trace := w.trace + [e])
  }

  // ---- The API server ----

  /** Store a resource; one that is being deleted and has no finalizer left disappears. */
  function Store(w: World, k: Key, r: Resource): World {
    if r.deleting && r.finalizers == {} then
      Emit(w.(server := w.server.(crs := w.server.crs - {k})), Gone(k, r.uid))
    else
      w.(server := w.server.(crs := w.server.crs[k := r]))
  }

  /** Update of the main resource: metadata is stored, the status is not, as it is a subresource. */
  function UpdateFinalizers(w: World, k: Key, finalizers: set<Finalizer>): World
    requires k in w.server.crs
  {
    var r := w.server.crs[k];
    Store(w, k, r.(finalizers := finalizers, writes := r.writes + 1))
  }

  function UpdateStatus(w: World, k: Key, status: Status): World
    requires k in w.server.crs
  {
    var r := w.server.crs[k];
    Emit(w.(server := w.server.(crs := w.server.crs[k := r.(status := status, writes := r.writes + 1)])),
         StatusWritten(k, r.uid, status))
  }

  // ---- Status sync ----

  /** Write the status only when it differs from the stored one; `true` when the sync failed. */
  function SyncStatus(w: World, k: Key, status: Status, o: Obs): (World, bool)
    requires k in w.server.crs
  {
    if o.latestFault.Some? then (w, true)
    else if w.server.crs[k].status.IsEqual(status) then (w, false)
    else if o.statusFault.Some? then (w, true)
    else (UpdateStatus(w, k, status), false)
  }

  // ---- Provisioning ----

  function SyncCloudProvider(w: World, o: Obs): World {
    if w.mem.cloudProvider.Some? then w
    else
      var read := Emit(w, ShootInfoRead);
      match o.shootInfo
      case Got(provider) => read.(mem := read.mem.(cloudProvider := Some(provider)))
      case Err(e) => if e.kind.NotFound? then read.(mem := read.mem.(cloudProvider := Some(""))) else read
  }

  datatype Instance = Instance(manifests: seq<Manifest>, istio: bool, fileSize: nat)

  /** The objects the chart renders; the account Secret only when the password is to be rotated. */
  function Rendered(k: Key, rotate: bool, istio: bool): seq<Manifest> {
    var full := Key(k.ns, Fullname(k.name));
    [DisruptionBudgetManifest(full)]
    + (if rotate then [SecretManifest(DeployedSecret(k))] else [])
    + [ConfigMapManifest(full), ServiceManifest(full), StatefulSetManifest(full)]
    + (if istio then [DestinationRuleManifest(full)] else [])
  }

  function Provider(mem: Memory): string {
    if mem.cloudProvider.Some? then mem.cloudProvider.value else ""
  }

  /** The release instance, or the first error on the way to it. */
  function InitInstance(w: World, k: Key, spec: O.Spec, o: Obs): Reply<Instance> {
    if o.crdFault.Some? && !o.crdFault.value.kind.NotFound? then Err(o.crdFault.value)
    else if o.secretFault.Some? then Err(Error(Failure, o.secretFault.value))
    else
      var size := O.ResolveFileStorageSize(spec.fileStorageSize, Provider(w.mem));
      if size.Err? then Err(size.error)
      else if o.renderFault.Some? then Err(o.renderFault.value)
      else
        var istio := o.crdFault.None?;
        Got(Instance(Rendered(k, LookupSecret(k) !in w.server.secrets, istio), istio, size.value))
  }

  function Apply(w: World, owner: Key, m: Manifest): World {
    match m
    case SecretManifest(s) => Emit(w.(server := w.server.(secrets := w.server.secrets + {s})), SecretApplied(owner, s))
    case _ => w
  }

  /** Apply in order, up to the first failure. */
  function ApplyAll(w: World, owner: Key, manifests: seq<Manifest>, faults: map<Manifest, Error>): (World, Option<Error>)
    decreases |manifests|
  {
    if manifests == [] then (w, None)
    else if manifests[0] in faults then (w, Some(faults[manifests[0]]))
    else ApplyAll(Apply(w, owner, manifests[0]), owner, manifests[1..], faults)
  }

  predicate SetReady(s: StatefulSetState) {
    s.replicas == s.current == s.updated == s.ready
  }

  /** What a provisioning run found out, and hence what the status is to say. */
  datatype Verdict =
    | Broken(message: string)
    | StatefulSetUnknown(message: string)
    | NotReady
    | Running(zones: Reply<int>)

  function Explained(s: Status, message: string, now: int): Status {
    s.InError(now).Set(Available, IsFalse, ReasonProcessingError, Text(message), now)
  }

  /** The status a verdict turns the stored status into. */
  function StatusFor(v: Verdict, s: Status, k: Key, size: int, now: int): Status {
    var s0 := s.Initialized(now);
    match v
    case Broken(message) => Explained(s0, message, now)
    case StatefulSetUnknown(message) =>
      Explained(s0.(url := NoUrl).Set(StatefulSet, IsFalse, ReasonSyncFailError, Text(message), now), message, now)
    case NotReady => s0.(url := NoUrl).Waiting(now).(zones := 0)
    case Running(Err(e)) =>
      var up := s0.InReady(now).(url := ServiceUrl(k), zones := 0)
                .Set(AvailabilityZones, IsFalse, ReasonProcessingError, Text(e.message), now);
      if e.kind.ZoneLabelMissing? then up else up.(state := Failed)
    case Running(Got(n)) =>
      var up := s0.InReady(now).(url := ServiceUrl(k), zones := n);
      if size < O.MIN_CLUSTER_SIZE then up.Set(AvailabilityZones, IsFalse, ReasonNotConfigured, NotClustered, now)
      else if n == size then up.Set(AvailabilityZones, IsTrue, ReasonDeployed, SpreadOverZones, now)
      else up.Set(AvailabilityZones, IsFalse, ReasonUnknown, TooFewZones(n), now).(state := Warning)
  }

  /** The outcome a verdict leads to, given whether its status sync failed. */
  function OutcomeFor(v: Verdict, syncFailed: bool): Outcome {
    match v
    case Broken(_) => FAILED
    case StatefulSetUnknown(_) => FAILED
    case NotReady => Outcome(false, REQUEUE_AFTER, syncFailed)
    case Running(Err(e)) => Outcome(false, 0, syncFailed || !e.kind.ZoneLabelMissing?)
    case Running(Got(_)) => Outcome(false, 0, syncFailed)
  }

  /** Deploy, start the watch, look at the StatefulSet: everything up to the status decision. */
  function Assess(w: World, k: Key, o: Obs): (World, Verdict)
    requires k in w.server.crs
  {
    var r := w.server.crs[k];
    match InitInstance(w, k, r.spec, o)
    case Err(e) => (w, Broken(e.message))
    case Got(instance) =>
      var (w1, fault) := ApplyAll(Emit(w, Deployed(k, r.uid, instance.fileSize)), k, instance.manifests, o.applyFaults);
      if fault.Some? then (w1, Broken(fault.value.message))
      else if instance.istio && !w1.mem.watchStarted && o.watchFault.Some? then (w1, Broken(o.watchFault.value.message))
      else
        var w2 := if instance.istio && !w1.mem.watchStarted
                  then Emit(w1.(mem := w1.mem.(watchStarted := true)), WatchStarted) else w1;
        match o.statefulSet
        case Err(e) => (w2, StatefulSetUnknown(e.message))
        case Got(s) => (w2, if SetReady(s) then Running(o.zones) else NotReady)
  }

  /** Turn a verdict into a status and sync it. */
  function Conclude(w: World, k: Key, v: Verdict, o: Obs): (World, Outcome)
    requires k in w.server.crs
  {
    var r := w.server.crs[k];
    var (w1, syncFailed) := SyncStatus(w, k, StatusFor(v, r.status, k, r.spec.clusterSize, o.now), o);
    (w1, OutcomeFor(v, syncFailed))
  }

  function AddFinalizer(w: World, k: Key, o: Obs): (World, Outcome)
    requires k in w.server.crs
  {
    var r := w.server.crs[k];
    if o.updateFault.Some? then (w, FAILED)
    else (UpdateFinalizers(Emit(w, FinalizerAdded(k, r.uid)), k, r.finalizers + {NatsFinalizer}), DONE)
  }

  lemma {:induction false} ApplyAllFrame(w: World, owner: Key, manifests: seq<Manifest>, faults: map<Manifest, Error>)
    decreases |manifests|
    ensures var (w1, fault) := ApplyAll(w, owner, manifests, faults);
            && w1.server.crs == w.server.crs && w1.server.pvcs == w.server.pvcs && w1.server.nextUid == w.server.nextUid
            && w1.mem == w.mem
            && w.server.secrets <= w1.server.secrets
            && w.trace <= w1.trace
            && (forall e :: e in w1.trace[|w.trace|..] ==> e.SecretApplied? && e.owner == owner && SecretManifest(e.secret) in manifests)
  {
    if manifests != [] && manifests[0] !in faults {
      var next := Apply(w, owner, manifests[0]);
      ApplyAllFrame(next, owner, manifests[1..], faults);
      var w1 := ApplyAll(w, owner, manifests, faults).0;
      forall e | e in w1.trace[|w.trace|..]
        ensures e.SecretApplied? && e.owner == owner && SecretManifest(e.secret) in manifests
      {
        assert e in w1.trace[|next.trace|..] || e in next.trace[|w.trace|..];
      }
    }
  }

  function Provision(w: World, k: Key, o: Obs): (World, Outcome)
    requires k in w.server.crs
  {
    var w1 := SyncCloudProvider(w, o);
    if NatsFinalizer !in w1.server.crs[k].finalizers then AddFinalizer(w1, k, o)
    else
      var (w2, v) := Assess(w1, k, o);
      ApplyAllKeeps(w1, k, o);
      Conclude(w2, k, v, o)
  }

  lemma ApplyAllKeeps(w: World, k: Key, o: Obs)
    requires k in w.server.crs
    ensures Assess(w, k, o).0.server.crs == w.server.crs
  {
    var r := w.server.crs[k];
    var i := InitInstance(w, k, r.spec, o);
    if i.Got? {
      ApplyAllFrame(Emit(w, Deployed(k, r.uid, i.value.fileSize)), k, i.value.manifests, o.applyFaults);
    }
  }

  // ---- The allowed-resource check ----

  function ForbiddenStatus(s: Status, allowed: Key, now: int): Status {
    s.InError(now)
    .Set(StatefulSet, IsFalse, ReasonForbidden, NoMessage, now)
    .Set(Available, IsFalse, ReasonForbidden, OnlyAllowed(allowed.ns, allowed.name), now)
  }

  function Forbid(w: World, k: Key, allowed: Key, o: Obs): (World, Outcome)
    requires k in w.server.crs
  {
    var (w1, syncFailed) := SyncStatus(w, k, ForbiddenStatus(w.server.crs[k].status, allowed, o.now), o);
    (w1, Outcome(false, 0, syncFailed))
  }

  // ---- Deletion ----

  /** What the deletion checks decide. */
  datatype Gate = Open | Blocked(message: Message)

  predicate ForeignStream(streams: seq<string>) {
    exists s :: s in streams && s != SAP_STREAM
  }

  /** Deletion is blocked by a foreign stream or a `sap` consumer; a failing check opens the gate. */
  function DeletionGate(o: Obs): Gate {
    if o.connectFault.Some? || o.streams.Err? then Open
    else if ForeignStream(o.streams.value) then Blocked(CustomerStreamExists)
    else if o.streamsAgain.Err? || SAP_STREAM !in o.streamsAgain.value then Open
    else if o.consumers == Got(true) then Blocked(StreamConsumerExists)
    else Open
  }

  function ConnectClient(w: World, k: Key): World {
    if RegistryKey(k) in w.mem.clients then w
    else
      Emit(w.(mem := w.mem.(clients := w.mem.clients[RegistryKey(k) := w.mem.nextClient], nextClient := w.mem.nextClient + 1)),
           ClientStored(w.mem.nextClient, RegistryKey(k)))
  }

  function CloseClient(w: World, k: Key): World {
    if RegistryKey(k) !in w.mem.clients then w
    else
      Emit(w.(mem := w.mem.(clients := w.mem.clients - {RegistryKey(k)})), ClientClosed(w.mem.clients[RegistryKey(k)]))
  }

  /** The claims of a namespace with a given instance label. */
  function Labelled(pvcs: seq<Pvc>, ns: string, instance: string): seq<Pvc> {
    if pvcs == [] then []
    else (if pvcs[0].ns == ns && pvcs[0].instance == instance then [pvcs[0]] else []) + Labelled(pvcs[1..], ns, instance)
  }

  function Without(pvcs: seq<Pvc>, p: Pvc): seq<Pvc> {
    if pvcs == [] then [] else (if pvcs[0] == p then [] else [pvcs[0]]) + Without(pvcs[1..], p)
  }

  function DeleteAll(pvcs: seq<Pvc>, list: seq<Pvc>, prefix: string, faults: map<Pvc, Error>): (seq<Pvc>, Option<Error>)
    decreases |list|
  {
    if list == [] then (pvcs, None)
    else if !HasPrefix(list[0].name, prefix) then DeleteAll(pvcs, list[1..], prefix, faults)
    else if list[0] in faults then (pvcs, Some(faults[list[0]]))
    else DeleteAll(Without(pvcs, list[0]), list[1..], prefix, faults)
  }

  /** Delete the resource's claims, up to the first failure. */
  function Sweep(w: World, k: Key, o: Obs): (World, Option<Error>) {
    if o.pvcListFault.Some? then (w, o.pvcListFault)
    else
      var (pvcs, fault) := DeleteAll(w.server.pvcs, Labelled(w.server.pvcs, k.ns, SweepLabel(k.name)), k.name, o.pvcFaults);
      (w.(server := w.server.(pvcs := pvcs)), fault)
  }

  function RemoveFinalizer(w: World, k: Key, o: Obs): (World, Outcome)
    requires k in w.server.crs
  {
    var r := w.server.crs[k];
    if o.updateFault.Some? then (w, FAILED)
    else (UpdateFinalizers(Emit(w, FinalizerRemoved(k, r.uid)), k, r.finalizers - {NatsFinalizer}), DONE)
  }

  function SweepAndRelease(w: World, k: Key, o: Obs): (World, Outcome)
    requires k in w.server.crs
  {
    var uid := w.server.crs[k].uid;
    var (w1, fault) := Sweep(Emit(w, SweepStarted(k, uid)), k, o);
    if fault.Some? then (w1, Outcome(false, 0, !fault.value.kind.NotFound?))
    else RemoveFinalizer(CloseClient(Emit(w1, Swept(k, uid)), k), k, o)
  }

  function BlockedStatus(s: Status, message: Message, now: int): Status {
    s.(state := Warning).Set(Deleted, IsFalse, ReasonDeletionError, message, now)
  }

  function Delete(w: World, k: Key, o: Obs): (World, Outcome)
    requires k in w.server.crs
  {
    if NatsFinalizer !in w.server.crs[k].finalizers then (w, DONE)
    else
      var w1 := ConnectClient(w, k);
      match DeletionGate(o)
      case Open => SweepAndRelease(w1, k, o)
      case Blocked(message) =>
        var (w2, syncFailed) := SyncStatus(w1, k, BlockedStatus(w.server.crs[k].status, message, o.now), o);
        (w2, Outcome(true, 0, syncFailed))
  }

  // ---- One reconcile ----

  function Reconcile(cfg: Config, w: World, k: Key, o: Obs): (World, Outcome) {
    if o.readFault.Some? then (w, FAILED)
    else if k !in w.server.crs then (w, DONE)
    else if w.server.crs[k].deleting then Delete(w, k, o)
    else if cfg.allowed.Some? && cfg.allowed.value != k then Forbid(w, k, cfg.allowed.value, o)
    else Provision(w, k, o)
  }

  // ---- Runs ----

  /**
   * A reconcile, or a step of the environment. Others may edit a resource, its spec and every finalizer
   * but the controller's; they may create and remove claims and Secrets; the process may restart.
   */
  datatype Event =
    | Reconciled(k: Key, o: Obs)
    | Created(k: Key, spec: O.Spec, finalizers: set<Finalizer>)
    | SpecEdited(k: Key, spec: O.Spec)
    | FinalizersEdited(k: Key, finalizers: set<Finalizer>)
    | DeletionRequested(k: Key)
    | PvcAdded(p: Pvc)
    | PvcRemoved(p: Pvc)
    | SecretAdded(s: Key)
    | SecretRemoved(s: Key)
    | Restarted

  function Step(cfg: Config, w: World, e: Event): World {
    match e
    case Reconciled(k, o) => Reconcile(cfg, w, k, o).0
    case Created(k, spec, finalizers) =>
      if k in w.server.crs || !O.ValidSize(spec.clusterSize) then w
      else
        var r := Resource(w.server.nextUid, spec, finalizers - {NatsFinalizer}, false, EMPTY_STATUS, 0);
        w.(server := w.server.(crs := w.server.crs[k := r], nextUid := w.server.nextUid + 1))
    case SpecEdited(k, spec) =>
      if k !in w.server.crs || !O.AdmittedUpdate(w.server.crs[k].spec.clusterSize, spec.clusterSize) then w
      else Store(w, k, w.server.crs[k].(spec := spec))
    case FinalizersEdited(k, finalizers) =>
      if k !in w.server.crs then w
      else
        var r := w.server.crs[k];
        Store(w, k, r.(finalizers := (finalizers - {NatsFinalizer}) + (r.finalizers * {NatsFinalizer})))
    case DeletionRequested(k) =>
      if k !in w.server.crs then w else Store(w, k, w.server.crs[k].(deleting := true))
    case PvcAdded(p) => w.(server := w.server.(pvcs := w.server.pvcs + [p]))
    case PvcRemoved(p) => w.(server := w.server.(pvcs := Without(w.server.pvcs, p)))
    case SecretAdded(s) => w.(server := w.server.(secrets := w.server.secrets + {s}))
    case SecretRemoved(s) => w.(server := w.server.(secrets := w.server.secrets - {s}))
    case Restarted => Emit(w.(mem := FRESH_MEMORY.(nextClient := w.mem.nextClient)), ProcessStarted)
  }

  function Run(cfg: Config, w: World, es: seq<Event>): World {
    if es == [] then w else Step(cfg, Run(cfg, w, es[..|es| - 1]), es[|es| - 1])
  }

  /** No NATS resource yet, a fresh process; claims and Secrets may exist. */
  predicate Initial(w: World) {
    w.server.crs == map[] && w.mem == FRESH_MEMORY && w.trace == []
  }
}
