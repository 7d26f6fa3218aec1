/** The controller's process state over runs: NATS clients, the cached cloud provider, and the watch. */
module Process {
  import opened Wrappers
  import opened NatsStatus
  import opened Naming
  import opened Operator
  import opened Convergence
  import O = Overrides

  // ---- The invariant of one process ----

  /** What the running process did so far. */
  ghost function ThisProcess(trace: seq<Effect>): multiset<Effect> {
    if trace == [] || trace[|trace| - 1].ProcessStarted? then multiset{}
    else ThisProcess(trace[..|trace| - 1]) + multiset{trace[|trace| - 1]}
  }

  lemma ThisProcessEmit(trace: seq<Effect>, e: Effect)
    ensures ThisProcess(trace + [e]) == if e.ProcessStarted? then multiset{} else ThisProcess(trace) + multiset{e}
  {
    assert (trace + [e])[..|trace|] == trace;
  }

  /** Every client of the process is stored once; it is registered and open, or closed once and gone. */
  ghost predicate ClientsOk(m: multiset<Effect>, mem: Memory) {
    && (forall id, key :: m[ClientStored(id, key)] <= 1)
    && (forall id, key :: id >= mem.nextClient ==> m[ClientStored(id, key)] == 0)
    && (forall id :: id >= mem.nextClient ==> m[ClientClosed(id)] == 0)
    && (forall id, a, b :: m[ClientStored(id, a)] == 1 && m[ClientStored(id, b)] == 1 ==> a == b)
    && (forall key :: key in mem.clients ==>
          m[ClientStored(mem.clients[key], key)] == 1 && m[ClientClosed(mem.clients[key])] == 0)
    && (forall id, key :: m[ClientStored(id, key)] == 1 && !(key in mem.clients && mem.clients[key] == id) ==>
          m[ClientClosed(id)] == 1)
  }

  ghost predicate WatchOk(m: multiset<Effect>, mem: Memory) {
    m[WatchStarted] == if mem.watchStarted then 1 else 0
  }

  ghost predicate ProcessOk(w: World) {
    ClientsOk(ThisProcess(w.trace), w.mem) && WatchOk(ThisProcess(w.trace), w.mem)
  }

  lemma OtherEffectFits(m: multiset<Effect>, mem: Memory, e: Effect)
    requires ClientsOk(m, mem) && !e.ClientStored? && !e.ClientClosed?
    ensures ClientsOk(m + multiset{e}, mem)
  {
  }

  lemma StoreFits(m: multiset<Effect>, mem: Memory, key: string)
    requires ClientsOk(m, mem) && key !in mem.clients
    ensures ClientsOk(m + multiset{ClientStored(mem.nextClient, key)},
                      mem.(clients := mem.clients[key := mem.nextClient], nextClient := mem.nextClient + 1))
  {
  }

  lemma CloseFits(m: multiset<Effect>, mem: Memory, key: string)
    requires ClientsOk(m, mem) && key in mem.clients
    ensures ClientsOk(m + multiset{ClientClosed(mem.clients[key])}, mem.(clients := mem.clients - {key}))
  {
    assert m[ClientStored(mem.clients[key], key)] == 1 && mem.clients[key] < mem.nextClient;
  }

  lemma ClientsOnly(m: multiset<Effect>, a: Memory, b: Memory)
    requires ClientsOk(m, a) && b.clients == a.clients && b.nextClient == a.nextClient
    ensures ClientsOk(m, b)
  {
  }

  /** An effect that a step for `k` starting in `w0` may cause. */
  ghost predicate Fine(w0: World, e: Effect, k: Key) {
    && (e.ShootInfoRead? ==> w0.mem.cloudProvider.None?)
    && (e.SecretApplied? ==> e.owner == k && LookupSecret(k) !in w0.server.secrets && e.secret == DeployedSecret(k))
    && (e.Deployed? && w0.mem.cloudProvider == Some(O.ALICLOUD) ==> e.fileSize >= O.MIN_FILE_SIZE_ALICLOUD)
  }

  /** What happened since `w0`, in steps for `k`. */
  ghost predicate Since(w0: World, w: World, k: Key) {
    && w0.trace <= w.trace
    && (forall e :: e in w.trace[|w0.trace|..] ==> Fine(w0, e, k))
    && (forall e :: e in w.trace[|w0.trace|..] && e.SecretApplied? ==> e.secret in w.server.secrets)
    && w0.server.secrets <= w.server.secrets
    && (w0.mem.cloudProvider.Some? ==> w.mem.cloudProvider == w0.mem.cloudProvider)
  }

  predicate Plain(e: Effect) {
    !e.ClientStored? && !e.ClientClosed? && !e.WatchStarted? && !e.ProcessStarted?
  }

  lemma EmitSince(w0: World, w: World, e: Effect, k: Key)
    requires Since(w0, w, k) && Fine(w0, e, k) && (e.SecretApplied? ==> e.secret in w.server.secrets)
    ensures Since(w0, Emit(w, e), k)
  {
    hide Fine;
    assert (w.trace + [e])[|w0.trace|..] == w.trace[|w0.trace|..] + [e];
  }

  lemma EmitPlain(w0: World, w: World, e: Effect, k: Key)
    requires ProcessOk(w) && Since(w0, w, k) && Plain(e) && Fine(w0, e, k)
    requires e.SecretApplied? ==> e.secret in w.server.secrets
    ensures ProcessOk(Emit(w, e)) && Since(w0, Emit(w, e), k)
  {
    EmitSince(w0, w, e, k);
    hide Since, Fine, ThisProcess, ClientsOk;
    ThisProcessEmit(w.trace, e);
    OtherEffectFits(ThisProcess(w.trace), w.mem, e);
  }

  lemma SinceStart(w: World, k: Key)
    ensures Since(w, w, k)
  {
    assert w.trace[|w.trace|..] == [];
  }

  /** Steps that record nothing and leave the clients and the watch flag alone. */
  lemma Unmoved(w0: World, w: World, w1: World, k: Key)
    requires ProcessOk(w) && Since(w0, w, k)
    requires w1.trace == w.trace && w1.mem == w.mem.(cloudProvider := w1.mem.cloudProvider)
    requires w.mem.cloudProvider.Some? ==> w1.mem.cloudProvider == w.mem.cloudProvider
    requires w.server.secrets <= w1.server.secrets
    ensures ProcessOk(w1) && Since(w0, w1, k)
  {
    hide Fine, ThisProcess, ClientsOk;
    ClientsOnly(ThisProcess(w.trace), w.mem, w1.mem);
  }

  lemma StorePlain(w0: World, w: World, k: Key, r: Resource)
    requires ProcessOk(w) && Since(w0, w, k)
    ensures ProcessOk(Store(w, k, r)) && Since(w0, Store(w, k, r), k)
  {
    hide ProcessOk, Since;
    if r.deleting && r.finalizers == {} {
      var w1 := w.(server := w.server.(crs := w.server.crs - {k}));
      Unmoved(w0, w, w1, k);
      EmitPlain(w0, w1, Gone(k, r.uid), k);
    } else {
      Unmoved(w0, w, w.(server := w.server.(crs := w.server.crs[k := r])), k);
    }
  }

  lemma SyncStatusPlain(w0: World, w: World, k: Key, s: Status, o: Obs)
    requires k in w.server.crs && ProcessOk(w) && Since(w0, w, k)
    ensures ProcessOk(SyncStatus(w, k, s, o).0) && Since(w0, SyncStatus(w, k, s, o).0, k)
  {
    hide Status.IsEqual, ProcessOk, Since;
    var r := w.server.crs[k];
    var w1 := w.(server := w.server.(crs := w.server.crs[k := r.(status := s, writes := r.writes + 1)]));
    Unmoved(w0, w, w1, k);
    EmitPlain(w0, w1, StatusWritten(k, r.uid, s), k);
  }

  lemma SyncCloudPlain(w: World, k: Key, o: Obs)
    requires ProcessOk(w)
    ensures ProcessOk(SyncCloudProvider(w, o)) && Since(w, SyncCloudProvider(w, o), k)
  {
    hide ProcessOk, Since;
    SinceStart(w, k);
    if w.mem.cloudProvider.None? {
      EmitPlain(w, w, ShootInfoRead, k);
      Unmoved(w, Emit(w, ShootInfoRead), SyncCloudProvider(w, o), k);
    }
  }

  lemma {:induction false} ApplyAllPlain(w0: World, w: World, k: Key, manifests: seq<Manifest>, faults: map<Manifest, Error>)
    requires ProcessOk(w) && Since(w0, w, k)
    requires forall s :: SecretManifest(s) in manifests ==> Fine(w0, SecretApplied(k, s), k)
    ensures ProcessOk(ApplyAll(w, k, manifests, faults).0) && Since(w0, ApplyAll(w, k, manifests, faults).0, k)
    decreases |manifests|
  {
    hide Fine, ProcessOk, Since;
    if manifests != [] && manifests[0] !in faults {
      match manifests[0] {
        case SecretManifest(s) =>
          var w1 := w.(server := w.server.(secrets := w.server.secrets + {s}));
          Unmoved(w0, w, w1, k);
          EmitPlain(w0, w1, SecretApplied(k, s), k);
        case _ =>
      }
      ApplyAllPlain(w0, Apply(w, k, manifests[0]), k, manifests[1..], faults);
    }
  }

  lemma StartWatch(w0: World, w: World, k: Key)
    requires ProcessOk(w) && Since(w0, w, k) && !w.mem.watchStarted
    ensures var w1 := Emit(w.(mem := w.mem.(watchStarted := true)), WatchStarted);
            ProcessOk(w1) && Since(w0, w1, k)
  {
    var w1 := w.(mem := w.mem.(watchStarted := true));
    assert Since(w0, w1, k);
    EmitSince(w0, w1, WatchStarted, k);
    hide Since, ThisProcess, ClientsOk;
    ThisProcessEmit(w.trace, WatchStarted);
    OtherEffectFits(ThisProcess(w.trace), w.mem, WatchStarted);
    ClientsOnly(ThisProcess(w.trace) + multiset{WatchStarted}, w.mem, w1.mem);
  }

  lemma AssessPlain(w0: World, w: World, k: Key, o: Obs)
    requires k in w.server.crs && ProcessOk(w) && Since(w0, w, k) && w.server.secrets == w0.server.secrets
    ensures ProcessOk(Assess(w, k, o).0) && Since(w0, Assess(w, k, o).0, k)
  {
    hide ProcessOk, ApplyAll, Rendered, LookupSecret, DeployedSecret;
    var r := w.server.crs[k];
    var i := InitInstance(w, k, r.spec, o);
    if i.Got? {
      var e := Deployed(k, r.uid, i.value.fileSize);
      assert Fine(w0, e, k);
      EmitPlain(w0, w, e, k);
      forall s | SecretManifest(s) in i.value.manifests ensures Fine(w0, SecretApplied(k, s), k) {
        RenderedSecret(k, LookupSecret(k) !in w.server.secrets, i.value.istio, s);
      }
      hide Since, Fine;
      ApplyAllPlain(w0, Emit(w, e), k, i.value.manifests, o.applyFaults);
      var w1 := ApplyAll(Emit(w, e), k, i.value.manifests, o.applyFaults).0;
      if !w1.mem.watchStarted {
        StartWatch(w0, w1, k);
      }
    }
  }

  lemma ProvisionPlain(w: World, k: Key, o: Obs)
    requires k in w.server.crs && ProcessOk(w)
    ensures ProcessOk(Provision(w, k, o).0) && Since(w, Provision(w, k, o).0, k)
  {
    hide ProcessOk, Since, Assess, StatusFor, SyncStatus;
    SyncCloudPlain(w, k, o);
    var w1 := SyncCloudProvider(w, o);
    var r := w1.server.crs[k];
    if NatsFinalizer !in r.finalizers {
      EmitPlain(w, w1, FinalizerAdded(k, r.uid), k);
      StorePlain(w, Emit(w1, FinalizerAdded(k, r.uid)), k, r.(finalizers := r.finalizers + {NatsFinalizer}, writes := r.writes + 1));
    } else {
      AssessPlain(w, w1, k, o);
      ApplyAllKeeps(w1, k, o);
      var (w2, v) := Assess(w1, k, o);
      SyncStatusPlain(w, w2, k, StatusFor(v, r.status, k, r.spec.clusterSize, o.now), o);
    }
  }

  lemma ConnectPlain(w: World, k: Key)
    requires ProcessOk(w)
    ensures ProcessOk(ConnectClient(w, k)) && Since(w, ConnectClient(w, k), k)
  {
    hide RegistryKey, Since, ThisProcess, ClientsOk;
    ConnectSince(w, k);
    if RegistryKey(k) !in w.mem.clients {
      ThisProcessEmit(w.trace, ClientStored(w.mem.nextClient, RegistryKey(k)));
      StoreFits(ThisProcess(w.trace), w.mem, RegistryKey(k));
    }
  }

  lemma ConnectSince(w: World, k: Key)
    ensures Since(w, ConnectClient(w, k), k)
  {
    hide RegistryKey;
    SinceStart(w, k);
    var w0 := w.(mem := ConnectClient(w, k).mem);
    EmitSince(w, w0, ClientStored(w.mem.nextClient, RegistryKey(k)), k);
  }

  lemma ClosePlain(w0: World, w: World, k: Key)
    requires ProcessOk(w) && Since(w0, w, k)
    ensures ProcessOk(CloseClient(w, k)) && Since(w0, CloseClient(w, k), k)
  {
    hide RegistryKey;
    var key := RegistryKey(k);
    if key in w.mem.clients {
      var w1 := CloseClient(w, k);
      var id := w.mem.clients[key];
      var e := ClientClosed(id);
      EmitSince(w0, w.(mem := w1.mem), e, k);
      hide Since, ThisProcess, ClientsOk;
      ThisProcessEmit(w.trace, e);
      CloseFits(ThisProcess(w.trace), w.mem, key);
      assert w1.trace == w.trace + [e];
    }
  }

  lemma SweepAndReleasePlain(w0: World, w: World, k: Key, o: Obs)
    requires k in w.server.crs && ProcessOk(w) && Since(w0, w, k)
    ensures ProcessOk(SweepAndRelease(w, k, o).0) && Since(w0, SweepAndRelease(w, k, o).0, k)
  {
    hide RegistryKey, DeleteAll, Labelled, SweepLabel, ProcessOk, Since;
    var uid := w.server.crs[k].uid;
    EmitPlain(w0, w, SweepStarted(k, uid), k);
    var (w1, fault) := Sweep(Emit(w, SweepStarted(k, uid)), k, o);
    Unmoved(w0, Emit(w, SweepStarted(k, uid)), w1, k);
    if fault.None? {
      EmitPlain(w0, w1, Swept(k, uid), k);
      var w2 := Emit(w1, Swept(k, uid));
      ClosePlain(w0, w2, k);
      var w3 := CloseClient(w2, k);
      var r := w3.server.crs[k];
      EmitPlain(w0, w3, FinalizerRemoved(k, r.uid), k);
      StorePlain(w0, Emit(w3, FinalizerRemoved(k, r.uid)), k, r.(finalizers := r.finalizers - {NatsFinalizer}, writes := r.writes + 1));
    }
  }

  lemma ReconcilePlain(cfg: Config, w: World, k: Key, o: Obs)
    requires ProcessOk(w)
    ensures ProcessOk(Reconcile(cfg, w, k, o).0) && Since(w, Reconcile(cfg, w, k, o).0, k)
  {
    hide ProcessOk, Since, Provision, SweepAndRelease, ForbiddenStatus, SyncStatus, DeletionGate, BlockedStatus, RegistryKey;
    SinceStart(w, k);
    if o.readFault.None? && k in w.server.crs {
      var r := w.server.crs[k];
      if r.deleting {
        if NatsFinalizer in r.finalizers {
          ConnectPlain(w, k);
          var w1 := ConnectClient(w, k);
          var gate := DeletionGate(o);
          if gate.Open? {
            SweepAndReleasePlain(w, w1, k, o);
          } else {
            SyncStatusPlain(w, w1, k, BlockedStatus(r.status, gate.message, o.now), o);
          }
        }
      } else if cfg.allowed.Some? && cfg.allowed.value != k {
        SyncStatusPlain(w, w, k, ForbiddenStatus(r.status, cfg.allowed.value, o.now), o);
      } else {
        ProvisionPlain(w, k, o);
      }
    }
  }

  lemma FreshOk(w: World)
    requires Initial(w)
    ensures ProcessOk(w)
  {
  }

  // ---- Runs ----

  /** A step of the environment adds at most the departure of a resource to the record. */
  lemma EnvironmentStep(cfg: Config, w: World, e: Event)
    requires !e.Reconciled? && !e.Restarted?
    ensures var w1 := Step(cfg, w, e);
            && w1.mem == w.mem
            && (w1.trace == w.trace || exists k, uid :: w1.trace == w.trace + [Gone(k, uid)])
            && (!e.SecretRemoved? ==> w.server.secrets <= w1.server.secrets)
            && (e.SecretRemoved? ==> w1.server.secrets == w.server.secrets - {e.s})
  {
    hide Without;
  }

  lemma StepPlain(cfg: Config, w: World, e: Event)
    requires ProcessOk(w)
    ensures ProcessOk(Step(cfg, w, e))
  {
    if e.Reconciled? {
      hide Reconcile, ProcessOk;
      ReconcilePlain(cfg, w, e.k, e.o);
    } else if e.Restarted? {
      ThisProcessEmit(w.trace, ProcessStarted);
    } else {
      hide Step;
      EnvironmentStep(cfg, w, e);
      GoneOrNothing(w, Step(cfg, w, e));
    }
  }

  lemma GoneOrNothing(w: World, w1: World)
    requires ProcessOk(w) && w1.mem == w.mem
    requires w1.trace == w.trace || exists k, uid :: w1.trace == w.trace + [Gone(k, uid)]
    ensures ProcessOk(w1)
  {
    hide ThisProcess, ClientsOk;
    if w1.trace != w.trace {
      var k, uid :| w1.trace == w.trace + [Gone(k, uid)];
      ThisProcessEmit(w.trace, Gone(k, uid));
      OtherEffectFits(ThisProcess(w.trace), w.mem, Gone(k, uid));
    }
  }

  lemma {:induction false} RunPlain(cfg: Config, w: World, es: seq<Event>)
    requires ProcessOk(w)
    ensures ProcessOk(Run(cfg, w, es))
  {
    hide ProcessOk, Step;
    if es != [] {
      var front, last := es[..|es| - 1], es[|es| - 1];
      RunPlain(cfg, w, front);
      StepPlain(cfg, Run(cfg, w, front), last);
    }
  }

  /**
   * At every point of every run, a client the running process stored is either registered under its key
   * and was never closed, or was closed exactly once and is registered nowhere; and none was stored twice.
   */
  lemma ClientConservation(cfg: Config, w: World, es: seq<Event>, id: nat, key: string)
    requires Initial(w)
    requires ClientStored(id, key) in ThisProcess(Run(cfg, w, es).trace)
    ensures var now := Run(cfg, w, es);
            var closed := ThisProcess(now.trace)[ClientClosed(id)];
            && ThisProcess(now.trace)[ClientStored(id, key)] == 1
            && (if key in now.mem.clients && now.mem.clients[key] == id then closed == 0
                else closed == 1 && forall other :: other in now.mem.clients ==> now.mem.clients[other] != id)
  {
    hide Run;
    RunPlain(cfg, w, es);
    var now := Run(cfg, w, es);
    assert ThisProcess(now.trace)[ClientStored(id, key)] > 0;
  }

  /** At every point of every run, the process started the watch at most once, exactly when its flag is set. */
  lemma WatchStartedOnce(cfg: Config, w: World, es: seq<Event>)
    requires Initial(w)
    ensures ThisProcess(Run(cfg, w, es).trace)[WatchStarted] == if Run(cfg, w, es).mem.watchStarted then 1 else 0
  {
    hide Run;
    RunPlain(cfg, w, es);
  }

  /** The process is not restarted. */
  ghost predicate OneProcess(es: seq<Event>) {
    forall e :: e in es ==> !e.Restarted?
  }

  /**
   * Once the cloud provider is known, over any further run of the process it never changes and shoot-info
   * is not read again; and if it is alicloud, every deployment asks for at least 20Gi of file storage.
   */
  lemma {:induction false} ProviderWrittenOnce(cfg: Config, w: World, es: seq<Event>)
    requires ProcessOk(w) && OneProcess(es) && w.mem.cloudProvider.Some?
    ensures var now := Run(cfg, w, es);
            && now.mem.cloudProvider == w.mem.cloudProvider
            && w.trace <= now.trace
            && forall e :: e in now.trace[|w.trace|..] ==>
                 && !e.ShootInfoRead?
                 && (e.Deployed? && w.mem.cloudProvider == Some(O.ALICLOUD) ==> e.fileSize >= O.MIN_FILE_SIZE_ALICLOUD)
  {
    hide Step, ProcessOk;
    if es == [] {
      assert w.trace[|w.trace|..] == [];
    } else {
      var front, last := es[..|es| - 1], es[|es| - 1];
      assert last in es && forall e :: e in front ==> e in es;
      ProviderWrittenOnce(cfg, w, front);
      RunPlain(cfg, w, front);
      var a := Run(cfg, w, front);
      StepSince(cfg, a, last);
      var b := Step(cfg, a, last);
      assert b.trace[|w.trace|..] == a.trace[|w.trace|..] + b.trace[|a.trace|..];
    }
  }

  /** Whatever the step, its new effects are fine for the resource it is about. */
  lemma StepSince(cfg: Config, w: World, e: Event)
    requires ProcessOk(w)
    ensures var w1 := Step(cfg, w, e);
            && w.trace <= w1.trace
            && (!e.Restarted? && w.mem.cloudProvider.Some? ==> w1.mem.cloudProvider == w.mem.cloudProvider)
            && (forall x :: x in w1.trace[|w.trace|..] ==>
                  if e.Reconciled? then Fine(w, x, e.k) else x.Gone? || x.ProcessStarted?)
            && (!e.SecretRemoved? ==> w.server.secrets <= w1.server.secrets)
            && (e.SecretRemoved? ==> w1.server.secrets == w.server.secrets - {e.s})
  {
    if e.Reconciled? {
      hide Reconcile, ProcessOk, Fine;
      ReconcilePlain(cfg, w, e.k, e.o);
    } else if e.Restarted? {
      assert Step(cfg, w, e).trace[|w.trace|..] == [ProcessStarted];
    } else {
      hide Step;
      EnvironmentStep(cfg, w, e);
      var w1 := Step(cfg, w, e);
      assert w.trace[|w.trace|..] == [];
      if w1.trace != w.trace {
        var k, uid :| w1.trace == w.trace + [Gone(k, uid)];
        assert w1.trace[|w.trace|..] == [Gone(k, uid)];
      }
    }
  }
}
