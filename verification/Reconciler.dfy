/** The reconcile loop as the controller runs it: objects updated in place, each method proved against its specification. */
module Reconciler {
  import opened Wrappers
  import opened Conditions
  import opened NatsStatus
  import opened Naming
  import S = Operator
  import O = Overrides
  import V = Values
  import C = Chart
  import R = Renders
  import T = Settings

  /** The API server. It records what the controller does to it. */
  class ApiServer {
    var crs: map<Key, S.Resource>
    var nextUid: nat
    var pvcs: seq<Pvc>
    var secrets: set<Key>
    ghost var trace: seq<S.Effect>

    ghost function Together(mem: S.Memory): S.World
      reads this
    {
      S.World(S.Server(crs, nextUid, pvcs, secrets), mem, trace)
    }

    constructor (server: S.Server)
      ensures forall mem :: Together(mem) == S.World(server, mem, [])
    {
      crs, nextUid, pvcs, secrets, trace := server.crs, server.nextUid, server.pvcs, server.secrets, [];
    }

    method Get(k: Key) returns (r: Option<S.Resource>)
      ensures r == if k in crs then Some(crs[k]) else None
    {
      r := if k in crs then Some(crs[k]) else None;
    }

    /** Update of the main resource: the stored status is kept whatever the caller's copy says. */
    method Update(k: Key, finalizers: set<S.Finalizer>)
      requires k in crs
      modifies this
      ensures forall mem :: Together(mem) == S.UpdateFinalizers(old(Together(mem)), k, finalizers)
    {
      var r := crs[k];
      r := r.(finalizers := finalizers, writes := r.writes + 1);
      if r.deleting && r.finalizers == {} {
        crs := crs - {k};
        trace := trace + [S.Gone(k, r.uid)];
      } else {
        crs := crs[k := r];
      }
    }

    method UpdateStatus(k: Key, status: Status)
      requires k in crs
      modifies this
      ensures forall mem :: Together(mem) == S.UpdateStatus(old(Together(mem)), k, status)
    {
      var r := crs[k];
      crs := crs[k := r.(status := status, writes := r.writes + 1)];
      trace := trace + [S.StatusWritten(k, r.uid, status)];
    }

    method PatchApply(owner: Key, m: S.Manifest)
      modifies this
      ensures forall mem :: Together(mem) == S.Apply(old(Together(mem)), owner, m)
    {
      if m.SecretManifest? {
        secrets := secrets + {m.key};
        trace := trace + [S.SecretApplied(owner, m.key)];
      }
    }

    method ListPvcs(ns: string, instance: string) returns (list: seq<Pvc>)
      ensures list == S.Labelled(pvcs, ns, instance)
    {
      list := S.Labelled(pvcs, ns, instance);
    }

    method DeletePvc(p: Pvc)
      modifies this`pvcs
      ensures pvcs == S.Without(old(pvcs), p)
    {
      pvcs := S.Without(pvcs, p);
    }
  }

  /** A fetched copy of a resource; the handlers change its status and finalizers before anything is written back. */
  class Nats {
    const key: Key
    const uid: nat
    const spec: O.Spec
    const deleting: bool
    var finalizers: set<S.Finalizer>
    const status: NATSStatus

    constructor DeepCopy(k: Key, r: S.Resource)
      ensures fresh(this) && fresh(status) && key == k && IsCopyOf(r)
    {
      key, uid, spec, deleting, finalizers := k, r.uid, r.spec, r.deleting, r.finalizers;
      status := new NATSStatus.DeepCopy(r.status);
    }

    ghost predicate IsCopyOf(r: S.Resource)
      reads this, status
    {
      uid == r.uid && spec == r.spec && deleting == r.deleting && finalizers == r.finalizers && status.Snapshot() == r.status
    }
  }

  class Controller {
    const api: ApiServer
    const renderer: C.HelmRenderer
    const images: O.Images
    const allowedNATSCR: Option<Key>
    var natsClients: map<string, nat>
    var nextClient: nat
    var cloudProvider: Option<string>
    var destinationRuleWatchStarted: bool
    ghost var requests: seq<R.Request>

    /** The renderer's history answers the requests made so far, all with the images of this process. */
    ghost predicate Valid()
      reads this, renderer
    {
      && renderer.Valid() && R.Answers(renderer.history, requests)
      && R.SameImages(requests, images)
    }

    constructor (api: ApiServer, renderer: C.HelmRenderer, images: O.Images, allowed: Option<Key>)
      requires renderer.Valid() && renderer.history == []
      ensures Valid() && requests == []
      ensures this.api == api && this.renderer == renderer && allowedNATSCR == allowed
      ensures Mem() == S.FRESH_MEMORY
    {
      this.api, this.renderer, this.images, allowedNATSCR := api, renderer, images, allowed;
      natsClients, nextClient, cloudProvider, destinationRuleWatchStarted := map[], 0, None, false;
      requests := [];
    }

    ghost function Mem(): S.Memory
      reads this
    {
      S.Memory(natsClients, nextClient, cloudProvider, destinationRuleWatchStarted)
    }

    ghost function Now(): S.World
      reads this, api
    {
      api.Together(Mem())
    }

    ghost method Record(e: S.Effect)
      modifies api`trace
      ensures Now() == S.Emit(old(Now()), e)
    {
      api.trace := api.trace + [e];
    }

    // ---- Status ----

    method SyncNATSStatus(nats: Nats, o: S.Obs) returns (failed: bool)
      requires nats.key in api.crs
      modifies api
      ensures (Now(), failed) == S.SyncStatus(old(Now()), nats.key, nats.status.Snapshot(), o)
    {
      if o.latestFault.Some? {
        return true;
      }
      var actual := api.Get(nats.key);
      var desired := nats.status.Value();
      var stored := new NATSStatus.DeepCopy(actual.value.status);
      var equal := stored.IsEqualTo(desired);
      if equal {
        return false;
      }
      if o.statusFault.Some? {
        return true;
      }
      api.UpdateStatus(nats.key, desired);
      return false;
    }

    method SyncNATSStatusWithErr(nats: Nats, message: string, o: S.Obs)
      requires nats.key in api.crs
      modifies api, nats.status
      ensures Now() == S.SyncStatus(old(Now()), nats.key, S.Explained(old(nats.status.Snapshot()), message, o.now), o).0
    {
      nats.status.SetStateError(o.now);
      nats.status.UpdateCondition(Available, IsFalse, ReasonProcessingError, Text(message), o.now);
      var _ := SyncNATSStatus(nats, o);
    }

    // ---- Finalizers ----

    method AddFinalizer(nats: Nats, o: S.Obs) returns (out: S.Outcome)
      requires nats.key in api.crs && nats.finalizers == api.crs[nats.key].finalizers
      modifies api, nats
      ensures (Now(), out) == S.AddFinalizer(old(Now()), nats.key, o)
    {
      nats.finalizers := nats.finalizers + {S.NatsFinalizer};
      if o.updateFault.Some? {
        return S.FAILED;
      }
      Record(S.FinalizerAdded(nats.key, api.crs[nats.key].uid));
      api.Update(nats.key, nats.finalizers);
      return S.DONE;
    }

    method RemoveFinalizer(nats: Nats, o: S.Obs) returns (out: S.Outcome)
      requires nats.key in api.crs && nats.finalizers == api.crs[nats.key].finalizers
      modifies api, nats
      ensures (Now(), out) == S.RemoveFinalizer(old(Now()), nats.key, o)
    {
      nats.finalizers := nats.finalizers - {S.NatsFinalizer};
      if o.updateFault.Some? {
        return S.FAILED;
      }
      Record(S.FinalizerRemoved(nats.key, api.crs[nats.key].uid));
      api.Update(nats.key, nats.finalizers);
      return S.DONE;
    }

    // ---- Provisioning ----

    method SyncCloudProvider(o: S.Obs)
      modifies this`cloudProvider, api`trace
      ensures Now() == S.SyncCloudProvider(old(Now()), o)
    {
      if cloudProvider.Some? {
        return;
      }
      Record(S.ShootInfoRead);
      match o.shootInfo
      case Err(e) =>
        if e.kind.NotFound? {
          cloudProvider := Some("");
        }
      case Got(provider) =>
        cloudProvider := Some(provider);
    }

    /** Merges the configuration into the chart's shared values and renders what they now say. */
    method GenerateNatsResources(k: Key, config: C.Config, o: S.Obs) returns (r: Reply<S.Instance>)
      requires renderer.Valid()
      modifies renderer
      ensures renderer.Valid()
      ensures |renderer.history| == |old(renderer.history)| + 1 && renderer.history[..|old(renderer.history)|] == old(renderer.history)
      ensures renderer.values == V.Merge(old(renderer.values), renderer.history[|old(renderer.history)|])
      ensures C.PrefixFree(config.Keys) ==> C.IsExpansion(renderer.history[|old(renderer.history)|], config)
      ensures r == if o.renderFault.Some? then Err(o.renderFault.value) else Got(InstanceOf(k, renderer.values))
    {
      var values, _ := renderer.OverrideChartConfiguration(config);
      if o.renderFault.Some? {
        return Err(o.renderFault.value);
      }
      return Got(InstanceOf(k, values));
    }

    method InitNATSInstance(nats: Nats, o: S.Obs) returns (r: Reply<S.Instance>)
      requires Valid()
      modifies renderer, this`requests
      ensures Valid()
      ensures r == S.InitInstance(Now(), nats.key, nats.spec, o)
      ensures r.Got? ==>
                T.Held(renderer.values, nats.spec, o.crdFault.None?, Key(nats.key.ns, nats.key.name + "-secret") !in api.secrets,
                       T.FileSize(nats.spec.fileStorageSize, if cloudProvider.Some? then cloudProvider.value else ""), images)
      ensures (r.Err? && requests == old(requests)) || exists q :: requests == old(requests) + [q] && q.spec == nats.spec && q.images == images
    {
      hide T.Configured, T.Held, T.Refused, O.Dotted, O.Keyed, O.Chosen, R.Answers, S.Rendered, C.PrefixFree;
      var istioExists := o.crdFault.None?;
      if o.crdFault.Some? && !o.crdFault.value.kind.NotFound? {
        return Err(o.crdFault.value);
      }
      if o.secretFault.Some? {
        return Err(Error(Failure, o.secretFault.value));
      }
      var accountSecretExists := LookupSecret(nats.key) in api.secrets;
      var provider := "";
      if cloudProvider.Some? {
        provider := cloudProvider.value;
      }
      var overrides := T.GenerateOverrides(nats.spec, istioExists, !accountSecretExists, provider, images);
      if overrides.Err? {
        return Err(overrides.error);
      }
      ghost var size := O.ResolveFileStorageSize(nats.spec.fileStorageSize, provider).value;
      ghost var q := R.Request(nats.spec, istioExists, !accountSecretExists, size, images);
      r := RenderRequest(nats.key, overrides.value, q, o);
    }

    /** A render on behalf of a request, which the record of requests then holds. */
    method RenderRequest(k: Key, config: C.Config, ghost q: R.Request, o: S.Obs) returns (r: Reply<S.Instance>)
      requires Valid() && config == O.Keyed(q.Assigns()) && q.images == images
      modifies renderer, this`requests
      ensures Valid() && requests == old(requests) + [q]
      ensures T.Held(renderer.values, q.spec, q.istio, q.rotate, q.fileSize, images)
      ensures r == if o.renderFault.Some? then Err(o.renderFault.value)
                   else Got(S.Instance(S.Rendered(k, q.rotate, q.istio), q.istio, q.fileSize))
    {
      hide T.Held, O.Keyed, O.Chosen, C.PrefixFree, C.IsExpansion, V.ViewAt, V.Merge, R.Answers, S.Rendered, InstanceOf;
      ghost var before, n := renderer.values, |renderer.history|;
      assert n == |requests| by { R.AsMany(renderer.history, requests); }
      O.KeyedPrefixFree(q.Assigns());
      r := GenerateNatsResources(k, config, o);
      ghost var e := renderer.history[n];
      requests := requests + [q];
      assert renderer.history == old(renderer.history) + [e];
      R.OneMoreAnswer(old(renderer.history), old(requests), e, q);
      T.RenderedHold(before, e, q.spec, q.istio, q.rotate, q.fileSize, q.images);
      O.RenderHolds(before, e, q.Assigns());
      ChosenInstance(k, renderer.values, q.spec, q.istio, q.rotate, q.fileSize, q.images);
    }

    /**
     * At any time the shared values hold, at and below each override's path, what the latest of the
     * controller's requests that set it asked for, else the chart's own value.
     */
    lemma ValuesFollowRequests(k: O.OverrideKey, q: seq<string>)
      requires Valid() && R.Fits(renderer.defaults)
      ensures V.ViewAt(renderer.values, O.Path(k) + q) ==
              V.Over(R.LatestSaid(requests, k, q), V.ViewAt(renderer.defaults, O.Path(k) + q))
    {
      hide V.ViewAt, V.Over, R.Fits, O.Path, R.Answers, R.LatestSaid;
      R.LatestRequestWins(renderer.defaults, renderer.history, requests, k, q);
    }

    method DeployInstance(k: Key, instance: S.Instance, o: S.Obs) returns (fault: Option<Error>)
      modifies api
      ensures (Now(), fault) == S.ApplyAll(old(Now()), k, instance.manifests, o.applyFaults)
    {
      var ms := instance.manifests;
      for i := 0 to |ms|
        invariant S.ApplyAll(old(Now()), k, ms, o.applyFaults) == S.ApplyAll(Now(), k, ms[i..], o.applyFaults)
      {
        assert ms[i..][1..] == ms[i + 1..];
        if ms[i] in o.applyFaults {
          return Some(o.applyFaults[ms[i]]);
        }
        api.PatchApply(k, ms[i]);
      }
      return None;
    }

    method GetStatefulSets(instance: S.Instance) returns (sets: seq<S.Manifest>)
      ensures forall m :: m in sets <==> m in instance.manifests && m.StatefulSetManifest?
    {
      sets := [];
      for i := 0 to |instance.manifests|
        invariant forall m :: m in sets <==> m in instance.manifests[..i] && m.StatefulSetManifest?
      {
        if instance.manifests[i].StatefulSetManifest? {
          sets := sets + [instance.manifests[i]];
        }
      }
    }

    /** Ready when all replicas of every rendered StatefulSet are current, updated and ready; never without one. */
    method IsNATSStatefulSetReady(instance: S.Instance, o: S.Obs) returns (r: Reply<bool>)
      ensures (forall m :: m in instance.manifests ==> !m.StatefulSetManifest?) ==> r.Err?
      ensures (exists m :: m in instance.manifests && m.StatefulSetManifest?) ==>
                match o.statefulSet
                case Err(e) => r == Err(e)
                case Got(s) => r == Got(s.current == s.replicas && s.updated == s.replicas && s.ready == s.replicas)
    {
      var sets := GetStatefulSets(instance);
      if |sets| == 0 {
        return Err(Error(Failure, "NATS StatefulSet not found in manifests"));
      }
      assert sets[0] in sets;
      for i := 0 to |sets|
        invariant i > 0 ==> o.statefulSet.Got? && var s := o.statefulSet.value; s.replicas == s.current == s.updated == s.ready
      {
        match o.statefulSet
        case Err(e) => return Err(e);
        case Got(s) =>
          if s.replicas != s.current || s.replicas != s.updated || s.replicas != s.ready {
            return Got(false);
          }
      }
      return Got(true);
    }

    method HandleNATSState(nats: Nats, instance: S.Instance, o: S.Obs) returns (out: S.Outcome)
      requires nats.key in api.crs && nats.spec == api.crs[nats.key].spec
      requires nats.status.Snapshot() == api.crs[nats.key].status.Initialized(o.now)
      requires exists m :: m in instance.manifests && m.StatefulSetManifest?
      modifies api, nats.status
      ensures var v := match o.statefulSet case Err(e) => S.StatefulSetUnknown(e.message)
                                           case Got(s) => if S.SetReady(s) then S.Running(o.zones) else S.NotReady;
              (Now(), out) == S.Conclude(old(Now()), nats.key, v, o)
    {
      hide Status.IsEqual, SetCondition;
      nats.status.ClearURL();
      var ready := IsNATSStatefulSetReady(instance, o);
      if ready.Err? {
        nats.status.UpdateCondition(StatefulSet, IsFalse, ReasonSyncFailError, Text(ready.error.message), o.now);
        SyncNATSStatusWithErr(nats, ready.error.message, o);
        return S.FAILED;
      }
      if !ready.value {
        nats.status.SetWaitingStateForStatefulSet(o.now);
        nats.status.availabilityZonesUsed := 0;
        var waitFailed := SyncNATSStatus(nats, o);
        return S.Outcome(false, S.REQUEUE_AFTER, waitFailed);
      }
      nats.status.SetStateReady(o.now);
      nats.status.SetURL(ServiceUrl(nats.key));
      nats.status.availabilityZonesUsed := if o.zones.Got? then o.zones.value else 0;
      if o.zones.Err? {
        nats.status.UpdateCondition(AvailabilityZones, IsFalse, ReasonProcessingError, Text(o.zones.error.message), o.now);
        if !o.zones.error.kind.ZoneLabelMissing? {
          nats.status.state := Failed;
          var _ := SyncNATSStatus(nats, o);
          return S.FAILED;
        }
      } else if nats.spec.clusterSize < O.MIN_CLUSTER_SIZE {
        nats.status.UpdateCondition(AvailabilityZones, IsFalse, ReasonNotConfigured, NotClustered, o.now);
      } else if nats.status.availabilityZonesUsed == nats.spec.clusterSize {
        nats.status.UpdateCondition(AvailabilityZones, IsTrue, ReasonDeployed, SpreadOverZones, o.now);
      } else {
        nats.status.UpdateCondition(AvailabilityZones, IsFalse, ReasonUnknown, TooFewZones(nats.status.availabilityZonesUsed), o.now);
        nats.status.SetStateWarning();
      }
      var failed := SyncNATSStatus(nats, o);
      return S.Outcome(false, 0, failed);
    }

    method HandleNATSReconcile(nats: Nats, o: S.Obs) returns (out: S.Outcome)
      requires Valid() && nats.key in api.crs && nats.IsCopyOf(api.crs[nats.key])
      modifies this, api, renderer, nats, nats.status
      ensures Valid()
      ensures (Now(), out) == S.Provision(old(Now()), nats.key, o)
    {
      hide T.Held, T.FileSize, S.InitInstance, S.Rendered, S.ApplyAll, S.Conclude, S.SyncStatus, S.Explained, S.StatusFor, Status.Initialized, Status.IsEqual, R.Answers;
      SyncCloudProvider(o);
      ghost var w1 := Now();
      nats.status.Initialize(o.now);
      if S.NatsFinalizer !in nats.finalizers {
        out := AddFinalizer(nats, o);
        return;
      }
      var instance := InitNATSInstance(nats, o);
      assert Now() == w1;
      if instance.Err? {
        BrokenConcludes(Now(), nats.key, instance.error.message, o);
        SyncNATSStatusWithErr(nats, instance.error.message, o);
        return S.FAILED;
      }
      Record(S.Deployed(nats.key, nats.uid, instance.value.fileSize));
      S.ApplyAllFrame(Now(), nats.key, instance.value.manifests, o.applyFaults);
      var fault := DeployInstance(nats.key, instance.value, o);
      if fault.Some? {
        BrokenConcludes(Now(), nats.key, fault.value.message, o);
        SyncNATSStatusWithErr(nats, fault.value.message, o);
        return S.FAILED;
      }
      if instance.value.istio && !destinationRuleWatchStarted {
        if o.watchFault.Some? {
          BrokenConcludes(Now(), nats.key, o.watchFault.value.message, o);
          SyncNATSStatusWithErr(nats, o.watchFault.value.message, o);
          return S.FAILED;
        }
        destinationRuleWatchStarted := true;
        Record(S.WatchStarted);
      }
      InstanceHasStatefulSet(w1, nats.key, nats.spec, o);
      out := HandleNATSState(nats, instance.value, o);
    }

    // ---- The allowed-resource check ----

    method HandleNATSCRAllowedCheck(nats: Nats, o: S.Obs) returns (allowed: bool, failed: bool)
      requires allowedNATSCR.Some? && nats.key in api.crs && nats.IsCopyOf(api.crs[nats.key])
      modifies api, nats.status
      ensures allowed <==> nats.key == allowedNATSCR.value
      ensures allowed ==> !failed && Now() == old(Now()) && nats.IsCopyOf(api.crs[nats.key])
      ensures !allowed ==> (Now(), S.Outcome(false, 0, failed)) == S.Forbid(old(Now()), nats.key, allowedNATSCR.value, o)
    {
      if nats.key.name == allowedNATSCR.value.name && nats.key.ns == allowedNATSCR.value.ns {
        return true, false;
      }
      nats.status.SetStateError(o.now);
      nats.status.UpdateCondition(StatefulSet, IsFalse, ReasonForbidden, NoMessage, o.now);
      nats.status.UpdateCondition(Available, IsFalse, ReasonForbidden,
                                  OnlyAllowed(allowedNATSCR.value.ns, allowedNATSCR.value.name), o.now);
      failed := SyncNATSStatus(nats, o);
      allowed := false;
    }

    // ---- Deletion ----

    method CustomerStreamExists(o: S.Obs) returns (r: Reply<bool>)
      ensures r == match o.streams case Err(e) => Err(e) case Got(streams) => Got(S.ForeignStream(streams))
    {
      if o.streams.Err? {
        return Err(o.streams.error);
      }
      var streams := o.streams.value;
      for i := 0 to |streams|
        invariant forall j :: 0 <= j < i ==> streams[j] == S.SAP_STREAM
      {
        if streams[i] != S.SAP_STREAM {
          assert streams[i] in streams && S.ForeignStream(streams);
          return Got(true);
        }
      }
      return Got(false);
    }

    method SapStreamConsumerExists(o: S.Obs) returns (r: Reply<bool>)
      ensures r == match o.streamsAgain
                   case Err(e) => Err(e)
                   case Got(streams) => if S.SAP_STREAM in streams then o.consumers else Got(false)
    {
      if o.streamsAgain.Err? {
        return Err(o.streamsAgain.error);
      }
      var streams := o.streamsAgain.value;
      var sapStreamExists := false;
      for i := 0 to |streams|
        invariant sapStreamExists <==> S.SAP_STREAM in streams[..i]
      {
        if streams[i] == S.SAP_STREAM {
          sapStreamExists := true;
          break;
        }
      }
      if !sapStreamExists {
        return Got(false);
      }
      return o.consumers;
    }

    method CreateAndConnectNatsClient(nats: Nats, o: S.Obs) returns (failed: bool)
      modifies this`natsClients, this`nextClient, api`trace
      ensures Now() == S.ConnectClient(old(Now()), nats.key)
      ensures failed == o.connectFault.Some?
    {
      var crKey := RegistryKey(nats.key);
      if crKey !in natsClients {
        natsClients := natsClients[crKey := nextClient];
        Record(S.ClientStored(nextClient, crKey));
        nextClient := nextClient + 1;
      }
      failed := o.connectFault.Some?;
    }

    method CloseNatsClient(nats: Nats)
      modifies this`natsClients, api`trace
      ensures Now() == S.CloseClient(old(Now()), nats.key)
    {
      var crKey := RegistryKey(nats.key);
      if crKey in natsClients {
        Record(S.ClientClosed(natsClients[crKey]));
        natsClients := natsClients - {crKey};
      }
    }

    method DeletePVCsWithLabel(instance: string, mustHaveNamePrefix: string, ns: string, o: S.Obs) returns (fault: Option<Error>)
      modifies api`pvcs
      ensures o.pvcListFault.Some? ==> fault == o.pvcListFault && api.pvcs == old(api.pvcs)
      ensures o.pvcListFault.None? ==>
                (api.pvcs, fault) ==
                S.DeleteAll(old(api.pvcs), S.Labelled(old(api.pvcs), ns, instance), mustHaveNamePrefix, o.pvcFaults)
    {
      if o.pvcListFault.Some? {
        return o.pvcListFault;
      }
      var list := api.ListPvcs(ns, instance);
      for i := 0 to |list|
        invariant S.DeleteAll(old(api.pvcs), list, mustHaveNamePrefix, o.pvcFaults) ==
                  S.DeleteAll(api.pvcs, list[i..], mustHaveNamePrefix, o.pvcFaults)
      {
        assert list[i..][1..] == list[i + 1..];
        if HasPrefix(list[i].name, mustHaveNamePrefix) {
          if list[i] in o.pvcFaults {
            return Some(o.pvcFaults[list[i]]);
          }
          api.DeletePvc(list[i]);
        }
      }
      return None;
    }

    method DeletePVCsAndRemoveFinalizer(nats: Nats, o: S.Obs) returns (out: S.Outcome)
      requires nats.key in api.crs && nats.finalizers == api.crs[nats.key].finalizers
      modifies this`natsClients, api, nats
      ensures (Now(), out) == S.SweepAndRelease(old(Now()), nats.key, o)
    {
      var labelValue := nats.key.name;
      if nats.key.name == "eventing-nats" {
        labelValue := "eventing";
      }
      ghost var uid := api.crs[nats.key].uid;
      Record(S.SweepStarted(nats.key, uid));
      var fault := DeletePVCsWithLabel(labelValue, nats.key.name, nats.key.ns, o);
      if fault.Some? {
        return S.Outcome(false, 0, !fault.value.kind.NotFound?);
      }
      Record(S.Swept(nats.key, uid));
      CloseNatsClient(nats);
      out := RemoveFinalizer(nats, o);
    }

    method HandleNATSDeletion(nats: Nats, o: S.Obs) returns (out: S.Outcome)
      requires nats.key in api.crs && nats.IsCopyOf(api.crs[nats.key])
      modifies this`natsClients, this`nextClient, api, nats, nats.status
      ensures (Now(), out) == S.Delete(old(Now()), nats.key, o)
    {
      if S.NatsFinalizer !in nats.finalizers {
        return S.DONE;
      }
      nats.status.SetStateDeleting();
      var connectFailed := CreateAndConnectNatsClient(nats, o);
      if connectFailed {
        out := DeletePVCsAndRemoveFinalizer(nats, o);
        return;
      }
      var customerStream := CustomerStreamExists(o);
      if customerStream.Err? {
        out := DeletePVCsAndRemoveFinalizer(nats, o);
        return;
      }
      if customerStream.value {
        out := HoldDeletion(nats, Message.CustomerStreamExists, o);
        return;
      }
      var sapConsumer := SapStreamConsumerExists(o);
      if sapConsumer.Err? {
        out := DeletePVCsAndRemoveFinalizer(nats, o);
        return;
      }
      if sapConsumer.value {
        out := HoldDeletion(nats, Message.StreamConsumerExists, o);
        return;
      }
      out := DeletePVCsAndRemoveFinalizer(nats, o);
    }

    /** Warn about what blocks the deletion, and come back. */
    method HoldDeletion(nats: Nats, message: Message, o: S.Obs) returns (out: S.Outcome)
      requires nats.key in api.crs
      modifies api, nats.status
      ensures var (w, failed) := S.SyncStatus(old(Now()), nats.key, S.BlockedStatus(old(nats.status.Snapshot()), message, o.now), o);
              Now() == w && out == S.Outcome(true, 0, failed)
    {
      nats.status.SetStateWarning();
      nats.status.UpdateCondition(Deleted, IsFalse, ReasonDeletionError, message, o.now);
      var failed := SyncNATSStatus(nats, o);
      out := S.Outcome(true, 0, failed);
    }

    // ---- Reconcile ----

    method Reconcile(k: Key, o: S.Obs) returns (out: S.Outcome)
      requires Valid()
      modifies this, api, renderer
      ensures Valid()
      ensures (Now(), out) == S.Reconcile(S.Config(allowedNATSCR), old(Now()), k, o)
    {
      if o.readFault.Some? {
        return S.FAILED;
      }
      var current := api.Get(k);
      if current.None? {
        return S.DONE;
      }
      var nats := new Nats.DeepCopy(k, current.value);
      if nats.deleting {
        out := HandleNATSDeletion(nats, o);
        return;
      }
      if allowedNATSCR.Some? {
        var allowed, failed := HandleNATSCRAllowedCheck(nats, o);
        if !allowed || failed {
          return S.Outcome(false, 0, failed);
        }
      }
      out := HandleNATSReconcile(nats, o);
    }
  }

  /** What the chart renders from given values. */
  function InstanceOf(k: Key, values: V.Tree): S.Instance {
    var rotate := V.ViewAt(values, O.Path(O.RotatePassword)) == V.Value(V.Bool(true));
    var istio := V.ViewAt(values, O.Path(O.IstioEnabled)) == V.Value(V.Bool(true));
    var size := V.ViewAt(values, O.Path(O.FileStorageSize));
    S.Instance(S.Rendered(k, rotate, istio), istio, if size.Value? && size.value.Quantity? then size.value.bytes else 0)
  }

  /** Values that hold a spec's overrides render what the spec asks for, whatever else they hold from earlier renders. */
  lemma ChosenInstance(k: Key, values: V.Tree, spec: O.Spec, istio: bool, rotate: bool, fileSize: nat, images: O.Images)
    requires O.Holds(values, O.Chosen(spec, istio, rotate, fileSize, images))
    ensures InstanceOf(k, values) == S.Instance(S.Rendered(k, rotate, istio), istio, fileSize)
  {
    var chosen := O.Chosen(spec, istio, rotate, fileSize, images);
    assert O.Lookup(chosen, O.IstioEnabled).Some? && O.Lookup(chosen, O.RotatePassword).Some? &&
           O.Lookup(chosen, O.FileStorageSize).Some?;
  }

  /** Concluding from an error: the error status is synced and the reconcile fails. */
  lemma BrokenConcludes(w: S.World, k: Key, message: string, o: S.Obs)
    requires k in w.server.crs
    ensures S.Conclude(w, k, S.Broken(message), o) ==
            (S.SyncStatus(w, k, S.Explained(w.server.crs[k].status.Initialized(o.now), message, o.now), o).0, S.FAILED)
  {
  }

  /** Every release instance holds a StatefulSet. */
  lemma InstanceHasStatefulSet(w: S.World, k: Key, spec: O.Spec, o: S.Obs)
    requires S.InitInstance(w, k, spec, o).Got?
    ensures exists m :: m in S.InitInstance(w, k, spec, o).value.manifests && m.StatefulSetManifest?
  {
    hide Fullname, LookupSecret, DeployedSecret;
    var manifests := S.InitInstance(w, k, spec, o).value.manifests;
    var i := if LookupSecret(k) !in w.server.secrets then 4 else 3;
    assert manifests[i] == S.StatefulSetManifest(Key(k.ns, Fullname(k.name)));
    assert manifests[i] in manifests;
  }
}
