/** pkg/attachdetach/controller/persistentvolumeclaim/proxy/sync.go. Between any two API calls the cluster
    and the cache may change; every call is a step of the binding protocol. */
module ProxyControllers {
  import opened Kubernetes
  import opened Binding
  import opened BindingSafety
  import opened Clusters

  datatype SyncError = UnsupportedDriver | MissingRequest | Api(error: ApiError)

  /** The cached objects call for a binding. */
  predicate CanBind(proxy: Option<Pvc>, backend: Option<Pvc>) {
    && proxy.Some? && WantsBinding(proxy.value)
    && backend.Some? && FreeFor(backend.value, proxy.value)
  }

  ghost predicate OnceCompleted(history: set<Pvc>, proxy: string) {
    exists h :: h in history && h.name == proxy && HasAnnotation(h, BindCompleted)
  }

  /** When the second write is accepted, both halves of the binding have been made. */
  lemma CompletionIsRecorded(acts: seq<Action>, w: nat)
    requires Legal(acts) && w in After(acts).workers && After(acts).workers[w].Completing?
    ensures var s, task := After(acts), After(acts).workers[w];
            Send(s.server, task).Ok? ==>
              var history := Apply(s, Write(w)).history;
              && OnceClaimed(history, task.backend.name, task.proxy.name)
              && OnceCompleted(history, task.proxy.name)
  {
    InvRun(acts);
    var s, task := After(acts), After(acts).workers[w];
    if Send(s.server, task).Ok? {
      AcceptedWrite(s, w);
      assert WorkerInv(s.history, task);
      var t := Apply(s, Write(w));
      assert t.server.store[task.proxy.name] in t.history;
    }
  }

  class Controller {
    const cluster: Cluster
    const informer: Informer
    const worker: nat
    var requeued: set<string>

    constructor (cluster: Cluster, informer: Informer, worker: nat)
      ensures this.cluster == cluster && this.informer == informer && this.worker == worker && requeued == {}
    {
      this.cluster, this.informer, this.worker, requeued := cluster, informer, worker, {};
    }

    ghost predicate Valid()
      reads this, cluster, informer
    {
      cluster.Valid() && informer.Valid(cluster)
    }

    ghost predicate Idle()
      requires cluster.Valid()
      reads this, cluster
    {
      worker !in cluster.State().workers
    }

    ghost predicate Tasked(task: Worker)
      requires cluster.Valid()
      reads this, cluster
    {
      worker in cluster.State().workers && cluster.State().workers[worker] == task
    }

    method Sync(key: string) returns (r: Result<(), SyncError>, ghost proxy: Option<Pvc>, ghost backend: Option<Pvc>)
      requires Valid() && Idle()
      modifies cluster, informer, this`requeued
      ensures Valid() && Idle() && old(cluster.log) <= cluster.log
      ensures proxy.Some? ==> proxy.value.name == key
      ensures backend.Some? ==> proxy.Some? && backend.value.name == RequestOf(proxy.value)
      // What is looked up: the claim, and for an unbound proxy of this driver the backend that it asks for.
      ensures var asks := proxy.Some? && !proxy.value.deleting && BindCompleted !in proxy.value.annotations
                          && StorageProvisioner in proxy.value.annotations
                          && proxy.value.annotations[StorageProvisioner] == DRIVER_NAME
                          && BackendRef in proxy.value.annotations && proxy.value.annotations[BackendRef] != "";
              && informer.lookups == old(informer.lookups) + [Lookup(key, proxy)] +
                 (if asks then [Lookup(proxy.value.annotations[BackendRef], backend)] else [])
              && (!asks ==> backend.None?)
              && (CanBind(proxy, backend) <==>
                    asks && backend.Some? && (ProxyRef in backend.value.annotations ==>
                                                backend.value.annotations[ProxyRef] in {"", key}))
      // What is reported.
      ensures r == Err(UnsupportedDriver) <==>
              proxy.Some? && !proxy.value.deleting
              && !HasMatchingAnnotation(proxy.value, StorageProvisioner, DRIVER_NAME)
      ensures r == Err(MissingRequest) <==>
              proxy.Some? && !proxy.value.deleting
              && HasMatchingAnnotation(proxy.value, StorageProvisioner, DRIVER_NAME)
              && !HasAnnotation(proxy.value, BindCompleted) && !HasAnnotation(proxy.value, BackendRef)
      ensures requeued == old(requeued) +
              (if proxy.Some? && WantsBinding(proxy.value) && backend.Some? && !CanBind(proxy, backend)
               then {key} else {})
      // What is written.
      ensures !CanBind(proxy, backend) ==>
                OwnWrites(cluster.log, worker) == OwnWrites(old(cluster.log), worker) && !(r.Err? && r.error.Api?)
      ensures r.Err? && r.error.Api? ==> RefusedSince(cluster.log, old(|cluster.log|), worker)
      ensures CanBind(proxy, backend) && r.Ok? ==>
                && OnceClaimed(cluster.State().history, RequestOf(proxy.value), key)
                && OnceCompleted(cluster.State().history, key)
                && OwnWrites(cluster.log, worker) ==
                   OwnWrites(old(cluster.log), worker) + (if RefOf(backend.value) == key then 1 else 2)
    {
      cluster.Interfere(worker);
      informer.Refresh(cluster);
      var pvc := informer.Get(key);
      proxy, backend := pvc, None;
      if pvc.None? {
        return Ok(()), proxy, backend;
      }
      if pvc.value.deleting {
        return Ok(()), proxy, backend;
      }
      if !HasMatchingAnnotation(pvc.value, StorageProvisioner, DRIVER_NAME) {
        return Err(UnsupportedDriver), proxy, backend;
      }
      if HasAnnotation(pvc.value, BindCompleted) {
        return Ok(()), proxy, backend;
      }
      r, backend := SyncUnbound(key, pvc.value);
    }

    method SyncUnbound(key: string, pvc: Pvc) returns (r: Result<(), SyncError>, ghost backend: Option<Pvc>)
      requires Valid() && Idle()
      requires pvc in cluster.State().history && pvc.name == key && !pvc.deleting
      requires HasMatchingAnnotation(pvc, StorageProvisioner, DRIVER_NAME) && !HasAnnotation(pvc, BindCompleted)
      modifies cluster, informer, this`requeued
      ensures Valid() && Idle() && old(cluster.log) <= cluster.log
      ensures backend.Some? ==> backend.value.name == RequestOf(pvc)
      ensures var asks := BackendRef in pvc.annotations && pvc.annotations[BackendRef] != "";
              && informer.lookups == old(informer.lookups) +
                 (if asks then [Lookup(pvc.annotations[BackendRef], backend)] else [])
              && (!asks ==> backend.None?)
              && (CanBind(Some(pvc), backend) <==>
                    asks && backend.Some? && (ProxyRef in backend.value.annotations ==>
                                                backend.value.annotations[ProxyRef] in {"", key}))
      ensures r == Err(MissingRequest) <==> !HasAnnotation(pvc, BackendRef)
      ensures r != Err(UnsupportedDriver)
      ensures requeued == old(requeued) +
              (if WantsBinding(pvc) && backend.Some? && !CanBind(Some(pvc), backend) then {key} else {})
      ensures !CanBind(Some(pvc), backend) ==>
                OwnWrites(cluster.log, worker) == OwnWrites(old(cluster.log), worker) && !(r.Err? && r.error.Api?)
      ensures r.Err? && r.error.Api? ==> RefusedSince(cluster.log, old(|cluster.log|), worker)
      ensures CanBind(Some(pvc), backend) && r.Ok? ==>
                && OnceClaimed(cluster.State().history, RequestOf(pvc), key)
                && OnceCompleted(cluster.State().history, key)
                && OwnWrites(cluster.log, worker) ==
                   OwnWrites(old(cluster.log), worker) + (if RefOf(backend.value) == key then 1 else 2)
    {
      backend := None;
      if !HasAnnotation(pvc, BackendRef) {
        return Err(MissingRequest), backend;
      }
      var requested := pvc.annotations[BackendRef];
      if |requested| == 0 {
        return Ok(()), backend;
      }
      cluster.Interfere(worker);
      informer.Refresh(cluster);
      var found := informer.Get(requested);
      backend := found;
      if found.None? {
        return Ok(()), backend;
      }
      var bound := Annotation(found.value, ProxyRef);
      if |bound| == 0 || bound == pvc.name {
        r := Bind(pvc, found.value);
      } else {
        requeued := requeued + {key};
        r := Ok(());
      }
    }

    method Bind(proxy: Pvc, backend: Pvc) returns (r: Result<(), SyncError>)
      requires Valid() && Idle()
      requires Enabled(cluster.State(), BinderRead(worker, proxy, backend))
      modifies cluster, informer
      ensures informer.lookups == old(informer.lookups)
      ensures Valid() && Idle() && old(cluster.log) <= cluster.log
      ensures r.Err? ==> r.error.Api? && RefusedSince(cluster.log, old(|cluster.log|), worker)
      ensures r.Ok? ==>
                && OnceClaimed(cluster.State().history, backend.name, proxy.name)
                && OnceCompleted(cluster.State().history, proxy.name)
                && OwnWrites(cluster.log, worker) ==
                   OwnWrites(old(cluster.log), worker) + (if RefOf(backend) == proxy.name then 1 else 2)
    {
      cluster.Decide(worker, BinderRead(worker, proxy, backend));
      r := BindBackendToProxy(proxy, backend);
      if r.Err? {
        return r;
      }
      r := CompleteProxyBind(proxy, backend);
    }

    method BindBackendToProxy(proxy: Pvc, backend: Pvc) returns (r: Result<(), SyncError>)
      requires Valid()
      requires Tasked(if RefOf(backend) == proxy.name then Completing(proxy, backend) else Claiming(proxy, backend))
      modifies cluster, informer
      ensures informer.lookups == old(informer.lookups)
      ensures Valid() && old(cluster.log) <= cluster.log
      ensures r.Err? ==> r.error.Api? && RefusedSince(cluster.log, old(|cluster.log|), worker)
      ensures if r.Ok? then Tasked(Completing(proxy, backend)) else Idle()
      ensures OwnWrites(cluster.log, worker) ==
              OwnWrites(old(cluster.log), worker) + (if RefOf(backend) == proxy.name then 0 else 1)
    {
      if Annotation(backend, ProxyRef) == proxy.name {
        return Ok(());
      }
      var copy := backend;
      copy := copy.(annotations := copy.annotations[ProxyRef := proxy.name]);
      cluster.Interfere(worker);
      informer.Refresh(cluster);
      var answer := cluster.Update(worker, copy);
      r := if answer.Ok? then Ok(()) else Err(Api(answer.error));
    }

    method CompleteProxyBind(proxy: Pvc, ghost backend: Pvc) returns (r: Result<(), SyncError>)
      requires Valid() && Tasked(Completing(proxy, backend))
      modifies cluster, informer
      ensures informer.lookups == old(informer.lookups)
      ensures Valid() && old(cluster.log) <= cluster.log
      ensures r.Err? ==> r.error.Api? && RefusedSince(cluster.log, old(|cluster.log|), worker)
      ensures HasAnnotation(proxy, BindCompleted) ==> r.Ok? && cluster.log == old(cluster.log)
      ensures !HasAnnotation(proxy, BindCompleted) ==>
                && Idle() && OwnWrites(cluster.log, worker) == OwnWrites(old(cluster.log), worker) + 1
                && (r.Ok? ==> OnceClaimed(cluster.State().history, backend.name, proxy.name)
                              && OnceCompleted(cluster.State().history, proxy.name))
    {
      if HasAnnotation(proxy, BindCompleted) {
        return Ok(());
      }
      var copy := proxy;
      copy := copy.(annotations := copy.annotations[BindCompleted := ""]);
      cluster.Interfere(worker);
      informer.Refresh(cluster);
      CompletionIsRecorded(cluster.log, worker);
      var answer := cluster.Update(worker, copy);
      r := if answer.Ok? then Ok(()) else Err(Api(answer.error));
    }
  }
}
