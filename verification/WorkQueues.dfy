/** The event handlers of the three controllers (controller.go of proxy, backend and backend/protection under
    pkg/attachdetach/controller/persistentvolumeclaim) and the step with which a worker takes its next key. */
module WorkQueues {
  import opened Kubernetes
  import opened Binding
  import opened Clusters
  import opened WakeUpRoles
  import opened WakeUps
  import ProxyControllers

  class WorkQueue {
    var keys: set<string>     // waiting, now or after a back-off

    constructor ()
      ensures keys == {}
    {
      keys := {};
    }

    method Add(key: string)
      modifies this
      ensures keys == old(keys) + {key}
    {
      keys := keys + {key};
    }

    method AddRateLimited(key: string)
      modifies this
      ensures keys == old(keys) + {key}
    {
      keys := keys + {key};
    }

    /** One of the waiting keys. */
    method Get() returns (key: string)
      requires keys != {}
      modifies this
      ensures key in old(keys) && keys == old(keys) - {key}
    {
      key :| key in keys;
      keys := keys - {key};
    }
  }

  class Handlers {
    const informer: Informer
    const bind: WorkQueue
    const release: WorkQueue
    const protect: WorkQueue

    constructor (informer: Informer, bind: WorkQueue, release: WorkQueue, protect: WorkQueue)
      ensures this.informer == informer && this.bind == bind && this.release == release && this.protect == protect
    {
      this.informer, this.bind, this.release, this.protect := informer, bind, release, protect;
    }

    method EnqueueProxyDirectlyOrThroughAnnotation(pvc: Pvc)
      requires forall n <- informer.cache :: informer.cache[n].name == n
      modifies bind
      ensures bind.keys == old(bind.keys) + BindWakes(informer.cache, pvc)
      ensures var proxies := set n | n in informer.cache && StorageProvisioner in informer.cache[n].annotations
                                     && informer.cache[n].annotations[StorageProvisioner] == DRIVER_NAME;
              forall k :: k in bind.keys <==>
                || k in old(bind.keys)
                || (if StorageProvisioner in pvc.annotations && pvc.annotations[StorageProvisioner] == DRIVER_NAME
                       && BackendRef in pvc.annotations
                    then k == pvc.name
                    else k in proxies && BackendRef in informer.cache[k].annotations
                         && informer.cache[k].annotations[BackendRef] == pvc.name)
    {
      if IsProxy(pvc) {
        bind.Add(pvc.name);
        return;
      }
      var rest := informer.cache.Keys;
      ghost var wakes := BindWakes(informer.cache, pvc);
      while rest != {}
        invariant rest <= informer.cache.Keys
        invariant bind.keys == old(bind.keys) + (wakes - rest)
        decreases rest
      {
        var n :| n in rest;
        var proxy := informer.cache[n];
        if HasMatchingAnnotation(proxy, StorageProvisioner, DRIVER_NAME)
           && HasMatchingAnnotation(proxy, BackendRef, pvc.name) {
          bind.Add(proxy.name);
        }
        rest := rest - {n};
      }
    }

    method EnqueueProxyRefDirectlyOrThroughAnnotation(pvc: Pvc)
      requires forall n <- informer.cache :: informer.cache[n].name == n
      modifies release, informer`lookups
      ensures forall k :: k in release.keys <==>
                || k in old(release.keys)
                || (if ProxyRef in pvc.annotations then k == pvc.name
                    else BackendRef in pvc.annotations && k == pvc.annotations[BackendRef] && k in informer.cache)
      ensures release.keys == old(release.keys) + ReleaseWakes(informer.cache, pvc)
    {
      if HasAnnotation(pvc, ProxyRef) {
        release.Add(pvc.name);
        return;
      }
      if !HasAnnotation(pvc, BackendRef) {
        return;
      }
      var backend := informer.Get(pvc.annotations[BackendRef]);
      if backend.None? {
        return;
      }
      release.Add(backend.value.name);
    }

    method EnqueueBackingDirectlyOrThroughAnnotation(pvc: Pvc)
      requires forall n <- informer.cache :: informer.cache[n].name == n
      modifies protect, informer`lookups
      ensures forall k :: k in protect.keys <==>
                || k in old(protect.keys)
                || (if ProxyRef in pvc.annotations || BackendProtection in pvc.finalizers then k == pvc.name
                    else BindCompleted in pvc.annotations && BackendRef in pvc.annotations
                         && k == pvc.annotations[BackendRef] && k in informer.cache)
      ensures protect.keys == old(protect.keys) + ProtectWakes(informer.cache, pvc)
    {
      if HasAnnotation(pvc, ProxyRef) || HasFinalizer(pvc, BackendProtection) {
        protect.Add(pvc.name);
        return;
      }
      if !HasAnnotation(pvc, BindCompleted) {
        return;
      }
      if !HasAnnotation(pvc, BackendRef) {
        return;
      }
      var backing := informer.Get(pvc.annotations[BackendRef]);
      if backing.None? {
        return;
      }
      protect.Add(backing.value.name);
    }
  }

  /** processNextItem of the binder: the key comes back exactly when its sync failed, or found the backend
      claimed by somebody else; a key that does not come back had nothing to bind or is bound. */
  method ProcessNextItem(controller: ProxyControllers.Controller, queue: WorkQueue)
    returns (key: string, r: Result<(), ProxyControllers.SyncError>, ghost proxy: Option<Pvc>, ghost backend: Option<Pvc>)
    requires controller.Valid() && controller.Idle() && queue.keys != {}
    modifies queue, controller.cluster, controller.informer, controller`requeued
    ensures controller.Valid() && controller.Idle() && old(controller.cluster.log) <= controller.cluster.log
    ensures key in old(queue.keys) && (proxy.Some? ==> proxy.value.name == key)
    ensures var waits := proxy.Some? && WantsBinding(proxy.value) && backend.Some?
                         && !ProxyControllers.CanBind(proxy, backend);
            queue.keys == if r.Err? || waits then old(queue.keys) else old(queue.keys) - {key}
    ensures old(controller.informer.lookups) + [Lookup(key, proxy)] <= controller.informer.lookups
    ensures proxy.Some? && WantsBinding(proxy.value) ==>
              controller.informer.lookups == old(controller.informer.lookups)
                                             + [Lookup(key, proxy), Lookup(RequestOf(proxy.value), backend)]
    ensures r.Ok? && ProxyControllers.CanBind(proxy, backend) ==>
              ProxyControllers.OnceCompleted(controller.cluster.State().history, key)
    ensures r.Err? && r.error.Api? ==>
              RefusedSince(controller.cluster.log, old(|controller.cluster.log|), controller.worker)
  {
    key := queue.Get();
    controller.requeued := {};
    r, proxy, backend := controller.Sync(key);
    if key in controller.requeued {
      queue.AddRateLimited(key);
    }
    if r.Ok? {
      return;
    }
    queue.AddRateLimited(key);
  }
}
