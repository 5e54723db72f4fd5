/** The two controllers of backend claims: pkg/attachdetach/controller/persistentvolumeclaim/backend/sync.go,
    which releases a backend whose proxy is gone, and .../backend/protection/sync.go, which keeps the
    protection finalizer. */
module BackendControllers {
  import opened Kubernetes
  import opened Binding
  import opened BindingSafety
  import opened BindingTheorems
  import opened Clusters

  /** At some moment from `from` on, no claim of this name was live. */
  ghost predicate AbsentSince(log: seq<Action>, from: nat, name: string)
    requires Legal(log)
  {
    exists k: nat :: from <= k <= |log| && name !in At(log, k).server.store
  }

  /** What happened since a later point happened since an earlier one. */
  lemma SinceEarlier(log: seq<Action>, from: nat, later: nat, w: nat)
    requires Legal(log) && from <= later
    ensures RefusedSince(log, later, w) ==> RefusedSince(log, from, w)
    ensures forall name :: AbsentSince(log, later, name) ==> AbsentSince(log, from, name)
  {
  }

  lemma AbsentNow(log: seq<Action>, from: nat, more: seq<Action>, name: string)
    requires Legal(log) && Legal(log + more) && from <= |log| && name !in After(log).server.store
    ensures AbsentSince(log + more, from, name)
  {
    assert (log + more)[..|log|] == log;
    assert At(log + more, |log|) == After(log);
  }

  /** A later version of the same claim names nobody. */
  ghost predicate ReleasedLater(history: set<Pvc>, backend: Pvc) {
    exists h :: h in history && h.name == backend.name && h.uid == backend.uid
                && h.version > backend.version && !HasAnnotation(h, ProxyRef)
  }

  lemma ReleaseIsRecorded(acts: seq<Action>, w: nat)
    requires Legal(acts) && w in After(acts).workers && After(acts).workers[w].Releasing?
    ensures var s, task := After(acts), After(acts).workers[w];
            Send(s.server, task).Ok? ==> ReleasedLater(Apply(s, Write(w)).history, task.backend)
  {
    InvRun(acts);
    var s, task := After(acts), After(acts).workers[w];
    if Send(s.server, task).Ok? {
      AcceptedWrite(s, w);
      assert WorkerInv(s.history, task);
      assert Apply(s, Write(w)).server.store[task.backend.name] in Apply(s, Write(w)).history;
    }
  }

  class Releaser {
    const cluster: Cluster
    const informer: Informer
    const worker: nat

    constructor (cluster: Cluster, informer: Informer, worker: nat)
      ensures this.cluster == cluster && this.informer == informer && this.worker == worker
    {
      this.cluster, this.informer, this.worker := cluster, informer, worker;
    }

    ghost predicate Valid()
      reads this, cluster, informer
    {
      cluster.Valid() && informer.Valid(cluster)
    }

    ghost predicate Idle()
      requires cluster.Valid()
      reads this, cluster
    {
      worker !in cluster.State().workers
    }

    /** Writes exactly when the cached claim has a reference to a proxy that neither the cache nor, at the
        moment of the live read, the server knows. A live read that fails otherwise is an error, and nothing is
        written. */
    method Sync(key: string) returns (r: Result<(), ApiError>, ghost backend: Option<Pvc>, ghost cached: Option<Pvc>,
                                      ghost live: Option<Result<Pvc, ApiError>>)
      requires Valid() && Idle()
      modifies cluster, informer
      ensures Valid() && Idle() && old(cluster.log) <= cluster.log
      ensures backend.Some? ==> backend.value.name == key
      // What is looked up: the claim, the proxy it names, and that proxy on the server when the cache lacks it.
      ensures var named := backend.Some? && ProxyRef in backend.value.annotations;
              && informer.lookups == old(informer.lookups) + [Lookup(key, backend)] +
                 (if named then [Lookup(backend.value.annotations[ProxyRef], cached)] else [])
              && (live.Some? <==> named && cached.None?)
              && cluster.liveReads == old(cluster.liveReads) +
                 (if named && cached.None? then [LiveRead(backend.value.annotations[ProxyRef], live.value)] else [])
      ensures var due := live == Some(Err(NotFound));
              && (due ==> AbsentSince(cluster.log, old(|cluster.log|), RefOf(backend.value)))
              && OwnWrites(cluster.log, worker) == OwnWrites(old(cluster.log), worker) + (if due then 1 else 0)
              && (due && r.Ok? ==> ReleasedLater(cluster.State().history, backend.value))
              && (due && r.Err? ==> RefusedSince(cluster.log, old(|cluster.log|), worker))
              && (!due ==> r == if live.Some? && live.value.Err? then Err(live.value.error) else Ok(()))
    {
      hide Legal, Apply, ReleasedLater, AbsentSince, OwnWrites, RefusedSince, AcceptedSince, Send, Update;
      live := None;
      cached := None;
      cluster.Interfere(worker);
      informer.Refresh(cluster);
      var pvc := informer.Get(key);
      backend := pvc;
      if pvc.None? {
        return Ok(()), backend, cached, live;
      }
      if !HasAnnotation(pvc.value, ProxyRef) {
        return Ok(()), backend, cached, live;
      }
      var proxyName := pvc.value.annotations[ProxyRef];
      cluster.Interfere(worker);
      informer.Refresh(cluster);
      var proxy := informer.Get(proxyName);
      cached := proxy;
      if proxy.Some? {
        return Ok(()), backend, cached, live;
      }
      ghost var before := |cluster.log|;
      ghost var answer;
      r, answer := ReleaseUnlessLive(pvc.value, proxyName);
      live := Some(answer);
      SinceEarlier(cluster.log, old(|cluster.log|), before, worker);
    }

    /** The live read, and the release when it finds nothing. */
    method ReleaseUnlessLive(backend: Pvc, proxyName: string)
      returns (r: Result<(), ApiError>, ghost live: Result<Pvc, ApiError>)
      requires Valid() && Idle() && backend in cluster.State().history
      requires HasAnnotation(backend, ProxyRef) && proxyName == RefOf(backend)
      modifies cluster, informer
      ensures Valid() && Idle() && old(cluster.log) <= cluster.log
      ensures informer.lookups == old(informer.lookups)
      ensures cluster.liveReads == old(cluster.liveReads) + [LiveRead(proxyName, live)]
      ensures var due := live == Err(NotFound);
              && (due ==> AbsentSince(cluster.log, old(|cluster.log|), proxyName))
              && OwnWrites(cluster.log, worker) == OwnWrites(old(cluster.log), worker) + (if due then 1 else 0)
              && (due && r.Ok? ==> ReleasedLater(cluster.State().history, backend))
              && (due && r.Err? ==> RefusedSince(cluster.log, old(|cluster.log|), worker))
              && (!due ==> r == if live.Err? then Err(live.error) else Ok(()))
    {
      hide Legal, Apply, ReleasedLater, AbsentSince, OwnWrites, RefusedSince, AcceptedSince, Send, Update;
      cluster.Interfere(worker);
      informer.Refresh(cluster);
      var read := cluster.Get(proxyName);
      live := read;
      if read.Ok? {
        return Ok(()), live;
      }
      if read.error != NotFound {
        return Err(read.error), live;
      }
      ghost var atGet := cluster.log;
      cluster.Decide(worker, ReleaserGet(worker, backend));
      ghost var decided := |cluster.log|;
      r := ReleaseBackend(backend);
      SinceEarlier(cluster.log, old(|cluster.log|), decided, worker);
      assert atGet + cluster.log[|atGet|..] == cluster.log;
      AbsentNow(atGet, old(|cluster.log|), cluster.log[|atGet|..], proxyName);
    }

    method ReleaseBackend(backend: Pvc) returns (r: Result<(), ApiError>)
      requires Valid() && worker in cluster.State().workers
      requires cluster.State().workers[worker] == Releasing(backend)
      modifies cluster, informer
      ensures informer.lookups == old(informer.lookups) && cluster.liveReads == old(cluster.liveReads)
      ensures Valid() && Idle() && old(cluster.log) <= cluster.log
      ensures OwnWrites(cluster.log, worker) == OwnWrites(old(cluster.log), worker) + 1
      ensures r.Ok? ==> ReleasedLater(cluster.State().history, backend)
      ensures r.Err? ==> RefusedSince(cluster.log, old(|cluster.log|), worker)
    {
      var copy := backend;
      copy := copy.(annotations := copy.annotations - {ProxyRef});
      cluster.Interfere(worker);
      informer.Refresh(cluster);
      ReleaseIsRecorded(cluster.log, worker);
      r := cluster.Update(worker, copy);
    }
  }

  class Protector {
    const cluster: Cluster
    const informer: Informer
    const worker: nat

    constructor (cluster: Cluster, informer: Informer, worker: nat)
      ensures this.cluster == cluster && this.informer == informer && this.worker == worker
    {
      this.cluster, this.informer, this.worker := cluster, informer, worker;
    }

    ghost predicate Valid()
      reads this, cluster, informer
    {
      cluster.Valid() && informer.Valid(cluster)
    }

    ghost predicate Idle()
      requires cluster.Valid()
      reads this, cluster
    {
      worker !in cluster.State().workers
    }

    ghost predicate Tasked(task: Worker)
      requires cluster.Valid()
      reads this, cluster
    {
      worker in cluster.State().workers && cluster.State().workers[worker] == task
    }

    /** Sends one patch when the cached claim lacks the finalizer and is not going away, or has it, is going
        away and backs nobody. */
    method Sync(key: string) returns (r: Result<(), ApiError>, ghost seen: Option<Pvc>)
      requires Valid() && Idle()
      modifies cluster, informer
      ensures Valid() && Idle() && old(cluster.log) <= cluster.log
      ensures seen.Some? ==> seen.value.name == key
      ensures informer.lookups == old(informer.lookups) + [Lookup(key, seen)]
      ensures var patches := seen.Some? && (
                if BackendProtection in seen.value.finalizers
                then seen.value.deleting && ProxyRef !in seen.value.annotations
                else !seen.value.deleting);
              && OwnWrites(cluster.log, worker) == OwnWrites(old(cluster.log), worker) + (if patches then 1 else 0)
              && (patches && r.Ok? ==>
                    AcceptedSince(cluster.log, old(|cluster.log|), worker,
                                  if seen.value.deleting then RemovingFinalizer(seen.value)
                                  else AddingFinalizer(seen.value)))
      ensures r.Err? ==> RefusedSince(cluster.log, old(|cluster.log|), worker)
    {
      cluster.Interfere(worker);
      informer.Refresh(cluster);
      var pvc := informer.Get(key);
      seen := pvc;
      if pvc.None? {
        return Ok(()), seen;
      }
      if pvc.value.deleting && HasFinalizer(pvc.value, BackendProtection) {
        if HasAnnotation(pvc.value, ProxyRef) {
          return Ok(()), seen;
        }
        r := RemoveFinalizer(pvc.value);
        return r, seen;
      }
      if !pvc.value.deleting && !HasFinalizer(pvc.value, BackendProtection) {
        r := AddFinalizer(pvc.value);
        return r, seen;
      }
      r := Ok(());
    }

    method AddFinalizer(pvc: Pvc) returns (r: Result<(), ApiError>)
      requires Valid() && Idle() && Enabled(cluster.State(), ProtectorRead(worker, pvc))
      requires ProtectorIntent(pvc).value.AddingFinalizer?
      modifies cluster, informer
      ensures informer.lookups == old(informer.lookups)
      ensures Valid() && Idle() && old(cluster.log) <= cluster.log
      ensures r.Ok? ==> AcceptedSince(cluster.log, old(|cluster.log|), worker, AddingFinalizer(pvc))
      ensures OwnWrites(cluster.log, worker) == OwnWrites(old(cluster.log), worker) + 1
      ensures r.Err? ==> RefusedSince(cluster.log, old(|cluster.log|), worker)
    {
      hide Legal, After, Apply;
      cluster.Decide(worker, ProtectorRead(worker, pvc));
      var patch := AddFinalizerPatch(pvc, BackendProtection);
      cluster.Interfere(worker);
      informer.Refresh(cluster);
      r := cluster.Patch(worker, pvc.name, patch);
    }

    method RemoveFinalizer(pvc: Pvc) returns (r: Result<(), ApiError>)
      requires Valid() && Idle() && Enabled(cluster.State(), ProtectorRead(worker, pvc))
      requires ProtectorIntent(pvc).value.RemovingFinalizer?
      modifies cluster, informer
      ensures informer.lookups == old(informer.lookups)
      ensures Valid() && Idle() && old(cluster.log) <= cluster.log
      ensures r.Ok? ==> AcceptedSince(cluster.log, old(|cluster.log|), worker, RemovingFinalizer(pvc))
      ensures OwnWrites(cluster.log, worker) == OwnWrites(old(cluster.log), worker) + 1
      ensures r.Err? ==> RefusedSince(cluster.log, old(|cluster.log|), worker)
    {
      hide Legal, After, Apply;
      cluster.Decide(worker, ProtectorRead(worker, pvc));
      var patch := RemoveFinalizerPatch(pvc, BackendProtection);
      cluster.Interfere(worker);
      informer.Refresh(cluster);
      r := cluster.Patch(worker, pvc.name, patch);
    }
  }
}
