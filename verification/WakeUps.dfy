/** The work queues of the three controllers. The handlers of the one cache that they share decide which keys
    a change of the cache puts on which queue; a worker takes a key, syncs it, and puts it back when the sync
    failed or has to wait. */
module WakeUps {
  import opened Kubernetes
  import opened Binding
  import opened BindingTheorems
  import opened WakeUpRoles

  datatype Queues = Queues(bind: set<string>, release: set<string>, protect: set<string>)

  datatype World = World(s: State, cache: map<string, Pvc>, queues: Queues)

  const WORKER := 0

  // What the handlers enqueue for an object, given the cache at that moment.

  /** enqueueProxyPVCDirectlyOrThroughAnnotation. */
  function BindWakes(cache: map<string, Pvc>, pvc: Pvc): set<string> {
    if IsProxy(pvc) then {pvc.name}
    else set n | n in cache && HasMatchingAnnotation(cache[n], StorageProvisioner, DRIVER_NAME)
                 && HasMatchingAnnotation(cache[n], BackendRef, pvc.name)
  }

  /** enqueuePVCWithProxyRefDirectlyOrThroughAnnotation. */
  function ReleaseWakes(cache: map<string, Pvc>, pvc: Pvc): set<string> {
    if HasAnnotation(pvc, ProxyRef) then {pvc.name}
    else if HasAnnotation(pvc, BackendRef) && RequestOf(pvc) in cache then {RequestOf(pvc)}
    else {}
  }

  /** enqueueBackingPVCDirectlyOrThroughAnnotation. */
  function ProtectWakes(cache: map<string, Pvc>, pvc: Pvc): set<string> {
    if HasAnnotation(pvc, ProxyRef) || HasFinalizer(pvc, BackendProtection) then {pvc.name}
    else if HasAnnotation(pvc, BindCompleted) && HasAnnotation(pvc, BackendRef) && RequestOf(pvc) in cache
    then {RequestOf(pvc)}
    else {}
  }

  function Woken(queues: Queues, cache: map<string, Pvc>, pvc: Pvc): Queues {
    Queues(queues.bind + BindWakes(cache, pvc), queues.release + ReleaseWakes(cache, pvc),
           queues.protect + ProtectWakes(cache, pvc))
  }

  /** After a restart every listed object is new to the handlers. */
  ghost function WokenByAll(cache: map<string, Pvc>): Queues {
    Queues(set k, n | n in cache && k in BindWakes(cache, cache[n]) :: k,
           set k, n | n in cache && k in ReleaseWakes(cache, cache[n]) :: k,
           set k, n | n in cache && k in ProtectWakes(cache, cache[n]) :: k)
  }

  // A sync, run to its end against the cache.

  datatype Verdict = Idle | Retry | Act(read: Action)

  function BindVerdict(cache: map<string, Pvc>, key: string): Verdict {
    if key !in cache then Idle
    else
      var proxy := cache[key];
      if proxy.deleting then Idle
      else if !HasMatchingAnnotation(proxy, StorageProvisioner, DRIVER_NAME) then Retry
      else if HasAnnotation(proxy, BindCompleted) then Idle
      else if !HasAnnotation(proxy, BackendRef) then Retry
      else if RequestOf(proxy) == "" || RequestOf(proxy) !in cache then Idle
      else if !FreeFor(cache[RequestOf(proxy)], proxy) then Retry
      else Act(BinderRead(WORKER, proxy, cache[RequestOf(proxy)]))
  }

  function ReleaseVerdict(cache: map<string, Pvc>, key: string): Verdict {
    if key !in cache || !HasAnnotation(cache[key], ProxyRef) || RefOf(cache[key]) in cache then Idle
    else Act(ReleaserGet(WORKER, cache[key]))
  }

  function ProtectVerdict(cache: map<string, Pvc>, key: string): Verdict {
    if key !in cache || ProtectorIntent(cache[key]).None? then Idle
    else Act(ProtectorRead(WORKER, cache[key]))
  }

  /** The next write of the worker, if it has one, is refused. */
  predicate Refused(s: State) {
    WORKER in s.workers && Send(s.server, s.workers[WORKER]).Err?
  }

  function WriteOn(s: State): State {
    if WORKER in s.workers then Apply(s, Write(WORKER)) else s
  }

  /** After the read come at most two writes. */
  function Finish(s: State): State {
    WriteOn(WriteOn(s))
  }

  predicate Fails(s: State) {
    Refused(s) || Refused(WriteOn(s))
  }

  /** The sync returned an error, or asks to be run again. */
  predicate Again(s: State, verdict: Verdict)
    requires verdict.Act? ==> Enabled(s, verdict.read)
  {
    verdict.Retry? || (verdict.Act? && Fails(Apply(s, verdict.read)))
  }

  function Synced(s: State, verdict: Verdict): State
    requires verdict.Act? ==> Enabled(s, verdict.read)
  {
    if verdict.Act? then Finish(Apply(s, verdict.read)) else s
  }

  // The step system.

  datatype Event =
    | User(action: Action)
    | Deliver(pvc: Pvc)      // the cache learns of a version
    | Gone(name: string)     // the cache learns that the object is gone
    | Restart
    | BindNext(key: string)
    | ReleaseNext(key: string)
    | ProtectNext(key: string)

  function Requeued(queue: set<string>, key: string, again: bool): set<string> {
    if again then queue else queue - {key}
  }

  predicate Known(w: World, verdict: Verdict) {
    verdict.Act? ==> Enabled(w.s, verdict.read)
  }

  ghost predicate Possible(w: World, e: Event) {
    match e
    case User(a) => IsUser(a) && Enabled(w.s, a) && FreshName(w.s, a)
    case Deliver(pvc) => pvc in w.s.history
    case Gone(name) => name in w.cache && name !in w.s.server.store
    case Restart => true
    case BindNext(key) => key in w.queues.bind && Known(w, BindVerdict(w.cache, key))
    case ReleaseNext(key) => key in w.queues.release && Known(w, ReleaseVerdict(w.cache, key))
    case ProtectNext(key) => key in w.queues.protect && Known(w, ProtectVerdict(w.cache, key))
  }

  ghost function Then(w: World, e: Event): World
    requires Possible(w, e)
  {
    match e
    case User(a) => w.(s := Apply(w.s, a))
    case Deliver(pvc) =>
      var cache := w.cache[pvc.name := pvc];
      w.(cache := cache, queues := Woken(w.queues, cache, pvc))
    case Gone(name) =>
      var cache := w.cache - {name};
      w.(cache := cache, queues := Woken(w.queues, cache, w.cache[name]))
    case Restart => w.(cache := w.s.server.store, queues := WokenByAll(w.s.server.store))
    case BindNext(key) =>
      var v := BindVerdict(w.cache, key);
      w.(s := Synced(w.s, v), queues := w.queues.(bind := Requeued(w.queues.bind, key, Again(w.s, v))))
    case ReleaseNext(key) =>
      var v := ReleaseVerdict(w.cache, key);
      w.(s := Synced(w.s, v), queues := w.queues.(release := Requeued(w.queues.release, key, Again(w.s, v))))
    case ProtectNext(key) =>
      var v := ProtectVerdict(w.cache, key);
      w.(s := Synced(w.s, v), queues := w.queues.(protect := Requeued(w.queues.protect, key, Again(w.s, v))))
  }

  const Start := World(Init, map[], Queues({}, {}, {}))

  ghost predicate LegalWorld(events: seq<Event>)
    decreases |events|, 0
  {
    events == [] || (
      var before := events[..|events| - 1];
      LegalWorld(before) && Possible(WorldAfter(before), events[|events| - 1]))
  }

  ghost function WorldAfter(events: seq<Event>): World
    requires LegalWorld(events)
    decreases |events|, 1
  {
    if events == [] then Start
    else Then(WorldAfter(events[..|events| - 1]), events[|events| - 1])
  }

  // Pending work: the cache shows what is live, and a sync would write.

  predicate Current(w: World, name: string) {
    name in w.cache && name in w.s.server.store && w.s.server.store[name] == w.cache[name]
  }

  predicate BindPending(w: World, key: string) {
    && Current(w, key) && WantsBinding(w.cache[key]) && Current(w, RequestOf(w.cache[key]))
    && FreeFor(w.cache[RequestOf(w.cache[key])], w.cache[key])
  }

  predicate ReleasePending(w: World, key: string) {
    && Current(w, key) && HasAnnotation(w.cache[key], ProxyRef)
    && RefOf(w.cache[key]) !in w.cache && RefOf(w.cache[key]) !in w.s.server.store
  }

  /** For a claim that was never a backend there is no duty to protect. */
  predicate ProtectPending(w: World, key: string) {
    && Current(w, key) && (HasAnnotation(w.cache[key], ProxyRef) || HasFinalizer(w.cache[key], BackendProtection))
    && ProtectorIntent(w.cache[key]).Some?
  }

  // The invariant.

  ghost predicate CacheInv(w: World) {
    forall n <- w.cache :: w.cache[n] in w.s.history && w.cache[n].name == n
  }

  ghost predicate WokenInv(w: World) {
    && (forall k :: BindPending(w, k) ==> k in w.queues.bind)
    && (forall k :: ReleasePending(w, k) ==> k in w.queues.release)
    && (forall k :: ProtectPending(w, k) ==> k in w.queues.protect)
  }
}
