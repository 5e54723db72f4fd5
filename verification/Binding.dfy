/** The PersistentVolumeClaim binding protocol as a step system: one step per API call of the proxy binder,
    the backend releaser and the protection controller, plus crashes and the steps of everybody else.

    A controller reads its cache by picking any version the object ever had, or by not finding the object at
    all. That covers every way in which a cache can lag, for each object on its own. */
module Binding {
  import opened Kubernetes
  import ControllerHelpers

  /** What a worker still intends to write, with the snapshots it was computed from. */
  datatype Worker =
    | Claiming(proxy: Pvc, backend: Pvc)
    | Completing(proxy: Pvc, backend: Pvc)
    | Releasing(backend: Pvc)
    | AddingFinalizer(pvc: Pvc)
    | RemovingFinalizer(pvc: Pvc)

  datatype State = State(
    server: Server,
    history: set<Pvc>,          // every version of every object that was ever live
    used: set<string>,          // every name that was ever live
    workers: map<nat, Worker>)  // workers that are in the middle of a sync

  datatype Action =
    | UserCreate(pvc: Pvc)
    | UserDelete(name: string)
    | OtherUpdate(pvc: Pvc)
    | BinderRead(worker: nat, proxy: Pvc, backend: Pvc)
    | ReleaserGet(worker: nat, backend: Pvc)
    | ProtectorRead(worker: nat, pvc: Pvc)
    | Write(worker: nat)
    | Crash(worker: nat)

  const Init := State(Server(map[], 0), {}, {}, map[])

  function RefOf(backend: Pvc): string {
    Annotation(backend, ProxyRef)
  }

  function RequestOf(proxy: Pvc): string {
    Annotation(proxy, BackendRef)
  }

  /** A claim on which the binder's sync gets as far as looking for the requested backend. */
  predicate WantsBinding(proxy: Pvc) {
    && !proxy.deleting
    && HasMatchingAnnotation(proxy, StorageProvisioner, DRIVER_NAME)
    && !HasAnnotation(proxy, BindCompleted)
    && RequestOf(proxy) != ""
  }

  /** A backend that the binder may bind to the proxy: not claimed, or claimed by this proxy. */
  predicate FreeFor(backend: Pvc, proxy: Pvc) {
    RefOf(backend) == "" || RefOf(backend) == proxy.name
  }

  // The objects that the controllers send back.

  function Claimed(backend: Pvc, proxy: Pvc): Pvc {
    backend.(annotations := backend.annotations[ProxyRef := proxy.name])
  }

  function Completed(proxy: Pvc): Pvc {
    proxy.(annotations := proxy.annotations[BindCompleted := ""])
  }

  function Released(backend: Pvc): Pvc {
    backend.(annotations := backend.annotations - {ProxyRef})
  }

  function AddFinalizerPatch(pvc: Pvc, finalizer: Finalizer): FinalizerPatch {
    FinalizerPatch(pvc.version, pvc.finalizers + [finalizer])
  }

  function RemoveFinalizerPatch(pvc: Pvc, finalizer: Finalizer): FinalizerPatch {
    FinalizerPatch(pvc.version, ControllerHelpers.Without(pvc.finalizers, finalizer))
  }

  // What a worker writes next.

  /** The cached object from which the write is computed. */
  function Snapshot(worker: Worker): Pvc {
    match worker
    case Claiming(_, backend) => backend
    case Completing(proxy, _) => proxy
    case Releasing(backend) => backend
    case AddingFinalizer(pvc) => pvc
    case RemovingFinalizer(pvc) => pvc
  }

  function Send(s: Server, worker: Worker): Result<Server, ApiError> {
    match worker
    case Claiming(proxy, backend) => Update(s, Claimed(backend, proxy))
    case Completing(proxy, _) => Update(s, Completed(proxy))
    case Releasing(backend) => Update(s, Released(backend))
    case AddingFinalizer(pvc) =>
      PatchFinalizers(s, pvc.name, AddFinalizerPatch(pvc, BackendProtection))
    case RemovingFinalizer(pvc) =>
      PatchFinalizers(s, pvc.name, RemoveFinalizerPatch(pvc, BackendProtection))
  }

  /** A binder that claimed the backend goes on to complete the binding; every other sync is over. */
  function Next(worker: Worker): Option<Worker> {
    match worker
    case Claiming(proxy, backend) => Some(Completing(proxy, backend))
    case _ => None
  }

  /** How many times the protection finalizer is listed. */
  function Protections(pvc: Pvc): nat {
    multiset(pvc.finalizers)[BackendProtection]
  }

  /** Users and other controllers never set the driver's own annotations and never touch its finalizer. */
  predicate KeepsDriverFields(before: Pvc, after: Pvc) {
    && (forall k <- [BackendRef, ProxyRef, BindCompleted] ::
          (HasAnnotation(before, k) <==> HasAnnotation(after, k)) && Annotation(before, k) == Annotation(after, k))
    && Protections(before) == Protections(after)
  }

  predicate Enabled(s: State, a: Action) {
    match a
    case UserCreate(pvc) =>
      && pvc.name != "" && pvc.name !in s.server.store
      && !HasAnnotation(pvc, ProxyRef) && !HasAnnotation(pvc, BindCompleted)
      && Protections(pvc) <= 1
    case UserDelete(name) => name in s.server.store
    case OtherUpdate(pvc) =>
      && Update(s.server, pvc).Ok?
      && KeepsDriverFields(s.server.store[pvc.name], pvc)
    case BinderRead(w, proxy, backend) =>
      && w !in s.workers && proxy in s.history && backend in s.history
      && WantsBinding(proxy) && backend.name == RequestOf(proxy) && FreeFor(backend, proxy)
    case ReleaserGet(w, backend) => w !in s.workers && backend in s.history && HasAnnotation(backend, ProxyRef)
    case ProtectorRead(w, pvc) =>
      w !in s.workers && pvc in s.history && ProtectorIntent(pvc).Some?
    case Write(w) => w in s.workers
    case Crash(w) => w in s.workers
  }

  function ProtectorIntent(pvc: Pvc): Option<Worker> {
    if pvc.deleting && HasFinalizer(pvc, BackendProtection) then
      if HasAnnotation(pvc, ProxyRef) then None else Some(RemovingFinalizer(pvc))
    else if !pvc.deleting && !HasFinalizer(pvc, BackendProtection) then
      Some(AddingFinalizer(pvc))
    else
      None
  }

  /** The server moves on; what is now live under `name` joins the history. */
  function Record(s: State, server: Server, name: string): State {
    if name in server.store then
      s.(server := server, history := s.history + {server.store[name]}, used := s.used + {name})
    else
      s.(server := server)
  }

  /** Worker `w` goes on with `next`, or is idle. */
  function Task(s: State, w: nat, next: Option<Worker>): State {
    s.(workers := if next.Some? then s.workers[w := next.value] else s.workers - {w})
  }

  function Apply(s: State, a: Action): State
    requires Enabled(s, a)
  {
    match a
    case UserCreate(pvc) => Record(s, Create(s.server, pvc).value, pvc.name)
    case UserDelete(name) => Record(s, Delete(s.server, name).value, name)
    case OtherUpdate(pvc) => Record(s, Update(s.server, pvc).value, pvc.name)
    case BinderRead(w, proxy, backend) =>
      Task(s, w, Some(if RefOf(backend) == proxy.name then Completing(proxy, backend) else Claiming(proxy, backend)))
    case ReleaserGet(w, backend) =>
      if RefOf(backend) in s.server.store then s else Task(s, w, Some(Releasing(backend)))
    case ProtectorRead(w, pvc) => Task(s, w, ProtectorIntent(pvc))
    case Write(w) =>
      var worker := s.workers[w];
      var r := Send(s.server, worker);
      if r.Ok? then Task(Record(s, r.value, Snapshot(worker).name), w, Next(worker)) else Task(s, w, None)
    case Crash(w) => Task(s, w, None)
  }

  // Runs.

  predicate Legal(acts: seq<Action>)
    decreases |acts|, 0
  {
    acts == [] || (
      var before := acts[..|acts| - 1];
      Legal(before) && Enabled(After(before), acts[|acts| - 1]))
  }

  function After(acts: seq<Action>): State
    requires Legal(acts)
    decreases |acts|, 1
  {
    if acts == [] then Init
    else Apply(After(acts[..|acts| - 1]), acts[|acts| - 1])
  }

  /** No claim is created under a name that was live before. */
  predicate NoNameReuse(acts: seq<Action>)
    requires Legal(acts)
  {
    acts == [] || (
      var before := acts[..|acts| - 1];
      && NoNameReuse(before)
      && FreshName(After(before), acts[|acts| - 1]))
  }

  predicate FreshName(s: State, a: Action) {
    a.UserCreate? ==> a.pvc.name !in s.used
  }
}
