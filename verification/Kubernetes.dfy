/** The part of the Kubernetes API machinery that the controllers rely on: PersistentVolumeClaims with
    annotations and finalizers, and a server that accepts a write only when it carries the version of the
    object that is live at that moment. One namespace is modelled; the controllers never leave it. */
module Kubernetes {

  datatype Option<+T> = None | Some(value: T)

  datatype Result<+T, +E> = Ok(value: T) | Err(error: E)

  /** Annotation keys. The named ones are the constants of pkg/naming/constants.go and the
      storage-provisioner annotation of Kubernetes. */
  datatype Key =
    | StorageProvisioner
    | BackendRef
    | ProxyRef
    | BindCompleted
    | VolumeMounted(volume: string)
    | OtherKey(text: string)

  datatype Finalizer = BackendProtection | OtherFinalizer(text: string)

  const DRIVER_NAME := "proxy.csi.scylladb.com"

  datatype Pvc = Pvc(
    name: string,
    uid: nat,
    version: nat,
    deleting: bool,
    annotations: map<Key, string>,
    finalizers: seq<Finalizer>,
    spec: string)

  predicate HasAnnotation(pvc: Pvc, key: Key) {
    key in pvc.annotations
  }

  predicate HasMatchingAnnotation(pvc: Pvc, key: Key, value: string) {
    key in pvc.annotations && pvc.annotations[key] == value
  }

  /** Indexing a Go map: the empty string when the key is missing. */
  function Annotation(pvc: Pvc, key: Key): string {
    if key in pvc.annotations then pvc.annotations[key] else ""
  }

  predicate HasFinalizer(pvc: Pvc, finalizer: Finalizer) {
    finalizer in pvc.finalizers
  }

  datatype ApiError = NotFound | AlreadyExists | Conflict | Forbidden | Unavailable

  /** The store and the counter that versions every object in it. */
  datatype Server = Server(store: map<string, Pvc>, revision: nat)

  /** Puts `obj` in the place of the live object called `name`. A write that changes nothing keeps the
      version; a deleted object goes away with its last finalizer. */
  function Commit(s: Server, name: string, obj: Pvc): Server
    requires name in s.store
  {
    if obj == s.store[name] then
      s
    else if obj.deleting && obj.finalizers == [] then
      Server(s.store - {name}, s.revision + 1)
    else
      Server(s.store[name := obj.(version := s.revision + 1)], s.revision + 1)
  }

  predicate AddsFinalizers(old_: seq<Finalizer>, new_: seq<Finalizer>) {
    exists f | f in new_ :: f !in old_
  }

  /** A full update. The server keeps the identity and the deletion mark of the live object. */
  function Update(s: Server, obj: Pvc): Result<Server, ApiError> {
    if obj.name !in s.store then
      Err(NotFound)
    else
      var live := s.store[obj.name];
      if live.version != obj.version then
        Err(Conflict)
      else if live.deleting && AddsFinalizers(live.finalizers, obj.finalizers) then
        Err(Forbidden)
      else
        Ok(Commit(s, obj.name, live.(annotations := obj.annotations, finalizers := obj.finalizers, spec := obj.spec)))
  }

  /** The merge patch of pkg/controllerhelpers/finalizers.go: a version and a whole new list. */
  datatype FinalizerPatch = FinalizerPatch(resourceVersion: nat, finalizers: seq<Finalizer>)

  function PatchFinalizers(s: Server, name: string, patch: FinalizerPatch): Result<Server, ApiError> {
    if name !in s.store then
      Err(NotFound)
    else
      Update(s, s.store[name].(version := patch.resourceVersion, finalizers := patch.finalizers))
  }

  function Create(s: Server, obj: Pvc): Result<Server, ApiError> {
    if obj.name in s.store then
      Err(AlreadyExists)
    else
      var created := obj.(uid := s.revision + 1, version := s.revision + 1, deleting := false);
      Ok(Server(s.store[obj.name := created], s.revision + 1))
  }

  /** Deletion marks an object that still has finalizers and removes any other. */
  function Delete(s: Server, name: string): Result<Server, ApiError> {
    if name !in s.store then
      Err(NotFound)
    else
      Ok(Commit(s, name, s.store[name].(deleting := true)))
  }
}
