/** What holds over every run of the binding protocol. */
module BindingSafety {
  import opened Kubernetes
  import opened Binding

  // Invariants that hold whatever names are used.

  ghost predicate StoreInv(s: State) {
    forall n <- s.server.store ::
      var live := s.server.store[n];
      && n != "" && live.name == n && n in s.used && live in s.history
      && (live.deleting ==> live.finalizers != [])
      && Protections(live) <= 1
  }

  ghost predicate HistoryInv(s: State) {
    && (forall h <- s.history ::
          && h.name != "" && h.name in s.used && h.version <= s.server.revision
          && (HasAnnotation(h, ProxyRef) ==> RefOf(h) in s.used && RefOf(h) != ""))
    && (forall h, k | h in s.history && k in s.history && h.name == k.name && h.version == k.version :: h == k)
  }

  /** At some time a backend called `backend` named the proxy. */
  ghost predicate OnceClaimed(history: set<Pvc>, backend: string, proxy: string) {
    exists h :: h in history && h.name == backend && RefOf(h) == proxy
  }

  ghost predicate WorkerInv(history: set<Pvc>, worker: Worker) {
    match worker
    case Claiming(proxy, backend) =>
      && proxy in history && backend in history && WantsBinding(proxy)
      && backend.name == RequestOf(proxy) && RefOf(backend) == ""
    case Completing(proxy, backend) =>
      && proxy in history && WantsBinding(proxy)
      && backend.name == RequestOf(proxy) && OnceClaimed(history, backend.name, proxy.name)
    case Releasing(backend) => backend in history && HasAnnotation(backend, ProxyRef)
    case AddingFinalizer(pvc) => pvc in history && !pvc.deleting && !HasFinalizer(pvc, BackendProtection)
    case RemovingFinalizer(pvc) =>
      && pvc in history && pvc.deleting
      && !HasAnnotation(pvc, ProxyRef) && HasFinalizer(pvc, BackendProtection)
  }

  ghost predicate WorkersInv(s: State) {
    forall w <- s.workers :: WorkerInv(s.history, s.workers[w])
  }

  ghost predicate CompletedInv(s: State) {
    forall p <- s.server.store | HasAnnotation(s.server.store[p], BindCompleted) ::
      OnceClaimed(s.history, RequestOf(s.server.store[p]), p)
  }

  ghost predicate Inv(s: State) {
    StoreInv(s) && HistoryInv(s) && WorkersInv(s) && CompletedInv(s)
  }

  /** The history only grows, so what was once claimed stays once claimed. */
  lemma WorkersInvMonotone(s: State, t: State)
    requires WorkersInv(s) && s.history <= t.history
    requires forall w <- t.workers :: w in s.workers && t.workers[w] == s.workers[w]
    ensures WorkersInv(t)
  {
    forall w <- t.workers ensures WorkerInv(t.history, t.workers[w]) {
      assert WorkerInv(s.history, s.workers[w]);
    }
  }

  /** A worker's snapshot that is still current is the live object itself. */
  lemma CurrentSnapshotIsLive(s: State, snapshot: Pvc)
    requires Inv(s) && snapshot in s.history
    requires snapshot.name in s.server.store && s.server.store[snapshot.name].version == snapshot.version
    ensures s.server.store[snapshot.name] == snapshot
  {}

  /** What a new live object must satisfy. */
  ghost predicate GoodObject(s: State, live: Pvc) {
    && live.name != ""
    && (live.deleting ==> live.finalizers != [])
    && Protections(live) <= 1
    && (HasAnnotation(live, ProxyRef) ==> RefOf(live) in s.used && RefOf(live) != "")
    && (HasAnnotation(live, BindCompleted) ==> OnceClaimed(s.history, RequestOf(live), live.name))
  }

  /** The server is as before, or it moved on by one write under `name`. */
  ghost predicate OneWrite(s: State, server: Server, name: string) {
    server == s.server || (
      && server.revision == s.server.revision + 1
      && (forall n :: n != name ==> (n in server.store <==> n in s.server.store))
      && (forall n <- server.store :: n != name ==> server.store[n] == s.server.store[n])
      && (name in server.store ==>
            var live := server.store[name];
            live.name == name && live.version == server.revision && GoodObject(s, live)))
  }

  lemma RecordKeepsStoreInv(s: State, server: Server, name: string)
    requires StoreInv(s) && OneWrite(s, server, name)
    ensures StoreInv(Record(s, server, name))
  {}

  lemma RecordKeepsHistoryInv(s: State, server: Server, name: string)
    requires StoreInv(s) && HistoryInv(s) && OneWrite(s, server, name)
    ensures HistoryInv(Record(s, server, name))
  {}

  lemma RecordKeepsCompletedInv(s: State, server: Server, name: string)
    requires StoreInv(s) && CompletedInv(s) && OneWrite(s, server, name)
    ensures CompletedInv(Record(s, server, name))
  {
    var t := Record(s, server, name);
    forall p <- t.server.store | HasAnnotation(t.server.store[p], BindCompleted)
      ensures OnceClaimed(t.history, RequestOf(t.server.store[p]), p)
    {
      assert OnceClaimed(s.history, RequestOf(t.server.store[p]), p);
    }
  }

  lemma RecordKeepsInv(s: State, server: Server, name: string)
    requires Inv(s) && OneWrite(s, server, name)
    ensures Inv(Record(s, server, name))
  {
    RecordKeepsStoreInv(s, server, name);
    RecordKeepsHistoryInv(s, server, name);
    RecordKeepsCompletedInv(s, server, name);
    WorkersInvMonotone(s, Record(s, server, name));
  }

  /** Committing a good object under its name is one write. */
  lemma CommitIsOneWrite(s: State, name: string, obj: Pvc)
    requires Inv(s) && name in s.server.store && obj.name == name
    requires Protections(obj) <= 1
    requires HasAnnotation(obj, ProxyRef) ==> RefOf(obj) in s.used && RefOf(obj) != ""
    requires HasAnnotation(obj, BindCompleted) ==> OnceClaimed(s.history, RequestOf(obj), name)
    ensures OneWrite(s, Commit(s.server, name, obj), name)
  {}

  lemma UserStepKeepsInv(s: State, a: Action)
    requires Inv(s) && Enabled(s, a) && (a.UserCreate? || a.UserDelete?)
    ensures Inv(Apply(s, a))
  {
    if a.UserDelete? {
      CommitIsOneWrite(s, a.name, s.server.store[a.name].(deleting := true));
      RecordKeepsInv(s, Delete(s.server, a.name).value, a.name);
    } else {
      RecordKeepsInv(s, Create(s.server, a.pvc).value, a.pvc.name);
    }
  }

  lemma OtherUpdateKeepsInv(s: State, a: Action)
    requires Inv(s) && Enabled(s, a) && a.OtherUpdate?
    ensures Inv(Apply(s, a))
  {
    var live := s.server.store[a.pvc.name];
    var obj := live.(annotations := a.pvc.annotations, finalizers := a.pvc.finalizers, spec := a.pvc.spec);
    assert BackendRef in [BackendRef, ProxyRef, BindCompleted];
    assert ProxyRef in [BackendRef, ProxyRef, BindCompleted];
    assert BindCompleted in [BackendRef, ProxyRef, BindCompleted];
    CommitIsOneWrite(s, a.pvc.name, obj);
    RecordKeepsInv(s, Update(s.server, a.pvc).value, a.pvc.name);
  }

  /** The object that a worker wants to be live after its write. */
  function Proposal(worker: Worker): Pvc {
    match worker
    case Claiming(proxy, backend) => Claimed(backend, proxy)
    case Completing(proxy, _) => Completed(proxy)
    case Releasing(backend) => Released(backend)
    case AddingFinalizer(pvc) => pvc.(finalizers := pvc.finalizers + [BackendProtection])
    case RemovingFinalizer(pvc) => pvc.(finalizers := ControllerHelpers.Without(pvc.finalizers, BackendProtection))
  }

  /** An accepted write was computed from the object that is live at that moment, and replaces exactly it. */
  lemma AcceptedWrite(s: State, w: nat)
    requires Inv(s) && w in s.workers && Send(s.server, s.workers[w]).Ok?
    ensures var worker := s.workers[w];
            && Snapshot(worker).name in s.server.store
            && s.server.store[Snapshot(worker).name] == Snapshot(worker)
            && Send(s.server, worker).value == Commit(s.server, Snapshot(worker).name, Proposal(worker))
  {
    assert WorkerInv(s.history, s.workers[w]);
    CurrentSnapshotIsLive(s, Snapshot(s.workers[w]));
  }

  lemma ProposalIsGood(s: State, w: nat)
    requires Inv(s) && w in s.workers && Snapshot(s.workers[w]).name in s.server.store
    requires s.server.store[Snapshot(s.workers[w]).name] == Snapshot(s.workers[w])
    ensures var obj := Proposal(s.workers[w]);
            && obj.name == Snapshot(s.workers[w]).name && Protections(obj) <= 1
            && (HasAnnotation(obj, ProxyRef) ==> RefOf(obj) in s.used && RefOf(obj) != "")
            && (HasAnnotation(obj, BindCompleted) ==> OnceClaimed(s.history, RequestOf(obj), obj.name))
  {
    var snapshot := Snapshot(s.workers[w]);
    assert WorkerInv(s.history, s.workers[w]);
    if HasAnnotation(snapshot, BindCompleted) {
      assert OnceClaimed(s.history, RequestOf(s.server.store[snapshot.name]), snapshot.name);
    }
  }

  /** Once the backend is claimed, its reference is on record for the second write. */
  lemma ClaimIsRecorded(s: State, w: nat)
    requires Inv(s) && w in s.workers && Send(s.server, s.workers[w]).Ok? && Next(s.workers[w]).Some?
    ensures var worker := s.workers[w];
            WorkerInv(Record(s, Send(s.server, worker).value, Snapshot(worker).name).history, Next(worker).value)
  {
    var proxy, backend := s.workers[w].proxy, s.workers[w].backend;
    AcceptedWrite(s, w);
    assert WorkerInv(s.history, s.workers[w]);
    var t := Record(s, Send(s.server, s.workers[w]).value, backend.name);
    assert t.server.store[backend.name] in t.history && RefOf(t.server.store[backend.name]) == proxy.name;
  }

  lemma TaskKeepsInv(s: State, w: nat, next: Option<Worker>)
    requires Inv(s) && (next.Some? ==> WorkerInv(s.history, next.value))
    ensures Inv(Task(s, w, next))
  {}

  lemma WriteKeepsInv(s: State, w: nat)
    requires Inv(s) && w in s.workers
    ensures Inv(Apply(s, Write(w)))
  {
    hide Send, Commit, Update, GoodObject, WorkersInv, StoreInv, HistoryInv, CompletedInv;
    var worker := s.workers[w];
    var r := Send(s.server, worker);
    if r.Ok? {
      AcceptedWrite(s, w);
      ProposalIsGood(s, w);
      CommitIsOneWrite(s, Snapshot(worker).name, Proposal(worker));
      RecordKeepsInv(s, r.value, Snapshot(worker).name);
      if Next(worker).Some? { ClaimIsRecorded(s, w); }
      TaskKeepsInv(Record(s, r.value, Snapshot(worker).name), w, Next(worker));
    } else {
      TaskKeepsInv(s, w, None);
    }
  }

  lemma InvStep(s: State, a: Action)
    requires Inv(s) && Enabled(s, a)
    ensures Inv(Apply(s, a))
  {
    match a
    case UserCreate(_) => UserStepKeepsInv(s, a);
    case UserDelete(_) => UserStepKeepsInv(s, a);
    case OtherUpdate(_) => OtherUpdateKeepsInv(s, a);
    case Write(w) => WriteKeepsInv(s, w);
    case BinderRead(_, _, _) =>
    case ReleaserGet(_, _) =>
    case ProtectorRead(_, _) =>
    case Crash(w) => TaskKeepsInv(s, w, None);
  }

  lemma {:induction false} InvRun(acts: seq<Action>)
    requires Legal(acts)
    ensures Inv(After(acts))
    decreases |acts|
  {
    if acts != [] {
      InvRun(acts[..|acts| - 1]);
      InvStep(After(acts[..|acts| - 1]), acts[|acts| - 1]);
    }
  }
}
