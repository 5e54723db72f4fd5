/** Who asks for whom: with names used once, what a claim asks for never changes, and a backend only ever names
    a proxy that asked for it. */
module WakeUpRoles {
  import opened Kubernetes
  import opened Binding
  import opened BindingSafety

  /** isProxyPersistentVolumeClaim. */
  predicate IsProxy(pvc: Pvc) {
    HasMatchingAnnotation(pvc, StorageProvisioner, DRIVER_NAME) && HasAnnotation(pvc, BackendRef)
  }

  predicate SameRequest(a: Pvc, b: Pvc) {
    (HasAnnotation(a, BackendRef) <==> HasAnnotation(b, BackendRef)) && RequestOf(a) == RequestOf(b)
  }

  ghost predicate RequestsStand(history: set<Pvc>) {
    forall h, k | h in history && k in history && h.name == k.name :: SameRequest(h, k)
  }

  ghost predicate Asked(history: set<Pvc>, proxy: string, backend: string) {
    exists p :: p in history && p.name == proxy && IsProxy(p) && RequestOf(p) == backend
  }

  ghost predicate RefsWereAsked(history: set<Pvc>) {
    forall h <- history | HasAnnotation(h, ProxyRef) :: Asked(history, RefOf(h), h.name)
  }

  ghost predicate RoleInv(s: State) {
    RequestsStand(s.history) && RefsWereAsked(s.history)
  }

  /** No claim that some proxy asks for is a proxy itself. */
  ghost predicate OneRole(history: set<Pvc>) {
    forall p, b | p in history && b in history && IsProxy(p) && RequestOf(p) == b.name :: !IsProxy(b)
  }

  lemma OneRoleBefore(history: set<Pvc>, more: set<Pvc>)
    requires OneRole(more) && history <= more
    ensures OneRole(history)
  {
  }

  // What a step can add.

  /** The step is the first write of a binder that claims `backend` for `proxy`. */
  predicate Claims(s: State, a: Action, proxy: string, backend: string) {
    && a.Write? && a.worker in s.workers && s.workers[a.worker].Claiming?
    && s.workers[a.worker].proxy.name == proxy && s.workers[a.worker].backend.name == backend
  }

  /** `h` is what one step makes of the live object: it asks for the same backend, and names the same proxy,
      none, or the one for which it is being claimed. */
  predicate Descends(s: State, h: Pvc, a: Action) {
    && h.name in s.server.store && SameRequest(s.server.store[h.name], h)
    && (HasAnnotation(h, ProxyRef) ==>
          || (HasAnnotation(s.server.store[h.name], ProxyRef) && RefOf(h) == RefOf(s.server.store[h.name]))
          || Claims(s, a, RefOf(h), h.name))
  }

  /** The server after a step: every live object is as before, or new and descended from a live one, or just
      created. */
  ghost predicate Moves(s: State, t: State, a: Action) {
    && t.history >= s.history && t.server.revision >= s.server.revision
    && (forall n <- t.server.store ::
          || (n in s.server.store && t.server.store[n] == s.server.store[n])
          || (t.server.store[n].version > s.server.revision && t.server.store[n] in t.history
              && t.server.store[n].name == n
              && (Descends(s, t.server.store[n], a)
                  || (a.UserCreate? && n == a.pvc.name && n !in s.server.store
                      && !HasAnnotation(t.server.store[n], ProxyRef)))))
    && (forall h <- t.history | h !in s.history :: h.name in t.server.store && t.server.store[h.name] == h)
  }

  lemma RecordMoves(s: State, server: Server, name: string, a: Action)
    requires Inv(s) && OneWrite(s, server, name)
    requires name in server.store && server != s.server ==>
               || Descends(s, server.store[name], a)
               || (a.UserCreate? && name == a.pvc.name && name !in s.server.store
                   && !HasAnnotation(server.store[name], ProxyRef))
    ensures Moves(s, Record(s, server, name), a)
  {
    hide GoodObject, Descends;
  }

  lemma CommitMoves(s: State, name: string, obj: Pvc, a: Action)
    requires Inv(s) && name in s.server.store && obj.name == name && Protections(obj) <= 1
    requires HasAnnotation(obj, ProxyRef) ==> RefOf(obj) in s.used && RefOf(obj) != ""
    requires HasAnnotation(obj, BindCompleted) ==> OnceClaimed(s.history, RequestOf(obj), name)
    requires Descends(s, obj, a)
    ensures Moves(s, Record(s, Commit(s.server, name, obj), name), a)
  {
    CommitIsOneWrite(s, name, obj);
    hide Inv;
    RecordMoves(s, Commit(s.server, name, obj), name, a);
  }

  lemma StandsStill(s: State, t: State, a: Action)
    requires t.history == s.history && t.server == s.server
    ensures Moves(s, t, a)
  {
  }

  lemma TaskMoves(s: State, t: State, w: nat, next: Option<Worker>, a: Action)
    requires Moves(s, t, a)
    ensures Moves(s, Task(t, w, next), a)
  {
  }

  lemma ProposalDescends(s: State, w: nat)
    requires Inv(s) && w in s.workers && Send(s.server, s.workers[w]).Ok?
    ensures Descends(s, Proposal(s.workers[w]), Write(w))
  {
    hide Inv, Send, Commit, Update, Descends;
    AcceptedWrite(s, w);
    SnapshotDescends(s, w);
  }

  lemma SnapshotDescends(s: State, w: nat)
    requires w in s.workers
    requires var snapshot := Snapshot(s.workers[w]); snapshot.name in s.server.store && s.server.store[snapshot.name] == snapshot
    ensures Descends(s, Proposal(s.workers[w]), Write(w))
  {
    match s.workers[w]
    case Claiming(_, _) =>
    case Completing(proxy, _) => assert SameRequest(proxy, Completed(proxy));
    case Releasing(backend) => assert SameRequest(backend, Released(backend));
    case _ => hide Protections;
  }

  /** Only a proxy that asked for the backend is ever named by it. */
  lemma ClaimsWereAsked(s: State, a: Action, proxy: string, backend: string)
    requires Inv(s) && Claims(s, a, proxy, backend)
    ensures Asked(s.history, proxy, backend)
  {
    assert WorkerInv(s.history, s.workers[a.worker]);
    var p := s.workers[a.worker].proxy;
    assert p in s.history && p.name == proxy && IsProxy(p) && RequestOf(p) == backend;
  }

  lemma WriteMoves(s: State, w: nat)
    requires Inv(s) && w in s.workers
    ensures Moves(s, Apply(s, Write(w)), Write(w))
  {
    hide Send, Commit, Update, GoodObject, StoreInv, HistoryInv, WorkersInv, CompletedInv, Descends, Moves;
    var worker := s.workers[w];
    var r := Send(s.server, worker);
    if r.Ok? {
      AcceptedWrite(s, w);
      ProposalDescends(s, w);
      ProposalIsGood(s, w);
      CommitMoves(s, Snapshot(worker).name, Proposal(worker), Write(w));
      TaskMoves(s, Record(s, r.value, Snapshot(worker).name), w, Next(worker), Write(w));
    } else {
      StandsStill(s, Task(s, w, None), Write(w));
    }
  }

  lemma UserMoves(s: State, a: Action)
    requires Inv(s) && Enabled(s, a) && (a.UserCreate? || a.UserDelete?)
    ensures Moves(s, Apply(s, a), a)
  {
    if a.UserDelete? {
      var obj := s.server.store[a.name].(deleting := true);
      assert Descends(s, obj, a);
      CommitMoves(s, a.name, obj, a);
    } else {
      RecordMoves(s, Create(s.server, a.pvc).value, a.pvc.name, a);
    }
  }

  lemma OtherMoves(s: State, a: Action)
    requires Inv(s) && Enabled(s, a) && a.OtherUpdate?
    ensures Moves(s, Apply(s, a), a)
  {
    var live := s.server.store[a.pvc.name];
    var obj := live.(annotations := a.pvc.annotations, finalizers := a.pvc.finalizers, spec := a.pvc.spec);
    assert BackendRef in [BackendRef, ProxyRef, BindCompleted];
    assert ProxyRef in [BackendRef, ProxyRef, BindCompleted];
    assert BindCompleted in [BackendRef, ProxyRef, BindCompleted];
    assert Descends(s, obj, a);
    CommitMoves(s, a.pvc.name, obj, a);
  }

  lemma StepMoves(s: State, a: Action)
    requires Inv(s) && Enabled(s, a)
    ensures Moves(s, Apply(s, a), a)
  {
    hide Moves;
    match a
    case UserCreate(_) => UserMoves(s, a);
    case UserDelete(_) => UserMoves(s, a);
    case OtherUpdate(_) => OtherMoves(s, a);
    case Write(w) => WriteMoves(s, w);
    case _ => StandsStill(s, Apply(s, a), a);
  }

  lemma NewAndOld(s: State, t: State, a: Action, h: Pvc, k: Pvc)
    requires StoreInv(s) && HistoryInv(s) && RequestsStand(s.history) && Moves(s, t, a) && FreshName(s, a)
    requires h in t.history && h !in s.history && k in s.history && h.name == k.name
    ensures SameRequest(h, k)
  {
    NewVersion(s, t, a, h);
    hide Moves, StoreInv;
  }

  lemma RequestsKeepStanding(s: State, t: State, a: Action)
    requires StoreInv(s) && HistoryInv(s) && RequestsStand(s.history) && Moves(s, t, a) && FreshName(s, a)
    ensures RequestsStand(t.history)
  {
    forall h <- t.history, k <- t.history | h.name == k.name ensures SameRequest(h, k) {
      NewVersion(s, t, a, h);
      NewVersion(s, t, a, k);
      if h !in s.history && k in s.history {
        NewAndOld(s, t, a, h, k);
      } else if h in s.history && k !in s.history {
        NewAndOld(s, t, a, k, h);
      }
      hide Moves, StoreInv, HistoryInv, Descends;
    }
  }

  /** A version that a step adds. */
  lemma NewVersion(s: State, t: State, a: Action, h: Pvc)
    requires StoreInv(s) && Moves(s, t, a) && h in t.history
    ensures h in s.history || (h.name in t.server.store && t.server.store[h.name] == h)
    ensures h in s.history || (Descends(s, h, a) && s.server.store[h.name] in s.history && s.server.store[h.name].name == h.name)
            || (a.UserCreate? && h.name == a.pvc.name && !HasAnnotation(h, ProxyRef))
  {
  }

  lemma RefsStayAsked(s: State, t: State, a: Action, h: Pvc)
    requires Inv(s) && RefsWereAsked(s.history) && Moves(s, t, a) && h in t.history && HasAnnotation(h, ProxyRef)
    ensures Asked(t.history, RefOf(h), h.name)
  {
    NewVersion(s, t, a, h);
    if Claims(s, a, RefOf(h), h.name) { ClaimsWereAsked(s, a, RefOf(h), h.name); }
    hide Inv, Moves;
    assert Asked(s.history, RefOf(h), h.name);
    AskedBefore(s.history, t.history, RefOf(h), h.name);
  }

  lemma StepKeepsRoles(s: State, a: Action)
    requires Inv(s) && RoleInv(s) && Enabled(s, a) && FreshName(s, a)
    ensures RoleInv(Apply(s, a))
  {
    StepMoves(s, a);
    hide Apply, Enabled, Moves;
    var t := Apply(s, a);
    RequestsKeepStanding(s, t, a);
    forall h <- t.history | HasAnnotation(h, ProxyRef) ensures Asked(t.history, RefOf(h), h.name) {
      RefsStayAsked(s, t, a, h);
    }
  }

  lemma AskedBefore(history: set<Pvc>, more: set<Pvc>, proxy: string, backend: string)
    requires Asked(history, proxy, backend) && history <= more
    ensures Asked(more, proxy, backend)
  {
  }
}
