/** One-to-one binding, which needs the assumption that names of claims are not used twice, and a run that
    shows why it needs it. */
module BindingOneToOne {
  import opened Kubernetes
  import opened Binding
  import opened BindingSafety
  import opened BindingTheorems

  /** Whoever was once named by a backend is named by it for as long as both are live. */
  ghost predicate ClaimsHold(s: State) {
    forall h <- s.history | RefOf(h) in s.server.store && h.name in s.server.store ::
      RefOf(s.server.store[h.name]) == RefOf(h)
  }

  /** A worker that is about to release a backend does so for a proxy that is gone. */
  ghost predicate ReleasesAreDue(s: State) {
    forall w <- s.workers | s.workers[w].Releasing? :: RefOf(s.workers[w].backend) !in s.server.store
  }

  ghost predicate FreshInv(s: State) {
    Inv(s) && ClaimsHold(s) && ReleasesAreDue(s)
  }

  lemma NamesGoAway(s: State, a: Action)
    requires Inv(s) && Enabled(s, a)
    ensures s.used <= Apply(s, a).used
    ensures forall n <- Apply(s, a).server.store :: n in s.server.store || (a.UserCreate? && n == a.pvc.name)
  {
    if a.Write? && Send(s.server, s.workers[a.worker]).Ok? {
      AcceptedWrite(s, a.worker);
    }
  }

  /** A write of a live object that leaves its reference alone, unless it refers to nobody. */
  ghost predicate KeepsLiveReference(s: State, server: Server, n: string) {
    && n in s.server.store
    && (forall m <- server.store :: m in s.server.store && (m != n ==> server.store[m] == s.server.store[m]))
    && (n in server.store ==>
          || RefOf(server.store[n]) == RefOf(s.server.store[n])
          || RefOf(s.server.store[n]) !in s.server.store)
  }

  lemma WriteKeepsClaims(s: State, server: Server, n: string)
    requires Inv(s) && ClaimsHold(s) && KeepsLiveReference(s, server, n)
    requires n in server.store ==> server.store[n].name == n
    ensures ClaimsHold(Record(s, server, n))
  {}

  lemma CreationKeepsClaims(s: State, pvc: Pvc)
    requires FreshInv(s) && Enabled(s, UserCreate(pvc)) && FreshName(s, UserCreate(pvc))
    ensures ClaimsHold(Apply(s, UserCreate(pvc)))
  {
  }

  lemma UserKeepsClaims(s: State, a: Action)
    requires FreshInv(s) && Enabled(s, a) && FreshName(s, a) && IsUser(a)
    ensures ClaimsHold(Apply(s, a))
  {
    hide HistoryInv, WorkersInv, CompletedInv;
    match a
    case UserDelete(name) =>
      DeleteKeepsReference(s, name, name);
      hide ClaimsHold;
      WriteKeepsClaims(s, Delete(s.server, name).value, name);
    case OtherUpdate(pvc) =>
      OtherUpdateKeepsReference(s, pvc, pvc.name);
      hide ClaimsHold;
      WriteKeepsClaims(s, Update(s.server, pvc).value, pvc.name);
    case UserCreate(pvc) =>
      CreationKeepsClaims(s, pvc);
  }

  lemma ProposalKeepsLiveReference(s: State, w: nat)
    requires FreshInv(s) && w in s.workers
    ensures var worker := s.workers[w];
            || RefOf(Proposal(worker)) == RefOf(Snapshot(worker))
            || RefOf(Snapshot(worker)) !in s.server.store
  {
    assert WorkerInv(s.history, s.workers[w]);
  }

  lemma WriterKeepsClaims(s: State, w: nat)
    requires FreshInv(s) && w in s.workers && Send(s.server, s.workers[w]).Ok?
    ensures ClaimsHold(Apply(s, Write(w)))
  {
    hide Send, Update, StoreInv, HistoryInv, WorkersInv, CompletedInv;
    var worker := s.workers[w];
    var server, n := Send(s.server, worker).value, Snapshot(worker).name;
    AcceptedWrite(s, w);
    ProposalIsGood(s, w);
    ProposalKeepsLiveReference(s, w);
    WriteKeepsClaims(s, server, n);
  }

  lemma ClaimsStep(s: State, a: Action)
    requires FreshInv(s) && Enabled(s, a) && FreshName(s, a)
    ensures ClaimsHold(Apply(s, a))
  {
    if IsUser(a) {
      UserKeepsClaims(s, a);
    } else if a.Write? && Send(s.server, s.workers[a.worker]).Ok? {
      WriterKeepsClaims(s, a.worker);
    }
  }

  lemma ReleasesStayDue(s: State, a: Action)
    requires FreshInv(s) && Enabled(s, a) && FreshName(s, a)
    ensures ReleasesAreDue(Apply(s, a))
  {
    NamesGoAway(s, a);
    var t := Apply(s, a);
    forall w <- t.workers | t.workers[w].Releasing?
      ensures RefOf(t.workers[w].backend) !in t.server.store
    {
      ReleaseIsOldOrChecked(s, a, w);
      hide Apply, Enabled;
      if w in s.workers && s.workers[w] == t.workers[w] {
        assert WorkerInv(s.history, s.workers[w]);
      }
    }
  }

  lemma ReleaseIsOldOrChecked(s: State, a: Action, w: nat)
    requires Enabled(s, a) && w in Apply(s, a).workers && Apply(s, a).workers[w].Releasing?
    ensures var t := Apply(s, a);
            || (w in s.workers && s.workers[w] == t.workers[w])
            || (t.server == s.server && RefOf(t.workers[w].backend) !in s.server.store)
  {
  }

  lemma {:induction false} FreshRun(acts: seq<Action>)
    requires Legal(acts) && NoNameReuse(acts)
    ensures FreshInv(After(acts))
    decreases |acts|
  {
    InvRun(acts);
    if acts != [] {
      var s, a := After(acts[..|acts| - 1]), acts[|acts| - 1];
      FreshRun(acts[..|acts| - 1]);
      ClaimsStep(s, a);
      ReleasesStayDue(s, a);
    }
  }

  predicate Bound(s: State, proxy: string) {
    proxy in s.server.store && HasAnnotation(s.server.store[proxy], BindCompleted)
  }

  /** One-to-one binding: every live proxy that completed its binding is the one that its backend names. */
  lemma BoundProxyIsNamedByItsBackend(acts: seq<Action>, proxy: string)
    requires Legal(acts) && NoNameReuse(acts)
    requires Bound(After(acts), proxy)
    requires RequestOf(After(acts).server.store[proxy]) in After(acts).server.store
    ensures RefOf(After(acts).server.store[RequestOf(After(acts).server.store[proxy])]) == proxy
  {
    FreshRun(acts);
    var s := After(acts);
    assert OnceClaimed(s.history, RequestOf(s.server.store[proxy]), proxy);
  }

  lemma OneToOne(acts: seq<Action>, p: string, q: string)
    requires Legal(acts) && NoNameReuse(acts) && p != q
    requires Bound(After(acts), p) && Bound(After(acts), q)
    requires RequestOf(After(acts).server.store[p]) in After(acts).server.store
    ensures RequestOf(After(acts).server.store[p]) != RequestOf(After(acts).server.store[q])
  {
    BoundProxyIsNamedByItsBackend(acts, p);
    if RequestOf(After(acts).server.store[p]) == RequestOf(After(acts).server.store[q]) {
      BoundProxyIsNamedByItsBackend(acts, q);
    }
  }

  // Deletion protection while the proxy lives.

  lemma {:induction false} FreshPrefix(acts: seq<Action>, i: nat)
    requires Legal(acts) && NoNameReuse(acts) && i <= |acts|
    ensures Legal(acts[..i]) && NoNameReuse(acts[..i])
    decreases |acts|
  {
    LegalPrefix(acts, i);
    if i == |acts| {
      assert acts[..i] == acts;
    } else {
      FreshPrefix(acts[..|acts| - 1], i);
      assert acts[..|acts| - 1][..i] == acts[..i];
    }
  }

  lemma FreshAt(acts: seq<Action>, i: nat)
    requires Legal(acts) && NoNameReuse(acts) && i < |acts|
    ensures FreshInv(At(acts, i)) && FreshName(At(acts, i), acts[i])
  {
    FreshPrefix(acts, i);
    FreshRun(acts[..i]);
    FreshPrefix(acts, i + 1);
    assert acts[..i + 1][..i] == acts[..i];
  }

  lemma DueReleaseMeansGone(s: State, a: Action, n: string)
    requires FreshInv(s) && Enabled(s, a) && Releases(s, a, n)
    ensures RefOf(s.server.store[n]) !in s.server.store
  {
    var backend := s.workers[a.worker].backend;
    AcceptedWrite(s, a.worker);
    assert n == backend.name by {
      assert s.server.store[n] != Apply(s, a).server.store[n];
    }
  }

  /** A release is only ever accepted when its proxy is gone. */
  lemma ReleaseMeansProxyIsGone(acts: seq<Action>, i: nat, n: string)
    requires Legal(acts) && NoNameReuse(acts) && i < |acts|
    requires Enabled(At(acts, i), acts[i]) && Releases(At(acts, i), acts[i], n)
    ensures n in At(acts, i).server.store && RefOf(At(acts, i).server.store[n]) !in At(acts, i).server.store
  {
    FreshAt(acts, i);
    DueReleaseMeansGone(At(acts, i), acts[i], n);
  }

  lemma NoReturn(s: State, a: Action, q: string)
    requires Inv(s) && Enabled(s, a) && FreshName(s, a)
    requires q in s.used && q in Apply(s, a).server.store
    ensures q in s.server.store
  {
    NamesGoAway(s, a);
  }

  lemma {:induction false} UsedNamesStayUsed(acts: seq<Action>, i: nat, j: nat, q: string)
    requires Legal(acts) && i <= j <= |acts| && q in At(acts, i).used
    ensures q in At(acts, j).used
    decreases j - i
  {
    hide Apply, Enabled, Inv;
    if i < j {
      UsedNamesStayUsed(acts, i, j - 1, q);
      StepAt(acts, j - 1);
      InvAt(acts, j - 1);
      NamesGoAway(At(acts, j - 1), acts[j - 1]);
    }
  }

  lemma ReferenceIsUsed(acts: seq<Action>, i: nat, n: string)
    requires Legal(acts) && i <= |acts| && Protected(At(acts, i), n)
    ensures RefOf(At(acts, i).server.store[n]) in At(acts, i).used
  {
    InvAt(acts, i);
  }

  /** A claim that a live proxy refers to stays, as the same object, with its reference and its protection. */
  lemma {:induction false} ProtectedWhileProxyLives(acts: seq<Action>, i: nat, j: nat, n: string)
    requires Legal(acts) && NoNameReuse(acts) && i <= j <= |acts| && Protected(At(acts, i), n)
    requires RefOf(At(acts, i).server.store[n]) in At(acts, j).server.store
    ensures Keeps(At(acts, i).server, At(acts, j).server, n)
    decreases j - i
  {
    hide Apply, Enabled, Inv, FreshInv, Releases;
    if i < j {
      var q := RefOf(At(acts, i).server.store[n]);
      var s := At(acts, j - 1);
      ReferenceIsUsed(acts, i, n);
      UsedNamesStayUsed(acts, i, j - 1, q);
      StepAt(acts, j - 1);
      InvAt(acts, j - 1);
      FreshAt(acts, j - 1);
      NoReturn(s, acts[j - 1], q);
      ProtectedWhileProxyLives(acts, i, j - 1, n);
      ProtectedStep(s, acts[j - 1], n);
      if Releases(s, acts[j - 1], n) {
        DueReleaseMeansGone(s, acts[j - 1], n);
      }
    }
  }

  // Why names must not be used twice.

  lemma Extend(acts: seq<Action>, a: Action)
    requires Legal(acts) && Enabled(After(acts), a)
    ensures Legal(acts + [a]) && After(acts + [a]) == Apply(After(acts), a)
  {
    assert (acts + [a])[..|acts|] == acts;
  }

  const UnclaimedBackend := Pvc("b", 1, 1, false, map[], [], "")
  const ProxyClaim := Pvc("p", 2, 2, false, map[StorageProvisioner := DRIVER_NAME, BackendRef := "b"], [], "")
  const ClaimedBackend := UnclaimedBackend.(version := 3, annotations := map[ProxyRef := "p"])
  const ReleasedBackend := UnclaimedBackend.(version := 5)
  const SecondProxyClaim := ProxyClaim.(uid := 6, version := 6)

  lemma Begin()
    ensures Legal([]) && After([]) == Init
  {
  }

  /** A backend and a proxy are created. */
  lemma TwoClaims() returns (acts: seq<Action>)
    ensures Legal(acts)
    ensures After(acts).server == Server(map["b" := UnclaimedBackend, "p" := ProxyClaim], 2)
    ensures UnclaimedBackend in After(acts).history && ProxyClaim in After(acts).history
    ensures After(acts).workers == map[]
  {
    Begin();
    hide Legal, After;
    Extend([], UserCreate(UnclaimedBackend));
    acts := [] + [UserCreate(UnclaimedBackend)];
    Extend(acts, UserCreate(ProxyClaim));
    acts := acts + [UserCreate(ProxyClaim)];
  }

  /** The binder claims the backend and crashes; the proxy is deleted. */
  lemma ClaimAndDelete() returns (acts: seq<Action>)
    ensures Legal(acts)
    ensures After(acts).server == Server(map["b" := ClaimedBackend], 4)
    ensures ClaimedBackend in After(acts).history && After(acts).workers == map[]
  {
    acts := TwoClaims();
    hide Legal, After;
    Extend(acts, BinderRead(0, ProxyClaim, UnclaimedBackend));
    acts := acts + [BinderRead(0, ProxyClaim, UnclaimedBackend)];
    Extend(acts, Write(0));
    acts := acts + [Write(0)];
    assert After(acts).server == Server(map["b" := ClaimedBackend, "p" := ProxyClaim], 3);
    Extend(acts, Crash(0));
    acts := acts + [Crash(0)];
    Extend(acts, UserDelete("p"));
    acts := acts + [UserDelete("p")];
    assert After(acts).server.store == map["b" := ClaimedBackend];
  }

  /** The backend is released and a second proxy takes the name of the first one. */
  lemma ReleaseAndReuse() returns (acts: seq<Action>)
    ensures Legal(acts)
    ensures After(acts).server == Server(map["b" := ReleasedBackend, "p" := SecondProxyClaim], 6)
    ensures ClaimedBackend in After(acts).history && SecondProxyClaim in After(acts).history
    ensures After(acts).workers == map[]
  {
    acts := ClaimAndDelete();
    hide Legal, After;
    Extend(acts, ReleaserGet(1, ClaimedBackend));
    acts := acts + [ReleaserGet(1, ClaimedBackend)];
    Extend(acts, Write(1));
    acts := acts + [Write(1)];
    assert Released(ClaimedBackend).annotations == map[];
    assert After(acts).server == Server(map["b" := ReleasedBackend], 5);
    Extend(acts, UserCreate(ProxyClaim));
    acts := acts + [UserCreate(ProxyClaim)];
  }

  /** With a name used twice, a binder whose cache still shows the old claim skips the first write and
      completes a binding to a backend that no longer names the proxy. */
  lemma NameReuseBreaksBinding() returns (acts: seq<Action>)
    ensures Legal(acts) && !NoNameReuse(acts)
    ensures Bound(After(acts), "p") && RequestOf(After(acts).server.store["p"]) == "b"
    ensures "b" in After(acts).server.store && RefOf(After(acts).server.store["b"]) == ""
  {
    acts := ReleaseAndReuse();
    hide Legal, After;
    Extend(acts, BinderRead(0, SecondProxyClaim, ClaimedBackend));
    acts := acts + [BinderRead(0, SecondProxyClaim, ClaimedBackend)];
    Extend(acts, Write(0));
    acts := acts + [Write(0)];
    if NoNameReuse(acts) {
      BoundProxyIsNamedByItsBackend(acts, "p");
    }
  }
}
