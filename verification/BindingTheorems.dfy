/** The promises of the binding protocol, for every run: no lost updates, no stealing, deletion protection
    and one-to-one binding. */
module BindingTheorems {
  import opened Kubernetes
  import opened Binding
  import opened BindingSafety

  lemma {:induction false} LegalPrefix(acts: seq<Action>, i: nat)
    requires Legal(acts) && i <= |acts|
    ensures Legal(acts[..i])
    decreases |acts|
  {
    if i == |acts| {
      assert acts[..i] == acts;
    } else {
      var before := acts[..|acts| - 1];
      LegalPrefix(before, i);
      assert before[..i] == acts[..i];
    }
  }

  /** The state after the first `i` steps of a run. */
  function At(acts: seq<Action>, i: nat): State
    requires Legal(acts) && i <= |acts|
  {
    LegalPrefix(acts, i);
    After(acts[..i])
  }

  lemma StepAt(acts: seq<Action>, i: nat)
    requires Legal(acts) && i < |acts|
    ensures Enabled(At(acts, i), acts[i])
    ensures At(acts, i + 1) == Apply(At(acts, i), acts[i])
  {
    hide Apply, Enabled;
    LegalPrefix(acts, i + 1);
    var prefix := acts[..i + 1];
    assert prefix[..i] == acts[..i] && prefix[i] == acts[i];
  }

  lemma InvAt(acts: seq<Action>, i: nat)
    requires Legal(acts) && i <= |acts|
    ensures Inv(At(acts, i))
  {
    LegalPrefix(acts, i);
    InvRun(acts[..i]);
  }

  lemma SameVersionSameContent(acts: seq<Action>, a: Pvc, b: Pvc)
    requires Legal(acts) && a in After(acts).history && b in After(acts).history
    requires a.name == b.name && a.version == b.version
    ensures a == b
  {
    InvRun(acts);
  }

  // No lost updates.

  ghost predicate Replaces(s: Server, t: Server, after: Pvc) {
    && after.name in s.store
    && t.revision == s.revision + 1
    && t.store == s.store[after.name := after.(version := t.revision)]
  }

  /** What an accepted write of worker `w` may do to the server, told in terms of the object that is live
      when the write arrives and never of the snapshot that was sent. */
  ghost predicate ExactWrite(s: State, w: nat, t: Server)
    requires w in s.workers
  {
    match s.workers[w]
    case Claiming(proxy, backend) =>
      && backend.name in s.server.store
      && var live := s.server.store[backend.name];
      && RefOf(live) == ""
      && Replaces(s.server, t, live.(annotations := live.annotations[ProxyRef := proxy.name]))
    case Completing(proxy, backend) =>
      && proxy.name in s.server.store
      && var live := s.server.store[proxy.name];
      && WantsBinding(live)
      && Replaces(s.server, t, live.(annotations := live.annotations[BindCompleted := ""]))
    case Releasing(backend) =>
      && backend.name in s.server.store
      && var live := s.server.store[backend.name];
      && HasAnnotation(live, ProxyRef) && RefOf(live) == RefOf(backend)
      && Replaces(s.server, t, live.(annotations := live.annotations - {ProxyRef}))
    case AddingFinalizer(pvc) =>
      && pvc.name in s.server.store
      && var live := s.server.store[pvc.name];
      && !HasFinalizer(live, BackendProtection) && !live.deleting
      && Replaces(s.server, t, live.(finalizers := live.finalizers + [BackendProtection]))
    case RemovingFinalizer(pvc) =>
      && pvc.name in s.server.store
      && var live := s.server.store[pvc.name];
      && live.deleting && !HasAnnotation(live, ProxyRef) && HasFinalizer(live, BackendProtection)
      && var rest := live.(finalizers := ControllerHelpers.Without(live.finalizers, BackendProtection));
      if rest.finalizers == [] then
        t == Server(s.server.store - {pvc.name}, s.server.revision + 1)
      else
        Replaces(s.server, t, rest)
  }

  predicate IsUser(a: Action) {
    a.UserCreate? || a.UserDelete? || a.OtherUpdate?
  }

  lemma WriteIsExact(s: State, w: nat)
    requires Inv(s) && w in s.workers && Send(s.server, s.workers[w]).Ok?
    ensures ExactWrite(s, w, Send(s.server, s.workers[w]).value)
  {
    AcceptedWrite(s, w);
    assert WorkerInv(s.history, s.workers[w]);
  }

  /** No lost updates: a controller step either leaves the server alone or makes exactly its own change to
      the object that is live at that moment. */
  lemma NoLostUpdates(acts: seq<Action>, i: nat)
    requires Legal(acts) && i < |acts| && !IsUser(acts[i])
    ensures var s, t := At(acts, i), At(acts, i + 1);
            t.server == s.server || (
              && acts[i].Write? && acts[i].worker in s.workers
              && ExactWrite(s, acts[i].worker, t.server))
  {
    StepAt(acts, i);
    InvAt(acts, i);
    if acts[i].Write? && Send(At(acts, i).server, At(acts, i).workers[acts[i].worker]).Ok? {
      WriteIsExact(At(acts, i), acts[i].worker);
    }
  }

  lemma ProtectionNeverDuplicated(acts: seq<Action>, n: string)
    requires Legal(acts) && n in After(acts).server.store
    ensures Protections(After(acts).server.store[n]) <= 1
  {
    InvRun(acts);
  }

  // What each step may do to the reference and the finalizer of one object.

  /** Step `a` clears the proxy reference of the live object `n`, and changes nothing else of it. */
  ghost predicate Releases(s: State, a: Action, n: string)
    requires Enabled(s, a)
  {
    && a.Write? && s.workers[a.worker].Releasing?
    && n in s.server.store && HasAnnotation(s.server.store[n], ProxyRef)
    && Replaces(s.server, Apply(s, a).server,
         s.server.store[n].(annotations := s.server.store[n].annotations - {ProxyRef}))
  }

  /** The object `n` lives on as the same object, with its reference and its protection. */
  ghost predicate Keeps(before: Server, after: Server, n: string)
    requires n in before.store
  {
    && n in after.store
    && after.store[n].uid == before.store[n].uid
    && RefOf(after.store[n]) == RefOf(before.store[n])
    && (HasAnnotation(before.store[n], ProxyRef) ==> HasAnnotation(after.store[n], ProxyRef))
    && (HasFinalizer(before.store[n], BackendProtection) ==> HasFinalizer(after.store[n], BackendProtection))
  }

  lemma DeleteKeepsReference(s: State, name: string, n: string)
    requires Inv(s) && name in s.server.store && n in s.server.store
    ensures n in Delete(s.server, name).value.store ==> Keeps(s.server, Delete(s.server, name).value, n)
    ensures HasFinalizer(s.server.store[n], BackendProtection) ==> n in Delete(s.server, name).value.store
  {}

  lemma OtherUpdateKeepsReference(s: State, pvc: Pvc, n: string)
    requires Inv(s) && Enabled(s, OtherUpdate(pvc)) && n in s.server.store
    ensures n in Update(s.server, pvc).value.store ==> Keeps(s.server, Update(s.server, pvc).value, n)
    ensures HasFinalizer(s.server.store[n], BackendProtection) ==> n in Update(s.server, pvc).value.store
  {
    if pvc.name == n {
      var live := s.server.store[n];
      assert ProxyRef in [BackendRef, ProxyRef, BindCompleted];
      assert HasFinalizer(live, BackendProtection) <==> Protections(live) > 0;
      assert HasFinalizer(pvc, BackendProtection) <==> Protections(pvc) > 0;
    }
  }

  lemma OtherClientsKeepReferences(s: State, a: Action, n: string)
    requires Inv(s) && Enabled(s, a) && IsUser(a) && n in s.server.store
    ensures n in Apply(s, a).server.store ==> Keeps(s.server, Apply(s, a).server, n)
    ensures HasFinalizer(s.server.store[n], BackendProtection) ==> n in Apply(s, a).server.store
  {
    match a
    case UserDelete(name) => DeleteKeepsReference(s, name, n);
    case OtherUpdate(pvc) => OtherUpdateKeepsReference(s, pvc, n);
    case UserCreate(pvc) =>
  }

  lemma ExactWriteKeepsReference(s: State, w: nat, t: Server, n: string)
    requires StoreInv(s) && w in s.workers && !s.workers[w].Releasing? && ExactWrite(s, w, t)
    requires n in s.server.store && RefOf(s.server.store[n]) != ""
    ensures Keeps(s.server, t, n)
  {}

  lemma ControllersKeepReferences(s: State, a: Action, n: string)
    requires Inv(s) && Enabled(s, a) && !IsUser(a) && n in s.server.store
    requires RefOf(s.server.store[n]) != ""
    ensures Releases(s, a, n) || Keeps(s.server, Apply(s, a).server, n)
  {
    if a.Write? && Send(s.server, s.workers[a.worker]).Ok? {
      WriteIsExact(s, a.worker);
      if !s.workers[a.worker].Releasing? {
        ExactWriteKeepsReference(s, a.worker, Apply(s, a).server, n);
      }
    }
  }

  /** No stealing, with or without name reuse: no step takes a live backend from one proxy to another. */
  lemma NoStealing(acts: seq<Action>, i: nat, n: string)
    requires Legal(acts) && i < |acts|
    requires n in At(acts, i).server.store && n in At(acts, i + 1).server.store
    requires At(acts, i).server.store[n].uid == At(acts, i + 1).server.store[n].uid
    requires RefOf(At(acts, i).server.store[n]) != "" && RefOf(At(acts, i + 1).server.store[n]) != ""
    ensures RefOf(At(acts, i).server.store[n]) == RefOf(At(acts, i + 1).server.store[n])
  {
    StepAt(acts, i);
    InvAt(acts, i);
    if IsUser(acts[i]) {
      OtherClientsKeepReferences(At(acts, i), acts[i], n);
    } else {
      ControllersKeepReferences(At(acts, i), acts[i], n);
    }
  }

  // Deletion protection.

  predicate Protected(s: State, n: string) {
    && n in s.server.store
    && HasAnnotation(s.server.store[n], ProxyRef) && HasFinalizer(s.server.store[n], BackendProtection)
  }

  lemma ProtectedStep(s: State, a: Action, n: string)
    requires Inv(s) && Enabled(s, a) && Protected(s, n)
    ensures Releases(s, a, n) || Keeps(s.server, Apply(s, a).server, n)
  {
    if IsUser(a) {
      OtherClientsKeepReferences(s, a, n);
    } else {
      assert RefOf(s.server.store[n]) != "";
      ControllersKeepReferences(s, a, n);
    }
  }

  /** A release of `n` takes place between the `i`-th and the `j`-th step. */
  ghost predicate ReleasedBetween(acts: seq<Action>, i: nat, j: nat, n: string)
    requires Legal(acts) && j <= |acts|
  {
    exists k: nat :: i <= k < j && Enabled(At(acts, k), acts[k]) && Releases(At(acts, k), acts[k], n)
  }

  /** Deletion protection over all runs: a claim with a proxy reference and the protection finalizer stays,
      as the same object and with both, until a release clears the reference. */
  lemma {:induction false} ProtectedUntilReleased(acts: seq<Action>, i: nat, j: nat, n: string)
    requires Legal(acts) && i <= j <= |acts| && Protected(At(acts, i), n)
    ensures ReleasedBetween(acts, i, j, n) || Keeps(At(acts, i).server, At(acts, j).server, n)
    decreases j - i
  {
    hide Apply, Enabled, Inv, Releases;
    if i < j {
      ProtectedUntilReleased(acts, i, j - 1, n);
      StepAt(acts, j - 1);
      InvAt(acts, j - 1);
      if !ReleasedBetween(acts, i, j - 1, n) {
        ProtectedStep(At(acts, j - 1), acts[j - 1], n);
        if Releases(At(acts, j - 1), acts[j - 1], n) {
          assert ReleasedBetween(acts, i, j, n);
        }
      } else {
        assert ReleasedBetween(acts, i, j, n);
      }
    }
  }
}
