/** The wake-up theorem. */
module NoLostWakeUps {
  import opened Kubernetes
  import opened Binding
  import opened BindingSafety
  import opened BindingTheorems
  import opened BindingConvergence
  import opened WakeUpRoles
  import opened WakeUps
  import opened WakeUpSafety

  ghost predicate Holds(w: World) {
    Sound(w.s, w.cache) && w.s.workers == map[] && CacheInv(w) && WokenInv(w)
  }

  // The server moves, the cache does not.

  lemma PendingBefore(w: World, t: State, k: string)
    requires CacheInv(w) && HistoryInv(w.s) && Seen(w.s, w.cache) && Forward(w.s, t)
    ensures var n := w.(s := t);
            && (BindPending(n, k) ==> BindPending(w, k))
            && (ReleasePending(n, k) ==> ReleasePending(w, k))
            && (ProtectPending(n, k) ==> ProtectPending(w, k))
  {
    hide WantsBinding, FreeFor;
  }

  lemma QueuesDoNotMatter(w: World, queues: Queues, k: string)
    ensures var n := w.(queues := queues);
            && (BindPending(n, k) <==> BindPending(w, k))
            && (ReleasePending(n, k) <==> ReleasePending(w, k))
            && (ProtectPending(n, k) <==> ProtectPending(w, k))
  {
  }

  lemma UserHolds(w: World, a: Action)
    requires Holds(w) && Possible(w, User(a))
    ensures Holds(Then(w, User(a)))
  {
    StepIsSound(w.s, a, w.cache);
    UserRests(w.s, a);
    var t := Apply(w.s, a);
    hide Apply, Enabled;
    forall k ensures var n := w.(s := t); BindPending(n, k) ==> k in w.queues.bind {
      PendingBefore(w, t, k);
    }
    forall k ensures var n := w.(s := t); ReleasePending(n, k) ==> k in w.queues.release {
      PendingBefore(w, t, k);
    }
    forall k ensures var n := w.(s := t); ProtectPending(n, k) ==> k in w.queues.protect {
      PendingBefore(w, t, k);
    }
  }

  lemma UserRests(s: State, a: Action)
    requires Enabled(s, a) && IsUser(a)
    ensures Apply(s, a).workers == s.workers
  {
  }

  // Syncs.

  lemma VerdictsAreKnown(w: World, k: string)
    requires Holds(w)
    ensures Known(w, BindVerdict(w.cache, k)) && Known(w, ReleaseVerdict(w.cache, k)) && Known(w, ProtectVerdict(w.cache, k))
  {
    hide Sound, WokenInv;
  }

  /** A key that is pending gets an Act; the others keep what they had. */
  lemma PendingActs(w: World, k: string)
    ensures BindPending(w, k) ==> BindVerdict(w.cache, k).Act?
    ensures ReleasePending(w, k) ==> ReleaseVerdict(w.cache, k).Act?
    ensures ProtectPending(w, k) ==> ProtectVerdict(w.cache, k).Act?
  {
  }

  ghost predicate Reads(verdict: Verdict, cache: map<string, Pvc>) {
    verdict.Act? ==>
      && (verdict.read.BinderRead? || verdict.read.ReleaserGet? || verdict.read.ProtectorRead?)
      && verdict.read.worker == WORKER && (verdict.read.BinderRead? ==> verdict.read.proxy.name in cache)
  }

  lemma SyncedIsSound(w: World, verdict: Verdict)
    requires Holds(w) && Known(w, verdict) && Reads(verdict, w.cache)
    ensures var t := Synced(w.s, verdict);
            Sound(t, w.cache) && Forward(w.s, t) && t.workers == map[] && CacheInv(w.(s := t))
  {
    if verdict.Act? {
      hide Sound, Enabled, Apply;
      SyncIsSound(w.s, verdict.read, w.cache);
    }
  }

  lemma BindFinished(w: World, k: string)
    requires Holds(w) && Known(w, BindVerdict(w.cache, k)) && !Again(w.s, BindVerdict(w.cache, k))
    ensures !BindPending(w.(s := Synced(w.s, BindVerdict(w.cache, k))), k)
  {
    var verdict := BindVerdict(w.cache, k);
    if verdict.Act? {
      ReadTask(w.s, verdict.read, w.cache);
      StepIsSound(w.s, verdict.read, w.cache);
      ReadGivesTask(w.s, verdict.read);
      BindDone(Apply(w.s, verdict.read), verdict.read.proxy, verdict.read.backend, w.cache);
      hide Sound, Enabled, Apply, Finish;
    } else {
      PendingActs(w, k);
    }
  }

  lemma ReleaseFinished(w: World, k: string)
    requires Holds(w) && Known(w, ReleaseVerdict(w.cache, k)) && !Again(w.s, ReleaseVerdict(w.cache, k))
    ensures !ReleasePending(w.(s := Synced(w.s, ReleaseVerdict(w.cache, k))), k)
  {
    var verdict := ReleaseVerdict(w.cache, k);
    var t := Synced(w.s, verdict);
    if verdict.Act? && ReleasePending(w.(s := t), k) {
      SyncedIsSound(w, verdict);
      PendingBefore(w, t, k);
      ReadGivesTask(w.s, verdict.read);
      OneWriteDone(w.s, verdict.read);
      hide Sound, Enabled, Apply, Finish;
    } else {
      PendingActs(w, k);
    }
  }

  lemma ProtectFinished(w: World, k: string)
    requires Holds(w) && Known(w, ProtectVerdict(w.cache, k)) && !Again(w.s, ProtectVerdict(w.cache, k))
    ensures !ProtectPending(w.(s := Synced(w.s, ProtectVerdict(w.cache, k))), k)
  {
    var verdict := ProtectVerdict(w.cache, k);
    if verdict.Act? {
      ReadGivesTask(w.s, verdict.read);
      OneWriteDone(w.s, verdict.read);
      hide Sound, Enabled, Apply, Finish;
      FinalizersDiffer(w.cache[k]);
    } else {
      PendingActs(w, k);
    }
  }

  lemma FinalizersDiffer(pvc: Pvc)
    requires ProtectorIntent(pvc).Some?
    ensures Snapshot(ProtectorIntent(pvc).value) == pvc
    ensures Proposal(ProtectorIntent(pvc).value).finalizers != pvc.finalizers
  {
  }

  /** A sync of `key` that leaves it queued or done, and the other keys where they are. */
  lemma SyncHolds(w: World, t: State, queues: Queues, key: string)
    requires Holds(w) && Sound(t, w.cache) && Forward(w.s, t) && t.workers == map[] && CacheInv(w.(s := t))
    requires w.queues.bind - {key} <= queues.bind && w.queues.release - {key} <= queues.release
    requires w.queues.protect - {key} <= queues.protect
    requires key in w.queues.bind && key !in queues.bind ==> !BindPending(w.(s := t), key)
    requires key in w.queues.release && key !in queues.release ==> !ReleasePending(w.(s := t), key)
    requires key in w.queues.protect && key !in queues.protect ==> !ProtectPending(w.(s := t), key)
    ensures Holds(w.(s := t, queues := queues))
  {
    var n := w.(s := t, queues := queues);
    hide BindPending, ReleasePending, ProtectPending;
    assert HistoryInv(w.s) && Seen(w.s, w.cache);
    hide Sound;
    forall k ensures BindPending(n, k) ==> k in queues.bind {
      PendingBefore(w, t, k);
      QueuesDoNotMatter(w.(s := t), queues, k);
    }
    forall k ensures ReleasePending(n, k) ==> k in queues.release {
      PendingBefore(w, t, k);
      QueuesDoNotMatter(w.(s := t), queues, k);
    }
    forall k ensures ProtectPending(n, k) ==> k in queues.protect {
      PendingBefore(w, t, k);
      QueuesDoNotMatter(w.(s := t), queues, k);
    }
  }

  lemma BindNextHolds(w: World, key: string)
    requires Holds(w) && Possible(w, BindNext(key))
    ensures Holds(Then(w, BindNext(key)))
  {
    var verdict := BindVerdict(w.cache, key);
    SyncedIsSound(w, verdict);
    var t := Synced(w.s, verdict);
    if !Again(w.s, verdict) { BindFinished(w, key); }
    var queue := Requeued(w.queues.bind, key, Again(w.s, verdict));
    hide Sound, Again, Synced, BindVerdict;
    SyncHolds(w, t, w.queues.(bind := queue), key);
  }

  lemma ReleaseNextHolds(w: World, key: string)
    requires Holds(w) && Possible(w, ReleaseNext(key))
    ensures Holds(Then(w, ReleaseNext(key)))
  {
    var verdict := ReleaseVerdict(w.cache, key);
    SyncedIsSound(w, verdict);
    var t := Synced(w.s, verdict);
    if !Again(w.s, verdict) { ReleaseFinished(w, key); }
    var queue := Requeued(w.queues.release, key, Again(w.s, verdict));
    hide Sound, Again, Synced, ReleaseVerdict;
    SyncHolds(w, t, w.queues.(release := queue), key);
  }

  lemma ProtectNextHolds(w: World, key: string)
    requires Holds(w) && Possible(w, ProtectNext(key))
    ensures Holds(Then(w, ProtectNext(key)))
  {
    var verdict := ProtectVerdict(w.cache, key);
    SyncedIsSound(w, verdict);
    var t := Synced(w.s, verdict);
    if !Again(w.s, verdict) { ProtectFinished(w, key); }
    var queue := Requeued(w.queues.protect, key, Again(w.s, verdict));
    hide Sound, Again, Synced, ProtectVerdict;
    SyncHolds(w, t, w.queues.(protect := queue), key);
  }

  // The cache moves, the server does not.

  lemma DeliveryWakes(w: World, pvc: Pvc, k: string)
    requires Holds(w) && OneRole(w.s.history) && pvc in w.s.history
    ensures var n := Then(w, Deliver(pvc));
            && (BindPending(n, k) ==> k in n.queues.bind)
            && (ReleasePending(n, k) ==> k in n.queues.release)
            && (ProtectPending(n, k) ==> k in n.queues.protect)
  {
    hide Sound, FreeFor, ProtectorIntent;
    var n := Then(w, Deliver(pvc));
    assert BindPending(w, k) ==> k in w.queues.bind;
    assert ReleasePending(w, k) ==> k in w.queues.release;
    assert ProtectPending(w, k) ==> k in w.queues.protect;
    if BindPending(n, k) && k != pvc.name && RequestOf(n.cache[k]) == pvc.name {
      assert n.cache[k] in w.s.history && IsProxy(n.cache[k]);
      assert !IsProxy(pvc);
    }
  }

  lemma DeliverHolds(w: World, pvc: Pvc)
    requires Holds(w) && OneRole(w.s.history) && Possible(w, Deliver(pvc))
    ensures Holds(Then(w, Deliver(pvc)))
  {
    var n := Then(w, Deliver(pvc));
    forall k ensures (BindPending(n, k) ==> k in n.queues.bind) && (ReleasePending(n, k) ==> k in n.queues.release)
                     && (ProtectPending(n, k) ==> k in n.queues.protect) {
      DeliveryWakes(w, pvc, k);
    }
    hide BindPending, ReleasePending, ProtectPending, RoleInv, Inv, BindWakes, ReleaseWakes, ProtectWakes;
  }

  /** The deleted proxy leads to the backend that still names it. */
  lemma GoneProxyAsked(w: World, name: string, k: string)
    requires Holds(w) && OneRole(w.s.history) && name in w.cache
    requires k in w.cache && HasAnnotation(w.cache[k], ProxyRef) && RefOf(w.cache[k]) == name
    ensures !HasAnnotation(w.cache[name], ProxyRef)
    ensures HasAnnotation(w.cache[name], BackendRef) && RequestOf(w.cache[name]) == k
  {
    var history, gone := w.s.history, w.cache[name];
    assert Asked(history, name, k);
    var p :| p in history && p.name == name && IsProxy(p) && RequestOf(p) == k;
    assert SameRequest(p, gone);
  }

  lemma GoneWakes(w: World, name: string, k: string)
    requires Holds(w) && OneRole(w.s.history) && Possible(w, Gone(name))
    ensures var n := Then(w, Gone(name));
            && (BindPending(n, k) ==> k in n.queues.bind)
            && (ReleasePending(n, k) ==> k in n.queues.release)
            && (ProtectPending(n, k) ==> k in n.queues.protect)
  {
    var n := Then(w, Gone(name));
    assert BindPending(w, k) ==> k in w.queues.bind;
    assert ReleasePending(w, k) ==> k in w.queues.release;
    assert ProtectPending(w, k) ==> k in w.queues.protect;
    if ReleasePending(n, k) && RefOf(w.cache[k]) == name {
      GoneProxyAsked(w, name, k);
    }
    hide Sound, FreeFor, ProtectorIntent, WantsBinding;
  }

  lemma GoneHolds(w: World, name: string)
    requires Holds(w) && OneRole(w.s.history) && Possible(w, Gone(name))
    ensures Holds(Then(w, Gone(name)))
  {
    var n := Then(w, Gone(name));
    forall k ensures (BindPending(n, k) ==> k in n.queues.bind) && (ReleasePending(n, k) ==> k in n.queues.release)
                     && (ProtectPending(n, k) ==> k in n.queues.protect) {
      GoneWakes(w, name, k);
    }
    hide BindPending, ReleasePending, ProtectPending, RoleInv, Inv, BindWakes, ReleaseWakes, ProtectWakes;
  }

  lemma RestartHolds(w: World)
    requires Holds(w)
    ensures Holds(Then(w, Restart))
  {
    var n := Then(w, Restart);
    forall k | k in n.cache ensures n.cache[k].name == k && n.cache[k] in w.s.history {
    }
    hide FreeFor, ProtectorIntent, RoleInv;
    forall k ensures BindPending(n, k) ==> k in n.queues.bind {
      if BindPending(n, k) { assert k in BindWakes(n.cache, n.cache[k]); }
    }
    forall k ensures ReleasePending(n, k) ==> k in n.queues.release {
      if ReleasePending(n, k) { assert k in ReleaseWakes(n.cache, n.cache[k]); }
    }
    forall k ensures ProtectPending(n, k) ==> k in n.queues.protect {
      if ProtectPending(n, k) { assert k in ProtectWakes(n.cache, n.cache[k]); }
    }
  }

  // Runs.

  lemma EventHolds(w: World, e: Event)
    requires Holds(w) && Possible(w, e) && OneRole(w.s.history)
    ensures Holds(Then(w, e))
  {
    hide Holds, Then, OneRole;
    match e
    case User(a) => UserHolds(w, a);
    case Deliver(pvc) => DeliverHolds(w, pvc);
    case Gone(name) => GoneHolds(w, name);
    case Restart => RestartHolds(w);
    case BindNext(key) => BindNextHolds(w, key);
    case ReleaseNext(key) => ReleaseNextHolds(w, key);
    case ProtectNext(key) => ProtectNextHolds(w, key);
  }

  lemma ApplyGrows(s: State, a: Action)
    requires Enabled(s, a)
    ensures s.history <= Apply(s, a).history
  {
    hide Send, Update, Create, Delete;
  }

  lemma SyncedGrows(s: State, verdict: Verdict)
    requires verdict.Act? ==> Enabled(s, verdict.read)
    ensures s.history <= Synced(s, verdict).history
  {
    hide Apply, Enabled;
    if verdict.Act? {
      var t := Apply(s, verdict.read);
      ApplyGrows(s, verdict.read);
      WriteOnGrows(t);
      WriteOnGrows(WriteOn(t));
    }
  }

  lemma WriteOnGrows(s: State)
    ensures s.history <= WriteOn(s).history
  {
    hide Apply;
    if WORKER in s.workers { ApplyGrows(s, Write(WORKER)); }
  }

  lemma HistoryGrows(w: World, e: Event)
    requires Possible(w, e)
    ensures w.s.history <= Then(w, e).s.history
  {
    hide Apply, Enabled, Synced;
    match e
    case User(a) => ApplyGrows(w.s, a);
    case BindNext(key) => SyncedGrows(w.s, BindVerdict(w.cache, key));
    case ReleaseNext(key) => SyncedGrows(w.s, ReleaseVerdict(w.cache, key));
    case ProtectNext(key) => SyncedGrows(w.s, ProtectVerdict(w.cache, key));
    case _ =>
  }

  lemma StartHolds()
    ensures Holds(Start)
  {
  }

  lemma {:induction false} RunHolds(events: seq<Event>)
    requires LegalWorld(events) && OneRole(WorldAfter(events).s.history)
    ensures Holds(WorldAfter(events))
    decreases |events|
  {
    if events == [] {
      StartHolds();
    } else {
      hide Possible, Then, Holds, OneRole;
      var before, e := events[..|events| - 1], events[|events| - 1];
      HistoryGrows(WorldAfter(before), e);
      OneRoleBefore(WorldAfter(before).s.history, WorldAfter(events).s.history);
      RunHolds(before);
      EventHolds(WorldAfter(before), e);
    }
  }

  /** In every run in which no claim is asked for and asks itself, whatever fails, lags or restarts: a key for
      which the cache is up to date and a sync would write is on its queue. */
  lemma NoWakeUpIsLost(events: seq<Event>, k: string)
    requires LegalWorld(events) && OneRole(WorldAfter(events).s.history)
    ensures var w := WorldAfter(events);
            && (BindPending(w, k) ==> k in w.queues.bind)
            && (ReleasePending(w, k) ==> k in w.queues.release)
            && (ProtectPending(w, k) ==> k in w.queues.protect)
  {
    RunHolds(events);
  }

  /** A queued key can always be taken: its sync never asks for a step that the protocol does not allow. */
  lemma QueuedKeysCanBeTaken(events: seq<Event>, k: string)
    requires LegalWorld(events) && OneRole(WorldAfter(events).s.history)
    ensures var w := WorldAfter(events);
            && (k in w.queues.bind ==> Possible(w, BindNext(k)))
            && (k in w.queues.release ==> Possible(w, ReleaseNext(k)))
            && (k in w.queues.protect ==> Possible(w, ProtectNext(k)))
  {
    RunHolds(events);
    VerdictsAreKnown(WorldAfter(events), k);
  }

  /** With an up-to-date cache and empty queues, binder and releaser have nothing to write, and every backend
      and every protected claim has the finalizer it should have. */
  lemma EmptyQueuesMeanDone(events: seq<Event>, k: string)
    requires LegalWorld(events) && OneRole(WorldAfter(events).s.history)
    requires var w := WorldAfter(events); w.cache == w.s.server.store && w.queues == Queues({}, {}, {})
    ensures var s := WorldAfter(events).s.server;
            && BindSync(s, k) == s && ReleaseSync(s, k) == s
            && (k in s.store && (HasAnnotation(s.store[k], ProxyRef) || HasFinalizer(s.store[k], BackendProtection)) ==>
                  ProtectSync(s, k) == s)
  {
    NoWakeUpIsLost(events, k);
    var w := WorldAfter(events);
    hide LegalWorld, WorldAfter, Attempt;
    assert !BindPending(w, k) && !ReleasePending(w, k) && !ProtectPending(w, k);
  }
}
