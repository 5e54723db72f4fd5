/** No wake-up is lost: in every run, a key that has work to do is on its queue. */
module WakeUpSafety {
  import opened Kubernetes
  import opened Binding
  import opened BindingSafety
  import opened WakeUpRoles
  import opened WakeUps

  // What a sequence of protocol steps does to the server.

  /** Every live object is as before or newer than anything a cache could hold. */
  predicate Forward(s: State, t: State) {
    && s.history <= t.history && s.server.revision <= t.server.revision
    && forall n <- t.server.store ::
         (n in s.server.store && t.server.store[n] == s.server.store[n]) || t.server.store[n].version > s.server.revision
  }

  lemma ForwardJoins(s: State, t: State, u: State)
    requires Forward(s, t) && Forward(t, u)
    ensures Forward(s, u)
  {
  }

  /** A proxy that some backend once named is in the cache while it is live. */
  ghost predicate Seen(s: State, cache: map<string, Pvc>) {
    forall h <- s.history | HasAnnotation(h, ProxyRef) && RefOf(h) in s.server.store :: RefOf(h) in cache
  }

  /** A reference that was there before the step leads to a proxy that was there before, if it is still there. */
  lemma OldReference(s: State, t: State, a: Action, h: Pvc)
    requires StoreInv(s) && HistoryInv(s) && Moves(s, t, a) && FreshName(s, a)
    requires h in s.history && HasAnnotation(h, ProxyRef) && RefOf(h) in t.server.store
    ensures RefOf(h) in s.server.store
  {
  }

  lemma StepKeepsSeen(s: State, t: State, a: Action, cache: map<string, Pvc>)
    requires StoreInv(s) && HistoryInv(s) && Moves(s, t, a) && FreshName(s, a) && Seen(s, cache)
    requires forall p, b | Claims(s, a, p, b) :: p in cache
    ensures Seen(t, cache)
  {
    forall h <- t.history | HasAnnotation(h, ProxyRef) && RefOf(h) in t.server.store ensures RefOf(h) in cache {
      NewVersion(s, t, a, h);
      if h in s.history {
        OldReference(s, t, a, h);
      } else if HasAnnotation(s.server.store[h.name], ProxyRef) && RefOf(h) == RefOf(s.server.store[h.name]) {
        OldReference(s, t, a, s.server.store[h.name]);
      } else {
        assert Claims(s, a, RefOf(h), h.name);
      }
    }
  }

  ghost predicate Sound(s: State, cache: map<string, Pvc>) {
    Inv(s) && RoleInv(s) && Seen(s, cache)
  }

  lemma StepIsSound(s: State, a: Action, cache: map<string, Pvc>)
    requires Sound(s, cache) && Enabled(s, a) && FreshName(s, a)
    requires forall p, b | Claims(s, a, p, b) :: p in cache
    ensures Sound(Apply(s, a), cache) && Forward(s, Apply(s, a))
  {
    hide Apply, Enabled, Claims, Seen, RoleInv, WorkersInv, CompletedInv;
    StepMoves(s, a);
    InvStep(s, a);
    StepKeepsRoles(s, a);
    StepKeepsSeen(s, Apply(s, a), a, cache);
    MovesForward(s, Apply(s, a), a);
  }

  lemma MovesForward(s: State, t: State, a: Action)
    requires Moves(s, t, a)
    ensures Forward(s, t)
  {
  }

  /** The worker's task is about a proxy in the cache. */
  predicate FromCache(s: State, cache: map<string, Pvc>) {
    s.workers.Keys <= {WORKER} && (WORKER in s.workers && s.workers[WORKER].Claiming? ==> s.workers[WORKER].proxy.name in cache)
  }

  lemma WriteOnIsSound(s: State, cache: map<string, Pvc>)
    requires Sound(s, cache) && FromCache(s, cache)
    ensures Sound(WriteOn(s), cache) && Forward(s, WriteOn(s)) && FromCache(WriteOn(s), cache)
    ensures WORKER in WriteOn(s).workers ==> !Refused(s) && WriteOn(s).workers[WORKER].Completing?
  {
    if WORKER in s.workers {
      WriteTask(s);
      hide Sound, Inv, Apply;
      StepIsSound(s, Write(WORKER), cache);
    }
  }

  lemma WriteTask(s: State)
    requires WORKER in s.workers && s.workers.Keys <= {WORKER}
    ensures var t := Apply(s, Write(WORKER));
            t.workers.Keys <= {WORKER}
            && (WORKER in t.workers ==> Send(s.server, s.workers[WORKER]).Ok? && Next(s.workers[WORKER]) == Some(t.workers[WORKER]))
  {
  }

  /** A whole sync keeps what holds of the server, and ends with the worker at rest. */
  lemma SyncIsSound(s: State, read: Action, cache: map<string, Pvc>)
    requires Sound(s, cache) && s.workers == map[] && Enabled(s, read)
    requires read.BinderRead? || read.ReleaserGet? || read.ProtectorRead?
    requires read.worker == WORKER && (read.BinderRead? ==> read.proxy.name in cache)
    ensures var t := Finish(Apply(s, read)); Sound(t, cache) && Forward(s, t) && t.workers == map[]
  {
    ReadTask(s, read, cache);
    StepIsSound(s, read, cache);
    var t := Apply(s, read);
    hide Sound, Apply, Enabled;
    WriteOnIsSound(t, cache);
    WriteOnIsSound(WriteOn(t), cache);
    ForwardJoins(s, t, WriteOn(t));
    ForwardJoins(s, WriteOn(t), Finish(t));
    Rests(WriteOn(t), cache);
  }

  lemma ReadTask(s: State, read: Action, cache: map<string, Pvc>)
    requires s.workers == map[] && Enabled(s, read)
    requires read.BinderRead? || read.ReleaserGet? || read.ProtectorRead?
    requires read.worker == WORKER && (read.BinderRead? ==> read.proxy.name in cache)
    ensures FromCache(Apply(s, read), cache)
  {
  }

  lemma Rests(s: State, cache: map<string, Pvc>)
    requires FromCache(s, cache) && (WORKER in s.workers ==> s.workers[WORKER].Completing?)
    ensures WriteOn(s).workers == map[]
  {
    if WORKER in s.workers { WriteTask(s); }
  }

  // A sync that does not fail leaves its key with nothing to do.

  /** After an accepted write the object has the annotations and finalizers that were sent, if it is live. */
  lemma LastWrite(s: State)
    requires Inv(s) && WORKER in s.workers && Send(s.server, s.workers[WORKER]).Ok?
    ensures var t, obj := Apply(s, Write(WORKER)), Proposal(s.workers[WORKER]);
            Snapshot(s.workers[WORKER]).name in t.server.store ==>
              var live := t.server.store[Snapshot(s.workers[WORKER]).name];
              live.annotations == obj.annotations && live.finalizers == obj.finalizers
  {
    hide Send, Commit, Inv, Update, Proposal;
    AcceptedWrite(s, WORKER);
    CommitShows(s.server, Snapshot(s.workers[WORKER]).name, Proposal(s.workers[WORKER]));
  }

  lemma CommitShows(s: Server, name: string, obj: Pvc)
    requires name in s.store
    ensures name in Commit(s, name, obj).store ==>
              var live := Commit(s, name, obj).store[name];
              live.annotations == obj.annotations && live.finalizers == obj.finalizers
  {
  }

  lemma ReadGivesTask(s: State, read: Action)
    requires s.workers == map[] && Enabled(s, read)
    requires (read.BinderRead? || read.ReleaserGet? || read.ProtectorRead?) && read.worker == WORKER
    ensures var t := Apply(s, read);
            && t.server == s.server && t.workers.Keys <= {WORKER}
            && (read.BinderRead? ==>
                  && WORKER in t.workers
                  && t.workers[WORKER] in {Completing(read.proxy, read.backend), Claiming(read.proxy, read.backend)})
            && (read.ReleaserGet? && RefOf(read.backend) !in s.server.store ==>
                  WORKER in t.workers && t.workers[WORKER] == Releasing(read.backend))
            && (read.ProtectorRead? ==>
                  WORKER in t.workers && Some(t.workers[WORKER]) == ProtectorIntent(read.pvc))
  {
  }

  lemma CompletionShows(s: State, proxy: Pvc, backend: Pvc)
    requires Inv(s) && WORKER in s.workers && s.workers[WORKER] == Completing(proxy, backend) && !Refused(s)
    ensures var t := WriteOn(s);
            t.workers == s.workers - {WORKER}
            && (proxy.name in t.server.store ==> HasAnnotation(t.server.store[proxy.name], BindCompleted))
  {
    LastWrite(s);
    hide Send, Inv;
    assert BindCompleted in Proposal(s.workers[WORKER]).annotations;
  }

  lemma BindDone(s: State, proxy: Pvc, backend: Pvc, cache: map<string, Pvc>)
    requires Sound(s, cache) && FromCache(s, cache) && WORKER in s.workers && !Fails(s)
    requires s.workers[WORKER] in {Completing(proxy, backend), Claiming(proxy, backend)}
    ensures proxy.name in Finish(s).server.store ==> HasAnnotation(Finish(s).server.store[proxy.name], BindCompleted)
  {
    hide Apply, Inv, Seen, RoleInv;
    if s.workers[WORKER] == Completing(proxy, backend) {
      CompletionShows(s, proxy, backend);
      assert WriteOn(s).workers == map[];
    } else {
      ClaimGoesOn(s, proxy, backend);
      WriteOnIsSound(s, cache);
      CompletionShows(WriteOn(s), proxy, backend);
    }
  }

  lemma ClaimGoesOn(s: State, proxy: Pvc, backend: Pvc)
    requires WORKER in s.workers && s.workers[WORKER] == Claiming(proxy, backend) && !Refused(s)
    ensures WORKER in WriteOn(s).workers && WriteOn(s).workers[WORKER] == Completing(proxy, backend)
  {
  }

  lemma OneWriteDone(s: State, read: Action)
    requires Inv(s) && s.workers == map[] && Enabled(s, read) && (read.ReleaserGet? || read.ProtectorRead?)
    requires read.worker == WORKER && !Fails(Apply(s, read)) && WORKER in Apply(s, read).workers
    ensures var task, t := Apply(s, read).workers[WORKER], Finish(Apply(s, read));
            Snapshot(task).name in t.server.store ==>
              var live := t.server.store[Snapshot(task).name];
              live.annotations == Proposal(task).annotations && live.finalizers == Proposal(task).finalizers
  {
    var t := Apply(s, read);
    InvStep(s, read);
    ReadGivesTask(s, read);
    hide Enabled, Inv, Proposal;
    LastWrite(t);
    EndsAfterOne(t);
  }

  lemma EndsAfterOne(s: State)
    requires s.workers.Keys <= {WORKER} && WORKER in s.workers && !Refused(s) && Next(s.workers[WORKER]).None?
    ensures WORKER !in WriteOn(s).workers && Finish(s) == Apply(s, Write(WORKER))
  {
  }
}
