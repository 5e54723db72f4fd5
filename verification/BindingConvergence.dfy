/** When users stop acting and caches catch up, the three controllers settle, and the stores in which they
    have nothing left to do are exactly the ones in which every promise is kept. */
module BindingConvergence {
  import opened Kubernetes
  import opened Binding
  import opened BindingSafety

  /** One write from a fresh cache; a rejected write changes nothing. */
  function Attempt(s: Server, worker: Worker): Server {
    var r := Send(s, worker);
    if r.Ok? then r.value else s
  }

  // Whole syncs of one key, run without interruption and from a fresh cache.

  function BindSync(s: Server, n: string): Server {
    if n in s.store && WantsBinding(s.store[n]) && RequestOf(s.store[n]) in s.store then
      var proxy := s.store[n];
      var backend := s.store[RequestOf(proxy)];
      if !FreeFor(backend, proxy) then s
      else if RefOf(backend) == proxy.name then Attempt(s, Completing(proxy, backend))
      else
        var claimed := Send(s, Claiming(proxy, backend));
        if claimed.Ok? then Attempt(claimed.value, Completing(proxy, backend)) else s
    else s
  }

  function ReleaseSync(s: Server, n: string): Server {
    if n in s.store && HasAnnotation(s.store[n], ProxyRef) && RefOf(s.store[n]) !in s.store then
      Attempt(s, Releasing(s.store[n]))
    else s
  }

  function ProtectSync(s: Server, n: string): Server {
    if n in s.store && ProtectorIntent(s.store[n]).Some? then
      Attempt(s, ProtectorIntent(s.store[n]).value)
    else s
  }

  ghost predicate WellFormed(s: Server) {
    forall n <- s.store ::
      && s.store[n].name == n && n != "" && s.store[n].version <= s.revision
      && (s.store[n].deleting ==> s.store[n].finalizers != [])
  }

  // What is still to be done, most important first.

  ghost function Deletable(s: Server): set<string> {
    set n | n in s.store && s.store[n].deleting && HasFinalizer(s.store[n], BackendProtection)
  }

  ghost function Dangling(s: Server): set<string> {
    set n | n in s.store && HasAnnotation(s.store[n], ProxyRef) && RefOf(s.store[n]) !in s.store
  }

  ghost function Unclaimed(s: Server): set<string> {
    set n | n in s.store && RefOf(s.store[n]) == ""
  }

  ghost function Unbound(s: Server): set<string> {
    set n | n in s.store && !HasAnnotation(s.store[n], BindCompleted)
  }

  ghost function Unprotected(s: Server): set<string> {
    set n | n in s.store && !s.store[n].deleting && !HasFinalizer(s.store[n], BackendProtection)
  }

  /** `t` has strictly less to do than `s`, in lexicographic order. */
  ghost predicate Lower(t: Server, s: Server) {
    || t.store.Keys < s.store.Keys
    || (t.store.Keys == s.store.Keys && (
      || Deletable(t) < Deletable(s)
      || (Deletable(t) == Deletable(s) && (
        || Dangling(t) < Dangling(s)
        || (Dangling(t) == Dangling(s) && (
          || Unclaimed(t) < Unclaimed(s)
          || (Unclaimed(t) == Unclaimed(s) && (
            || Unbound(t) < Unbound(s)
            || (Unbound(t) == Unbound(s) && Unprotected(t) < Unprotected(s))))))))))
  }

  /** A write from a fresh cache replaces the live object by the proposal. */
  lemma FreshWrite(s: Server, worker: Worker)
    requires WellFormed(s)
    requires Snapshot(worker).name in s.store && s.store[Snapshot(worker).name] == Snapshot(worker)
    requires worker.AddingFinalizer? ==> !worker.pvc.deleting
    ensures Send(s, worker) == Ok(Commit(s, Snapshot(worker).name, Proposal(worker)))
    ensures WellFormed(Attempt(s, worker))
  {}

  lemma ClaimLowers(s: Server, proxy: Pvc, backend: Pvc)
    requires WellFormed(s) && backend.name in s.store && s.store[backend.name] == backend
    requires proxy.name in s.store && RefOf(backend) == ""
    ensures var t := Attempt(s, Claiming(proxy, backend)); WellFormed(t) && Lower(t, s)
  {
    FreshWrite(s, Claiming(proxy, backend));
    var t := Attempt(s, Claiming(proxy, backend));
    assert t.store == s.store[backend.name := Claimed(backend, proxy).(version := t.revision)];
    assert backend.name in Unclaimed(s) && backend.name !in Unclaimed(t);
  }

  lemma CompleteLowers(s: Server, proxy: Pvc, backend: Pvc)
    requires WellFormed(s) && proxy.name in s.store && s.store[proxy.name] == proxy
    requires !HasAnnotation(proxy, BindCompleted)
    ensures var t := Attempt(s, Completing(proxy, backend)); WellFormed(t) && Lower(t, s)
  {
    FreshWrite(s, Completing(proxy, backend));
    var t := Attempt(s, Completing(proxy, backend));
    assert t.store == s.store[proxy.name := Completed(proxy).(version := t.revision)];
    assert proxy.name in Unbound(s) && proxy.name !in Unbound(t);
    assert Deletable(t) == Deletable(s) && Dangling(t) == Dangling(s) && Unclaimed(t) == Unclaimed(s);
  }

  lemma ReleaseLowers(s: Server, n: string)
    requires WellFormed(s) && n in Dangling(s)
    ensures var t := ReleaseSync(s, n); WellFormed(t) && Lower(t, s)
  {
    FreshWrite(s, Releasing(s.store[n]));
    var t := ReleaseSync(s, n);
    assert t.store == s.store[n := Released(s.store[n]).(version := t.revision)];
    assert n !in Dangling(t);
    assert Deletable(t) == Deletable(s);
  }

  lemma UnprotectLowers(s: Server, n: string)
    requires WellFormed(s) && n in Deletable(s) && !HasAnnotation(s.store[n], ProxyRef)
    ensures var t := ProtectSync(s, n); WellFormed(t) && Lower(t, s)
  {
    FreshWrite(s, RemovingFinalizer(s.store[n]));
    var t, proposal := ProtectSync(s, n), Proposal(RemovingFinalizer(s.store[n]));
    if proposal.finalizers == [] {
      assert t.store.Keys == s.store.Keys - {n};
    } else {
      assert t.store == s.store[n := proposal.(version := t.revision)];
      assert n !in Deletable(t);
    }
  }

  lemma ProtectLowers(s: Server, n: string)
    requires WellFormed(s) && n in Unprotected(s)
    ensures var t := ProtectSync(s, n); WellFormed(t) && Lower(t, s)
  {
    FreshWrite(s, AddingFinalizer(s.store[n]));
    var t := ProtectSync(s, n);
    assert t.store == s.store[n := Proposal(AddingFinalizer(s.store[n])).(version := t.revision)];
    assert n !in Unprotected(t);
    assert Deletable(t) == Deletable(s) && Dangling(t) == Dangling(s);
    assert Unclaimed(t) == Unclaimed(s) && Unbound(t) == Unbound(s);
  }

  lemma LowerIsTransitive(a: Server, b: Server, c: Server)
    requires Lower(a, b) && Lower(b, c)
    ensures Lower(a, c)
  {}

  predicate Bindable(s: Server, n: string) {
    && n in s.store && WantsBinding(s.store[n]) && RequestOf(s.store[n]) in s.store
    && FreeFor(s.store[RequestOf(s.store[n])], s.store[n])
  }

  lemma BindLowers(s: Server, n: string)
    requires WellFormed(s) && Bindable(s, n)
    ensures WellFormed(BindSync(s, n)) && Lower(BindSync(s, n), s)
  {
    var proxy := s.store[n];
    var backend := s.store[RequestOf(proxy)];
    if RefOf(backend) == proxy.name {
      CompleteLowers(s, proxy, backend);
    } else {
      ClaimLowers(s, proxy, backend);
      FreshWrite(s, Claiming(proxy, backend));
      var claimed := Send(s, Claiming(proxy, backend)).value;
      if proxy.name != backend.name {
        assert claimed.store[n] == proxy;
        CompleteLowers(claimed, proxy, backend);
        LowerIsTransitive(BindSync(s, n), claimed, s);
      } else {
        assert claimed.store[n].version != proxy.version;
      }
    }
  }

  datatype Sync = Bind(key: string) | Release(key: string) | Protect(key: string)

  function RunSync(s: Server, sync: Sync): Server {
    match sync
    case Bind(n) => BindSync(s, n)
    case Release(n) => ReleaseSync(s, n)
    case Protect(n) => ProtectSync(s, n)
  }

  /** The keys whose sync has something to do. */
  ghost predicate Pending(s: Server, sync: Sync) {
    match sync
    case Bind(n) => Bindable(s, n)
    case Release(n) => n in Dangling(s)
    case Protect(n) => n in Unprotected(s) || (n in Deletable(s) && !HasAnnotation(s.store[n], ProxyRef))
  }

  /** Progress: a sync changes the store exactly when it is pending, and then it strictly lowers what is
      left to do. Since that order is well founded, the controllers cannot keep each other busy. */
  lemma SyncLowersOrKeeps(s: Server, sync: Sync)
    requires WellFormed(s)
    ensures WellFormed(RunSync(s, sync))
    ensures if Pending(s, sync) then Lower(RunSync(s, sync), s) else RunSync(s, sync) == s
  {
    match sync
    case Bind(n) => if Bindable(s, n) { BindLowers(s, n); }
    case Release(n) => if n in Dangling(s) { ReleaseLowers(s, n); }
    case Protect(n) =>
      if n in Unprotected(s) { ProtectLowers(s, n); }
      else if n in Deletable(s) && !HasAnnotation(s.store[n], ProxyRef) { UnprotectLowers(s, n); }
  }

  lemma LowerDiffers(s: Server)
    ensures !Lower(s, s)
  {}

  ghost predicate Quiescent(s: Server) {
    forall sync :: RunSync(s, sync) == s
  }

  /** Every reference names a live claim, every claim that is not going away is protected, every unclaimed
      one that is going away may go, and every proxy that waits does so because its backend is missing or
      taken by another. */
  ghost predicate Settled(s: Server) {
    && Dangling(s) == {}
    && Unprotected(s) == {}
    && (forall n <- Deletable(s) :: HasAnnotation(s.store[n], ProxyRef))
    && (forall n <- s.store | WantsBinding(s.store[n]) && RequestOf(s.store[n]) in s.store ::
          var holder := RefOf(s.store[RequestOf(s.store[n])]); holder != "" && holder != n)
  }

  lemma QuiescentIffSettled(s: Server)
    requires WellFormed(s)
    ensures Quiescent(s) <==> Settled(s)
  {
    forall sync ensures RunSync(s, sync) == s <==> !Pending(s, sync) {
      SyncLowersOrKeeps(s, sync);
      LowerDiffers(s);
    }
    if Quiescent(s) {
      forall n ensures n !in Dangling(s) { assert RunSync(s, Release(n)) == s; }
      forall n ensures n !in Unprotected(s) && (n in Deletable(s) ==> HasAnnotation(s.store[n], ProxyRef)) {
        assert RunSync(s, Protect(n)) == s;
      }
      forall n <- s.store ensures !Bindable(s, n) { assert RunSync(s, Bind(n)) == s; }
    }
  }

  function Iterate(s: Server, syncs: seq<Sync>): Server
    decreases |syncs|
  {
    if syncs == [] then s else Iterate(RunSync(s, syncs[0]), syncs[1..])
  }

  /** From every store some finite sequence of syncs reaches a settled one. */
  lemma {:induction false} Converges(s: Server) returns (syncs: seq<Sync>)
    requires WellFormed(s)
    ensures Settled(Iterate(s, syncs))
    decreases s.store.Keys, Deletable(s), Dangling(s), Unclaimed(s), Unbound(s), Unprotected(s)
  {
    if Settled(s) {
      syncs := [];
    } else {
      QuiescentIffSettled(s);
      var sync :| RunSync(s, sync) != s;
      SyncLowersOrKeeps(s, sync);
      var rest := Converges(RunSync(s, sync));
      syncs := [sync] + rest;
    }
  }

  lemma ConvergesAfterAnyRun(acts: seq<Action>) returns (syncs: seq<Sync>)
    requires Legal(acts)
    ensures Settled(Iterate(After(acts).server, syncs))
  {
    InvRun(acts);
    syncs := Converges(After(acts).server);
  }

  // Any sequence of syncs.

  function StateAt(s: Server, f: nat -> Sync, n: nat): Server {
    if n == 0 then s else RunSync(StateAt(s, f, n - 1), f(n - 1))
  }

  lemma {:induction false} StaysOrLowers(s: Server, f: nat -> Sync, n: nat)
    requires WellFormed(s)
    ensures WellFormed(StateAt(s, f, n)) && (StateAt(s, f, n) == s || Lower(StateAt(s, f, n), s))
  {
    hide RunSync, Lower, WellFormed, Pending;
    if n > 0 {
      StaysOrLowers(s, f, n - 1);
      var before, after := StateAt(s, f, n - 1), StateAt(s, f, n);
      SyncLowersOrKeeps(before, f(n - 1));
      if before != s && after != before { LowerIsTransitive(after, before, s); }
    }
  }

  function From(f: nat -> Sync, m: nat): nat -> Sync {
    (i: nat) => f(m + i)
  }

  lemma {:induction false} Shift(s: Server, f: nat -> Sync, m: nat, n: nat)
    ensures StateAt(StateAt(s, f, m), From(f, m), n) == StateAt(s, f, m + n)
  {
    hide RunSync;
    if n > 0 { Shift(s, f, m, n - 1); }
  }

  /** In every sequence of syncs, whatever order they come in, some sync finds nothing to do. */
  lemma {:induction false} EverySequenceStops(s: Server, f: nat -> Sync) returns (n: nat)
    requires WellFormed(s)
    ensures RunSync(StateAt(s, f, n), f(n)) == StateAt(s, f, n)
    decreases s.store.Keys, Deletable(s), Dangling(s), Unclaimed(s), Unbound(s), Unprotected(s)
  {
    hide RunSync, Pending, WellFormed, Deletable, Dangling, Unclaimed, Unbound, Unprotected;
    var t := RunSync(s, f(0));
    if t == s {
      n := 0;
    } else {
      SyncLowersOrKeeps(s, f(0));
      var m := EverySequenceStops(t, From(f, 1));
      assert StateAt(s, f, 1) == t;
      Shift(s, f, 1, m);
      n := 1 + m;
    }
  }

  /** The sync comes at `m`, or there is nothing to do for it then. */
  ghost predicate Served(s: Server, f: nat -> Sync, sync: Sync, m: nat) {
    f(m) == sync || RunSync(StateAt(s, f, m), sync) == StateAt(s, f, m)
  }

  ghost predicate ServedAfter(s: Server, f: nat -> Sync, sync: Sync, n: nat) {
    exists m: nat :: m >= n && Served(s, f, sync, m)
  }

  /** No sync that has something to do is put off for ever. */
  ghost predicate Fair(s: Server, f: nat -> Sync) {
    forall sync, n: nat :: ServedAfter(s, f, sync, n)
  }

  lemma FairFrom(s: Server, f: nat -> Sync, m: nat)
    requires Fair(s, f)
    ensures Fair(StateAt(s, f, m), From(f, m))
  {
    hide RunSync;
    forall sync, n: nat ensures ServedAfter(StateAt(s, f, m), From(f, m), sync, n) {
      assert ServedAfter(s, f, sync, m + n);
      var k: nat :| k >= m + n && Served(s, f, sync, k);
      Shift(s, f, m, k - m);
      assert Served(StateAt(s, f, m), From(f, m), sync, k - m);
    }
  }

  lemma {:induction false} QuiescentForever(s: Server, f: nat -> Sync, n: nat)
    requires Quiescent(s)
    ensures StateAt(s, f, n) == s
  {
    hide RunSync;
    if n > 0 { QuiescentForever(s, f, n - 1); }
  }

  lemma FairProgress(s: Server, f: nat -> Sync) returns (n: nat)
    requires WellFormed(s) && Fair(s, f) && !Settled(s)
    ensures WellFormed(StateAt(s, f, n)) && Lower(StateAt(s, f, n), s)
  {
    hide Settled, Lower, WellFormed, RunSync;
    QuiescentIffSettled(s);
    var sync :| RunSync(s, sync) != s;
    assert ServedAfter(s, f, sync, 0);
    var m: nat :| Served(s, f, sync, m);
    StaysOrLowers(s, f, m);
    if StateAt(s, f, m) == s {
      n := m + 1;
      SyncLowersOrKeeps(s, sync);
    } else {
      n := m;
    }
  }

  /** Every fair sequence of syncs settles the store, and it stays as it is from then on. */
  lemma {:induction false} FairSequencesSettle(s: Server, f: nat -> Sync) returns (n: nat)
    requires WellFormed(s) && Fair(s, f)
    ensures Settled(StateAt(s, f, n)) && forall k: nat | k >= n :: StateAt(s, f, k) == StateAt(s, f, n)
    decreases s.store.Keys, Deletable(s), Dangling(s), Unclaimed(s), Unbound(s), Unprotected(s)
  {
    hide Settled, RunSync, WellFormed, Deletable, Dangling, Unclaimed, Unbound, Unprotected;
    if Settled(s) {
      n := 0;
      QuiescentIffSettled(s);
      forall k: nat | k >= n ensures StateAt(s, f, k) == s { QuiescentForever(s, f, k); }
    } else {
      var m := FairProgress(s, f);
      FairFrom(s, f, m);
      var rest := FairSequencesSettle(StateAt(s, f, m), From(f, m));
      n := m + rest;
      Shift(s, f, m, rest);
      forall k: nat | k >= n ensures StateAt(s, f, k) == StateAt(s, f, n) { Shift(s, f, m, k - m); }
    }
  }

  lemma FairSyncsSettleAfterAnyRun(acts: seq<Action>, f: nat -> Sync) returns (n: nat)
    requires Legal(acts) && Fair(After(acts).server, f)
    ensures var s := After(acts).server;
            Settled(StateAt(s, f, n)) && forall k: nat | k >= n :: StateAt(s, f, k) == StateAt(s, f, n)
  {
    InvRun(acts);
    n := FairSequencesSettle(After(acts).server, f);
  }

  // The whole syncs are runs of the step system, in which one worker reads what is live and is not disturbed.

  function Drain(s: State, w: nat): State {
    var t := if w in s.workers then Apply(s, Write(w)) else s;
    if w in t.workers then Apply(t, Write(w)) else t
  }

  lemma BindSyncIsRun(s: State, w: nat, n: string)
    requires Inv(s) && w !in s.workers && Bindable(s.server, n)
    ensures var read := BinderRead(w, s.server.store[n], s.server.store[RequestOf(s.server.store[n])]);
            Enabled(s, read) && Drain(Apply(s, read), w).server == BindSync(s.server, n)
  {}

  lemma ReleaseSyncIsRun(s: State, w: nat, n: string)
    requires Inv(s) && w !in s.workers && n in Dangling(s.server)
    ensures var read := ReleaserGet(w, s.server.store[n]);
            Enabled(s, read) && Drain(Apply(s, read), w).server == ReleaseSync(s.server, n)
  {}

  lemma ProtectSyncIsRun(s: State, w: nat, n: string)
    requires Inv(s) && w !in s.workers && n in s.server.store && ProtectorIntent(s.server.store[n]).Some?
    ensures var read := ProtectorRead(w, s.server.store[n]);
            Enabled(s, read) && Drain(Apply(s, read), w).server == ProtectSync(s.server, n)
  {}
}
