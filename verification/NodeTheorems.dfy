/** What every run of the node guarantees, whatever fails and wherever the process crashes. */
module NodeTheorems {
  import opened Kubernetes
  import opened NodeLifecycle
  import opened StateFiles
  import opened NodeSafety
  import opened NodeSteps
  import opened NodeRuns
  import opened TornFiles

  // Write-ahead safety.

  /** Unpublishing `k` would go to backend `b` with path `p`, and then remove the records of `k`. */
  predicate Addresses(m: Memory, k: Target, b: Backend, p: Path) {
    && k.0 in m.binds && m.binds[k.0] == b
    && k in m.targets && m.targets[k] == p
    && p in m.index && m.index[p] == k
  }

  /** Whenever the node server runs, everything the backend has published is addressed by exactly one volume
      and pod, which the orchestrator has not yet unpublished. */
  lemma WriteAhead(c: Config, acts: seq<Action>, b: Backend, p: Path)
    requires ValidConfig(c) && Legal(c, acts) && Running(After(c, acts)) && (b, p) in After(c, acts).published
    ensures var s := After(c, acts);
            && (exists k <- s.outstanding :: Addresses(s.memory.value, k, b, p))
            && (forall j, k | Addresses(s.memory.value, j, b, p) && Addresses(s.memory.value, k, b, p) :: j == k)
  {
    InvRun(c, acts);
    var s := After(c, acts);
    hide Legal, After;
    var k :| k in c.target && IsPublished(c, s, k) && (b, p) == (c.backend[k.0], c.target[k]);
    assert VolInv(c, s, k.0) && TargetInv(c, s, (k.0, k.1));
    IndexAt(c, s, k);
    assert Addresses(s.memory.value, k, b, p);
  }

  /** The backend call of an unpublish takes away the mount of that volume and pod and no other. */
  lemma UnpublishIsPrecise(c: Config, acts: seq<Action>, v: Vol, u: Pod, took: bool)
    requires ValidConfig(c) && Legal(c, acts) && CallOn(v) in After(c, acts).busy
    requires After(c, acts).busy[CallOn(v)] == Unpublish(u, CallUnpublish)
    ensures Running(After(c, acts)) && Sensible(c, After(c, acts))
    ensures var s := After(c, acts); var t := Step(c, s, CallOn(v), true, took);
            && v in c.backend && (v, u) in c.target
            && t.published == s.published - {(c.backend[v], c.target[(v, u)])}
            && forall k :: k != (v, u) ==> (IsPublished(c, t, k) <==> IsPublished(c, s, k))
  {
    InvRun(c, acts);
    var s := After(c, acts);
    hide Legal, After;
    OperationsAreSensible(c, s);
    assert VolInv(c, s, v);
    assert s.memory.value.binds[v] == c.backend[v];
    OtherPaths(c, (v, u));
    hide Inv, VolInv;
  }

  /** Forgetting a known target removes it from the map, from the index and, before that, from the disk; every other
      record stays. An unknown one changes nothing. */
  lemma DeleteByPathIsPrecise(c: Config, acts: seq<Action>, v: Vol, u: Pod, took: bool)
    requires ValidConfig(c) && Legal(c, acts) && CallOn(v) in After(c, acts).busy
    requires After(c, acts).busy[CallOn(v)] == Unpublish(u, RemoveTarget)
    ensures Running(After(c, acts)) && Sensible(c, After(c, acts)) && (v, u) in c.target
    ensures var s := After(c, acts);
            var t := Step(c, s, CallOn(v), true, took);
            if (v, u) in s.memory.value.targets then
              && t.disk.targets == s.disk.targets - {(v, u)}
              && Running(t) && CallOn(v) in t.busy && t.busy[CallOn(v)] == Unpublish(u, ForgetTarget)
              && var m := StepUnpublish(c, t, v, Unpublish(u, ForgetTarget), true, took).memory.value;
                 && m.targets == s.memory.value.targets - {(v, u)}
                 && m.index == s.memory.value.index - {c.target[(v, u)]}
            else
              t.disk == s.disk && t.memory == s.memory && CallOn(v) !in t.busy
  {
    InvRun(c, acts);
    var s := After(c, acts);
    hide Legal, After;
    OperationsAreSensible(c, s);
    assert VolInv(c, s, v);
    IndexAt(c, s, (v, u));
    hide Inv, VolInv;
  }

  // Disk and memory.

  /** Whatever else is under way or torn: a record that no operation is in the middle of changing, and whose file
      was not spoilt, is in memory what a reload would give, in all three maps and in the index. */
  lemma DiskAndMemoryAgree(c: Config, acts: seq<Action>, v: Vol, u: Pod)
    requires ValidConfig(c) && Legal(c, acts) && Running(After(c, acts))
    ensures var s, k := After(c, acts), (v, u);
            var m, n := s.memory.value, LoadAll(s.disk);
            && (!BindUnderWay(s, v) && !Spoilt(c, acts, BindOf(v)) ==> SameAt(n.binds, m.binds, v))
            && (!StagingUnderWay(s, v) && !Spoilt(c, acts, StagingOf(v)) ==> SameAt(n.staging, m.staging, v))
            && (!TargetUnderWay(s, k) && !Spoilt(c, acts, TargetOf(v, u)) ==>
                  SameAt(n.targets, m.targets, k) && (k in c.target ==> SameAt(n.index, m.index, c.target[k])))
  {
    hide Legal, After, Spoilt, TornAt, LoadAll, SameAt, Inv, Writes, BindUnderWay, StagingUnderWay, TargetUnderWay;
    var s := After(c, acts);
    NotTorn(c, acts, BindOf(v));
    NotTorn(c, acts, StagingOf(v));
    NotTorn(c, acts, TargetOf(v, u));
    InvRun(c, acts);
    OnlyUnderWay(s, v, u);
    IdleBind(c, s, v);
    IdleStaging(c, s, v);
    IdleTarget(c, s, (v, u));
  }

  lemma OnlyUnderWay(s: State, v: Vol, u: Pod)
    ensures Writes(s, BindOf(v)) ==> BindUnderWay(s, v)
    ensures Writes(s, StagingOf(v)) ==> StagingUnderWay(s, v)
    ensures Writes(s, TargetOf(v, u)) ==> TargetUnderWay(s, (v, u))
  {
  }

  lemma NotTorn(c: Config, acts: seq<Action>, slot: Slot)
    requires ValidConfig(c) && Legal(c, acts)
    ensures Writes(After(c, acts), slot) || Spoilt(c, acts, slot) || !TornAt(After(c, acts), slot)
  {
    if TornAt(After(c, acts), slot) { TornMeansSpoilt(c, acts, slot); }
  }

  lemma IdleBind(c: Config, s: State, v: Vol)
    requires Inv(c, s) && Running(s)
    ensures BindUnderWay(s, v) || TornAt(s, BindOf(v)) || SameAt(LoadAll(s.disk).binds, s.memory.value.binds, v)
  {
    LoadAllMaps(s.disk);
    assert VolInv(c, s, v);
  }

  lemma IdleStaging(c: Config, s: State, v: Vol)
    requires Inv(c, s) && Running(s)
    ensures StagingUnderWay(s, v) || TornAt(s, StagingOf(v)) || SameAt(LoadAll(s.disk).staging, s.memory.value.staging, v)
  {
    LoadAllMaps(s.disk);
    assert VolInv(c, s, v);
  }

  lemma IdleTarget(c: Config, s: State, k: Target)
    requires ValidConfig(c) && Inv(c, s) && Running(s)
    ensures TargetUnderWay(s, k) || TornAt(s, TargetOf(k.0, k.1))
            || SameAt(LoadAll(s.disk).targets, s.memory.value.targets, k)
    ensures TargetUnderWay(s, k) || TornAt(s, TargetOf(k.0, k.1)) || k !in c.target
            || SameAt(LoadAll(s.disk).index, s.memory.value.index, c.target[k])
  {
    LoadAllMaps(s.disk);
    LoadedIndex(c, s);
    assert VolInv(c, s, k.0) && TargetInv(c, s, (k.0, k.1));
    if k in c.target { IndexAt(c, s, k); }
  }

  lemma LoadedIndex(c: Config, s: State)
    requires ValidConfig(c) && Inv(c, s)
    ensures IndexExact(LoadAll(s.disk))
    ensures forall k <- LoadAll(s.disk).targets :: k in c.target && LoadAll(s.disk).targets[k] == c.target[k]
  {
    hide LoadAll, Inverse;
    LoadAllMaps(s.disk);
    var targets := Load(s.disk.targets);
    forall k <- targets ensures k in c.target && targets[k] == c.target[k] {
      assert VolInv(c, s, k.0) && TargetInv(c, s, (k.0, k.1));
    }
    InverseIsExact(targets, LoadAll(s.disk));
  }

  lemma SameMaps<K(!new), R>(files: map<K, Content<R>>, values: map<K, R>)
    requires Readable(files) && forall k :: Agree(files, values, k)
    ensures Load(files) == values
  {
    forall k ensures k in Load(files) <==> k in values { assert Agree(files, values, k); }
    forall k <- values ensures Load(files)[k] == values[k] { assert Agree(files, values, k); }
  }

  lemma SameIndexes(m: Memory, n: Memory)
    requires IndexExact(m) && IndexExact(n) && m.targets == n.targets
    ensures m.index == n.index
  {
  }

  lemma Reloads(c: Config, s: State)
    requires ValidConfig(c) && Inv(c, s) && Running(s) && s.busy == map[] && CanStart(s.disk)
    ensures s.memory == Some(LoadAll(s.disk))
  {
    hide ValidConfig, LoadAll, Inverse;
    var m, n := s.memory.value, LoadAll(s.disk);
    LoadAllMaps(s.disk);
    forall v ensures Agree(s.disk.binds, m.binds, v) && Agree(s.disk.staging, m.staging, v) {
      assert VolInv(c, s, v);
    }
    forall k ensures Agree(s.disk.targets, m.targets, k) {
      assert VolInv(c, s, k.0) && TargetInv(c, s, (k.0, k.1));
    }
    SameMaps(s.disk.binds, m.binds);
    SameMaps(s.disk.staging, m.staging);
    SameMaps(s.disk.targets, m.targets);
    PathsAreConfigured(c, s);
    assert forall j, k | j in m.targets && k in m.targets && m.targets[j] == m.targets[k] :: j == k;
    InverseIsExact(m.targets, n);
    SameIndexes(m, n);
  }

  /** A node at rest, none of whose files was spoilt, would be the same after a restart. */
  lemma WholeNodeReloads(c: Config, acts: seq<Action>)
    requires ValidConfig(c) && Legal(c, acts) && Running(After(c, acts)) && After(c, acts).busy == map[]
    requires forall slot :: !Spoilt(c, acts, slot)
    ensures After(c, acts).memory == Some(LoadAll(After(c, acts).disk))
  {
    InvRun(c, acts);
    forall slot ensures !TornAt(After(c, acts), slot) { NotTorn(c, acts, slot); }
    StartsWithoutTorn(After(c, acts));
    Reloads(c, After(c, acts));
  }

  /** A record that a restart would find torn, as it is in memory now, or as the next step will make it. */
  predicate Recoverable<K, R(==)>(files: map<K, Content<R>>, now: map<K, R>, next: map<K, R>, k: K) {
    FileIs(files, k, Torn) || SameAt(Load(files), now, k) || SameAt(Load(files), next, k)
  }

  /** The state after the next step of the call or the sync, if it is under way. */
  function NextFor(c: Config, s: State, lane: Lane): State
    requires ValidConfig(c) && Sensible(c, s) && Running(s)
  {
    if lane in s.busy then Step(c, s, lane, true, true) else s
  }

  /** Who may be changing the bind of the volume. */
  function BindLane(s: State, v: Vol): Lane {
    if SyncOf(v) in s.busy then SyncOf(v) else CallOn(v)
  }

  lemma BindIsRecoverable(c: Config, s: State, v: Vol)
    requires ValidConfig(c) && Inv(c, s) && Sensible(c, s) && Running(s) && Running(NextFor(c, s, BindLane(s, v)))
    ensures Recoverable(s.disk.binds, s.memory.value.binds, NextFor(c, s, BindLane(s, v)).memory.value.binds, v)
  {
    assert VolInv(c, s, v);
    hide Inv, ValidConfig, StagingInv, TargetInv, StepPublish, StepUnpublish, StepStage;
    if !BindUnderWay(s, v) { hide Step, OpInv; }
  }

  lemma StagingIsRecoverable(c: Config, s: State, v: Vol)
    requires ValidConfig(c) && Inv(c, s) && Sensible(c, s) && Running(s) && Running(NextFor(c, s, CallOn(v)))
    ensures Recoverable(s.disk.staging, s.memory.value.staging, NextFor(c, s, CallOn(v)).memory.value.staging, v)
  {
    assert VolInv(c, s, v);
    hide Inv, ValidConfig, BindInv, TargetInv, StepPublish, StepUnpublish, StepSync;
    if !StagingUnderWay(s, v) { hide Step, OpInv; }
  }

  lemma TargetIsRecoverable(c: Config, s: State, k: Target)
    requires ValidConfig(c) && Inv(c, s) && Sensible(c, s) && Running(s) && Running(NextFor(c, s, CallOn(k.0)))
    ensures Recoverable(s.disk.targets, s.memory.value.targets, NextFor(c, s, CallOn(k.0)).memory.value.targets, k)
  {
    assert VolInv(c, s, k.0) && TargetInv(c, s, (k.0, k.1));
    if CallOn(k.0) in s.busy && s.busy[CallOn(k.0)].Unpublish? { IndexAt(c, s, (k.0, s.busy[CallOn(k.0)].pod)); }
    hide Inv, ValidConfig, BindInv, StagingInv, StepSync, StepStage, StepUnstage;
    if !TargetUnderWay(s, k) { hide Step, OpInv; }
  }

  lemma NextRuns(c: Config, s: State, lane: Lane)
    requires ValidConfig(c) && Sensible(c, s) && Running(s)
    ensures Running(NextFor(c, s, lane))
  {
    if lane in s.busy { StepRuns(c, s, lane, true, true); }
  }

  /** Wherever a crash strikes, in the middle of a call and of a sync on one volume: each record either is as it
      was before the operation that changes it, or as it would have been after it, or its file is torn. */
  lemma CrashLosesNothing(c: Config, acts: seq<Action>, v: Vol, u: Pod)
    requires ValidConfig(c) && Legal(c, acts) && Running(After(c, acts))
    ensures var s := After(c, acts);
            && Sensible(c, s) && Running(NextFor(c, s, BindLane(s, v))) && Running(NextFor(c, s, CallOn(v)))
            && var now, binds := s.memory.value, NextFor(c, s, BindLane(s, v)).memory.value;
               var next := NextFor(c, s, CallOn(v)).memory.value;
               && Recoverable(s.disk.binds, now.binds, binds.binds, v)
               && Recoverable(s.disk.staging, now.staging, next.staging, v)
               && Recoverable(s.disk.targets, now.targets, next.targets, (v, u))
  {
    InvRun(c, acts);
    var s := After(c, acts);
    hide Legal, After, Inv, NextFor, Recoverable, ValidConfig, BindLane;
    OperationsAreSensible(c, s);
    NextRuns(c, s, BindLane(s, v));
    NextRuns(c, s, CallOn(v));
    BindIsRecoverable(c, s, v);
    StagingIsRecoverable(c, s, v);
    TargetIsRecoverable(c, s, (v, u));
  }

  // When the node can start again.

  /** A crash can be recovered from exactly when every file that was ever truncated has been written or removed
      since; otherwise the node never takes another step. */
  lemma StartsExactly(c: Config, acts: seq<Action>, more: seq<Action>)
    requires ValidConfig(c) && Legal(c, acts) && Running(After(c, acts))
    ensures Legal(c, acts + [Crash])
    ensures Enabled(c, After(c, acts + [Crash]), Restart) <==> forall slot :: !LeftOpen(c, acts, slot)
    ensures (exists slot :: LeftOpen(c, acts, slot)) && Legal(c, acts + [Crash] + more) ==> more == []
  {
    InvRun(c, acts);
    OperationsAreSensible(c, After(c, acts));
    var crashed := acts + [Crash];
    assert crashed[..|acts|] == acts;
    assert After(c, crashed).disk == After(c, acts).disk && !Running(After(c, crashed));
    StartsWithoutTorn(After(c, acts));
    forall slot ensures TornAt(After(c, acts), slot) <==> LeftOpen(c, acts, slot) { TornExactly(c, acts, slot); }
    hide TornAt, LeftOpen, Inv;
    if Legal(c, crashed + more) && more != [] {
      var first := (crashed + more)[..|crashed| + 1];
      PrefixLegal(c, crashed + more, |crashed| + 1);
      assert first[..|crashed|] == crashed;
    }
  }

  /** In particular it can start when no write of a file failed so far, no crash cut one off, and none is due. */
  lemma StartsUnlessSpoilt(c: Config, acts: seq<Action>)
    requires ValidConfig(c) && Legal(c, acts) && Running(After(c, acts))
    requires forall slot :: !Spoilt(c, acts, slot) && !Writes(After(c, acts), slot)
    ensures Legal(c, acts + [Crash]) && Enabled(c, After(c, acts + [Crash]), Restart)
  {
    StartsExactly(c, acts, []);
    forall slot ensures !LeftOpen(c, acts, slot) {
      TornExactly(c, acts, slot);
      if TornAt(After(c, acts), slot) { TornMeansSpoilt(c, acts, slot); }
    }
  }
}
