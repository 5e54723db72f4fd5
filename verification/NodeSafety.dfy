/** What holds of the node in every run: disk and memory agree, the reverse index is exact, and whatever the
    backend has published can still be addressed. */
module NodeSafety {
  import opened NodeLifecycle
  import opened StateFiles

  /** The file of `k` would load to what the map holds, unless a write of it failed half way. */
  predicate Agree<K, R(==)>(files: map<K, Content<R>>, values: map<K, R>, k: K) {
    && (k in values ==> k in files && (files[k] == Torn || files[k] == Valid(values[k])))
    && (k in files && files[k].Valid? ==> k in values && values[k] == files[k].record)
  }

  predicate FileSays<K, R(==)>(files: map<K, Content<R>>, k: K, truth: map<K, R>) {
    k in files && files[k].Valid? ==> k in truth && files[k].record == truth[k]
  }

  predicate MapSays<K, R(==)>(values: map<K, R>, k: K, truth: map<K, R>) {
    k in values ==> k in truth && values[k] == truth[k]
  }

  // The records of one volume.

  predicate BindUnderWay(s: State, v: Vol) {
    || (SyncOf(v) in s.busy && s.busy[SyncOf(v)].Sync?
        && (s.busy[SyncOf(v)].syncStep == WriteBind || s.busy[SyncOf(v)].syncStep == RememberBind))
    || (CallOn(v) in s.busy && s.busy[CallOn(v)].Unstage? && s.busy[CallOn(v)].unstageStep == ForgetBind)
  }

  predicate BindInv(c: Config, s: State, v: Vol) {
    && FileSays(s.disk.binds, v, c.backend)
    && (Running(s) ==> MapSays(s.memory.value.binds, v, c.backend))
    && (Running(s) && !BindUnderWay(s, v) ==> Agree(s.disk.binds, s.memory.value.binds, v))
  }

  predicate StagingUnderWay(s: State, v: Vol) {
    CallOn(v) in s.busy && (
      var call := s.busy[CallOn(v)];
      || (call.Stage? && call.stageStep != CreateStaging)
      || (call.Unstage? && call.unstageStep == ForgetStaging))
  }

  predicate StagingInv(s: State, v: Vol) {
    Running(s) && !StagingUnderWay(s, v) ==> Agree(s.disk.staging, s.memory.value.staging, v)
  }

  predicate TargetUnderWay(s: State, k: Target) {
    CallOn(k.0) in s.busy && (
      var call := s.busy[CallOn(k.0)];
      || (call.Publish? && call.pod == k.1 && (call.publishStep == WriteTarget || call.publishStep == RememberTarget))
      || (call.Unpublish? && call.pod == k.1 && call.unpublishStep == ForgetTarget))
  }

  predicate IsPublished(c: Config, s: State, k: Target) {
    k in c.target && k.0 in c.backend && (c.backend[k.0], c.target[k]) in s.published
  }

  /** A published volume has records, on disk and in memory, of the backend and of the path. */
  predicate Covered(s: State, k: Target) {
    && k in s.outstanding && k.0 in s.disk.binds && k in s.disk.targets
    && (Running(s) ==> k.0 in s.memory.value.binds && k in s.memory.value.targets)
  }

  predicate TargetInv(c: Config, s: State, k: Target) {
    && FileSays(s.disk.targets, k, c.target)
    && (Running(s) ==> MapSays(s.memory.value.targets, k, c.target))
    && (Running(s) && !TargetUnderWay(s, k) ==> Agree(s.disk.targets, s.memory.value.targets, k))
    && (k in s.outstanding ==> k in c.target)
    && (k in s.disk.targets && s.disk.targets[k].Valid? ==> k in s.outstanding)
    && (Running(s) && k in s.memory.value.targets ==> k in s.outstanding)
    && (IsPublished(c, s, k) ==> Covered(s, k))
  }

  // An operation under way.

  predicate FileIs<K, R(==)>(files: map<K, Content<R>>, k: K, content: Content<R>) {
    k in files && files[k] == content
  }

  predicate OpInv(c: Config, s: State, lane: Lane, op: Op) {
    var v := lane.vol;
    && Running(s) && SensibleOp(c, lane, op) && match op
    case Publish(u, step) =>
      && (v, u) in s.outstanding
      && (step == WriteTarget ==> FileIs(s.disk.targets, (v, u), Torn))
      && (step == RememberTarget ==> FileIs(s.disk.targets, (v, u), Valid(c.target[(v, u)])))
    case Sync(u, _, step) =>
      && v in c.backend && (v, u) in s.memory.value.targets && SyncMayRun(s, v, u)
      && (step == WriteBind ==> FileIs(s.disk.binds, v, Torn))
      && (step == RememberBind ==> FileIs(s.disk.binds, v, Valid(c.backend[v])))
      && (step !in {Verify, CreateBind, WriteBind, RememberBind} ==> v in s.memory.value.binds)
      && (step.StageVolume? ==> v in s.memory.value.staging)
      && (step == ChangeOwner || step == Annotate ==> IsPublished(c, s, (v, u)))
    case Unpublish(u, step) =>
      && (step == CallUnpublish ==> v in s.memory.value.binds)
      && (step != CallUnpublish ==> !IsPublished(c, s, (v, u)))
      && (step == RemoveTarget || step == ForgetTarget ==> c.target[(v, u)] !in s.dirs)
      && (step == ForgetTarget ==> (v, u) in s.memory.value.targets)
      && (step == ForgetTarget ==> (v, u) !in s.disk.targets)
    case Stage(path, step) =>
      && (step == WriteStaging ==> FileIs(s.disk.staging, v, Torn))
      && (step == RememberStaging ==> FileIs(s.disk.staging, v, Valid(path)))
    case Unstage(_, step) =>
      && !Outstanding(s, v)
      && (step == CallUnstage ==> v in c.stages)
      && (v in s.memory.value.binds <==> step in {CallUnstage, RemoveBind, ForgetBind})
      && (step == ForgetBind ==> v !in s.disk.binds)
      && (step == ForgetStaging ==> v !in s.disk.staging)
  }

  predicate LaneInv(c: Config, s: State, lane: Lane) {
    lane in s.busy ==> OpInv(c, s, lane, s.busy[lane])
  }

  ghost predicate VolInv(c: Config, s: State, v: Vol) {
    && BindInv(c, s, v) && StagingInv(s, v) && (forall u :: TargetInv(c, s, (v, u)))
    && LaneInv(c, s, CallOn(v)) && LaneInv(c, s, SyncOf(v))
  }

  // The whole node.

  /** The index is the inverse of the binds. */
  predicate IndexExact(m: Memory) {
    && (forall k <- m.targets :: m.targets[k] in m.index && m.index[m.targets[k]] == k)
    && (forall p <- m.index :: m.index[p] in m.targets && m.targets[m.index[p]] == p)
  }

  ghost predicate Inv(c: Config, s: State) {
    && (forall v :: VolInv(c, s, v))
    && (Running(s) ==> IndexExact(s.memory.value))
    && (forall m <- s.published :: exists k <- c.target :: IsPublished(c, s, k) && m == (c.backend[k.0], c.target[k]))
  }

  // A step leaves the other volumes alone.

  predicate SameAt<K, R(==)>(m: map<K, R>, n: map<K, R>, k: K) {
    (k in m <==> k in n) && (k in m ==> m[k] == n[k])
  }

  predicate SameTarget(c: Config, s: State, t: State, k: Target) {
    && SameAt(s.disk.targets, t.disk.targets, k)
    && (Running(s) && Running(t) ==> SameAt(s.memory.value.targets, t.memory.value.targets, k))
    && (k in s.outstanding <==> k in t.outstanding)
    && (IsPublished(c, s, k) <==> IsPublished(c, t, k))
    && (k in c.target ==> (c.target[k] in s.dirs <==> c.target[k] in t.dirs))
  }

  ghost predicate SameFor(c: Config, s: State, t: State, w: Vol) {
    && Running(s) && Running(t) && SameAt(s.busy, t.busy, CallOn(w)) && SameAt(s.busy, t.busy, SyncOf(w))
    && SameAt(s.disk.binds, t.disk.binds, w) && SameAt(s.memory.value.binds, t.memory.value.binds, w)
    && SameAt(s.disk.staging, t.disk.staging, w) && SameAt(s.memory.value.staging, t.memory.value.staging, w)
    && (forall u :: SameTarget(c, s, t, (w, u)))
  }

  lemma SameForJoins(c: Config, s: State, t: State, n: State, v: Vol)
    requires SameFor(c, s, t, v) && SameFor(c, t, n, v)
    ensures SameFor(c, s, n, v)
  {
    forall u ensures SameTarget(c, s, n, (v, u)) {
      assert SameTarget(c, s, t, (v, u)) && SameTarget(c, t, n, (v, u));
    }
  }

  lemma OutstandingFrame(c: Config, s: State, t: State, w: Vol)
    requires SameFor(c, s, t, w)
    ensures Outstanding(s, w) <==> Outstanding(t, w)
  {
    if k :| k in s.outstanding && k.0 == w { assert SameTarget(c, s, t, (w, k.1)); assert k in t.outstanding; }
    if k :| k in t.outstanding && k.0 == w { assert SameTarget(c, s, t, (w, k.1)); assert k in s.outstanding; }
  }

  lemma TargetFrame(c: Config, s: State, t: State, k: Target)
    requires SameFor(c, s, t, k.0) && TargetInv(c, s, k)
    ensures TargetInv(c, t, k)
  {
    assert SameTarget(c, s, t, (k.0, k.1));
  }

  lemma OpFrame(c: Config, s: State, t: State, lane: Lane, op: Op)
    requires SameFor(c, s, t, lane.vol) && OpInv(c, s, lane, op)
    ensures OpInv(c, t, lane, op)
  {
    OutstandingFrame(c, s, t, lane.vol);
    match op
    case Publish(u, _) => assert SameTarget(c, s, t, (lane.vol, u));
    case Sync(u, _, _) => assert SameTarget(c, s, t, (lane.vol, u));
    case Unpublish(u, _) => assert SameTarget(c, s, t, (lane.vol, u));
    case _ =>
  }

  lemma VolFrame(c: Config, s: State, t: State, w: Vol)
    requires SameFor(c, s, t, w) && VolInv(c, s, w)
    ensures VolInv(c, t, w)
  {
    forall u ensures TargetInv(c, t, (w, u)) { TargetFrame(c, s, t, (w, u)); }
    if CallOn(w) in t.busy { OpFrame(c, s, t, CallOn(w), t.busy[CallOn(w)]); }
    if SyncOf(w) in t.busy { OpFrame(c, s, t, SyncOf(w), t.busy[SyncOf(w)]); }
  }
}
