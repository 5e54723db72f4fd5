/** Every step of every operation keeps the node's invariant. */
module NodeSteps {
  import opened Kubernetes
  import opened NodeLifecycle
  import opened StateFiles
  import opened NodeSafety

  ghost predicate Underway(c: Config, s: State, lane: Lane) {
    ValidConfig(c) && Inv(c, s) && VolInv(c, s, lane.vol) && lane in s.busy
  }

  ghost predicate Others(c: Config, s: State, t: State, v: Vol) {
    forall w | w != v :: SameFor(c, s, t, w)
  }

  ghost predicate PublishedKnown(c: Config, s: State) {
    forall m <- s.published :: exists k <- c.target :: IsPublished(c, s, k) && m == (c.backend[k.0], c.target[k])
  }

  lemma Whole(c: Config, s: State, t: State, v: Vol)
    requires Inv(c, s) && Others(c, s, t, v) && PublishedKnown(c, t)
    requires VolInv(c, t, v)
    requires Running(t) ==> IndexExact(t.memory.value)
    ensures Inv(c, t)
  {
    hide VolInv, SameFor, IndexExact;
    forall w ensures VolInv(c, t, w) { if w != v { VolFrame(c, s, t, w); } }
  }

  /** Paths tell the published volumes apart. */
  lemma OtherPaths(c: Config, k: Target)
    requires ValidConfig(c) && k in c.target
    ensures forall j | j in c.target && j != k :: c.target[j] != c.target[k]
  {
  }

  // NodePublishVolume.

  lemma PublishOther(c: Config, s: State, v: Vol, ok: bool, took: bool, w: Vol)
    requires Underway(c, s, CallOn(v)) && s.busy[CallOn(v)].Publish? && w != v
    ensures SameFor(c, s, StepPublish(c, s, v, s.busy[CallOn(v)], ok, took), w)
  {
    hide Inv, ValidConfig, BindInv, StagingInv, TargetInv;
    OtherPaths(c, (v, s.busy[CallOn(v)].pod));
  }

  lemma PublishTarget(c: Config, s: State, v: Vol, ok: bool, took: bool, u: Pod)
    requires Underway(c, s, CallOn(v)) && s.busy[CallOn(v)].Publish?
    ensures TargetInv(c, StepPublish(c, s, v, s.busy[CallOn(v)], ok, took), (v, u))
  {
    hide Inv, ValidConfig, BindInv, StagingInv;
    assert TargetInv(c, s, (v, u));
  }

  lemma PublishRecords(c: Config, s: State, v: Vol, ok: bool, took: bool)
    requires Underway(c, s, CallOn(v)) && s.busy[CallOn(v)].Publish?
    ensures var t := StepPublish(c, s, v, s.busy[CallOn(v)], ok, took);
            BindInv(c, t, v) && StagingInv(t, v)
  {
    hide Inv, ValidConfig, TargetInv;
  }

  lemma PublishGoesOn(c: Config, s: State, v: Vol, ok: bool, took: bool)
    requires Underway(c, s, CallOn(v)) && s.busy[CallOn(v)].Publish?
    ensures LaneInv(c, StepPublish(c, s, v, s.busy[CallOn(v)], ok, took), CallOn(v))
  {
    hide Inv, ValidConfig, TargetInv, BindInv, StagingInv;
  }

  /** The sync that runs beside it. */
  lemma PublishBeside(c: Config, s: State, v: Vol, ok: bool, took: bool)
    requires Underway(c, s, CallOn(v)) && s.busy[CallOn(v)].Publish?
    ensures LaneInv(c, StepPublish(c, s, v, s.busy[CallOn(v)], ok, took), SyncOf(v))
  {
    hide Inv, ValidConfig, TargetInv, BindInv, StagingInv;
  }

  lemma PublishVol(c: Config, s: State, v: Vol, ok: bool, took: bool)
    requires Underway(c, s, CallOn(v)) && s.busy[CallOn(v)].Publish?
    ensures VolInv(c, StepPublish(c, s, v, s.busy[CallOn(v)], ok, took), v)
  {
    PublishRecords(c, s, v, ok, took);
    PublishGoesOn(c, s, v, ok, took);
    PublishBeside(c, s, v, ok, took);
    hide Inv, ValidConfig, TargetInv, BindInv, StagingInv, LaneInv;
    assert Running(s) by { assert OpInv(c, s, CallOn(v), s.busy[CallOn(v)]); }
    hide OpInv, StepPublish;
    forall u ensures TargetInv(c, StepPublish(c, s, v, s.busy[CallOn(v)], ok, took), (v, u)) {
      PublishTarget(c, s, v, ok, took, u);
    }
  }

  lemma IndexAt(c: Config, s: State, k: Target)
    requires ValidConfig(c) && Inv(c, s) && Running(s) && k in c.target
    ensures c.target[k] in s.memory.value.index <==> k in s.memory.value.targets
    ensures k in s.memory.value.targets ==>
              s.memory.value.targets[k] == c.target[k] && s.memory.value.index[c.target[k]] == k
  {
    var m, p := s.memory.value, c.target[k];
    assert VolInv(c, s, k.0) && TargetInv(c, s, (k.0, k.1));
    if p in m.index {
      var j := m.index[p];
      assert VolInv(c, s, j.0) && TargetInv(c, s, (j.0, j.1));
    }
  }

  // syncVolume.

  lemma SyncOther(c: Config, s: State, v: Vol, ok: bool, took: bool, w: Vol)
    requires Underway(c, s, SyncOf(v)) && s.busy[SyncOf(v)].Sync? && w != v
    ensures SameFor(c, s, StepSync(c, s, v, s.busy[SyncOf(v)], ok, took), w)
  {
    AboutToPublish(c, s, v);
    OtherPaths(c, (v, s.busy[SyncOf(v)].pod));
    hide Inv, ValidConfig, VolInv, Underway, StepSync, IsPublished;
    var op := s.busy[SyncOf(v)];
    SyncEffect(c, s, v, op, ok, took);
    SyncLanes(c, s, v, op, ok, took);
    SyncMakesNoDir(c, s, v, op, ok, took);
    SyncOtherBind(c, s, v, op, ok, took, w);
    forall u ensures IsPublished(c, s, (w, u)) <==> IsPublished(c, StepSync(c, s, v, op, ok, took), (w, u)) {
      SyncPublishesOwn(c, s, v, op, ok, took, (w, u));
    }
  }

  lemma SyncOtherBind(c: Config, s: State, v: Vol, op: Op, ok: bool, took: bool, w: Vol)
    requires Running(s) && op.Sync? && v in c.backend && w != v
    ensures var t := StepSync(c, s, v, op, ok, took);
            Running(t) && SameAt(s.disk.binds, t.disk.binds, w) && SameAt(s.memory.value.binds, t.memory.value.binds, w)
  {
  }

  lemma SyncPublishesOwn(c: Config, s: State, v: Vol, op: Op, ok: bool, took: bool, k: Target)
    requires Running(s) && op.Sync? && v in c.backend && (k in c.target ==> c.target[k] != op.path)
    ensures IsPublished(c, s, k) <==> IsPublished(c, StepSync(c, s, v, op, ok, took), k)
  {
    hide StepSync;
    SyncGrows(c, s, v, op, ok, took);
  }

  lemma SyncMakesNoDir(c: Config, s: State, v: Vol, op: Op, ok: bool, took: bool)
    requires Running(s) && op.Sync? && v in c.backend
    ensures StepSync(c, s, v, op, ok, took).dirs == s.dirs
  {
  }

  /** The records are there before the backend is asked to publish. */
  lemma AboutToPublish(c: Config, s: State, v: Vol)
    requires Underway(c, s, SyncOf(v)) && s.busy[SyncOf(v)].Sync?
    ensures Running(s) && (v, s.busy[SyncOf(v)].pod) in c.target && v in c.backend
    ensures s.busy[SyncOf(v)].path == c.target[(v, s.busy[SyncOf(v)].pod)]
    ensures s.busy[SyncOf(v)].syncStep == PublishVolume ==> Covered(s, (v, s.busy[SyncOf(v)].pod))
  {
    assert TargetInv(c, s, (v, s.busy[SyncOf(v)].pod));
  }

  /** What a sync step changes: no record of a target or of a staging path, and no call; the binds and the published
      volumes only grow. */
  lemma SyncEffect(c: Config, s: State, v: Vol, op: Op, ok: bool, took: bool)
    requires Running(s) && op.Sync? && v in c.backend
    ensures var t := StepSync(c, s, v, op, ok, took);
            && Running(t) && t.disk.targets == s.disk.targets && t.outstanding == s.outstanding
            && t.memory.value.targets == s.memory.value.targets && t.disk.staging == s.disk.staging
            && t.memory.value.staging == s.memory.value.staging && SameAt(s.busy, t.busy, CallOn(v))
  {
  }

  lemma SyncLanes(c: Config, s: State, v: Vol, op: Op, ok: bool, took: bool)
    requires Running(s) && op.Sync? && v in c.backend
    ensures forall lane | lane != SyncOf(v) :: SameAt(s.busy, StepSync(c, s, v, op, ok, took).busy, lane)
  {
  }

  lemma SyncGrows(c: Config, s: State, v: Vol, op: Op, ok: bool, took: bool)
    requires Running(s) && op.Sync? && v in c.backend
    ensures var t := StepSync(c, s, v, op, ok, took);
            && Running(t) && (v in s.disk.binds ==> v in t.disk.binds)
            && (v in s.memory.value.binds ==>
                  v in t.memory.value.binds && t.memory.value.binds[v] in {s.memory.value.binds[v], c.backend[v]})
            && (t.published == s.published
                || (op.syncStep == PublishVolume && t.published == s.published + {(c.backend[v], op.path)}))
  {
  }

  lemma SyncTarget(c: Config, s: State, v: Vol, ok: bool, took: bool, u: Pod)
    requires Underway(c, s, SyncOf(v)) && s.busy[SyncOf(v)].Sync?
    ensures TargetInv(c, StepSync(c, s, v, s.busy[SyncOf(v)], ok, took), (v, u))
  {
    AboutToPublish(c, s, v);
    OtherPaths(c, (v, s.busy[SyncOf(v)].pod));
    assert TargetInv(c, s, (v, u));
    hide Inv, ValidConfig, StagingInv, BindInv, OpInv, VolInv, FileSays, MapSays, Agree, StepSync, Underway;
    SyncEffect(c, s, v, s.busy[SyncOf(v)], ok, took);
    SyncGrows(c, s, v, s.busy[SyncOf(v)], ok, took);
  }

  lemma SyncRecords(c: Config, s: State, v: Vol, ok: bool, took: bool)
    requires Underway(c, s, SyncOf(v)) && s.busy[SyncOf(v)].Sync?
    ensures var t := StepSync(c, s, v, s.busy[SyncOf(v)], ok, took);
            BindInv(c, t, v) && StagingInv(t, v)
  {
    hide Inv, ValidConfig, TargetInv;
  }

  lemma SyncGoesOn(c: Config, s: State, v: Vol, ok: bool, took: bool)
    requires Underway(c, s, SyncOf(v)) && s.busy[SyncOf(v)].Sync?
    ensures LaneInv(c, StepSync(c, s, v, s.busy[SyncOf(v)], ok, took), SyncOf(v))
  {
    hide Inv, ValidConfig, TargetInv, BindInv, StagingInv;
  }

  /** The call that runs beside it. */
  lemma SyncBeside(c: Config, s: State, v: Vol, ok: bool, took: bool)
    requires Underway(c, s, SyncOf(v)) && s.busy[SyncOf(v)].Sync?
    ensures LaneInv(c, StepSync(c, s, v, s.busy[SyncOf(v)], ok, took), CallOn(v))
  {
    AboutToPublish(c, s, v);
    OtherPaths(c, (v, s.busy[SyncOf(v)].pod));
    assert LaneInv(c, s, CallOn(v)) && OpInv(c, s, SyncOf(v), s.busy[SyncOf(v)]);
    hide Inv, ValidConfig, TargetInv, BindInv, StagingInv, VolInv, StepSync, Underway, Outstanding;
    SyncMakesNoDir(c, s, v, s.busy[SyncOf(v)], ok, took);
    SyncEffect(c, s, v, s.busy[SyncOf(v)], ok, took);
    SyncGrows(c, s, v, s.busy[SyncOf(v)], ok, took);
    SameOutstanding(s, StepSync(c, s, v, s.busy[SyncOf(v)], ok, took), v);
  }

  lemma SameOutstanding(s: State, t: State, v: Vol)
    requires t.outstanding == s.outstanding
    ensures Outstanding(t, v) <==> Outstanding(s, v)
  {
  }

  lemma SyncVol(c: Config, s: State, v: Vol, ok: bool, took: bool)
    requires Underway(c, s, SyncOf(v)) && s.busy[SyncOf(v)].Sync?
    ensures VolInv(c, StepSync(c, s, v, s.busy[SyncOf(v)], ok, took), v)
  {
    SyncRecords(c, s, v, ok, took);
    SyncGoesOn(c, s, v, ok, took);
    SyncBeside(c, s, v, ok, took);
    hide Inv, ValidConfig, TargetInv, BindInv, StagingInv, LaneInv;
    assert Running(s) by { assert OpInv(c, s, SyncOf(v), s.busy[SyncOf(v)]); }
    hide OpInv, StepSync;
    forall u ensures TargetInv(c, StepSync(c, s, v, s.busy[SyncOf(v)], ok, took), (v, u)) {
      SyncTarget(c, s, v, ok, took, u);
    }
  }

  // NodeUnpublishVolume.

  lemma UnpublishOtherTarget(c: Config, s: State, v: Vol, ok: bool, took: bool, k: Target)
    requires Underway(c, s, CallOn(v)) && s.busy[CallOn(v)].Unpublish? && k != (v, s.busy[CallOn(v)].pod)
    ensures SameTarget(c, s, StepUnpublish(c, s, v, s.busy[CallOn(v)], ok, took), k)
  {
    hide Inv, ValidConfig, BindInv, StagingInv, TargetInv;
    OtherPaths(c, (v, s.busy[CallOn(v)].pod));
    IndexAt(c, s, (v, s.busy[CallOn(v)].pod));
  }

  lemma UnpublishOther(c: Config, s: State, v: Vol, ok: bool, took: bool, w: Vol)
    requires Underway(c, s, CallOn(v)) && s.busy[CallOn(v)].Unpublish? && w != v
    ensures SameFor(c, s, StepUnpublish(c, s, v, s.busy[CallOn(v)], ok, took), w)
  {
    hide Inv, ValidConfig, BindInv, StagingInv, TargetInv, SameTarget;
    forall u ensures SameTarget(c, s, StepUnpublish(c, s, v, s.busy[CallOn(v)], ok, took), (w, u)) {
      UnpublishOtherTarget(c, s, v, ok, took, (w, u));
    }
  }

  lemma UnpublishOwnTarget(c: Config, s: State, v: Vol, ok: bool, took: bool)
    requires Underway(c, s, CallOn(v)) && s.busy[CallOn(v)].Unpublish?
    ensures TargetInv(c, StepUnpublish(c, s, v, s.busy[CallOn(v)], ok, took), (v, s.busy[CallOn(v)].pod))
  {
    var u := s.busy[CallOn(v)].pod;
    IndexAt(c, s, (v, u));
    assert TargetInv(c, s, (v, u)) && LaneInv(c, s, CallOn(v));
    hide Inv, ValidConfig, StagingInv, VolInv, Underway;
  }

  lemma UnpublishTarget(c: Config, s: State, v: Vol, ok: bool, took: bool, u: Pod)
    requires Underway(c, s, CallOn(v)) && s.busy[CallOn(v)].Unpublish?
    ensures TargetInv(c, StepUnpublish(c, s, v, s.busy[CallOn(v)], ok, took), (v, u))
  {
    if u == s.busy[CallOn(v)].pod {
      UnpublishOwnTarget(c, s, v, ok, took);
    } else {
      IndexAt(c, s, (v, s.busy[CallOn(v)].pod));
      UnpublishOtherTarget(c, s, v, ok, took, (v, u));
      assert TargetInv(c, s, (v, u)) && LaneInv(c, s, CallOn(v));
      hide Inv, ValidConfig, StagingInv, BindInv, VolInv, Underway, StepUnpublish, OpInv, FileSays, MapSays, LaneInv,
           IsPublished;
      UnpublishEffect(c, s, v, s.busy[CallOn(v)], ok, took);
    }
  }

  lemma UnpublishRecords(c: Config, s: State, v: Vol, ok: bool, took: bool)
    requires Underway(c, s, CallOn(v)) && s.busy[CallOn(v)].Unpublish?
    ensures var t := StepUnpublish(c, s, v, s.busy[CallOn(v)], ok, took);
            BindInv(c, t, v) && StagingInv(t, v)
  {
    hide Inv, ValidConfig, TargetInv;
  }

  lemma UnpublishGoesOn(c: Config, s: State, v: Vol, ok: bool, took: bool)
    requires Underway(c, s, CallOn(v)) && s.busy[CallOn(v)].Unpublish?
    ensures LaneInv(c, StepUnpublish(c, s, v, s.busy[CallOn(v)], ok, took), CallOn(v))
  {
    IndexAt(c, s, (v, s.busy[CallOn(v)].pod));
    hide Inv, ValidConfig, TargetInv, StagingInv;
  }

  /** The sync that runs beside it. */
  lemma UnpublishBeside(c: Config, s: State, v: Vol, ok: bool, took: bool)
    requires Underway(c, s, CallOn(v)) && s.busy[CallOn(v)].Unpublish?
    ensures LaneInv(c, StepUnpublish(c, s, v, s.busy[CallOn(v)], ok, took), SyncOf(v))
  {
    IndexAt(c, s, (v, s.busy[CallOn(v)].pod));
    OtherPaths(c, (v, s.busy[CallOn(v)].pod));
    assert LaneInv(c, s, SyncOf(v));
    hide Inv, ValidConfig, TargetInv, StagingInv, VolInv, BindInv, Underway, StepUnpublish;
    UnpublishEffect(c, s, v, s.busy[CallOn(v)], ok, took);
  }

  /** What an unpublish leaves alone: the sync, the volume's bind, and the other pods' mounts and records. */
  lemma UnpublishEffect(c: Config, s: State, v: Vol, op: Op, ok: bool, took: bool)
    requires Running(s) && op.Unpublish? && (v, op.pod) in c.target
    requires var m, p := s.memory.value, c.target[(v, op.pod)]; p in m.index ==> m.index[p] == (v, op.pod)
    ensures var t := StepUnpublish(c, s, v, op, ok, took);
            && Running(t) && SameAt(s.busy, t.busy, SyncOf(v)) && t.disk.binds == s.disk.binds
            && t.memory.value.binds == s.memory.value.binds && t.memory.value.staging == s.memory.value.staging
            && (forall k | k != (v, op.pod) :: k in t.memory.value.targets <==> k in s.memory.value.targets)
            && (forall b, p | p != c.target[(v, op.pod)] :: (b, p) in t.published <==> (b, p) in s.published)
            && (CallOn(v) in t.busy ==> t.busy[CallOn(v)].Unpublish? && t.busy[CallOn(v)].pod == op.pod)
  {
  }

  lemma UnpublishVol(c: Config, s: State, v: Vol, ok: bool, took: bool)
    requires Underway(c, s, CallOn(v)) && s.busy[CallOn(v)].Unpublish?
    ensures VolInv(c, StepUnpublish(c, s, v, s.busy[CallOn(v)], ok, took), v)
  {
    UnpublishRecords(c, s, v, ok, took);
    UnpublishGoesOn(c, s, v, ok, took);
    UnpublishBeside(c, s, v, ok, took);
    hide Inv, ValidConfig, TargetInv, BindInv, StagingInv, LaneInv;
    assert Running(s) by { assert OpInv(c, s, CallOn(v), s.busy[CallOn(v)]); }
    hide OpInv, StepUnpublish;
    forall u ensures TargetInv(c, StepUnpublish(c, s, v, s.busy[CallOn(v)], ok, took), (v, u)) {
      UnpublishTarget(c, s, v, ok, took, u);
    }
  }

  // NodeStageVolume.

  lemma StageOther(c: Config, s: State, v: Vol, ok: bool, w: Vol)
    requires Underway(c, s, CallOn(v)) && s.busy[CallOn(v)].Stage? && w != v
    ensures SameFor(c, s, StepStage(s, v, s.busy[CallOn(v)], ok), w)
  {
    hide Inv, ValidConfig, BindInv, StagingInv, TargetInv;
  }

  lemma StageTarget(c: Config, s: State, v: Vol, ok: bool, u: Pod)
    requires Underway(c, s, CallOn(v)) && s.busy[CallOn(v)].Stage?
    ensures TargetInv(c, StepStage(s, v, s.busy[CallOn(v)], ok), (v, u))
  {
    hide Inv, BindInv, StagingInv;
    assert TargetInv(c, s, (v, u));
  }

  lemma StageRecords(c: Config, s: State, v: Vol, ok: bool)
    requires Underway(c, s, CallOn(v)) && s.busy[CallOn(v)].Stage?
    ensures var t := StepStage(s, v, s.busy[CallOn(v)], ok);
            BindInv(c, t, v) && StagingInv(t, v)
  {
    hide Inv, ValidConfig, TargetInv;
  }

  lemma StageGoesOn(c: Config, s: State, v: Vol, ok: bool)
    requires Underway(c, s, CallOn(v)) && s.busy[CallOn(v)].Stage?
    ensures LaneInv(c, StepStage(s, v, s.busy[CallOn(v)], ok), CallOn(v))
  {
    hide Inv, ValidConfig, TargetInv, BindInv, StagingInv;
  }

  /** The sync that runs beside it. */
  lemma StageBeside(c: Config, s: State, v: Vol, ok: bool)
    requires Underway(c, s, CallOn(v)) && s.busy[CallOn(v)].Stage?
    ensures LaneInv(c, StepStage(s, v, s.busy[CallOn(v)], ok), SyncOf(v))
  {
    hide Inv, ValidConfig, TargetInv, BindInv, StagingInv;
  }

  lemma StageVol(c: Config, s: State, v: Vol, ok: bool)
    requires Underway(c, s, CallOn(v)) && s.busy[CallOn(v)].Stage?
    ensures VolInv(c, StepStage(s, v, s.busy[CallOn(v)], ok), v)
  {
    StageRecords(c, s, v, ok);
    StageGoesOn(c, s, v, ok);
    StageBeside(c, s, v, ok);
    hide Inv, ValidConfig, TargetInv, BindInv, StagingInv, LaneInv;
    assert Running(s) by { assert OpInv(c, s, CallOn(v), s.busy[CallOn(v)]); }
    hide OpInv, StepStage;
    forall u ensures TargetInv(c, StepStage(s, v, s.busy[CallOn(v)], ok), (v, u)) {
      StageTarget(c, s, v, ok, u);
    }
  }

  // NodeUnstageVolume.

  lemma UnstageOther(c: Config, s: State, v: Vol, ok: bool, took: bool, w: Vol)
    requires Underway(c, s, CallOn(v)) && s.busy[CallOn(v)].Unstage? && w != v
    ensures SameFor(c, s, StepUnstage(c, s, v, s.busy[CallOn(v)], ok, took), w)
  {
    hide Inv, ValidConfig, BindInv, StagingInv, TargetInv;
  }

  lemma UnstageTarget(c: Config, s: State, v: Vol, ok: bool, took: bool, u: Pod)
    requires Underway(c, s, CallOn(v)) && s.busy[CallOn(v)].Unstage?
    ensures TargetInv(c, StepUnstage(c, s, v, s.busy[CallOn(v)], ok, took), (v, u))
  {
    hide Inv, StagingInv;
    assert TargetInv(c, s, (v, u));
  }

  lemma UnstageRecords(c: Config, s: State, v: Vol, ok: bool, took: bool)
    requires Underway(c, s, CallOn(v)) && s.busy[CallOn(v)].Unstage?
    ensures var t := StepUnstage(c, s, v, s.busy[CallOn(v)], ok, took);
            BindInv(c, t, v) && StagingInv(t, v)
  {
    hide Inv, ValidConfig, TargetInv;
  }

  lemma UnstageGoesOn(c: Config, s: State, v: Vol, ok: bool, took: bool)
    requires Underway(c, s, CallOn(v)) && s.busy[CallOn(v)].Unstage?
    ensures LaneInv(c, StepUnstage(c, s, v, s.busy[CallOn(v)], ok, took), CallOn(v))
  {
    hide Inv, ValidConfig, TargetInv, BindInv, StagingInv;
  }

  /** The sync that runs beside it. */
  lemma UnstageBeside(c: Config, s: State, v: Vol, ok: bool, took: bool)
    requires Underway(c, s, CallOn(v)) && s.busy[CallOn(v)].Unstage?
    ensures LaneInv(c, StepUnstage(c, s, v, s.busy[CallOn(v)], ok, took), SyncOf(v))
  {
    hide Inv, ValidConfig, TargetInv, BindInv, StagingInv;
  }

  lemma UnstageVol(c: Config, s: State, v: Vol, ok: bool, took: bool)
    requires Underway(c, s, CallOn(v)) && s.busy[CallOn(v)].Unstage?
    ensures VolInv(c, StepUnstage(c, s, v, s.busy[CallOn(v)], ok, took), v)
  {
    UnstageRecords(c, s, v, ok, took);
    UnstageGoesOn(c, s, v, ok, took);
    UnstageBeside(c, s, v, ok, took);
    hide Inv, ValidConfig, TargetInv, BindInv, StagingInv, LaneInv;
    assert Running(s) by { assert OpInv(c, s, CallOn(v), s.busy[CallOn(v)]); }
    hide OpInv, StepUnstage;
    forall u ensures TargetInv(c, StepUnstage(c, s, v, s.busy[CallOn(v)], ok, took), (v, u)) {
      UnstageTarget(c, s, v, ok, took, u);
    }
  }

  // The node as a whole.

  lemma PathsAreConfigured(c: Config, s: State)
    requires Inv(c, s) && Running(s)
    ensures forall k <- s.memory.value.targets :: k in c.target && s.memory.value.targets[k] == c.target[k]
  {
    forall k <- s.memory.value.targets ensures k in c.target && s.memory.value.targets[k] == c.target[k] {
      assert VolInv(c, s, k.0) && TargetInv(c, s, (k.0, k.1));
    }
  }

  lemma RememberKeepsIndex(c: Config, m: Memory, k: Target)
    requires ValidConfig(c) && IndexExact(m) && k in c.target
    requires forall j <- m.targets :: j in c.target && m.targets[j] == c.target[j]
    ensures IndexExact(m.(targets := m.targets[k := c.target[k]], index := m.index[c.target[k] := k]))
  {
  }

  lemma ForgetKeepsIndex(m: Memory, path: Path)
    requires IndexExact(m) && path in m.index
    ensures IndexExact(m.(targets := m.targets - {m.index[path]}, index := m.index - {path}))
  {
  }

  lemma SyncSameIndex(c: Config, s: State, v: Vol, op: Op, ok: bool, took: bool)
    requires Running(s) && op.Sync? && v in c.backend
    ensures var m := StepSync(c, s, v, op, ok, took).memory.value;
            m.targets == s.memory.value.targets && m.index == s.memory.value.index
  {
  }

  lemma UnstageSameIndex(c: Config, s: State, v: Vol, op: Op, ok: bool, took: bool)
    requires Running(s) && op.Unstage?
    ensures var m := StepUnstage(c, s, v, op, ok, took).memory.value;
            m.targets == s.memory.value.targets && m.index == s.memory.value.index
  {
  }

  lemma PublishIndex(c: Config, s: State, v: Vol, ok: bool, took: bool)
    requires Underway(c, s, CallOn(v)) && s.busy[CallOn(v)].Publish?
    ensures IndexExact(StepPublish(c, s, v, s.busy[CallOn(v)], ok, took).memory.value)
  {
    PathsAreConfigured(c, s);
    RememberKeepsIndex(c, s.memory.value, (v, s.busy[CallOn(v)].pod));
    hide Inv, VolInv, IndexExact, ValidConfig;
  }

  lemma UnpublishIndex(c: Config, s: State, v: Vol, ok: bool, took: bool)
    requires Underway(c, s, CallOn(v)) && s.busy[CallOn(v)].Unpublish?
    ensures IndexExact(StepUnpublish(c, s, v, s.busy[CallOn(v)], ok, took).memory.value)
  {
    var path := c.target[(v, s.busy[CallOn(v)].pod)];
    if path in s.memory.value.index { ForgetKeepsIndex(s.memory.value, path); }
    hide Inv, VolInv, IndexExact, ValidConfig;
  }

  lemma StepRuns(c: Config, s: State, lane: Lane, ok: bool, took: bool)
    requires ValidConfig(c) && Running(s) && lane in s.busy && Sensible(c, s)
    ensures Running(Step(c, s, lane, ok, took))
  {
  }

  lemma StepIndex(c: Config, s: State, lane: Lane, ok: bool, took: bool)
    requires Underway(c, s, lane) && Running(s) && Sensible(c, s)
    ensures Running(Step(c, s, lane, ok, took)) && IndexExact(Step(c, s, lane, ok, took).memory.value)
  {
    assert IndexExact(s.memory.value);
    hide Inv, VolInv, ValidConfig, IndexExact, StepPublish, StepUnpublish, StepSync, StepUnstage;
    StepRuns(c, s, lane, ok, took);
    match s.busy[lane]
    case Publish(_, _) => PublishIndex(c, s, lane.vol, ok, took);
    case Unpublish(_, _) => UnpublishIndex(c, s, lane.vol, ok, took);
    case Stage(_, _) => SameIsExact(s.memory.value, Step(c, s, lane, ok, took).memory.value);
    case Sync(_, _, _) =>
      SyncSameIndex(c, s, lane.vol, s.busy[lane], ok, took);
      SameIsExact(s.memory.value, Step(c, s, lane, ok, took).memory.value);
    case Unstage(_, _) =>
      UnstageSameIndex(c, s, lane.vol, s.busy[lane], ok, took);
      SameIsExact(s.memory.value, Step(c, s, lane, ok, took).memory.value);
  }

  lemma SameIsExact(m: Memory, n: Memory)
    requires IndexExact(m) && n.targets == m.targets && n.index == m.index
    ensures IndexExact(n)
  {
  }

  lemma SyncPublished(c: Config, s: State, v: Vol, ok: bool, took: bool)
    requires Underway(c, s, SyncOf(v)) && s.busy[SyncOf(v)].Sync?
    ensures v in c.backend && PublishedKnown(c, StepSync(c, s, v, s.busy[SyncOf(v)], ok, took))
  {
    AboutToPublish(c, s, v);
    assert PublishedKnown(c, s);
    hide Inv, VolInv, ValidConfig;
    var t := StepSync(c, s, v, s.busy[SyncOf(v)], ok, took);
    forall m <- t.published ensures exists k <- c.target :: IsPublished(c, t, k) && m == (c.backend[k.0], c.target[k]) {
      if m in s.published {
        var k :| k in c.target && IsPublished(c, s, k) && m == (c.backend[k.0], c.target[k]);
        assert IsPublished(c, t, k);
      } else {
        assert IsPublished(c, t, (v, s.busy[SyncOf(v)].pod));
      }
    }
  }

  lemma FewerPublished(c: Config, s: State, t: State)
    requires PublishedKnown(c, s) && t.published <= s.published
    ensures PublishedKnown(c, t)
  {
    forall m <- t.published ensures exists k <- c.target :: IsPublished(c, t, k) && m == (c.backend[k.0], c.target[k]) {
      var k :| k in c.target && IsPublished(c, s, k) && m == (c.backend[k.0], c.target[k]);
      assert IsPublished(c, t, k);
    }
  }

  lemma StepPublished(c: Config, s: State, lane: Lane, ok: bool, took: bool)
    requires Underway(c, s, lane) && Running(s) && Sensible(c, s)
    ensures PublishedKnown(c, Step(c, s, lane, ok, took))
  {
    assert PublishedKnown(c, s);
    if s.busy[lane].Sync? {
      SyncPublished(c, s, lane.vol, ok, took);
    } else {
      hide Inv, VolInv, ValidConfig, PublishedKnown, StepSync;
      FewerPublished(c, s, Step(c, s, lane, ok, took));
    }
  }

  lemma StepOthers(c: Config, s: State, lane: Lane, ok: bool, took: bool, w: Vol)
    requires Underway(c, s, lane) && Running(s) && Sensible(c, s) && w != lane.vol
    ensures SameFor(c, s, Step(c, s, lane, ok, took), w)
  {
    hide Inv, VolInv, SameFor, StepPublish, StepSync, StepUnpublish, StepStage, StepUnstage;
    match s.busy[lane]
    case Publish(_, _) => PublishOther(c, s, lane.vol, ok, took, w);
    case Sync(_, _, _) => SyncOther(c, s, lane.vol, ok, took, w);
    case Unpublish(_, _) => UnpublishOther(c, s, lane.vol, ok, took, w);
    case Stage(_, _) => StageOther(c, s, lane.vol, ok, w);
    case Unstage(_, _) => UnstageOther(c, s, lane.vol, ok, took, w);
  }

  lemma StepVol(c: Config, s: State, lane: Lane, ok: bool, took: bool)
    requires Underway(c, s, lane) && Running(s) && Sensible(c, s)
    ensures VolInv(c, Step(c, s, lane, ok, took), lane.vol)
  {
    hide Inv, VolInv, StepPublish, StepSync, StepUnpublish, StepStage, StepUnstage;
    match s.busy[lane]
    case Publish(_, _) => PublishVol(c, s, lane.vol, ok, took);
    case Sync(_, _, _) => SyncVol(c, s, lane.vol, ok, took);
    case Unpublish(_, _) => UnpublishVol(c, s, lane.vol, ok, took);
    case Stage(_, _) => StageVol(c, s, lane.vol, ok);
    case Unstage(_, _) => UnstageVol(c, s, lane.vol, ok, took);
  }

  lemma StepKeepsInv(c: Config, s: State, lane: Lane, ok: bool, took: bool)
    requires Underway(c, s, lane) && Running(s) && Sensible(c, s)
    ensures Inv(c, Step(c, s, lane, ok, took))
  {
    hide VolInv, SameFor, Step, IndexExact, IsPublished, ValidConfig;
    var t := Step(c, s, lane, ok, took);
    forall w | w != lane.vol ensures SameFor(c, s, t, w) { StepOthers(c, s, lane, ok, took, w); }
    StepVol(c, s, lane, ok, took);
    StepIndex(c, s, lane, ok, took);
    StepPublished(c, s, lane, ok, took);
    Whole(c, s, t, lane.vol);
  }

  lemma OperationsAreSensible(c: Config, s: State)
    requires Inv(c, s)
    ensures Sensible(c, s) && (!Running(s) ==> s.busy == map[])
  {
    forall lane <- s.busy ensures SensibleOp(c, lane, s.busy[lane]) && Running(s) {
      assert VolInv(c, s, lane.vol) && LaneInv(c, s, lane);
    }
    assert !Running(s) ==> forall lane <- s.busy :: false;
  }

  // Requests, crashes and restarts.

  lemma RequestTarget(c: Config, s: State, a: Action, v: Vol, u: Pod)
    requires ValidConfig(c) && VolInv(c, s, v) && Sensible(c, s) && Enabled(c, s, a)
    requires !a.Crash? && !a.Restart? && !a.Advance? && a.vol == v
    ensures TargetInv(c, Apply(c, s, a), (v, u))
  {
    assert TargetInv(c, s, (v, u));
    hide LoadAll, Step, BindInv, StagingInv, LaneInv, VolInv, ValidConfig, FileSays, MapSays, Agree;
  }

  lemma RequestLane(c: Config, s: State, a: Action, v: Vol, lane: Lane)
    requires ValidConfig(c) && VolInv(c, s, v) && Sensible(c, s) && Enabled(c, s, a)
    requires !a.Crash? && !a.Restart? && !a.Advance? && a.vol == v && lane.vol == v
    ensures LaneInv(c, Apply(c, s, a), lane)
  {
    if a.NodePublish? || a.SyncVolume? || a.NodeUnpublish? { assert TargetInv(c, s, (v, a.pod)); }
    assert LaneInv(c, s, lane);
    hide LoadAll, Step, BindInv, StagingInv, VolInv, ValidConfig;
  }

  lemma RequestVol(c: Config, s: State, a: Action, v: Vol)
    requires ValidConfig(c) && VolInv(c, s, v) && Sensible(c, s) && Enabled(c, s, a)
    requires !a.Crash? && !a.Restart? && !a.Advance? && a.vol == v
    ensures VolInv(c, Apply(c, s, a), v)
  {
    hide LoadAll, Step, TargetInv, LaneInv;
    RequestLane(c, s, a, v, CallOn(v));
    RequestLane(c, s, a, v, SyncOf(v));
    forall u ensures TargetInv(c, Apply(c, s, a), (v, u)) { RequestTarget(c, s, a, v, u); }
  }

  lemma RequestKeepsInv(c: Config, s: State, a: Action, v: Vol)
    requires ValidConfig(c) && Inv(c, s) && Sensible(c, s) && Enabled(c, s, a)
    requires !a.Crash? && !a.Restart? && !a.Advance? && a.vol == v
    ensures Inv(c, Apply(c, s, a))
  {
    hide ValidConfig, VolInv, IsPublished, IndexExact, LoadAll, Step;
    var t := Apply(c, s, a);
    RequestVol(c, s, a, v);
    forall w | w != v ensures SameFor(c, s, t, w) { RequestOther(c, s, a, v, w); }
    FewerPublished(c, s, t);
    Whole(c, s, t, v);
  }

  lemma RequestOther(c: Config, s: State, a: Action, v: Vol, w: Vol)
    requires ValidConfig(c) && Sensible(c, s) && Enabled(c, s, a)
    requires !a.Crash? && !a.Restart? && !a.Advance? && a.vol == v && w != v
    ensures SameFor(c, s, Apply(c, s, a), w)
  {
    hide LoadAll, Step, ValidConfig;
  }

  lemma OtherVolume(c: Config, s: State, a: Action, v: Vol)
    requires ValidConfig(c) && Inv(c, s) && Sensible(c, s) && Enabled(c, s, a)
    requires !a.Crash? && !a.Restart? && LaneOf(a).vol != v
    ensures SameFor(c, s, Apply(c, s, a), v)
  {
    hide ValidConfig, Inv, SameFor, Step, LoadAll, VolInv;
    if a.Advance? {
      VolOf(c, s, a.lane.vol);
      StepOthers(c, s, a.lane, a.ok, a.took, v);
    } else {
      RequestOther(c, s, a, a.vol, v);
    }
  }

  lemma CrashKeepsInv(c: Config, s: State)
    requires Inv(c, s) && Running(s)
    ensures Inv(c, s.(memory := None, busy := map[]))
  {
    var t := s.(memory := None, busy := map[]);
    forall v ensures VolInv(c, t, v) {
      assert VolInv(c, s, v);
      forall u ensures TargetInv(c, t, (v, u)) { assert TargetInv(c, s, (v, u)); }
    }
    FewerPublished(c, s, t);
  }

  /** What is loaded agrees with the files it was loaded from. */
  lemma LoadAgrees<K, R>(files: map<K, Content<R>>, k: K)
    requires Readable(files)
    ensures Agree(files, Load(files), k)
  {
  }

  lemma InverseIsExact(targets: map<Target, Path>, m: Memory)
    requires forall j, k | j in targets && k in targets && targets[j] == targets[k] :: j == k
    requires m.targets == targets && m.index == Inverse(targets)
    ensures IndexExact(m)
  {
    forall k <- targets ensures targets[k] in m.index && m.index[targets[k]] == k {
      assert targets[k] in targets.Values;
    }
  }

  lemma RestartKeepsInv(c: Config, s: State)
    requires ValidConfig(c) && Inv(c, s) && !Running(s) && CanStart(s.disk) && s.busy == map[]
    ensures Inv(c, s.(memory := Some(LoadAll(s.disk))))
  {
    hide LoadAll, Inverse;
    var t := s.(memory := Some(LoadAll(s.disk)));
    LoadAllMaps(s.disk);
    forall v ensures VolInv(c, t, v) { RestartVol(c, s, v); }
    var targets := Load(s.disk.targets);
    forall k <- targets ensures k in c.target && targets[k] == c.target[k] {
      assert VolInv(c, s, k.0) && TargetInv(c, s, (k.0, k.1));
    }
    InverseIsExact(targets, LoadAll(s.disk));
    FewerPublished(c, s, t);
  }

  lemma LoadAllMaps(disk: Disk)
    ensures LoadAll(disk).binds == Load(disk.binds) && LoadAll(disk).staging == Load(disk.staging)
    ensures LoadAll(disk).targets == Load(disk.targets) && LoadAll(disk).index == Inverse(Load(disk.targets))
  {
  }

  lemma RestartVol(c: Config, s: State, v: Vol)
    requires Inv(c, s) && !Running(s) && CanStart(s.disk) && s.busy == map[]
    ensures VolInv(c, s.(memory := Some(LoadAll(s.disk))), v)
  {
    hide LoadAll;
    var t := s.(memory := Some(LoadAll(s.disk)));
    LoadAllMaps(s.disk);
    assert VolInv(c, s, v);
    LoadAgrees(s.disk.binds, v);
    LoadAgrees(s.disk.staging, v);
    forall u ensures TargetInv(c, t, (v, u)) {
      assert TargetInv(c, s, (v, u));
      LoadAgrees(s.disk.targets, (v, u));
    }
  }

  lemma ActionKeepsInv(c: Config, s: State, a: Action)
    requires ValidConfig(c) && Inv(c, s) && Sensible(c, s) && Enabled(c, s, a)
    ensures Inv(c, Apply(c, s, a))
  {
    hide Inv, Step, LoadAll, VolInv, ValidConfig;
    match a
    case Advance(lane, ok, took) =>
      VolOf(c, s, lane.vol);
      StepKeepsInv(c, s, lane, ok, took);
    case Crash => CrashKeepsInv(c, s);
    case Restart =>
      OperationsAreSensible(c, s);
      RestartKeepsInv(c, s);
    case _ => RequestKeepsInv(c, s, a, a.vol);
  }

  lemma VolOf(c: Config, s: State, v: Vol)
    requires Inv(c, s)
    ensures VolInv(c, s, v)
  {
  }

  lemma InitInv(c: Config)
    ensures Inv(c, Init)
  {
  }

  lemma {:induction false} InvRun(c: Config, acts: seq<Action>)
    requires ValidConfig(c) && Legal(c, acts)
    ensures Inv(c, After(c, acts))
  {
    hide Inv, Apply, ValidConfig, Enabled;
    if acts == [] {
      InitInv(c);
    } else {
      var n := |acts| - 1;
      InvRun(c, acts[..n]);
      ActionKeepsInv(c, After(c, acts[..n]), acts[n]);
    }
  }
}
