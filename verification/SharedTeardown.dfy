/** Teardown while other calls and syncs go on: what an unpublish or unstage finally leaves of its own records does not
    depend on errors, crashes, or anything that happens elsewhere in between. */
module SharedTeardown {
  import opened Kubernetes
  import opened NodeLifecycle
  import opened StateFiles
  import opened NodeSafety
  import opened NodeSteps
  import opened NodeTeardown

  // NodeUnpublishVolume.

  /** Anything may happen meanwhile, but no new mount for the same volume and pod. */
  predicate MountsNothing(a: Action, k: Target) {
    a != NodePublish(k.0, k.1) && a != SyncVolume(k.0, k.1)
  }

  predicate NothingMounts(s: State, k: Target) {
    && (CallOn(k.0) in s.busy && s.busy[CallOn(k.0)].Publish? ==> s.busy[CallOn(k.0)].pod != k.1)
    && (SyncOf(k.0) in s.busy && s.busy[SyncOf(k.0)].Sync? ==> s.busy[SyncOf(k.0)].pod != k.1)
  }

  predicate Unpublishes(s: State, k: Target) {
    CallOn(k.0) in s.busy && s.busy[CallOn(k.0)].Unpublish? && s.busy[CallOn(k.0)].pod == k.1
  }

  /** An unpublish for `k` returns success. */
  predicate UnpublishSucceeds(c: Config, s: State, a: Action, k: Target)
    requires k in c.target
  {
    Unpublishes(s, k) && UnpublishDone(c, s, a, k)
  }

  /** What there is of one mount: its file, its record, whether it is published, its directory, and whether the
      orchestrator still counts on it. */
  datatype Mount = Mount(file: Option<Content<Path>>, record: Option<Path>, published: bool, dir: bool, outstanding: bool)

  function Entry<K, V>(m: map<K, V>, k: K): Option<V> {
    if k in m then Some(m[k]) else None
  }

  ghost function MountOf(c: Config, s: State, k: Target): Mount
    requires k in c.target
  {
    Mount(Entry(s.disk.targets, k), Entry(Mem(s).targets, k), IsPublished(c, s, k), c.target[k] in s.dirs, k in s.outstanding)
  }

  /** A file that no record goes with: a first publish failed while it wrote it. */
  ghost predicate Orphaned(s: State, k: Target) {
    k in s.disk.targets && k !in Mem(s).targets
  }

  ghost predicate UnpublishGoesOn(c: Config, s: State, k: Target, orphaned: bool)
    requires k in c.target
  {
    && Inv(c, s) && NothingMounts(s, k)
    && (Running(s) || CanStart(s.disk) ==> (Orphaned(s, k) <==> orphaned))
  }

  /** Steps that leave the mount's file and record alone. */
  ghost predicate LeavesMount(c: Config, s: State, t: State, k: Target)
    requires k in c.target
  {
    && Running(s) && Running(t) && SameAt(s.disk.targets, t.disk.targets, k)
    && SameAt(s.memory.value.targets, t.memory.value.targets, k)
    && (NothingMounts(s, k) ==> NothingMounts(t, k))
  }

  lemma LeftAlone(c: Config, s: State, t: State, k: Target, orphaned: bool)
    requires k in c.target && UnpublishGoesOn(c, s, k, orphaned) && LeavesMount(c, s, t, k) && Inv(c, t)
    ensures UnpublishGoesOn(c, t, k, orphaned)
  {
    hide Inv;
  }

  lemma OtherVolumeLeaves(c: Config, s: State, t: State, k: Target)
    requires k in c.target && SameFor(c, s, t, k.0)
    ensures LeavesMount(c, s, t, k)
  {
    assert SameTarget(c, s, t, (k.0, k.1));
  }

  lemma SyncLeaves(c: Config, s: State, k: Target, ok: bool, took: bool)
    requires Underway(c, s, SyncOf(k.0)) && s.busy[SyncOf(k.0)].Sync? && k in c.target
    ensures LeavesMount(c, s, StepSync(c, s, k.0, s.busy[SyncOf(k.0)], ok, took), k)
  {
    AboutToPublish(c, s, k.0);
    hide Inv, ValidConfig, VolInv, Underway, StepSync;
    SyncEffect(c, s, k.0, s.busy[SyncOf(k.0)], ok, took);
    SyncKeepsPod(c, s, k.0, s.busy[SyncOf(k.0)], ok, took);
  }

  lemma SyncKeepsPod(c: Config, s: State, v: Vol, op: Op, ok: bool, took: bool)
    requires Running(s) && op.Sync? && v in c.backend && SyncOf(v) in s.busy && s.busy[SyncOf(v)] == op
    ensures var t := StepSync(c, s, v, op, ok, took);
            SyncOf(v) in t.busy ==> t.busy[SyncOf(v)].Sync? && t.busy[SyncOf(v)].pod == op.pod
  {
  }

  lemma PublishLeaves(c: Config, s: State, k: Target, ok: bool, took: bool)
    requires Underway(c, s, CallOn(k.0)) && s.busy[CallOn(k.0)].Publish? && s.busy[CallOn(k.0)].pod != k.1 && k in c.target
    ensures LeavesMount(c, s, StepPublish(c, s, k.0, s.busy[CallOn(k.0)], ok, took), k)
  {
    hide Inv, ValidConfig, BindInv, StagingInv, TargetInv;
  }

  lemma UnpublishLeaves(c: Config, s: State, k: Target, ok: bool, took: bool)
    requires Underway(c, s, CallOn(k.0)) && s.busy[CallOn(k.0)].Unpublish? && s.busy[CallOn(k.0)].pod != k.1 && k in c.target
    ensures LeavesMount(c, s, StepUnpublish(c, s, k.0, s.busy[CallOn(k.0)], ok, took), k)
  {
    UnpublishOtherTarget(c, s, k.0, ok, took, k);
    IndexAt(c, s, (k.0, s.busy[CallOn(k.0)].pod));
    hide Inv, ValidConfig, VolInv, Underway, StepUnpublish;
    UnpublishEffect(c, s, k.0, s.busy[CallOn(k.0)], ok, took);
  }

  lemma StageLeaves(c: Config, s: State, k: Target, ok: bool)
    requires Underway(c, s, CallOn(k.0)) && s.busy[CallOn(k.0)].Stage? && k in c.target
    ensures LeavesMount(c, s, StepStage(s, k.0, s.busy[CallOn(k.0)], ok), k)
  {
    hide Inv, ValidConfig, BindInv, StagingInv, TargetInv;
  }

  lemma UnstageLeaves(c: Config, s: State, k: Target, ok: bool, took: bool)
    requires Underway(c, s, CallOn(k.0)) && s.busy[CallOn(k.0)].Unstage? && k in c.target
    ensures LeavesMount(c, s, StepUnstage(c, s, k.0, s.busy[CallOn(k.0)], ok, took), k)
  {
    hide Inv, ValidConfig, BindInv, StagingInv, TargetInv;
  }

  lemma RequestLeaves(c: Config, s: State, a: Action, k: Target)
    requires ValidConfig(c) && Sensible(c, s) && Enabled(c, s, a) && k in c.target && MountsNothing(a, k)
    requires !a.Advance? && !a.Crash? && !a.Restart?
    ensures LeavesMount(c, s, Apply(c, s, a), k)
  {
    hide LoadAll, Step, ValidConfig;
  }

  lemma OwnStep(c: Config, s: State, k: Target, ok: bool, took: bool, orphaned: bool)
    requires ValidConfig(c) && k in c.target && UnpublishGoesOn(c, s, k, orphaned) && Unpublishes(s, k) && Running(s)
    ensures var t := StepUnpublish(c, s, k.0, s.busy[CallOn(k.0)], ok, took);
            Inv(c, t) ==> UnpublishGoesOn(c, t, k, orphaned)
  {
    VolOf(c, s, k.0);
    IndexAt(c, s, k);
    assert LaneInv(c, s, CallOn(k.0));
    hide Inv, ValidConfig, VolInv, LoadAll;
  }

  lemma MountGone(c: Config, s: State, k: Target, ok: bool, took: bool, orphaned: bool)
    requires ValidConfig(c) && k in c.target && UnpublishGoesOn(c, s, k, orphaned)
    requires Running(s) && UnpublishSucceeds(c, s, Advance(CallOn(k.0), ok, took), k)
    ensures var t := MountOf(c, StepUnpublish(c, s, k.0, s.busy[CallOn(k.0)], ok, took), k);
            t == Mount(if orphaned then Some(Torn) else None, None, false, false, false)
  {
    VolOf(c, s, k.0);
    IndexAt(c, s, k);
    assert LaneInv(c, s, CallOn(k.0)) && TargetInv(c, s, (k.0, k.1));
    hide Inv, ValidConfig, VolInv, LoadAll;
  }

  lemma CrashKeepsOrphan(c: Config, s: State, k: Target, orphaned: bool)
    requires k in c.target && UnpublishGoesOn(c, s, k, orphaned) && Running(s)
    ensures var t := s.(memory := None, busy := map[]); Inv(c, t) ==> UnpublishGoesOn(c, t, k, orphaned)
  {
    VolOf(c, s, k.0);
    assert LaneInv(c, s, CallOn(k.0)) && TargetInv(c, s, (k.0, k.1));
    LoadAllMaps(s.disk);
    hide Inv, LoadAll;
  }

  lemma OneStep(c: Config, s: State, a: Action, k: Target, orphaned: bool)
    requires ValidConfig(c) && k in c.target && UnpublishGoesOn(c, s, k, orphaned)
    requires Sensible(c, s) && Enabled(c, s, a) && MountsNothing(a, k)
    ensures UnpublishGoesOn(c, Apply(c, s, a), k, orphaned)
  {
    ActionKeepsInv(c, s, a);
    OperationsAreSensible(c, s);
    hide Inv, LoadAll, Step, LeavesMount;
    match a
    case Crash => CrashKeepsOrphan(c, s, k, orphaned);
    case Restart =>
    case Advance(lane, ok, took) => OneAdvance(c, s, lane, ok, took, k, orphaned);
    case _ =>
      RequestLeaves(c, s, a, k);
      LeftAlone(c, s, Apply(c, s, a), k, orphaned);
  }

  lemma OneAdvance(c: Config, s: State, lane: Lane, ok: bool, took: bool, k: Target, orphaned: bool)
    requires ValidConfig(c) && k in c.target && UnpublishGoesOn(c, s, k, orphaned)
    requires Sensible(c, s) && Running(s) && lane in s.busy && Inv(c, Step(c, s, lane, ok, took))
    ensures UnpublishGoesOn(c, Step(c, s, lane, ok, took), k, orphaned)
  {
    VolOf(c, s, lane.vol);
    hide Inv, LoadAll, VolInv, LeavesMount, StepPublish, StepUnpublish, StepStage, StepUnstage, StepSync, SameFor;
    var t := Step(c, s, lane, ok, took);
    if Unpublishes(s, k) && lane == CallOn(k.0) {
      OwnStep(c, s, k, ok, took, orphaned);
    } else {
      if lane.vol != k.0 {
        StepOthers(c, s, lane, ok, took, k.0);
        OtherVolumeLeaves(c, s, t, k);
      } else {
        match s.busy[lane]
        case Sync(_, _, _) => SyncLeaves(c, s, k, ok, took);
        case Publish(_, _) => PublishLeaves(c, s, k, ok, took);
        case Unpublish(_, _) => UnpublishLeaves(c, s, k, ok, took);
        case Stage(_, _) => StageLeaves(c, s, k, ok);
        case Unstage(_, _) => UnstageLeaves(c, s, k, ok, took);
      }
      LeftAlone(c, s, t, k, orphaned);
    }
  }

  lemma {:induction false} GoesOn(c: Config, s: State, acts: seq<Action>, k: Target, orphaned: bool)
    requires ValidConfig(c) && k in c.target && UnpublishGoesOn(c, s, k, orphaned)
    requires LegalFrom(c, s, acts) && forall a <- acts :: MountsNothing(a, k)
    ensures UnpublishGoesOn(c, Reach(c, s, acts), k, orphaned)
    decreases |acts|
  {
    hide UnpublishGoesOn, Apply, Enabled, ValidConfig;
    if acts != [] {
      OneStep(c, s, acts[0], k, orphaned);
      GoesOn(c, Apply(c, s, acts[0]), acts[1..], k, orphaned);
    }
  }

  /** Whenever an unpublish succeeds, after any errors and crashes and whatever else went on, the mount is gone
      with all that belongs to it; a file stays exactly if no record went with it from the start. */
  lemma UnpublishConvergesAmongOthers(c: Config, past: seq<Action>, acts: seq<Action>, last: Action, k: Target)
    requires ValidConfig(c) && Legal(c, past) && k in c.target && NothingMounts(After(c, past), k)
    requires LegalFrom(c, After(c, past), acts) && forall a <- acts :: MountsNothing(a, k)
    requires var t := Reach(c, After(c, past), acts);
             Sensible(c, t) && Enabled(c, t, last) && UnpublishSucceeds(c, t, last, k)
    ensures MountOf(c, Apply(c, Reach(c, After(c, past), acts), last), k)
         == Mount(if Orphaned(After(c, past), k) then Some(Torn) else None, None, false, false, false)
  {
    InvRun(c, past);
    var s := After(c, past);
    var t := Reach(c, s, acts);
    hide Legal, After, LegalFrom, Reach, Inv, Orphaned;
    GoesOn(c, s, acts, k, Orphaned(s, k));
    MountGone(c, t, k, last.ok, last.took, Orphaned(s, k));
  }
}
