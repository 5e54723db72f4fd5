/** Torn state files: when a file is left torn, what a restart makes of the others, and when the node can start. */
module TornFiles {
  import opened StateFiles
  import opened NodeLifecycle
  import opened NodeSafety
  import opened NodeSteps
  import opened NodeRuns

  /** The state files, one for each record that a manager may keep. */
  datatype Slot = BindOf(vol: Vol) | StagingOf(vol: Vol) | TargetOf(vol: Vol, pod: Pod)

  predicate TornAt(s: State, slot: Slot) {
    match slot
    case BindOf(v) => FileIs(s.disk.binds, v, Torn)
    case StagingOf(v) => FileIs(s.disk.staging, v, Torn)
    case TargetOf(v, u) => FileIs(s.disk.targets, (v, u), Torn)
  }

  // What the operation under way does to the file next.

  /** Who writes the file: the sync saves the volume's bind, and calls save the paths. */
  function Writer(slot: Slot): Lane {
    if slot.BindOf? then SyncOf(slot.vol) else CallOn(slot.vol)
  }

  predicate Creates(s: State, slot: Slot) {
    Writer(slot) in s.busy && (
      var op := s.busy[Writer(slot)];
      match slot
      case BindOf(_) => op.Sync? && op.syncStep == CreateBind
      case StagingOf(_) => op.Stage? && op.stageStep == CreateStaging
      case TargetOf(_, u) => op.Publish? && op.pod == u && op.publishStep == CreateTarget)
  }

  predicate Writes(s: State, slot: Slot) {
    Writer(slot) in s.busy && (
      var op := s.busy[Writer(slot)];
      match slot
      case BindOf(_) => op.Sync? && op.syncStep == WriteBind
      case StagingOf(_) => op.Stage? && op.stageStep == WriteStaging
      case TargetOf(_, u) => op.Publish? && op.pod == u && op.publishStep == WriteTarget)
  }

  predicate Knows(s: State, k: Target) {
    Running(s) && k in s.memory.value.targets
  }

  predicate Removes(s: State, slot: Slot) {
    CallOn(slot.vol) in s.busy && (
      var op := s.busy[CallOn(slot.vol)];
      match slot
      case BindOf(_) => op.Unstage? && op.unstageStep == RemoveBind
      case StagingOf(_) => op.Unstage? && op.unstageStep == RemoveStaging
      case TargetOf(_, u) => op.Unpublish? && op.pod == u && op.unpublishStep == RemoveTarget && Knows(s, (slot.vol, u)))
  }

  predicate Succeeds(a: Action, lane: Lane) {
    a.Advance? && a.lane == lane && a.ok
  }

  predicate Truncates(s: State, slot: Slot, a: Action) {
    Succeeds(a, Writer(slot)) && Creates(s, slot)
  }

  predicate Settles(s: State, slot: Slot, a: Action) {
    (Succeeds(a, Writer(slot)) && Writes(s, slot)) || (Succeeds(a, CallOn(slot.vol)) && Removes(s, slot))
  }

  /** The write of a truncated file fails, or the process crashes before it. */
  predicate Spoils(s: State, slot: Slot, a: Action) {
    Writes(s, slot) && (a.Crash? || (a.Advance? && a.lane == Writer(slot) && !a.ok))
  }

  /** One step tears a file exactly by truncating it, and only a write or a removal ends that. */
  predicate TornStep(s: State, t: State, slot: Slot, a: Action) {
    && (TornAt(t, slot) <==> Truncates(s, slot, a) || (TornAt(s, slot) && !Settles(s, slot, a)))
    && (Truncates(s, slot, a) ==> Writes(t, slot))
    && (Writes(s, slot) ==> Writes(t, slot) || Settles(s, slot, a) || Spoils(s, slot, a))
  }

  lemma PublishTears(c: Config, s: State, v: Vol, ok: bool, took: bool, slot: Slot)
    requires Underway(c, s, CallOn(v)) && s.busy[CallOn(v)].Publish?
    ensures TornStep(s, StepPublish(c, s, v, s.busy[CallOn(v)], ok, took), slot, Advance(CallOn(v), ok, took))
  {
    hide Inv, ValidConfig, BindInv, StagingInv, TargetInv, OpInv;
  }

  lemma SyncTears(c: Config, s: State, v: Vol, ok: bool, took: bool, slot: Slot)
    requires Underway(c, s, SyncOf(v)) && s.busy[SyncOf(v)].Sync?
    ensures TornStep(s, StepSync(c, s, v, s.busy[SyncOf(v)], ok, took), slot, Advance(SyncOf(v), ok, took))
  {
    AboutToPublish(c, s, v);
    var op := s.busy[SyncOf(v)];
    assert SyncMayRun(s, v, op.pod) by { assert OpInv(c, s, SyncOf(v), op); }
    hide Inv, ValidConfig, VolInv, Underway, SyncMayRun;
    if slot.BindOf? {
      SyncTearsBind(c, s, v, op, ok, took, slot);
    } else {
      hide StepSync;
      SyncEffect(c, s, v, op, ok, took);
      SyncLanes(c, s, v, op, ok, took);
      assert SameAt(s.busy, StepSync(c, s, v, op, ok, took).busy, Writer(slot));
    }
  }

  lemma SyncTearsBind(c: Config, s: State, v: Vol, op: Op, ok: bool, took: bool, slot: Slot)
    requires Running(s) && op.Sync? && v in c.backend && slot.BindOf? && SyncOf(v) in s.busy && s.busy[SyncOf(v)] == op
    requires SyncMayRun(s, v, op.pod)
    ensures TornStep(s, StepSync(c, s, v, op, ok, took), slot, Advance(SyncOf(v), ok, took))
  {
  }

  /** All that an unpublish does to the files. */
  lemma UnpublishDisk(c: Config, s: State, v: Vol, ok: bool, took: bool)
    requires Underway(c, s, CallOn(v)) && s.busy[CallOn(v)].Unpublish?
    ensures var t, op := StepUnpublish(c, s, v, s.busy[CallOn(v)], ok, took), s.busy[CallOn(v)];
            && t.disk == (if op.unpublishStep == RemoveTarget && ok && Knows(s, (v, op.pod))
                          then s.disk.(targets := s.disk.targets - {(v, op.pod)}) else s.disk)
            && (forall lane | lane != CallOn(v) :: SameAt(s.busy, t.busy, lane))
            && (CallOn(v) in t.busy ==> t.busy[CallOn(v)].Unpublish?)
  {
    IndexAt(c, s, (v, s.busy[CallOn(v)].pod));
    hide Inv, ValidConfig, VolInv;
  }

  lemma UnpublishTears(c: Config, s: State, v: Vol, ok: bool, took: bool, slot: Slot)
    requires Underway(c, s, CallOn(v)) && s.busy[CallOn(v)].Unpublish?
    ensures TornStep(s, StepUnpublish(c, s, v, s.busy[CallOn(v)], ok, took), slot, Advance(CallOn(v), ok, took))
  {
    UnpublishDisk(c, s, v, ok, took);
    hide Underway, StepUnpublish, Inv, ValidConfig, VolInv;
    var t := StepUnpublish(c, s, v, s.busy[CallOn(v)], ok, took);
    UnpublishWritesNothing(s, t, slot, v);
    hide Writes, Creates;
    if slot != TargetOf(v, s.busy[CallOn(v)].pod) {
      assert TornAt(t, slot) <==> TornAt(s, slot);
      assert !(Succeeds(Advance(CallOn(v), ok, took), CallOn(slot.vol)) && Removes(s, slot));
      hide TornAt, Removes, SameAt;
    }
  }

  /** As long as the others go on with what they did. */
  lemma UnpublishWritesNothing(s: State, t: State, slot: Slot, v: Vol)
    requires CallOn(v) in s.busy && s.busy[CallOn(v)].Unpublish?
    requires CallOn(v) in t.busy ==> t.busy[CallOn(v)].Unpublish?
    requires forall lane | lane != CallOn(v) :: SameAt(s.busy, t.busy, lane)
    ensures Writes(t, slot) <==> Writes(s, slot)
    ensures Writer(slot) == CallOn(v) ==> !Writes(s, slot) && !Creates(s, slot)
  {
    assert Writer(slot) != CallOn(v) ==> SameAt(s.busy, t.busy, Writer(slot));
  }

  lemma StageTears(c: Config, s: State, v: Vol, ok: bool, took: bool, slot: Slot)
    requires Underway(c, s, CallOn(v)) && s.busy[CallOn(v)].Stage?
    ensures TornStep(s, StepStage(s, v, s.busy[CallOn(v)], ok), slot, Advance(CallOn(v), ok, took))
  {
    hide Inv, ValidConfig, BindInv, StagingInv, TargetInv, OpInv;
  }

  lemma UnstageTears(c: Config, s: State, v: Vol, ok: bool, took: bool, slot: Slot)
    requires Underway(c, s, CallOn(v)) && s.busy[CallOn(v)].Unstage?
    ensures TornStep(s, StepUnstage(c, s, v, s.busy[CallOn(v)], ok, took), slot, Advance(CallOn(v), ok, took))
  {
    hide Inv, ValidConfig, BindInv, StagingInv, TargetInv, OpInv;
  }

  lemma AdvanceTears(c: Config, s: State, lane: Lane, ok: bool, took: bool, slot: Slot)
    requires Underway(c, s, lane) && Running(s) && Sensible(c, s)
    ensures TornStep(s, Step(c, s, lane, ok, took), slot, Advance(lane, ok, took))
  {
    hide Inv, VolInv, TornStep, StepPublish, StepSync, StepUnpublish, StepStage, StepUnstage;
    match s.busy[lane]
    case Publish(_, _) => PublishTears(c, s, lane.vol, ok, took, slot);
    case Sync(_, _, _) => SyncTears(c, s, lane.vol, ok, took, slot);
    case Unpublish(_, _) => UnpublishTears(c, s, lane.vol, ok, took, slot);
    case Stage(_, _) => StageTears(c, s, lane.vol, ok, took, slot);
    case Unstage(_, _) => UnstageTears(c, s, lane.vol, ok, took, slot);
  }

  lemma OthersTearNothing(c: Config, s: State, a: Action, slot: Slot)
    requires ValidConfig(c) && Sensible(c, s) && Enabled(c, s, a) && !a.Advance? && (!Running(s) ==> s.busy == map[])
    ensures TornStep(s, Apply(c, s, a), slot, a)
  {
    hide ValidConfig, LoadAll, Step;
  }

  lemma StepTears(c: Config, s: State, a: Action, slot: Slot)
    requires ValidConfig(c) && Inv(c, s) && Sensible(c, s) && Enabled(c, s, a)
    ensures TornStep(s, Apply(c, s, a), slot, a)
  {
    hide Inv, Step, LoadAll, TornStep, ValidConfig;
    OperationsAreSensible(c, s);
    if a.Advance? {
      VolOf(c, s, a.lane.vol);
      AdvanceTears(c, s, a.lane, a.ok, a.took, slot);
    } else {
      OthersTearNothing(c, s, a, slot);
    }
  }

  // Runs.

  /** Action `i` truncated the file, and nothing wrote or removed it since. */
  ghost predicate OpenSince(c: Config, acts: seq<Action>, slot: Slot, i: nat)
    requires ValidConfig(c) && Legal(c, acts)
  {
    && i < |acts| && Truncates(At(c, acts, i), slot, acts[i])
    && forall m: nat | i < m < |acts| :: !Settles(At(c, acts, m), slot, acts[m])
  }

  ghost predicate LeftOpen(c: Config, acts: seq<Action>, slot: Slot)
    requires ValidConfig(c) && Legal(c, acts)
  {
    exists i: nat :: OpenSince(c, acts, slot, i)
  }

  /** At some time the write of the file failed, or the process crashed when it was due. */
  ghost predicate Spoilt(c: Config, acts: seq<Action>, slot: Slot)
    requires ValidConfig(c) && Legal(c, acts)
  {
    exists i: nat :: i < |acts| && Spoils(At(c, acts, i), slot, acts[i])
  }

  lemma OpenLonger(c: Config, acts: seq<Action>, a: Action, slot: Slot)
    requires ValidConfig(c) && Legal(c, acts) && Legal(c, acts + [a])
    ensures LeftOpen(c, acts + [a], slot) <==>
            Truncates(After(c, acts), slot, a) || (LeftOpen(c, acts, slot) && !Settles(After(c, acts), slot, a))
  {
    var longer := acts + [a];
    Ends(c, acts, a);
    hide Legal, After, Truncates, Settles;
    forall m: nat | m <= |acts| ensures At(c, longer, m) == At(c, acts, m) { SamePast(c, acts, longer, m); }
    hide At;
    if Truncates(At(c, longer, |acts|), slot, a) {
      assert OpenSince(c, longer, slot, |acts|);
    } else if LeftOpen(c, acts, slot) && !Settles(At(c, longer, |acts|), slot, a) {
      var i: nat :| OpenSince(c, acts, slot, i);
      assert OpenSince(c, longer, slot, i);
    }
    if LeftOpen(c, longer, slot) {
      var i: nat :| OpenSince(c, longer, slot, i);
      if i < |acts| {
        assert longer[|acts|] == a;
        OpenBefore(c, acts, a, slot, i);
      }
    }
  }

  lemma OpenBefore(c: Config, acts: seq<Action>, a: Action, slot: Slot, i: nat)
    requires ValidConfig(c) && Legal(c, acts) && Legal(c, acts + [a]) && OpenSince(c, acts + [a], slot, i) && i < |acts|
    ensures OpenSince(c, acts, slot, i)
  {
    var longer := acts + [a];
    hide Legal, After, Truncates, Settles;
    forall m: nat | m <= |acts| ensures At(c, longer, m) == At(c, acts, m) { SamePast(c, acts, longer, m); }
    hide At;
    forall m: nat | i < m < |acts| ensures !Settles(At(c, acts, m), slot, acts[m]) {
      assert !Settles(At(c, longer, m), slot, longer[m]);
    }
    assert longer[i] == acts[i];
  }

  lemma SpoiltLonger(c: Config, acts: seq<Action>, a: Action, slot: Slot)
    requires ValidConfig(c) && Legal(c, acts) && Legal(c, acts + [a])
    requires Spoilt(c, acts, slot) || Spoils(After(c, acts), slot, a)
    ensures Spoilt(c, acts + [a], slot)
  {
    var longer := acts + [a];
    Ends(c, acts, a);
    hide Legal, After, Spoils;
    if Spoilt(c, acts, slot) {
      var i: nat :| i < |acts| && Spoils(At(c, acts, i), slot, acts[i]);
      SamePast(c, acts, longer, i);
      assert Spoils(At(c, longer, i), slot, longer[i]);
    } else {
      assert Spoils(At(c, longer, |acts|), slot, longer[|acts|]);
    }
  }

  /** A file is torn exactly when it was truncated and neither written nor removed since. */
  lemma {:induction false} TornExactly(c: Config, acts: seq<Action>, slot: Slot)
    requires ValidConfig(c) && Legal(c, acts)
    ensures TornAt(After(c, acts), slot) <==> LeftOpen(c, acts, slot)
  {
    if acts != [] {
      hide Apply, Enabled, ValidConfig, TornAt, Truncates, Settles, LeftOpen;
      var before, a := acts[..|acts| - 1], acts[|acts| - 1];
      assert acts == before + [a];
      TornExactly(c, before, slot);
      InvRun(c, before);
      StepTears(c, After(c, before), a, slot);
      OpenLonger(c, before, a, slot);
    }
  }

  /** A file is torn only while its write is due, or after such a write failed or was cut off by a crash. */
  lemma {:induction false} TornMeansSpoilt(c: Config, acts: seq<Action>, slot: Slot)
    requires ValidConfig(c) && Legal(c, acts) && TornAt(After(c, acts), slot)
    ensures Writes(After(c, acts), slot) || Spoilt(c, acts, slot)
  {
    if acts != [] {
      hide Apply, Enabled, ValidConfig, TornAt, Truncates, Settles, Spoilt, Spoils, Writes;
      var before, a := acts[..|acts| - 1], acts[|acts| - 1];
      assert acts == before + [a];
      InvRun(c, before);
      StepTears(c, After(c, before), a, slot);
      if TornAt(After(c, before), slot) {
        TornMeansSpoilt(c, before, slot);
        if Spoilt(c, before, slot) || Spoils(After(c, before), slot, a) { SpoiltLonger(c, before, a, slot); }
      }
    }
  }

  /** All files can be parsed exactly when none is torn. */
  lemma StartsWithoutTorn(s: State)
    ensures CanStart(s.disk) <==> forall slot :: !TornAt(s, slot)
  {
    if !CanStart(s.disk) {
      if v :| v in s.disk.binds && !s.disk.binds[v].Valid? { assert TornAt(s, BindOf(v)); }
      if v :| v in s.disk.staging && !s.disk.staging[v].Valid? { assert TornAt(s, StagingOf(v)); }
      if k :| k in s.disk.targets && !s.disk.targets[k].Valid? { assert TornAt(s, TargetOf(k.0, k.1)); }
    }
  }
}
