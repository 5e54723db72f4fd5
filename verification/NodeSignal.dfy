/** A pod is annotated only after its volume was published and its ownership settled. */
module NodeSignal {
  import opened NodeLifecycle
  import opened NodeSafety
  import opened NodeSteps
  import opened NodeRuns

  predicate IsSyncing(s: State, k: Target) {
    SyncOf(k.0) in s.busy && s.busy[SyncOf(k.0)].Sync? && s.busy[SyncOf(k.0)].pod == k.1
  }

  predicate Syncs(s: State, k: Target, step: SyncStep) {
    IsSyncing(s, k) && s.busy[SyncOf(k.0)].syncStep == step
  }

  predicate AdvancesTo(s: State, k: Target, a: Action, from: SyncStep) {
    a.Advance? && a.lane == SyncOf(k.0) && a.ok && Syncs(s, k, from)
  }

  /** The API server accepts the patch, whether or not its answer arrives. */
  predicate Marks(s: State, k: Target, a: Action) {
    a.Advance? && a.lane == SyncOf(k.0) && (a.ok || a.took) && Syncs(s, k, Annotate)
  }

  /** Action `i` is the success of `step` in a sync of volume `k.0` for pod `k.1`. */
  ghost predicate Succeeds(c: Config, acts: seq<Action>, i: nat, k: Target, step: SyncStep)
    requires ValidConfig(c) && Legal(c, acts)
  {
    i < |acts| && AdvancesTo(At(c, acts, i), k, acts[i], step)
  }

  /** One and the same sync is under way from before action `i` up to before action `n`. */
  ghost predicate Throughout(c: Config, acts: seq<Action>, i: nat, n: nat, k: Target)
    requires ValidConfig(c) && Legal(c, acts)
  {
    i <= n <= |acts| && forall m: nat | i <= m <= n :: IsSyncing(At(c, acts, m), k)
  }

  ghost predicate Mounted(c: Config, acts: seq<Action>, i: nat, n: nat, k: Target)
    requires ValidConfig(c) && Legal(c, acts)
  {
    Succeeds(c, acts, i, k, PublishVolume) && Throughout(c, acts, i, n, k)
  }

  ghost predicate MountedThenOwned(c: Config, acts: seq<Action>, i: nat, j: nat, n: nat, k: Target)
    requires ValidConfig(c) && Legal(c, acts)
  {
    i < j && Mounted(c, acts, i, n, k) && Succeeds(c, acts, j, k, ChangeOwner)
  }

  /** One sync published the volume at `i`, settled the ownership of its files at `j` and had the pod marked at
      `l`, when the volume was still published. */
  ghost predicate MarkedBySync(c: Config, acts: seq<Action>, i: nat, j: nat, l: nat, k: Target)
    requires ValidConfig(c) && Legal(c, acts)
  {
    && MountedThenOwned(c, acts, i, j, l, k) && j < l < |acts|
    && Marks(At(c, acts, l), k, acts[l]) && IsPublished(c, At(c, acts, l), k)
  }

  ghost predicate Ready(c: Config, acts: seq<Action>, k: Target)
    requires ValidConfig(c) && Legal(c, acts)
  {
    exists i: nat, j: nat, l: nat :: MarkedBySync(c, acts, i, j, l, k)
  }

  ghost predicate WasMounted(c: Config, acts: seq<Action>, n: nat, k: Target)
    requires ValidConfig(c) && Legal(c, acts)
  {
    exists i: nat :: Mounted(c, acts, i, n, k)
  }

  ghost predicate WasOwned(c: Config, acts: seq<Action>, n: nat, k: Target)
    requires ValidConfig(c) && Legal(c, acts)
  {
    exists i: nat, j: nat :: MountedThenOwned(c, acts, i, j, n, k)
  }

  // A longer run has the same past.

  lemma MountedLater(c: Config, acts: seq<Action>, longer: seq<Action>, i: nat, n: nat, k: Target)
    requires ValidConfig(c) && Legal(c, acts) && Legal(c, longer) && acts <= longer && Mounted(c, acts, i, n, k)
    ensures Mounted(c, longer, i, n, k)
  {
    hide At, Legal;
    SamePast(c, acts, longer, i);
    forall m: nat | i <= m <= n ensures IsSyncing(At(c, longer, m), k) { SamePast(c, acts, longer, m); }
  }

  lemma OwnedLater(c: Config, acts: seq<Action>, longer: seq<Action>, i: nat, j: nat, n: nat, k: Target)
    requires ValidConfig(c) && Legal(c, acts) && Legal(c, longer) && acts <= longer
    requires MountedThenOwned(c, acts, i, j, n, k)
    ensures MountedThenOwned(c, longer, i, j, n, k)
  {
    hide At, Legal;
    MountedLater(c, acts, longer, i, n, k);
    SamePast(c, acts, longer, j);
  }

  lemma ReadyLater(c: Config, acts: seq<Action>, longer: seq<Action>, k: Target)
    requires ValidConfig(c) && Legal(c, acts) && Legal(c, longer) && acts <= longer && Ready(c, acts, k)
    ensures Ready(c, longer, k)
  {
    hide At, Legal, MountedThenOwned;
    var i: nat, j: nat, l: nat :| MarkedBySync(c, acts, i, j, l, k);
    OwnedLater(c, acts, longer, i, j, l, k);
    SamePast(c, acts, longer, l);
    assert MarkedBySync(c, longer, i, j, l, k);
  }

  // What an operation under way and the marks owe to the past.

  ghost predicate Earned(c: Config, acts: seq<Action>, k: Target)
    requires ValidConfig(c) && Legal(c, acts)
  {
    var s := After(c, acts);
    && (Syncs(s, k, ChangeOwner) ==> WasMounted(c, acts, |acts|, k))
    && (Syncs(s, k, Annotate) ==> WasOwned(c, acts, |acts|, k))
    && (k in s.marked ==> Ready(c, acts, k))
  }

  /** How a step may change what the sync of `k` is about to do, and the marks. */
  predicate Shape(s: State, t: State, k: Target, a: Action) {
    && (Syncs(t, k, ChangeOwner) ==> Syncs(s, k, ChangeOwner) || AdvancesTo(s, k, a, PublishVolume))
    && (Syncs(t, k, Annotate) ==> Syncs(s, k, Annotate) || AdvancesTo(s, k, a, ChangeOwner))
    && (k in t.marked <==> k in s.marked || Marks(s, k, a))
  }

  lemma CallShape(c: Config, s: State, a: Action, k: Target)
    requires ValidConfig(c) && Sensible(c, s) && Enabled(c, s, a) && a.Advance? && !s.busy[a.lane].Sync?
    ensures Shape(s, Step(c, s, a.lane, a.ok, a.took), k, a)
  {
    hide StepSync;
    assert a.lane.CallOn? && SensibleOp(c, a.lane, s.busy[a.lane]);
    hide ValidConfig;
    var v, op, t := a.lane.vol, s.busy[a.lane], Step(c, s, a.lane, a.ok, a.took);
    assert t.marked == s.marked && SameAt(s.busy, t.busy, SyncOf(k.0)) by {
      hide StepPublish, StepUnpublish;
      match op
      case Publish(_, _) => PublishSyncs(c, s, v, op, a.ok, a.took, SyncOf(k.0));
      case Unpublish(_, _) => UnpublishSyncs(c, s, v, op, a.ok, a.took, SyncOf(k.0));
      case Stage(_, _) =>
      case Unstage(_, _) =>
    }
    hide Step;
  }

  lemma PublishSyncs(c: Config, s: State, v: Vol, op: Op, ok: bool, took: bool, lane: Lane)
    requires Running(s) && op.Publish? && (v, op.pod) in c.target && lane != CallOn(v)
    ensures var t := StepPublish(c, s, v, op, ok, took); t.marked == s.marked && SameAt(s.busy, t.busy, lane)
  {
  }

  lemma UnpublishSyncs(c: Config, s: State, v: Vol, op: Op, ok: bool, took: bool, lane: Lane)
    requires Running(s) && op.Unpublish? && (v, op.pod) in c.target && lane != CallOn(v)
    ensures var t := StepUnpublish(c, s, v, op, ok, took); t.marked == s.marked && SameAt(s.busy, t.busy, lane)
  {
  }

  lemma SyncShape(c: Config, s: State, a: Action, k: Target)
    requires a.Advance? && Running(s) && a.lane in s.busy && s.busy[a.lane].Sync? && a.lane.SyncOf? && a.lane.vol in c.backend
    ensures Shape(s, StepSync(c, s, a.lane.vol, s.busy[a.lane], a.ok, a.took), k, a)
  {
  }

  lemma StepShape(c: Config, s: State, a: Action, k: Target)
    requires ValidConfig(c) && Sensible(c, s) && Enabled(c, s, a)
    ensures Shape(s, Apply(c, s, a), k, a)
  {
    hide ValidConfig, LoadAll, Step;
    if a.Advance? {
      hide Shape;
      if s.busy[a.lane].Sync? {
        OnlySync(c, s, a);
        SyncShape(c, s, a, k);
      } else {
        CallShape(c, s, a, k);
      }
    }
  }

  lemma OnlySync(c: Config, s: State, a: Action)
    requires ValidConfig(c) && Sensible(c, s) && Enabled(c, s, a) && a.Advance? && s.busy[a.lane].Sync?
    ensures a.lane.SyncOf? && a.lane.vol in c.backend
    ensures Step(c, s, a.lane, a.ok, a.took) == StepSync(c, s, a.lane.vol, s.busy[a.lane], a.ok, a.took)
  {
    hide StepSync;
  }

  lemma MountEarned(c: Config, acts: seq<Action>, a: Action, k: Target)
    requires ValidConfig(c) && Legal(c, acts) && Legal(c, acts + [a]) && Earned(c, acts, k)
    requires Syncs(After(c, acts), k, ChangeOwner) || AdvancesTo(After(c, acts), k, a, PublishVolume)
    requires IsSyncing(After(c, acts + [a]), k)
    ensures WasMounted(c, acts + [a], |acts| + 1, k)
  {
    var longer := acts + [a];
    Ends(c, acts, a);
    hide At, Legal;
    if AdvancesTo(After(c, acts), k, a, PublishVolume) {
      assert Mounted(c, longer, |acts|, |acts| + 1, k);
    } else {
      var i: nat :| Mounted(c, acts, i, |acts|, k);
      MountedLater(c, acts, longer, i, |acts|, k);
      assert Mounted(c, longer, i, |acts| + 1, k);
    }
  }

  lemma NowOwned(c: Config, acts: seq<Action>, a: Action, k: Target)
    requires ValidConfig(c) && Legal(c, acts) && Legal(c, acts + [a]) && WasMounted(c, acts, |acts|, k)
    requires AdvancesTo(After(c, acts), k, a, ChangeOwner) && IsSyncing(After(c, acts + [a]), k)
    ensures WasOwned(c, acts + [a], |acts| + 1, k)
  {
    var longer := acts + [a];
    Ends(c, acts, a);
    hide At, Legal, Throughout;
    var i: nat :| Mounted(c, acts, i, |acts|, k);
    MountedLater(c, acts, longer, i, |acts|, k);
    OneMore(c, longer, i, |acts|, k);
    assert Succeeds(c, longer, |acts|, k, ChangeOwner);
    hide AdvancesTo, IsSyncing;
    assert MountedThenOwned(c, longer, i, |acts|, |acts| + 1, k);
  }

  lemma OwnedThen(c: Config, acts: seq<Action>, a: Action, i: nat, j: nat, k: Target)
    requires ValidConfig(c) && Legal(c, acts) && Legal(c, acts + [a]) && MountedThenOwned(c, acts, i, j, |acts|, k)
    requires IsSyncing(After(c, acts + [a]), k)
    ensures MountedThenOwned(c, acts + [a], i, j, |acts| + 1, k)
  {
    hide At, Legal, After, IsSyncing, MountedThenOwned;
    var longer := acts + [a];
    Ends(c, acts, a);
    OwnedLater(c, acts, longer, i, j, |acts|, k);
    OwnedOneMore(c, longer, i, j, |acts|, k);
  }

  lemma StillOwned(c: Config, acts: seq<Action>, a: Action, k: Target)
    requires ValidConfig(c) && Legal(c, acts) && Legal(c, acts + [a]) && WasOwned(c, acts, |acts|, k)
    requires IsSyncing(After(c, acts + [a]), k)
    ensures WasOwned(c, acts + [a], |acts| + 1, k)
  {
    hide Legal, After, IsSyncing, MountedThenOwned;
    var i: nat, j: nat :| MountedThenOwned(c, acts, i, j, |acts|, k);
    OwnedThen(c, acts, a, i, j, k);
  }

  lemma OwnedOneMore(c: Config, acts: seq<Action>, i: nat, j: nat, n: nat, k: Target)
    requires ValidConfig(c) && Legal(c, acts) && MountedThenOwned(c, acts, i, j, n, k)
    requires n < |acts| && IsSyncing(At(c, acts, n + 1), k)
    ensures MountedThenOwned(c, acts, i, j, n + 1, k)
  {
    hide At, Throughout, Succeeds, IsSyncing;
    OneMore(c, acts, i, n, k);
  }

  lemma OwnershipEarned(c: Config, acts: seq<Action>, a: Action, k: Target)
    requires ValidConfig(c) && Legal(c, acts) && Legal(c, acts + [a]) && Earned(c, acts, k)
    requires Syncs(After(c, acts), k, Annotate) || AdvancesTo(After(c, acts), k, a, ChangeOwner)
    requires IsSyncing(After(c, acts + [a]), k)
    ensures WasOwned(c, acts + [a], |acts| + 1, k)
  {
    hide Legal, After, WasMounted, WasOwned, Ready;
    if AdvancesTo(After(c, acts), k, a, ChangeOwner) {
      NowOwned(c, acts, a, k);
    } else {
      StillOwned(c, acts, a, k);
    }
  }

  lemma OneMore(c: Config, acts: seq<Action>, i: nat, n: nat, k: Target)
    requires ValidConfig(c) && Legal(c, acts) && Throughout(c, acts, i, n, k)
    requires n < |acts| && IsSyncing(At(c, acts, n + 1), k)
    ensures Throughout(c, acts, i, n + 1, k)
  {
    hide At;
  }

  lemma MarkEarned(c: Config, acts: seq<Action>, a: Action, k: Target)
    requires ValidConfig(c) && Legal(c, acts) && Legal(c, acts + [a]) && Earned(c, acts, k)
    requires k in After(c, acts).marked || Marks(After(c, acts), k, a)
    ensures Ready(c, acts + [a], k)
  {
    var longer := acts + [a];
    Ends(c, acts, a);
    hide At, Legal;
    if k in After(c, acts).marked {
      ReadyLater(c, acts, longer, k);
    } else {
      var i: nat, j: nat :| MountedThenOwned(c, acts, i, j, |acts|, k);
      OwnedLater(c, acts, longer, i, j, |acts|, k);
      StillPublished(c, acts, k);
      assert MarkedBySync(c, longer, i, j, |acts|, k);
    }
  }

  lemma StillPublished(c: Config, acts: seq<Action>, k: Target)
    requires ValidConfig(c) && Legal(c, acts) && Syncs(After(c, acts), k, Annotate)
    ensures IsPublished(c, After(c, acts), k)
  {
    InvRun(c, acts);
    hide Legal, After;
    assert VolInv(c, After(c, acts), k.0);
  }

  lemma {:induction false} RunEarns(c: Config, acts: seq<Action>, k: Target)
    requires ValidConfig(c) && Legal(c, acts)
    ensures Earned(c, acts, k)
  {
    if acts == [] {
      InitEarns(c, k);
    } else {
      hide Apply, Enabled, ValidConfig, Mounted, MountedThenOwned, Ready, Marks, AdvancesTo;
      var before, a := acts[..|acts| - 1], acts[|acts| - 1];
      assert acts == before + [a];
      RunEarns(c, before, k);
      StepShape(c, After(c, before), a, k);
      if Syncs(After(c, acts), k, ChangeOwner) { MountEarned(c, before, a, k); }
      if Syncs(After(c, acts), k, Annotate) { OwnershipEarned(c, before, a, k); }
      if k in After(c, acts).marked { MarkEarned(c, before, a, k); }
    }
  }

  lemma InitEarns(c: Config, k: Target)
    requires ValidConfig(c)
    ensures Earned(c, [], k)
  {
  }

  /** A volume is marked only by a sync that published it and, after that, settled the ownership of its files;
      and when the mark is set the volume is still published. */
  lemma MarkedMeansReady(c: Config, acts: seq<Action>, k: Target)
    requires ValidConfig(c) && Legal(c, acts) && k in After(c, acts).marked
    ensures Ready(c, acts, k)
  {
    RunEarns(c, acts, k);
  }
}
