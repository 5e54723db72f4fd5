/** NodeUnstageVolume while calls and syncs of other volumes go on: when what it leaves of the volume's own records is
    independent of errors and crashes, exactly. */
module SharedUnstaging {
  import opened Kubernetes
  import opened NodeLifecycle
  import opened StateFiles
  import opened NodeSafety
  import opened NodeSteps
  import opened NodeTeardown
  import opened NodeUnstaging
  import opened SharedTeardown
  import opened NodeRepairs
  import opened TornFiles

  /** Attempts to unstage the volume, errors, crashes and restarts, and all that other volumes do. */
  predicate AmongOthers(a: Action, v: Vol, path: Path) {
    UnstageAttempt(a, v, path) || (!a.Crash? && !a.Restart? && LaneOf(a).vol != v)
  }

  predicate NothingButUnstage(s: State, v: Vol, path: Path) {
    && SyncOf(v) !in s.busy
    && (CallOn(v) in s.busy ==> s.busy[CallOn(v)].Unstage? && s.busy[CallOn(v)].path == path)
  }

  /** The files and records of one volume's bind and staging path. */
  datatype Records = Records(bindFile: Option<Content<Backend>>, bind: Option<Backend>,
                             stagingFile: Option<Content<Path>>, staging: Option<Path>)

  ghost function RecordsOf(s: State, v: Vol): Records {
    Records(Entry(s.disk.binds, v), Entry(Mem(s).binds, v), Entry(s.disk.staging, v), Entry(Mem(s).staging, v))
  }

  /** What an undisturbed call makes of them. */
  function Unstaged(c: Config, r: Records, v: Vol): Records {
    var clears := v in c.stages || r.bind.None?;
    Records(if r.bind.Some? then None else r.bindFile, None,
            if clears then None else r.stagingFile, if clears then None else r.staging)
  }

  /** A file of the volume, other than that of its bind, is torn. */
  ghost predicate OwnTorn(s: State, v: Vol) {
    FileIs(s.disk.staging, v, Torn) || exists u :: FileIs(s.disk.targets, (v, u), Torn)
  }

  /** The backend stages, or the volume is not both bound and staged, or a torn file of its own, which nothing removes
      meanwhile, makes every crash final. */
  ghost predicate Decided(c: Config, s: State, v: Vol) {
    v in c.stages || v !in Mem(s).binds || v !in Mem(s).staging || OwnTorn(s, v)
  }

  ghost predicate UnstageGoesOn(c: Config, s: State, v: Vol, path: Path, goal: Records) {
    && Inv(c, s) && NothingButUnstage(s, v, path)
    && (Running(s) || CanStart(s.disk) ==> Unstaged(c, RecordsOf(s, v), v) == goal && Decided(c, s, v))
  }

  lemma OthersGoOn(c: Config, s: State, t: State, v: Vol, path: Path, goal: Records)
    requires UnstageGoesOn(c, s, v, path, goal) && SameFor(c, s, t, v) && Inv(c, t)
    ensures UnstageGoesOn(c, t, v, path, goal)
  {
    hide Inv;
    if OwnTorn(s, v) && !FileIs(s.disk.staging, v, Torn) {
      var u :| FileIs(s.disk.targets, (v, u), Torn);
      assert SameTarget(c, s, t, (v, u));
    }
  }

  lemma OwnUnstage(c: Config, s: State, v: Vol, path: Path, ok: bool, took: bool, goal: Records)
    requires UnstageGoesOn(c, s, v, path, goal) && CallOn(v) in s.busy && Running(s)
    ensures var t := StepUnstage(c, s, v, s.busy[CallOn(v)], ok, took);
            && (UnstageDone(c, s, Advance(CallOn(v), ok, took), v) ==> Running(t) && RecordsOf(t, v) == goal)
            && (UnstageDone(c, s, Advance(CallOn(v), ok, took), v) || !Inv(c, t) || UnstageGoesOn(c, t, v, path, goal))
  {
    VolOf(c, s, v);
    assert LaneInv(c, s, CallOn(v));
    hide Inv, VolInv, LoadAll;
    var t := StepUnstage(c, s, v, s.busy[CallOn(v)], ok, took);
    if OwnTorn(s, v) && s.busy[CallOn(v)].unstageStep in {RemoveBind, ForgetBind} { TornStays(c, s, v, ok, took); }
    hide OwnTorn;
  }

  lemma TornStays(c: Config, s: State, v: Vol, ok: bool, took: bool)
    requires Running(s) && CallOn(v) in s.busy && s.busy[CallOn(v)].Unstage?
    requires OwnTorn(s, v) && s.busy[CallOn(v)].unstageStep in {RemoveBind, ForgetBind}
    ensures OwnTorn(StepUnstage(c, s, v, s.busy[CallOn(v)], ok, took), v)
  {
    var t := StepUnstage(c, s, v, s.busy[CallOn(v)], ok, took);
    assert t.disk.staging == s.disk.staging && t.disk.targets == s.disk.targets;
  }

  lemma CrashGoesOn(c: Config, s: State, v: Vol, path: Path, goal: Records)
    requires UnstageGoesOn(c, s, v, path, goal) && Running(s)
    ensures var t := s.(memory := None, busy := map[]); Inv(c, t) ==> UnstageGoesOn(c, t, v, path, goal)
  {
    VolOf(c, s, v);
    assert LaneInv(c, s, CallOn(v));
    LoadAllMaps(s.disk);
    hide Inv, LoadAll;
  }

  lemma RequestGoesOn(c: Config, s: State, v: Vol, path: Path, goal: Records)
    requires ValidConfig(c) && UnstageGoesOn(c, s, v, path, goal) && Sensible(c, s) && Enabled(c, s, NodeUnstage(v, path))
    ensures var t := Apply(c, s, NodeUnstage(v, path)); Inv(c, t) ==> UnstageGoesOn(c, t, v, path, goal)
  {
    hide Inv, LoadAll, Step;
  }

  lemma UnstageOneStep(c: Config, s: State, a: Action, v: Vol, path: Path, goal: Records)
    requires ValidConfig(c) && UnstageGoesOn(c, s, v, path, goal)
    requires Sensible(c, s) && Enabled(c, s, a) && AmongOthers(a, v, path)
    ensures !UnstageDone(c, s, a, v) ==> UnstageGoesOn(c, Apply(c, s, a), v, path, goal)
    ensures UnstageDone(c, s, a, v) ==> RecordsOf(Apply(c, s, a), v) == goal
  {
    ActionKeepsInv(c, s, a);
    hide Inv, LoadAll, StepUnstage, StepPublish, StepUnpublish, StepSync, StepStage, Decided;
    if !a.Crash? && !a.Restart? && LaneOf(a).vol != v {
      OtherVolume(c, s, a, v);
      OthersGoOn(c, s, Apply(c, s, a), v, path, goal);
    } else {
      match a
      case Crash => CrashGoesOn(c, s, v, path, goal);
      case Restart => RestartGoesOn(c, s, v, path, goal);
      case Advance(_, ok, took) => OwnUnstage(c, s, v, path, ok, took, goal);
      case NodeUnstage(_, _) => RequestGoesOn(c, s, v, path, goal);
    }
  }

  lemma RestartGoesOn(c: Config, s: State, v: Vol, path: Path, goal: Records)
    requires UnstageGoesOn(c, s, v, path, goal) && !Running(s) && CanStart(s.disk)
    ensures var t := s.(memory := Some(LoadAll(s.disk))); Inv(c, t) ==> UnstageGoesOn(c, t, v, path, goal)
  {
    hide Inv, LoadAll;
  }

  // The first success.

  /** A run in which the unstage does not succeed yet. */
  ghost predicate NoSuccess(c: Config, s: State, acts: seq<Action>, v: Vol, path: Path)
    requires ValidConfig(c)
    decreases |acts|
  {
    acts == [] || (
      && AmongOthers(acts[0], v, path) && !UnstageDone(c, s, acts[0], v)
      && Sensible(c, s) && Enabled(c, s, acts[0]) && NoSuccess(c, Apply(c, s, acts[0]), acts[1..], v, path))
  }

  lemma {:induction false} NoSuccessIsLegal(c: Config, s: State, acts: seq<Action>, v: Vol, path: Path)
    requires ValidConfig(c) && NoSuccess(c, s, acts, v, path)
    ensures LegalFrom(c, s, acts)
    decreases |acts|
  {
    hide Apply, Enabled, ValidConfig;
    if acts != [] { NoSuccessIsLegal(c, Apply(c, s, acts[0]), acts[1..], v, path); }
  }

  ghost predicate SucceedsWith(c: Config, t: State, last: Action, v: Vol, r: Records)
    requires ValidConfig(c)
  {
    Sensible(c, t) && Enabled(c, t, last) && UnstageDone(c, t, last, v) && r == RecordsOf(Apply(c, t, last), v)
  }

  /** After `acts` the unstage succeeds, for the first time, and leaves `r`. */
  ghost predicate Leaves(c: Config, s: State, acts: seq<Action>, v: Vol, path: Path, r: Records)
    requires ValidConfig(c)
  {
    && NoSuccess(c, s, acts, v, path) && LegalFrom(c, s, acts)
    && exists last :: SucceedsWith(c, Reach(c, s, acts), last, v, r)
  }

  lemma {:induction false} LeavesGoal(c: Config, s: State, acts: seq<Action>, v: Vol, path: Path, r: Records, goal: Records)
    requires ValidConfig(c) && UnstageGoesOn(c, s, v, path, goal) && Leaves(c, s, acts, v, path, r)
    ensures r == goal
    decreases |acts|
  {
    hide UnstageGoesOn, Apply, Enabled, ValidConfig, UnstageDone, RecordsOf, AmongOthers;
    if acts == [] {
      var last :| SucceedsWith(c, s, last, v, r);
      assert AmongOthers(last, v, path) by { DoneIsTry(c, s, last, v, path); }
      UnstageOneStep(c, s, last, v, path, goal);
    } else {
      UnstageOneStep(c, s, acts[0], v, path, goal);
      var last :| SucceedsWith(c, Reach(c, s, acts), last, v, r);
      assert SucceedsWith(c, Reach(c, Apply(c, s, acts[0]), acts[1..]), last, v, r);
      LeavesGoal(c, Apply(c, s, acts[0]), acts[1..], v, path, r, goal);
    }
  }

  lemma DoneIsTry(c: Config, t: State, a: Action, v: Vol, path: Path)
    requires UnstageDone(c, t, a, v)
    ensures AmongOthers(a, v, path)
  {
  }

  /** When the outcome is decided, the first success leaves what an undisturbed call would have left, whatever errors
      and crashes came before it, and whatever went on elsewhere. */
  lemma UnstageConvergesAmongOthers(c: Config, past: seq<Action>, acts: seq<Action>, v: Vol, path: Path, r: Records)
    requires ValidConfig(c) && Legal(c, past) && NothingButUnstage(After(c, past), v, path) && Decided(c, After(c, past), v)
    requires Leaves(c, After(c, past), acts, v, path, r)
    ensures r == Unstaged(c, RecordsOf(After(c, past), v), v)
  {
    InvRun(c, past);
    var s := After(c, past);
    hide Legal, After, Inv, Leaves, RecordsOf, Unstaged;
    LeavesGoal(c, s, acts, v, path, r, Unstaged(c, RecordsOf(s, v), v));
  }

  // When the outcome is not decided.

  lemma {:induction false} OthersFirst(c: Config, s: State, acts: seq<Action>, v: Vol, path: Path)
    requires ValidConfig(c) && LegalFrom(c, s, acts)
    requires forall a <- acts :: !a.Crash? && !a.Restart? && LaneOf(a).vol != v
    ensures NoSuccess(c, s, acts, v, path)
    decreases |acts|
  {
    hide Apply, Enabled, ValidConfig;
    if acts != [] {
      assert acts[0] in acts;
      assert AmongOthers(acts[0], v, path) && !UnstageDone(c, s, acts[0], v);
      OthersFirst(c, Apply(c, s, acts[0]), acts[1..], v, path);
    }
  }

  lemma {:induction false} ThenLeaves(c: Config, s: State, acts: seq<Action>, more: seq<Action>, v: Vol, path: Path, r: Records)
    requires ValidConfig(c) && NoSuccess(c, s, acts, v, path) && LegalFrom(c, s, acts)
    requires Leaves(c, Reach(c, s, acts), more, v, path, r)
    ensures Leaves(c, s, acts + more, v, path, r)
    decreases |acts|
  {
    hide Apply, Enabled, ValidConfig, UnstageDone, AmongOthers, SucceedsWith;
    if acts == [] {
      assert acts + more == more;
    } else {
      assert (acts + more)[1..] == acts[1..] + more && (acts + more)[0] == acts[0];
      var t := Apply(c, s, acts[0]);
      ThenLeaves(c, t, acts[1..], more, v, path, r);
      var last :| SucceedsWith(c, Reach(c, t, acts[1..] + more), last, v, r);
      assert SucceedsWith(c, Reach(c, s, acts + more), last, v, r);
    }
  }

  lemma {:induction false} FailingIsNoSuccess(c: Config, s: State, tries: seq<Action>, v: Vol, path: Path)
    requires ValidConfig(c) && Failing(c, s, tries, v, path)
    ensures NoSuccess(c, s, tries, v, path)
    decreases |tries|
  {
    hide Apply, Enabled, ValidConfig, UnstageDone, UnstageAttempt;
    if tries != [] { FailingIsNoSuccess(c, Apply(c, s, tries[0]), tries[1..], v, path); }
  }

  lemma FirstSuccessLeaves(c: Config, s: State, tries: seq<Action>, last: Action, v: Vol, path: Path)
    requires ValidConfig(c) && FirstSuccess(c, s, tries, last, v, path)
    ensures Leaves(c, s, tries, v, path, RecordsOf(Outcome(c, s, tries, last, v, path), v))
  {
    hide Failing, NoSuccess, LegalFrom, Reach, Apply, Enabled, UnstageDone, RecordsOf;
    FailingIsNoSuccess(c, s, tries, v, path);
    assert SucceedsWith(c, Reach(c, s, tries), last, v, RecordsOf(Outcome(c, s, tries, last, v, path), v));
  }

  /** Two outcomes, one of which keeps the staging path and the other does not. */
  lemma TwoOutcomes(c: Config, s: State, v: Vol, path: Path)
    returns (kept: seq<Action>, r1: Records, cut: seq<Action>, r2: Records)
    requires Unstageable(c, s, v)
    ensures Leaves(c, s, kept, v, path, r1) && Leaves(c, s, cut, v, path, r2) && r1.staging.Some? && r2.staging.None?
  {
    hide Unstageable, Reloaded, FirstSuccess, Outcome, LoadAll, Leaves;
    kept := [NodeUnstage(v, path), Advance(CallOn(v), true, true)];
    var ok := Advance(CallOn(v), true, true);
    assert ValidConfig(c) by { IsValid(c, s, v); }
    UndisturbedKeepsStaging(c, s, v, path);
    RetryAfterCrash(c, s, v, path);
    CrashMidway(c, s, v, path, kept, ok);
    cut := [NodeUnstage(v, path), ok, Crash, Restart] + kept;
    r1 := RecordsOf(Outcome(c, s, kept, ok, v, path), v);
    r2 := RecordsOf(Outcome(c, s, cut, ok, v, path), v);
    FirstSuccessLeaves(c, s, kept, ok, v, path);
    FirstSuccessLeaves(c, s, cut, ok, v, path);
  }

  lemma IsValid(c: Config, s: State, v: Vol)
    requires Unstageable(c, s, v)
    ensures ValidConfig(c)
  {
  }

  /** Once the other volumes' files are in order, a crash in the middle of the call can be recovered from. */
  lemma BecomesUnstageable(c: Config, s: State, t: State, v: Vol)
    requires ValidConfig(c) && Running(s) && Inv(c, t) && SameFor(c, s, t, v) && !Decided(c, s, v)
    requires CallOn(v) !in s.busy && SyncOf(v) !in s.busy && !Outstanding(s, v)
    requires forall slot: Slot | slot.vol != v :: !TornAt(t, slot)
    ensures Unstageable(c, t, v)
  {
    OutstandingFrame(c, s, t, v);
    OperationsAreSensible(c, t);
    var u := t.(disk := t.disk.(binds := t.disk.binds - {v}));
    forall slot: Slot ensures !TornAt(u, slot) {
      assert slot.vol != v ==> !TornAt(t, slot);
      match slot
      case BindOf(_) =>
      case StagingOf(_) =>
      case TargetOf(w, p) => assert w == v ==> SameTarget(c, s, t, (v, p));
    }
    StartsWithoutTorn(u);
    hide Inv;
  }

  /** Whatever errors and crashes come first, and whatever goes on elsewhere, the first success leaves the same. */
  ghost predicate LeavesOneThing(c: Config, s: State, v: Vol, path: Path)
    requires ValidConfig(c)
  {
    forall a1, r1, a2, r2 | Leaves(c, s, a1, v, path, r1) && Leaves(c, s, a2, v, path, r2) :: r1 == r2
  }

  /** From any reachable state in which the volume is at rest, whatever the others are doing: what an unstage leaves of
      its records is independent of errors, crashes and the others exactly when it is decided. */
  lemma UnstageOutcomeAmongOthers(c: Config, past: seq<Action>, v: Vol, path: Path)
    requires ValidConfig(c) && Legal(c, past) && Running(After(c, past)) && !Outstanding(After(c, past), v)
    requires CallOn(v) !in After(c, past).busy && SyncOf(v) !in After(c, past).busy
    ensures LeavesOneThing(c, After(c, past), v, path) <==> Decided(c, After(c, past), v)
  {
    var s := After(c, past);
    hide Leaves, Decided, Legal, After;
    if Decided(c, s, v) {
      forall a1, r1, a2, r2 | Leaves(c, s, a1, v, path, r1) && Leaves(c, s, a2, v, path, r2) ensures r1 == r2 {
        UnstageConvergesAmongOthers(c, past, a1, v, path, r1);
        UnstageConvergesAmongOthers(c, past, a2, v, path, r2);
      }
    } else {
      UndecidedLeavesTwo(c, past, v, path);
    }
  }

  lemma UndecidedLeavesTwo(c: Config, past: seq<Action>, v: Vol, path: Path)
    requires ValidConfig(c) && Legal(c, past) && Running(After(c, past)) && !Outstanding(After(c, past), v)
    requires CallOn(v) !in After(c, past).busy && SyncOf(v) !in After(c, past).busy && !Decided(c, After(c, past), v)
    ensures !LeavesOneThing(c, After(c, past), v, path)
  {
    var s := After(c, past);
    InvRun(c, past);
    Begin(c, s, v);
    forall slot | TornAt(s, slot) ensures Owned(c, slot) { TornIsOwned(c, past, slot); }
    hide Leaves, Decided, Legal, After, TornAt, Owned, Outstanding;
    var acts := RepairAll(c, s, [], v);
    var t := Reach(c, s, acts);
    BecomesUnstageable(c, s, t, v);
    var kept, r1, cut, r2 := TwoOutcomes(c, t, v, path);
    OthersFirst(c, s, acts, v, path);
    ThenLeaves(c, s, acts, kept, v, path, r1);
    ThenLeaves(c, s, acts, cut, v, path, r2);
  }
}
