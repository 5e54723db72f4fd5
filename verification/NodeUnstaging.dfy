/** NodeUnstageVolume while nothing else goes on. With a backend that has STAGE_UNSTAGE_VOLUME, retries converge as those
    of an unpublish do; without it, what is left behind can depend on where a call was cut short, and
    it is said exactly when. */
module NodeUnstaging {
  import opened Kubernetes
  import opened StateFiles
  import opened NodeLifecycle
  import opened NodeSafety
  import opened NodeSteps
  import opened NodeTheorems
  import opened NodeTeardown

  predicate UnstageAttempt(a: Action, v: Vol, path: Path) {
    a == NodeUnstage(v, path) || (a.Advance? && a.lane == CallOn(v)) || a.Crash? || a.Restart?
  }

  predicate AtStep(s: State, v: Vol, steps: set<UnstageStep>) {
    CallOn(v) in s.busy && s.busy[CallOn(v)].Unstage? && s.busy[CallOn(v)].unstageStep in steps
  }

  predicate OnlyUnstaging(s: State, v: Vol, path: Path) {
    && s.busy.Keys <= {CallOn(v)} && (CallOn(v) in s.busy ==> s.busy[CallOn(v)].Unstage? && s.busy[CallOn(v)].path == path)
    && (AtStep(s, v, {RemoveBind, ForgetBind}) ==> Running(s) && v in s.memory.value.binds)
    && (AtStep(s, v, {RemoveStaging, ForgetStaging}) ==> Running(s) && v !in s.memory.value.binds)
  }

  /** Only a backend that stages is asked to unstage, and then its stage is gone before the bind goes. */
  predicate StageGone(c: Config, s: State, v: Vol, path: Path) {
    && (AtStep(s, v, {CallUnstage}) ==> v in c.stages)
    && (AtStep(s, v, {RemoveBind, ForgetBind}) && v in c.stages && Running(s) && v in s.memory.value.binds ==>
          (s.memory.value.binds[v].driverName, v, path) !in s.staged)
  }

  /** The state after an undisturbed call. */
  ghost function UnstageGoal(c: Config, s: State, v: Vol, path: Path): State {
    var m := Mem(s);
    var bound := v in m.binds;
    var clears := v in c.stages || !bound;
    State(
      s.disk.(binds := if bound then s.disk.binds - {v} else s.disk.binds,
              staging := if clears then s.disk.staging - {v} else s.disk.staging),
      Some(m.(binds := m.binds - {v}, staging := if clears then m.staging - {v} else m.staging)),
      s.dirs, if bound && v in c.stages then s.staged - {(m.binds[v].driverName, v, path)} else s.staged,
      s.published, s.outstanding, map[], s.marked)
  }

  /** The backend stages, or the volume is not both bound and staged, or some file other than that of its bind is
      torn, so that a crash in the middle of the call is the end of the node. */
  ghost predicate Independent(c: Config, s: State, v: Vol) {
    || v in c.stages || v !in Mem(s).binds || v !in Mem(s).staging
    || !CanStart(s.disk.(binds := s.disk.binds - {v}))
  }

  ghost predicate UnstageHead(c: Config, t: State, v: Vol, path: Path, goal: State) {
    && Inv(c, t) && OnlyUnstaging(t, v, path) && StageGone(c, t, v, path)
    && (Running(t) || CanStart(t.disk) ==> UnstageGoal(c, t, v, path) == goal && Independent(c, t, v))
  }

  predicate UnstageDone(c: Config, t: State, a: Action, v: Vol) {
    && a.Advance? && a.lane == CallOn(v)
    && (AtStep(t, v, {ForgetStaging}) || (AtStep(t, v, {ForgetBind}) && v !in c.stages))
  }

  lemma UnstageFacts(c: Config, t: State, v: Vol, path: Path)
    requires Inv(c, t) && OnlyUnstaging(t, v, path) && CallOn(v) in t.busy
    ensures Running(t)
    ensures var m, step := t.memory.value, t.busy[CallOn(v)].unstageStep;
            && (step == CallUnstage ==> v in m.binds)
            && (step == ForgetBind ==> v !in t.disk.binds)
            && (step == ForgetStaging ==> v !in t.disk.staging)
  {
    assert VolInv(c, t, v);
  }

  lemma UnstageKeepsShape(c: Config, t: State, v: Vol, path: Path, ok: bool, took: bool)
    requires Inv(c, t) && OnlyUnstaging(t, v, path) && StageGone(c, t, v, path) && CallOn(v) in t.busy
    ensures Running(t)
    ensures var n := StepUnstage(c, t, v, t.busy[CallOn(v)], ok, took);
            OnlyUnstaging(n, v, path) && StageGone(c, n, v, path) && Running(n)
  {
    UnstageFacts(c, t, v, path);
    hide Inv;
  }

  lemma UnstageKeepsGoal(c: Config, t: State, v: Vol, path: Path, ok: bool, took: bool)
    requires Inv(c, t) && OnlyUnstaging(t, v, path) && StageGone(c, t, v, path) && CallOn(v) in t.busy
    requires !UnstageDone(c, t, Advance(CallOn(v), ok, took), v) || v in c.stages
    ensures Running(t)
    ensures var n := StepUnstage(c, t, v, t.busy[CallOn(v)], ok, took);
            && UnstageGoal(c, n, v, path) == UnstageGoal(c, t, v, path)
            && (Independent(c, t, v) ==> Independent(c, n, v))
  {
    UnstageFacts(c, t, v, path);
    hide Inv, LoadAll, CanStart;
    var n := StepUnstage(c, t, v, t.busy[CallOn(v)], ok, took);
    var g, h := UnstageGoal(c, n, v, path), UnstageGoal(c, t, v, path);
    assert n.disk.binds - {v} == t.disk.binds - {v};
    assert g.disk.binds == h.disk.binds && g.disk.staging == h.disk.staging;
    assert g.memory.value.binds == h.memory.value.binds && g.memory.value.staging == h.memory.value.staging;
    assert g.staged == h.staged;
  }

  lemma UnstageReachesGoal(c: Config, t: State, v: Vol, path: Path, ok: bool, took: bool)
    requires Inv(c, t) && OnlyUnstaging(t, v, path) && UnstageDone(c, t, Advance(CallOn(v), ok, took), v)
    ensures Running(t)
    ensures StepUnstage(c, t, v, t.busy[CallOn(v)], ok, took) == UnstageGoal(c, t, v, path)
  {
    UnstageFacts(c, t, v, path);
    hide Inv, LoadAll;
    var n := StepUnstage(c, t, v, t.busy[CallOn(v)], ok, took);
    var h := UnstageGoal(c, t, v, path);
    assert n.busy == map[];
    assert n.disk.binds == h.disk.binds && n.disk.staging == h.disk.staging;
    assert n.memory.value.binds == h.memory.value.binds && n.memory.value.staging == h.memory.value.staging;
  }

  /** Loading in the middle of an unstage loses at most what is being removed. */
  lemma ReloadWhileUnstaging(c: Config, t: State, v: Vol, path: Path)
    requires ValidConfig(c) && Inv(c, t) && OnlyUnstaging(t, v, path) && Running(t) && CanStart(t.disk)
    ensures var m, n := t.memory.value, LoadAll(t.disk);
            && n.targets == m.targets && n.index == m.index
            && n.staging - {v} == m.staging - {v} && n.binds - {v} == m.binds - {v}
            && (v in n.binds ==> v in m.binds && n.binds[v] == m.binds[v])
            && (v in m.binds && v !in n.binds ==> v !in t.disk.binds && AtStep(t, v, {ForgetBind}))
            && (v in m.binds ==> SameAt(n.staging, m.staging, v) && (v in t.disk.staging ==> v in m.staging))
  {
    hide ValidConfig, LoadAll, Inverse;
    var m, n := t.memory.value, LoadAll(t.disk);
    LoadAllMaps(t.disk);
    forall w | w != v ensures Agree(t.disk.binds, m.binds, w) && Agree(t.disk.staging, m.staging, w) {
      assert VolInv(c, t, w);
    }
    forall k ensures Agree(t.disk.targets, m.targets, k) {
      assert VolInv(c, t, k.0) && TargetInv(c, t, (k.0, k.1));
    }
    SameMapsBut(t.disk.binds, m.binds, v);
    SameMapsBut(t.disk.staging, m.staging, v);
    SameMaps(t.disk.targets, m.targets);
    LoadedIndex(c, t);
    SameIndexes(m, n);
    LoadedOwn(c, t, v, path);
  }

  lemma LoadedOwn(c: Config, t: State, v: Vol, path: Path)
    requires Inv(c, t) && OnlyUnstaging(t, v, path) && Running(t) && CanStart(t.disk)
    ensures var m, n := t.memory.value, Load(t.disk.binds);
            && (v in n ==> v in m.binds && n[v] == m.binds[v])
            && (v in m.binds && v !in n ==> v !in t.disk.binds && AtStep(t, v, {ForgetBind}))
            && (v in m.binds ==> SameAt(Load(t.disk.staging), m.staging, v) && (v in t.disk.staging ==> v in m.staging))
  {
    assert VolInv(c, t, v);
  }

  lemma SameButAt<K, R>(m: map<K, R>, n: map<K, R>, k: K)
    requires m - {k} == n - {k} && SameAt(m, n, k)
    ensures m == n
  {
    assert forall j | j != k :: j in m <==> j in m - {k};
    assert forall j | j != k :: j in n <==> j in n - {k};
    assert forall j <- m | j != k :: m[j] == (m - {k})[j];
    assert forall j <- n | j != k :: n[j] == (n - {k})[j];
  }

  lemma UnstageGoalSurvivesCrash(c: Config, t: State, v: Vol, path: Path)
    requires ValidConfig(c) && Inv(c, t) && OnlyUnstaging(t, v, path) && StageGone(c, t, v, path)
    requires Running(t) && CanStart(t.disk) && Independent(c, t, v)
    ensures var n := t.(memory := None, busy := map[]);
            UnstageGoal(c, n, v, path) == UnstageGoal(c, t, v, path) && Independent(c, n, v)
  {
    ReloadWhileUnstaging(c, t, v, path);
    hide Inv, ValidConfig, LoadAll, IndexExact;
    var m, l := t.memory.value, LoadAll(t.disk);
    if v in m.binds {
      SameButAt(m.staging, l.staging, v);
      if v in l.binds {
        SameButAt(m.binds, l.binds, v);
      } else {
        assert t.disk.binds - {v} == t.disk.binds && t.disk.(binds := t.disk.binds) == t.disk;
        assert v in c.stages || v !in m.staging;
        assert v !in m.staging ==> l.staging - {v} == l.staging && t.disk.staging - {v} == t.disk.staging;
      }
    }
    var g := UnstageGoal(c, t.(memory := None, busy := map[]), v, path);
    var h := UnstageGoal(c, t, v, path);
    assert g.disk.binds == h.disk.binds && g.disk.staging == h.disk.staging;
    assert g.memory.value.binds == h.memory.value.binds && g.memory.value.staging == h.memory.value.staging;
    assert g.staged == h.staged;
  }

  lemma UnstageRequestKeepsGoal(c: Config, t: State, v: Vol, path: Path)
    requires ValidConfig(c) && OnlyUnstaging(t, v, path) && Sensible(c, t) && Enabled(c, t, NodeUnstage(v, path))
    ensures var n := Apply(c, t, NodeUnstage(v, path));
            && OnlyUnstaging(n, v, path) && Running(n) && (StageGone(c, t, v, path) ==> StageGone(c, n, v, path))
            && UnstageGoal(c, n, v, path) == UnstageGoal(c, t, v, path)
            && (Independent(c, n, v) <==> Independent(c, t, v))
  {
    hide LoadAll, Step;
  }

  lemma UnstageStep(c: Config, t: State, v: Vol, path: Path, a: Action, goal: State)
    requires ValidConfig(c) && UnstageHead(c, t, v, path, goal)
    requires Sensible(c, t) && Enabled(c, t, a) && UnstageAttempt(a, v, path)
    ensures !UnstageDone(c, t, a, v) || v in c.stages ==> UnstageHead(c, Apply(c, t, a), v, path, goal)
    ensures UnstageDone(c, t, a, v) ==> Apply(c, t, a) == goal
  {
    hide Inv, LoadAll, StepUnstage, UnstageGoal, Independent;
    ActionKeepsInv(c, t, a);
    match a
    case NodeUnstage(_, _) => UnstageRequestKeepsGoal(c, t, v, path);
    case Advance(_, ok, took) =>
      UnstageKeepsShape(c, t, v, path, ok, took);
      if !UnstageDone(c, t, a, v) || v in c.stages { UnstageKeepsGoal(c, t, v, path, ok, took); }
      if UnstageDone(c, t, a, v) { UnstageReachesGoal(c, t, v, path, ok, took); }
    case Crash => if CanStart(t.disk) { UnstageGoalSurvivesCrash(c, t, v, path); }
    case Restart => UnstageGoalSurvivesRestart(c, t, v, path);
  }

  lemma UnstageGoalSurvivesRestart(c: Config, t: State, v: Vol, path: Path)
    requires !Running(t)
    ensures var n := t.(memory := Some(LoadAll(t.disk)));
            UnstageGoal(c, n, v, path) == UnstageGoal(c, t, v, path) && (Independent(c, n, v) <==> Independent(c, t, v))
  {
  }

  // The first success.

  /** Attempts none of which succeeds. */
  ghost predicate Failing(c: Config, s: State, tries: seq<Action>, v: Vol, path: Path)
    requires ValidConfig(c)
    decreases |tries|
  {
    tries == [] || (
      && UnstageAttempt(tries[0], v, path) && !UnstageDone(c, s, tries[0], v)
      && Sensible(c, s) && Enabled(c, s, tries[0]) && Failing(c, Apply(c, s, tries[0]), tries[1..], v, path))
  }

  lemma {:induction false} FailingIsLegal(c: Config, s: State, tries: seq<Action>, v: Vol, path: Path)
    requires ValidConfig(c) && Failing(c, s, tries, v, path)
    ensures LegalFrom(c, s, tries)
    decreases |tries|
  {
    hide Apply, Enabled, ValidConfig;
    if tries != [] { FailingIsLegal(c, Apply(c, s, tries[0]), tries[1..], v, path); }
  }

  ghost predicate FirstSuccess(c: Config, s: State, tries: seq<Action>, last: Action, v: Vol, path: Path)
    requires ValidConfig(c)
  {
    Failing(c, s, tries, v, path) && LegalFrom(c, s, tries) && (
      var t := Reach(c, s, tries);
      Sensible(c, t) && Enabled(c, t, last) && UnstageDone(c, t, last, v))
  }

  ghost function Outcome(c: Config, s: State, tries: seq<Action>, last: Action, v: Vol, path: Path): State
    requires ValidConfig(c) && FirstSuccess(c, s, tries, last, v, path)
  {
    Apply(c, Reach(c, s, tries), last)
  }

  lemma {:induction false} FirstSuccessReachesGoal(c: Config, s: State, tries: seq<Action>, last: Action, v: Vol,
                                                   path: Path, goal: State)
    requires ValidConfig(c) && UnstageHead(c, s, v, path, goal) && FirstSuccess(c, s, tries, last, v, path)
    ensures Outcome(c, s, tries, last, v, path) == goal
    decreases |tries|
  {
    hide UnstageHead, Apply, Enabled, UnstageGoal, ValidConfig, UnstageDone;
    if tries == [] {
      assert UnstageAttempt(last, v, path) by { DoneIsAttempt(c, s, last, v, path); }
      UnstageStep(c, s, v, path, last, goal);
    } else {
      UnstageStep(c, s, v, path, tries[0], goal);
      FirstSuccessReachesGoal(c, Apply(c, s, tries[0]), tries[1..], last, v, path, goal);
    }
  }

  lemma DoneIsAttempt(c: Config, t: State, a: Action, v: Vol, path: Path)
    requires UnstageDone(c, t, a, v)
    ensures UnstageAttempt(a, v, path)
  {
  }

  lemma {:induction false} UnstageFrom(c: Config, s: State, tries: seq<Action>, last: Action, v: Vol, path: Path, goal: State)
    requires ValidConfig(c) && v in c.stages && UnstageHead(c, s, v, path, goal)
    requires LegalFrom(c, s, tries) && forall a <- tries :: UnstageAttempt(a, v, path)
    requires var t := Reach(c, s, tries); Sensible(c, t) && Enabled(c, t, last) && UnstageDone(c, t, last, v)
    ensures Apply(c, Reach(c, s, tries), last) == goal
    decreases |tries|
  {
    hide UnstageHead, Apply, Enabled, UnstageGoal, ValidConfig, UnstageDone;
    if tries == [] {
      assert UnstageAttempt(last, v, path) by { DoneIsAttempt(c, s, last, v, path); }
      UnstageStep(c, s, v, path, last, goal);
    } else {
      UnstageStep(c, s, v, path, tries[0], goal);
      UnstageFrom(c, Apply(c, s, tries[0]), tries[1..], last, v, path, goal);
    }
  }

  /** With STAGE_UNSTAGE_VOLUME, the state in which an unstage succeeds does not depend on the errors and crashes
      before it, nor on how often it succeeded before. */
  lemma UnstageConverges(c: Config, past: seq<Action>, tries: seq<Action>, last: Action, v: Vol, path: Path)
    requires ValidConfig(c) && Legal(c, past) && v in c.stages && After(c, past).busy == map[]
    requires LegalFrom(c, After(c, past), tries) && forall a <- tries :: UnstageAttempt(a, v, path)
    requires var t := Reach(c, After(c, past), tries);
             Sensible(c, t) && Enabled(c, t, last) && UnstageDone(c, t, last, v)
    ensures Apply(c, Reach(c, After(c, past), tries), last) == UnstageGoal(c, After(c, past), v, path)
  {
    InvRun(c, past);
    var s := After(c, past);
    hide LegalFrom, Reach, Legal, After, Inv, Apply, Enabled, UnstageDone;
    UnstageFrom(c, s, tries, last, v, path, UnstageGoal(c, s, v, path));
  }

  function UnstageLeft(c: Config, t: State, v: Vol): nat
    requires CallOn(v) in t.busy && t.busy[CallOn(v)].Unstage?
  {
    match t.busy[CallOn(v)].unstageStep
    case CallUnstage => 5
    case RemoveBind => if v in c.stages then 4 else 2
    case ForgetBind => if v in c.stages then 3 else 1
    case RemoveStaging => 2
    case ForgetStaging => 1
  }

  /** Undisturbed, an unstage succeeds within five steps, in the state that UnstageGoal describes. */
  lemma {:induction false} UndisturbedUnstage(c: Config, t: State, v: Vol, path: Path)
    requires ValidConfig(c) && Inv(c, t) && OnlyUnstaging(t, v, path) && StageGone(c, t, v, path)
    requires CallOn(v) in t.busy && Running(t)
    ensures var acts := Oks(v, UnstageLeft(c, t, v));
            LegalFrom(c, t, acts) && Reach(c, t, acts) == UnstageGoal(c, t, v, path)
    decreases UnstageLeft(c, t, v)
  {
    var a, n := Advance(CallOn(v), true, true), UnstageLeft(c, t, v);
    OperationsAreSensible(c, t);
    assert Enabled(c, t, a);
    ActionKeepsInv(c, t, a);
    UnstageKeepsShape(c, t, v, path, true, true);
    assert Oks(v, n) == [a] + Oks(v, n - 1);
    UnstageProgress(c, t, v, path);
    assert Apply(c, t, a) == StepUnstage(c, t, v, t.busy[CallOn(v)], true, true);
    hide Inv, OnlyUnstaging, StageGone, UnstageGoal, ValidConfig, Apply, Enabled, StepUnstage, UnstageDone;
    if UnstageDone(c, t, a, v) {
      UnstageReachesGoal(c, t, v, path, true, true);
    } else {
      UnstageKeepsGoal(c, t, v, path, true, true);
      UndisturbedUnstage(c, Apply(c, t, a), v, path);
    }
  }

  lemma UnstageProgress(c: Config, t: State, v: Vol, path: Path)
    requires ValidConfig(c) && Inv(c, t) && OnlyUnstaging(t, v, path) && CallOn(v) in t.busy && Running(t) && Sensible(c, t)
    requires AtStep(t, v, {CallUnstage}) ==> v in c.stages
    ensures var a := Advance(CallOn(v), true, true);
            var n := Apply(c, t, a);
            if UnstageDone(c, t, a, v) then UnstageLeft(c, t, v) == 1
            else CallOn(v) in n.busy && n.busy[CallOn(v)].Unstage? && Running(n) && !AtStep(n, v, {CallUnstage})
                 && UnstageLeft(c, n, v) == UnstageLeft(c, t, v) - 1
  {
    UnstageFacts(c, t, v, path);
    hide Inv, ValidConfig, LoadAll;
  }

  /** The backend is told the proxy's volume ID, so a stage made for the backend's handle is undone exactly
      when the two names are the same. */
  lemma UnstageReachesBackendStage(c: Config, acts: seq<Action>, v: Vol, path: Path, took: bool)
    requires ValidConfig(c) && Legal(c, acts) && v in c.backend
    requires CallOn(v) in After(c, acts).busy && After(c, acts).busy[CallOn(v)] == Unstage(path, CallUnstage)
    requires (c.backend[v].driverName, c.backend[v].volumeHandle, path) in After(c, acts).staged
    ensures Running(After(c, acts))
    ensures var t := StepUnstage(c, After(c, acts), v, Unstage(path, CallUnstage), true, took);
            (c.backend[v].driverName, c.backend[v].volumeHandle, path) !in t.staged <==> c.backend[v].volumeHandle == v
  {
    InvRun(c, acts);
    assert VolInv(c, After(c, acts), v);
    hide Legal, After;
  }

  // When the outcome depends on crashes.

  lemma OneMoreTry(c: Config, s: State, a: Action, tries: seq<Action>, last: Action, v: Vol, path: Path)
    requires ValidConfig(c) && Sensible(c, s) && Enabled(c, s, a) && UnstageAttempt(a, v, path) && !UnstageDone(c, s, a, v)
    requires FirstSuccess(c, Apply(c, s, a), tries, last, v, path)
    ensures FirstSuccess(c, s, [a] + tries, last, v, path)
    ensures Outcome(c, s, [a] + tries, last, v, path) == Outcome(c, Apply(c, s, a), tries, last, v, path)
  {
    hide Apply, Enabled, UnstageDone, UnstageAttempt;
    assert ([a] + tries)[1..] == tries;
    FailingIsLegal(c, s, [a] + tries, v, path);
  }

  lemma AtOnce(c: Config, s: State, last: Action, v: Vol, path: Path)
    requires ValidConfig(c) && Sensible(c, s) && Enabled(c, s, last) && UnstageDone(c, s, last, v)
    ensures FirstSuccess(c, s, [], last, v, path) && Outcome(c, s, [], last, v, path) == Apply(c, s, last)
  {
  }

  ghost predicate Unstageable(c: Config, s: State, v: Vol) {
    && ValidConfig(c) && Running(s) && Sensible(c, s) && CallOn(v) !in s.busy && SyncOf(v) !in s.busy
    && !Outstanding(s, v) && v !in c.stages
    && v in s.memory.value.binds && v in s.memory.value.staging && CanStart(s.disk.(binds := s.disk.binds - {v}))
  }

  /** Undisturbed, the call returns without unbinding the staging path. */
  lemma UndisturbedKeepsStaging(c: Config, s: State, v: Vol, path: Path)
    requires Unstageable(c, s, v)
    ensures var tries, ok := [NodeUnstage(v, path), Advance(CallOn(v), true, true)], Advance(CallOn(v), true, true);
            && FirstSuccess(c, s, tries, ok, v, path)
            && var t := Outcome(c, s, tries, ok, v, path); Running(t) && v in t.memory.value.staging
  {
    var ok := Advance(CallOn(v), true, true);
    var s1 := Apply(c, s, NodeUnstage(v, path));
    var s2 := Apply(c, s1, ok);
    AtOnce(c, s2, ok, v, path);
    OneMoreTry(c, s1, ok, [], ok, v, path);
    OneMoreTry(c, s, NodeUnstage(v, path), [ok] + [], ok, v, path);
    assert [NodeUnstage(v, path), ok] == [NodeUnstage(v, path)] + ([ok] + []);
  }

  /** The state that a crash in the middle of the call leaves, once the process is up again. */
  ghost function Reloaded(s: State, v: Vol): State {
    var disk := s.disk.(binds := s.disk.binds - {v});
    s.(disk := disk, memory := Some(LoadAll(disk)), busy := map[])
  }

  lemma CrashMidway(c: Config, s: State, v: Vol, path: Path, tries: seq<Action>, last: Action)
    requires Unstageable(c, s, v) && FirstSuccess(c, Reloaded(s, v), tries, last, v, path)
    ensures var all := [NodeUnstage(v, path), Advance(CallOn(v), true, true), Crash, Restart] + tries;
            && FirstSuccess(c, s, all, last, v, path)
            && Outcome(c, s, all, last, v, path) == Outcome(c, Reloaded(s, v), tries, last, v, path)
  {
    hide LoadAll, FirstSuccess, Outcome;
    var ok := Advance(CallOn(v), true, true);
    var s1 := Apply(c, s, NodeUnstage(v, path));
    var s2 := Apply(c, s1, ok);
    var s3 := Apply(c, s2, Crash);
    assert Apply(c, s3, Restart) == Reloaded(s, v);
    OneMoreTry(c, s3, Restart, tries, last, v, path);
    OneMoreTry(c, s2, Crash, [Restart] + tries, last, v, path);
    OneMoreTry(c, s1, ok, [Crash] + ([Restart] + tries), last, v, path);
    OneMoreTry(c, s, NodeUnstage(v, path), [ok] + ([Crash] + ([Restart] + tries)), last, v, path);
    assert [NodeUnstage(v, path), ok, Crash, Restart] + tries
        == [NodeUnstage(v, path)] + ([ok] + ([Crash] + ([Restart] + tries)));
  }

  /** The retry finds no bind and unbinds the staging path. */
  lemma RetryAfterCrash(c: Config, s: State, v: Vol, path: Path)
    requires Unstageable(c, s, v)
    ensures var r, ok := Reloaded(s, v), Advance(CallOn(v), true, true);
            var tries := [NodeUnstage(v, path), ok];
            && FirstSuccess(c, r, tries, ok, v, path)
            && var t := Outcome(c, r, tries, ok, v, path); Running(t) && v !in t.memory.value.staging
  {
    var r, ok := Reloaded(s, v), Advance(CallOn(v), true, true);
    LoadAllMaps(r.disk);
    assert v !in r.memory.value.binds;
    hide LoadAll, FirstSuccess, Outcome;
    var r1 := Apply(c, r, NodeUnstage(v, path));
    var r2 := Apply(c, r1, ok);
    AtOnce(c, r2, ok, v, path);
    OneMoreTry(c, r1, ok, [], ok, v, path);
    OneMoreTry(c, r, NodeUnstage(v, path), [ok] + [], ok, v, path);
    assert [NodeUnstage(v, path), ok] == [NodeUnstage(v, path)] + ([ok] + []);
  }

  /** Whatever errors and crashes come first, the state of the first success is the same. */
  ghost predicate OneOutcome(c: Config, s: State, v: Vol, path: Path)
    requires ValidConfig(c)
  {
    forall t1, l1, t2, l2 | FirstSuccess(c, s, t1, l1, v, path) && FirstSuccess(c, s, t2, l2, v, path) ::
      Outcome(c, s, t1, l1, v, path) == Outcome(c, s, t2, l2, v, path)
  }

  /** Two first successes, one of which leaves the staging path bound and the other does not. */
  lemma UnstageDiverges(c: Config, s: State, v: Vol, path: Path)
    requires ValidConfig(c) && Unstageable(c, s, v)
    ensures !OneOutcome(c, s, v, path)
  {
    hide Unstageable, Reloaded, FirstSuccess, Outcome, LoadAll;
    var again, ok := [NodeUnstage(v, path), Advance(CallOn(v), true, true)], Advance(CallOn(v), true, true);
    UndisturbedKeepsStaging(c, s, v, path);
    RetryAfterCrash(c, s, v, path);
    CrashMidway(c, s, v, path, again, ok);
    var cut := [NodeUnstage(v, path), Advance(CallOn(v), true, true), Crash, Restart] + again;
    assert Outcome(c, s, again, ok, v, path) != Outcome(c, s, cut, ok, v, path);
  }

  /** From every running state at rest, the outcome of an unstage is independent of errors and crashes exactly when
      the backend stages, or the volume is not both bound and staged, or a torn file makes crashes final. */
  lemma UnstageOutcome(c: Config, past: seq<Action>, v: Vol, path: Path)
    requires ValidConfig(c) && Legal(c, past) && Running(After(c, past)) && After(c, past).busy == map[]
    requires !Outstanding(After(c, past), v)
    ensures OneOutcome(c, After(c, past), v, path) <==> Independent(c, After(c, past), v)
    ensures Independent(c, After(c, past), v) ==>
              forall tries, last | FirstSuccess(c, After(c, past), tries, last, v, path) ::
                Outcome(c, After(c, past), tries, last, v, path) == UnstageGoal(c, After(c, past), v, path)
  {
    InvRun(c, past);
    var s := After(c, past);
    hide Legal, After, FirstSuccess, Outcome, Inv, LoadAll;
    if Independent(c, s, v) {
      var goal := UnstageGoal(c, s, v, path);
      assert UnstageHead(c, s, v, path, goal);
      forall tries, last | FirstSuccess(c, s, tries, last, v, path)
        ensures Outcome(c, s, tries, last, v, path) == goal
      {
        FirstSuccessReachesGoal(c, s, tries, last, v, path, goal);
      }
    } else {
      UnstageDiverges(c, s, v, path);
    }
  }
}
