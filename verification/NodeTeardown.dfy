/** Teardown converges: an unpublish that is retried through errors and crashes until it succeeds, while nothing else
    goes on, ends in the very state that one undisturbed call would have reached. */
module NodeTeardown {
  import opened Kubernetes
  import opened NodeLifecycle
  import opened StateFiles
  import opened NodeSafety
  import opened NodeSteps
  import opened NodeTheorems

  // Runs that start anywhere.

  ghost predicate LegalFrom(c: Config, s: State, acts: seq<Action>)
    requires ValidConfig(c)
    decreases |acts|
  {
    acts == [] || (Sensible(c, s) && Enabled(c, s, acts[0]) && LegalFrom(c, Apply(c, s, acts[0]), acts[1..]))
  }

  ghost function Reach(c: Config, s: State, acts: seq<Action>): State
    requires ValidConfig(c) && LegalFrom(c, s, acts)
    decreases |acts|
  {
    if acts == [] then s else Reach(c, Apply(c, s, acts[0]), acts[1..])
  }

  lemma Chain(c: Config, s: State, a: Action, rest: seq<Action>)
    requires ValidConfig(c) && Sensible(c, s) && Enabled(c, s, a) && LegalFrom(c, Apply(c, s, a), rest)
    ensures LegalFrom(c, s, [a] + rest) && Reach(c, s, [a] + rest) == Reach(c, Apply(c, s, a), rest)
  {
    assert ([a] + rest)[1..] == rest;
  }

  lemma {:induction false} Join(c: Config, s: State, acts: seq<Action>, more: seq<Action>)
    requires ValidConfig(c) && LegalFrom(c, s, acts) && LegalFrom(c, Reach(c, s, acts), more)
    ensures LegalFrom(c, s, acts + more) && Reach(c, s, acts + more) == Reach(c, Reach(c, s, acts), more)
    decreases |acts|
  {
    hide Apply, Enabled, ValidConfig;
    if acts == [] {
      assert acts + more == more;
    } else {
      Join(c, Apply(c, s, acts[0]), acts[1..], more);
      assert (acts + more)[1..] == acts[1..] + more;
    }
  }

  lemma Append(c: Config, s: State, acts: seq<Action>, a: Action)
    requires ValidConfig(c) && LegalFrom(c, s, acts)
    requires Sensible(c, Reach(c, s, acts)) && Enabled(c, Reach(c, s, acts), a)
    ensures LegalFrom(c, s, acts + [a]) && Reach(c, s, acts + [a]) == Apply(c, Reach(c, s, acts), a)
  {
    var t := Reach(c, s, acts);
    Chain(c, t, a, []);
    assert [a] + [] == [a];
    Join(c, s, acts, [a]);
  }

  /** The memory, or what a restart would load. */
  ghost function Mem(s: State): Memory {
    if Running(s) then s.memory.value else LoadAll(s.disk)
  }

  // NodeUnpublishVolume.

  /** Nothing but attempts to unpublish `k`, errors, crashes and restarts. */
  predicate UnpublishAttempt(a: Action, k: Target) {
    a == NodeUnpublish(k.0, k.1) || (a.Advance? && a.lane == CallOn(k.0)) || a.Crash? || a.Restart?
  }

  predicate OnlyUnpublishing(s: State, k: Target) {
    && s.busy.Keys <= {CallOn(k.0)}
    && (CallOn(k.0) in s.busy ==> s.busy[CallOn(k.0)].Unpublish? && s.busy[CallOn(k.0)].pod == k.1)
  }

  ghost function UnpublishGoal(c: Config, s: State, k: Target): State
    requires k in c.target && k.0 in c.backend
  {
    var m, p := Mem(s), c.target[k];
    State(
      s.disk.(targets := if p in m.index then s.disk.targets - {k} else s.disk.targets),
      Some(m.(targets := m.targets - {k}, index := m.index - {p})),
      s.dirs - {p}, s.staged, s.published - {(c.backend[k.0], p)}, s.outstanding - {k}, map[], s.marked)
  }

  ghost predicate UnpublishHead(c: Config, t: State, k: Target, goal: State)
    requires ValidConfig(c) && k in c.target
  {
    && Inv(c, t) && OnlyUnpublishing(t, k)
    && (Running(t) || CanStart(t.disk) ==> UnpublishGoal(c, t, k) == goal)
  }

  predicate UnpublishDone(c: Config, t: State, a: Action, k: Target)
    requires k in c.target
  {
    && a.Advance? && a.lane == CallOn(k.0) && CallOn(k.0) in t.busy && t.busy[CallOn(k.0)].Unpublish? && Running(t)
    && (t.busy[CallOn(k.0)].unpublishStep == ForgetTarget
        || (t.busy[CallOn(k.0)].unpublishStep == RemoveTarget && c.target[k] !in t.memory.value.index))
  }

  lemma UnpublishFacts(c: Config, t: State, k: Target)
    requires ValidConfig(c) && k in c.target && Inv(c, t) && OnlyUnpublishing(t, k) && CallOn(k.0) in t.busy
    ensures Running(t) && k.0 in c.backend
    ensures var m, step := t.memory.value, t.busy[CallOn(k.0)].unpublishStep;
            && (c.target[k] in m.index <==> k in m.targets)
            && (c.target[k] in m.index ==> m.index[c.target[k]] == k)
            && (step == CallUnpublish ==> k.0 in m.binds && m.binds[k.0] == c.backend[k.0])
            && (step != CallUnpublish ==> (c.backend[k.0], c.target[k]) !in t.published)
            && (step == RemoveTarget || step == ForgetTarget ==> c.target[k] !in t.dirs)
            && (step == ForgetTarget ==> k in m.targets)
            && (step == ForgetTarget ==> k !in t.disk.targets)
  {
    assert VolInv(c, t, k.0);
    IndexAt(c, t, k);
  }

  lemma UnpublishKeepsGoalRecords(c: Config, t: State, k: Target, ok: bool, took: bool)
    requires ValidConfig(c) && k in c.target && Inv(c, t) && OnlyUnpublishing(t, k) && CallOn(k.0) in t.busy
    ensures Running(t) && k.0 in c.backend
    ensures var n := StepUnpublish(c, t, k.0, t.busy[CallOn(k.0)], ok, took);
            var g, h := UnpublishGoal(c, n, k), UnpublishGoal(c, t, k);
            Running(n) && g.disk == h.disk && g.memory == h.memory
  {
    UnpublishFacts(c, t, k);
    hide Inv, LoadAll, ValidConfig;
    var n := StepUnpublish(c, t, k.0, t.busy[CallOn(k.0)], ok, took);
    var g, h := UnpublishGoal(c, n, k), UnpublishGoal(c, t, k);
    assert g.disk.targets == h.disk.targets;
    assert g.memory.value.targets == h.memory.value.targets && g.memory.value.index == h.memory.value.index;
  }

  lemma UnpublishKeepsGoal(c: Config, t: State, k: Target, ok: bool, took: bool)
    requires ValidConfig(c) && k in c.target && Inv(c, t) && OnlyUnpublishing(t, k) && CallOn(k.0) in t.busy
    ensures Running(t) && k.0 in c.backend
    ensures var n := StepUnpublish(c, t, k.0, t.busy[CallOn(k.0)], ok, took);
            OnlyUnpublishing(n, k) && Running(n) && UnpublishGoal(c, n, k) == UnpublishGoal(c, t, k)
  {
    UnpublishFacts(c, t, k);
    UnpublishKeepsGoalRecords(c, t, k, ok, took);
    hide Inv, LoadAll, ValidConfig;
    var g, h := UnpublishGoal(c, StepUnpublish(c, t, k.0, t.busy[CallOn(k.0)], ok, took), k), UnpublishGoal(c, t, k);
    assert g.dirs == h.dirs && g.published == h.published && g.outstanding == h.outstanding;
  }

  lemma UnpublishReachesGoal(c: Config, t: State, k: Target, ok: bool, took: bool)
    requires ValidConfig(c) && k in c.target && Inv(c, t) && OnlyUnpublishing(t, k)
    requires UnpublishDone(c, t, Advance(CallOn(k.0), ok, took), k)
    ensures k.0 in c.backend
    ensures StepUnpublish(c, t, k.0, t.busy[CallOn(k.0)], ok, took) == UnpublishGoal(c, t, k)
  {
    UnpublishFacts(c, t, k);
    hide Inv, LoadAll, ValidConfig;
    var n := StepUnpublish(c, t, k.0, t.busy[CallOn(k.0)], ok, took);
    var h := UnpublishGoal(c, t, k);
    assert n.busy == map[];
    assert n.disk.targets == h.disk.targets;
    assert n.memory.value.targets == h.memory.value.targets && n.memory.value.index == h.memory.value.index;
    assert n.dirs == h.dirs && n.published == h.published && n.outstanding == h.outstanding;
  }

  // Crashes.

  lemma SameMapsBut<K(!new), R>(files: map<K, Content<R>>, values: map<K, R>, k: K)
    requires Readable(files) && forall j | j != k :: Agree(files, values, j)
    ensures Load(files) - {k} == values - {k}
  {
    var l := Load(files);
    forall j | j != k ensures (j in l <==> j in values) && (j in l ==> l[j] == values[j]) {
      assert Agree(files, values, j);
    }
  }

  lemma SameIndexesBut(m: Memory, n: Memory, k: Target, p: Path)
    requires IndexExact(m) && IndexExact(n) && m.targets - {k} == n.targets - {k}
    requires (k in m.targets ==> m.targets[k] == p) && (k in n.targets ==> n.targets[k] == p)
    ensures m.index - {p} == n.index - {p}
  {
    forall q | q in m.index && q != p ensures q in n.index && n.index[q] == m.index[q] {
      assert m.index[q] in (m.targets - {k}) && (m.targets - {k})[m.index[q]] == q;
      assert m.index[q] in (n.targets - {k}) && (n.targets - {k})[m.index[q]] == q;
    }
    forall q | q in n.index && q != p ensures q in m.index && n.index[q] == m.index[q] {
      assert n.index[q] in (n.targets - {k}) && (n.targets - {k})[n.index[q]] == q;
      assert n.index[q] in (m.targets - {k}) && (m.targets - {k})[n.index[q]] == q;
    }
  }

  /** Loading in the middle of an unpublish loses at most the target that is being removed. */
  lemma ReloadWhileUnpublishing(c: Config, t: State, k: Target)
    requires ValidConfig(c) && k in c.target && Inv(c, t) && OnlyUnpublishing(t, k) && Running(t) && CanStart(t.disk)
    ensures var m, n, p := t.memory.value, LoadAll(t.disk), c.target[k];
            && n.binds == m.binds && n.staging == m.staging
            && n.targets - {k} == m.targets - {k} && n.index - {p} == m.index - {p}
            && (p in n.index ==> p in m.index) && (p in m.index && p !in n.index ==> k !in t.disk.targets)
  {
    hide ValidConfig, LoadAll, Inverse;
    var m, n := t.memory.value, LoadAll(t.disk);
    LoadAllMaps(t.disk);
    forall v ensures Agree(t.disk.binds, m.binds, v) && Agree(t.disk.staging, m.staging, v) {
      assert VolInv(c, t, v);
    }
    forall j | j != k ensures Agree(t.disk.targets, m.targets, j) {
      assert VolInv(c, t, j.0) && TargetInv(c, t, (j.0, j.1));
    }
    SameMaps(t.disk.binds, m.binds);
    SameMaps(t.disk.staging, m.staging);
    SameMapsBut(t.disk.targets, m.targets, k);
    PathsAreConfigured(c, t);
    LoadedIndex(c, t);
    SameIndexesBut(m, n, k, c.target[k]);
    IndexAt(c, t, k);
    LoadedAt(c, t, k);
    if CallOn(k.0) in t.busy { UnpublishFacts(c, t, k); }
  }

  lemma LoadedAt(c: Config, t: State, k: Target)
    requires ValidConfig(c) && Inv(c, t) && CanStart(t.disk) && Running(t) && k in c.target
    ensures var n, p := LoadAll(t.disk), c.target[k];
            && (p in n.index <==> k in n.targets)
            && (p in n.index && !TargetUnderWay(t, k) ==> k in t.memory.value.targets)
            && (k in t.memory.value.targets && p !in n.index ==> k !in t.disk.targets)
  {
    LoadedIndex(c, t);
    assert VolInv(c, t, k.0) && TargetInv(c, t, (k.0, k.1));
  }

  lemma GoalSurvivesCrash(c: Config, t: State, k: Target)
    requires ValidConfig(c) && k in c.target && Inv(c, t) && OnlyUnpublishing(t, k) && Running(t) && CanStart(t.disk)
    ensures UnpublishGoal(c, t.(memory := None, busy := map[]), k) == UnpublishGoal(c, t, k)
  {
    ReloadWhileUnpublishing(c, t, k);
    hide Inv, ValidConfig, LoadAll, IndexExact;
  }

  lemma RequestKeepsGoal(c: Config, t: State, k: Target)
    requires ValidConfig(c) && k in c.target && OnlyUnpublishing(t, k)
    requires Sensible(c, t) && Enabled(c, t, NodeUnpublish(k.0, k.1))
    ensures var n := Apply(c, t, NodeUnpublish(k.0, k.1));
            OnlyUnpublishing(n, k) && Running(n) && UnpublishGoal(c, n, k) == UnpublishGoal(c, t, k)
  {
    hide LoadAll, Step;
  }

  lemma UnpublishStep(c: Config, t: State, k: Target, a: Action, goal: State)
    requires ValidConfig(c) && k in c.target && UnpublishHead(c, t, k, goal)
    requires Sensible(c, t) && Enabled(c, t, a) && UnpublishAttempt(a, k)
    ensures UnpublishHead(c, Apply(c, t, a), k, goal)
    ensures UnpublishDone(c, t, a, k) ==> Apply(c, t, a) == goal
  {
    hide Inv, LoadAll, StepUnpublish, UnpublishGoal;
    ActionKeepsInv(c, t, a);
    match a
    case NodeUnpublish(_, _) => RequestKeepsGoal(c, t, k);
    case Advance(_, ok, took) =>
      UnpublishKeepsGoal(c, t, k, ok, took);
      if UnpublishDone(c, t, a, k) { UnpublishReachesGoal(c, t, k, ok, took); }
    case Crash => if CanStart(t.disk) { GoalSurvivesCrash(c, t, k); }
    case Restart => GoalSurvivesRestart(c, t, k);
  }

  lemma GoalSurvivesRestart(c: Config, t: State, k: Target)
    requires ValidConfig(c) && k in c.target && !Running(t)
    ensures UnpublishGoal(c, t.(memory := Some(LoadAll(t.disk))), k) == UnpublishGoal(c, t, k)
  {
  }

  lemma {:induction false} UnpublishFrom(c: Config, s: State, tries: seq<Action>, last: Action, k: Target, goal: State)
    requires ValidConfig(c) && k in c.target && UnpublishHead(c, s, k, goal)
    requires LegalFrom(c, s, tries) && forall a <- tries :: UnpublishAttempt(a, k)
    requires var t := Reach(c, s, tries); Sensible(c, t) && Enabled(c, t, last) && UnpublishDone(c, t, last, k)
    ensures Apply(c, Reach(c, s, tries), last) == goal
    decreases |tries|
  {
    hide UnpublishHead, Apply, Enabled, UnpublishGoal, ValidConfig;
    if tries == [] {
      UnpublishStep(c, s, k, last, goal);
    } else {
      UnpublishStep(c, s, k, tries[0], goal);
      UnpublishFrom(c, Apply(c, s, tries[0]), tries[1..], last, k, goal);
    }
  }

  /** However often an unpublish fails or is cut short by a crash, the state in which it first succeeds is
      the same. */
  lemma UnpublishConverges(c: Config, past: seq<Action>, tries: seq<Action>, last: Action, k: Target)
    requires ValidConfig(c) && Legal(c, past) && k in c.target && After(c, past).busy == map[]
    requires LegalFrom(c, After(c, past), tries) && forall a <- tries :: UnpublishAttempt(a, k)
    requires var t := Reach(c, After(c, past), tries);
             Sensible(c, t) && Enabled(c, t, last) && UnpublishDone(c, t, last, k)
    ensures Apply(c, Reach(c, After(c, past), tries), last) == UnpublishGoal(c, After(c, past), k)
  {
    InvRun(c, past);
    var s := After(c, past);
    hide LegalFrom, Reach, Legal, After, Inv, Apply, Enabled;
    UnpublishFrom(c, s, tries, last, k, UnpublishGoal(c, s, k));
  }

  /** `n` successful steps. */
  function Oks(v: Vol, n: nat): seq<Action> {
    if n == 0 then [] else [Advance(CallOn(v), true, true)] + Oks(v, n - 1)
  }

  function UnpublishLeft(c: Config, t: State, k: Target): nat
    requires Running(t) && k in c.target && CallOn(k.0) in t.busy && t.busy[CallOn(k.0)].Unpublish?
  {
    var known := c.target[k] in t.memory.value.index;
    match t.busy[CallOn(k.0)].unpublishStep
    case CallUnpublish => if known then 4 else 3
    case RemoveDir => if known then 3 else 2
    case RemoveTarget => if known then 2 else 1
    case ForgetTarget => 1
  }

  /** Undisturbed, an unpublish succeeds within four steps. */
  lemma {:induction false} UndisturbedUnpublish(c: Config, t: State, k: Target, goal: State)
    requires ValidConfig(c) && k in c.target && UnpublishHead(c, t, k, goal) && CallOn(k.0) in t.busy && Running(t)
    ensures var acts := Oks(k.0, UnpublishLeft(c, t, k)); LegalFrom(c, t, acts) && Reach(c, t, acts) == goal
    decreases UnpublishLeft(c, t, k)
  {
    var a, n := Advance(CallOn(k.0), true, true), UnpublishLeft(c, t, k);
    OperationsAreSensible(c, t);
    assert Enabled(c, t, a);
    UnpublishStep(c, t, k, a, goal);
    assert Oks(k.0, n) == [a] + Oks(k.0, n - 1);
    UnpublishProgress(c, t, k);
    hide UnpublishHead, UnpublishGoal, ValidConfig, Apply, Enabled, StepUnpublish;
    if UnpublishDone(c, t, a, k) {
    } else {
      UndisturbedUnpublish(c, Apply(c, t, a), k, goal);
    }
  }

  lemma UnpublishProgress(c: Config, t: State, k: Target)
    requires ValidConfig(c) && k in c.target && Inv(c, t) && OnlyUnpublishing(t, k) && CallOn(k.0) in t.busy && Running(t)
    requires Sensible(c, t)
    ensures var a := Advance(CallOn(k.0), true, true);
            var n := Apply(c, t, a);
            if UnpublishDone(c, t, a, k) then UnpublishLeft(c, t, k) == 1
            else CallOn(k.0) in n.busy && n.busy[CallOn(k.0)].Unpublish? && Running(n)
                 && UnpublishLeft(c, n, k) == UnpublishLeft(c, t, k) - 1
  {
    UnpublishFacts(c, t, k);
    hide Inv, ValidConfig, LoadAll;
  }

  /** What that state is: the volume is published nowhere and recorded nowhere, except that a file torn by a
      failed first publish is left behind. */
  lemma UnpublishedState(c: Config, past: seq<Action>, k: Target)
    requires ValidConfig(c) && Legal(c, past) && k in c.target && Running(After(c, past)) && After(c, past).busy == map[]
    ensures var s := After(c, past);
            var goal := UnpublishGoal(c, s, k);
            && !IsPublished(c, goal, k) && c.target[k] !in goal.dirs && k !in goal.outstanding
            && k !in goal.memory.value.targets && c.target[k] !in goal.memory.value.index
            && (k in goal.disk.targets <==> FileIs(s.disk.targets, k, Torn) && k !in s.memory.value.targets)
            && (k in goal.disk.targets ==> !CanStart(goal.disk))
  {
    InvRun(c, past);
    var s := After(c, past);
    hide Legal, After, Inverse;
    IndexAt(c, s, k);
    assert VolInv(c, s, k.0) && TargetInv(c, s, (k.0, k.1));
    hide Inv, VolInv, ValidConfig;
  }
}
