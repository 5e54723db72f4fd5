/** Torn files of other volumes are no lasting obstacle: new calls and syncs can write them again, without touching the
    volume in question. */
module NodeRepairs {
  import opened NodeLifecycle
  import opened StateFiles
  import opened NodeSafety
  import opened NodeSteps
  import opened NodeRuns
  import opened TornFiles
  import opened NodeTeardown

  /** A run of other volumes. */
  ghost predicate OtherRun(c: Config, s: State, acts: seq<Action>, v: Vol)
    requires ValidConfig(c)
  {
    && LegalFrom(c, s, acts) && Running(Reach(c, s, acts)) && Inv(c, Reach(c, s, acts))
    && SameFor(c, s, Reach(c, s, acts), v)
    && forall a <- acts :: !a.Crash? && !a.Restart? && LaneOf(a).vol != v
  }

  lemma Begin(c: Config, s: State, v: Vol)
    requires ValidConfig(c) && Inv(c, s) && Running(s)
    ensures OtherRun(c, s, [], v)
  {
  }

  /** One more action of another volume. */
  lemma Do(c: Config, s: State, acts: seq<Action>, a: Action, v: Vol)
    requires ValidConfig(c) && OtherRun(c, s, acts, v) && Enabled(c, Reach(c, s, acts), a)
    requires !a.Crash? && !a.Restart? && LaneOf(a).vol != v
    ensures Sensible(c, Reach(c, s, acts)) && OtherRun(c, s, acts + [a], v)
    ensures Reach(c, s, acts + [a]) == Apply(c, Reach(c, s, acts), a)
  {
    hide Inv, Apply, SameFor, ValidConfig, Enabled;
    var t := Reach(c, s, acts);
    OperationsAreSensible(c, t);
    Append(c, s, acts, a);
    ActionKeepsInv(c, t, a);
    OtherVolume(c, t, a, v);
    SameForJoins(c, s, t, Apply(c, t, a), v);
    assert Running(Apply(c, t, a)) by { assert SameFor(c, t, Apply(c, t, a), v); SameForRuns(c, t, Apply(c, t, a), v); }
  }

  lemma SameForRuns(c: Config, s: State, t: State, v: Vol)
    requires SameFor(c, s, t, v)
    ensures Running(t)
  {
  }

  // Getting a lane free: the operation under way fails.

  /** How many failing steps it takes. */
  function StepsToFail(op: Op): nat {
    match op
    case Publish(_, step) => if step == CreateTarget || step == WriteTarget then 2 else 1
    case Sync(_, _, step) => if step == RememberBind then 2 else 1
    case Unstage(_, step) => if step == ForgetBind then 2 else 1
    case _ => 1
  }

  lemma FailingStep(c: Config, s: State, lane: Lane)
    requires ValidConfig(c) && Running(s) && lane in s.busy && Sensible(c, s)
    ensures var t := Step(c, s, lane, false, false);
            && t.disk == s.disk && (forall other | other != lane :: other in t.busy <==> other in s.busy)
            && (lane in t.busy ==> StepsToFail(t.busy[lane]) < StepsToFail(s.busy[lane]))
  {
    var op := s.busy[lane];
    match op
    case Publish(_, _) => FailingPublish(c, s, lane.vol, op);
    case Sync(_, _, _) => FailingSync(c, s, lane.vol, op);
    case Unpublish(_, _) => FailingUnpublish(c, s, lane.vol, op);
    case Stage(_, _) =>
    case Unstage(_, _) => FailingUnstage(c, s, lane.vol, op);
  }

  ghost predicate Fails(s: State, t: State, lane: Lane, op: Op) {
    && t.disk == s.disk && (forall other | other != lane :: other in t.busy <==> other in s.busy)
    && (lane in t.busy ==> StepsToFail(t.busy[lane]) < StepsToFail(op))
  }

  lemma FailingPublish(c: Config, s: State, v: Vol, op: Op)
    requires Running(s) && op.Publish? && (v, op.pod) in c.target
    ensures Fails(s, StepPublish(c, s, v, op, false, false), CallOn(v), op)
  {
  }

  lemma FailingSync(c: Config, s: State, v: Vol, op: Op)
    requires Running(s) && op.Sync? && v in c.backend
    ensures Fails(s, StepSync(c, s, v, op, false, false), SyncOf(v), op)
  {
  }

  lemma FailingUnpublish(c: Config, s: State, v: Vol, op: Op)
    requires Running(s) && op.Unpublish? && (v, op.pod) in c.target
    ensures Fails(s, StepUnpublish(c, s, v, op, false, false), CallOn(v), op)
  {
  }

  lemma FailingUnstage(c: Config, s: State, v: Vol, op: Op)
    requires Running(s) && op.Unstage?
    ensures Fails(s, StepUnstage(c, s, v, op, false, false), CallOn(v), op)
  {
  }

  lemma {:induction false} Finish(c: Config, s: State, acts: seq<Action>, lane: Lane, v: Vol) returns (more: seq<Action>)
    requires ValidConfig(c) && OtherRun(c, s, acts, v) && lane.vol != v
    ensures OtherRun(c, s, more, v)
    ensures var t, u := Reach(c, s, acts), Reach(c, s, more);
            && u.disk == t.disk && lane !in u.busy && forall other | other != lane :: other in u.busy <==> other in t.busy
    decreases var t := Reach(c, s, acts); if lane in t.busy then StepsToFail(t.busy[lane]) else 0
  {
    var t := Reach(c, s, acts);
    if lane !in t.busy {
      more := acts;
    } else {
      hide Inv, OtherRun, ValidConfig, Step, StepsToFail;
      var a := Advance(lane, false, false);
      assert Running(t) by { RunsOn(c, s, acts, v); }
      Do(c, s, acts, a, v);
      FailingStep(c, t, lane);
      more := Finish(c, s, acts + [a], lane, v);
    }
  }

  lemma RunsOn(c: Config, s: State, acts: seq<Action>, v: Vol)
    requires ValidConfig(c) && OtherRun(c, s, acts, v)
    ensures LegalFrom(c, s, acts) && Running(Reach(c, s, acts)) && Inv(c, Reach(c, s, acts))
  {
  }

  // Writing a torn file again.

  predicate Does(s: State, lane: Lane, op: Op) {
    lane in s.busy && s.busy[lane] == op
  }

  lemma PublishGoesWell(c: Config, s: State, v: Vol, op: Op)
    requires Running(s) && op.Publish? && (v, op.pod) in c.target
    ensures var t, k := StepPublish(c, s, v, op, true, true), (v, op.pod);
            && Running(t) && (SyncOf(v) in t.busy <==> SyncOf(v) in s.busy)
            && match op.publishStep
               case MakeDir => Does(t, CallOn(v), op.(publishStep := CreateTarget)) && t.disk == s.disk
               case CreateTarget =>
                 && Does(t, CallOn(v), op.(publishStep := WriteTarget))
                 && t.disk == s.disk.(targets := s.disk.targets[k := Torn])
               case WriteTarget =>
                 && Does(t, CallOn(v), op.(publishStep := RememberTarget))
                 && t.disk == s.disk.(targets := s.disk.targets[k := Valid(c.target[k])])
               case RememberTarget => CallOn(v) !in t.busy && t.disk == s.disk && k in t.memory.value.targets
               case RollBack => true
  {
  }

  /** The next step of the publish in the middle of a run of other volumes. */
  lemma PublishOn(c: Config, s: State, acts: seq<Action>, v: Vol, w: Vol, op: Op) returns (more: seq<Action>)
    requires ValidConfig(c) && w != v && OtherRun(c, s, acts, v) && op.Publish? && (w, op.pod) in c.target
    requires Does(Reach(c, s, acts), CallOn(w), op)
    ensures OtherRun(c, s, more, v) && LegalFrom(c, s, more) && Running(Reach(c, s, acts))
    ensures Reach(c, s, more) == StepPublish(c, Reach(c, s, acts), w, op, true, true)
  {
    hide Inv, SameFor, ValidConfig, StepPublish;
    Do(c, s, acts, Advance(CallOn(w), true, true), v);
    more := acts + [Advance(CallOn(w), true, true)];
  }

  /** A publish that has truncated the file. */
  lemma PublishBegins(c: Config, s: State, acts: seq<Action>, v: Vol, w: Vol, u: Pod) returns (more: seq<Action>)
    requires ValidConfig(c) && w != v && OtherRun(c, s, acts, v) && (w, u) in c.target
    requires CallOn(w) !in Reach(c, s, acts).busy
    ensures OtherRun(c, s, more, v)
    ensures var t, n := Reach(c, s, acts), Reach(c, s, more);
            && Does(n, CallOn(w), Op.Publish(u, WriteTarget)) && (SyncOf(w) in n.busy <==> SyncOf(w) in t.busy)
            && n.disk == t.disk.(targets := t.disk.targets[(w, u) := Torn])
  {
    RunsOn(c, s, acts, v);
    var t := Reach(c, s, acts);
    Do(c, s, acts, NodePublish(w, u), v);
    more := acts + [NodePublish(w, u)];
    assert Does(Reach(c, s, more), CallOn(w), Op.Publish(u, MakeDir)) && Reach(c, s, more).disk == t.disk;
    assert SyncOf(w) in Reach(c, s, more).busy <==> SyncOf(w) in t.busy;
    hide OtherRun, StepPublish, ValidConfig, Enabled, Apply, LegalFrom, Reach;
    PublishGoesWell(c, Reach(c, s, more), w, Op.Publish(u, MakeDir));
    more := PublishOn(c, s, more, v, w, Op.Publish(u, MakeDir));
    PublishGoesWell(c, Reach(c, s, more), w, Op.Publish(u, CreateTarget));
    more := PublishOn(c, s, more, v, w, Op.Publish(u, CreateTarget));
  }

  lemma Publish(c: Config, s: State, acts: seq<Action>, v: Vol, w: Vol, u: Pod) returns (more: seq<Action>)
    requires ValidConfig(c) && w != v && OtherRun(c, s, acts, v) && (w, u) in c.target
    requires CallOn(w) !in Reach(c, s, acts).busy
    ensures OtherRun(c, s, more, v)
    ensures var t, n, k := Reach(c, s, acts), Reach(c, s, more), (w, u);
            && Running(n) && k in n.memory.value.targets
            && n.disk == t.disk.(targets := t.disk.targets[k := Valid(c.target[k])])
            && CallOn(w) !in n.busy && (SyncOf(w) in n.busy <==> SyncOf(w) in t.busy)
  {
    hide OtherRun, StepPublish, Enabled, Apply, LegalFrom, Reach;
    RunsOn(c, s, acts, v);
    var t, k := Reach(c, s, acts), (w, u);
    more := PublishBegins(c, s, acts, v, w, u);
    RunsOn(c, s, more, v);
    PublishGoesWell(c, Reach(c, s, more), w, Op.Publish(u, WriteTarget));
    more := PublishOn(c, s, more, v, w, Op.Publish(u, WriteTarget));
    assert t.disk.targets[k := Torn][k := Valid(c.target[k])] == t.disk.targets[k := Valid(c.target[k])];
    PublishGoesWell(c, Reach(c, s, more), w, Op.Publish(u, RememberTarget));
    more := PublishOn(c, s, more, v, w, Op.Publish(u, RememberTarget));
  }

  lemma SyncGoesWell(c: Config, s: State, v: Vol, op: Op)
    requires Running(s) && op.Sync? && v in c.backend && op.syncStep in {Verify, CreateBind, WriteBind}
    ensures var t, b := StepSync(c, s, v, op, true, true), c.backend[v];
            && Running(t) && match op.syncStep
               case Verify => Does(t, SyncOf(v), op.(syncStep := CreateBind)) && t.disk == s.disk
               case CreateBind =>
                 Does(t, SyncOf(v), op.(syncStep := WriteBind)) && t.disk == s.disk.(binds := s.disk.binds[v := Torn])
               case _ => t.disk == s.disk.(binds := s.disk.binds[v := Valid(b)])
  {
  }

  lemma SyncOn(c: Config, s: State, acts: seq<Action>, v: Vol, w: Vol, op: Op) returns (more: seq<Action>)
    requires ValidConfig(c) && w != v && OtherRun(c, s, acts, v) && op.Sync? && w in c.backend
    requires Does(Reach(c, s, acts), SyncOf(w), op)
    ensures OtherRun(c, s, more, v) && LegalFrom(c, s, more) && Running(Reach(c, s, acts))
    ensures Reach(c, s, more) == StepSync(c, Reach(c, s, acts), w, op, true, true)
  {
    hide Inv, SameFor, ValidConfig, StepSync;
    Do(c, s, acts, Advance(SyncOf(w), true, true), v);
    more := acts + [Advance(SyncOf(w), true, true)];
  }

  lemma BindBegins(c: Config, s: State, acts: seq<Action>, v: Vol, w: Vol, u: Pod) returns (more: seq<Action>, path: Path)
    requires ValidConfig(c) && w != v && OtherRun(c, s, acts, v) && (w, u) in c.target
    requires CallOn(w) !in Reach(c, s, acts).busy && SyncOf(w) !in Reach(c, s, acts).busy
    requires Running(Reach(c, s, acts)) && (w, u) in Reach(c, s, acts).memory.value.targets
    ensures OtherRun(c, s, more, v) && Running(Reach(c, s, more))
    ensures Does(Reach(c, s, more), SyncOf(w), Op.Sync(u, path, Verify)) && Reach(c, s, more).disk == Reach(c, s, acts).disk
  {
    path := Reach(c, s, acts).memory.value.targets[(w, u)];
    Do(c, s, acts, SyncVolume(w, u), v);
    more := acts + [SyncVolume(w, u)];
    hide OtherRun, Step, ValidConfig;
  }

  lemma Bind(c: Config, s: State, acts: seq<Action>, v: Vol, w: Vol, u: Pod) returns (more: seq<Action>)
    requires ValidConfig(c) && w != v && OtherRun(c, s, acts, v) && (w, u) in c.target
    requires CallOn(w) !in Reach(c, s, acts).busy && SyncOf(w) !in Reach(c, s, acts).busy
    requires Running(Reach(c, s, acts)) && (w, u) in Reach(c, s, acts).memory.value.targets
    ensures OtherRun(c, s, more, v) && w in c.backend
    ensures var t, n := Reach(c, s, acts), Reach(c, s, more);
            n.disk == t.disk.(binds := t.disk.binds[w := Valid(c.backend[w])])
  {
    hide OtherRun, StepSync, Enabled, Apply, LegalFrom, Reach;
    RunsOn(c, s, acts, v);
    var t := Reach(c, s, acts);
    var path;
    more, path := BindBegins(c, s, acts, v, w, u);
    RunsOn(c, s, more, v);
    SyncGoesWell(c, Reach(c, s, more), w, Op.Sync(u, path, Verify));
    more := SyncOn(c, s, more, v, w, Op.Sync(u, path, Verify));
    SyncGoesWell(c, Reach(c, s, more), w, Op.Sync(u, path, CreateBind));
    more := SyncOn(c, s, more, v, w, Op.Sync(u, path, CreateBind));
    assert t.disk.binds[w := Torn][w := Valid(c.backend[w])] == t.disk.binds[w := Valid(c.backend[w])];
    SyncGoesWell(c, Reach(c, s, more), w, Op.Sync(u, path, WriteBind));
    more := SyncOn(c, s, more, v, w, Op.Sync(u, path, WriteBind));
  }

  lemma StageGoesWell(s: State, v: Vol, op: Op)
    requires Running(s) && op.Stage?
    ensures var t := StepStage(s, v, op, true);
            && Running(t) && match op.stageStep
               case CreateStaging =>
                 Does(t, CallOn(v), op.(stageStep := WriteStaging)) && t.disk == s.disk.(staging := s.disk.staging[v := Torn])
               case WriteStaging => t.disk == s.disk.(staging := s.disk.staging[v := Valid(op.path)])
               case RememberStaging => true
  {
  }

  lemma StageOn(c: Config, s: State, acts: seq<Action>, v: Vol, w: Vol, op: Op) returns (more: seq<Action>)
    requires ValidConfig(c) && w != v && OtherRun(c, s, acts, v) && op.Stage? && Does(Reach(c, s, acts), CallOn(w), op)
    ensures OtherRun(c, s, more, v) && LegalFrom(c, s, more) && Running(Reach(c, s, acts))
    ensures Reach(c, s, more) == StepStage(Reach(c, s, acts), w, op, true)
  {
    hide Inv, SameFor, ValidConfig, StepStage;
    Do(c, s, acts, Advance(CallOn(w), true, true), v);
    more := acts + [Advance(CallOn(w), true, true)];
  }

  lemma StageBegins(c: Config, s: State, acts: seq<Action>, v: Vol, w: Vol) returns (more: seq<Action>)
    requires ValidConfig(c) && w != v && OtherRun(c, s, acts, v) && CallOn(w) !in Reach(c, s, acts).busy
    ensures OtherRun(c, s, more, v) && Running(Reach(c, s, more))
    ensures Does(Reach(c, s, more), CallOn(w), Op.Stage("", CreateStaging)) && Reach(c, s, more).disk == Reach(c, s, acts).disk
  {
    RunsOn(c, s, acts, v);
    Do(c, s, acts, NodeStage(w, ""), v);
    more := acts + [NodeStage(w, "")];
    hide OtherRun, Step, ValidConfig;
  }

  lemma Stage(c: Config, s: State, acts: seq<Action>, v: Vol, w: Vol) returns (more: seq<Action>)
    requires ValidConfig(c) && w != v && OtherRun(c, s, acts, v) && CallOn(w) !in Reach(c, s, acts).busy
    ensures OtherRun(c, s, more, v)
    ensures var t, n := Reach(c, s, acts), Reach(c, s, more);
            n.disk == t.disk.(staging := t.disk.staging[w := Valid("")])
  {
    hide OtherRun, StepStage, Enabled, Apply, LegalFrom, Reach;
    RunsOn(c, s, acts, v);
    var t := Reach(c, s, acts);
    more := StageBegins(c, s, acts, v, w);
    RunsOn(c, s, more, v);
    StageGoesWell(Reach(c, s, more), w, Op.Stage("", CreateStaging));
    more := StageOn(c, s, more, v, w, Op.Stage("", CreateStaging));
    StageGoesWell(Reach(c, s, more), w, Op.Stage("", WriteStaging));
    more := StageOn(c, s, more, v, w, Op.Stage("", WriteStaging));
    assert t.disk.staging[w := Torn][w := Valid("")] == t.disk.staging[w := Valid("")];
  }

  /** One torn file. */
  lemma RepairOne(c: Config, s: State, acts: seq<Action>, v: Vol, slot: Slot) returns (more: seq<Action>)
    requires ValidConfig(c) && OtherRun(c, s, acts, v) && slot.vol != v && Owned(c, slot)
    ensures OtherRun(c, s, more, v)
    ensures var t, n := Reach(c, s, acts), Reach(c, s, more);
            !TornAt(n, slot) && forall other :: TornAt(n, other) ==> TornAt(t, other)
  {
    var w := slot.vol;
    hide OtherRun, ValidConfig;
    more := Finish(c, s, acts, CallOn(w), v);
    more := Finish(c, s, more, SyncOf(w), v);
    RunsOn(c, s, more, v);
    match slot
    case StagingOf(_) => more := Stage(c, s, more, v, w);
    case TargetOf(_, u) => more := Publish(c, s, more, v, w, u);
    case BindOf(_) =>
      var u :| (w, u) in c.target;
      more := Publish(c, s, more, v, w, u);
      more := Bind(c, s, more, v, w, u);
  }

  /** The slot is one that calls and syncs use. */
  ghost predicate Owned(c: Config, slot: Slot) {
    match slot
    case BindOf(v) => exists u :: (v, u) in c.target
    case StagingOf(_) => true
    case TargetOf(v, u) => (v, u) in c.target
  }

  /** Every torn file is such a slot's, as it was truncated by a call or sync. */
  lemma TornIsOwned(c: Config, acts: seq<Action>, slot: Slot)
    requires ValidConfig(c) && Legal(c, acts) && TornAt(After(c, acts), slot)
    ensures Owned(c, slot)
  {
    TornExactly(c, acts, slot);
    var i: nat :| OpenSince(c, acts, slot, i);
    NextAt(c, acts, i);
    hide At, Legal, After, Enabled, Apply;
    var s := At(c, acts, i);
    assert SensibleOp(c, Writer(slot), s.busy[Writer(slot)]);
    if slot.BindOf? { assert (slot.vol, s.busy[Writer(slot)].pod) in c.target; }
  }

  ghost function TornElsewhere(s: State, v: Vol): set<Slot> {
    (set w | w in s.disk.binds && w != v && s.disk.binds[w].Torn? :: BindOf(w))
    + (set w | w in s.disk.staging && w != v && s.disk.staging[w].Torn? :: StagingOf(w))
    + (set k | k in s.disk.targets && k.0 != v && s.disk.targets[k].Torn? :: TargetOf(k.0, k.1))
  }

  lemma TornElsewhereMeans(s: State, v: Vol, slot: Slot)
    ensures slot in TornElsewhere(s, v) <==> TornAt(s, slot) && slot.vol != v
  {
    match slot
    case BindOf(w) =>
    case StagingOf(w) =>
    case TargetOf(w, u) => assert (w, u) in s.disk.targets ==> ((w, u).0 == w && (w, u).1 == u);
  }

  /** All of them. */
  lemma {:induction false} RepairAll(c: Config, s: State, acts: seq<Action>, v: Vol) returns (more: seq<Action>)
    requires ValidConfig(c) && OtherRun(c, s, acts, v)
    requires forall slot | TornAt(Reach(c, s, acts), slot) && slot.vol != v :: Owned(c, slot)
    ensures OtherRun(c, s, more, v)
    ensures forall slot: Slot | slot.vol != v :: !TornAt(Reach(c, s, more), slot)
    decreases |TornElsewhere(Reach(c, s, acts), v)|
  {
    hide OtherRun, ValidConfig, TornAt, Owned, TornElsewhere;
    RunsOn(c, s, acts, v);
    var t := Reach(c, s, acts);
    forall slot ensures slot in TornElsewhere(t, v) <==> TornAt(t, slot) && slot.vol != v { TornElsewhereMeans(t, v, slot); }
    if TornElsewhere(t, v) == {} {
      more := acts;
    } else {
      var slot :| slot in TornElsewhere(t, v);
      more := RepairOne(c, s, acts, v, slot);
      RunsOn(c, s, more, v);
      var n := Reach(c, s, more);
      forall other ensures other in TornElsewhere(n, v) <==> TornAt(n, other) && other.vol != v {
        TornElsewhereMeans(n, v, other);
      }
      Fewer(TornElsewhere(n, v), TornElsewhere(t, v), slot);
      more := RepairAll(c, s, more, v);
    }
  }

  lemma Fewer(a: set<Slot>, b: set<Slot>, slot: Slot)
    requires a <= b && slot in b && slot !in a
    ensures |a| < |b|
  {
    assert a <= b - {slot};
    SubsetSize(a, b - {slot});
  }

  lemma {:induction false} SubsetSize(a: set<Slot>, b: set<Slot>)
    requires a <= b
    ensures |a| <= |b|
  {
    if a != {} {
      var x :| x in a;
      SubsetSize(a - {x}, b - {x});
    }
  }
}
