/** Two runs of the node that end badly, step by step. */
module NodeExamples {
  import opened Kubernetes
  import opened NodeLifecycle
  import opened StateFiles
  import opened NodeTeardown
  import opened NodeUnstaging

  lemma {:induction false} Continue(c: Config, past: seq<Action>, acts: seq<Action>)
    requires ValidConfig(c) && Legal(c, past) && LegalFrom(c, After(c, past), acts)
    ensures Legal(c, past + acts) && After(c, past + acts) == Reach(c, After(c, past), acts)
    decreases |acts|
  {
    hide Apply, Enabled, ValidConfig;
    if acts == [] {
      assert past + acts == past;
    } else {
      assert (past + [acts[0]])[..|past|] == past;
      Continue(c, past + [acts[0]], acts[1..]);
      assert past + [acts[0]] + acts[1..] == past + acts;
    }
  }

  /** One volume of one pod, on a backend without STAGE_UNSTAGE_VOLUME. */
  const CONFIG := Config(map["v" := Backend("handle", "driver")], map[("v", "u") := "/t"], {})
  const OK := Advance(CallOn("v"), true, true)
  const FAILS := Advance(CallOn("v"), false, false)
  const GOES_ON := Advance(SyncOf("v"), true, true)
  const STOPS := Advance(SyncOf("v"), false, false)

  function Up(disk: Disk, memory: Memory, dirs: set<Path>, outstanding: set<Target>): State {
    State(disk, Some(memory), dirs, {}, {}, outstanding, map[], {})
  }

  const EMPTY := Up(Disk(map[], map[], map[]), Memory(map[], map[], map[], map[]), {}, {})

  lemma Starts()
    ensures ValidConfig(CONFIG) && LegalFrom(CONFIG, Init, [Restart]) && Reach(CONFIG, Init, [Restart]) == EMPTY
  {
    var s := Apply(CONFIG, Init, Restart);
    assert s.memory.value.index == map[];
    assert s == EMPTY;
    Chain(CONFIG, Init, Restart, []);
    assert [Restart] + [] == [Restart];
  }

  lemma Two(c: Config, s: State, a: Action, b: Action)
    requires ValidConfig(c) && Sensible(c, s) && Enabled(c, s, a)
    requires var t := Apply(c, s, a); Sensible(c, t) && Enabled(c, t, b)
    ensures LegalFrom(c, s, [a, b]) && Reach(c, s, [a, b]) == Apply(c, Apply(c, s, a), b)
  {
    Chain(c, Apply(c, s, a), b, []);
    Chain(c, s, a, [b]);
    assert [a, b] == [a] + ([b] + []);
  }

  // A publish whose state file cannot be written, and then its unpublish.

  const WRITING := EMPTY.(
    disk := EMPTY.disk.(targets := map[("v", "u") := Torn]), dirs := {"/t"}, outstanding := {("v", "u")},
    busy := map[CallOn("v") := Publish("u", WriteTarget)])
  const GIVEN_UP := WRITING.(dirs := {}, busy := map[])
  const LEFT_BEHIND := GIVEN_UP.(outstanding := {})

  lemma FirstHalf()
    ensures var acts := [NodePublish("v", "u"), OK] + [OK];
            ValidConfig(CONFIG) && LegalFrom(CONFIG, EMPTY, acts) && Reach(CONFIG, EMPTY, acts) == WRITING
  {
    hide LoadAll, StepSync, StepUnpublish, StepStage, StepUnstage;
    var c := CONFIG;
    Two(c, EMPTY, NodePublish("v", "u"), OK);
    var s := Reach(c, EMPTY, [NodePublish("v", "u"), OK]);
    Chain(c, s, OK, []);
    assert [OK] + [] == [OK];
    assert Apply(c, s, OK) == WRITING;
    Join(c, EMPTY, [NodePublish("v", "u"), OK], [OK]);
  }

  lemma SecondHalf()
    ensures ValidConfig(CONFIG) && LegalFrom(CONFIG, WRITING, [FAILS, OK])
    ensures Reach(CONFIG, WRITING, [FAILS, OK]) == GIVEN_UP
  {
    hide LoadAll, StepSync, StepUnpublish, StepStage, StepUnstage;
    Two(CONFIG, WRITING, FAILS, OK);
    assert GIVEN_UP.busy == Apply(CONFIG, Apply(CONFIG, WRITING, FAILS), OK).busy;
  }

  lemma Unpublished()
    ensures ValidConfig(CONFIG) && LegalFrom(CONFIG, GIVEN_UP, [NodeUnpublish("v", "u"), OK] + [OK])
    ensures Reach(CONFIG, GIVEN_UP, [NodeUnpublish("v", "u"), OK] + [OK]) == LEFT_BEHIND
  {
    hide LoadAll, StepPublish, StepSync, StepStage, StepUnstage;
    Two(CONFIG, GIVEN_UP, NodeUnpublish("v", "u"), OK);
    Append(CONFIG, GIVEN_UP, [NodeUnpublish("v", "u"), OK], OK);
    var s := Reach(CONFIG, GIVEN_UP, [NodeUnpublish("v", "u"), OK] + [OK]);
    assert s.busy == map[] && s.outstanding == {} && s.dirs == {};
  }

  /** Every call has returned and nothing is published, yet a torn file remains: once the process stops it
      cannot start again. */
  lemma TornFileSurvivesTeardown() returns (acts: seq<Action>)
    ensures ValidConfig(CONFIG) && Legal(CONFIG, acts)
    ensures After(CONFIG, acts) == LEFT_BEHIND && LEFT_BEHIND.outstanding == {} && !CanStart(LEFT_BEHIND.disk)
  {
    assert LEFT_BEHIND.disk.targets[("v", "u")] == Torn;
    Starts();
    FirstHalf();
    SecondHalf();
    Unpublished();
    hide Apply, Enabled;
    var publish, write, undo := [NodePublish("v", "u"), OK] + [OK], [FAILS, OK], [NodeUnpublish("v", "u"), OK] + [OK];
    Join(CONFIG, EMPTY, publish, write);
    Join(CONFIG, EMPTY, publish + write, undo);
    Continue(CONFIG, [], [Restart]);
    Continue(CONFIG, [] + [Restart], publish + write + undo);
    acts := [] + [Restart] + (publish + write + undo);
  }

  // A volume that is staged, published, bound and unpublished again.

  const BACKEND := Backend("handle", "driver")
  const STAGED := EMPTY.(
    disk := EMPTY.disk.(staging := map["v" := Valid("/s")]),
    memory := Some(Memory(map[], map["v" := "/s"], map[], map[])))
  const PUBLISHED := STAGED.(
    disk := STAGED.disk.(targets := map[("v", "u") := Valid("/t")]),
    memory := Some(Memory(map[], map["v" := "/s"], map[("v", "u") := "/t"], map["/t" := ("v", "u")])),
    dirs := {"/t"}, outstanding := {("v", "u")})
  const BOUND := PUBLISHED.(
    disk := PUBLISHED.disk.(binds := map["v" := Valid(BACKEND)]),
    memory := Some(Memory(map["v" := BACKEND], map["v" := "/s"], map[("v", "u") := "/t"], map["/t" := ("v", "u")])))
  const UNPUBLISHED := BOUND.(
    disk := Disk(BOUND.disk.binds, BOUND.disk.staging, map[]),
    memory := Some(Memory(map["v" := BACKEND], map["v" := "/s"], map[], map[])),
    dirs := {}, outstanding := {})

  const STAGING := EMPTY.(
    disk := EMPTY.disk.(staging := map["v" := Torn]), busy := map[CallOn("v") := Stage("/s", WriteStaging)])

  lemma StagesBegins()
    ensures ValidConfig(CONFIG) && LegalFrom(CONFIG, EMPTY, [NodeStage("v", "/s"), OK])
    ensures Reach(CONFIG, EMPTY, [NodeStage("v", "/s"), OK]) == STAGING
  {
    hide LoadAll, StepPublish, StepSync, StepUnpublish, StepUnstage;
    Two(CONFIG, EMPTY, NodeStage("v", "/s"), OK);
    var t := Reach(CONFIG, EMPTY, [NodeStage("v", "/s"), OK]);
    assert t.busy == STAGING.busy && t.disk.staging == STAGING.disk.staging;
  }

  lemma Stages()
    ensures ValidConfig(CONFIG) && LegalFrom(CONFIG, EMPTY, [NodeStage("v", "/s"), OK] + [OK, OK])
    ensures Reach(CONFIG, EMPTY, [NodeStage("v", "/s"), OK] + [OK, OK]) == STAGED
  {
    StagesBegins();
    hide LoadAll, StepPublish, StepSync, StepUnpublish, StepUnstage;
    Two(CONFIG, STAGING, OK, OK);
    var t := Reach(CONFIG, STAGING, [OK, OK]);
    assert t.busy == STAGED.busy && t.disk.staging == STAGED.disk.staging;
    assert t == STAGED;
    hide Apply, Enabled, Sensible;
    Join(CONFIG, EMPTY, [NodeStage("v", "/s"), OK], [OK, OK]);
  }

  const PUBLISHING := STAGED.(
    dirs := {"/t"}, outstanding := {("v", "u")}, busy := map[CallOn("v") := Publish("u", CreateTarget)])

  lemma PublishesBegins()
    ensures ValidConfig(CONFIG) && LegalFrom(CONFIG, STAGED, [NodePublish("v", "u"), OK])
    ensures Reach(CONFIG, STAGED, [NodePublish("v", "u"), OK]) == PUBLISHING
  {
    hide LoadAll, StepSync, StepUnpublish, StepStage, StepUnstage;
    Two(CONFIG, STAGED, NodePublish("v", "u"), OK);
    var t := Reach(CONFIG, STAGED, [NodePublish("v", "u"), OK]);
    assert t.busy == PUBLISHING.busy && t.disk == PUBLISHING.disk;
    assert t.dirs == PUBLISHING.dirs && t.outstanding == PUBLISHING.outstanding;
    assert t.published == PUBLISHING.published;
  }

  lemma Publishes()
    ensures ValidConfig(CONFIG) && LegalFrom(CONFIG, PUBLISHING, [OK, OK])
    ensures var s := Reach(CONFIG, PUBLISHING, [OK, OK]);
            Sensible(CONFIG, s) && Enabled(CONFIG, s, OK) && Apply(CONFIG, s, OK) == PUBLISHED
  {
    hide LoadAll, StepSync, StepUnpublish, StepStage, StepUnstage;
    Two(CONFIG, PUBLISHING, OK, OK);
    var t := Apply(CONFIG, Reach(CONFIG, PUBLISHING, [OK, OK]), OK);
    assert t.busy == map[] && t.disk.targets == PUBLISHED.disk.targets;
  }

  const BINDING := PUBLISHED.(
    disk := PUBLISHED.disk.(binds := map["v" := Torn]), busy := map[SyncOf("v") := Sync("u", "/t", WriteBind)])

  lemma BindsBegins()
    ensures ValidConfig(CONFIG) && LegalFrom(CONFIG, PUBLISHED, [SyncVolume("v", "u"), GOES_ON] + [GOES_ON])
    ensures Reach(CONFIG, PUBLISHED, [SyncVolume("v", "u"), GOES_ON] + [GOES_ON]) == BINDING
  {
    hide LoadAll, StepPublish, StepUnpublish, StepStage, StepUnstage;
    Two(CONFIG, PUBLISHED, SyncVolume("v", "u"), GOES_ON);
    Append(CONFIG, PUBLISHED, [SyncVolume("v", "u"), GOES_ON], GOES_ON);
    var t := Reach(CONFIG, PUBLISHED, [SyncVolume("v", "u"), GOES_ON] + [GOES_ON]);
    assert t.busy == BINDING.busy && t.disk == BINDING.disk;
    assert t.dirs == BINDING.dirs && t.outstanding == BINDING.outstanding;
    assert t.published == BINDING.published;
  }

  const NAMED := BINDING.(
    disk := BOUND.disk, busy := map[SyncOf("v") := Sync("u", "/t", RememberBind)])

  lemma BindIsWritten()
    ensures ValidConfig(CONFIG) && Sensible(CONFIG, BINDING) && Enabled(CONFIG, BINDING, GOES_ON)
    ensures Apply(CONFIG, BINDING, GOES_ON) == NAMED
  {
    hide LoadAll, StepPublish, StepUnpublish, StepStage, StepUnstage;
    assert Apply(CONFIG, BINDING, GOES_ON).disk.binds == NAMED.disk.binds;
  }

  lemma Binds()
    ensures ValidConfig(CONFIG) && LegalFrom(CONFIG, BINDING, [GOES_ON, GOES_ON])
    ensures var s := Reach(CONFIG, BINDING, [GOES_ON, GOES_ON]);
            Sensible(CONFIG, s) && Enabled(CONFIG, s, STOPS) && Apply(CONFIG, s, STOPS) == BOUND
  {
    BindIsWritten();
    hide LoadAll, StepPublish, StepUnpublish, StepStage, StepUnstage;
    Two(CONFIG, BINDING, GOES_ON, GOES_ON);
    var t := Apply(CONFIG, Apply(CONFIG, NAMED, GOES_ON), STOPS);
    assert t.busy == map[];
  }

  const UNPUBLISHING := BOUND.(busy := map[CallOn("v") := Unpublish("u", RemoveDir)])

  lemma UnpublishesBegins()
    ensures ValidConfig(CONFIG) && LegalFrom(CONFIG, BOUND, [NodeUnpublish("v", "u"), OK])
    ensures Reach(CONFIG, BOUND, [NodeUnpublish("v", "u"), OK]) == UNPUBLISHING
  {
    hide LoadAll, StepPublish, StepSync, StepStage, StepUnstage;
    Two(CONFIG, BOUND, NodeUnpublish("v", "u"), OK);
    var t := Reach(CONFIG, BOUND, [NodeUnpublish("v", "u"), OK]);
    assert t.busy == UNPUBLISHING.busy && t.disk == UNPUBLISHING.disk;
    assert t.dirs == UNPUBLISHING.dirs && t.outstanding == UNPUBLISHING.outstanding;
    assert t.published == UNPUBLISHING.published;
  }

  lemma Unpublishes()
    ensures ValidConfig(CONFIG) && LegalFrom(CONFIG, UNPUBLISHING, [OK, OK])
    ensures var s := Reach(CONFIG, UNPUBLISHING, [OK, OK]);
            Sensible(CONFIG, s) && Enabled(CONFIG, s, OK) && Apply(CONFIG, s, OK) == UNPUBLISHED
  {
    hide LoadAll, StepPublish, StepSync, StepStage, StepUnstage;
    Two(CONFIG, UNPUBLISHING, OK, OK);
    var t := Apply(CONFIG, Reach(CONFIG, UNPUBLISHING, [OK, OK]), OK);
    assert t.busy == map[] && t.disk.targets == map[] && t.dirs == {} && t.outstanding == {};
    assert t.memory.value.targets == map[] && t.memory.value.index == map[];
  }

  /** A run after which the outcome of an unstage depends on where it is cut short. */
  lemma UnstageableIsReached() returns (acts: seq<Action>)
    ensures ValidConfig(CONFIG) && Legal(CONFIG, acts) && After(CONFIG, acts) == UNPUBLISHED
    ensures Unstageable(CONFIG, UNPUBLISHED, "v")
  {
    LastStateIsUnstageable();
    Starts();
    Stages();
    PublishesBegins();
    Publishes();
    BindsBegins();
    Binds();
    UnpublishesBegins();
    Unpublishes();
    hide Apply, Enabled, Sensible, Legal, After, Reach, LegalFrom;
    var publish, bind := [NodePublish("v", "u"), OK], [SyncVolume("v", "u"), GOES_ON] + [GOES_ON];
    var unpublish := [NodeUnpublish("v", "u"), OK];
    Append(CONFIG, PUBLISHING, [OK, OK], OK);
    Append(CONFIG, BINDING, [GOES_ON, GOES_ON], STOPS);
    Append(CONFIG, UNPUBLISHING, [OK, OK], OK);
    Join(CONFIG, STAGED, publish, [OK, OK] + [OK]);
    Join(CONFIG, PUBLISHED, bind, [GOES_ON, GOES_ON] + [STOPS]);
    Join(CONFIG, BOUND, unpublish, [OK, OK] + [OK]);
    Start();
    Continue(CONFIG, [], [Restart]);
    acts := [] + [Restart];
    Continue(CONFIG, acts, [NodeStage("v", "/s"), OK] + [OK, OK]);
    acts := acts + ([NodeStage("v", "/s"), OK] + [OK, OK]);
    Continue(CONFIG, acts, publish + ([OK, OK] + [OK]));
    acts := acts + (publish + ([OK, OK] + [OK]));
    Continue(CONFIG, acts, bind + ([GOES_ON, GOES_ON] + [STOPS]));
    acts := acts + (bind + ([GOES_ON, GOES_ON] + [STOPS]));
    Continue(CONFIG, acts, unpublish + ([OK, OK] + [OK]));
    acts := acts + (unpublish + ([OK, OK] + [OK]));
  }

  lemma LastStateIsUnstageable()
    ensures Unstageable(CONFIG, UNPUBLISHED, "v")
  {
  }

  lemma Start()
    ensures ValidConfig(CONFIG) && Legal(CONFIG, []) && After(CONFIG, []) == Init
  {
  }
}
