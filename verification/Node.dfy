/** The node as its methods meet it: files, maps, directories and backend, all of which other operations change
    under their hands. Its ghost log is always a run of the node's step system, so all that is
    proved of runs is true of it, also of those that crash in the middle of a method. */
module Nodes {
  import opened Kubernetes
  import opened StateFiles
  import opened NodeLifecycle
  import opened NodeSafety
  import opened NodeSteps
  import Ownership
  import VolumeOwnership

  /** From `from` on, some step of the call or sync failed. */
  ghost predicate FailedSince(log: seq<Action>, from: nat, lane: Lane) {
    exists i: nat :: from <= i < |log| && log[i].Advance? && log[i].lane == lane && !log[i].ok
  }

  lemma RecordIsWritten(c: Config, s: State, v: Vol)
    requires LaneInv(c, s, SyncOf(v)) && SyncOf(v) in s.busy && s.busy[SyncOf(v)].Sync?
    requires s.busy[SyncOf(v)].syncStep == RememberBind
    ensures v in c.backend && FileIs(s.disk.binds, v, StateFiles.Valid(c.backend[v]))
  {
  }

  lemma TargetIsConfigured(c: Config, s: State, k: Target)
    requires Inv(c, s) && Running(s) && k in s.memory.value.targets
    ensures k in c.target && s.memory.value.targets[k] == c.target[k]
  {
    assert VolInv(c, s, k.0) && TargetInv(c, s, (k.0, k.1));
  }

  lemma FailureStays(log: seq<Action>, longer: seq<Action>, from: nat, lane: Lane)
    requires log <= longer && exists at: nat | from <= at <= |log| :: FailedSince(log, at, lane)
    ensures FailedSince(longer, from, lane)
  {
    var at: nat :| from <= at <= |log| && FailedSince(log, at, lane);
    var i: nat :| at <= i < |log| && log[i].Advance? && log[i].lane == lane && !log[i].ok;
    assert longer[i] == log[i];
  }

  /** What an operation on `v` may rely on between two of its steps. A sync may rely on the bind, on its own target
      path and mount, and on the volume staying staged; a call on what it is about. */
  ghost predicate Relied(c: Config, s: State, t: State, v: Vol, op: Op)
    requires Running(s) && Running(t)
  {
    var m, n := s.memory.value, t.memory.value;
    match op
    case Publish(u, _) =>
      && SameAt(s.disk.targets, t.disk.targets, (v, u)) && SameAt(m.targets, n.targets, (v, u))
      && ((v, u) in c.target ==> (c.target[(v, u)] in s.dirs <==> c.target[(v, u)] in t.dirs))
    case Sync(u, _, _) =>
      && SameAt(s.disk.binds, t.disk.binds, v) && SameAt(m.binds, n.binds, v)
      && SameAt(m.targets, n.targets, (v, u)) && (IsPublished(c, s, (v, u)) <==> IsPublished(c, t, (v, u)))
      && (v in m.staging ==> v in n.staging)
    case Unpublish(u, _) => SameTarget(c, s, t, (v, u)) && (v in m.binds ==> SameAt(m.binds, n.binds, v))
    case Stage(_, _) => SameAt(s.disk.staging, t.disk.staging, v) && SameAt(m.staging, n.staging, v)
    case Unstage(_, _) => SameFor(c, s, t, v)
  }

  /** The operation in the lane goes on as if the others had done nothing. */
  ghost predicate Undisturbed(c: Config, s: State, t: State, lane: Lane) {
    && Running(s) && Running(t) && SameAt(s.busy, t.busy, lane)
    && (lane in s.busy ==> Relied(c, s, t, lane.vol, s.busy[lane]))
  }

  lemma KeptForUnstage(c: Config, s: State, t: State, v: Vol)
    requires Undisturbed(c, s, t, CallOn(v)) && CallOn(v) in s.busy && s.busy[CallOn(v)].Unstage?
    ensures SameAt(s.memory.value.binds, t.memory.value.binds, v)
    ensures SameAt(s.memory.value.staging, t.memory.value.staging, v)
  {
  }

  lemma KeptForPublish(c: Config, s: State, t: State, v: Vol, u: Pod)
    requires Undisturbed(c, s, t, CallOn(v)) && CallOn(v) in s.busy
    requires s.busy[CallOn(v)].Publish? && s.busy[CallOn(v)].pod == u
    ensures (v, u) in c.target ==> (c.target[(v, u)] in s.dirs <==> c.target[(v, u)] in t.dirs)
  {
  }

  lemma KeptForUnpublish(c: Config, s: State, t: State, v: Vol, u: Pod)
    requires Undisturbed(c, s, t, CallOn(v)) && CallOn(v) in s.busy
    requires s.busy[CallOn(v)].Unpublish? && s.busy[CallOn(v)].pod == u
    ensures SameTarget(c, s, t, (v, u))
    ensures v in s.memory.value.binds ==> SameAt(s.memory.value.binds, t.memory.value.binds, v)
  {
  }

  lemma KeptForSync(c: Config, s: State, t: State, v: Vol, u: Pod)
    requires Undisturbed(c, s, t, SyncOf(v)) && SyncOf(v) in s.busy && s.busy[SyncOf(v)].Sync? && s.busy[SyncOf(v)].pod == u
    ensures IsPublished(c, s, (v, u)) <==> IsPublished(c, t, (v, u))
    ensures SameAt(s.memory.value.binds, t.memory.value.binds, v)
    ensures SameAt(s.memory.value.targets, t.memory.value.targets, (v, u))
    ensures v in s.memory.value.staging ==> v in t.memory.value.staging
  {
  }

  /** The answer of a system, a driver or the API server: success, or else whether there was an effect all the same. */
  datatype Answer = Answer(ok: bool, took: bool)

  datatype PublishAnswers = PublishAnswers(mkdir: Answer, create: bool, encode: bool, rollBack: bool)

  class Node {
    const config: Config
    var disk: Disk
    var memory: Memory
    var dirs: set<Path>
    var staged: set<(string, string, Path)>
    var published: set<(Backend, Path)>
    ghost var log: seq<Action>

    ghost predicate Matches(s: State)
      reads this
    {
      && s.disk == disk && s.memory == Some(memory) && s.dirs == dirs
      && s.staged == staged && s.published == published
    }

    ghost predicate Valid()
      reads this
    {
      ValidConfig(config) && Legal(config, log) && Matches(After(config, log)) && Inv(config, After(config, log))
    }

    ghost function State(): State
      requires Valid()
      reads this
    {
      After(config, log)
    }

    ghost predicate Idle(lane: Lane)
      requires Valid()
      reads this
    {
      lane !in State().busy
    }

    ghost predicate Doing(lane: Lane, op: Op)
      requires Valid()
      reads this
    {
      lane in State().busy && State().busy[lane] == op
    }

    /** Operations on other volumes, and what may run beside this one on its own, take any number of steps. Callers
        know no more than this contract, and OthersInterfere shows that any such steps are within it. */
    method Interfere(ghost lane: Lane)
      requires Valid()
      modifies this
      ensures Valid() && old(log) <= log && Undisturbed(config, old(State()), State(), lane)
      ensures lane in old(State()).busy ==> Doing(lane, old(State()).busy[lane])
      ensures lane !in old(State()).busy ==> Idle(lane)
    {
      UndisturbedByNothing(config, State(), lane);
    }

    /** What a sync may rely on while others go on. */
    method InterfereWithSync(ghost v: Vol, ghost op: Op)
      requires Valid() && Doing(SyncOf(v), op) && op.Sync?
      modifies this
      ensures Valid() && old(log) <= log && Doing(SyncOf(v), op)
      ensures v in old(memory).staging ==> v in memory.staging
      ensures SameAt(old(memory).binds, memory.binds, v)
      ensures IsPublished(config, State(), (v, op.pod)) <==> IsPublished(config, old(State()), (v, op.pod))
    {
      hide Inv, ValidConfig, Legal, After, SameFor, Relied, Undisturbed;
      ghost var s := State();
      Interfere(SyncOf(v));
      KeptForSync(config, s, State(), v, op.pod);
    }

    /** The state in which the operation takes its next step. */
    ghost method Now(lane: Lane) returns (s: State)
      requires Valid() && lane in State().busy
      ensures s == State() && Running(s) && Sensible(config, s) && OpInv(config, s, lane, s.busy[lane])
    {
      s := State();
      OperationsAreSensible(config, s);
      VolOf(config, s, lane.vol);
      assert LaneInv(config, s, lane);
    }

    /** An operation begins. */
    ghost method Begin(request: Action)
      requires Valid() && Enabled(config, State(), request)
      requires !request.Crash? && !request.Restart? && !request.Advance?
      modifies this`log
      ensures Valid() && log == old(log) + [request]
      ensures Sensible(config, old(State())) && State() == Apply(config, old(State()), request)
    {
      hide ValidConfig, Inv, LoadAll, Step;
      OperationsAreSensible(config, State());
      ActionKeepsInv(config, State(), request);
      Extend(config, log, request);
      log := log + [request];
    }

    /** A sync begins with the target path that is recorded now, which is the one that is configured. */
    ghost method BeginSync(v: Vol, u: Pod)
      requires Valid() && Idle(SyncOf(v)) && SyncMayRun(State(), v, u)
      requires (v, u) in config.target && (v, u) in memory.targets
      modifies this`log
      ensures Valid() && log == old(log) + [SyncVolume(v, u)]
      ensures Doing(SyncOf(v), Sync(u, memory.targets[(v, u)], Verify)) && memory.targets[(v, u)] == config.target[(v, u)]
      ensures IsPublished(config, State(), (v, u)) <==> IsPublished(config, old(State()), (v, u))
    {
      hide ValidConfig, Inv, LoadAll, Step;
      TargetIsConfigured(config, State(), (v, u));
      Begin(SyncVolume(v, u));
    }

    /** The fields are now as one step of the operation makes them. */
    ghost method Took(before: State, lane: Lane, ok: bool, took: bool)
      requires ValidConfig(config) && Legal(config, log) && before == After(config, log) && Inv(config, before)
      requires Running(before) && lane in before.busy && Sensible(config, before)
      requires Matches(Step(config, before, lane, ok, took))
      modifies this`log
      ensures Valid() && log == old(log) + [Advance(lane, ok, took)]
      ensures State() == Step(config, before, lane, ok, took)
      ensures !ok ==> forall from: nat | from <= |old(log)| :: FailedSince(log, from, lane)
    {
      hide ValidConfig, Inv, LoadAll, Step;
      ActionKeepsInv(config, before, Advance(lane, ok, took));
      Extend(config, log, Advance(lane, ok, took));
      log := log + [Advance(lane, ok, took)];
      assert log[|log| - 1] == Advance(lane, ok, took);
    }

    // The state manager of volume binds. Before a save and after a delete of a record come the file's steps.

    /** os.Create */
    method CreateBindFile(v: Vol, create: bool, ghost op: Op) returns (ok: bool)
      requires Valid() && Doing(SyncOf(v), op) && op.Sync? && op.syncStep == CreateBind
      modifies this
      ensures Valid() && old(log) <= log && memory == old(memory)
      ensures ok <==> create
      ensures if ok then Doing(SyncOf(v), op.(syncStep := WriteBind))
              else Idle(SyncOf(v)) && FailedSince(log, |old(log)|, SyncOf(v))
    {
      hide Inv, ValidConfig, Legal, After, FailedSince, SameFor, Relied,
           OpInv, StepPublish, StepUnpublish, StepStage, StepUnstage;
      ghost var s := Now(SyncOf(v));
      ok := create;
      if ok { disk := disk.(binds := disk.binds[v := Torn]); }
      Took(s, SyncOf(v), ok, ok);
    }

    /** Encode */
    method WriteBindFile(v: Vol, bind: Backend, encode: bool, ghost op: Op) returns (ok: bool)
      requires Valid() && Doing(SyncOf(v), op) && op.Sync? && op.syncStep == WriteBind
      requires v in config.backend && bind == config.backend[v]
      modifies this
      ensures Valid() && old(log) <= log && memory == old(memory)
      ensures ok <==> encode
      ensures if ok then Doing(SyncOf(v), op.(syncStep := RememberBind))
              else Idle(SyncOf(v)) && FailedSince(log, |old(log)|, SyncOf(v))
    {
      hide Inv, ValidConfig, Legal, After, FailedSince, SameFor, Relied,
           OpInv, StepPublish, StepUnpublish, StepStage, StepUnstage;
      ghost var s := Now(SyncOf(v));
      ok := encode;
      if ok { disk := disk.(binds := disk.binds[v := StateFiles.Valid(bind)]); }
      Took(s, SyncOf(v), ok, ok);
    }

    method SaveVolumeBind(v: Vol, bind: Backend, create: bool, encode: bool, ghost op: Op) returns (ok: bool)
      requires Valid() && Doing(SyncOf(v), op) && op.Sync? && op.syncStep == CreateBind
      requires v in config.backend && bind == config.backend[v]
      modifies this
      ensures Valid() && old(log) <= log
      ensures ok <==> create && encode
      ensures v in old(memory).staging ==> v in memory.staging
      ensures if ok then Doing(SyncOf(v), op.(syncStep := FindDevice))
              else Idle(SyncOf(v)) && FailedSince(log, |old(log)|, SyncOf(v))
      ensures ok ==> v in memory.binds && memory.binds[v] == bind && FileIs(disk.binds, v, StateFiles.Valid(bind))
    {
      hide Inv, ValidConfig, Legal, After, FailedSince, SameFor, Relied, Undisturbed,
           OpInv, StepPublish, StepUnpublish, StepStage, StepUnstage;
      ghost var kept := State();
      ok := CreateBindFile(v, create, op);
      if !ok {
        return;
      }
      kept := State();
      Interfere(SyncOf(v));
      KeptForSync(config, kept, State(), v, op.pod);
      ok := WriteBindFile(v, bind, encode, op.(syncStep := WriteBind));
      if !ok {
        FailureStays(log, log, |old(log)|, SyncOf(v));
        return;
      }
      kept := State();
      Interfere(SyncOf(v));
      KeptForSync(config, kept, State(), v, op.pod);
      ghost var s := Now(SyncOf(v));
      RecordIsWritten(config, s, v);
      memory := memory.(binds := memory.binds[v := bind]);
      Took(s, SyncOf(v), true, true);
    }

    method DeleteVolumeBind(v: Vol, remove: bool, ghost op: Op) returns (ok: bool)
      requires Valid() && Doing(CallOn(v), op) && op.Unstage? && op.unstageStep == RemoveBind
      modifies this
      ensures Valid() && old(log) <= log
      ensures ok <==> remove
      ensures !ok ==> Idle(CallOn(v)) && FailedSince(log, |old(log)|, CallOn(v))
      ensures ok && v in config.stages ==> Doing(CallOn(v), op.(unstageStep := RemoveStaging))
      ensures ok && v !in config.stages ==> Idle(CallOn(v))
      ensures ok ==> v !in memory.binds
    {
      hide Inv, ValidConfig, Legal, After, FailedSince, SameFor, Relied,
           OpInv, StepPublish, StepUnpublish, StepSync, StepStage;
      ghost var s := Now(CallOn(v));
      ok := remove; // os.Remove
      if ok { disk := disk.(binds := disk.binds - {v}); }
      Took(s, CallOn(v), ok, ok);
      if !ok {
        return;
      }
      Interfere(CallOn(v));
      s := Now(CallOn(v));
      memory := memory.(binds := memory.binds - {v});
      Took(s, CallOn(v), true, true);
    }

    // The state manager of staging target paths.

    /** os.Create */
    method CreateStagingFile(v: Vol, create: bool, ghost op: Op) returns (ok: bool)
      requires Valid() && Doing(CallOn(v), op) && op.Stage? && op.stageStep == CreateStaging
      modifies this
      ensures Valid() && old(log) <= log
      ensures ok <==> create
      ensures if ok then Doing(CallOn(v), op.(stageStep := WriteStaging))
              else Idle(CallOn(v)) && FailedSince(log, |old(log)|, CallOn(v))
    {
      hide Inv, ValidConfig, Legal, After, FailedSince, SameFor, Relied,
           OpInv, StepPublish, StepUnpublish, StepSync, StepUnstage;
      ghost var s := Now(CallOn(v));
      ok := create;
      if ok { disk := disk.(staging := disk.staging[v := Torn]); }
      Took(s, CallOn(v), ok, ok);
    }

    /** Encode */
    method WriteStagingFile(v: Vol, path: Path, encode: bool, ghost op: Op) returns (ok: bool)
      requires Valid() && Doing(CallOn(v), op) && op.Stage? && op.stageStep == WriteStaging
      requires path == op.path
      modifies this
      ensures Valid() && old(log) <= log
      ensures ok <==> encode
      ensures if ok then Doing(CallOn(v), op.(stageStep := RememberStaging))
              else Idle(CallOn(v)) && FailedSince(log, |old(log)|, CallOn(v))
    {
      hide Inv, ValidConfig, Legal, After, FailedSince, SameFor, Relied,
           OpInv, StepPublish, StepUnpublish, StepSync, StepUnstage;
      ghost var s := Now(CallOn(v));
      ok := encode;
      if ok { disk := disk.(staging := disk.staging[v := StateFiles.Valid(path)]); }
      Took(s, CallOn(v), ok, ok);
    }

    method BindStagingTargetPath(v: Vol, path: Path, create: bool, encode: bool, ghost op: Op) returns (ok: bool)
      requires Valid() && Doing(CallOn(v), op) && op.Stage? && op.stageStep == CreateStaging && path == op.path
      modifies this
      ensures Valid() && old(log) <= log
      ensures ok <==> create && encode
      ensures Idle(CallOn(v)) && (ok ==> v in memory.staging && memory.staging[v] == path)
      ensures !ok ==> FailedSince(log, |old(log)|, CallOn(v))
    {
      hide Inv, ValidConfig, Legal, After, FailedSince, SameFor, Relied,
           OpInv, StepPublish, StepUnpublish, StepSync, StepUnstage;
      ok := CreateStagingFile(v, create, op);
      if !ok {
        return;
      }
      Interfere(CallOn(v));
      ok := WriteStagingFile(v, path, encode, op.(stageStep := WriteStaging));
      if !ok {
        FailureStays(log, log, |old(log)|, CallOn(v));
        return;
      }
      Interfere(CallOn(v));
      ghost var s := Now(CallOn(v));
      memory := memory.(staging := memory.staging[v := path]);
      Took(s, CallOn(v), true, true);
    }

    method UnbindStagingTargetPath(v: Vol, remove: bool, ghost op: Op) returns (ok: bool)
      requires Valid() && Doing(CallOn(v), op) && op.Unstage? && op.unstageStep == RemoveStaging
      modifies this
      ensures Valid() && old(log) <= log
      ensures ok <==> remove
      ensures Idle(CallOn(v)) && (ok ==> v !in memory.staging)
      ensures v in memory.binds <==> v in old(memory).binds
      ensures !ok ==> FailedSince(log, |old(log)|, CallOn(v))
    {
      hide Inv, ValidConfig, Legal, After, FailedSince, SameFor, Relied,
           Undisturbed, OpInv, StepPublish, StepUnpublish, StepSync, StepStage;
      ghost var s := Now(CallOn(v));
      ok := remove; // os.Remove
      if ok { disk := disk.(staging := disk.staging - {v}); }
      Took(s, CallOn(v), ok, ok);
      if !ok {
        return;
      }
      s := State();
      Interfere(CallOn(v));
      KeptForUnstage(config, s, State(), v);
      s := Now(CallOn(v));
      memory := memory.(staging := memory.staging - {v});
      Took(s, CallOn(v), true, true);
    }

    // The state manager of target paths.

    /** os.Create */
    method CreateTargetFile(v: Vol, u: Pod, create: bool, ghost op: Op) returns (ok: bool)
      requires Valid() && Doing(CallOn(v), op) && op.Publish? && op.pod == u && op.publishStep == CreateTarget
      modifies this
      ensures Valid() && old(log) <= log && dirs == old(dirs)
      ensures ok <==> create
      ensures Doing(CallOn(v), op.(publishStep := if ok then WriteTarget else RollBack))
      ensures !ok ==> FailedSince(log, |old(log)|, CallOn(v))
    {
      hide Inv, ValidConfig, Legal, After, FailedSince, SameFor, Relied,
           OpInv, StepUnpublish, StepSync, StepStage, StepUnstage;
      ghost var s := Now(CallOn(v));
      ok := create;
      if ok { disk := disk.(targets := disk.targets[(v, u) := Torn]); }
      Took(s, CallOn(v), ok, ok);
    }

    /** Encode */
    method WriteTargetFile(v: Vol, u: Pod, path: Path, encode: bool, ghost op: Op) returns (ok: bool)
      requires Valid() && Doing(CallOn(v), op) && op.Publish? && op.pod == u && op.publishStep == WriteTarget
      requires (v, u) in config.target && path == config.target[(v, u)]
      modifies this
      ensures Valid() && old(log) <= log && dirs == old(dirs)
      ensures ok <==> encode
      ensures Doing(CallOn(v), op.(publishStep := if ok then RememberTarget else RollBack))
      ensures !ok ==> FailedSince(log, |old(log)|, CallOn(v))
    {
      hide Inv, ValidConfig, Legal, After, FailedSince, SameFor, Relied,
           OpInv, StepUnpublish, StepSync, StepStage, StepUnstage;
      ghost var s := Now(CallOn(v));
      ok := encode;
      if ok { disk := disk.(targets := disk.targets[(v, u) := StateFiles.Valid(path)]); }
      Took(s, CallOn(v), ok, ok);
    }

    method SaveTargetPathBind(v: Vol, u: Pod, path: Path, create: bool, encode: bool, ghost op: Op) returns (ok: bool)
      requires Valid() && Doing(CallOn(v), op) && op.Publish? && op.pod == u && op.publishStep == CreateTarget
      requires (v, u) in config.target && path == config.target[(v, u)]
      modifies this
      ensures Valid() && old(log) <= log
      ensures ok <==> create && encode
      ensures path in dirs <==> path in old(dirs)
      ensures ok ==> Idle(CallOn(v)) && (v, u) in memory.targets && memory.targets[(v, u)] == path
      ensures !ok ==> Doing(CallOn(v), op.(publishStep := RollBack)) && FailedSince(log, |old(log)|, CallOn(v))
    {
      hide Inv, ValidConfig, Legal, After, FailedSince, SameFor, Relied, Undisturbed,
           OpInv, StepUnpublish, StepSync, StepStage, StepUnstage;
      ghost var kept := State();
      ok := CreateTargetFile(v, u, create, op);
      if !ok {
        return;
      }
      kept := State();
      Interfere(CallOn(v));
      KeptForPublish(config, kept, State(), v, u);
      ok := WriteTargetFile(v, u, path, encode, op.(publishStep := WriteTarget));
      if !ok {
        FailureStays(log, log, |old(log)|, CallOn(v));
        return;
      }
      kept := State();
      Interfere(CallOn(v));
      KeptForPublish(config, kept, State(), v, u);
      ghost var s := Now(CallOn(v));
      memory := memory.(targets := memory.targets[(v, u) := path], index := memory.index[path := (v, u)]);
      Took(s, CallOn(v), true, true);
    }

    // The target path bind manager.

    /** Mkdir, Lstat and Chmod; when one of the latter fails, the directory stays. */
    method SetUpPath(v: Vol, path: Path, mkdir: Answer, ghost op: Op) returns (ok: bool)
      requires Valid() && Doing(CallOn(v), op) && op.Publish? && op.publishStep == MakeDir
      requires (v, op.pod) in config.target && path == config.target[(v, op.pod)]
      modifies this
      ensures Valid() && old(log) <= log
      ensures ok <==> mkdir.ok
      ensures path in dirs <==> mkdir.ok || mkdir.took || path in old(dirs)
      ensures if ok then Doing(CallOn(v), op.(publishStep := CreateTarget))
              else Idle(CallOn(v)) && FailedSince(log, |old(log)|, CallOn(v))
    {
      hide Inv, ValidConfig, Legal, After, FailedSince, SameFor, Relied,
           OpInv, StepUnpublish, StepSync, StepStage, StepUnstage;
      ghost var s := Now(CallOn(v));
      ok := mkdir.ok;
      if ok || mkdir.took { dirs := dirs + {path}; }
      Took(s, CallOn(v), ok, mkdir.took);
    }

    /** The removal of the directory when the record could not be saved; it may fail as well. */
    method RollBackPath(v: Vol, path: Path, removed: bool, ghost op: Op)
      requires Valid() && Doing(CallOn(v), op) && op.Publish? && op.publishStep == RollBack
      requires (v, op.pod) in config.target && path == config.target[(v, op.pod)]
      modifies this
      ensures Valid() && old(log) <= log
      ensures path in dirs <==> !removed && path in old(dirs)
      ensures Idle(CallOn(v))
    {
      hide Inv, ValidConfig, Legal, After, FailedSince, SameFor, Relied,
           OpInv, StepUnpublish, StepSync, StepStage, StepUnstage;
      ghost var s := Now(CallOn(v));
      if removed { dirs := dirs - {path}; }
      Took(s, CallOn(v), removed, removed);
    }

    method SetUpTargetPath(v: Vol, u: Pod, path: Path, answers: PublishAnswers, ghost op: Op) returns (ok: bool)
      requires Valid() && Doing(CallOn(v), op) && op.Publish? && op.pod == u && op.publishStep == MakeDir
      requires (v, u) in config.target && path == config.target[(v, u)]
      modifies this
      ensures Valid() && old(log) <= log
      ensures ok <==> answers.mkdir.ok && answers.create && answers.encode
      ensures Idle(CallOn(v))
      // The directory is there on success, and otherwise as far as it was made and not removed again.
      ensures path in dirs <==>
              if answers.mkdir.ok then ok || !answers.rollBack else answers.mkdir.took || path in old(dirs)
      ensures ok ==> (v, u) in memory.targets && memory.targets[(v, u)] == path
      ensures !ok ==> FailedSince(log, |old(log)|, CallOn(v))
    {
      hide Inv, ValidConfig, Legal, After, FailedSince, SameFor, Relied, Undisturbed,
           OpInv, StepUnpublish, StepSync, StepStage, StepUnstage;
      ghost var kept := State();
      ok := SetUpPath(v, path, answers.mkdir, op);
      if !ok {
        return;
      }
      kept := State();
      Interfere(CallOn(v));
      KeptForPublish(config, kept, State(), v, u);
      ok := SaveTargetPathBind(v, u, path, answers.create, answers.encode, op.(publishStep := CreateTarget));
      if !ok {
        ghost var failed := log;
        kept := State();
        Interfere(CallOn(v));
        KeptForPublish(config, kept, State(), v, u);
        RollBackPath(v, path, answers.rollBack, op.(publishStep := RollBack));
        FailureStays(failed, log, |old(log)|, CallOn(v));
      }
    }

    /** The record goes from the disk and then from both maps, unless the path is not known. */
    method DeleteTargetPathBind(v: Vol, ghost u: Pod, path: Path, remove: bool, ghost op: Op) returns (ok: bool)
      requires Valid() && (v, u) in config.target && path == config.target[(v, u)]
      requires Doing(CallOn(v), op) && op.Unpublish? && op.pod == u && op.unpublishStep == RemoveTarget
      modifies this
      ensures Valid() && old(log) <= log
      ensures ok <==> remove || (v, u) !in old(memory).targets
      ensures Idle(CallOn(v)) && (path in dirs <==> path in old(dirs))
      ensures ok ==> path !in memory.index && (v, u) !in State().outstanding
      ensures !ok ==> FailedSince(log, |old(log)|, CallOn(v))
    {
      hide Inv, ValidConfig, Legal, After, FailedSince, SameFor, Relied,
           Undisturbed, OpInv, StepPublish, StepSync, StepStage, StepUnstage;
      IndexAt(config, State(), (v, u));
      ghost var s := Now(CallOn(v));
      if path !in memory.index || memory.index[path] !in memory.targets {
        Took(s, CallOn(v), true, true);
        return true;
      }
      var bindID := memory.index[path];
      ok := remove; // os.Remove
      if ok { disk := disk.(targets := disk.targets - {bindID}); }
      Took(s, CallOn(v), ok, ok);
      if !ok {
        return;
      }
      s := State();
      Interfere(CallOn(v));
      KeptForUnpublish(config, s, State(), v, u);
      IndexAt(config, State(), (v, u));
      s := Now(CallOn(v));
      memory := memory.(index := memory.index - {path}, targets := memory.targets - {bindID});
      Took(s, CallOn(v), true, true);
    }

    /** The directory goes, and then what is known of it. */
    method TearDownTargetPath(v: Vol, ghost u: Pod, path: Path, rmdir: bool, remove: bool, ghost op: Op) returns (ok: bool)
      requires Valid() && Doing(CallOn(v), op) && op.Unpublish? && op.pod == u && op.unpublishStep == RemoveDir
      requires (v, u) in config.target && path == config.target[(v, u)]
      modifies this
      ensures Valid() && old(log) <= log
      ensures ok <==> rmdir && (remove || (v, u) !in old(memory).targets)
      ensures Idle(CallOn(v))
      ensures ok ==> path !in dirs && path !in memory.index && (v, u) !in State().outstanding
      ensures !ok ==> FailedSince(log, |old(log)|, CallOn(v))
    {
      hide Inv, ValidConfig, Legal, After, FailedSince, SameFor, Relied,
           Undisturbed, OpInv, StepPublish, StepSync, StepStage, StepUnstage;
      ghost var s := Now(CallOn(v));
      ok := rmdir; // os.Remove
      if ok { dirs := dirs - {path}; }
      Took(s, CallOn(v), ok, ok);
      if !ok {
        return;
      }
      s := State();
      Interfere(CallOn(v));
      KeptForUnpublish(config, s, State(), v, u);
      ok := DeleteTargetPathBind(v, u, path, remove, op.(unpublishStep := RemoveTarget));
      if !ok { FailureStays(log, log, |old(log)|, CallOn(v)); }
    }

    // Calls to the backend driver and the API server. A call that fails may still have taken effect.

    /** The path at which the volume is staged, as recorded now; there need not be one, and other lookups before the
        call may fail. Without the capability there is nothing to look up. */
    method FindDeviceMountPath(v: Vol, lookup: bool, ghost op: Op) returns (ok: bool, path: Path)
      requires Valid() && Doing(SyncOf(v), op) && op.Sync? && op.syncStep == FindDevice && v in config.backend
      modifies this
      ensures Valid() && old(log) <= log && memory == old(memory) && staged == old(staged)
      ensures ok <==> lookup && (v in config.stages ==> v in memory.staging)
      ensures !ok ==> Idle(SyncOf(v)) && FailedSince(log, |old(log)|, SyncOf(v))
      ensures ok && v in config.stages ==> v in memory.staging && path == memory.staging[v]
      ensures ok ==> Doing(SyncOf(v), op.(syncStep := if v in config.stages then StageVolume(path) else PublishVolume))
    {
      hide Inv, ValidConfig, Legal, After, FailedSince, SameFor, Relied,
           OpInv, StepPublish, StepUnpublish, StepStage, StepUnstage;
      ghost var s := Now(SyncOf(v));
      ok := lookup;
      path := "";
      if v in config.stages {
        if v in memory.staging {
          path := memory.staging[v];
        } else {
          ok := false;
        }
      }
      Took(s, SyncOf(v), ok, ok);
    }

    method CallNodeStage(v: Vol, bind: Backend, path: Path, stage: Answer, ghost op: Op) returns (ok: bool)
      requires Valid() && Doing(SyncOf(v), op) && op.Sync? && op.syncStep == StageVolume(path)
      requires v in config.backend && bind == config.backend[v]
      modifies this
      ensures Valid() && old(log) <= log && memory == old(memory)
      ensures ok <==> stage.ok
      ensures if ok then Doing(SyncOf(v), op.(syncStep := PublishVolume))
              else Idle(SyncOf(v)) && FailedSince(log, |old(log)|, SyncOf(v))
      ensures ok ==> (bind.driverName, bind.volumeHandle, path) in staged
    {
      hide Inv, ValidConfig, Legal, After, FailedSince, SameFor, Relied,
           OpInv, StepPublish, StepUnpublish, StepStage, StepUnstage;
      ghost var s := Now(SyncOf(v));
      ok := stage.ok;
      if ok || stage.took { staged := staged + {(bind.driverName, bind.volumeHandle, path)}; }
      Took(s, SyncOf(v), ok, stage.took);
    }

    method CallNodePublish(v: Vol, bind: Backend, path: Path, publish: Answer, volume: VolumeOwnership.FileSystem,
                           ghost op: Op) returns (ok: bool)
      requires Valid() && Doing(SyncOf(v), op) && op.Sync? && op.syncStep == PublishVolume && path == op.path
      requires v in config.backend && bind == config.backend[v]
      modifies this, volume`results
      ensures Valid() && old(log) <= log
      ensures ok <==> publish.ok
      ensures if ok then Doing(SyncOf(v), op.(syncStep := ChangeOwner))
              else Idle(SyncOf(v)) && FailedSince(log, |old(log)|, SyncOf(v))
      ensures ok ==> (bind, path) in published
      ensures ok && (v, op.pod) in config.target && path == config.target[(v, op.pod)] ==>
                IsPublished(config, State(), (v, op.pod))
      ensures volume.results == if ok then [] else old(volume.results)
    {
      hide Inv, ValidConfig, Legal, After, FailedSince, SameFor, Relied,
           OpInv, StepPublish, StepUnpublish, StepStage, StepUnstage;
      ghost var s := Now(SyncOf(v));
      ok := publish.ok;
      if ok || publish.took { published := published + {(bind, path)}; }
      Took(s, SyncOf(v), ok, publish.took);
      if ok { volume.Mounted(); }
    }

    method CallNodeUnpublish(v: Vol, bind: Backend, path: Path, unpublish: Answer, ghost op: Op) returns (ok: bool)
      requires Valid() && Doing(CallOn(v), op) && op.Unpublish? && op.unpublishStep == CallUnpublish
      requires (v, op.pod) in config.target && path == config.target[(v, op.pod)]
      requires v in memory.binds && bind == memory.binds[v]
      modifies this
      ensures Valid() && old(log) <= log && memory == old(memory)
      ensures ok <==> unpublish.ok
      ensures if ok then Doing(CallOn(v), op.(unpublishStep := RemoveDir))
              else Idle(CallOn(v)) && FailedSince(log, |old(log)|, CallOn(v))
    {
      hide Inv, ValidConfig, Legal, After, FailedSince, SameFor, Relied,
           OpInv, StepPublish, StepSync, StepStage, StepUnstage;
      ghost var s := Now(CallOn(v));
      ok := unpublish.ok;
      if ok || unpublish.took { published := published - {(bind, path)}; }
      Took(s, CallOn(v), ok, unpublish.took);
    }

    /** The volume is named by the ID that the proxy gave it, not by the backend's handle. */
    method CallNodeUnstage(v: Vol, driverName: string, path: Path, unstage: Answer, ghost op: Op) returns (ok: bool)
      requires Valid() && Doing(CallOn(v), op) && op.Unstage? && op.unstageStep == CallUnstage && path == op.path
      requires v in memory.binds && driverName == memory.binds[v].driverName
      modifies this
      ensures Valid() && old(log) <= log && memory == old(memory)
      ensures ok <==> unstage.ok
      ensures if ok then Doing(CallOn(v), op.(unstageStep := RemoveBind))
              else Idle(CallOn(v)) && FailedSince(log, |old(log)|, CallOn(v))
    {
      hide Inv, ValidConfig, Legal, After, FailedSince, SameFor, Relied,
           OpInv, StepPublish, StepUnpublish, StepSync, StepStage;
      ghost var s := Now(CallOn(v));
      ok := unstage.ok;
      if ok || unstage.took { staged := staged - {(driverName, v, path)}; }
      Took(s, CallOn(v), ok, unstage.took);
    }

    /** The checks are passed. */
    ghost method GoOn(v: Vol, op: Op)
      requires Valid() && Doing(SyncOf(v), op) && op.Sync? && op.syncStep == Verify
      modifies this`log
      ensures Valid() && (IsPublished(config, State(), (v, op.pod)) <==> IsPublished(config, old(State()), (v, op.pod)))
      ensures old(log) <= log && Doing(SyncOf(v), op.(syncStep := CreateBind))
    {
      hide Inv, ValidConfig, Legal, After, FailedSince, SameFor, Relied, StepPublish, StepUnpublish, StepStage, StepUnstage;
      var s := Now(SyncOf(v));
      Took(s, SyncOf(v), true, true);
    }

    /** The ownership change that comes after the publish, if one is needed, and the step that takes its result. */
    method ChangeOwnership(v: Vol, needed: bool, volume: VolumeOwnership.FileSystem, tree: Ownership.Tree,
                           fsGroup: Option<int>, policy: Option<VolumeOwnership.ChangePolicy>,
                           ghost files: map<nat, Ownership.Kind>, ghost op: Op) returns (ok: bool)
      requires Valid() && Doing(SyncOf(v), op) && op.Sync? && op.syncStep == ChangeOwner
      requires volume.Ready(tree, files) && (needed ==> fsGroup == Some(volume.setting.gid))
      modifies this`log, volume
      ensures Valid() && old(log) <= log
      ensures ok <==> (needed ==> VolumeOwnership.ChangeSucceeds(volume.setting, tree, policy, volume.noStat,
                                                                 volume.noList, old(volume.attrs)))
      ensures volume.results == old(volume.results) + if needed then [ok] else []
      ensures IsPublished(config, State(), (v, op.pod)) <==> IsPublished(config, old(State()), (v, op.pod))
      ensures !needed ==> volume.trace == old(volume.trace)
      ensures needed && ok ==> old(volume.trace) <= volume.trace
                               && VolumeOwnership.Settled(volume.setting, tree, policy, volume.noStat, files,
                                                          old(volume.attrs), volume.attrs,
                                          volume.trace[|old(volume.trace)|..])
      ensures if ok then Doing(SyncOf(v), op.(syncStep := Annotate))
              else Idle(SyncOf(v)) && FailedSince(log, |old(log)|, SyncOf(v))
    {
      hide Inv, ValidConfig, Legal, After, FailedSince, SameFor, Relied, StepPublish, StepUnpublish, StepStage, StepUnstage;
      hide VolumeOwnership.Settled, VolumeOwnership.ChangeSucceeds;
      ok := volume.ChangeIfNeeded(needed, tree, fsGroup, policy, files);
      ghost var s := Now(SyncOf(v));
      Took(s, SyncOf(v), ok, ok);
    }

    /** `patch` is the answer of the API server. */
    method PatchPod(v: Vol, ghost op: Op, patch: Answer)
      requires Valid() && Doing(SyncOf(v), op) && op.Sync? && op.syncStep == Annotate
      modifies this
      ensures Valid() && old(log) <= log
      ensures Idle(SyncOf(v))
      ensures IsPublished(config, State(), (v, op.pod)) <==> IsPublished(config, old(State()), (v, op.pod))
      ensures patch.ok ==> (v, op.pod) in State().marked
      ensures !patch.ok ==> FailedSince(log, |old(log)|, SyncOf(v))
    {
      hide Inv, ValidConfig, Legal, After, FailedSince, SameFor, Relied,
           StepPublish, StepUnpublish, StepStage, StepUnstage;
      ghost var s := Now(SyncOf(v));
      Took(s, SyncOf(v), patch.ok, patch.took);
    }

    /** The checks end the sync. */
    ghost method StopAtChecks(v: Vol, op: Op)
      requires Valid() && Doing(SyncOf(v), op) && op.Sync? && op.syncStep == Verify
      modifies this`log
      ensures Valid() && (IsPublished(config, State(), (v, op.pod)) <==> IsPublished(config, old(State()), (v, op.pod)))
      ensures log == old(log) + [Advance(SyncOf(v), false, false)]
      ensures Idle(SyncOf(v)) && FailedSince(log, |old(log)|, SyncOf(v))
    {
      hide Inv, ValidConfig, Legal, After, FailedSince, SameFor, Relied, StepPublish, StepUnpublish, StepStage, StepUnstage;
      var s := Now(SyncOf(v));
      Took(s, SyncOf(v), false, false);
    }

    /** What the publish needs cannot be found. */
    ghost method StopBeforePublish(v: Vol, lookups: bool, op: Op)
      requires Valid() && Doing(SyncOf(v), op) && op.Sync? && op.syncStep == PublishVolume
      requires !lookups || (v in config.stages && v !in memory.staging)
      modifies this`log
      ensures Valid() && log == old(log) + [Advance(SyncOf(v), false, false)]
      ensures Idle(SyncOf(v)) && FailedSince(log, |old(log)|, SyncOf(v))
    {
      hide Inv, ValidConfig, Legal, After, FailedSince, SameFor, Relied, StepPublish, StepUnpublish, StepStage, StepUnstage;
      var s := Now(SyncOf(v));
      Took(s, SyncOf(v), false, false);
    }

    /** The backend driver of a bound volume cannot be reached, so the unstage ends before it begins. */
    ghost method StopBeforeUnstage(v: Vol, op: Op)
      requires Valid() && Doing(CallOn(v), op) && op.Unstage? && op.unstageStep in {CallUnstage, RemoveBind}
      modifies this`log
      ensures Valid() && log == old(log) + [Advance(CallOn(v), false, false)]
      ensures Idle(CallOn(v)) && FailedSince(log, |old(log)|, CallOn(v))
    {
      hide Inv, ValidConfig, Legal, After, FailedSince, SameFor, Relied, StepPublish, StepUnpublish, StepSync, StepStage;
      var s := Now(CallOn(v));
      Took(s, CallOn(v), false, false);
    }
  }

  lemma Extend(c: Config, log: seq<Action>, a: Action)
    requires ValidConfig(c) && Legal(c, log) && Sensible(c, After(c, log)) && Enabled(c, After(c, log), a)
    ensures Legal(c, log + [a]) && After(c, log + [a]) == Apply(c, After(c, log), a)
  {
    hide Apply, Enabled, ValidConfig;
    assert (log + [a])[..|log|] == log;
  }

  // Interference is what other operations can do.

  predicate Elsewhere(a: Action, lane: Lane) {
    !a.Crash? && !a.Restart? && LaneOf(a) != lane
  }

  lemma UndisturbedByNothing(c: Config, s: State, lane: Lane)
    requires Running(s)
    ensures Undisturbed(c, s, s, lane)
  {
  }

  lemma UndisturbedJoins(c: Config, s: State, t: State, n: State, lane: Lane)
    requires Undisturbed(c, s, t, lane) && Undisturbed(c, t, n, lane)
    ensures Undisturbed(c, s, n, lane)
  {
    hide SameFor;
    if lane in s.busy && s.busy[lane].Unstage? { SameForJoins(c, s, t, n, lane.vol); }
  }

  lemma OtherVolumesDoNotDisturb(c: Config, s: State, t: State, lane: Lane)
    requires SameFor(c, s, t, lane.vol)
    ensures Undisturbed(c, s, t, lane)
  {
    if lane in s.busy && !s.busy[lane].Stage? && !s.busy[lane].Unstage? {
      assert SameTarget(c, s, t, (lane.vol, s.busy[lane].pod));
    }
  }

  /** A step of the sync, beside the call on the same volume. */
  lemma SyncDoesNotDisturb(c: Config, s: State, v: Vol, ok: bool, took: bool)
    requires Underway(c, s, SyncOf(v)) && s.busy[SyncOf(v)].Sync?
    ensures Undisturbed(c, s, StepSync(c, s, v, s.busy[SyncOf(v)], ok, took), CallOn(v))
  {
    AboutToPublish(c, s, v);
    OtherPaths(c, (v, s.busy[SyncOf(v)].pod));
    assert LaneInv(c, s, CallOn(v)) && OpInv(c, s, SyncOf(v), s.busy[SyncOf(v)]);
    assert MapSays(s.memory.value.binds, v, c.backend) by { assert BindInv(c, s, v); }
    hide Inv, ValidConfig, VolInv, StepSync, Underway, SameFor;
    SyncEffect(c, s, v, s.busy[SyncOf(v)], ok, took);
    SyncGrows(c, s, v, s.busy[SyncOf(v)], ok, took);
    SyncMakesNoDir(c, s, v, s.busy[SyncOf(v)], ok, took);
  }

  /** A step of a call, beside the sync of the same volume. */
  lemma CallDoesNotDisturb(c: Config, s: State, v: Vol, ok: bool, took: bool)
    requires Underway(c, s, CallOn(v)) && Running(s) && Sensible(c, s)
    ensures Undisturbed(c, s, Step(c, s, CallOn(v), ok, took), SyncOf(v))
  {
    hide Undisturbed, StepPublish, StepUnpublish, StepStage, StepUnstage, StepSync;
    match s.busy[CallOn(v)]
    case Publish(_, _) => PublishDoesNotDisturb(c, s, v, ok, took);
    case Unpublish(_, _) => UnpublishDoesNotDisturb(c, s, v, ok, took);
    case Stage(_, _) => StageDoesNotDisturb(c, s, v, ok);
    case Unstage(_, _) => UnstageDoesNotDisturb(c, s, v, ok, took);
  }

  lemma PublishDoesNotDisturb(c: Config, s: State, v: Vol, ok: bool, took: bool)
    requires Underway(c, s, CallOn(v)) && s.busy[CallOn(v)].Publish?
    ensures Undisturbed(c, s, StepPublish(c, s, v, s.busy[CallOn(v)], ok, took), SyncOf(v))
  {
    assert LaneInv(c, s, SyncOf(v));
    assert TargetInv(c, s, (v, s.busy[CallOn(v)].pod));
    hide Inv, ValidConfig, StagingInv, BindInv, SameFor;
  }

  lemma UnpublishDoesNotDisturb(c: Config, s: State, v: Vol, ok: bool, took: bool)
    requires Underway(c, s, CallOn(v)) && s.busy[CallOn(v)].Unpublish?
    ensures Undisturbed(c, s, StepUnpublish(c, s, v, s.busy[CallOn(v)], ok, took), SyncOf(v))
  {
    IndexAt(c, s, (v, s.busy[CallOn(v)].pod));
    OtherPaths(c, (v, s.busy[CallOn(v)].pod));
    assert LaneInv(c, s, SyncOf(v));
    if SyncOf(v) in s.busy { UnpublishOtherTarget(c, s, v, ok, took, (v, s.busy[SyncOf(v)].pod)); }
    hide Inv, ValidConfig, VolInv, Underway, SameFor, StepUnpublish;
    UnpublishEffect(c, s, v, s.busy[CallOn(v)], ok, took);
  }

  lemma StageDoesNotDisturb(c: Config, s: State, v: Vol, ok: bool)
    requires Underway(c, s, CallOn(v)) && s.busy[CallOn(v)].Stage?
    ensures Undisturbed(c, s, StepStage(s, v, s.busy[CallOn(v)], ok), SyncOf(v))
  {
    assert LaneInv(c, s, SyncOf(v));
    hide Inv, ValidConfig, StagingInv, BindInv, SameFor;
  }

  lemma UnstageDoesNotDisturb(c: Config, s: State, v: Vol, ok: bool, took: bool)
    requires Underway(c, s, CallOn(v)) && s.busy[CallOn(v)].Unstage?
    ensures Undisturbed(c, s, StepUnstage(c, s, v, s.busy[CallOn(v)], ok, took), SyncOf(v))
  {
    assert LaneInv(c, s, SyncOf(v));
    hide Inv, ValidConfig, StagingInv, BindInv, SameFor, Relied;
  }

  lemma RequestDoesNotDisturb(c: Config, s: State, a: Action, lane: Lane)
    requires ValidConfig(c) && Sensible(c, s) && Enabled(c, s, a)
    requires Elsewhere(a, lane) && !a.Advance? && LaneOf(a).vol == lane.vol
    ensures Undisturbed(c, s, Apply(c, s, a), lane)
  {
    hide LoadAll, Step, ValidConfig, SameFor;
  }

  lemma OneInterference(c: Config, s: State, a: Action, lane: Lane)
    requires ValidConfig(c) && Inv(c, s) && Sensible(c, s) && Enabled(c, s, a) && Elsewhere(a, lane)
    ensures Undisturbed(c, s, Apply(c, s, a), lane)
  {
    hide ValidConfig, Inv, SameFor, Undisturbed, Step, LoadAll, VolInv;
    if LaneOf(a).vol != lane.vol {
      OtherVolume(c, s, a, lane.vol);
      OtherVolumesDoNotDisturb(c, s, Apply(c, s, a), lane);
    } else if !a.Advance? {
      RequestDoesNotDisturb(c, s, a, lane);
    } else {
      VolOf(c, s, lane.vol);
      if lane.SyncOf? {
        CallDoesNotDisturb(c, s, lane.vol, a.ok, a.took);
      } else {
        SyncStepIs(c, s, lane.vol, a.ok, a.took);
        SyncDoesNotDisturb(c, s, lane.vol, a.ok, a.took);
      }
    }
  }

  lemma SyncStepIs(c: Config, s: State, v: Vol, ok: bool, took: bool)
    requires ValidConfig(c) && Running(s) && SyncOf(v) in s.busy && Sensible(c, s)
    ensures s.busy[SyncOf(v)].Sync? && v in c.backend
    ensures Step(c, s, SyncOf(v), ok, took) == StepSync(c, s, v, s.busy[SyncOf(v)], ok, took)
  {
    hide StepSync;
  }

  /** Whatever the operations of other lanes do, it is within the contract of Interfere. */
  lemma {:induction false} OthersInterfere(c: Config, log: seq<Action>, more: seq<Action>, lane: Lane)
    requires ValidConfig(c) && Legal(c, log) && Legal(c, log + more) && Running(After(c, log))
    requires forall a <- more :: Elsewhere(a, lane)
    ensures Undisturbed(c, After(c, log), After(c, log + more), lane)
    decreases |more|
  {
    hide ValidConfig, Undisturbed, Apply, Enabled, SameTarget;
    if more == [] {
      assert log + more == log;
      UndisturbedByNothing(c, After(c, log), lane);
    } else {
      var n := |more| - 1;
      assert (log + more)[..|log + more| - 1] == log + more[..n];
      OthersInterfere(c, log, more[..n], lane);
      InvRun(c, log + more[..n]);
      OneInterference(c, After(c, log + more[..n]), more[n], lane);
      UndisturbedJoins(c, After(c, log), After(c, log + more[..n]), After(c, log + more), lane);
    }
  }
}
