/** The node's records of target paths, kept by volume and pod, and the directory of files that the state manager
    keeps by bind ID: with pod UIDs of one length they are the same thing. */
module NodeFiles {
  import opened BindKeys
  import opened StateFiles
  import opened StateManagers
  import opened TargetPathBinds
  import opened NodeLifecycle
  import opened NodeSafety
  import opened NodeSteps
  import opened TornFiles

  function NameOf(k: Target): string {
    StateFile(BindID(k.0, k.1))
  }

  predicate OneLength(keys: set<Target>, length: nat) {
    forall k <- keys :: |k.1| == length
  }

  lemma NamesApart(j: Target, k: Target)
    requires |j.1| == |k.1|
    ensures NameOf(j) == NameOf(k) <==> j == k
    ensures BindID(j.0, j.1) == BindID(k.0, k.1) <==> j == k
  {
    NamesAreDistinct(BindID(j.0, j.1), BindID(k.0, k.1));
    KeysAreDistinct(j.0, j.1, k.0, k.1);
  }

  function FileOf(k: Target, content: Content<Path>): Content<TargetPathBind> {
    if content.Torn? then Torn else Valid(TargetPathBind(k.0, k.1, content.record))
  }

  /** The directory that holds these records. */
  ghost predicate Holds(files: map<string, Content<TargetPathBind>>, targets: map<Target, Content<Path>>) {
    && (forall k <- targets :: NameOf(k) in files && files[NameOf(k)] == FileOf(k, targets[k]))
    && (forall name <- files :: exists k <- targets :: name == NameOf(k))
  }

  /** A write of one record is a write of one file, and none other changes. */
  lemma WriteIsOneFile(files: map<string, Content<TargetPathBind>>, targets: map<Target, Content<Path>>,
                       k: Target, content: Content<Path>, length: nat)
    requires Holds(files, targets) && OneLength(targets.Keys + {k}, length)
    ensures Holds(files[NameOf(k) := FileOf(k, content)], targets[k := content])
  {
    hide NameOf, FileOf;
    var after, now := files[NameOf(k) := FileOf(k, content)], targets[k := content];
    forall j <- now ensures NameOf(j) in after && after[NameOf(j)] == FileOf(j, now[j]) { NamesApart(j, k); }
    forall name <- after ensures exists j <- now :: name == NameOf(j) {
      if name == NameOf(k) {
        assert k in now;
      } else {
        var j :| j in targets && name == NameOf(j);
        assert j in now;
      }
    }
  }

  /** A removal likewise. */
  lemma RemovalIsOneFile(files: map<string, Content<TargetPathBind>>, targets: map<Target, Content<Path>>,
                         k: Target, length: nat)
    requires Holds(files, targets) && OneLength(targets.Keys + {k}, length)
    ensures Holds(files - {NameOf(k)}, targets - {k})
  {
    hide NameOf, FileOf;
    var after, now := files - {NameOf(k)}, targets - {k};
    forall j <- now ensures NameOf(j) in after && after[NameOf(j)] == FileOf(j, now[j]) { NamesApart(j, k); }
    forall name <- after ensures exists j <- now :: name == NameOf(j) {
      var j :| j in targets && name == NameOf(j);
      assert j in now;
    }
  }

  /** Volumes, pods and paths have names. */
  predicate Named(targets: map<Target, Content<Path>>) {
    forall k <- targets :: |k.0| != 0 && |k.1| != 0 && (targets[k].Valid? ==> |targets[k].record| != 0)
  }

  lemma FilesAreWellNamed(files: map<string, Content<TargetPathBind>>, targets: map<Target, Content<Path>>)
    requires Holds(files, targets)
    ensures WellNamed(TARGET_BINDS, files)
  {
    forall name <- files | Loads(TARGET_BINDS, files, name) ensures name == StateFile(IdAt(TARGET_BINDS, files, name)) {
      var k :| k in targets && name == NameOf(k);
      assert files[name] == FileOf(k, targets[k]);
    }
  }

  /** The constructor can parse all files exactly when the node can start with these records. */
  lemma ReadableTheSame(files: map<string, Content<TargetPathBind>>, targets: map<Target, Content<Path>>)
    requires Holds(files, targets)
    ensures Readable(targets) <==> forall name <- files :: !Unparsable(files, name)
  {
    if j :| j in targets && !targets[j].Valid? {
      NamesAreDistinct(BindID(j.0, j.1), BindID(j.0, j.1));
      assert Unparsable(files, NameOf(j));
    }
    forall name <- files | Unparsable(files, name) ensures !Readable(targets) {
      var j :| j in targets && name == NameOf(j);
    }
  }

  /** It loads exactly the records that the node would. */
  lemma LoadsTheSame(files: map<string, Content<TargetPathBind>>, targets: map<Target, Content<Path>>,
                     listing: seq<string>, k: Target, length: nat)
    requires Holds(files, targets) && Named(targets) && OneLength(targets.Keys + {k}, length) && Lists(listing, files)
    ensures var binds, id := Fold(TARGET_BINDS, files, listing), BindID(k.0, k.1);
            && (id in binds <==> k in Load(targets))
            && (id in binds ==> binds[id] == TargetPathBind(k.0, k.1, Load(targets)[k]))
  {
    var id := BindID(k.0, k.1);
    FilesAreWellNamed(files, targets);
    FoldFinds(TARGET_BINDS, files, listing, id);
    NamesAreDistinct(id, id);
    if StateFile(id) in files {
      var j :| j in targets && StateFile(id) == NameOf(j);
      NamesApart(j, k);
    }
  }

  /** The reverse index names the key whose path it is. */
  lemma IndexesTheSame(files: map<string, Content<TargetPathBind>>, targets: map<Target, Content<Path>>,
                       listing: seq<string>, k: Target, length: nat)
    requires Holds(files, targets) && Named(targets) && OneLength(targets.Keys, length) && Lists(listing, files)
    requires forall i, j | i in Load(targets) && j in Load(targets) && Load(targets)[i] == Load(targets)[j] :: i == j
    requires k in Load(targets)
    ensures var index, path := FoldIndex(files, listing), Load(targets)[k];
            path in index && index[path] == BindID(k.0, k.1)
  {
    var binds, index := Fold(TARGET_BINDS, files, listing), FoldIndex(files, listing);
    assert targets.Keys + {k} == targets.Keys;
    FilesAreWellNamed(files, targets);
    LoadsTheSame(files, targets, listing, k, length);
    FilesHaveDistinctPaths(files, targets);
    FoldIndexIsInverse(files, listing);
  }

  lemma FilesHaveDistinctPaths(files: map<string, Content<TargetPathBind>>, targets: map<Target, Content<Path>>)
    requires Holds(files, targets)
    requires forall i, j | i in Load(targets) && j in Load(targets) && Load(targets)[i] == Load(targets)[j] :: i == j
    ensures DistinctPaths(files)
  {
    forall a <- files, b <- files | Loads(TARGET_BINDS, files, a) && Loads(TARGET_BINDS, files, b)
                                    && files[a].record.targetPath == files[b].record.targetPath
      ensures a == b
    {
      var i :| i in targets && a == NameOf(i);
      var j :| j in targets && b == NameOf(j);
      assert Load(targets)[i] == Load(targets)[j];
    }
  }

  // Runs.

  /** What an action does to the directory of target path files, by name: os.Create, Encode and os.Remove. */
  function FilesStep(c: Config, files: map<string, Content<TargetPathBind>>, s: State, a: Action)
    : map<string, Content<TargetPathBind>>
  {
    if !(Running(s) && a.Advance? && a.ok && a.lane in s.busy) then files
    else
      var v := a.lane.vol;
      match s.busy[a.lane]
      case Publish(u, CreateTarget) => files[NameOf((v, u)) := Torn]
      case Publish(u, WriteTarget) =>
        if (v, u) !in c.target then files
        else files[NameOf((v, u)) := Valid(TargetPathBind(v, u, c.target[(v, u)]))]
      case Unpublish(u, RemoveTarget) =>
        var m := s.memory.value;
        if (v, u) in c.target && c.target[(v, u)] in m.index && m.index[c.target[(v, u)]] in m.targets
        then files - {NameOf(m.index[c.target[(v, u)]])}
        else files
      case _ => files
  }

  ghost function FilesAfter(c: Config, acts: seq<Action>): map<string, Content<TargetPathBind>>
    requires ValidConfig(c) && Legal(c, acts)
    decreases |acts|
  {
    if acts == [] then map[]
    else
      var before, a := acts[..|acts| - 1], acts[|acts| - 1];
      FilesStep(c, FilesAfter(c, before), After(c, before), a)
  }

  /** All that a publish does to these files. */
  lemma PublishDisk(c: Config, s: State, v: Vol, op: Op, ok: bool, took: bool)
    requires Running(s) && op.Publish? && (v, op.pod) in c.target
    ensures var k := (v, op.pod);
            StepPublish(c, s, v, op, ok, took).disk.targets
            == (if ok && op.publishStep == CreateTarget then s.disk.targets[k := Torn]
                else if ok && op.publishStep == WriteTarget then s.disk.targets[k := Valid(c.target[k])]
                else s.disk.targets)
  {
  }

  lemma PublishFiles(c: Config, s: State, v: Vol, ok: bool, took: bool, files: map<string, Content<TargetPathBind>>,
                     length: nat)
    requires Underway(c, s, CallOn(v)) && s.busy[CallOn(v)].Publish? && Running(s) && Sensible(c, s)
    requires OneLength(c.target.Keys, length) && Holds(files, s.disk.targets) && s.disk.targets.Keys <= c.target.Keys
    ensures var t := StepPublish(c, s, v, s.busy[CallOn(v)], ok, took);
            && Holds(FilesStep(c, files, s, Advance(CallOn(v), ok, took)), t.disk.targets)
            && t.disk.targets.Keys <= c.target.Keys
  {
    var k := (v, s.busy[CallOn(v)].pod);
    assert s.disk.targets.Keys + {k} <= c.target.Keys;
    hide Underway, ValidConfig, Holds, NameOf, StepPublish;
    WriteIsOneFile(files, s.disk.targets, k, Torn, length);
    WriteIsOneFile(files, s.disk.targets, k, Valid(c.target[k]), length);
    PublishDisk(c, s, v, s.busy[CallOn(v)], ok, took);
  }

  lemma UnpublishFiles(c: Config, s: State, v: Vol, ok: bool, took: bool, files: map<string, Content<TargetPathBind>>,
                       length: nat)
    requires Underway(c, s, CallOn(v)) && s.busy[CallOn(v)].Unpublish? && Running(s) && Sensible(c, s)
    requires OneLength(c.target.Keys, length) && Holds(files, s.disk.targets) && s.disk.targets.Keys <= c.target.Keys
    ensures var t := StepUnpublish(c, s, v, s.busy[CallOn(v)], ok, took);
            && Holds(FilesStep(c, files, s, Advance(CallOn(v), ok, took)), t.disk.targets)
            && t.disk.targets.Keys <= c.target.Keys
  {
    var k := (v, s.busy[CallOn(v)].pod);
    assert s.disk.targets.Keys + {k} <= c.target.Keys;
    IndexAt(c, s, k);
    UnpublishDisk(c, s, v, ok, took);
    RemovalIsOneFile(files, s.disk.targets, k, length);
    hide Underway, ValidConfig, Holds, NameOf, StepUnpublish;
  }

  /** No other operation touches these files. */
  lemma OthersLeaveFiles(c: Config, s: State, lane: Lane, ok: bool, took: bool)
    requires ValidConfig(c) && Running(s) && lane in s.busy && Sensible(c, s)
    requires !s.busy[lane].Publish? && !s.busy[lane].Unpublish?
    ensures Step(c, s, lane, ok, took).disk.targets == s.disk.targets
    ensures forall files :: FilesStep(c, files, s, Advance(lane, ok, took)) == files
  {
    hide StepPublish, StepUnpublish;
  }

  lemma RequestsLeaveFiles(c: Config, s: State, a: Action)
    requires ValidConfig(c) && Sensible(c, s) && Enabled(c, s, a) && !a.Advance?
    ensures Apply(c, s, a).disk == s.disk
    ensures forall files :: FilesStep(c, files, s, a) == files
  {
    hide LoadAll, Step;
  }

  lemma StepFiles(c: Config, s: State, a: Action, files: map<string, Content<TargetPathBind>>, length: nat)
    requires ValidConfig(c) && Inv(c, s) && Sensible(c, s) && Enabled(c, s, a)
    requires OneLength(c.target.Keys, length) && Holds(files, s.disk.targets) && s.disk.targets.Keys <= c.target.Keys
    ensures Holds(FilesStep(c, files, s, a), Apply(c, s, a).disk.targets)
    ensures Apply(c, s, a).disk.targets.Keys <= c.target.Keys
  {
    hide Inv, Holds, FilesStep, StepPublish, StepUnpublish, StepSync, StepStage, StepUnstage, ValidConfig, LoadAll;
    if !a.Advance? {
      RequestsLeaveFiles(c, s, a);
    } else {
      VolOf(c, s, a.lane.vol);
      match s.busy[a.lane]
      case Publish(_, _) => PublishFiles(c, s, a.lane.vol, a.ok, a.took, files, length);
      case Unpublish(_, _) => UnpublishFiles(c, s, a.lane.vol, a.ok, a.took, files, length);
      case _ => OthersLeaveFiles(c, s, a.lane, a.ok, a.took);
    }
  }

  /** In every run, the files of the state manager hold the records of the node, neither more nor less. */
  lemma {:induction false} FilesHoldRecords(c: Config, acts: seq<Action>, length: nat)
    requires ValidConfig(c) && Legal(c, acts) && OneLength(c.target.Keys, length)
    ensures Holds(FilesAfter(c, acts), After(c, acts).disk.targets)
    ensures After(c, acts).disk.targets.Keys <= c.target.Keys
  {
    hide Holds, FilesStep, Apply, Enabled, ValidConfig;
    if acts == [] {
      NothingHeld();
    } else {
      var before, a := acts[..|acts| - 1], acts[|acts| - 1];
      FilesHoldRecords(c, before, length);
      InvRun(c, before);
      StepFiles(c, After(c, before), a, FilesAfter(c, before), length);
    }
  }

  lemma NothingHeld()
    ensures Holds(map[], map[])
  {
  }

  /** After a restart, the map of binds that the constructor loaded from the files is what the node works with. */
  lemma RestartLoadsFiles(c: Config, acts: seq<Action>, listing: seq<string>, k: Target, length: nat)
    requires ValidConfig(c) && Legal(c, acts) && Legal(c, acts + [Restart]) && OneLength(c.target.Keys + {k}, length)
    requires forall j <- c.target :: |j.0| != 0 && |j.1| != 0 && |c.target[j]| != 0
    requires Lists(listing, FilesAfter(c, acts))
    ensures Running(After(c, acts + [Restart]))
    ensures var binds, id := Fold(TARGET_BINDS, FilesAfter(c, acts), listing), BindID(k.0, k.1);
            var targets := After(c, acts + [Restart]).memory.value.targets;
            (id in binds <==> k in targets) && (id in binds ==> binds[id] == TargetPathBind(k.0, k.1, targets[k]))
  {
    hide Legal, Holds;
    var s := After(c, acts);
    FilesHoldRecords(c, acts, length);
    InvRun(c, acts);
    RecordsAreNamed(c, s);
    Restarted(c, acts);
    assert s.disk.targets.Keys + {k} <= c.target.Keys + {k};
    hide After, Inv, Named;
    LoadsTheSame(FilesAfter(c, acts), s.disk.targets, listing, k, length);
  }

  lemma Restarted(c: Config, acts: seq<Action>)
    requires ValidConfig(c) && Legal(c, acts) && Legal(c, acts + [Restart])
    ensures var t := After(c, acts + [Restart]);
            Running(t) && t.memory.value.targets == Load(After(c, acts).disk.targets)
  {
    assert (acts + [Restart])[..|acts|] == acts;
  }

  lemma RecordsAreNamed(c: Config, s: State)
    requires Inv(c, s) && s.disk.targets.Keys <= c.target.Keys
    requires forall j <- c.target :: |j.0| != 0 && |j.1| != 0 && |c.target[j]| != 0
    ensures Named(s.disk.targets)
  {
    forall j <- s.disk.targets | s.disk.targets[j].Valid? ensures |s.disk.targets[j].record| != 0 {
      assert VolInv(c, s, j.0) && TargetInv(c, s, (j.0, j.1));
    }
  }
}
