/** The node side as a step system: the CSI calls of the container orchestrator, the volume manager's
    syncVolume, the files and maps of the three state managers and the backend driver. Every system call,
    map update and backend call is a step of its own, and the process may crash between any two of them.

    Two parties act on a volume: the orchestrator, with one call at a time, and the volume manager, with one sync at
    a time. What they do interleaves freely, on one volume as on several, but for the two cases in which they would
    undo each other: a sync does not run beside an unstage of its volume, nor beside an unpublish for its own pod. */
module NodeLifecycle {
  import opened Kubernetes
  import opened StateFiles

  type Vol = string
  type Pod = string
  type Path = string
  type Target = (Vol, Pod)

  /** What does not change: the backend of each proxy volume, the path at which each volume of each pod is
      published, and the volumes whose backend driver has STAGE_UNSTAGE_VOLUME. */
  datatype Config = Config(backend: map<Vol, Backend>, target: map<Target, Path>, stages: set<Vol>)

  predicate ValidConfig(c: Config) {
    && (forall k <- c.target :: k.0 in c.backend)
    && (forall j, k | j in c.target && k in c.target && c.target[j] == c.target[k] :: j == k)
  }

  datatype Disk = Disk(
    binds: map<Vol, Content<Backend>>,
    staging: map<Vol, Content<Path>>,
    targets: map<Target, Content<Path>>)

  datatype Memory = Memory(
    binds: map<Vol, Backend>,
    staging: map<Vol, Path>,
    targets: map<Target, Path>,
    index: map<Path, Target>)

  datatype State = State(
    disk: Disk,
    memory: Option<Memory>,                    // none while the process is down
    dirs: set<Path>,
    staged: set<(string, string, Path)>,       // backend: driver, volume, staging path
    published: set<(Backend, Path)>,           // backend: volume, target path
    outstanding: set<Target>,                  // published by the orchestrator and not yet unpublished
    busy: map<Lane, Op>,
    marked: set<Target>)                       // the pod is annotated

  /** Who acts on a volume: the orchestrator by a call, or the volume manager by a sync. */
  datatype Lane = CallOn(vol: Vol) | SyncOf(vol: Vol)

  // The next step of an operation under way.
  datatype PublishStep = MakeDir | CreateTarget | WriteTarget | RememberTarget | RollBack
  datatype SyncStep =
    | Verify | CreateBind | WriteBind | RememberBind
    | FindDevice | StageVolume(device: Path) | PublishVolume | ChangeOwner | Annotate
  datatype UnpublishStep = CallUnpublish | RemoveDir | RemoveTarget | ForgetTarget
  datatype StageStep = CreateStaging | WriteStaging | RememberStaging
  datatype UnstageStep = CallUnstage | RemoveBind | ForgetBind | RemoveStaging | ForgetStaging

  datatype Op =
    | Publish(pod: Pod, publishStep: PublishStep)
    | Sync(pod: Pod, path: Path, syncStep: SyncStep)
    | Unpublish(pod: Pod, unpublishStep: UnpublishStep)
    | Stage(path: Path, stageStep: StageStep)
    | Unstage(path: Path, unstageStep: UnstageStep)

  datatype Action =
    | NodeStage(vol: Vol, path: Path)
    | NodePublish(vol: Vol, pod: Pod)
    | SyncVolume(vol: Vol, pod: Pod)
    | NodeUnpublish(vol: Vol, pod: Pod)
    | NodeUnstage(vol: Vol, path: Path)
    | Advance(lane: Lane, ok: bool, took: bool)  // whether the next step succeeds; a failed call to the
                                                 // backend or the API server may still have taken effect
    | Crash
    | Restart

  const Init := State(Disk(map[], map[], map[]), None, {}, {}, {}, {}, map[], {})

  // Loading the state files.

  ghost function KeyAt(targets: map<Target, Path>, path: Path): Target
    requires path in targets.Values
  {
    var k :| k in targets && targets[k] == path; k
  }

  ghost function Inverse(targets: map<Target, Path>): map<Path, Target> {
    map path | path in targets.Values :: KeyAt(targets, path)
  }

  ghost function LoadAll(disk: Disk): Memory {
    var targets := Load(disk.targets);
    Memory(Load(disk.binds), Load(disk.staging), targets, Inverse(targets))
  }

  predicate CanStart(disk: Disk) {
    Readable(disk.binds) && Readable(disk.staging) && Readable(disk.targets)
  }

  // Steps.

  predicate Running(s: State) {
    s.memory.Some?
  }

  predicate Outstanding(s: State, v: Vol) {
    exists k <- s.outstanding :: k.0 == v
  }

  /** A sync for pod `u` may run beside the call under way on its volume, if there is one. */
  predicate SyncMayRun(s: State, v: Vol, u: Pod) {
    CallOn(v) in s.busy ==>
      var call := s.busy[CallOn(v)];
      !call.Unstage? && !(call.Unpublish? && call.pod == u)
  }

  predicate Enabled(c: Config, s: State, a: Action) {
    match a
    case NodeStage(v, _) => Running(s) && CallOn(v) !in s.busy
    case NodePublish(v, u) => Running(s) && CallOn(v) !in s.busy && (v, u) in c.target
    case SyncVolume(v, u) =>
      && Running(s) && SyncOf(v) !in s.busy && (v, u) in c.target && (v, u) in s.memory.value.targets
      && SyncMayRun(s, v, u)
    case NodeUnpublish(v, u) =>
      && Running(s) && CallOn(v) !in s.busy && (v, u) in c.target
      && (SyncOf(v) in s.busy ==> s.busy[SyncOf(v)].Sync? && s.busy[SyncOf(v)].pod != u)
    case NodeUnstage(v, _) => Running(s) && CallOn(v) !in s.busy && SyncOf(v) !in s.busy && !Outstanding(s, v)
    case Advance(lane, _, _) => Running(s) && lane in s.busy
    case Crash => Running(s)
    case Restart => !Running(s) && CanStart(s.disk)
  }

  function Go(s: State, lane: Lane, op: Op): State {
    s.(busy := s.busy[lane := op])
  }

  function End(s: State, lane: Lane): State {
    s.(busy := s.busy - {lane})
  }

  function Remember(s: State, memory: Memory): State {
    s.(memory := Some(memory))
  }

  function StepPublish(c: Config, s: State, v: Vol, op: Op, ok: bool, took: bool): State
    requires Running(s) && op.Publish? && (v, op.pod) in c.target
  {
    var k, path, m := (v, op.pod), c.target[(v, op.pod)], s.memory.value;
    match op.publishStep
    case MakeDir =>
      var t := if ok then Go(s, CallOn(v), op.(publishStep := CreateTarget)) else End(s, CallOn(v));
      t.(dirs := if ok || took then s.dirs + {path} else s.dirs)
    case CreateTarget =>
      if ok then Go(s, CallOn(v), op.(publishStep := WriteTarget)).(disk := s.disk.(targets := s.disk.targets[k := Torn]))
      else Go(s, CallOn(v), op.(publishStep := RollBack))
    case WriteTarget =>
      if ok then
        Go(s, CallOn(v), op.(publishStep := RememberTarget)).(disk := s.disk.(targets := s.disk.targets[k := Valid(path)]))
      else Go(s, CallOn(v), op.(publishStep := RollBack))
    case RememberTarget =>
      Remember(End(s, CallOn(v)), m.(targets := m.targets[k := path], index := m.index[path := k]))
    case RollBack => End(s, CallOn(v)).(dirs := if ok then s.dirs - {path} else s.dirs)
  }

  function StepSync(c: Config, s: State, v: Vol, op: Op, ok: bool, took: bool): State
    requires Running(s) && op.Sync? && v in c.backend
  {
    var b, m := c.backend[v], s.memory.value;
    match op.syncStep
    case Verify => if ok then Go(s, SyncOf(v), op.(syncStep := CreateBind)) else End(s, SyncOf(v))
    case CreateBind =>
      if ok then Go(s, SyncOf(v), op.(syncStep := WriteBind)).(disk := s.disk.(binds := s.disk.binds[v := Torn]))
      else End(s, SyncOf(v))
    case WriteBind =>
      if ok then Go(s, SyncOf(v), op.(syncStep := RememberBind)).(disk := s.disk.(binds := s.disk.binds[v := Valid(b)]))
      else End(s, SyncOf(v))
    case RememberBind => Remember(Go(s, SyncOf(v), op.(syncStep := FindDevice)), m.(binds := m.binds[v := b]))
    case FindDevice =>
      if !ok then End(s, SyncOf(v))
      else if v !in c.stages then Go(s, SyncOf(v), op.(syncStep := PublishVolume))
      else if v !in m.staging then End(s, SyncOf(v))
      else Go(s, SyncOf(v), op.(syncStep := StageVolume(m.staging[v])))
    case StageVolume(device) =>
      var t := if ok then Go(s, SyncOf(v), op.(syncStep := PublishVolume)) else End(s, SyncOf(v));
      t.(staged := if ok || took then s.staged + {(b.driverName, b.volumeHandle, device)} else s.staged)
    case PublishVolume =>
      var t := if ok then Go(s, SyncOf(v), op.(syncStep := ChangeOwner)) else End(s, SyncOf(v));
      t.(published := if ok || took then s.published + {(b, op.path)} else s.published)
    case ChangeOwner =>
      if ok then Go(s, SyncOf(v), op.(syncStep := Annotate)) else End(s, SyncOf(v))
    case Annotate => End(s, SyncOf(v)).(marked := if ok || took then s.marked + {(v, op.pod)} else s.marked)
  }

  function StepUnpublish(c: Config, s: State, v: Vol, op: Op, ok: bool, took: bool): State
    requires Running(s) && op.Unpublish? && (v, op.pod) in c.target
  {
    var path, m := c.target[(v, op.pod)], s.memory.value;
    var done := End(s, CallOn(v)).(outstanding := s.outstanding - {(v, op.pod)});
    match op.unpublishStep
    case CallUnpublish =>
      if v !in m.binds then End(s, CallOn(v))
      else
        var t := if ok then Go(s, CallOn(v), op.(unpublishStep := RemoveDir)) else End(s, CallOn(v));
        t.(published := if ok || took then s.published - {(m.binds[v], path)} else s.published)
    case RemoveDir =>
      if ok then Go(s, CallOn(v), op.(unpublishStep := RemoveTarget)).(dirs := s.dirs - {path}) else End(s, CallOn(v))
    case RemoveTarget =>
      if !(path in m.index && m.index[path] in m.targets) then done
      else if ok then
        Go(s, CallOn(v), op.(unpublishStep := ForgetTarget)).(disk := s.disk.(targets := s.disk.targets - {m.index[path]}))
      else End(s, CallOn(v))
    case ForgetTarget =>
      if path in m.index then
        Remember(done, m.(targets := m.targets - {m.index[path]}, index := m.index - {path}))
      else done
  }

  function StepStage(s: State, v: Vol, op: Op, ok: bool): State
    requires Running(s) && op.Stage?
  {
    var m := s.memory.value;
    match op.stageStep
    case CreateStaging =>
      if ok then Go(s, CallOn(v), op.(stageStep := WriteStaging)).(disk := s.disk.(staging := s.disk.staging[v := Torn]))
      else End(s, CallOn(v))
    case WriteStaging =>
      if ok then
        Go(s, CallOn(v), op.(stageStep := RememberStaging)).(disk := s.disk.(staging := s.disk.staging[v := Valid(op.path)]))
      else End(s, CallOn(v))
    case RememberStaging => Remember(End(s, CallOn(v)), m.(staging := m.staging[v := op.path]))
  }

  function StepUnstage(c: Config, s: State, v: Vol, op: Op, ok: bool, took: bool): State
    requires Running(s) && op.Unstage?
  {
    var m := s.memory.value;
    match op.unstageStep
    case CallUnstage =>
      if v !in m.binds then End(s, CallOn(v))
      else
        var t := if ok then Go(s, CallOn(v), op.(unstageStep := RemoveBind)) else End(s, CallOn(v));
        t.(staged := if ok || took then s.staged - {(m.binds[v].driverName, v, op.path)} else s.staged)
    case RemoveBind =>
      if ok then Go(s, CallOn(v), op.(unstageStep := ForgetBind)).(disk := s.disk.(binds := s.disk.binds - {v}))
      else End(s, CallOn(v))
    case ForgetBind =>
      var t := if v in c.stages then Go(s, CallOn(v), op.(unstageStep := RemoveStaging)) else End(s, CallOn(v));
      Remember(t, m.(binds := m.binds - {v}))
    case RemoveStaging =>
      if ok then Go(s, CallOn(v), op.(unstageStep := ForgetStaging)).(disk := s.disk.(staging := s.disk.staging - {v}))
      else End(s, CallOn(v))
    case ForgetStaging => Remember(End(s, CallOn(v)), m.(staging := m.staging - {v}))
  }

  /** Operations under way are about volumes and pods that exist. */
  predicate SensibleOp(c: Config, lane: Lane, op: Op) {
    && (op.Sync? <==> lane.SyncOf?)
    && match op
       case Publish(u, _) => (lane.vol, u) in c.target
       case Sync(u, path, _) => (lane.vol, u) in c.target && path == c.target[(lane.vol, u)]
       case Unpublish(u, _) => (lane.vol, u) in c.target
       case _ => true
  }

  predicate Sensible(c: Config, s: State) {
    forall lane <- s.busy :: SensibleOp(c, lane, s.busy[lane])
  }

  function Step(c: Config, s: State, lane: Lane, ok: bool, took: bool): State
    requires ValidConfig(c) && Running(s) && lane in s.busy && Sensible(c, s)
  {
    var v, op := lane.vol, s.busy[lane];
    match op
    case Publish(_, _) => StepPublish(c, s, v, op, ok, took)
    case Sync(_, _, _) => StepSync(c, s, v, op, ok, took)
    case Unpublish(_, _) => StepUnpublish(c, s, v, op, ok, took)
    case Stage(_, _) => StepStage(s, v, op, ok)
    case Unstage(_, _) => StepUnstage(c, s, v, op, ok, took)
  }

  ghost function Apply(c: Config, s: State, a: Action): State
    requires ValidConfig(c) && Sensible(c, s) && Enabled(c, s, a)
  {
    match a
    case NodeStage(v, path) => Go(s, CallOn(v), Stage(path, CreateStaging))
    case NodePublish(v, u) => Go(s, CallOn(v), Publish(u, MakeDir)).(outstanding := s.outstanding + {(v, u)})
    case SyncVolume(v, u) => Go(s, SyncOf(v), Sync(u, s.memory.value.targets[(v, u)], Verify))
    case NodeUnpublish(v, u) =>
      Go(s, CallOn(v), Unpublish(u, if v in s.memory.value.binds then CallUnpublish else RemoveDir))
    case NodeUnstage(v, path) =>
      Go(s, CallOn(v), Unstage(path,
        if v !in s.memory.value.binds then RemoveStaging else if v in c.stages then CallUnstage else RemoveBind))
    case Advance(lane, ok, took) => Step(c, s, lane, ok, took)
    case Crash => s.(memory := None, busy := map[])
    case Restart => s.(memory := Some(LoadAll(s.disk)))
  }

  /** Whose step, or whose first step, the action is. */
  function LaneOf(a: Action): Lane
    requires !a.Crash? && !a.Restart?
  {
    match a
    case Advance(lane, _, _) => lane
    case SyncVolume(v, _) => SyncOf(v)
    case NodeStage(v, _) => CallOn(v)
    case NodePublish(v, _) => CallOn(v)
    case NodeUnpublish(v, _) => CallOn(v)
    case NodeUnstage(v, _) => CallOn(v)
  }

  // Runs.

  ghost predicate Legal(c: Config, acts: seq<Action>)
    requires ValidConfig(c)
    decreases |acts|, 0
  {
    acts == [] || (
      var before := acts[..|acts| - 1];
      && Legal(c, before)
      && Sensible(c, After(c, before)) && Enabled(c, After(c, before), acts[|acts| - 1]))
  }

  ghost function After(c: Config, acts: seq<Action>): State
    requires ValidConfig(c) && Legal(c, acts)
    decreases |acts|, 1
  {
    if acts == [] then Init
    else Apply(c, After(c, acts[..|acts| - 1]), acts[|acts| - 1])
  }
}
