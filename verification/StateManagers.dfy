/** The three state managers: pkg/volume/bindstate, pkg/stagingtargetpathbindstate and
    pkg/targetpathbind/state. Each keeps a map in memory and one state file per entry; the last also keeps an
    index from target paths to entries. */
module StateManagers {
  import opened Kubernetes
  import opened BindKeys
  import opened StateFiles

  datatype VolumeBind = VolumeBind(proxyVolumeHandle: string, backend: Backend) {
    predicate IsValid() {
      |proxyVolumeHandle| != 0 && |backend.volumeHandle| != 0 && |backend.driverName| != 0
    }
  }

  datatype StagingBind = StagingBind(volumeID: string, stagingTargetPath: string) {
    predicate IsValid() {
      |volumeID| != 0 && |stagingTargetPath| != 0
    }
  }

  const VOLUME_BINDS: Kind<VolumeBind> := Kind((b: VolumeBind) => b.proxyVolumeHandle, (b: VolumeBind) => b.IsValid())
  const STAGING_BINDS: Kind<StagingBind> := Kind((b: StagingBind) => b.volumeID, (b: StagingBind) => b.IsValid())
  const TARGET_BINDS: Kind<TargetPathBind> := Kind((b: TargetPathBind) => b.GetID(), (b: TargetPathBind) => b.IsValid())

  /** The two system calls of a save, and what they leave of the files. */
  predicate Saves<R(==)>(before: map<string, Content<R>>, after: map<string, Content<R>>, calls: seq<FileCall<R>>,
                         name: string, record: R, ok: bool)
  {
    if ok then
      calls == [Created(name, true), Encoded(name, record, true)] && after == before[name := StateFiles.Valid(record)]
    else
      || (calls == [Created(name, false)] && after == before)
      || (calls == [Created(name, true), Encoded(name, record, false)] && after == before[name := Torn])
  }

  /** The one system call of a delete: a file that is not there is no failure. */
  predicate Deletes<R(==)>(before: map<string, Content<R>>, after: map<string, Content<R>>, calls: seq<FileCall<R>>,
                           name: string, ok: bool)
  {
    && (name !in before ==> ok)
    && |calls| == 1 && calls[0].Removed? && calls[0].name == name && (ok <==> calls[0].answer != Err(OtherFailure))
    && after == if ok then before - {name} else before
  }

  /** Saving a valid record and deleting one keep files and map in step, whether or not they succeed. */
  lemma SaveKeepsSync<R>(kind: Kind<R>, files: map<string, Content<R>>, binds: map<string, R>, record: R)
    requires InSync(kind, files, binds) && kind.valid(record)
    ensures var id := kind.id(record);
            && InSync(kind, files[StateFile(id) := Valid(record)], binds[id := record])
            && InSync(kind, files[StateFile(id) := Torn], binds)
  {
    var name := StateFile(kind.id(record));
    forall id ensures StateFile(id) == name <==> id == kind.id(record) { NamesAreDistinct(id, kind.id(record)); }
  }

  lemma DeleteKeepsSync<R>(kind: Kind<R>, files: map<string, Content<R>>, binds: map<string, R>, id: string)
    requires InSync(kind, files, binds)
    ensures InSync(kind, files - {StateFile(id)}, binds - {id})
    ensures id !in binds ==> InSync(kind, files - {StateFile(id)}, binds)
  {
    forall other ensures StateFile(other) == StateFile(id) <==> other == id { NamesAreDistinct(other, id); }
  }

  class VolumeBinds {
    const dir: Directory<VolumeBind>
    var binds: map<string, VolumeBind>

    constructor (dir: Directory<VolumeBind>, binds: map<string, VolumeBind>)
      ensures this.dir == dir && this.binds == binds
    {
      this.dir, this.binds := dir, binds;
    }

    ghost predicate Valid()
      reads this, dir
    {
      InSync(VOLUME_BINDS, dir.files, binds)
    }

    /** NewPersistentStateManager. */
    static method Open(dir: Directory<VolumeBind>, walk: Walk) returns (sm: Option<VolumeBinds>)
      ensures sm.Some? <==> Passes(dir.files, walk)
      ensures sm.Some? <==>
              walk.Walked? && forall name <- walk.names | name in dir.files && IsStateFile(name) ::
                                name !in walk.unreadable && dir.files[name].Valid?
      // Exactly the valid records are loaded.
      ensures sm.Some? ==> forall id <- sm.value.binds ::
                var bind := sm.value.binds[id];
                && bind.proxyVolumeHandle == id && |bind.proxyVolumeHandle| != 0
                && |bind.backend.volumeHandle| != 0 && |bind.backend.driverName| != 0
                && exists name <- walk.names :: name in dir.files && IsStateFile(name)
                                                && dir.files[name] == StateFiles.Valid(bind)
      ensures sm.Some? ==> forall name <- walk.names | name in dir.files && IsStateFile(name) && dir.files[name].Valid? ::
                var bind := dir.files[name].record;
                |bind.proxyVolumeHandle| != 0 && |bind.backend.volumeHandle| != 0 && |bind.backend.driverName| != 0 ==>
                  bind.proxyVolumeHandle in sm.value.binds
      ensures sm.Some? ==> fresh(sm.value) && sm.value.dir == dir
                           && sm.value.binds == Fold(VOLUME_BINDS, dir.files, walk.names)
    {
      if walk.WalkFails? {
        return None;
      }
      var listing := walk.names;
      var loaded := map[];
      for i := 0 to |listing|
        invariant loaded == Fold(VOLUME_BINDS, dir.files, listing[..i])
        invariant forall name <- listing[..i] :: PassesFile(dir.files, walk, name)
      {
        assert listing[..i + 1][..i] == listing[..i];
        var name := listing[i];
        if name in dir.files && IsStateFile(name) {
          if name in walk.unreadable || dir.files[name].Torn? {
            assert !PassesFile(dir.files, walk, name);
            return None;
          }
          var record := dir.files[name].record;
          if record.IsValid() {
            loaded := loaded[record.proxyVolumeHandle := record];
          }
        }
      }
      FoldIsFromFiles(VOLUME_BINDS, dir.files, listing);
      assert listing[..|listing|] == listing;
      var manager := new VolumeBinds(dir, loaded);
      sm := Some(manager);
    }

    method SaveVolumeBind(bind: VolumeBind) returns (ok: bool)
      modifies this, dir
      ensures binds == if ok then old(binds)[bind.proxyVolumeHandle := bind] else old(binds)
      ensures ok ==> dir.files == old(dir.files)[StateFile(bind.proxyVolumeHandle) := StateFiles.Valid(bind)]
      ensures old(dir.calls) <= dir.calls
              && Saves(old(dir.files), dir.files, dir.calls[|old(dir.calls)|..], StateFile(bind.proxyVolumeHandle), bind, ok)
      ensures old(Valid()) && bind.IsValid() ==> Valid()
    {
      if Valid() && bind.IsValid() { SaveKeepsSync(VOLUME_BINDS, dir.files, binds, bind); }
      ok := dir.Create(StateFile(bind.proxyVolumeHandle));
      if !ok {
        return;
      }
      ok := dir.Encode(StateFile(bind.proxyVolumeHandle), bind);
      if !ok {
        return;
      }
      assert dir.files == old(dir.files)[StateFile(bind.proxyVolumeHandle) := StateFiles.Valid(bind)];
      binds := binds[bind.proxyVolumeHandle := bind];
    }

    method DeleteVolumeBind(proxyVolumeHandle: string) returns (ok: bool)
      modifies this, dir
      ensures binds == if ok then old(binds) - {proxyVolumeHandle} else old(binds)
      ensures ok ==> dir.files == old(dir.files) - {StateFile(proxyVolumeHandle)}
      ensures StateFile(proxyVolumeHandle) !in old(dir.files) ==> ok
      ensures old(dir.calls) <= dir.calls
              && Deletes(old(dir.files), dir.files, dir.calls[|old(dir.calls)|..], StateFile(proxyVolumeHandle), ok)
      ensures old(Valid()) ==> Valid()
    {
      if Valid() { DeleteKeepsSync(VOLUME_BINDS, dir.files, binds, proxyVolumeHandle); }
      var removed := dir.Remove(StateFile(proxyVolumeHandle));
      if removed == Err(OtherFailure) {
        return false;
      }
      binds := binds - {proxyVolumeHandle};
      ok := true;
    }

    method GetVolumeBind(proxyVolumeHandle: string) returns (bind: Option<VolumeBind>)
      ensures bind == if proxyVolumeHandle in binds then Some(binds[proxyVolumeHandle]) else None
      ensures Valid() && bind.Some? ==> bind.value.proxyVolumeHandle == proxyVolumeHandle
    {
      bind := if proxyVolumeHandle in binds then Some(binds[proxyVolumeHandle]) else None;
    }
  }

  class StagingBinds {
    const dir: Directory<StagingBind>
    var binds: map<string, StagingBind>

    constructor (dir: Directory<StagingBind>, binds: map<string, StagingBind>)
      ensures this.dir == dir && this.binds == binds
    {
      this.dir, this.binds := dir, binds;
    }

    ghost predicate Valid()
      reads this, dir
    {
      InSync(STAGING_BINDS, dir.files, binds)
    }

    /** NewPersistentStateManager. */
    static method Open(dir: Directory<StagingBind>, walk: Walk) returns (sm: Option<StagingBinds>)
      ensures sm.Some? <==> Passes(dir.files, walk)
      ensures sm.Some? <==>
              walk.Walked? && forall name <- walk.names | name in dir.files && IsStateFile(name) ::
                                name !in walk.unreadable && dir.files[name].Valid?
      // Exactly the valid records are loaded.
      ensures sm.Some? ==> forall id <- sm.value.binds ::
                var bind := sm.value.binds[id];
                && bind.volumeID == id && |bind.volumeID| != 0 && |bind.stagingTargetPath| != 0
                && exists name <- walk.names :: name in dir.files && IsStateFile(name)
                                                && dir.files[name] == StateFiles.Valid(bind)
      ensures sm.Some? ==> forall name <- walk.names | name in dir.files && IsStateFile(name) && dir.files[name].Valid? ::
                var bind := dir.files[name].record;
                |bind.volumeID| != 0 && |bind.stagingTargetPath| != 0 ==> bind.volumeID in sm.value.binds
      ensures sm.Some? ==> fresh(sm.value) && sm.value.dir == dir
                           && sm.value.binds == Fold(STAGING_BINDS, dir.files, walk.names)
    {
      if walk.WalkFails? {
        return None;
      }
      var listing := walk.names;
      var loaded := map[];
      for i := 0 to |listing|
        invariant loaded == Fold(STAGING_BINDS, dir.files, listing[..i])
        invariant forall name <- listing[..i] :: PassesFile(dir.files, walk, name)
      {
        assert listing[..i + 1][..i] == listing[..i];
        var name := listing[i];
        if name in dir.files && IsStateFile(name) {
          if name in walk.unreadable || dir.files[name].Torn? {
            assert !PassesFile(dir.files, walk, name);
            return None;
          }
          var record := dir.files[name].record;
          if record.IsValid() {
            loaded := loaded[record.volumeID := record];
          }
        }
      }
      FoldIsFromFiles(STAGING_BINDS, dir.files, listing);
      assert listing[..|listing|] == listing;
      var manager := new StagingBinds(dir, loaded);
      sm := Some(manager);
    }

    method BindStagingTargetPath(volumeID: string, stagingTargetPath: string) returns (ok: bool)
      modifies this, dir
      ensures binds == if ok then old(binds)[volumeID := StagingBind(volumeID, stagingTargetPath)] else old(binds)
      ensures ok ==> dir.files == old(dir.files)[StateFile(volumeID) :=
                                    StateFiles.Valid(StagingBind(volumeID, stagingTargetPath))]
      ensures old(dir.calls) <= dir.calls
              && Saves(old(dir.files), dir.files, dir.calls[|old(dir.calls)|..], StateFile(volumeID),
                       StagingBind(volumeID, stagingTargetPath), ok)
      ensures old(Valid()) && |volumeID| != 0 && |stagingTargetPath| != 0 ==> Valid()
    {
      var bind := StagingBind(volumeID, stagingTargetPath);
      if Valid() && bind.IsValid() { SaveKeepsSync(STAGING_BINDS, dir.files, binds, bind); }
      ok := dir.Create(StateFile(volumeID));
      if !ok {
        return;
      }
      ok := dir.Encode(StateFile(volumeID), bind);
      if !ok {
        return;
      }
      assert dir.files == old(dir.files)[StateFile(volumeID) := StateFiles.Valid(bind)];
      binds := binds[volumeID := bind];
    }

    method UnbindStagingTargetPath(volumeID: string) returns (ok: bool)
      modifies this, dir
      ensures binds == if ok then old(binds) - {volumeID} else old(binds)
      ensures ok ==> dir.files == old(dir.files) - {StateFile(volumeID)}
      ensures StateFile(volumeID) !in old(dir.files) ==> ok
      ensures old(dir.calls) <= dir.calls
              && Deletes(old(dir.files), dir.files, dir.calls[|old(dir.calls)|..], StateFile(volumeID), ok)
      ensures old(Valid()) ==> Valid()
    {
      if Valid() { DeleteKeepsSync(STAGING_BINDS, dir.files, binds, volumeID); }
      var removed := dir.Remove(StateFile(volumeID));
      if removed == Err(OtherFailure) {
        return false;
      }
      binds := binds - {volumeID};
      ok := true;
    }

    method GetBoundStagingTargetPath(volumeID: string) returns (path: Option<string>)
      ensures path == if volumeID in binds then Some(binds[volumeID].stagingTargetPath) else None
    {
      path := if volumeID in binds then Some(binds[volumeID].stagingTargetPath) else None;
    }
  }

  // A delete that comes again, as the orchestrator repeats a call that already succeeded.

  method DeleteVolumeBindAgain(sm: VolumeBinds, proxyVolumeHandle: string) returns (first: bool, again: bool)
    modifies sm, sm.dir
    ensures first ==> again && proxyVolumeHandle !in sm.binds
  {
    first := sm.DeleteVolumeBind(proxyVolumeHandle);
    again := sm.DeleteVolumeBind(proxyVolumeHandle);
  }

  method UnbindStagingTargetPathAgain(sm: StagingBinds, volumeID: string) returns (first: bool, again: bool)
    modifies sm, sm.dir
    ensures first ==> again && volumeID !in sm.binds
  {
    first := sm.UnbindStagingTargetPath(volumeID);
    again := sm.UnbindStagingTargetPath(volumeID);
  }
}
