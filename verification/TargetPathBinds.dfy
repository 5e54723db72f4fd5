/** The state manager of target paths with its reverse index (pkg/targetpathbind/state), and the manager of
    the directories themselves (pkg/targetpathbind/manager.go). */
module TargetPathBinds {
  import opened Kubernetes
  import opened BindKeys
  import opened StateFiles
  import opened StateManagers

  // The reverse index.

  /** The index is the inverse of the binds. */
  predicate Inverse(binds: map<string, TargetPathBind>, index: map<string, string>) {
    && (forall id <- binds :: binds[id].targetPath in index && index[binds[id].targetPath] == id)
    && (forall path <- index :: index[path] in binds && binds[index[path]].targetPath == path)
  }

  /** Reloading: the file read last names the entry of its path. */
  function FoldIndex(files: map<string, Content<TargetPathBind>>, listing: seq<string>): map<string, string> {
    if listing == [] then map[]
    else
      var before, name := FoldIndex(files, listing[..|listing| - 1]), listing[|listing| - 1];
      if Loads(TARGET_BINDS, files, name)
      then before[files[name].record.targetPath := files[name].record.GetID()]
      else before
  }

  /** Each path names an entry that has it, and each entry's path is there. */
  predicate Fits(binds: map<string, TargetPathBind>, index: map<string, string>) {
    && (forall id <- binds :: binds[id].targetPath in index)
    && (forall path <- index :: index[path] in binds && binds[index[path]].targetPath == path)
  }

  lemma FitsAfter(binds: map<string, TargetPathBind>, index: map<string, string>, record: TargetPathBind)
    requires Fits(binds, index) && (record.GetID() in binds ==> binds[record.GetID()] == record)
    ensures Fits(binds[record.GetID() := record], index[record.targetPath := record.GetID()])
  {
  }

  lemma {:induction false} FoldIndexFits(files: map<string, Content<TargetPathBind>>, listing: seq<string>)
    requires WellNamed(TARGET_BINDS, files)
    ensures Fits(Fold(TARGET_BINDS, files, listing), FoldIndex(files, listing))
  {
    if listing != [] {
      var n := |listing| - 1;
      FoldIndexFits(files, listing[..n]);
      if Loads(TARGET_BINDS, files, listing[n]) {
        var record := files[listing[n]].record;
        FoldFinds(TARGET_BINDS, files, listing[..n], record.GetID());
        FitsAfter(Fold(TARGET_BINDS, files, listing[..n]), FoldIndex(files, listing[..n]), record);
      }
    }
  }

  predicate DistinctPaths(files: map<string, Content<TargetPathBind>>) {
    forall a <- files, b <- files | Loads(TARGET_BINDS, files, a) && Loads(TARGET_BINDS, files, b)
                  && files[a].record.targetPath == files[b].record.targetPath :: a == b
  }

  lemma FoldIndexIsInverse(files: map<string, Content<TargetPathBind>>, listing: seq<string>)
    requires WellNamed(TARGET_BINDS, files) && DistinctPaths(files)
    ensures Inverse(Fold(TARGET_BINDS, files, listing), FoldIndex(files, listing))
  {
    var binds, index := Fold(TARGET_BINDS, files, listing), FoldIndex(files, listing);
    FoldIndexFits(files, listing);
    forall id <- binds ensures index[binds[id].targetPath] == id {
      var other := index[binds[id].targetPath];
      FoldFinds(TARGET_BINDS, files, listing, id);
      FoldFinds(TARGET_BINDS, files, listing, other);
      NamesAreDistinct(id, other);
    }
  }

  lemma InverseIsUnique(binds: map<string, TargetPathBind>, one: map<string, string>, other: map<string, string>)
    requires Inverse(binds, one) && Inverse(binds, other)
    ensures one == other
  {
  }

  lemma {:induction false} SomeListing(names: set<string>) returns (listing: seq<string>)
    ensures forall name :: name in listing <==> name in names
  {
    listing := [];
    var rest := names;
    while rest != {}
      invariant rest <= names && forall name :: name in listing <==> name in names - rest
    {
      var name :| name in rest;
      listing, rest := listing + [name], rest - {name};
    }
  }

  /** The reloaded index does not depend on the order of the files exactly when no two of them name one path. */
  lemma IndexOrder(files: map<string, Content<TargetPathBind>>)
    requires WellNamed(TARGET_BINDS, files)
    ensures DistinctPaths(files) <==>
            forall one, other | Lists(one, files) && Lists(other, files) ::
              FoldIndex(files, one) == FoldIndex(files, other)
  {
    if DistinctPaths(files) {
      forall one, other | Lists(one, files) && Lists(other, files) ensures FoldIndex(files, one) == FoldIndex(files, other) {
        OrderIsIrrelevant(TARGET_BINDS, files, one, other);
        FoldIndexIsInverse(files, one);
        FoldIndexIsInverse(files, other);
        InverseIsUnique(Fold(TARGET_BINDS, files, one), FoldIndex(files, one), FoldIndex(files, other));
      }
    } else {
      var a, b :| Loads(TARGET_BINDS, files, a) && Loads(TARGET_BINDS, files, b)
                  && files[a].record.targetPath == files[b].record.targetPath && a != b;
      var all := SomeListing(files.Keys);
      LastFileWins(files, all, a);
      LastFileWins(files, all, b);
      assert Lists(all + [a], files) && Lists(all + [b], files);
    }
  }

  lemma LastFileWins(files: map<string, Content<TargetPathBind>>, listing: seq<string>, name: string)
    requires Loads(TARGET_BINDS, files, name)
    ensures var path, index := files[name].record.targetPath, FoldIndex(files, listing + [name]);
            path in index && index[path] == files[name].record.GetID()
  {
    assert (listing + [name])[..|listing|] == listing;
  }

  // Saving and deleting.

  /** The bind keeps the path that its pod already has, and takes no other bind's path. */
  predicate KeepsPaths(binds: map<string, TargetPathBind>, index: map<string, string>, bind: TargetPathBind) {
    && (bind.GetID() in binds ==> binds[bind.GetID()].targetPath == bind.targetPath)
    && (bind.targetPath in index ==> index[bind.targetPath] == bind.GetID())
  }

  /** Saving keeps the index exact exactly when the bind keeps paths apart. */
  lemma SaveAndIndex(binds: map<string, TargetPathBind>, index: map<string, string>, bind: TargetPathBind)
    requires Inverse(binds, index)
    ensures Inverse(binds[bind.GetID() := bind], index[bind.targetPath := bind.GetID()]) <==>
            KeepsPaths(binds, index, bind)
  {
    var id, path := bind.GetID(), bind.targetPath;
    var newBinds, newIndex := binds[id := bind], index[path := id];
    if id in binds && binds[id].targetPath != path {
      assert newIndex[binds[id].targetPath] == id && newBinds[id].targetPath == path;
    } else if path in index && index[path] != id {
      assert newBinds[index[path]].targetPath == path && newIndex[path] == id;
    }
  }

  lemma DeleteAndIndex(binds: map<string, TargetPathBind>, index: map<string, string>, path: string)
    requires Inverse(binds, index) && path in index
    ensures index[path] in binds && binds[index[path]].targetPath == path
    ensures Inverse(binds - {index[path]}, index - {path})
  {
  }

  lemma NamedById(files: map<string, Content<TargetPathBind>>, binds: map<string, TargetPathBind>, id: string)
    requires InSync(TARGET_BINDS, files, binds) && id in binds
    ensures binds[id].GetID() == id
  {
  }

  class TargetBinds {
    const dir: Directory<TargetPathBind>
    var binds: map<string, TargetPathBind>
    var targetPathToBindID: map<string, string>

    constructor (dir: Directory<TargetPathBind>, binds: map<string, TargetPathBind>, index: map<string, string>)
      ensures this.dir == dir && this.binds == binds && targetPathToBindID == index
    {
      this.dir, this.binds, targetPathToBindID := dir, binds, index;
    }

    ghost predicate Valid()
      reads this, dir
    {
      InSync(TARGET_BINDS, dir.files, binds) && Inverse(binds, targetPathToBindID)
    }

    predicate Knows(targetPath: string)
      reads this
    {
      targetPath in targetPathToBindID && targetPathToBindID[targetPath] in binds
    }

    /** NewPersistentStateManager. */
    static method Open(dir: Directory<TargetPathBind>, walk: Walk) returns (sm: Option<TargetBinds>)
      ensures sm.Some? <==> Passes(dir.files, walk)
      ensures sm.Some? <==>
              walk.Walked? && forall name <- walk.names | name in dir.files && IsStateFile(name) ::
                                name !in walk.unreadable && dir.files[name].Valid?
      // Exactly the valid records are loaded.
      ensures sm.Some? ==> forall id <- sm.value.binds ::
                var bind := sm.value.binds[id];
                && bind.GetID() == id && |bind.volumeID| != 0 && |bind.podUID| != 0 && |bind.targetPath| != 0
                && exists name <- walk.names :: name in dir.files && IsStateFile(name)
                                                && dir.files[name] == StateFiles.Valid(bind)
      ensures sm.Some? ==> forall name <- walk.names | name in dir.files && IsStateFile(name) && dir.files[name].Valid? ::
                var bind := dir.files[name].record;
                |bind.volumeID| != 0 && |bind.podUID| != 0 && |bind.targetPath| != 0 ==> bind.GetID() in sm.value.binds
      ensures sm.Some? ==> fresh(sm.value) && sm.value.dir == dir
                           && sm.value.binds == Fold(TARGET_BINDS, dir.files, walk.names)
                           && sm.value.targetPathToBindID == FoldIndex(dir.files, walk.names)
    {
      if walk.WalkFails? {
        return None;
      }
      var listing := walk.names;
      var loaded, index := map[], map[];
      for i := 0 to |listing|
        invariant loaded == Fold(TARGET_BINDS, dir.files, listing[..i]) && index == FoldIndex(dir.files, listing[..i])
        invariant forall name <- listing[..i] :: PassesFile(dir.files, walk, name)
      {
        assert listing[..i + 1][..i] == listing[..i];
        var name := listing[i];
        if name in dir.files && IsStateFile(name) {
          if name in walk.unreadable || dir.files[name].Torn? {
            assert !PassesFile(dir.files, walk, name);
            return None;
          }
          var record := dir.files[name].record;
          if record.IsValid() {
            loaded := loaded[record.GetID() := record];
            index := index[record.targetPath := record.GetID()];
          }
        }
      }
      FoldIsFromFiles(TARGET_BINDS, dir.files, listing);
      assert listing[..|listing|] == listing;
      var manager := new TargetBinds(dir, loaded, index);
      sm := Some(manager);
    }

    method SaveTargetPathBind(bind: TargetPathBind) returns (ok: bool)
      modifies this, dir
      ensures ok ==> && binds == old(binds)[bind.GetID() := bind]
                     && dir.files == old(dir.files)[StateFile(bind.GetID()) := StateFiles.Valid(bind)]
                     && targetPathToBindID == old(targetPathToBindID)[bind.targetPath := bind.GetID()]
      ensures !ok ==> binds == old(binds) && targetPathToBindID == old(targetPathToBindID)
      ensures old(dir.calls) <= dir.calls
              && Saves(old(dir.files), dir.files, dir.calls[|old(dir.calls)|..], StateFile(bind.GetID()), bind, ok)
      ensures old(Valid()) && bind.IsValid() && KeepsPaths(old(binds), old(targetPathToBindID), bind) ==> Valid()
    {
      if Valid() && bind.IsValid() {
        SaveKeepsSync(TARGET_BINDS, dir.files, binds, bind);
        SaveAndIndex(binds, targetPathToBindID, bind);
      }
      hide InSync, Inverse;
      ok := dir.Create(StateFile(bind.GetID()));
      if !ok {
        return;
      }
      ok := dir.Encode(StateFile(bind.GetID()), bind);
      if !ok {
        return;
      }
      assert dir.files == old(dir.files)[StateFile(bind.GetID()) := StateFiles.Valid(bind)];
      binds := binds[bind.GetID() := bind];
      targetPathToBindID := targetPathToBindID[bind.targetPath := bind.GetID()];
    }

    /** Removes precisely the bind of that path, from the disk and from both maps, or nothing at all. */
    method DeleteTargetPathBind(targetPath: string) returns (ok: bool)
      modifies this, dir
      ensures !old(Knows(targetPath)) ==> ok && dir.calls == old(dir.calls) && dir.files == old(dir.files)
      ensures ok && old(Knows(targetPath)) ==>
                var id := old(targetPathToBindID)[targetPath];
                && binds == old(binds) - {id} && targetPathToBindID == old(targetPathToBindID) - {targetPath}
                && dir.files == old(dir.files) - {StateFile(old(binds)[id].GetID())}
                && (old(Valid()) ==> old(binds)[id].targetPath == targetPath && old(binds)[id].GetID() == id)
      ensures old(Knows(targetPath)) ==>
                var id := old(targetPathToBindID)[targetPath];
                StateFile(old(binds)[id].GetID()) !in old(dir.files) ==> ok
      ensures old(Knows(targetPath)) ==>
                && old(dir.calls) <= dir.calls
                && Deletes(old(dir.files), dir.files, dir.calls[|old(dir.calls)|..],
                           StateFile(old(binds)[old(targetPathToBindID)[targetPath]].GetID()), ok)
      ensures !ok || !old(Knows(targetPath)) ==> binds == old(binds) && targetPathToBindID == old(targetPathToBindID)
      ensures old(Valid()) ==> Valid()
    {
      if targetPath !in targetPathToBindID {
        return true;
      }
      var bindID := targetPathToBindID[targetPath];
      if bindID !in binds {
        return true;
      }
      var bind := binds[bindID];
      if Valid() {
        DeleteKeepsSync(TARGET_BINDS, dir.files, binds, bindID);
        DeleteAndIndex(binds, targetPathToBindID, targetPath);
        NamedById(dir.files, binds, bindID);
      }
      hide InSync, Inverse;
      var removed := dir.Remove(StateFile(BindID(bind.volumeID, bind.podUID)));
      if removed == Err(OtherFailure) {
        return false;
      }
      targetPathToBindID := targetPathToBindID - {targetPath};
      binds := binds - {bindID};
      ok := true;
    }

    method GetTargetPathBind(volumeID: string, podUID: string) returns (bind: Option<TargetPathBind>)
      ensures bind == if BindID(volumeID, podUID) in binds then Some(binds[BindID(volumeID, podUID)]) else None
    {
      var bindID := BindID(volumeID, podUID);
      bind := if bindID in binds then Some(binds[bindID]) else None;
    }
  }

  /** Files and maps in step reload, in any order, to the same map and the same index. */
  lemma ReloadGivesBackBoth(files: map<string, Content<TargetPathBind>>, binds: map<string, TargetPathBind>,
                            index: map<string, string>, listing: seq<string>)
    requires InSync(TARGET_BINDS, files, binds) && Inverse(binds, index)
    requires Lists(listing, files) && forall name <- files :: !Unparsable(files, name)
    ensures Fold(TARGET_BINDS, files, listing) == binds && FoldIndex(files, listing) == index
  {
    ReloadGivesBack(TARGET_BINDS, files, binds, listing);
    FoldIndexIsInverse(files, listing);
    InverseIsUnique(binds, FoldIndex(files, listing), index);
  }

  // The directories.

  const TARGET_PERM: bv32 := 0x120 // 0440

  /** A system call on a directory and how it turned out. */
  datatype PathCall =
    | Made(path: string, done: bool)
    | Examined(path: string, perm: Option<bv32>)
    | Moded(path: string, mode: bv32, done: bool)
    | PathRemoved(path: string, answer: Result<(), FileError>)

  class Directories {
    var perms: map<string, bv32>
    ghost var calls: seq<PathCall>

    constructor ()
      ensures perms == map[] && calls == []
    {
      perms, calls := map[], [];
    }

    /** os.Mkdir; a directory that exists is not an error of its own. */
    method Mkdir(path: string, perm: bv32) returns (ok: bool)
      modifies this
      ensures perms - {path} == old(perms) - {path} && (ok <==> path in perms)
      ensures path in old(perms) ==> perms == old(perms)
      ensures calls == old(calls) + [Made(path, ok)]
    {
      ok := *;
      ok := ok || path in perms;
      calls := calls + [Made(path, ok)];
      if ok && path !in perms {
        var masked: bv32 := *;
        perms := perms[path := masked];
      }
    }

    method Lstat(path: string) returns (perm: Option<bv32>)
      modifies this`calls
      ensures perm.Some? ==> path in perms && perms[path] == perm.value
      ensures calls == old(calls) + [Examined(path, perm)]
    {
      var ok := *;
      perm := if ok && path in perms then Some(perms[path]) else None;
      calls := calls + [Examined(path, perm)];
    }

    method Chmod(path: string, perm: bv32) returns (ok: bool)
      requires path in perms
      modifies this
      ensures perms == if ok then old(perms)[path := perm] else old(perms)
      ensures calls == old(calls) + [Moded(path, perm, ok)]
    {
      ok := *;
      calls := calls + [Moded(path, perm, ok)];
      if ok {
        perms := perms[path := perm];
      }
    }

    method Remove(path: string) returns (r: Result<(), FileError>)
      modifies this
      ensures r == Err(NotExist) <==> path !in old(perms)
      ensures perms == if r == Err(OtherFailure) then old(perms) else old(perms) - {path}
      ensures calls == old(calls) + [PathRemoved(path, r)]
    {
      var ok := *;
      r := if path !in perms then Err(NotExist) else if ok then Ok(()) else Err(OtherFailure);
      calls := calls + [PathRemoved(path, r)];
      if r != Err(OtherFailure) {
        perms := perms - {path};
      }
    }
  }

  /** The system calls that set up a path, none of which failed. */
  predicate PathIsSetUp(calls: seq<PathCall>, path: string) {
    && |calls| >= 2 && calls[0] == Made(path, true)
    && (|| calls[1..] == [Examined(path, Some(TARGET_PERM))]
        || (|calls| == 3 && calls[1].Examined? && calls[1].path == path && calls[1].perm.Some?
            && calls[1].perm.value != TARGET_PERM && calls[2] == Moded(path, TARGET_PERM, true)))
  }

  /** Those up to the one that failed. */
  predicate PathIsNotSetUp(calls: seq<PathCall>, path: string) {
    || calls == [Made(path, false)]
    || calls == [Made(path, true), Examined(path, None)]
    || (|calls| == 3 && calls[0] == Made(path, true) && calls[1].Examined? && calls[1].path == path
        && calls[1].perm.Some? && calls[2] == Moded(path, TARGET_PERM, false))
  }

  datatype SetUpError = CannotSetUpPath | CannotSaveState | CannotTearDownPath

  class TargetPathBindManager {
    const stateManager: TargetBinds
    const directories: Directories

    constructor (stateManager: TargetBinds, directories: Directories)
      ensures this.stateManager == stateManager && this.directories == directories
    {
      this.stateManager, this.directories := stateManager, directories;
    }

    ghost predicate SameRecords(files: map<string, Content<TargetPathBind>>, binds: map<string, TargetPathBind>,
                                index: map<string, string>)
      reads stateManager, stateManager.dir
    {
      stateManager.dir.files == files && stateManager.binds == binds && stateManager.targetPathToBindID == index
    }

    /** The path is there and recorded, or nothing is recorded and the errors say whether the path was left. */
    method SetUpTargetPath(volumeID: string, podUID: string, targetPath: string) returns (errs: seq<SetUpError>)
      modifies stateManager, stateManager.dir, directories
      ensures var bind := TargetPathBind(volumeID, podUID, targetPath);
              errs == [] ==>
                && targetPath in directories.perms && directories.perms[targetPath] == 0x120 // 0440
                && SameRecords(old(stateManager.dir.files)[StateFile(bind.GetID()) := StateFiles.Valid(bind)],
                               old(stateManager.binds)[bind.GetID() := bind],
                               old(stateManager.targetPathToBindID)[targetPath := bind.GetID()])
      ensures errs != [] ==> stateManager.binds == old(stateManager.binds)
                             && stateManager.targetPathToBindID == old(stateManager.targetPathToBindID)
      ensures errs in {[], [CannotSetUpPath], [CannotSaveState], [CannotSaveState, CannotTearDownPath]}
      ensures old(directories.calls) <= directories.calls && old(stateManager.dir.calls) <= stateManager.dir.calls
      // Each error has its failed system call.
      ensures errs == [CannotSetUpPath] ==>
                && stateManager.dir.files == old(stateManager.dir.files)
                && stateManager.dir.calls == old(stateManager.dir.calls)
                && PathIsNotSetUp(directories.calls[|old(directories.calls)|..], targetPath)
      ensures errs == [] ==> PathIsSetUp(directories.calls[|old(directories.calls)|..], targetPath)
      ensures CannotSaveState in errs ==>
                && Saves(old(stateManager.dir.files), stateManager.dir.files,
                         stateManager.dir.calls[|old(stateManager.dir.calls)|..], StateFile(BindID(volumeID, podUID)),
                         TargetPathBind(volumeID, podUID, targetPath), false)
                && (targetPath in directories.perms <==> CannotTearDownPath in errs)
                && |directories.calls| > |old(directories.calls)|
                && var last := directories.calls[|directories.calls| - 1];
                   && PathIsSetUp(directories.calls[|old(directories.calls)|..|directories.calls| - 1], targetPath)
                   && last.PathRemoved? && last.path == targetPath
                   && (CannotTearDownPath in errs <==> last.answer == Err(OtherFailure))
      ensures directories.perms - {targetPath} == old(directories.perms) - {targetPath}
      ensures old(stateManager.Valid())
              && TargetPathBind(volumeID, podUID, targetPath).IsValid()
              && KeepsPaths(old(stateManager.binds), old(stateManager.targetPathToBindID),
                            TargetPathBind(volumeID, podUID, targetPath)) ==>
                stateManager.Valid()
    {
      hide InSync, Inverse, KeepsPaths;
      var ok := SetUpPath(targetPath);
      if !ok {
        return [CannotSetUpPath];
      }
      ok := stateManager.SaveTargetPathBind(TargetPathBind(volumeID, podUID, targetPath));
      if !ok {
        errs := [CannotSaveState];
        ok := TearDownPath(targetPath);
        if !ok {
          errs := [CannotSaveState, CannotTearDownPath];
        }
        return errs;
      }
      errs := [];
    }

    method TearDownTargetPath(targetPath: string) returns (ok: bool)
      modifies stateManager, stateManager.dir, directories
      ensures ok ==> targetPath !in directories.perms && !stateManager.Knows(targetPath)
      ensures targetPath !in old(directories.perms) && !old(stateManager.Knows(targetPath)) ==> ok
      // One system call for the directory, and one for the file of a path that is known; only they can fail.
      ensures exists answer ::
                && directories.calls == old(directories.calls) + [PathRemoved(targetPath, answer)]
                && (answer == Err(OtherFailure) ==> !ok && stateManager.dir.calls == old(stateManager.dir.calls))
                && (answer != Err(OtherFailure) && !old(stateManager.Knows(targetPath)) ==> ok)
                && (answer != Err(OtherFailure) && old(stateManager.Knows(targetPath)) ==>
                      && old(stateManager.dir.calls) <= stateManager.dir.calls
                      && Deletes(old(stateManager.dir.files), stateManager.dir.files,
                                 stateManager.dir.calls[|old(stateManager.dir.calls)|..],
                                 StateFile(
                                   old(stateManager.binds)[old(stateManager.targetPathToBindID)[targetPath]].GetID()), ok))
      ensures directories.perms == old(directories.perms) || directories.perms == old(directories.perms) - {targetPath}
      ensures targetPath in directories.perms ==>
                SameRecords(old(stateManager.dir.files), old(stateManager.binds), old(stateManager.targetPathToBindID))
      ensures stateManager.targetPathToBindID - {targetPath} == old(stateManager.targetPathToBindID) - {targetPath}
      ensures old(stateManager.Valid()) ==> stateManager.Valid()
    {
      hide InSync, Inverse;
      ok := TearDownPath(targetPath);
      if !ok {
        return;
      }
      ok := stateManager.DeleteTargetPathBind(targetPath);
    }

    method GetTargetPath(volumeID: string, podUID: string) returns (path: Option<string>)
      ensures path == if BindID(volumeID, podUID) in stateManager.binds
                      then Some(stateManager.binds[BindID(volumeID, podUID)].targetPath) else None
    {
      var bind := stateManager.GetTargetPathBind(volumeID, podUID);
      path := if bind.Some? then Some(bind.value.targetPath) else None;
    }

    method SetUpPath(path: string) returns (ok: bool)
      modifies directories
      ensures ok ==> path in directories.perms && directories.perms[path] == TARGET_PERM
      ensures directories.perms - {path} == old(directories.perms) - {path}
      ensures old(directories.calls) <= directories.calls
              && var calls := directories.calls[|old(directories.calls)|..];
                 if ok then PathIsSetUp(calls, path) else PathIsNotSetUp(calls, path)
    {
      ok := directories.Mkdir(path, TARGET_PERM);
      if !ok {
        return;
      }
      var perm := directories.Lstat(path);
      if perm.None? {
        return false;
      }
      if perm.value != TARGET_PERM {
        ok := directories.Chmod(path, TARGET_PERM);
      }
    }

    method TearDownPath(path: string) returns (ok: bool)
      modifies directories
      ensures directories.perms == if ok then old(directories.perms) - {path} else old(directories.perms)
      ensures !ok ==> path in directories.perms
      ensures exists answer :: directories.calls == old(directories.calls) + [PathRemoved(path, answer)]
                               && (ok <==> answer != Err(OtherFailure))
    {
      var removed := directories.Remove(path);
      ok := removed != Err(OtherFailure);
    }
  }

  // A delete that comes again.

  method DeleteTargetPathBindAgain(sm: TargetBinds, targetPath: string) returns (first: bool, again: bool)
    modifies sm, sm.dir
    ensures first ==> again && !sm.Knows(targetPath)
  {
    first := sm.DeleteTargetPathBind(targetPath);
    again := sm.DeleteTargetPathBind(targetPath);
  }

  method TearDownTargetPathAgain(manager: TargetPathBindManager, targetPath: string) returns (first: bool, again: bool)
    modifies manager.stateManager, manager.stateManager.dir, manager.directories
    ensures first ==> again && !manager.stateManager.Knows(targetPath) && targetPath !in manager.directories.perms
  {
    first := manager.TearDownTargetPath(targetPath);
    again := manager.TearDownTargetPath(targetPath);
  }
}
