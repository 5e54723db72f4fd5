/** The state files of the three managers, and what their constructors make of a directory of them. */
module StateFiles {
  import opened Kubernetes
  import opened BindKeys

  datatype Backend = Backend(volumeHandle: string, driverName: string)

  /** os.Create truncates a file before anything is written to it. */
  datatype Content<R> = Torn | Valid(record: R)

  function Load<K, R>(files: map<K, Content<R>>): map<K, R> {
    map k | k in files && files[k].Valid? :: files[k].record
  }

  predicate Readable<K, R>(files: map<K, Content<R>>) {
    forall k <- files :: files[k].Valid?
  }

  /** How one manager names and checks its records. */
  datatype Kind<!R> = Kind(id: R -> string, valid: R -> bool)

  datatype FileError = NotExist | OtherFailure

  /** A system call on a file and how it turned out. */
  datatype FileCall<R> =
    | Created(name: string, done: bool)
    | Encoded(name: string, record: R, done: bool)
    | Removed(name: string, answer: Result<(), FileError>)

  class Directory<R> {
    var files: map<string, Content<R>>
    ghost var calls: seq<FileCall<R>>

    constructor (files: map<string, Content<R>>)
      ensures this.files == files && calls == []
    {
      this.files, calls := files, [];
    }

    /** os.Create. */
    method Create(name: string) returns (ok: bool)
      modifies this
      ensures files == if ok then old(files)[name := Torn] else old(files)
      ensures calls == old(calls) + [Created(name, ok)]
    {
      ok := *;
      calls := calls + [Created(name, ok)];
      if ok {
        files := files[name := Torn];
      }
    }

    /** json.Encoder.Encode into the file just created. */
    method Encode(name: string, record: R) returns (ok: bool)
      requires name in files
      modifies this
      ensures files == if ok then old(files)[name := Valid(record)] else old(files)
      ensures calls == old(calls) + [Encoded(name, record, ok)]
    {
      ok := *;
      calls := calls + [Encoded(name, record, ok)];
      if ok {
        files := files[name := Valid(record)];
      }
    }

    /** os.Remove. */
    method Remove(name: string) returns (r: Result<(), FileError>)
      modifies this
      ensures r == Err(NotExist) <==> name !in old(files)
      ensures files == if r == Err(OtherFailure) then old(files) else old(files) - {name}
      ensures calls == old(calls) + [Removed(name, r)]
    {
      var ok := *;
      r := if name !in files then Err(NotExist) else if ok then Ok(()) else Err(OtherFailure);
      calls := calls + [Removed(name, r)];
      if r != Err(OtherFailure) {
        files := files - {name};
      }
    }
  }

  // Reading a directory back.

  /** A state file that the constructor cannot parse. */
  predicate Unparsable<R>(files: map<string, Content<R>>, name: string) {
    name in files && IsStateFile(name) && files[name].Torn?
  }

  /** What walking the workspace gave: an error, or the names in some order and those that cannot be opened. */
  datatype Walk = WalkFails | Walked(names: seq<string>, unreadable: set<string>)

  /** The constructor gets through the workspace. */
  predicate Passes<R>(files: map<string, Content<R>>, walk: Walk) {
    walk.Walked? && forall name <- walk.names :: PassesFile(files, walk, name)
  }

  predicate PassesFile<R>(files: map<string, Content<R>>, walk: Walk, name: string)
    requires walk.Walked?
  {
    !Unparsable(files, name) && !(name in files && IsStateFile(name) && name in walk.unreadable)
  }

  predicate Loads<R>(kind: Kind<R>, files: map<string, Content<R>>, name: string) {
    name in files && IsStateFile(name) && files[name].Valid? && kind.valid(files[name].record)
  }

  function IdAt<R>(kind: Kind<R>, files: map<string, Content<R>>, name: string): string
    requires Loads(kind, files, name)
  {
    kind.id(files[name].record)
  }

  /** The map after the files of a listing have been read one by one. */
  function Fold<R>(kind: Kind<R>, files: map<string, Content<R>>, listing: seq<string>): map<string, R> {
    if listing == [] then map[]
    else
      var before, name := Fold(kind, files, listing[..|listing| - 1]), listing[|listing| - 1];
      if Loads(kind, files, name) then before[IdAt(kind, files, name) := files[name].record] else before
  }

  /** What is loaded comes from the files that load, and nothing that loads is missed. */
  lemma {:induction false} FoldIsFromFiles<R>(kind: Kind<R>, files: map<string, Content<R>>, listing: seq<string>)
    ensures forall id <- Fold(kind, files, listing) :: exists name <- listing ::
              Loads(kind, files, name) && IdAt(kind, files, name) == id
              && files[name] == Valid(Fold(kind, files, listing)[id])
    ensures forall name <- listing | Loads(kind, files, name) :: IdAt(kind, files, name) in Fold(kind, files, listing)
  {
    if listing != [] {
      var n := |listing| - 1;
      FoldIsFromFiles(kind, files, listing[..n]);
      var m := Fold(kind, files, listing);
      forall id <- m
        ensures exists name <- listing ::
                  Loads(kind, files, name) && IdAt(kind, files, name) == id && files[name] == Valid(m[id])
      {
        if Loads(kind, files, listing[n]) && IdAt(kind, files, listing[n]) == id {
          assert listing[n] in listing;
        } else {
          var before := Fold(kind, files, listing[..n]);
          assert id in before && m[id] == before[id];
          var name :| name in listing[..n] && Loads(kind, files, name) && IdAt(kind, files, name) == id
                      && files[name] == Valid(before[id]);
          assert name in listing;
        }
      }
    }
  }

  /** Every record lies in the file that its ID names, as Save leaves it. */
  predicate WellNamed<R>(kind: Kind<R>, files: map<string, Content<R>>) {
    forall name <- files | Loads(kind, files, name) :: name == StateFile(IdAt(kind, files, name))
  }

  predicate Lists<R>(listing: seq<string>, files: map<string, Content<R>>) {
    forall name <- files :: name in listing
  }

  lemma {:induction false} FoldFinds<R>(kind: Kind<R>, files: map<string, Content<R>>, listing: seq<string>, id: string)
    requires WellNamed(kind, files)
    ensures var name, m := StateFile(id), Fold(kind, files, listing);
            && (id in m <==> name in listing && Loads(kind, files, name) && IdAt(kind, files, name) == id)
            && (id in m ==> m[id] == files[name].record)
  {
    if listing != [] {
      var n := |listing| - 1;
      FoldFinds(kind, files, listing[..n], id);
      assert listing == listing[..n] + [listing[n]];
      if Loads(kind, files, listing[n]) { NamesAreDistinct(id, IdAt(kind, files, listing[n])); }
    }
  }

  /** The order in which the directory is listed does not matter. */
  lemma OrderIsIrrelevant<R>(kind: Kind<R>, files: map<string, Content<R>>, one: seq<string>, other: seq<string>)
    requires WellNamed(kind, files) && Lists(one, files) && Lists(other, files)
    ensures Fold(kind, files, one) == Fold(kind, files, other)
  {
    var m, n := Fold(kind, files, one), Fold(kind, files, other);
    forall id ensures (id in m <==> id in n) && (id in m ==> m[id] == n[id]) {
      FoldFinds(kind, files, one, id);
      FoldFinds(kind, files, other, id);
    }
  }

  /** Files and map tell the same, up to writes that failed half way. */
  ghost predicate InSync<R>(kind: Kind<R>, files: map<string, Content<R>>, binds: map<string, R>) {
    && (forall id <- binds :: StateFile(id) in files && kind.id(binds[id]) == id && kind.valid(binds[id])
                              && (files[StateFile(id)] == Torn || files[StateFile(id)] == Valid(binds[id])))
    && (forall name <- files | Loads(kind, files, name) ::
          && name == StateFile(IdAt(kind, files, name))
          && IdAt(kind, files, name) in binds && binds[IdAt(kind, files, name)] == files[name].record)
  }

  /** Reloading gives back exactly the map, whatever the order. */
  lemma ReloadGivesBack<R>(kind: Kind<R>, files: map<string, Content<R>>, binds: map<string, R>, listing: seq<string>)
    requires InSync(kind, files, binds) && Lists(listing, files) && forall name <- files :: !Unparsable(files, name)
    ensures Fold(kind, files, listing) == binds
  {
    var m := Fold(kind, files, listing);
    forall id ensures (id in m <==> id in binds) && (id in m ==> m[id] == binds[id]) {
      FoldFinds(kind, files, listing, id);
      NamesAreDistinct(id, id);
      if id in binds { assert !Unparsable(files, StateFile(id)); }
    }
  }
}
