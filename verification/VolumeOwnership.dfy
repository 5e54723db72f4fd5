/** The walk itself, as pkg/thirdparty/k8s.io/kubernetes/pkg/volume/volume_linux.go runs it. */
module VolumeOwnership {
  import opened Kubernetes
  import opened Ownership
  import opened OwnershipRuns

  ghost predicate Distinct(entries: seq<Tree>) {
    forall i, j | 0 <= i < j < |entries| :: entries[i].id != entries[j].id
  }

  ghost predicate Known(entries: seq<Tree>, attrs: map<nat, Attr>) {
    forall e <- entries :: e.id in attrs
  }

  lemma {:induction false} PostOrderSplit(a: seq<Tree>, b: seq<Tree>)
    ensures PostOrderAll(a + b) == PostOrderAll(a) + PostOrderAll(b)
    decreases |a|
  {
    if a == [] {
      assert a + b == b;
    } else {
      PostOrderSplit(a[1..], b);
      assert (a + b)[1..] == a[1..] + b;
    }
  }

  lemma {:induction false} OpsSplit(a: seq<Tree>, fa: seq<Fate>, b: seq<Tree>, fb: seq<Fate>, attrs: map<nat, Attr>, setting: Setting)
    requires |fa| == |a| && |fb| == |b| && Known(a, attrs) && Known(b, attrs)
    ensures OpsForAll(a + b, fa + fb, attrs, setting)
         == OpsForAll(a, fa, attrs, setting) + OpsForAll(b, fb, attrs, setting)
    decreases |b|
  {
    hide OpsFor;
    if b == [] {
      assert a + b == a && fa + fb == fa;
    } else {
      var n := |b| - 1;
      OpsSplit(a, fa, b[..n], fb[..n], attrs, setting);
      assert (a + b)[..|a + b| - 1] == a + b[..n] && (fa + fb)[..|a + b| - 1] == fa + fb[..n];
    }
  }

  /** The calls depend only on the modes that the files had when they were examined. */
  lemma {:induction false} SameModesSameOps(entries: seq<Tree>, fates: seq<Fate>, a: map<nat, Attr>, b: map<nat, Attr>, setting: Setting)
    requires |fates| == |entries| && Known(entries, a) && Known(entries, b)
    requires forall e <- entries :: a[e.id] == b[e.id]
    ensures OpsForAll(entries, fates, a, setting) == OpsForAll(entries, fates, b, setting)
    decreases |entries|
  {
    if entries != [] {
      var n := |entries| - 1;
      assert entries[n] in entries;
      SameModesSameOps(entries[..n], fates[..n], a, b, setting);
    }
  }

  /** Where a walk that fails stops: right before everything below some file that cannot be read. */
  ghost predicate StopsBefore(order: seq<Tree>, visited: seq<Tree>, noStat: set<nat>, noList: set<nat>) {
    exists i | 0 <= i < |order| ::
      && (order[i].id in noStat || (order[i].kind.Directory? && order[i].id in noList))
      && |visited| + |PostOrder(order[i])| == i + 1
  }

  lemma OneFile(entry: Tree, fate: Fate, attrs: map<nat, Attr>, setting: Setting)
    requires entry.id in attrs
    ensures OpsForAll([entry], [fate], attrs, setting) == OpsFor(entry, fate, attrs, setting)
  {
    assert [entry][..0] == [] && [fate][..0] == [];
  }

  /** The root of a tree is different from everything below it. */
  lemma RootIsApart(t: Tree, attrs: map<nat, Attr>)
    requires WellFormed(t, attrs)
    ensures forall a <- PostOrderAll(t.children) :: a.id != t.id && a in PostOrder(t)
    ensures t in PostOrder(t) && PostOrder(t) == PostOrderAll(t.children) + [t]
  {
    var order := PostOrder(t);
    assert order[|order| - 1] == t;
    assert forall k | 0 <= k < |PostOrderAll(t.children)| :: PostOrderAll(t.children)[k] == order[k];
  }

  /** What holds before the first file is visited. */
  lemma WalkBegins(t: Tree, attrs: map<nat, Attr>, setting: Setting, noStat: set<nat>, noList: set<nat>)
    requires WellFormed(t, attrs)
    ensures t.id in attrs && PostOrderAll(t.children[..0]) == []
    ensures OpsForAll([], [], attrs, setting) == [] && ExecAll(attrs, setting, []) == attrs
    ensures !t.kind.Directory? ==> PostOrder(t) == [t]
    ensures t.kind.Directory? && t.id in noList ==> StopsBefore(PostOrder(t), [], noStat, noList)
    ensures PostOrder(t) != [] && AllReadable([], t.id, noStat, noList)
  {
    RootIsApart(t, attrs);
    assert PostOrder(t)[|PostOrder(t)| - 1] == t;
  }

  /** Where the `i`-th child stands in the order of its directory. */
  lemma Layout(t: Tree, i: nat)
    requires i < |t.children|
    ensures PostOrderAll(t.children)
         == PostOrderAll(t.children[..i]) + PostOrder(t.children[i]) + PostOrderAll(t.children[i + 1..])
    ensures PostOrder(t) == PostOrderAll(t.children) + [t]
    ensures PostOrderAll(t.children[..i + 1]) == PostOrderAll(t.children[..i]) + PostOrder(t.children[i])
  {
    var a, c, b := t.children[..i], [t.children[i]], t.children[i + 1..];
    assert c[1..] == [];
    assert PostOrderAll(c) == PostOrder(t.children[i]) + PostOrderAll([]);
    assert t.children[..i + 1] == a + c && t.children == a + c + b;
    PostOrderSplit(a, c);
    PostOrderSplit(a + c, b);
  }

  lemma PartsAreApart(order: seq<Tree>, a: seq<Tree>, c: seq<Tree>, rest: seq<Tree>, attrs: map<nat, Attr>)
    requires order == a + c + rest && Listed(order, attrs)
    ensures Listed(c, attrs)
    ensures forall x, y | x in a && y in c :: x.id != y.id
    ensures forall x <- a :: x in order
  {
    forall e <- c ensures e in order { InMiddle(order, a, c, rest, e); }
    forall i, j | 0 <= i < j < |c| ensures c[i].id != c[j].id {
      assert c[i] == order[|a| + i] && c[j] == order[|a| + j];
    }
    forall x, y | x in a && y in c ensures x.id != y.id {
      var i :| 0 <= i < |a| && a[i] == x;
      var j :| 0 <= j < |c| && c[j] == y;
      assert order[i] == x && order[|a| + j] == y;
    }
  }

  lemma InMiddle<T>(order: seq<T>, a: seq<T>, c: seq<T>, rest: seq<T>, e: T)
    requires order == a + c + rest && e in c
    ensures e in order
  {
  }

  lemma ChildIsApart(t: Tree, i: nat, attrs: map<nat, Attr>)
    requires i < |t.children| && WellFormed(t, attrs)
    ensures WellFormed(t.children[i], attrs)
    ensures forall a, b | a in PostOrderAll(t.children[..i]) && b in PostOrder(t.children[i]) :: a.id != b.id
    ensures forall a <- PostOrderAll(t.children[..i]) :: a in PostOrder(t)
  {
    Layout(t, i);
    hide PostOrder, PostOrderAll, Listed;
    var a, c := PostOrderAll(t.children[..i]), PostOrder(t.children[i]);
    var rest := PostOrderAll(t.children[i + 1..]) + [t];
    assert PostOrder(t) == a + c + rest;
    PartsAreApart(PostOrder(t), a, c, rest, attrs);
  }

  /** All about the `i`-th child once the children before it are done. */
  lemma NextChild(t: Tree, i: nat, before: map<nat, Attr>, now: map<nat, Attr>, noStat: set<nat>, noList: set<nat>)
    requires i < |t.children| && WellFormed(t, before) && now.Keys == before.Keys
    ensures WellFormed(t.children[i], now) && t.children[i].id in now && t.children[i].id != t.id
    ensures Known(PostOrder(t.children[i]), before)
    ensures forall a, b | a in PostOrderAll(t.children[..i]) && b in PostOrder(t.children[i]) :: a.id != b.id
    ensures forall a <- PostOrder(t.children[i]) :: a in PostOrderAll(t.children) && a.id != t.id
    ensures t.children[i] in PostOrderAll(t.children) && t.children[i] in PostOrder(t.children[i])
    ensures PostOrderAll(t.children[..i]) + PostOrder(t.children[i]) <= PostOrderAll(t.children)
    ensures PostOrderAll(t.children[..i + 1]) == PostOrderAll(t.children[..i]) + PostOrder(t.children[i])
    ensures t.children[i].id in noStat ==> StopsBefore(PostOrder(t), PostOrderAll(t.children[..i]), noStat, noList)
  {
    hide PostOrderAll, PostOrder, StopsBefore;
    ChildIsApart(t, i, before);
    Layout(t, i);
    RootIsApart(t, before);
    RootIsApart(t.children[i], before);
    assert PostOrderAll(t.children) == PostOrderAll(t.children[..i]) + PostOrder(t.children[i])
                                       + PostOrderAll(t.children[i + 1..]);
    if t.children[i].id in noStat {
      StopsAtChild(t, i, noStat, noList);
    }
    forall a <- PostOrder(t.children[i]) ensures a in PostOrderAll(t.children) && a.id != t.id {
      Below(t, i, before, a);
    }
  }

  lemma Below(t: Tree, i: nat, attrs: map<nat, Attr>, a: Tree)
    requires i < |t.children| && WellFormed(t, attrs) && a in PostOrder(t.children[i])
    ensures a in PostOrderAll(t.children) && a.id != t.id
  {
    Layout(t, i);
    var left, c, order := PostOrderAll(t.children[..i]), PostOrder(t.children[i]), PostOrder(t);
    var k :| 0 <= k < |c| && c[k] == a;
    assert order[|left| + k] == a && order[|order| - 1] == t;
    assert PostOrderAll(t.children) == order[..|order| - 1];
  }

  /** All files can be examined (the root of the walk was already) and all directories listed. */
  ghost predicate AllReadable(entries: seq<Tree>, root: nat, noStat: set<nat>, noList: set<nat>) {
    forall e <- entries :: (e.id == root || e.id !in noStat) && (e.kind.Directory? ==> e.id !in noList)
  }

  lemma ChildReadability(t: Tree, i: nat, attrs: map<nat, Attr>, noStat: set<nat>, noList: set<nat>)
    requires i < |t.children| && WellFormed(t, attrs)
    requires AllReadable(PostOrderAll(t.children[..i]), t.id, noStat, noList)
    ensures AllReadable(PostOrderAll(t.children[..i + 1]), t.id, noStat, noList) <==>
            t.children[i].id !in noStat && AllReadable(PostOrder(t.children[i]), t.children[i].id, noStat, noList)
    ensures !AllReadable(PostOrderAll(t.children[..i + 1]), t.id, noStat, noList) ==>
            !AllReadable(PostOrderAll(t.children), t.id, noStat, noList)
  {
    hide PostOrderAll, PostOrder;
    NextChild(t, i, attrs, attrs, noStat, noList);
    Layout(t, i);
  }

  lemma VisitedKeepOthers(before: map<nat, Attr>, setting: Setting, visited: seq<Tree>, fates: seq<Fate>, id: nat)
    requires |fates| == |visited| && Known(visited, before) && id in before
    requires forall e <- visited :: e.id != id
    ensures ExecAll(before, setting, OpsForAll(visited, fates, before, setting))[id] == before[id]
  {
    hide OpsForAll;
    OpsComeFromEntries(visited, fates, before, setting);
    UntouchedStays(setting, before, OpsForAll(visited, fates, before, setting), id);
  }

  /** Visiting more files after the first ones. */
  lemma VisitMore(before: map<nat, Attr>, setting: Setting, a: seq<Tree>, fa: seq<Fate>, b: seq<Tree>, fb: seq<Fate>)
    requires |fa| == |a| && |fb| == |b| && Known(a, before) && Known(b, before)
    requires forall x, y | x in a && y in b :: x.id != y.id
    ensures var mid := ExecAll(before, setting, OpsForAll(a, fa, before, setting));
            && OpsForAll(a + b, fa + fb, before, setting)
               == OpsForAll(a, fa, before, setting) + OpsForAll(b, fb, mid, setting)
            && ExecAll(before, setting, OpsForAll(a + b, fa + fb, before, setting))
               == ExecAll(mid, setting, OpsForAll(b, fb, mid, setting))
  {
    hide OpsForAll, ExecAll;
    var ops := OpsForAll(a, fa, before, setting);
    var mid := ExecAll(before, setting, ops);
    forall e <- b ensures before[e.id] == mid[e.id] {
      VisitedKeepOthers(before, setting, a, fa, e.id);
    }
    OpsSplit(a, fa, b, fb, before, setting);
    SameModesSameOps(b, fb, before, mid, setting);
    ExecSplit(before, setting, ops, OpsForAll(b, fb, mid, setting));
  }

  lemma StopsLater(before: seq<Tree>, order: seq<Tree>, after: seq<Tree>, visited: seq<Tree>,
                   noStat: set<nat>, noList: set<nat>)
    requires StopsBefore(order, visited, noStat, noList)
    ensures StopsBefore(before + order + after, before + visited, noStat, noList)
  {
    hide PostOrder;
    var k :| 0 <= k < |order| && (order[k].id in noStat || (order[k].kind.Directory? && order[k].id in noList))
             && |visited| + |PostOrder(order[k])| == k + 1;
    assert (before + order + after)[|before| + k] == order[k];
  }

  lemma StopsInsideChild(t: Tree, i: nat, visited: seq<Tree>, noStat: set<nat>, noList: set<nat>)
    requires i < |t.children| && StopsBefore(PostOrder(t.children[i]), visited, noStat, noList)
    ensures StopsBefore(PostOrder(t), PostOrderAll(t.children[..i]) + visited, noStat, noList)
  {
    hide PostOrder, PostOrderAll, StopsBefore;
    Layout(t, i);
    var a, order, b := PostOrderAll(t.children[..i]), PostOrder(t.children[i]), PostOrderAll(t.children[i + 1..]);
    StopsLater(a, order, b + [t], visited, noStat, noList);
    assert PostOrder(t) == a + order + (b + [t]);
  }

  lemma StopsAtChild(t: Tree, i: nat, noStat: set<nat>, noList: set<nat>)
    requires i < |t.children| && t.children[i].id in noStat
    ensures StopsBefore(PostOrder(t), PostOrderAll(t.children[..i]), noStat, noList)
  {
    Layout(t, i);
    var a, order := PostOrderAll(t.children[..i]), PostOrder(t.children[i]);
    assert PostOrder(t)[|a| + |order| - 1] == t.children[i];
  }

  lemma ExecOne(attrs: map<nat, Attr>, setting: Setting, op: Op)
    ensures ExecAll(attrs, setting, [op]) == Exec(attrs, setting, op)
  {
    assert [op][..0] == [];
  }

  lemma ExecAppend(attrs: map<nat, Attr>, setting: Setting, ops: seq<Op>, op: Op)
    ensures ExecAll(attrs, setting, ops + [op]) == Exec(ExecAll(attrs, setting, ops), setting, op)
  {
    assert (ops + [op])[..|ops|] == ops;
  }

  lemma ExecTwo(attrs: map<nat, Attr>, setting: Setting, a: Op, b: Op)
    ensures ExecAll(attrs, setting, [a, b]) == Exec(Exec(attrs, setting, a), setting, b)
  {
    assert [a, b][..1] == [a];
    ExecOne(attrs, setting, a);
  }

  method RequiredBits(setting: Setting, kind: Kind) returns (mask: bv32)
    ensures mask == Mask(setting, kind)
  {
    mask := RW_MASK;
    if setting.readOnly {
      mask := RO_MASK;
    }
    if kind.Directory? {
      mask := mask | MODE_SETGID;
      mask := mask | EXEC_MASK;
    }
  }

  lemma ChownKeepsKeys(attrs: map<nat, Attr>, setting: Setting, op: Op)
    ensures Exec(attrs, setting, op).Keys == attrs.Keys
  {}

  method KernelDrops(kind: Kind) returns (dropped: bv32)
    ensures CanDrop(kind, dropped)
  {
    dropped := 0;
    if kind.Regular? {
      var choice: bv32 := *;
      dropped := choice & (MODE_SETUID | MODE_SETGID);
    }
  }

  /** No policy at all counts as the policy to change always. */
  datatype ChangePolicy = Always | OnRootMismatch

  lemma EasyFates(t: Tree, fates: seq<Fate>)
    requires |fates| == |PostOrder(t)| && forall f <- fates :: f.dropped == 0
    ensures AllPossible(PostOrder(t), fates)
  {
    forall i | 0 <= i < |fates| ensures Possible(PostOrder(t)[i].kind, fates[i]) {
      assert fates[i] in fates;
    }
  }

  lemma ListedIsKnown(t: Tree, root: nat, files: map<nat, Kind>, attrs: map<nat, Attr>)
    requires Lists(t, root, files) && attrs.Keys == files.Keys
    ensures Known(PostOrder(t), attrs)
  {
    hide PostOrder;
  }

  /** A walk that got as far as `visited` is a call that is cut off there. */
  lemma WalkIsCall(setting: Setting, t: Tree, files: map<nat, Kind>, attrs: map<nat, Attr>, plan: Call,
                   visited: seq<Tree>, fates: seq<Fate>) returns (call: Call)
    requires plan.listing == t && Admissible(plan, t.id, files) && attrs.Keys == files.Keys
    requires visited <= PostOrder(t) && AllPossible(visited, fates)
    ensures call == plan.(fates := call.fates, cut := call.cut) && Admissible(call, t.id, files)
    ensures Executed(setting, attrs, call) == OpsForAll(visited, fates, attrs, setting)
  {
    ListedIsKnown(t, t.id, files, attrs);
    var ops := OpsForAll(visited, fates, attrs, setting);
    call := plan.(fates := fates + plan.fates[|visited|..], cut := |ops|);
    SplicedFates(PostOrder(t), plan.fates, visited, fates);
    PrefixOps(PostOrder(t), plan.fates, visited, fates, attrs, setting);
    hide OpsForAll, Possible, PostOrderAll, PostOrder, Lists;
    CutToPrefix(OpsForAll(PostOrder(t), call.fates, attrs, setting), ops);
  }

  lemma CutToPrefix(all: seq<Op>, ops: seq<Op>)
    requires ops <= all
    ensures (if |ops| < |all| then all[..|ops|] else all) == ops
  {
  }

  lemma SplicedFates(order: seq<Tree>, planned: seq<Fate>, visited: seq<Tree>, fates: seq<Fate>)
    requires AllPossible(order, planned) && visited <= order && AllPossible(visited, fates)
    ensures AllPossible(order, fates + planned[|visited|..])
  {
    hide Possible;
    forall i | 0 <= i < |order| ensures Possible(order[i].kind, (fates + planned[|visited|..])[i]) {
      if i < |visited| { assert visited[i] == order[i]; }
    }
  }

  lemma PrefixOps(order: seq<Tree>, planned: seq<Fate>, visited: seq<Tree>, fates: seq<Fate>, attrs: map<nat, Attr>, setting: Setting)
    requires |order| == |planned| && visited <= order && |visited| == |fates| && Known(order, attrs)
    ensures Known(visited, attrs) &&
            OpsForAll(visited, fates, attrs, setting) <= OpsForAll(order, fates + planned[|visited|..], attrs, setting)
  {
    hide OpsForAll;
    var n := |visited|;
    assert order == visited + order[n..];
    OpsSplit(visited, fates, order[n..], planned[n..], attrs, setting);
  }

  lemma NothingVisited()
    ensures AllPossible([], [])
  {
  }

  lemma PossibleTogether(a: seq<Tree>, fa: seq<Fate>, b: seq<Tree>, fb: seq<Fate>)
    requires AllPossible(a, fa) && AllPossible(b, fb)
    ensures AllPossible(a + b, fa + fb)
  {
    hide Possible;
  }

  lemma OnlyDirectoriesPass(setting: Setting, kind: Kind, attr: Attr)
    ensures !RequiresPermissionChange(setting, kind, attr) ==> kind.Directory?
  {
  }

  /** After a walk that got through, every file is as it should be or some call for it failed. */
  lemma AllVisitedHandled(setting: Setting, t: Tree, files: map<nat, Kind>, attrs: map<nat, Attr>, fates: seq<Fate>)
    requires Lists(t, t.id, files) && attrs.Keys == files.Keys && AllPossible(PostOrder(t), fates)
    ensures Known(PostOrder(t), attrs)
    ensures var ops := OpsForAll(PostOrder(t), fates, attrs, setting);
            forall id <- files :: Handled(setting, files[id], ExecAll(attrs, setting, ops), ops, id)
  {
    hide OpsForAll, ExecAll, Handled, PostOrder, Possible;
    ListedIsKnown(t, t.id, files, attrs);
    AllAreHandled(setting, files, PostOrder(t), fates, attrs);
    var ops := OpsForAll(PostOrder(t), fates, attrs, setting);
    forall id <- files ensures Handled(setting, files[id], ExecAll(attrs, setting, ops), ops, id) {
      var e :| e in PostOrder(t) && e.id == id;
    }
  }

  /** The policy looks at the root only, and finds a directory that is as it should be. */
  predicate Spared(setting: Setting, t: Tree, policy: Option<ChangePolicy>, noStat: set<nat>, attrs: map<nat, Attr>) {
    && policy == Some(OnRootMismatch) && t.kind.Directory? && t.id !in noStat
    && t.id in attrs && Owned(setting, Directory, attrs[t.id])
  }

  /** The ownership change returns success. */
  ghost predicate ChangeSucceeds(setting: Setting, t: Tree, policy: Option<ChangePolicy>, noStat: set<nat>,
                                 noList: set<nat>, attrs: map<nat, Attr>)
  {
    || Spared(setting, t, policy, noStat, attrs)
    || (t.id !in noStat && AllReadable(PostOrder(t), t.id, noStat, noList))
  }

  /** And this is what it then did. */
  ghost predicate Settled(setting: Setting, t: Tree, policy: Option<ChangePolicy>, noStat: set<nat>,
                          files: map<nat, Kind>, before: map<nat, Attr>, after: map<nat, Attr>, calls: seq<Op>)
  {
    if Spared(setting, t, policy, noStat, before) then calls == [] && after == before
    else forall id <- files :: Handled(setting, files[id], after, calls, id)
  }

  class FileSystem {
    const setting: Setting
    const noStat: set<nat>    // files on which lstat fails
    const noList: set<nat>    // directories that cannot be listed
    var attrs: map<nat, Attr>
    ghost var start: map<nat, Attr>
    ghost var trace: seq<Op>  // every system call since `start`, so every crash leaves some prefix of it
    ghost var results: seq<bool> // what the ownership changes since the last publish returned

    constructor (setting: Setting, attrs: map<nat, Attr>, noStat: set<nat>, noList: set<nat>)
      ensures Valid() && this.setting == setting && this.attrs == attrs && trace == []
      ensures this.noStat == noStat && this.noList == noList && results == []
    {
      this.setting, this.noStat, this.noList := setting, noStat, noList;
      this.attrs, start, trace, results := attrs, attrs, [], [];
    }

    /** The volume is published at its target path. */
    ghost method Mounted()
      modifies this`results
      ensures results == []
    {
      results := [];
    }

    /** What the ownership change may be run on. */
    ghost predicate Ready(t: Tree, files: map<nat, Kind>)
      reads this`attrs, this`start, this`trace
    {
      Valid() && WellFormed(t, attrs) && Lists(t, t.id, files) && attrs.Keys == files.Keys && t.kind != Symlink
    }

    ghost predicate Valid()
      reads this`attrs, this`start, this`trace
    {
      attrs == ExecAll(start, setting, trace)
    }

    /** Changes the group, or fails; the kernel decides which set-id bits a regular file loses. */
    method Lchown(id: nat, kind: Kind, gid: int) returns (ok: bool, ghost dropped: bv32)
      requires Valid() && id in attrs && gid == setting.gid
      modifies this`attrs, this`trace
      ensures Valid() && trace == old(trace) + [Chown(id, ok, dropped)]
      ensures attrs == Exec(old(attrs), setting, Chown(id, ok, dropped))
      ensures CanDrop(kind, dropped)
    {
      hide CanDrop, ExecAll, Chowned;
      ok := *;
      var lost := KernelDrops(kind);
      dropped := lost;
      ExecAppend(start, setting, trace, Chown(id, ok, lost));
      if ok {
        attrs := attrs[id := Chowned(attrs[id], gid, lost)];
      }
      trace := trace + [Chown(id, ok, dropped)];
    }

    method Chmod(id: nat, mode: bv32) returns (ok: bool)
      requires Valid() && id in attrs
      modifies this`attrs, this`trace
      ensures Valid() && trace == old(trace) + [Op.Chmod(id, ok, mode)]
      ensures attrs == Exec(old(attrs), setting, Op.Chmod(id, ok, mode))
    {
      hide ExecAll;
      ok := *;
      ExecAppend(start, setting, trace, Op.Chmod(id, ok, mode));
      if ok {
        attrs := attrs[id := attrs[id].(mode := mode)];
      }
      trace := trace + [Op.Chmod(id, ok, mode)];
    }

    method ChangeFilePermission(entry: Tree, info: Attr) returns (ghost fate: Fate)
      requires Valid() && entry.id in attrs && info == attrs[entry.id]
      modifies this`attrs, this`trace
      ensures Valid() && AllPossible([entry], [fate]) && Made(old(attrs), old(trace), [entry], [fate])
    {
      hide ExecAll, Exec, Mask, CanDrop, AddBits;
      var ok, dropped := Lchown(entry.id, entry.kind, setting.gid);
      ChownKeepsKeys(old(attrs), setting, Chown(entry.id, ok, dropped));
      ExecOne(old(attrs), setting, Chown(entry.id, ok, dropped));
      fate := Fate(ok, true, dropped);
      if entry.kind.Symlink? {
        OneFile(entry, fate, old(attrs), setting);
        return;
      }
      var mask := RequiredBits(setting, entry.kind);
      var done := Chmod(entry.id, AddBits(info.mode, mask));
      ExecTwo(old(attrs), setting, Chown(entry.id, ok, dropped), Op.Chmod(entry.id, done, AddBits(info.mode, mask)));
      fate := fate.(chmodOk := done);
      OneFile(entry, fate, old(attrs), setting);
    }

    /** The walk visits the files in post-order until one cannot be read. */
    method Walk(t: Tree, info: Attr) returns (ok: bool, ghost visited: seq<Tree>, ghost fates: seq<Fate>)
      requires Valid() && WellFormed(t, attrs) && info == attrs[t.id]
      modifies this`attrs, this`trace
      ensures Valid() && visited <= PostOrder(t) && AllPossible(visited, fates)
      ensures Made(old(attrs), old(trace), visited, fates)
      ensures ok <==> visited == PostOrder(t)
      ensures ok <==> AllReadable(PostOrder(t), t.id, noStat, noList)
      ensures !ok ==> StopsBefore(PostOrder(t), visited, noStat, noList)
      decreases t, 1
    {
      hide OpsForAll, OpsFor, ExecAll, PostOrderAll, PostOrder, WellFormed, StopsBefore, Possible;
      RootIsApart(t, attrs);
      WalkBegins(t, attrs, setting, noStat, noList);
      visited, fates := [], [];
      if !t.kind.Directory? {
        var fate := ChangeFilePermission(t, info);
        visited, fates := [t], [fate];
        return true, visited, fates;
      }
      if t.id in noList {
        return false, visited, fates;
      }
      ok, visited, fates := WalkEntries(t);
      if !ok {
        return;
      }
      VisitedKeepOthers(old(attrs), setting, visited, fates, t.id);
      var fate := ChangeFilePermission(t, info);
      VisitMore(old(attrs), setting, visited, fates, [t], [fate]);
      visited, fates := visited + [t], fates + [fate];
    }

    /** The loop over the entries of a directory. */
    method WalkEntries(t: Tree) returns (ok: bool, ghost visited: seq<Tree>, ghost fates: seq<Fate>)
      requires Valid() && WellFormed(t, attrs)
      modifies this`attrs, this`trace
      ensures Valid() && visited <= PostOrderAll(t.children) && AllPossible(visited, fates)
      ensures Made(old(attrs), old(trace), visited, fates)
      ensures ok <==> visited == PostOrderAll(t.children)
      ensures ok <==> AllReadable(PostOrderAll(t.children), t.id, noStat, noList)
      ensures !ok ==> StopsBefore(PostOrder(t), visited, noStat, noList)
      decreases t, 0
    {
      hide OpsForAll, OpsFor, ExecAll, PostOrderAll, PostOrder, WellFormed, StopsBefore, Possible;
      hide AllReadable, AllPossible;
      WalkBegins(t, attrs, setting, noStat, noList);
      visited, fates := [], [];
      assert AllPossible(visited, fates) by { NothingVisited(); }
      var i := 0;
      while i < |t.children|
        invariant 0 <= i <= |t.children|
        invariant Valid() && visited == PostOrderAll(t.children[..i]) && AllPossible(visited, fates)
        invariant Made(old(attrs), old(trace), visited, fates)
        invariant AllReadable(visited, t.id, noStat, noList)
      {
        var child := t.children[i];
        NextChild(t, i, old(attrs), attrs, noStat, noList);
        ChildReadability(t, i, old(attrs), noStat, noList);
        if child.id in noStat {
          return false, visited, fates;
        }
        var below, v, f := Walk(child, attrs[child.id]);
        VisitMore(old(attrs), setting, visited, fates, v, f);
        PossibleTogether(visited, fates, v, f);
        if !below {
          StopsInsideChild(t, i, v, noStat, noList);
        }
        visited, fates := visited + v, fates + f;
        if !below {
          return false, visited, fates;
        }
        i := i + 1;
      }
      assert t.children[..i] == t.children;
      ok := true;
    }

    /** Since the attributes were `before`, exactly the calls for `visited` were made. */
    ghost predicate Made(before: map<nat, Attr>, log: seq<Op>, visited: seq<Tree>, fates: seq<Fate>)
      reads this
    {
      && |fates| == |visited| && Known(visited, before)
      && trace == log + OpsForAll(visited, fates, before, setting)
      && attrs == ExecAll(before, setting, OpsForAll(visited, fates, before, setting))
    }

    /** The check of the root alone; a root that cannot be examined counts as one that needs the walk. */
    method RequiresChange(t: Tree) returns (required: bool)
      requires t.id in attrs && t.kind != Symlink
      ensures required <==> t.id in noStat || RequiresPermissionChange(setting, t.kind, attrs[t.id])
    {
      if t.id in noStat {
        return true;
      }
      var stat := attrs[t.id];
      if stat.gid != setting.gid {
        return true;
      }
      var unixPerms := RW_MASK;
      if setting.readOnly {
        unixPerms := RO_MASK;
      }
      if !t.kind.Directory? {
        return true;
      }
      unixPerms := unixPerms | EXEC_MASK;
      var filePerm := stat.mode & PERM_MASK;
      if unixPerms & filePerm != unixPerms || stat.mode & MODE_SETGID == 0 {
        return true;
      }
      required := false;
    }

    method WalkDeep(t: Tree) returns (ok: bool, ghost visited: seq<Tree>, ghost fates: seq<Fate>)
      requires Valid() && WellFormed(t, attrs)
      modifies this`attrs, this`trace
      ensures Valid() && visited <= PostOrder(t) && AllPossible(visited, fates)
      ensures Made(old(attrs), old(trace), visited, fates)
      ensures ok <==> visited == PostOrder(t)
      ensures ok <==> t.id !in noStat && AllReadable(PostOrder(t), t.id, noStat, noList)
      ensures !ok ==> StopsBefore(PostOrder(t), visited, noStat, noList)
    {
      RootIsApart(t, attrs);
      if t.id in noStat {
        assert PostOrder(t)[|PostOrder(t)| - 1] == t;
        return false, [], [];
      }
      ok, visited, fates := Walk(t, attrs[t.id]);
    }

    /** The walk that was not skipped. */
    method ChangeAll(t: Tree, ghost files: map<nat, Kind>, ghost plan: Call)
      returns (ok: bool, ghost call: Call, ghost visited: seq<Tree>)
      requires Valid() && WellFormed(t, attrs) && Lists(t, t.id, files) && attrs.Keys == files.Keys
      requires plan.listing == t && Admissible(plan, t.id, files)
      modifies this`attrs, this`trace
      ensures Valid() && visited <= PostOrder(t)
      ensures call == plan.(fates := call.fates, cut := call.cut) && Admissible(call, t.id, files)
      ensures trace == old(trace) + Executed(setting, old(attrs), call)
      ensures attrs == ExecAll(old(attrs), setting, Executed(setting, old(attrs), call))
      ensures ok <==> t.id !in noStat && AllReadable(PostOrder(t), t.id, noStat, noList)
      ensures ok <==> visited == PostOrder(t)
      ensures !ok ==> StopsBefore(PostOrder(t), visited, noStat, noList)
      ensures ok ==> forall id <- files :: Handled(setting, files[id], attrs, trace[|old(trace)|..], id)
    {
      hide PostOrderAll, PostOrder, OpsForAll, ExecAll, Executed, StopsBefore, AllReadable, Possible, Handled, Owned;
      ghost var fates;
      ok, visited, fates := WalkDeep(t);
      call := WalkIsCall(setting, t, files, old(attrs), plan, visited, fates);
      if ok { AllVisitedHandled(setting, t, files, old(attrs), fates); }
      assert trace[|old(trace)|..] == OpsForAll(visited, fates, old(attrs), setting);
    }

    /** One whole call is one step of the runs of OwnershipRuns, whatever the kernel, the directory listings
        and unreadable files make of it; and so is any call that a crash cuts short, with a smaller cut. */
    method SetVolumeOwnership(t: Tree, fsGroup: Option<int>, policy: Option<ChangePolicy>, ghost files: map<nat, Kind>)
      returns (ok: bool, ghost call: Call, ghost visited: seq<Tree>)
      requires Ready(t, files) && (fsGroup.Some? ==> fsGroup.value == setting.gid)
      modifies this`attrs, this`trace, this`results
      ensures Valid() && visited <= PostOrder(t) && results == old(results) + [ok]
      ensures fsGroup.None? ==> ok && attrs == old(attrs) && trace == old(trace)
      ensures fsGroup.Some? ==>
                && call.listing == t && call.statOk == (t.id !in noStat)
                && call.onRootMismatch == (policy == Some(OnRootMismatch))
                && Admissible(call, t.id, files)
                && attrs == Perform(setting, t.id, files, Volume(old(attrs), {}), call).attrs
                && trace == old(trace) +
                   (if Skips(setting, t.id, files, old(attrs), call) then [] else Executed(setting, old(attrs), call))
                && (ok <==> Skips(setting, t.id, files, old(attrs), call)
                            || (t.id !in noStat && AllReadable(PostOrder(t), t.id, noStat, noList)))
      ensures !ok ==> StopsBefore(PostOrder(t), visited, noStat, noList)
      // Only the policy that looks at the root, and a directory there that is as it should be, spare the files.
      ensures fsGroup.Some? && policy == Some(OnRootMismatch) && t.kind.Directory? && t.id !in noStat
              && Owned(setting, Directory, old(attrs)[t.id]) ==>
                ok && trace == old(trace) && attrs == old(attrs)
      ensures fsGroup.Some? && !(policy == Some(OnRootMismatch) && t.kind.Directory? && t.id !in noStat
                                 && Owned(setting, Directory, old(attrs)[t.id])) ==>
                && (ok <==> t.id !in noStat && AllReadable(PostOrder(t), t.id, noStat, noList))
                && (ok ==> visited == PostOrder(t))
                && old(trace) <= trace
                && (ok ==> forall id <- files :: Handled(setting, files[id], attrs, trace[|old(trace)|..], id))
      ensures fsGroup.Some? ==>
                && (ok <==> ChangeSucceeds(setting, t, policy, noStat, noList, old(attrs)))
                && old(trace) <= trace
                && (ok ==> Settled(setting, t, policy, noStat, files, old(attrs), attrs, trace[|old(trace)|..]))
    {
      hide PostOrderAll, OpsForAll, ExecAll, Executed, StopsBefore, AllReadable, RequiresPermissionChange, Possible;
      hide Handled, Owned, PostOrder;
      RootCheckIsExact(setting, attrs[t.id]);
      OnlyDirectoriesPass(setting, t.kind, attrs[t.id]);
      visited := [];
      var easy := Fate(true, true, 0);
      call := Call(t, policy == Some(OnRootMismatch), t.id !in noStat, seq(|PostOrder(t)|, _ => easy), 0);
      if fsGroup.None? {
        results := results + [true];
        return true, call, visited;
      }
      EasyFates(t, call.fates);
      if policy == Some(OnRootMismatch) {
        var required := RequiresChange(t);
        if !required {
          results := results + [true];
          return true, call, visited;
        }
      }
      ok, call, visited := ChangeAll(t, files, call);
      results := results + [ok];
    }

    /** The ownership change, if it is needed. */
    method ChangeIfNeeded(needed: bool, t: Tree, fsGroup: Option<int>, policy: Option<ChangePolicy>,
                          ghost files: map<nat, Kind>) returns (ok: bool)
      requires Ready(t, files) && (needed ==> fsGroup == Some(setting.gid))
      modifies this`attrs, this`trace, this`results
      ensures Valid()
      ensures ok <==> (needed ==> ChangeSucceeds(setting, t, policy, noStat, noList, old(attrs)))
      ensures results == old(results) + if needed then [ok] else []
      ensures !needed ==> trace == old(trace) && attrs == old(attrs)
      ensures needed && ok ==>
                && old(trace) <= trace
                && Settled(setting, t, policy, noStat, files, old(attrs), attrs, trace[|old(trace)|..])
    {
      hide Settled, ChangeSucceeds, Skips, Executed, StopsBefore;
      ok := true;
      if needed {
        ghost var call, visited;
        ok, call, visited := SetVolumeOwnership(t, fsGroup, policy, files);
      }
    }
  }
}
