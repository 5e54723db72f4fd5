/** What one walk achieves: the same final tree in every listing order, and nothing above a file that could
    not be read. */
module OwnershipWalk {
  import opened Ownership
  import opened OwnershipRuns
  import opened VolumeOwnership

  // Complete walks without failed calls.

  /** What becomes of a file whose calls succeed. */
  function Final(setting: Setting, kind: Kind, attr: Attr): Attr {
    Attr(setting.gid, if kind.Symlink? then attr.mode else AddBits(attr.mode, Mask(setting, kind)))
  }

  predicate AllOk(fates: seq<Fate>) {
    forall f <- fates :: f.chownOk && f.chmodOk
  }

  lemma OneFileIsFinal(setting: Setting, entry: Tree, fate: Fate, attrs: map<nat, Attr>)
    requires entry.id in attrs && Possible(entry.kind, fate) && AllOk([fate])
    ensures ExecAll(attrs, setting, OpsFor(entry, fate, attrs, setting))[entry.id]
         == Final(setting, entry.kind, attrs[entry.id])
  {
    hide Mask, AddBits;
    assert fate in [fate];
    var chown := Chown(entry.id, fate.chownOk, fate.dropped);
    if entry.kind.Symlink? {
      ExecOne(attrs, setting, chown);
      NothingDropped(attrs[entry.id].mode, fate.dropped);
    } else {
      ExecTwo(attrs, setting, chown,
              Chmod(entry.id, fate.chmodOk, AddBits(attrs[entry.id].mode, Mask(setting, entry.kind))));
    }
  }

  /** A complete walk leaves every file with its group and its added bits, whatever bits the kernel dropped
      on the way, and every other file as it was. */
  lemma {:induction false} CompleteWalk(setting: Setting, order: seq<Tree>, fates: seq<Fate>, attrs: map<nat, Attr>)
    requires AllPossible(order, fates) && AllOk(fates) && Distinct(order) && Known(order, attrs)
    ensures var after := ExecAll(attrs, setting, OpsForAll(order, fates, attrs, setting));
            && (forall e <- order :: after[e.id] == Final(setting, e.kind, attrs[e.id]))
            && (forall id <- attrs :: (forall e <- order :: e.id != id) ==> after[id] == attrs[id])
    decreases |order|
  {
    hide OpsForAll, ExecAll, Final, Possible;
    forall id <- attrs | forall e <- order :: e.id != id
      ensures ExecAll(attrs, setting, OpsForAll(order, fates, attrs, setting))[id] == attrs[id]
    {
      VisitedKeepOthers(attrs, setting, order, fates, id);
    }
    if order != [] {
      var n := |order| - 1;
      var mid := ExecAll(attrs, setting, OpsForAll(order[..n], fates[..n], attrs, setting));
      CompleteWalk(setting, order[..n], fates[..n], attrs);
      LastFile(setting, order, fates, attrs);
    }
  }

  lemma LastFile(setting: Setting, order: seq<Tree>, fates: seq<Fate>, attrs: map<nat, Attr>)
    requires order != [] && AllPossible(order, fates) && AllOk(fates) && Distinct(order) && Known(order, attrs)
    ensures var n := |order| - 1;
            var mid := ExecAll(attrs, setting, OpsForAll(order[..n], fates[..n], attrs, setting));
            var after := ExecAll(attrs, setting, OpsForAll(order, fates, attrs, setting));
            && after[order[n].id] == Final(setting, order[n].kind, attrs[order[n].id])
            && (forall e <- order[..n] :: after[e.id] == mid[e.id])
  {
    hide OpsForAll, ExecAll, Final, PostOrder, PostOrderAll, Possible;
    var n := |order| - 1;
    var last, fate := order[n], fates[n];
    var mid := ExecAll(attrs, setting, OpsForAll(order[..n], fates[..n], attrs, setting));
    assert order == order[..n] + [last] && fates == fates[..n] + [fate];
    VisitMore(attrs, setting, order[..n], fates[..n], [last], [fate]);
    VisitedKeepOthers(attrs, setting, order[..n], fates[..n], last.id);
    OneFile(last, fate, mid, setting);
    OneFileIsFinal(setting, last, fate, mid);
    forall e <- order[..n]
      ensures ExecAll(mid, setting, OpsForAll([last], [fate], mid, setting))[e.id] == mid[e.id]
    {
      VisitedKeepOthers(mid, setting, [last], [fate], e.id);
    }
  }

  /** The final tree does not depend on the order in which directories list their entries. */
  lemma OrderDoesNotMatter(setting: Setting, files: map<nat, Kind>, root: nat, attrs: map<nat, Attr>,
                           t: Tree, tFates: seq<Fate>, u: Tree, uFates: seq<Fate>)
    requires Lists(t, root, files) && Lists(u, root, files) && attrs.Keys == files.Keys
    requires AllPossible(PostOrder(t), tFates) && AllOk(tFates)
    requires AllPossible(PostOrder(u), uFates) && AllOk(uFates)
    ensures ExecAll(attrs, setting, OpsForAll(PostOrder(t), tFates, attrs, setting))
         == ExecAll(attrs, setting, OpsForAll(PostOrder(u), uFates, attrs, setting))
  {
    hide OpsForAll, ExecAll, Final, PostOrder, PostOrderAll, Possible;
    CompleteWalk(setting, PostOrder(t), tFates, attrs);
    CompleteWalk(setting, PostOrder(u), uFates, attrs);
    forall id <- files
      ensures ExecAll(attrs, setting, OpsForAll(PostOrder(t), tFates, attrs, setting))[id]
           == ExecAll(attrs, setting, OpsForAll(PostOrder(u), uFates, attrs, setting))[id]
    {
      var a :| a in PostOrder(t) && a.id == id;
      var b :| b in PostOrder(u) && b.id == id;
    }
  }

  lemma ModesOnlyGainBits(setting: Setting, kind: Kind, attr: Attr)
    ensures Final(setting, kind, attr).mode & attr.mode == attr.mode
    ensures Owned(setting, kind, Final(setting, kind, attr))
  {
    BitsStay(attr.mode, Mask(setting, kind));
    AddedBitsAreThere(attr.mode, Mask(setting, kind));
  }

  lemma BitsStay(mode: bv32, mask: bv32)
    ensures AddBits(mode, mask) & mode == mode && mode & mode == mode
  {}

  // Walks that stop at a file that cannot be read.

  lemma {:induction false} BelowIsTransitive(t: Tree, a: Tree, f: Tree)
    requires a in PostOrder(t) && f in PostOrder(a)
    ensures f in PostOrder(t)
    decreases t
  {
    if a != t {
      var i := ChildAbove(t, a);
      BelowIsTransitive(t.children[i], a, f);
      Layout(t, i);
    }
  }

  lemma {:induction false} ChildAbove(t: Tree, a: Tree) returns (i: nat)
    requires a in PostOrder(t) && a != t
    ensures i < |t.children| && a in PostOrder(t.children[i])
  {
    i := ChildOf(t.children, a);
  }

  lemma {:induction false} ChildOf(ts: seq<Tree>, a: Tree) returns (i: nat)
    requires a in PostOrderAll(ts)
    ensures i < |ts| && a in PostOrder(ts[i])
    decreases |ts|
  {
    if a in PostOrder(ts[0]) {
      i := 0;
    } else {
      i := ChildOf(ts[1..], a);
      i := i + 1;
    }
  }

  /** The file is the root of the tree or lies below it. */
  predicate InTree(t: Tree, f: Tree)
    decreases t
  {
    f == t || exists i | 0 <= i < |t.children| :: InTree(t.children[i], f)
  }

  /** The walk comes to every file of the tree, and to nothing else. */
  lemma {:induction false} EveryFileIsVisited(t: Tree, f: Tree)
    ensures InTree(t, f) <==> f in PostOrder(t)
    decreases t
  {
    forall i | 0 <= i < |t.children| ensures InTree(t.children[i], f) <==> f in PostOrder(t.children[i]) {
      EveryFileIsVisited(t.children[i], f);
    }
    hide InTree, PostOrderAll, PostOrder;
    InTreeMeans(t, f);
    if f in PostOrder(t) && f != t {
      var i := ChildAbove(t, f);
    }
    if i :| 0 <= i < |t.children| && f in PostOrder(t.children[i]) {
      Layout(t, i);
    }
    assert t in PostOrder(t) by { RootIsVisited(t); }
  }

  lemma RootIsVisited(t: Tree)
    ensures t in PostOrder(t)
  {
    assert PostOrder(t)[|PostOrder(t)| - 1] == t;
  }

  lemma InTreeMeans(t: Tree, f: Tree)
    ensures InTree(t, f) <==> f == t || exists i | 0 <= i < |t.children| :: InTree(t.children[i], f)
  {
  }

  function Files(t: Tree): nat
    decreases t, 1
  {
    1 + FilesIn(t.children)
  }

  function FilesIn(ts: seq<Tree>): nat
    decreases ts, 0
  {
    if ts == [] then 0 else Files(ts[0]) + FilesIn(ts[1..])
  }

  /** As many visits as there are files; so with all files different, one visit each. */
  lemma {:induction false} OneVisitEach(t: Tree)
    ensures |PostOrder(t)| == Files(t)
    decreases t, 1
  {
    OneVisitEachIn(t.children);
  }

  lemma {:induction false} OneVisitEachIn(ts: seq<Tree>)
    ensures |PostOrderAll(ts)| == FilesIn(ts)
    decreases ts, 0
  {
    if ts != [] {
      OneVisitEach(ts[0]);
      OneVisitEachIn(ts[1..]);
    }
  }

  /** Children before parents: a directory comes after everything below it. */
  lemma {:induction false} ParentsComeLater(t: Tree, attrs: map<nat, Attr>, i: nat, j: nat)
    requires WellFormed(t, attrs) && i < |PostOrder(t)| && j < |PostOrder(t)|
    requires PostOrder(t)[i] in PostOrder(PostOrder(t)[j])
    ensures i <= j
    decreases t
  {
    hide WellFormed, PostOrder, PostOrderAll;
    var f, a := PostOrder(t)[i], PostOrder(t)[j];
    if a == t {
      SameFileSamePlace(t, attrs, j, |PostOrder(t)| - 1);
    } else {
      var k := ChildAbove(t, a);
      BelowIsTransitive(t.children[k], a, f);
      Layout(t, k);
      ChildIsApart(t, k, attrs);
      var left, c := |PostOrderAll(t.children[..k])|, PostOrder(t.children[k]);
      var i' :| 0 <= i' < |c| && c[i'] == f;
      var j' :| 0 <= j' < |c| && c[j'] == a;
      SameFileSamePlace(t, attrs, i, left + i');
      SameFileSamePlace(t, attrs, j, left + j');
      ParentsComeLater(t.children[k], attrs, i', j');
    }
  }

  lemma SameFileSamePlace(t: Tree, attrs: map<nat, Attr>, i: nat, j: nat)
    requires WellFormed(t, attrs) && i < |PostOrder(t)| && j < |PostOrder(t)|
    requires PostOrder(t)[i] == PostOrder(t)[j]
    ensures i == j
  {}

  predicate Unreadable(f: Tree, noStat: set<nat>, noList: set<nat>) {
    f.id in noStat || (f.kind.Directory? && f.id in noList)
  }

  /** A walk that fails leaves some file that it could not read, and all directories above it, untouched. */
  lemma FailedWalkSparesParents(setting: Setting, t: Tree, attrs: map<nat, Attr>, visited: seq<Tree>, fates: seq<Fate>,
                                noStat: set<nat>, noList: set<nat>) returns (f: Tree)
    requires WellFormed(t, attrs) && visited <= PostOrder(t) && |fates| == |visited|
    requires StopsBefore(PostOrder(t), visited, noStat, noList)
    ensures f in PostOrder(t) && Unreadable(f, noStat, noList)
    ensures var after := ExecAll(attrs, setting, OpsForAll(visited, fates, attrs, setting));
            forall a <- PostOrder(t) | f in PostOrder(a) :: after[a.id] == attrs[a.id]
  {
    hide OpsForAll, ExecAll;
    var order := PostOrder(t);
    var i :| 0 <= i < |order| && Unreadable(order[i], noStat, noList) && |visited| + |PostOrder(order[i])| == i + 1;
    f := order[i];
    forall a <- order | f in PostOrder(a)
      ensures ExecAll(attrs, setting, OpsForAll(visited, fates, attrs, setting))[a.id] == attrs[a.id]
    {
      var j :| 0 <= j < |order| && order[j] == a;
      ParentsComeLater(t, attrs, i, j);
      assert forall k | 0 <= k < |visited| :: visited[k] == order[k];
      VisitedKeepOthers(attrs, setting, visited, fates, a.id);
    }
  }

  // Why the blame: a failed lchown is only logged, and the walk goes on to mark the root.

  const Leaf := Entry(1, Regular, [])
  const Volume0 := Entry(0, Directory, [Leaf])
  const Attrs0: map<nat, Attr> := map[0 := Attr(0, 0), 1 := Attr(0, 0)]
  const Fates0 := [Fate(false, true, 0), Fate(true, true, 0)]

  lemma LeafKeepsItsGroup(setting: Setting)
    ensures var mid := ExecAll(Attrs0, setting, OpsForAll([Leaf], [Fates0[0]], Attrs0, setting));
            mid.Keys == {0, 1} && mid[1].gid == 0
  {
    hide Mask, AddBits, OpsForAll;
    OneFile(Leaf, Fates0[0], Attrs0, setting);
    ExecTwo(Attrs0, setting, Chown(1, false, 0), Chmod(1, true, AddBits(0, Mask(setting, Regular))));
  }

  lemma SmallTree()
    ensures WellFormed(Volume0, Attrs0) && AllPossible(PostOrder(Volume0), Fates0)
    ensures PostOrder(Volume0) == [Leaf] + [Volume0] && Fates0 == [Fates0[0]] + [Fates0[1]]
  {
    SmallOrder();
  }

  lemma FailedChownEscapesTheShortcut(setting: Setting)
    requires setting.gid != 0
    ensures WellFormed(Volume0, Attrs0) && AllPossible(PostOrder(Volume0), Fates0)
    ensures RequiresPermissionChange(setting, Directory, Attrs0[0])
    ensures var after := ExecAll(Attrs0, setting, OpsForAll(PostOrder(Volume0), Fates0, Attrs0, setting));
            && !RequiresPermissionChange(setting, Directory, after[0])
            && !Owned(setting, Regular, after[1])
  {
    SmallTree();
    LeafKeepsItsGroup(setting);
    hide Mask, AddBits, ExecAll, OpsForAll, PostOrder, WellFormed;
    VisitMore(Attrs0, setting, [Leaf], [Fates0[0]], [Volume0], [Fates0[1]]);
    var mid := ExecAll(Attrs0, setting, OpsForAll([Leaf], [Fates0[0]], Attrs0, setting));
    VisitedKeepOthers(mid, setting, [Volume0], [Fates0[1]], 1);
    OneFile(Volume0, Fates0[1], mid, setting);
    OneFileIsFinal(setting, Volume0, Fates0[1], mid);
    ModesOnlyGainBits(setting, Directory, mid[0]);
    RootCheckIsExact(setting, Final(setting, Directory, mid[0]));
  }

  lemma SmallOrder()
    ensures PostOrder(Volume0) == [Leaf, Volume0]
  {
    assert [Leaf][1..] == [] && Volume0.children == [Leaf];
    assert PostOrderAll([Leaf]) == PostOrder(Leaf) + PostOrderAll([]);
    assert PostOrder(Leaf) == PostOrderAll([]) + [Leaf];
  }
}
