/** The root as completion marker: over any sequence of calls, each cut off anywhere, the fast check of the
    root agrees with a scan of the whole volume. */
module OwnershipRuns {
  import opened Ownership

  /** The check of requiresPermissionChange, on the attributes of the root. */
  predicate RequiresPermissionChange(setting: Setting, kind: Kind, attr: Attr) {
    var unixPerms := (if setting.readOnly then RO_MASK else RW_MASK) | EXEC_MASK;
    || attr.gid != setting.gid
    || !kind.Directory?
    || unixPerms & (attr.mode & PERM_MASK) != unixPerms
    || attr.mode & MODE_SETGID == 0
  }

  lemma RootBits(mode: bv32, perms: bv32)
    requires perms & PERM_MASK == perms
    ensures (perms & (mode & PERM_MASK) == perms && mode & MODE_SETGID != 0)
            <==> mode & (perms | MODE_SETGID) == perms | MODE_SETGID
  {}

  /** For a directory the check asks for exactly what the walk would give it. */
  lemma RootCheckIsExact(setting: Setting, attr: Attr)
    ensures !RequiresPermissionChange(setting, Directory, attr) <==> Owned(setting, Directory, attr)
  {
    RootBits(attr.mode, RW_MASK | EXEC_MASK);
    RootBits(attr.mode, RO_MASK | EXEC_MASK);
    assert RW_MASK | EXEC_MASK | MODE_SETGID == RW_MASK | (MODE_SETGID | EXEC_MASK);
    assert RO_MASK | EXEC_MASK | MODE_SETGID == RO_MASK | (MODE_SETGID | EXEC_MASK);
  }

  /** What a file needs, bit by bit: read for user and group, write unless read-only, and for a directory also execute
      and set-group. */
  lemma OwnedExactly(setting: Setting, kind: Kind, attr: Attr)
    ensures Owned(setting, kind, attr) <==>
            && attr.gid == setting.gid
            && (kind.Symlink? || (
                  && attr.mode & 0x120 == 0x120                             // 0440
                  && (setting.readOnly || attr.mode & 0x90 == 0x90)         // 0220
                  && (kind.Directory? ==> attr.mode & 0x48 == 0x48 && attr.mode & 0x400000 != 0)))
  {
    BitByBit(attr.mode);
  }

  lemma BitByBit(mode: bv32)
    ensures mode & 0x1B0 == 0x1B0 <==> mode & 0x120 == 0x120 && mode & 0x90 == 0x90
    ensures mode & 0x4001F8 == 0x4001F8 <==> mode & 0x1B0 == 0x1B0 && mode & 0x48 == 0x48 && mode & 0x400000 != 0
    ensures mode & 0x400168 == 0x400168 <==> mode & 0x120 == 0x120 && mode & 0x48 == 0x48 && mode & 0x400000 != 0
    ensures mode & (0x1B0 | 0) == mode & 0x1B0 && mode & (0x120 | 0) == mode & 0x120
    ensures mode & (0x1B0 | (0x400000 | 0x48)) == mode & 0x4001F8 && mode & (0x120 | (0x400000 | 0x48)) == mode & 0x400168
  {}

  // One call of lchown or chmod.

  /** The call is one that the walk would make for this file. */
  predicate Fits(setting: Setting, kind: Kind, op: Op) {
    match op
    case Chown(_, _, dropped) => CanDrop(kind, dropped)
    case Chmod(_, _, mode) => !kind.Symlink? && mode & Mask(setting, kind) == Mask(setting, kind)
  }

  lemma OpsForFit(entry: Tree, fate: Fate, attrs: map<nat, Attr>, setting: Setting)
    requires entry.id in attrs && Possible(entry.kind, fate)
    ensures forall op <- OpsFor(entry, fate, attrs, setting) :: Fits(setting, entry.kind, op) && op.id == entry.id
  {
    hide Mask, CanDrop, AddBits;
    AddedBitsAreThere(attrs[entry.id].mode, Mask(setting, entry.kind));
  }

  lemma AddedBitsAreThere(mode: bv32, mask: bv32)
    ensures AddBits(mode, mask) & mask == mask
  {}

  lemma ChownKeepsOwned(setting: Setting, kind: Kind, attr: Attr, dropped: bv32)
    requires Owned(setting, kind, attr)
    requires CanDrop(kind, dropped)
    ensures Owned(setting, kind, Chowned(attr, setting.gid, dropped))
  {
    hide Mask;
    if kind.Regular? {
      DroppedBitsAreNotRequired(attr.mode, dropped, setting);
    } else {
      NothingDropped(attr.mode, dropped);
    }
  }

  lemma NothingDropped(mode: bv32, dropped: bv32)
    requires dropped == 0
    ensures mode & !dropped == mode
  {}

  lemma OwnedStays(setting: Setting, kind: Kind, attrs: map<nat, Attr>, op: Op, id: nat)
    requires id in attrs && Owned(setting, kind, attrs[id])
    requires op.id == id ==> Fits(setting, kind, op)
    ensures Owned(setting, kind, Exec(attrs, setting, op)[id])
  {
    if op.Chown? && op.id == id {
      ChownKeepsOwned(setting, kind, attrs[id], op.dropped);
    }
  }

  lemma DroppedBitsAreNotRequired(mode: bv32, dropped: bv32, setting: Setting)
    requires dropped & (MODE_SETUID | MODE_SETGID) == dropped
    requires mode & Mask(setting, Regular) == Mask(setting, Regular)
    ensures (mode & !dropped) & Mask(setting, Regular) == Mask(setting, Regular)
  {}

  // Many calls.

  lemma {:induction false} ExecSplit(attrs: map<nat, Attr>, setting: Setting, a: seq<Op>, b: seq<Op>)
    ensures ExecAll(attrs, setting, a + b) == ExecAll(ExecAll(attrs, setting, a), setting, b)
    decreases |b|
  {
    if b == [] {
      assert a + b == a;
    } else {
      ExecSplit(attrs, setting, a, b[..|b| - 1]);
      assert (a + b)[..|a + b| - 1] == a + b[..|b| - 1];
    }
  }

  /** Every call fits the kind of its file. */
  predicate FitsAll(setting: Setting, files: map<nat, Kind>, ops: seq<Op>) {
    forall op <- ops :: op.id in files && Fits(setting, files[op.id], op)
  }

  predicate Knows(files: map<nat, Kind>, entries: seq<Tree>) {
    forall e <- entries :: e.id in files && files[e.id] == e.kind
  }

  predicate AllPossible(entries: seq<Tree>, fates: seq<Fate>) {
    |fates| == |entries| && forall i | 0 <= i < |entries| :: Possible(entries[i].kind, fates[i])
  }

  lemma {:induction false} OpsForAllFit(files: map<nat, Kind>, entries: seq<Tree>, fates: seq<Fate>, attrs: map<nat, Attr>, setting: Setting)
    requires AllPossible(entries, fates) && Knows(files, entries) && files.Keys <= attrs.Keys
    ensures FitsAll(setting, files, OpsForAll(entries, fates, attrs, setting))
    decreases |entries|
  {
    if entries != [] {
      var n := |entries| - 1;
      OpsForAllFit(files, entries[..n], fates[..n], attrs, setting);
      OpsForFit(entries[n], fates[n], attrs, setting);
    }
  }

  lemma {:induction false} OwnedStaysThroughout(setting: Setting, files: map<nat, Kind>, attrs: map<nat, Attr>, ops: seq<Op>, id: nat)
    requires id in files && id in attrs && FitsAll(setting, files, ops)
    requires Owned(setting, files[id], attrs[id])
    ensures Owned(setting, files[id], ExecAll(attrs, setting, ops)[id])
    decreases |ops|
  {
    if ops != [] {
      var n := |ops| - 1;
      assert FitsAll(setting, files, ops[..n]);
      OwnedStaysThroughout(setting, files, attrs, ops[..n], id);
      assert ops[n] in ops;
      OwnedStays(setting, files[id], ExecAll(attrs, setting, ops[..n]), ops[n], id);
    }
  }

  lemma {:induction false} UntouchedStays(setting: Setting, attrs: map<nat, Attr>, ops: seq<Op>, id: nat)
    requires id in attrs && forall op <- ops :: op.id != id
    ensures ExecAll(attrs, setting, ops)[id] == attrs[id]
    decreases |ops|
  {
    if ops != [] {
      UntouchedStays(setting, attrs, ops[..|ops| - 1], id);
      assert ops[|ops| - 1] in ops;
    }
  }

  // One walk.

  /** Some call for this file failed, which the walk only logs. */
  predicate Blamed(ops: seq<Op>, id: nat) {
    exists op <- ops :: op.id == id && !op.ok
  }

  predicate Handled(setting: Setting, kind: Kind, attrs: map<nat, Attr>, ops: seq<Op>, id: nat) {
    Blamed(ops, id) || (id in attrs && Owned(setting, kind, attrs[id]))
  }

  /** Once the calls for a file are made it is as it should be, or one of them failed. */
  lemma FileIsHandled(setting: Setting, entry: Tree, fate: Fate, start: map<nat, Attr>, attrs: map<nat, Attr>)
    requires entry.id in start && entry.id in attrs && Possible(entry.kind, fate)
    ensures var ops := OpsFor(entry, fate, start, setting);
            Handled(setting, entry.kind, ExecAll(attrs, setting, ops), ops, entry.id)
  {
    var ops := OpsFor(entry, fate, start, setting);
    OpsForFit(entry, fate, start, setting);
    assert ops[0] in ops && ops[|ops| - 1] in ops;
    assert ops[..0] == [];
    if !entry.kind.Symlink? {
      assert ops[..2] == ops && ops[..1][..0] == [] && ops[..1][0] == ops[0];
    }
  }

  lemma {:induction false} AllAreHandled(setting: Setting, files: map<nat, Kind>, entries: seq<Tree>, fates: seq<Fate>, attrs: map<nat, Attr>)
    requires AllPossible(entries, fates) && Knows(files, entries) && files.Keys <= attrs.Keys
    ensures var ops := OpsForAll(entries, fates, attrs, setting);
            forall e <- entries :: Handled(setting, e.kind, ExecAll(attrs, setting, ops), ops, e.id)
    decreases |entries|
  {
    hide Handled, OpsFor, Fits, Possible;
    if entries != [] {
      var n := |entries| - 1;
      var before, last := OpsForAll(entries[..n], fates[..n], attrs, setting), OpsFor(entries[n], fates[n], attrs, setting);
      AllAreHandled(setting, files, entries[..n], fates[..n], attrs);
      ExecSplit(attrs, setting, before, last);
      FileIsHandled(setting, entries[n], fates[n], attrs, ExecAll(attrs, setting, before));
      OpsForFit(entries[n], fates[n], attrs, setting);
      forall e <- entries[..n]
        ensures Handled(setting, e.kind, ExecAll(attrs, setting, before + last), before + last, e.id)
      {
        HandledStays(setting, files, ExecAll(attrs, setting, before), before, last, e);
      }
      BlameAccumulates(setting, entries[n].kind, ExecAll(attrs, setting, before + last), before, last, entries[n].id);
    }
  }

  lemma BlameAccumulates(setting: Setting, kind: Kind, attrs: map<nat, Attr>, before: seq<Op>, more: seq<Op>, id: nat)
    requires Handled(setting, kind, attrs, more, id)
    ensures Handled(setting, kind, attrs, before + more, id)
  {
    if Blamed(more, id) {
      var op :| op in more && op.id == id && !op.ok;
      assert op in before + more;
    }
  }

  lemma HandledStays(setting: Setting, files: map<nat, Kind>, attrs: map<nat, Attr>, before: seq<Op>, more: seq<Op>, e: Tree)
    requires Knows(files, [e]) && FitsAll(setting, files, more)
    requires Handled(setting, e.kind, attrs, before, e.id)
    ensures Handled(setting, e.kind, ExecAll(attrs, setting, more), before + more, e.id)
  {
    assert e in [e];
    if Blamed(before, e.id) {
      var op :| op in before && op.id == e.id && !op.ok;
      assert op in before + more;
    } else {
      OwnedStaysThroughout(setting, files, attrs, more, e.id);
    }
  }

  // Runs of whole calls.

  /** A call of SetVolumeOwnership: how the directories list their entries this time, the change policy,
      whether the root could be examined, the outcomes, and after how many system calls it is cut off, be it
      by a crash or by a file that cannot be read. */
  datatype Call = Call(listing: Tree, onRootMismatch: bool, statOk: bool, fates: seq<Fate>, cut: nat)

  /** The attributes of all files, and the files for which some call failed so far. */
  datatype Volume = Volume(attrs: map<nat, Attr>, blamed: set<nat>)

  /** The listing shows every file of the volume once, below the same root. */
  ghost predicate Lists(listing: Tree, root: nat, files: map<nat, Kind>) {
    && listing.id == root && root in files
    && Knows(files, PostOrder(listing))
    && (forall id <- files :: exists e <- PostOrder(listing) :: e.id == id)
    && (forall i, j | 0 <= i < j < |PostOrder(listing)| :: PostOrder(listing)[i].id != PostOrder(listing)[j].id)
  }

  ghost predicate Admissible(call: Call, root: nat, files: map<nat, Kind>) {
    Lists(call.listing, root, files) && AllPossible(PostOrder(call.listing), call.fates)
  }

  predicate Skips(setting: Setting, root: nat, files: map<nat, Kind>, attrs: map<nat, Attr>, call: Call)
    requires root in files && root in attrs
  {
    call.onRootMismatch && call.statOk && !RequiresPermissionChange(setting, files[root], attrs[root])
  }

  function Executed(setting: Setting, attrs: map<nat, Attr>, call: Call): seq<Op>
    requires |call.fates| == |PostOrder(call.listing)|
    requires forall e <- PostOrder(call.listing) :: e.id in attrs
  {
    var ops := OpsForAll(PostOrder(call.listing), call.fates, attrs, setting);
    if call.cut < |ops| then ops[..call.cut] else ops
  }

  ghost function Perform(setting: Setting, root: nat, files: map<nat, Kind>, v: Volume, call: Call): Volume
    requires Admissible(call, root, files) && v.attrs.Keys == files.Keys
  {
    if Skips(setting, root, files, v.attrs, call) then v
    else
      var ops := Executed(setting, v.attrs, call);
      Volume(ExecAll(v.attrs, setting, ops), v.blamed + set id | id in files && Blamed(ops, id))
  }

  ghost predicate AllHandled(setting: Setting, files: map<nat, Kind>, v: Volume)
    requires v.attrs.Keys == files.Keys
  {
    forall id <- files :: id in v.blamed || Owned(setting, files[id], v.attrs[id])
  }

  /** The root is a completion marker. */
  ghost predicate RootMarks(setting: Setting, root: nat, files: map<nat, Kind>, v: Volume)
    requires v.attrs.Keys == files.Keys && root in files
  {
    !RequiresPermissionChange(setting, files[root], v.attrs[root]) ==> AllHandled(setting, files, v)
  }

  /** Everything but the root comes before the root. */
  function BeforeRoot(setting: Setting, attrs: map<nat, Attr>, call: Call): seq<Op>
    requires |call.fates| == |PostOrder(call.listing)|
    requires forall e <- PostOrder(call.listing) :: e.id in attrs
  {
    var n := |PostOrder(call.listing)| - 1;
    OpsForAll(PostOrder(call.listing)[..n], call.fates[..n], attrs, setting)
  }

  lemma {:induction false} OpsComeFromEntries(entries: seq<Tree>, fates: seq<Fate>, attrs: map<nat, Attr>, setting: Setting)
    requires |fates| == |entries| && forall e <- entries :: e.id in attrs
    ensures forall op <- OpsForAll(entries, fates, attrs, setting) :: exists e <- entries :: e.id == op.id
    decreases |entries|
  {
    if entries != [] {
      var n := |entries| - 1;
      OpsComeFromEntries(entries[..n], fates[..n], attrs, setting);
      forall op <- OpsForAll(entries, fates, attrs, setting) ensures exists e <- entries :: e.id == op.id {
        if op in OpsForAll(entries[..n], fates[..n], attrs, setting) {
          var e :| e in entries[..n] && e.id == op.id;
          assert e in entries;
        } else {
          assert entries[n] in entries && op.id == entries[n].id;
        }
      }
    }
  }

  lemma BeforeRootAvoidsRoot(setting: Setting, root: nat, files: map<nat, Kind>, attrs: map<nat, Attr>, call: Call)
    requires Admissible(call, root, files) && attrs.Keys == files.Keys
    ensures forall op <- BeforeRoot(setting, attrs, call) :: op.id != root
  {
    hide OpsForAll;
    var order := PostOrder(call.listing);
    var n := |order| - 1;
    OpsComeFromEntries(order[..n], call.fates[..n], attrs, setting);
    forall op <- BeforeRoot(setting, attrs, call) ensures op.id != root {
      var e :| e in order[..n] && e.id == op.id;
    }
  }

  /** What is executed is a prefix of all calls, and all calls fit. */
  lemma ExecutedFits(setting: Setting, root: nat, files: map<nat, Kind>, attrs: map<nat, Attr>, call: Call)
    requires Admissible(call, root, files) && attrs.Keys == files.Keys
    ensures FitsAll(setting, files, Executed(setting, attrs, call))
  {
    hide OpsForAll, Fits;
    OpsForAllFit(files, PostOrder(call.listing), call.fates, attrs, setting);
  }

  lemma LastOps(entries: seq<Tree>, fates: seq<Fate>, attrs: map<nat, Attr>, setting: Setting)
    requires |fates| == |entries| > 0 && forall e <- entries :: e.id in attrs
    ensures var n := |entries| - 1;
            OpsForAll(entries, fates, attrs, setting) ==
              OpsForAll(entries[..n], fates[..n], attrs, setting) + OpsFor(entries[n], fates[n], attrs, setting)
  {}

  lemma CutAt(before: seq<Op>, last: seq<Op>, cut: nat)
    ensures var all := before + last;
            var ops := if cut < |all| then all[..cut] else all;
            if cut <= |before| then ops <= before else before <= ops
  {
  }

  lemma ExecutedSplits(setting: Setting, root: nat, files: map<nat, Kind>, attrs: map<nat, Attr>, call: Call)
    requires Admissible(call, root, files) && attrs.Keys == files.Keys
    ensures var before, ops := BeforeRoot(setting, attrs, call), Executed(setting, attrs, call);
            if call.cut <= |before| then ops <= before else before <= ops
  {
    hide OpsFor, OpsForAll, Mask, Possible, PostOrder;
    var order := PostOrder(call.listing);
    var n := |order| - 1;
    LastOps(order, call.fates, attrs, setting);
    CutAt(BeforeRoot(setting, attrs, call), OpsFor(order[n], call.fates[n], attrs, setting), call.cut);
  }

  /** A walk that is cut off before the root leaves the root alone. */
  lemma CutBeforeRoot(setting: Setting, root: nat, files: map<nat, Kind>, v: Volume, call: Call)
    requires Admissible(call, root, files) && v.attrs.Keys == files.Keys
    requires call.cut <= |BeforeRoot(setting, v.attrs, call)|
    ensures ExecAll(v.attrs, setting, Executed(setting, v.attrs, call))[root] == v.attrs[root]
  {
    hide OpsForAll, Executed, BeforeRoot, ExecAll;
    BeforeRootAvoidsRoot(setting, root, files, v.attrs, call);
    ExecutedSplits(setting, root, files, v.attrs, call);
    UntouchedStays(setting, v.attrs, Executed(setting, v.attrs, call), root);
  }

  /** Every file but the root is visited before the root. */
  lemma VisitedBeforeRoot(call: Call, root: nat, files: map<nat, Kind>, id: nat) returns (e: Tree)
    requires Lists(call.listing, root, files) && id in files && id != root
    ensures var order := PostOrder(call.listing);
            e in order[..|order| - 1] && e.id == id && files[id] == e.kind
  {
    hide PostOrder;
    var order := PostOrder(call.listing);
    e :| e in order && e.id == id;
    var i :| 0 <= i < |order| && order[i] == e;
    assert order[|order| - 1] == call.listing;
    assert order[..|order| - 1][i] == e;
  }

  lemma UpToRoot(call: Call, root: nat, files: map<nat, Kind>)
    requires Admissible(call, root, files)
    ensures var n := |PostOrder(call.listing)| - 1;
            AllPossible(PostOrder(call.listing)[..n], call.fates[..n]) && Knows(files, PostOrder(call.listing)[..n])
  {
    hide PostOrder, Possible;
  }

  /** A file that was visited stays handled in all that follows. */
  lemma VisitedIsHandled(setting: Setting, files: map<nat, Kind>, entries: seq<Tree>, fates: seq<Fate>,
                         attrs: map<nat, Attr>, ops: seq<Op>, e: Tree)
    requires AllPossible(entries, fates) && Knows(files, entries) && files.Keys <= attrs.Keys && e in entries
    requires FitsAll(setting, files, ops) && OpsForAll(entries, fates, attrs, setting) <= ops
    ensures Handled(setting, e.kind, ExecAll(attrs, setting, ops), ops, e.id)
  {
    hide OpsForAll, ExecAll, Handled, Possible, Fits;
    var before := OpsForAll(entries, fates, attrs, setting);
    var more := ops[|before|..];
    assert ops == before + more;
    AllAreHandled(setting, files, entries, fates, attrs);
    ExecSplit(attrs, setting, before, more);
    HandledStays(setting, files, ExecAll(attrs, setting, before), before, more, e);
  }

  /** A walk that gets as far as the root has handled every other file. */
  lemma CutAfterRoot(setting: Setting, root: nat, files: map<nat, Kind>, v: Volume, call: Call, id: nat)
    requires Admissible(call, root, files) && v.attrs.Keys == files.Keys && id in files && id != root
    requires call.cut > |BeforeRoot(setting, v.attrs, call)|
    ensures var ops := Executed(setting, v.attrs, call);
            Handled(setting, files[id], ExecAll(v.attrs, setting, ops), ops, id)
  {
    var n := |PostOrder(call.listing)| - 1;
    var e := VisitedBeforeRoot(call, root, files, id);
    UpToRoot(call, root, files);
    ExecutedSplits(setting, root, files, v.attrs, call);
    ExecutedFits(setting, root, files, v.attrs, call);
    hide OpsForAll, Executed, ExecAll, Handled, FitsAll, AllPossible, Knows, Lists, PostOrder;
    VisitedIsHandled(setting, files, PostOrder(call.listing)[..n], call.fates[..n], v.attrs,
                     Executed(setting, v.attrs, call), e);
  }

  lemma PerformKeepsMark(setting: Setting, root: nat, files: map<nat, Kind>, v: Volume, call: Call)
    requires Admissible(call, root, files) && v.attrs.Keys == files.Keys
    requires RootMarks(setting, root, files, v)
    ensures RootMarks(setting, root, files, Perform(setting, root, files, v, call))
  {
    hide Executed, ExecAll, Mask, Fits;
    var w := Perform(setting, root, files, v, call);
    if !Skips(setting, root, files, v.attrs, call) && !RequiresPermissionChange(setting, files[root], w.attrs[root]) {
      var ops := Executed(setting, v.attrs, call);
      RootCheckIsExact(setting, w.attrs[root]);
      forall id <- files ensures id in w.blamed || Owned(setting, files[id], w.attrs[id]) {
        if !RequiresPermissionChange(setting, files[root], v.attrs[root]) {
          if id !in v.blamed {
            ExecutedFits(setting, root, files, v.attrs, call);
            OwnedStaysThroughout(setting, files, v.attrs, ops, id);
          }
        } else if call.cut <= |BeforeRoot(setting, v.attrs, call)| {
          CutBeforeRoot(setting, root, files, v, call);
          assert false;
        } else if id != root {
          CutAfterRoot(setting, root, files, v, call, id);
        }
      }
    }
  }

  /** Without the shortcut, a call that runs to its end handles every file, whatever the root was like. */
  lemma CompleteCallHandlesAll(setting: Setting, root: nat, files: map<nat, Kind>, v: Volume, call: Call)
    requires Admissible(call, root, files) && v.attrs.Keys == files.Keys
    requires !call.onRootMismatch && call.cut >= |OpsForAll(PostOrder(call.listing), call.fates, v.attrs, setting)|
    ensures AllHandled(setting, files, Perform(setting, root, files, v, call))
  {
    hide OpsForAll, ExecAll, Handled, PostOrder, Possible;
    AllAreHandled(setting, files, PostOrder(call.listing), call.fates, v.attrs);
    var ops := OpsForAll(PostOrder(call.listing), call.fates, v.attrs, setting);
    var w := Perform(setting, root, files, v, call);
    forall id <- files ensures id in w.blamed || Owned(setting, files[id], w.attrs[id]) {
      var e :| e in PostOrder(call.listing) && e.id == id;
      assert Handled(setting, e.kind, ExecAll(v.attrs, setting, ops), ops, e.id);
      HandledMeans(setting, e.kind, w.attrs, ops, id);
    }
  }

  lemma HandledMeans(setting: Setting, kind: Kind, attrs: map<nat, Attr>, ops: seq<Op>, id: nat)
    requires Handled(setting, kind, attrs, ops, id)
    ensures Blamed(ops, id) || (id in attrs && Owned(setting, kind, attrs[id]))
  {
  }

  ghost predicate AdmissibleAll(root: nat, files: map<nat, Kind>, calls: seq<Call>) {
    forall call <- calls :: Admissible(call, root, files)
  }

  ghost function After(setting: Setting, root: nat, files: map<nat, Kind>, attrs: map<nat, Attr>, calls: seq<Call>): (v: Volume)
    requires AdmissibleAll(root, files, calls) && attrs.Keys == files.Keys
    ensures v.attrs.Keys == files.Keys
  {
    if calls == [] then Volume(attrs, {})
    else
      var n := |calls| - 1;
      assert calls[n] in calls;
      Perform(setting, root, files, After(setting, root, files, attrs, calls[..n]), calls[n])
  }

  lemma {:induction false} MarkOverRuns(setting: Setting, root: nat, files: map<nat, Kind>, attrs: map<nat, Attr>, calls: seq<Call>)
    requires AdmissibleAll(root, files, calls) && attrs.Keys == files.Keys && root in files
    requires RequiresPermissionChange(setting, files[root], attrs[root])
    ensures RootMarks(setting, root, files, After(setting, root, files, attrs, calls))
    decreases |calls|
  {
    hide Perform, Admissible;
    if calls != [] {
      var n := |calls| - 1;
      assert calls[n] in calls;
      MarkOverRuns(setting, root, files, attrs, calls[..n]);
      PerformKeepsMark(setting, root, files, After(setting, root, files, attrs, calls[..n]), calls[n]);
    }
  }

  /** The shortcut is sound: on a volume whose root asked for a change at first, when after any calls the
      root asks for none, every file is as it should be, except those for which a call failed. */
  lemma ShortcutIsSound(setting: Setting, root: nat, files: map<nat, Kind>, attrs: map<nat, Attr>, calls: seq<Call>, id: nat)
    requires AdmissibleAll(root, files, calls) && attrs.Keys == files.Keys && root in files && id in files
    requires RequiresPermissionChange(setting, files[root], attrs[root])
    ensures var v := After(setting, root, files, attrs, calls);
            !RequiresPermissionChange(setting, files[root], v.attrs[root]) ==>
              id in v.blamed || Owned(setting, files[id], v.attrs[id])
  {
    MarkOverRuns(setting, root, files, attrs, calls);
  }

  /** Without failed calls, looking at the root is as good as scanning the volume. */
  lemma ShortcutAgreesWithScan(setting: Setting, root: nat, files: map<nat, Kind>, attrs: map<nat, Attr>, calls: seq<Call>)
    requires AdmissibleAll(root, files, calls) && attrs.Keys == files.Keys && root in files && files[root].Directory?
    requires RequiresPermissionChange(setting, files[root], attrs[root])
    requires After(setting, root, files, attrs, calls).blamed == {}
    ensures var v := After(setting, root, files, attrs, calls);
            !RequiresPermissionChange(setting, files[root], v.attrs[root]) <==>
            forall id <- files :: Owned(setting, files[id], v.attrs[id])
  {
    MarkOverRuns(setting, root, files, attrs, calls);
    RootCheckIsExact(setting, After(setting, root, files, attrs, calls).attrs[root]);
  }
}
