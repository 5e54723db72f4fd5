/** Which mode bits a file can lose. The walk only adds bits, but an lchown may take set-user and set-group bits from
    a regular file, and they are lost when the chmod after it fails or is never reached. */
module OwnershipBits {
  import opened Ownership
  import opened OwnershipRuns

  /** The bits that the calls so far took from the file and did not give back. */
  function Stripped(ops: seq<Op>, id: nat): bv32 {
    if ops == [] then 0
    else
      var n := |ops| - 1;
      var before := Stripped(ops[..n], id);
      if ops[n].id != id || !ops[n].ok then before
      else if ops[n].Chown? then AddBits(before, ops[n].dropped)
      else 0
  }

  /** The same over several calls of SetVolumeOwnership; none of them gives back what an earlier one lost. */
  ghost function StrippedByAll(setting: Setting, root: nat, files: map<nat, Kind>, attrs: map<nat, Attr>,
                               calls: seq<Call>, id: nat): bv32
    requires AdmissibleAll(root, files, calls) && attrs.Keys == files.Keys && root in files
  {
    if calls == [] then 0
    else
      var n := |calls| - 1;
      assert calls[n] in calls;
      var v := After(setting, root, files, attrs, calls[..n]);
      var before := StrippedByAll(setting, root, files, attrs, calls[..n], id);
      if Skips(setting, root, files, v.attrs, calls[n]) then before
      else AddBits(before, Stripped(Executed(setting, v.attrs, calls[n]), id))
  }

  // One call.

  /** Every chmod of the file adds to the mode that the file had at first, and every lchown fits its kind. */
  predicate AddsTo(ops: seq<Op>, id: nat, kind: Kind, mode: bv32, mask: bv32) {
    forall op <- ops | op.id == id ::
      if op.Chmod? then op.mode == AddBits(mode, mask) else CanDrop(kind, op.dropped)
  }

  /** Of its first mode the file lacks exactly the bits `gone`. */
  predicate Misses(first: bv32, mode: bv32, gone: bv32) {
    first & !mode == first & gone
  }

  predicate Within(mode: bv32, all: bv32) {
    mode & !all == 0
  }

  /** And others it only gained from the mask. */
  predicate Lacks(first: bv32, mode: bv32, gone: bv32, mask: bv32) {
    Misses(first, mode, gone) && Within(mode, first | mask)
  }

  lemma LacksNothing(mode: bv32, mask: bv32)
    ensures Lacks(mode, mode, 0, mask)
  {}

  lemma BitsDropped(first: bv32, mode: bv32, gone: bv32, dropped: bv32)
    requires Misses(first, mode, gone)
    ensures Misses(first, mode & !dropped, gone | dropped)
  {}

  lemma BitsWithin(mode: bv32, all: bv32, dropped: bv32)
    requires Within(mode, all)
    ensures Within(mode & !dropped, all)
  {}

  lemma LacksThese(first: bv32, mode: bv32, gone: bv32, mask: bv32, dropped: bv32)
    requires Lacks(first, mode, gone, mask)
    ensures Lacks(first, mode & !dropped, gone | dropped, mask)
  {
    hide Misses, Within;
    BitsDropped(first, mode, gone, dropped);
    BitsWithin(mode, first | mask, dropped);
  }

  lemma LacksDropped(first: bv32, attr: Attr, gone: bv32, mask: bv32, gid: int, dropped: bv32)
    requires Lacks(first, attr.mode, gone, mask)
    ensures Lacks(first, Chowned(attr, gid, dropped).mode, AddBits(gone, dropped), mask)
  {
    hide Lacks;
    LacksThese(first, attr.mode, gone, mask, dropped);
  }

  lemma LacksNoMore(first: bv32, mask: bv32)
    ensures Lacks(first, AddBits(first, mask), 0, mask)
  {}

  /** What the file lacks after the calls of one walk is what they stripped from it. */
  lemma {:induction false} OneWalk(setting: Setting, attrs: map<nat, Attr>, ops: seq<Op>, id: nat, kind: Kind, mask: bv32)
    requires id in attrs && AddsTo(ops, id, kind, attrs[id].mode, mask)
    ensures Lacks(attrs[id].mode, ExecAll(attrs, setting, ops)[id].mode, Stripped(ops, id), mask)
    decreases |ops|
  {
    hide Lacks, CanDrop, AddBits, Chowned;
    if ops == [] {
      LacksNothing(attrs[id].mode, mask);
    } else {
      var n := |ops| - 1;
      assert ops[n] in ops;
      OneWalk(setting, attrs, ops[..n], id, kind, mask);
      var mid := ExecAll(attrs, setting, ops[..n]);
      if ops[n].id == id && ops[n].ok {
        if ops[n].Chown? {
          LacksDropped(attrs[id].mode, mid[id], Stripped(ops[..n], id), mask, setting.gid, ops[n].dropped);
        } else {
          LacksNoMore(attrs[id].mode, mask);
        }
      }
    }
  }

  lemma {:induction false} OpsAdd(files: map<nat, Kind>, entries: seq<Tree>, fates: seq<Fate>, attrs: map<nat, Attr>,
                                  setting: Setting, id: nat)
    requires AllPossible(entries, fates) && Knows(files, entries) && files.Keys <= attrs.Keys && id in files
    ensures AddsTo(OpsForAll(entries, fates, attrs, setting), id, files[id], attrs[id].mode, Mask(setting, files[id]))
    decreases |entries|
  {
    hide Mask, AddBits, CanDrop;
    if entries != [] {
      var n := |entries| - 1;
      OpsAdd(files, entries[..n], fates[..n], attrs, setting, id);
      assert Possible(entries[n].kind, fates[n]);
    }
  }

  lemma {:induction false} FewBits(ops: seq<Op>, id: nat, kind: Kind, mode: bv32, mask: bv32)
    requires AddsTo(ops, id, kind, mode, mask)
    ensures CanDrop(kind, Stripped(ops, id))
    decreases |ops|
  {
    hide CanDrop, AddBits;
    NothingCanBeDropped(kind);
    if ops != [] {
      var n := |ops| - 1;
      assert ops[n] in ops;
      FewBits(ops[..n], id, kind, mode, mask);
      if ops[n].id == id && ops[n].Chown? { BothCanBeDropped(kind, Stripped(ops[..n], id), ops[n].dropped); }
    }
  }

  lemma NothingCanBeDropped(kind: Kind)
    ensures CanDrop(kind, 0)
  {}

  lemma BothCanBeDropped(kind: Kind, a: bv32, b: bv32)
    requires CanDrop(kind, a) && CanDrop(kind, b)
    ensures CanDrop(kind, AddBits(a, b))
  {}

  // Any calls.

  /** A walk that is cut off anywhere. */
  lemma OneCall(setting: Setting, root: nat, files: map<nat, Kind>, attrs: map<nat, Attr>, call: Call, id: nat)
    requires Admissible(call, root, files) && attrs.Keys == files.Keys && id in files
    ensures var ops := Executed(setting, attrs, call);
            && Lacks(attrs[id].mode, ExecAll(attrs, setting, ops)[id].mode, Stripped(ops, id), Mask(setting, files[id]))
            && CanDrop(files[id], Stripped(ops, id))
  {
    hide OpsForAll, Mask, Lacks, CanDrop, Possible, AddBits;
    OpsAdd(files, PostOrder(call.listing), call.fates, attrs, setting, id);
    var ops := Executed(setting, attrs, call);
    assert AddsTo(ops, id, files[id], attrs[id].mode, Mask(setting, files[id]));
    OneWalk(setting, attrs, ops, id, files[id], Mask(setting, files[id]));
    FewBits(ops, id, files[id], attrs[id].mode, Mask(setting, files[id]));
  }

  lemma BitsLost(first: bv32, before: bv32, after: bv32, gone: bv32, more: bv32, mask: bv32)
    requires Misses(first, before, gone) && Misses(before, after, more)
    requires Within(after, before | mask) && gone & mask == 0
    ensures Misses(first, after, gone | more)
  {}

  lemma BitsGained(first: bv32, before: bv32, after: bv32, mask: bv32)
    requires Within(before, first | mask) && Within(after, before | mask)
    ensures Within(after, first | mask)
  {}

  lemma LacksBoth(first: bv32, before: bv32, after: bv32, gone: bv32, more: bv32, mask: bv32)
    requires Lacks(first, before, gone, mask) && Lacks(before, after, more, mask) && gone & mask == 0
    ensures Lacks(first, after, gone | more, mask)
  {
    hide Misses, Within;
    BitsLost(first, before, after, gone, more, mask);
    BitsGained(first, before, after, mask);
  }

  lemma LacksMore(first: bv32, before: bv32, after: bv32, gone: bv32, more: bv32, mask: bv32)
    requires Lacks(first, before, gone, mask) && Lacks(before, after, more, mask) && gone & mask == 0
    ensures Lacks(first, after, AddBits(gone, more), mask)
  {
    hide Lacks;
    LacksBoth(first, before, after, gone, more, mask);
  }

  lemma DroppedIsInNoMask(setting: Setting, kind: Kind, dropped: bv32)
    requires CanDrop(kind, dropped)
    ensures dropped & Mask(setting, kind) == 0
  {
    if kind.Regular? {
      SpecialBits(dropped, RW_MASK);
      SpecialBits(dropped, RO_MASK);
      assert RW_MASK | 0 == RW_MASK && RO_MASK | 0 == RO_MASK;
    } else {
      NoBits(Mask(setting, kind));
    }
  }

  lemma SpecialBits(dropped: bv32, mask: bv32)
    requires dropped & (MODE_SETUID | MODE_SETGID) == dropped && mask & (MODE_SETUID | MODE_SETGID) == 0
    ensures dropped & mask == 0
  {}

  lemma NoBits(mask: bv32)
    ensures 0 & mask == 0
  {}

  /** The set-user and set-group bits of a regular file are in no mask, so what is lost stays lost. */
  lemma NextCall(setting: Setting, root: nat, files: map<nat, Kind>, v: Volume, call: Call, id: nat, first: bv32, gone: bv32)
    requires Admissible(call, root, files) && v.attrs.Keys == files.Keys && id in files
    requires Lacks(first, v.attrs[id].mode, gone, Mask(setting, files[id])) && CanDrop(files[id], gone)
    ensures var w := Perform(setting, root, files, v, call);
            var now := if Skips(setting, root, files, v.attrs, call) then gone
                       else AddBits(gone, Stripped(Executed(setting, v.attrs, call), id));
            Lacks(first, w.attrs[id].mode, now, Mask(setting, files[id])) && CanDrop(files[id], now)
  {
    hide Lacks, CanDrop, Mask, Executed, Skips, PostOrder, AddBits, Possible;
    var w := Perform(setting, root, files, v, call);
    if !Skips(setting, root, files, v.attrs, call) {
      var more := Stripped(Executed(setting, v.attrs, call), id);
      OneCall(setting, root, files, v.attrs, call, id);
      DroppedIsInNoMask(setting, files[id], gone);
      LacksMore(first, v.attrs[id].mode, w.attrs[id].mode, gone, more, Mask(setting, files[id]));
      BothCanBeDropped(files[id], gone, more);
    }
  }

  /** Whatever calls are made, cut off and failing anywhere: of the mode that it had at first, a file lacks exactly the
      bits that were stripped from it. */
  lemma {:induction false} LostBits(setting: Setting, root: nat, files: map<nat, Kind>, attrs: map<nat, Attr>,
                                    calls: seq<Call>, id: nat)
    requires AdmissibleAll(root, files, calls) && attrs.Keys == files.Keys && root in files && id in files
    ensures var gone := StrippedByAll(setting, root, files, attrs, calls, id);
            && Lacks(attrs[id].mode, After(setting, root, files, attrs, calls).attrs[id].mode, gone, Mask(setting, files[id]))
            && CanDrop(files[id], gone)
    decreases |calls|
  {
    hide Lacks, CanDrop, Mask, Admissible, Perform, AddBits;
    if calls == [] {
      LacksNothing(attrs[id].mode, Mask(setting, files[id]));
      NothingCanBeDropped(files[id]);
    } else {
      var n := |calls| - 1;
      assert calls[n] in calls;
      LostBits(setting, root, files, attrs, calls[..n], id);
      NextCall(setting, root, files, After(setting, root, files, attrs, calls[..n]), calls[n], id, attrs[id].mode,
               StrippedByAll(setting, root, files, attrs, calls[..n], id));
    }
  }

  // When a bit is lost.

  function Meet(a: bv32, b: bv32): bv32 {
    a & b
  }

  /** An lchown of the file that takes some of the bits, with no successful chmod of the file after it. */
  predicate TakesForGood(ops: seq<Op>, i: nat, id: nat, bits: bv32) {
    && i < |ops| && ops[i].Chown? && ops[i].ok && ops[i].id == id && Meet(ops[i].dropped, bits) != 0
    && forall j | i < j < |ops| :: !(ops[j].Chmod? && ops[j].ok && ops[j].id == id)
  }

  ghost predicate Takes(ops: seq<Op>, id: nat, bits: bv32) {
    exists i: nat :: TakesForGood(ops, i, id, bits)
  }

  lemma EitherMeets(a: bv32, b: bv32, bits: bv32)
    ensures Meet(AddBits(a, b), bits) != 0 <==> Meet(a, bits) != 0 || Meet(b, bits) != 0
    ensures Meet(0, bits) == 0
  {
    MeetOfUnion(a, b, bits);
    EmptyUnion(Meet(a, bits), Meet(b, bits));
    EmptyMeet(bits);
    hide Meet, AddBits;
  }

  lemma MeetOfUnion(a: bv32, b: bv32, bits: bv32)
    ensures Meet(AddBits(a, b), bits) == AddBits(Meet(a, bits), Meet(b, bits))
  {}

  lemma EmptyUnion(a: bv32, b: bv32)
    ensures AddBits(a, b) == 0 <==> a == 0 && b == 0
  {}

  lemma EmptyMeet(bits: bv32)
    ensures Meet(0, bits) == 0
  {}

  lemma {:induction false} StrippedMeansTaken(ops: seq<Op>, id: nat, bits: bv32)
    ensures Meet(Stripped(ops, id), bits) != 0 <==> Takes(ops, id, bits)
    decreases |ops|
  {
    hide Meet, AddBits;
    if ops == [] {
      EitherMeets(0, 0, bits);
    } else {
      var n := |ops| - 1;
      var before, last := ops[..n], ops[n];
      StrippedMeansTaken(before, id, bits);
      EitherMeets(Stripped(before, id), if last.Chown? then last.dropped else 0, bits);
      TakenBefore(before, last, id, bits);
      assert ops == before + [last];
    }
  }

  lemma TakenBefore(before: seq<Op>, last: Op, id: nat, bits: bv32)
    ensures Takes(before + [last], id, bits) <==>
            || (last.Chown? && last.ok && last.id == id && Meet(last.dropped, bits) != 0)
            || (!(last.Chmod? && last.ok && last.id == id) && Takes(before, id, bits))
  {
    hide Meet;
    var ops := before + [last];
    if Takes(ops, id, bits) {
      var i: nat :| TakesForGood(ops, i, id, bits);
      if i < |before| {
        assert TakesForGood(before, i, id, bits) by {
          forall j | i < j < |before| ensures !(before[j].Chmod? && before[j].ok && before[j].id == id) {
            assert ops[j] == before[j];
          }
        }
        assert ops[|before|] == last;
      }
    }
    if last.Chown? && last.ok && last.id == id && Meet(last.dropped, bits) != 0 {
      assert TakesForGood(ops, |before|, id, bits);
    } else if !(last.Chmod? && last.ok && last.id == id) && Takes(before, id, bits) {
      var i: nat :| TakesForGood(before, i, id, bits);
      assert TakesForGood(ops, i, id, bits);
    }
  }

  /** The `n`-th call takes some of the bits from the file and does not give them back. */
  ghost predicate TakenInCall(setting: Setting, root: nat, files: map<nat, Kind>, attrs: map<nat, Attr>,
                              calls: seq<Call>, n: nat, id: nat, bits: bv32)
    requires AdmissibleAll(root, files, calls) && attrs.Keys == files.Keys && root in files
  {
    n < |calls| && (
      var v := After(setting, root, files, attrs, calls[..n]);
      assert calls[n] in calls;
      !Skips(setting, root, files, v.attrs, calls[n]) && Takes(Executed(setting, v.attrs, calls[n]), id, bits))
  }

  lemma {:induction false} StrippedByAllMeansTaken(setting: Setting, root: nat, files: map<nat, Kind>, attrs: map<nat, Attr>,
                                                   calls: seq<Call>, id: nat, bits: bv32)
    requires AdmissibleAll(root, files, calls) && attrs.Keys == files.Keys && root in files
    ensures Meet(StrippedByAll(setting, root, files, attrs, calls, id), bits) != 0 <==>
            exists n: nat :: TakenInCall(setting, root, files, attrs, calls, n, id, bits)
    decreases |calls|
  {
    hide Meet, AddBits, Admissible, Skips, Takes, Stripped, After, Executed;
    EitherMeets(0, 0, bits);
    if calls != [] {
      var n := |calls| - 1;
      assert calls[n] in calls;
      var before := calls[..n];
      StrippedByAllMeansTaken(setting, root, files, attrs, before, id, bits);
      assert forall m: nat | m < n :: before[..m] == calls[..m] && before[m] == calls[m];
      assert forall m: nat | m < n :: TakenInCall(setting, root, files, attrs, calls, m, id, bits)
                                      == TakenInCall(setting, root, files, attrs, before, m, id, bits);
      LastCall(setting, root, files, attrs, calls, id, bits);
      forall m: nat | TakenInCall(setting, root, files, attrs, calls, m, id, bits) ensures m < n || m == n {}
    }
  }

  lemma LastCall(setting: Setting, root: nat, files: map<nat, Kind>, attrs: map<nat, Attr>, calls: seq<Call>, id: nat,
                 bits: bv32)
    requires AdmissibleAll(root, files, calls) && attrs.Keys == files.Keys && root in files && calls != []
    ensures var n := |calls| - 1;
            Meet(StrippedByAll(setting, root, files, attrs, calls, id), bits) != 0 <==>
            || Meet(StrippedByAll(setting, root, files, attrs, calls[..n], id), bits) != 0
            || TakenInCall(setting, root, files, attrs, calls, n, id, bits)
  {
    var n := |calls| - 1;
    assert calls[n] in calls;
    hide Meet, AddBits, Skips, Takes, Stripped, Executed, After;
    var v := After(setting, root, files, attrs, calls[..n]);
    if !Skips(setting, root, files, v.attrs, calls[n]) {
      var ops := Executed(setting, v.attrs, calls[n]);
      StrippedMeansTaken(ops, id, bits);
      EitherMeets(StrippedByAll(setting, root, files, attrs, calls[..n], id), Stripped(ops, id), bits);
    }
  }

  /** What was there at first and is no longer. */
  function Lost(first: bv32, mode: bv32): bv32 {
    first & !mode
  }

  lemma BitsMeet(first: bv32, gone: bv32, bits: bv32)
    ensures (first & gone) & bits == gone & (first & bits)
  {}

  lemma LackedBits(first: bv32, mode: bv32, gone: bv32, mask: bv32, bits: bv32)
    requires Lacks(first, mode, gone, mask)
    ensures (first & !mode) & bits == gone & (first & bits)
  {
    BitsMeet(first, gone, bits);
  }

  lemma LostBitsMeet(first: bv32, mode: bv32, gone: bv32, mask: bv32, bits: bv32)
    requires Lacks(first, mode, gone, mask)
    ensures Meet(Lost(first, mode), bits) == Meet(gone, Meet(first, bits))
  {
    hide Lacks;
    LackedBits(first, mode, gone, mask, bits);
  }

  /** Some of these bits, which the file had at first, are missing after the calls if and only if in one of the calls an
      lchown took them and no chmod of the file succeeded after it; and only set-user and set-group bits of a regular
      file can be taken. */
  lemma BitsAreLostExactly(setting: Setting, root: nat, files: map<nat, Kind>, attrs: map<nat, Attr>, calls: seq<Call>,
                           id: nat, bits: bv32)
    requires AdmissibleAll(root, files, calls) && attrs.Keys == files.Keys && root in files && id in files
    ensures var first, mode := attrs[id].mode, After(setting, root, files, attrs, calls).attrs[id].mode;
            && (Meet(Lost(first, mode), bits) != 0 <==>
                exists n: nat :: TakenInCall(setting, root, files, attrs, calls, n, id, Meet(first, bits)))
            && CanDrop(files[id], Lost(first, mode))
  {
    hide Lacks, Lost, Meet, AddBits, Mask, CanDrop, TakenInCall, Admissible;
    var first, mode := attrs[id].mode, After(setting, root, files, attrs, calls).attrs[id].mode;
    var gone := StrippedByAll(setting, root, files, attrs, calls, id);
    LostBits(setting, root, files, attrs, calls, id);
    LostBitsMeet(first, mode, gone, Mask(setting, files[id]), bits);
    StrippedByAllMeansTaken(setting, root, files, attrs, calls, id, Meet(first, bits));
    FewAreLacked(files[id], first, mode, gone, Mask(setting, files[id]));
  }

  lemma FewAreLacked(kind: Kind, first: bv32, mode: bv32, gone: bv32, mask: bv32)
    requires Lacks(first, mode, gone, mask) && CanDrop(kind, gone)
    ensures CanDrop(kind, Lost(first, mode))
  {
    hide CanDrop;
    PartCanBeDropped(kind, first, gone);
  }

  lemma PartCanBeDropped(kind: Kind, first: bv32, gone: bv32)
    requires CanDrop(kind, gone)
    ensures CanDrop(kind, first & gone)
  {}
}
