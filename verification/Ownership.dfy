/** What the recursive ownership change of pkg/thirdparty/k8s.io/kubernetes/pkg/volume/volume_linux.go means:
    system calls, the order of the walk, and runs of calls that may be cut off anywhere. */
module Ownership {

  datatype Kind = Directory | Regular | Symlink

  /** A file tree. The children are in the order in which the directory happens to list them. */
  datatype Tree = Entry(id: nat, kind: Kind, children: seq<Tree>)

  /** Group and mode of a file. The bits are those of Go's os.FileMode that chmod can set. */
  datatype Attr = Attr(gid: int, mode: bv32)

  const PERM_MASK: bv32 := 0x1FF      // 0777
  const RW_MASK: bv32 := 0x1B0        // 0660
  const RO_MASK: bv32 := 0x120        // 0440
  const EXEC_MASK: bv32 := 0x48       // 0110
  const MODE_SETGID: bv32 := 0x400000
  const MODE_SETUID: bv32 := 0x800000

  /** What one caller asks for: a group, and whether the volume is read-only. */
  datatype Setting = Setting(gid: int, readOnly: bool)

  function Mask(setting: Setting, kind: Kind): bv32 {
    (if setting.readOnly then RO_MASK else RW_MASK) | (if kind.Directory? then MODE_SETGID | EXEC_MASK else 0)
  }

  /** The file has the group, and a file that is not a link has all required mode bits. */
  predicate Owned(setting: Setting, kind: Kind, attr: Attr) {
    && attr.gid == setting.gid
    && (kind.Symlink? || attr.mode & Mask(setting, kind) == Mask(setting, kind))
  }

  // System calls.

  /** A call of lchown or chmod together with its outcome. The kernel may take set-user and set-group bits
      from a regular file whose group changes. */
  datatype Op =
    | Chown(id: nat, ok: bool, dropped: bv32)
    | Chmod(id: nat, ok: bool, mode: bv32)

  function Chowned(attr: Attr, gid: int, dropped: bv32): Attr {
    Attr(gid, attr.mode & !dropped)
  }

  function AddBits(mode: bv32, mask: bv32): bv32 {
    mode | mask
  }

  function Exec(attrs: map<nat, Attr>, setting: Setting, op: Op): map<nat, Attr> {
    if !op.ok || op.id !in attrs then attrs
    else
      var attr := attrs[op.id];
      match op
      case Chown(id, _, dropped) => attrs[id := Chowned(attr, setting.gid, dropped)]
      case Chmod(id, _, mode) => attrs[id := attr.(mode := mode)]
  }

  function ExecAll(attrs: map<nat, Attr>, setting: Setting, ops: seq<Op>): (r: map<nat, Attr>)
    ensures r.Keys == attrs.Keys
  {
    if ops == [] then attrs
    else Exec(ExecAll(attrs, setting, ops[..|ops| - 1]), setting, ops[|ops| - 1])
  }

  /** How the calls for one file turn out. */
  datatype Fate = Fate(chownOk: bool, chmodOk: bool, dropped: bv32)

  predicate CanDrop(kind: Kind, dropped: bv32) {
    dropped & (MODE_SETUID | MODE_SETGID) == dropped && (kind != Regular ==> dropped == 0)
  }

  predicate Possible(kind: Kind, fate: Fate) {
    CanDrop(kind, fate.dropped)
  }

  /** The calls for one file: its group first, then, unless it is a link, the mode it had plus the mask. */
  function OpsFor(entry: Tree, fate: Fate, attrs: map<nat, Attr>, setting: Setting): seq<Op>
    requires entry.id in attrs
  {
    var chown := Chown(entry.id, fate.chownOk, fate.dropped);
    if entry.kind.Symlink? then [chown]
    else [chown, Chmod(entry.id, fate.chmodOk, AddBits(attrs[entry.id].mode, Mask(setting, entry.kind)))]
  }

  /** The calls for a list of files, whose modes were read while they were as in `attrs`. */
  function OpsForAll(entries: seq<Tree>, fates: seq<Fate>, attrs: map<nat, Attr>, setting: Setting): seq<Op>
    requires |fates| == |entries|
    requires forall e <- entries :: e.id in attrs
  {
    if entries == [] then []
    else
      var n := |entries| - 1;
      OpsForAll(entries[..n], fates[..n], attrs, setting) + OpsFor(entries[n], fates[n], attrs, setting)
  }

  // The order of the walk.

  function PostOrder(t: Tree): (r: seq<Tree>)
    ensures |r| > 0 && r[|r| - 1] == t
    decreases t, 1
  {
    PostOrderAll(t.children) + [t]
  }

  function PostOrderAll(ts: seq<Tree>): seq<Tree>
    decreases ts, 0
  {
    if ts == [] then [] else PostOrder(ts[0]) + PostOrderAll(ts[1..])
  }

  /** Files are pairwise different, their attributes are known, and only directories have children. */
  ghost predicate Listed(order: seq<Tree>, attrs: map<nat, Attr>) {
    && (forall e <- order :: e.id in attrs && (!e.kind.Directory? ==> e.children == []))
    && (forall i, j | 0 <= i < j < |order| :: order[i].id != order[j].id)
  }

  ghost predicate WellFormed(t: Tree, attrs: map<nat, Attr>) {
    Listed(PostOrder(t), attrs)
  }
}
