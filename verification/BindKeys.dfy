/** pkg/targetpathbind/state/statemanager.go: the key of a target path bind is the volume ID, a dash and the
    pod's UID, and the name of its state file is that key and an extension. */
module BindKeys {

  datatype TargetPathBind = TargetPathBind(volumeID: string, podUID: string, targetPath: string) {
    predicate IsValid() {
      |volumeID| != 0 && |podUID| != 0 && |targetPath| != 0
    }

    function GetID(): string {
      BindID(volumeID, podUID)
    }
  }

  function BindID(volumeID: string, podUID: string): string {
    volumeID + "-" + podUID
  }

  const EXTENSION := ".json"

  function StateFile(id: string): string {
    id + EXTENSION
  }

  /** What path.Ext looks for: the extension holds no dot after the first and no slash. */
  predicate IsStateFile(name: string) {
    |name| >= |EXTENSION| && name[|name| - |EXTENSION|..] == EXTENSION
  }

  lemma {:induction false} SuffixesAgree(a: string, b: string, x: string, y: string)
    requires a + x == b + y && |x| == |y|
    ensures a == b && x == y
  {
    assert a == (a + x)[..|a|] && b == (b + y)[..|b|];
    assert x == (a + x)[|a|..] && y == (b + y)[|b|..];
  }

  /** Pod UIDs have one length, so the key tells volumes and pods apart. */
  lemma KeysAreDistinct(v: string, u: string, w: string, x: string)
    requires |u| == |x|
    ensures BindID(v, u) == BindID(w, x) <==> v == w && u == x
  {
    if BindID(v, u) == BindID(w, x) {
      SuffixesAgree(v + "-", w + "-", u, x);
      SuffixesAgree(v, w, "-", "-");
    }
  }

  /** The dash of one key lies inside the volume ID of the other. */
  predicate Straddles(v: string, u: string, w: string, x: string) {
    |w| > |v| && w[..|v|] == v && w[|v|] == '-' && u == w[|v| + 1..] + "-" + x
  }

  lemma LongerCollides(v: string, u: string, w: string, x: string)
    requires |v| < |w|
    ensures BindID(v, u) == BindID(w, x) <==> Straddles(v, u, w, x)
  {
    var i, j := BindID(v, u), BindID(w, x);
    assert i[..|v|] == v && i[|v|] == '-' && i[|v| + 1..] == u;
    assert j[..|v|] == w[..|v|] && j[|v|] == w[|v|] && j[|v| + 1..] == w[|v| + 1..] + "-" + x;
    if Straddles(v, u, w, x) {
      assert i == i[..|v|] + [i[|v|]] + i[|v| + 1..];
      assert j == j[..|v|] + [j[|v|]] + j[|v| + 1..];
    }
  }

  /** Exactly when two binds share a key, whatever their names look like. */
  lemma Collisions(v: string, u: string, w: string, x: string)
    ensures BindID(v, u) == BindID(w, x) <==> (v == w && u == x) || Straddles(v, u, w, x) || Straddles(w, x, v, u)
  {
    if |v| < |w| {
      LongerCollides(v, u, w, x);
    } else if |w| < |v| {
      LongerCollides(w, x, v, u);
    } else if BindID(v, u) == BindID(w, x) {
      assert |u| == |x|;
      KeysAreDistinct(v, u, w, x);
    }
  }

  /** Two pods and volumes that one file would serve. */
  lemma SomeKeysCollide()
    ensures BindID("pv-1", "7") == BindID("pv", "1-7")
  {
  }

  /** Binds share a file exactly when they share a map entry, and the constructor will find the file. */
  lemma FilesFollowKeys(a: TargetPathBind, b: TargetPathBind)
    ensures StateFile(a.GetID()) == StateFile(b.GetID()) <==> a.GetID() == b.GetID()
    ensures StateFile(a.GetID()) == a.volumeID + "-" + a.podUID + ".json" && IsStateFile(StateFile(a.GetID()))
  {
    NamesAreDistinct(a.GetID(), b.GetID());
  }

  lemma NamesAreDistinct(a: string, b: string)
    ensures StateFile(a) == StateFile(b) <==> a == b
    ensures IsStateFile(StateFile(a))
  {
    if StateFile(a) == StateFile(b) {
      SuffixesAgree(a, b, EXTENSION, EXTENSION);
    }
  }
}
