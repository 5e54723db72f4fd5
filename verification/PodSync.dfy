/** pkg/volumemanager/controller/pod/sync.go: one sync of a pod goes over its volumes, and every patch it sends
    carries the version of the pod that it read at the start. */
module PodSync {
  import opened Kubernetes

  datatype PodVolume = PodVolume(name: string, claim: Option<string>)

  datatype Pod = Pod(
    version: nat,
    nodeName: string,
    deleting: bool,
    annotations: map<Key, string>,
    volumes: seq<PodVolume>)

  datatype Claim = Claim(annotations: map<Key, string>, volumeName: string)

  /** What the listers know: claims, and the names of persistent volumes. */
  datatype Caches = Caches(claims: map<string, Claim>, volumes: set<string>)

  const TRUE := "true"

  predicate IsMarked(pod: Pod, name: string) {
    VolumeMounted(name) in pod.annotations && pod.annotations[VolumeMounted(name)] == TRUE
  }

  // Which volumes are synced.

  /** The claim is provisioned by this driver and bound to a persistent volume. */
  predicate IsProxy(pvc: Claim) {
    && StorageProvisioner in pvc.annotations && pvc.annotations[StorageProvisioner] == DRIVER_NAME
    && pvc.volumeName != ""
  }

  /** Its binding is complete, to a claim in the cache that is bound to a persistent volume. */
  predicate HasBackend(caches: Caches, pvc: Claim) {
    && BindCompleted in pvc.annotations && BackendRef in pvc.annotations && pvc.annotations[BackendRef] != ""
    && pvc.annotations[BackendRef] in caches.claims && caches.claims[pvc.annotations[BackendRef]].volumeName != ""
  }

  /** The volume goes to syncVolume: both persistent volumes are known. */
  predicate Mountable(caches: Caches, v: PodVolume) {
    v.claim.Some? && v.claim.value in caches.claims && (
      var pvc := caches.claims[v.claim.value];
      && IsProxy(pvc) && pvc.volumeName in caches.volumes && HasBackend(caches, pvc)
      && caches.claims[pvc.annotations[BackendRef]].volumeName in caches.volumes)
  }

  /** The proxy's persistent volume is not known, or the backend's. */
  predicate LacksVolume(caches: Caches, v: PodVolume) {
    v.claim.Some? && v.claim.value in caches.claims && (
      var pvc := caches.claims[v.claim.value];
      IsProxy(pvc) && (
        || pvc.volumeName !in caches.volumes
        || (HasBackend(caches, pvc) && caches.claims[pvc.annotations[BackendRef]].volumeName !in caches.volumes)))
  }

  // The API server and the pod.

  /** A merge patch with a version and annotations; one that changes nothing keeps the version. */
  function Patched(stored: Pod, version: nat, annotations: map<Key, string>): Option<Pod> {
    if stored.version != version then None
    else if stored.annotations + annotations == stored.annotations then Some(stored)
    else Some(stored.(version := stored.version + 1, annotations := stored.annotations + annotations))
  }

  class PodApi {
    var pod: Pod

    constructor (pod: Pod)
      ensures this.pod == pod
    {
      this.pod := pod;
    }

    method Patch(version: nat, annotations: map<Key, string>) returns (ok: bool)
      modifies this
      ensures ok == Patched(old(pod), version, annotations).Some?
      ensures pod == if ok then Patched(old(pod), version, annotations).value else old(pod)
    {
      var patched := Patched(pod, version, annotations);
      ok := patched.Some?;
      if ok {
        pod := patched.value;
      }
    }
  }

  /** How far the sync of one volume gets: to the end without an error, to an error, or to its patch. */
  datatype Reach = Stops | Errs | Patches

  // The specification of a sync: the stored pod and the number of errors after some of the volumes.

  datatype Progress = Progress(pod: Pod, errors: nat)

  function MarkOf(snapshot: Pod, name: string): map<Key, string> {
    snapshot.annotations[VolumeMounted(name) := TRUE]
  }

  function VolumeStep(p: Progress, snapshot: Pod, caches: Caches, reach: map<string, Reach>, v: PodVolume): Progress {
    if LacksVolume(caches, v) then p.(errors := p.errors + 1)
    else if !Mountable(caches, v) then p
    else if v.name !in reach || reach[v.name] == Errs then p.(errors := p.errors + 1)
    else if reach[v.name] == Stops then p
    else
      var patched := Patched(p.pod, snapshot.version, MarkOf(snapshot, v.name));
      if patched.Some? then p.(pod := patched.value) else p.(errors := p.errors + 1)
  }

  function SyncAll(stored: Pod, snapshot: Pod, caches: Caches, reach: map<string, Reach>, volumes: seq<PodVolume>): Progress {
    if volumes == [] then Progress(stored, 0)
    else
      var n := |volumes| - 1;
      VolumeStep(SyncAll(stored, snapshot, caches, reach, volumes[..n]), snapshot, caches, reach, volumes[n])
  }

  /** syncVolume, reduced to how far it gets with each volume and to its patch. */
  class VolumeSyncs {
    const api: PodApi
    const reach: map<string, Reach>
    ghost var calls: seq<PodVolume>

    constructor (api: PodApi, reach: map<string, Reach>)
      ensures this.api == api && this.reach == reach && calls == []
    {
      this.api, this.reach, calls := api, reach, [];
    }

    method SyncVolume(pod: Pod, v: PodVolume) returns (ok: bool)
      modifies this`calls, api
      ensures calls == old(calls) + [v]
      ensures var reached := if v.name in reach then reach[v.name] else Errs;
              match reached
              case Errs => !ok && api.pod == old(api.pod)
              case Stops => ok && api.pod == old(api.pod)
              case Patches =>
                var patched := Patched(old(api.pod), pod.version, MarkOf(pod, v.name));
                ok == patched.Some? && api.pod == if ok then patched.value else old(api.pod)
    {
      calls := calls + [v];
      if v.name !in reach || reach[v.name] == Errs {
        return false;
      }
      if reach[v.name] == Stops {
        return true;
      }
      ok := api.Patch(pod.version, MarkOf(pod, v.name));
    }
  }

  /** The volumes that go to syncVolume, in order. */
  function Synced(caches: Caches, volumes: seq<PodVolume>): seq<PodVolume> {
    if volumes == [] then []
    else
      var n := |volumes| - 1;
      Synced(caches, volumes[..n]) + (if Mountable(caches, volumes[n]) then [volumes[n]] else [])
  }

  lemma {:induction false} SyncedExactly(caches: Caches, volumes: seq<PodVolume>)
    ensures forall v :: v in Synced(caches, volumes) <==> v in volumes && Mountable(caches, v)
  {
    if volumes != [] {
      var n := |volumes| - 1;
      SyncedExactly(caches, volumes[..n]);
      assert volumes == volumes[..n] + [volumes[n]];
    }
  }

  class Controller {
    const nodeName: string
    const syncs: VolumeSyncs

    constructor (nodeName: string, syncs: VolumeSyncs)
      ensures this.nodeName == nodeName && this.syncs == syncs
    {
      this.nodeName, this.syncs := nodeName, syncs;
    }

    /** `found` is the pod in the cache; without it the sync fails. */
    method Sync(found: Option<Pod>, caches: Caches) returns (errors: nat)
      modifies syncs`calls, syncs.api
      ensures found.None? ==> errors == 1
      ensures found.Some? && (found.value.nodeName != nodeName || found.value.deleting) ==> errors == 0
      ensures found.None? || found.value.nodeName != nodeName || found.value.deleting ==>
                syncs.api.pod == old(syncs.api.pod) && syncs.calls == old(syncs.calls)
      ensures found.Some? && found.value.nodeName == nodeName && !found.value.deleting ==>
                var pod := found.value;
                && Progress(syncs.api.pod, errors) == SyncAll(old(syncs.api.pod), pod, caches, syncs.reach, pod.volumes)
                && syncs.calls == old(syncs.calls) + Synced(caches, pod.volumes)
      // What goes to syncVolume, from the claims alone.
      ensures found.Some? && found.value.nodeName == nodeName && !found.value.deleting ==>
                && old(syncs.calls) <= syncs.calls
                && forall v: PodVolume :: v in syncs.calls[|old(syncs.calls)|..] <==>
                     && v in found.value.volumes && v.claim.Some? && v.claim.value in caches.claims
                     && var pvc := caches.claims[v.claim.value];
                        && StorageProvisioner in pvc.annotations
                        && pvc.annotations[StorageProvisioner] == "proxy.csi.scylladb.com"
                        && BindCompleted in pvc.annotations
                        && pvc.volumeName != "" && pvc.volumeName in caches.volumes
                        && BackendRef in pvc.annotations && pvc.annotations[BackendRef] != ""
                        && pvc.annotations[BackendRef] in caches.claims
                        && var backend := caches.claims[pvc.annotations[BackendRef]];
                           backend.volumeName != "" && backend.volumeName in caches.volumes
    {
      errors := 0;
      if found.None? {
        return 1;
      }
      var pod := found.value;
      if pod.nodeName != nodeName {
        return;
      }
      if pod.deleting {
        return;
      }
      for i := 0 to |pod.volumes|
        invariant Progress(syncs.api.pod, errors)
               == SyncAll(old(syncs.api.pod), pod, caches, syncs.reach, pod.volumes[..i])
        invariant syncs.calls == old(syncs.calls) + Synced(caches, pod.volumes[..i])
      {
        assert pod.volumes[..i + 1][..i] == pod.volumes[..i];
        var v := pod.volumes[i];
        if v.claim.None? || v.claim.value !in caches.claims {
          continue;
        }
        var pvc := caches.claims[v.claim.value];
        if !(StorageProvisioner in pvc.annotations && pvc.annotations[StorageProvisioner] == DRIVER_NAME) {
          continue;
        }
        if |pvc.volumeName| == 0 {
          continue;
        }
        if pvc.volumeName !in caches.volumes {
          errors := errors + 1;
          continue;
        }
        if BindCompleted !in pvc.annotations {
          continue;
        }
        if BackendRef !in pvc.annotations || |pvc.annotations[BackendRef]| == 0 {
          continue;
        }
        var backendName := pvc.annotations[BackendRef];
        if backendName !in caches.claims {
          continue;
        }
        var backend := caches.claims[backendName];
        if |backend.volumeName| == 0 {
          continue;
        }
        if backend.volumeName !in caches.volumes {
          errors := errors + 1;
          continue;
        }
        var ok := syncs.SyncVolume(pod, v);
        if !ok {
          errors := errors + 1;
        }
      }
      assert pod.volumes[..|pod.volumes|] == pod.volumes;
      SyncedExactly(caches, pod.volumes);
    }
  }

  /** What one volume does to the stored pod and to the number of errors, from its claim alone. */
  lemma OneVolume(p: Progress, snapshot: Pod, caches: Caches, reach: map<string, Reach>, v: PodVolume)
    ensures var q := VolumeStep(p, snapshot, caches, reach, v);
            && (v.claim.None? || v.claim.value !in caches.claims ==> q == p)
            && (v.claim.Some? && v.claim.value in caches.claims ==>
                  var pvc := caches.claims[v.claim.value];
                  var ours := StorageProvisioner in pvc.annotations
                              && pvc.annotations[StorageProvisioner] == "proxy.csi.scylladb.com" && pvc.volumeName != "";
                  var asks := BindCompleted in pvc.annotations && BackendRef in pvc.annotations
                              && pvc.annotations[BackendRef] != "" && pvc.annotations[BackendRef] in caches.claims
                              && caches.claims[pvc.annotations[BackendRef]].volumeName != "";
                  && (!ours ==> q == p)
                  && (ours && pvc.volumeName !in caches.volumes ==> q == Progress(p.pod, p.errors + 1))
                  && (ours && pvc.volumeName in caches.volumes && !asks ==> q == p)
                  && (ours && pvc.volumeName in caches.volumes && asks
                      && caches.claims[pvc.annotations[BackendRef]].volumeName !in caches.volumes ==>
                        q == Progress(p.pod, p.errors + 1))
                  && (ours && pvc.volumeName in caches.volumes && asks
                      && caches.claims[pvc.annotations[BackendRef]].volumeName in caches.volumes ==>
                        match (if v.name in reach then reach[v.name] else Errs)
                        case Errs => q == Progress(p.pod, p.errors + 1)
                        case Stops => q == p
                        case Patches =>
                          if p.pod.version == snapshot.version
                          then q.errors == p.errors
                               && q.pod.annotations ==
                                  p.pod.annotations + snapshot.annotations[VolumeMounted(v.name) := "true"]
                          else q == Progress(p.pod, p.errors + 1)))
  {
  }

  // How many syncs it takes.

  /** The sync of the volume gets as far as its patch. */
  predicate Patchable(caches: Caches, reach: map<string, Reach>, v: PodVolume) {
    Mountable(caches, v) && v.name in reach && reach[v.name] == Patches
  }

  /** The sync of the volume fails before its patch, whatever the pod is like. */
  predicate Broken(caches: Caches, reach: map<string, Reach>, v: PodVolume) {
    LacksVolume(caches, v) || (Mountable(caches, v) && (v.name !in reach || reach[v.name] == Errs))
  }

  /** The volumes that a sync would mark: not those of other kinds, and none that stops early. */
  function Active(caches: Caches, reach: map<string, Reach>, volumes: seq<PodVolume>): (r: seq<PodVolume>)
    ensures forall v :: v in r <==> v in volumes && Patchable(caches, reach, v)
  {
    if volumes == [] then []
    else
      var n := |volumes| - 1;
      Active(caches, reach, volumes[..n]) + (if Patchable(caches, reach, volumes[n]) then [volumes[n]] else [])
  }

  function BrokenCount(caches: Caches, reach: map<string, Reach>, volumes: seq<PodVolume>): (n: nat)
    ensures n == 0 <==> forall v <- volumes :: !Broken(caches, reach, v)
  {
    if volumes == [] then 0
    else
      var n := |volumes| - 1;
      BrokenCount(caches, reach, volumes[..n]) + (if Broken(caches, reach, volumes[n]) then 1 else 0)
  }

  /** Earlier errors do not matter to a step, and a volume that is not patched leaves the pod alone. */
  lemma StepOfAnyVolume(all: Progress, active: Progress, count: nat, snapshot: Pod, caches: Caches,
                        reach: map<string, Reach>, v: PodVolume)
    requires all == Progress(active.pod, active.errors + count)
    ensures var r := VolumeStep(all, snapshot, caches, reach, v);
            if Patchable(caches, reach, v) then
              var q := VolumeStep(active, snapshot, caches, reach, v);
              r == Progress(q.pod, q.errors + count) && !Broken(caches, reach, v)
            else
              r == Progress(active.pod, active.errors + count + if Broken(caches, reach, v) then 1 else 0)
  {}

  /** The other volumes of the pod do not matter, but for a constant number of errors. */
  lemma {:induction false} OnlyActiveVolumesMatter(stored: Pod, snapshot: Pod, caches: Caches, reach: map<string, Reach>,
                                                   volumes: seq<PodVolume>)
    ensures var all := SyncAll(stored, snapshot, caches, reach, volumes);
            var active := SyncAll(stored, snapshot, caches, reach, Active(caches, reach, volumes));
            all == Progress(active.pod, active.errors + BrokenCount(caches, reach, volumes))
  {
    if volumes != [] {
      var n := |volumes| - 1;
      OnlyActiveVolumesMatter(stored, snapshot, caches, reach, volumes[..n]);
      hide *;
      var first, v := volumes[..n], volumes[n];
      var before := Active(caches, reach, first);
      OneMore(caches, reach, volumes);
      SyncUnfolds(stored, snapshot, caches, reach, volumes);
      StepOfAnyVolume(SyncAll(stored, snapshot, caches, reach, first), SyncAll(stored, snapshot, caches, reach, before),
                      BrokenCount(caches, reach, first), snapshot, caches, reach, v);
      if Patchable(caches, reach, v) {
        SyncOneMore(stored, snapshot, caches, reach, before, v);
      }
    }
  }

  lemma OneMore(caches: Caches, reach: map<string, Reach>, volumes: seq<PodVolume>)
    requires volumes != []
    ensures var n := |volumes| - 1;
            && Active(caches, reach, volumes)
               == (if Patchable(caches, reach, volumes[n]) then Active(caches, reach, volumes[..n]) + [volumes[n]]
                   else Active(caches, reach, volumes[..n]))
            && BrokenCount(caches, reach, volumes)
               == BrokenCount(caches, reach, volumes[..n]) + (if Broken(caches, reach, volumes[n]) then 1 else 0)
  {}

  lemma SyncUnfolds(stored: Pod, snapshot: Pod, caches: Caches, reach: map<string, Reach>, volumes: seq<PodVolume>)
    requires volumes != []
    ensures var n := |volumes| - 1;
            SyncAll(stored, snapshot, caches, reach, volumes)
            == VolumeStep(SyncAll(stored, snapshot, caches, reach, volumes[..n]), snapshot, caches, reach, volumes[n])
  {}

  lemma SyncOneMore(stored: Pod, snapshot: Pod, caches: Caches, reach: map<string, Reach>,
                    volumes: seq<PodVolume>, v: PodVolume)
    ensures SyncAll(stored, snapshot, caches, reach, volumes + [v])
         == VolumeStep(SyncAll(stored, snapshot, caches, reach, volumes), snapshot, caches, reach, v)
  {
    assert (volumes + [v])[..|volumes|] == volumes;
  }

  predicate DistinctNames(volumes: seq<PodVolume>) {
    forall i, j | 0 <= i < j < |volumes| :: volumes[i].name != volumes[j].name
  }

  lemma {:induction false} ActiveNamesAreDistinct(caches: Caches, reach: map<string, Reach>, volumes: seq<PodVolume>)
    requires DistinctNames(volumes)
    ensures DistinctNames(Active(caches, reach, volumes))
  {
    if volumes != [] {
      var n := |volumes| - 1;
      ActiveNamesAreDistinct(caches, reach, volumes[..n]);
      forall v <- Active(caches, reach, volumes[..n]) ensures v.name != volumes[n].name {
        var i :| 0 <= i < n && volumes[..n][i] == v;
      }
    }
  }

  function Unmarked(pod: Pod, volumes: seq<PodVolume>): nat {
    if volumes == [] then 0
    else Unmarked(pod, volumes[..|volumes| - 1]) + (if IsMarked(pod, volumes[|volumes| - 1].name) then 0 else 1)
  }

  /** The place of the first volume that is not marked. */
  function FirstUnmarked(pod: Pod, volumes: seq<PodVolume>): (i: nat)
    ensures i <= |volumes|
    ensures forall j | 0 <= j < i :: IsMarked(pod, volumes[j].name)
    ensures i < |volumes| ==> !IsMarked(pod, volumes[i].name)
  {
    if volumes == [] then 0
    else
      var n := |volumes| - 1;
      var i := FirstUnmarked(pod, volumes[..n]);
      if i < n then i else if IsMarked(pod, volumes[n].name) then n + 1 else n
  }

  function WithMark(pod: Pod, name: string): Pod {
    pod.(version := pod.version + 1, annotations := MarkOf(pod, name))
  }

  /** What the patch of one volume makes of the pod that it was computed from. */
  lemma PatchMarks(pod: Pod, name: string)
    ensures Patched(pod, pod.version, MarkOf(pod, name)) == Some(if IsMarked(pod, name) then pod else WithMark(pod, name))
  {
    assert pod.annotations + MarkOf(pod, name) == MarkOf(pod, name);
    if IsMarked(pod, name) {
      assert MarkOf(pod, name) == pod.annotations;
    } else {
      assert MarkOf(pod, name)[VolumeMounted(name)] == TRUE;
    }
  }

  lemma {:induction false} ActiveSync(pod: Pod, caches: Caches, reach: map<string, Reach>, volumes: seq<PodVolume>)
    requires DistinctNames(volumes) && forall v <- volumes :: Patchable(caches, reach, v)
    ensures var i, p := FirstUnmarked(pod, volumes), SyncAll(pod, pod, caches, reach, volumes);
            if i == |volumes| then p == Progress(pod, 0)
            else p == Progress(WithMark(pod, volumes[i].name), |volumes| - 1 - i)
  {
    if volumes != [] {
      var n := |volumes| - 1;
      ActiveSync(pod, caches, reach, volumes[..n]);
      assert volumes[n] in volumes;
      PatchMarks(pod, volumes[n].name);
    }
  }

  /** One sync that starts from the stored pod marks the first unmarked volume of those it can mark; each of them
      after that meets a version conflict. */
  lemma OneSync(pod: Pod, caches: Caches, reach: map<string, Reach>, volumes: seq<PodVolume>)
    requires DistinctNames(volumes)
    ensures var active, broken := Active(caches, reach, volumes), BrokenCount(caches, reach, volumes);
            var i, p := FirstUnmarked(pod, active), SyncAll(pod, pod, caches, reach, volumes);
            if i == |active| then p == Progress(pod, broken)
            else p == Progress(WithMark(pod, active[i].name), |active| - 1 - i + broken)
  {
    OnlyActiveVolumesMatter(pod, pod, caches, reach, volumes);
    ActiveNamesAreDistinct(caches, reach, volumes);
    ActiveSync(pod, caches, reach, Active(caches, reach, volumes));
  }

  /** The stored pod after `n` syncs, each of which reads what the one before it stored. */
  function Repeat(pod: Pod, caches: Caches, reach: map<string, Reach>, volumes: seq<PodVolume>, n: nat): Pod
    decreases n
  {
    if n == 0 then pod
    else Repeat(SyncAll(pod, pod, caches, reach, volumes).pod, caches, reach, volumes, n - 1)
  }

  predicate LastUnmarked(pod: Pod, volumes: seq<PodVolume>) {
    volumes != [] && !IsMarked(pod, volumes[|volumes| - 1].name)
  }

  lemma {:induction false} CountAndPlace(pod: Pod, volumes: seq<PodVolume>)
    ensures FirstUnmarked(pod, volumes) == |volumes| <==> Unmarked(pod, volumes) == 0
    ensures FirstUnmarked(pod, volumes) == |volumes| - 1 <==> Unmarked(pod, volumes) == 1 && LastUnmarked(pod, volumes)
  {
    if volumes != [] {
      CountAndPlace(pod, volumes[..|volumes| - 1]);
    }
  }

  lemma {:induction false} MarkingKeepsOthers(pod: Pod, volumes: seq<PodVolume>, name: string)
    requires forall v <- volumes :: v.name != name
    ensures Unmarked(WithMark(pod, name), volumes) == Unmarked(pod, volumes)
  {
    if volumes != [] {
      MarkingKeepsOthers(pod, volumes[..|volumes| - 1], name);
    }
  }

  lemma {:induction false} MarkingCounts(pod: Pod, volumes: seq<PodVolume>, i: nat)
    requires i < |volumes| && !IsMarked(pod, volumes[i].name)
    requires forall i, j | 0 <= i < j < |volumes| :: volumes[i].name != volumes[j].name
    ensures Unmarked(WithMark(pod, volumes[i].name), volumes) == Unmarked(pod, volumes) - 1
  {
    var n := |volumes| - 1;
    if i == n {
      MarkingKeepsOthers(pod, volumes[..n], volumes[n].name);
    } else {
      MarkingCounts(pod, volumes[..n], i);
    }
  }

  /** With `u` unmarked volumes of those that can be marked, each of the first `u` syncs marks exactly one more.
      Unless some other volume fails every time, the first sync to return without an error is the `u`-th when the
      last of them was unmarked, and the one after that otherwise. */
  lemma {:induction false} ExactRetryBound(pod: Pod, caches: Caches, reach: map<string, Reach>, volumes: seq<PodVolume>, n: nat)
    requires DistinctNames(volumes)
    ensures var active := Active(caches, reach, volumes);
            var u, before := Unmarked(pod, active), Repeat(pod, caches, reach, volumes, n);
            && Unmarked(before, active) == (if n < u then u - n else 0)
            && (SyncAll(before, before, caches, reach, volumes).errors == 0 <==>
                BrokenCount(caches, reach, volumes) == 0 && (n + 1 > u || (n + 1 == u && LastUnmarked(pod, active))))
    decreases n
  {
    var active := Active(caches, reach, volumes);
    OneSync(pod, caches, reach, volumes);
    ActiveNamesAreDistinct(caches, reach, volumes);
    CountAndPlace(pod, active);
    if n > 0 {
      var i, after := FirstUnmarked(pod, active), SyncAll(pod, pod, caches, reach, volumes).pod;
      if i < |active| {
        MarkingCounts(pod, active, i);
      }
      ExactRetryBound(after, caches, reach, volumes, n - 1);
    }
  }

  /** A pod without any mark needs as many syncs as it has volumes to mark. */
  lemma UnmarkedPod(pod: Pod, caches: Caches, reach: map<string, Reach>, volumes: seq<PodVolume>, n: nat)
    requires DistinctNames(volumes) && forall v <- Active(caches, reach, volumes) :: !IsMarked(pod, v.name)
    ensures var before := Repeat(pod, caches, reach, volumes, n);
            SyncAll(before, before, caches, reach, volumes).errors == 0 <==>
            BrokenCount(caches, reach, volumes) == 0 && n + 1 >= |Active(caches, reach, volumes)|
  {
    AllUnmarked(pod, Active(caches, reach, volumes));
    ExactRetryBound(pod, caches, reach, volumes, n);
  }

  lemma {:induction false} AllUnmarked(pod: Pod, volumes: seq<PodVolume>)
    requires forall v <- volumes :: !IsMarked(pod, v.name)
    ensures Unmarked(pod, volumes) == |volumes|
  {
    if volumes != [] {
      AllUnmarked(pod, volumes[..|volumes| - 1]);
    }
  }

  /** A sync that starts from an older pod changes nothing. */
  lemma {:induction false} StaleSyncChangesNothing(stored: Pod, snapshot: Pod, caches: Caches, reach: map<string, Reach>,
                                                   volumes: seq<PodVolume>)
    requires snapshot.version != stored.version
    ensures SyncAll(stored, snapshot, caches, reach, volumes).pod == stored
  {
    if volumes != [] {
      StaleSyncChangesNothing(stored, snapshot, caches, reach, volumes[..|volumes| - 1]);
    }
  }
}
