/** pkg/volumemanager/controller/pod/sync_volume.go: binding, staging, publishing and annotating one volume of
    one pod, in this order. */
module VolumeManagers {
  import opened Kubernetes
  import opened StateFiles
  import opened NodeLifecycle
  import opened NodeSafety
  import opened Nodes
  import opened NodeServers

  // What the listers and the driver tell of a volume.

  datatype VolumeMode = Filesystem | Block

  datatype ClaimMode = ReadWriteOnce | OtherMode(text: string)

  datatype FSGroupPolicy = NoneFSGroupPolicy | FileFSGroupPolicy | ReadWriteOnceWithFSTypeFSGroupPolicy

  /** The volume attachment: not there, not to be read, on its way out or failed, or known to be attached or not. */
  datatype Attachment = Missing | LookupFails | Deleting | AttachFailed | Known(attached: bool)

  datatype VolumeSpec = VolumeSpec(
    proxyDriver: Option<string>,        // of the proxy's persistent volume, if that is a CSI volume
    backendIsCSI: bool,
    driverKnown: bool,
    volumeMode: Option<VolumeMode>,
    nodeKnown: bool,
    nodeFits: bool,
    attachRequired: bool,
    attachment: Attachment,
    mountsGroup: bool,                  // the driver has VOLUME_MOUNT_GROUP
    fsGroup: Option<int>,
    groupPolicy: FSGroupPolicy,
    fsType: string,
    accessModes: Option<seq<ClaimMode>>)

  /** The checks that come before the volume is bound end the sync with or without an error, or pass. */
  datatype Checks = Pass | Leave(requeue: bool) | Reject

  datatype Outcome = Left | Failed | Marked

  /** The answers of the file system, the drivers, the listers and the API server, in the order of the calls. */
  datatype SyncAnswers = SyncAnswers(
    create: bool, encode: bool, device: bool, stage: Answer, lookups: bool, publish: Answer, patch: Answer)

  predicate GoesWell(answers: SyncAnswers, stages: bool) {
    && answers.create && answers.encode && answers.device && (stages ==> answers.stage.ok)
    && answers.lookups && answers.publish.ok
  }

  function SupportsFSGroup(spec: VolumeSpec): (supported: bool)
    ensures supported <==>
            && spec.fsGroup.Some? && spec.groupPolicy != NoneFSGroupPolicy
            && (spec.groupPolicy == FileFSGroupPolicy
                || (spec.fsType != "" && spec.accessModes.Some? && ReadWriteOnce in spec.accessModes.value))
  {
    if spec.fsGroup.None? || spec.groupPolicy == NoneFSGroupPolicy then false
    else if spec.groupPolicy == FileFSGroupPolicy then true
    else if |spec.fsType| == 0 then false
    else if spec.accessModes.None? then false
    else ReadWriteOnce in spec.accessModes.value
  }

  /** The driver does not apply the group itself, so it is for the volume manager to do. */
  predicate ChangesOwner(spec: VolumeSpec) {
    !spec.mountsGroup && SupportsFSGroup(spec)
  }

  class VolumeManager {
    const node: Node

    constructor (node: Node)
      ensures this.node == node
    {
      this.node := node;
    }

    method IsVolumeAttached(attachment: Attachment) returns (r: Result<bool, ()>)
      ensures r == match attachment
                   case Missing => Ok(false)
                   case Known(attached) => Ok(attached)
                   case _ => Err(())
    {
      match attachment
      case Missing => return Ok(false);
      case LookupFails => return Err(());
      case Deleting => return Err(());
      case AttachFailed => return Err(());
      case Known(attached) => return if attached then Ok(true) else Ok(false);
    }

    method Check(spec: VolumeSpec) returns (checks: Checks)
      ensures var fits := spec.backendIsCSI && spec.driverKnown && spec.volumeMode == Some(Filesystem)
                          && spec.nodeKnown && spec.nodeFits;
              && (checks == Pass <==> fits && (spec.attachRequired ==> spec.attachment == Known(true)))
              && (checks == Leave(false) <==> !spec.backendIsCSI)
              && (checks == Leave(true) <==> fits && spec.attachRequired && spec.attachment in {Missing, Known(false)})
    {
      if !spec.backendIsCSI {
        return Leave(false);
      }
      if !spec.driverKnown {
        return Reject;
      }
      if spec.volumeMode.None? {
        return Reject;
      }
      if spec.volumeMode.value != Filesystem {
        return Reject;
      }
      if !spec.nodeKnown {
        return Reject;
      }
      if !spec.nodeFits {
        return Reject;
      }
      if spec.attachRequired {
        var attached := IsVolumeAttached(spec.attachment);
        if attached.Err? {
          return Reject;
        }
        if !attached.value {
          return Leave(true);
        }
      }
      checks := Pass;
    }

    /** A volume that ends up marked is, at that moment, published at the pod's own target path, and the ownership
        change that it needed succeeded after the publish. */
    method SyncVolume(volumeID: Vol, podUID: Pod, spec: VolumeSpec, backend: Backend,
                      volume: VolumeOwnership.FileSystem, tree: Ownership.Tree,
                      policy: Option<VolumeOwnership.ChangePolicy>, ghost files: map<nat, Ownership.Kind>,
                      answers: SyncAnswers) returns (outcome: Outcome, requeued: bool)
      requires node.Valid() && node.Idle(SyncOf(volumeID)) && SyncMayRun(node.State(), volumeID, podUID)
      requires (volumeID, podUID) in node.config.target
      requires volumeID in node.config.backend && backend == node.config.backend[volumeID]
      requires volume.Ready(tree, files) && (ChangesOwner(spec) ==> spec.fsGroup == Some(volume.setting.gid))
      modifies node, volume
      ensures node.Valid() && node.Idle(SyncOf(volumeID)) && old(node.log) <= node.log
      // Volumes of others, of other kinds and not yet attached are left; without a known path nothing is begun.
      ensures var ours := spec.proxyDriver == Some("proxy.csi.scylladb.com");
              var known := (volumeID, podUID) in old(node.memory).targets;
              var waits := && spec.attachRequired && spec.attachment in {Missing, Known(false)}
                           && spec.backendIsCSI && spec.driverKnown && spec.volumeMode == Some(Filesystem)
                           && spec.nodeKnown && spec.nodeFits;
              && (outcome == Left <==> !ours || (known && (!spec.backendIsCSI || waits)))
              && (requeued <==> ours && known && waits)
              && (!ours || !known ==> node.log == old(node.log))
      // Marked exactly when all goes well.
      ensures var staged := volumeID in node.config.stages;
              var well := && GoesWell(answers, staged) && answers.patch.ok
                          && (ChangesOwner(spec) ==>
                                VolumeOwnership.ChangeSucceeds(volume.setting, tree, policy, volume.noStat, volume.noList,
                                                               old(volume.attrs)))
                          && spec.proxyDriver == Some("proxy.csi.scylladb.com")
                          && (volumeID, podUID) in old(node.memory).targets
                          && spec.backendIsCSI && spec.driverKnown && spec.volumeMode == Some(Filesystem)
                          && spec.nodeKnown && spec.nodeFits
                          && (spec.attachRequired ==> spec.attachment == Known(true));
              && (outcome == Marked ==> well)
              && (well && (staged ==> volumeID in old(node.memory).staging) ==> outcome == Marked)
      ensures outcome == Marked ==> (volumeID, podUID) in node.State().marked
                                    && IsPublished(node.config, node.State(), (volumeID, podUID))
      ensures outcome == Marked ==>
                && volume.results == (if ChangesOwner(spec) then [true] else [])
                && (ChangesOwner(spec) ==>
                      && old(volume.trace) <= volume.trace
                      && VolumeOwnership.Settled(volume.setting, tree, policy, volume.noStat, files, old(volume.attrs),
                                                 volume.attrs, volume.trace[|old(volume.trace)|..]))
      ensures outcome == Failed && node.log != old(node.log) ==> FailedSince(node.log, |old(node.log)|, SyncOf(volumeID))
    {
      hide Inv, ValidConfig, Legal, After, FailedSince, SameFor, Relied, Undisturbed, Step, OpInv;
      hide Node.Valid, Node.State, Node.Doing, Node.Idle;
      hide VolumeOwnership.Settled, VolumeOwnership.ChangeSucceeds, VolumeOwnership.FileSystem.Ready, GoesWell;
      if spec.proxyDriver.None? {
        return Left, false;
      }
      if spec.proxyDriver.value != DRIVER_NAME {
        return Left, false;
      }
      if (volumeID, podUID) !in node.memory.targets {
        return Failed, false;
      }
      var targetPath := node.memory.targets[(volumeID, podUID)];
      node.BeginSync(volumeID, podUID);
      node.InterfereWithSync(volumeID, Sync(podUID, targetPath, Verify));
      var checks := Check(spec);
      if checks != Pass {
        ghost var at := |node.log|;
        node.StopAtChecks(volumeID, Sync(podUID, targetPath, Verify));
        FailedEarlier(node.log, |old(node.log)|, at, SyncOf(volumeID));
        return if checks == Reject then Failed else Left, checks == Leave(true);
      }
      node.GoOn(volumeID, Sync(podUID, targetPath, Verify));
      ghost var at := |node.log|;
      var ok := BindMountAndMark(volumeID, podUID, spec, backend, targetPath, volume, tree, policy, files, answers);
      if !ok { FailedEarlier(node.log, |old(node.log)|, at, SyncOf(volumeID)); }
      outcome, requeued := if ok then Marked else Failed, false;
    }

    /** What follows the checks. */
    method BindMountAndMark(volumeID: Vol, ghost podUID: Pod, spec: VolumeSpec, backend: Backend, targetPath: Path,
                            volume: VolumeOwnership.FileSystem, tree: Ownership.Tree,
                            policy: Option<VolumeOwnership.ChangePolicy>, ghost files: map<nat, Ownership.Kind>,
                            answers: SyncAnswers) returns (ok: bool)
      requires node.Valid() && node.Doing(SyncOf(volumeID), Sync(podUID, targetPath, CreateBind))
      requires (volumeID, podUID) in node.config.target && targetPath == node.config.target[(volumeID, podUID)]
      requires volumeID in node.config.backend && backend == node.config.backend[volumeID]
      requires volume.Ready(tree, files) && (ChangesOwner(spec) ==> spec.fsGroup == Some(volume.setting.gid))
      modifies node, volume
      ensures node.Valid() && node.Idle(SyncOf(volumeID)) && old(node.log) <= node.log
      ensures var staged := volumeID in node.config.stages;
              var well := && GoesWell(answers, staged) && answers.patch.ok
                          && (ChangesOwner(spec) ==>
                                VolumeOwnership.ChangeSucceeds(volume.setting, tree, policy, volume.noStat, volume.noList,
                                                               old(volume.attrs)));
              (ok ==> well) && (well && (staged ==> volumeID in old(node.memory).staging) ==> ok)
      ensures ok ==> (volumeID, podUID) in node.State().marked
                     && IsPublished(node.config, node.State(), (volumeID, podUID))
      ensures !ok ==> FailedSince(node.log, |old(node.log)|, SyncOf(volumeID))
      ensures ok ==> && volume.results == (if ChangesOwner(spec) then [true] else [])
                     && (ChangesOwner(spec) ==>
                           && old(volume.trace) <= volume.trace
                           && VolumeOwnership.Settled(volume.setting, tree, policy, volume.noStat, files,
                                                      old(volume.attrs), volume.attrs,
                                                      volume.trace[|old(volume.trace)|..]))
    {
      hide Inv, ValidConfig, Legal, After, FailedSince, SameFor, Relied, Undisturbed, Step, OpInv;
      hide Node.Valid, Node.State, Node.Doing, Node.Idle;
      hide VolumeOwnership.Settled, VolumeOwnership.ChangeSucceeds, VolumeOwnership.FileSystem.Ready, GoesWell;
      ok := BindAndMount(volumeID, podUID, spec, backend, targetPath, volume, tree, policy, files, answers);
      if !ok {
        return;
      }
      node.InterfereWithSync(volumeID, Sync(podUID, targetPath, Annotate));
      ghost var at := |node.log|;
      node.PatchPod(volumeID, Sync(podUID, targetPath, Annotate), answers.patch);
      if !answers.patch.ok { FailedEarlier(node.log, |old(node.log)|, at, SyncOf(volumeID)); }
      ok := answers.patch.ok;
    }

    /** Write-ahead: the bind is saved before the backend is called. */
    method BindAndMount(volumeID: Vol, ghost podUID: Pod, spec: VolumeSpec, backend: Backend, targetPath: Path,
                        volume: VolumeOwnership.FileSystem, tree: Ownership.Tree,
                        policy: Option<VolumeOwnership.ChangePolicy>, ghost files: map<nat, Ownership.Kind>,
                        answers: SyncAnswers) returns (ok: bool)
      requires node.Valid() && node.Doing(SyncOf(volumeID), Sync(podUID, targetPath, CreateBind))
      requires (volumeID, podUID) in node.config.target && targetPath == node.config.target[(volumeID, podUID)]
      requires volumeID in node.config.backend && backend == node.config.backend[volumeID]
      requires volume.Ready(tree, files) && (ChangesOwner(spec) ==> spec.fsGroup == Some(volume.setting.gid))
      modifies node, volume
      ensures node.Valid() && old(node.log) <= node.log
      ensures var staged := volumeID in node.config.stages;
              var well := && GoesWell(answers, staged)
                          && (ChangesOwner(spec) ==>
                                VolumeOwnership.ChangeSucceeds(volume.setting, tree, policy, volume.noStat, volume.noList,
                                                               old(volume.attrs)));
              (ok ==> well) && (well && (staged ==> volumeID in old(node.memory).staging) ==> ok)
      ensures if ok then node.Doing(SyncOf(volumeID), Sync(podUID, targetPath, Annotate))
              else node.Idle(SyncOf(volumeID)) && FailedSince(node.log, |old(node.log)|, SyncOf(volumeID))
      ensures ok ==> IsPublished(node.config, node.State(), (volumeID, podUID))
      ensures ok ==> && volume.results == (if ChangesOwner(spec) then [true] else [])
                     && (ChangesOwner(spec) ==>
                           && old(volume.trace) <= volume.trace
                           && VolumeOwnership.Settled(volume.setting, tree, policy, volume.noStat, files,
                                                      old(volume.attrs), volume.attrs,
                                                      volume.trace[|old(volume.trace)|..]))
    {
      hide Inv, ValidConfig, Legal, After, FailedSince, SameFor, Relied, Undisturbed, Step, OpInv;
      hide Node.Valid, Node.State, Node.Doing, Node.Idle;
      hide VolumeOwnership.Settled, VolumeOwnership.ChangeSucceeds, VolumeOwnership.FileSystem.Ready;
      ghost var op := Sync(podUID, targetPath, CreateBind);
      node.InterfereWithSync(volumeID, op);
      ghost var at := |node.log|;
      ok := node.SaveVolumeBind(volumeID, backend, answers.create, answers.encode, op);
      if !ok {
        FailedEarlier(node.log, |old(node.log)|, at, SyncOf(volumeID));
        return;
      }
      node.InterfereWithSync(volumeID, op.(syncStep := FindDevice));
      at := |node.log|;
      ok := MountDevice(volumeID, podUID, backend, answers, op.(syncStep := FindDevice));
      if !ok {
        FailedEarlier(node.log, |old(node.log)|, at, SyncOf(volumeID));
        return;
      }
      node.InterfereWithSync(volumeID, op.(syncStep := PublishVolume));
      at := |node.log|;
      ok := SetUpAt(volumeID, podUID, spec, backend, targetPath, volume, tree, policy, files, answers,
                    op.(syncStep := PublishVolume));
      if !ok { FailedEarlier(node.log, |old(node.log)|, at, SyncOf(volumeID)); }
    }

    /** Without the capability there is nothing to stage; with it the path of an earlier NodeStageVolume is needed,
        as it is recorded when this begins. */
    method MountDevice(volumeID: Vol, ghost podUID: Pod, backend: Backend, answers: SyncAnswers, ghost op: Op)
      returns (ok: bool)
      requires node.Valid() && node.Doing(SyncOf(volumeID), op) && op.Sync? && op.pod == podUID && op.syncStep == FindDevice
      requires volumeID in node.config.backend && backend == node.config.backend[volumeID]
      modifies node
      ensures node.Valid() && old(node.log) <= node.log
      ensures ok <==> answers.device
                      && (volumeID in node.config.stages ==> volumeID in old(node.memory).staging && answers.stage.ok)
      ensures if ok then node.Doing(SyncOf(volumeID), op.(syncStep := PublishVolume))
              else node.Idle(SyncOf(volumeID)) && FailedSince(node.log, |old(node.log)|, SyncOf(volumeID))
      ensures ok && volumeID in node.config.stages ==>
                && volumeID in node.memory.staging
                && (backend.driverName, backend.volumeHandle, old(node.memory).staging[volumeID]) in node.staged
    {
      hide Inv, ValidConfig, Legal, After, FailedSince, SameFor, Relied, Undisturbed, Step, OpInv;
      hide Node.Valid, Node.State, Node.Doing, Node.Idle;
      var deviceMountPath: Path;
      ok, deviceMountPath := node.FindDeviceMountPath(volumeID, answers.device, op);
      if !ok || volumeID !in node.config.stages {
        return;
      }
      node.InterfereWithSync(volumeID, op.(syncStep := StageVolume(deviceMountPath)));
      ok := node.CallNodeStage(volumeID, backend, deviceMountPath, answers.stage,
                               op.(syncStep := StageVolume(deviceMountPath)));
      FailureStaysUnless(ok, node.log, |old(node.log)|, SyncOf(volumeID));
    }

    /** Publishes the volume at its target path and then settles the ownership of its files, if that is not left to
        the driver. */
    method SetUpAt(volumeID: Vol, ghost podUID: Pod, spec: VolumeSpec, backend: Backend, targetPath: Path,
                   volume: VolumeOwnership.FileSystem, tree: Ownership.Tree,
                   policy: Option<VolumeOwnership.ChangePolicy>, ghost files: map<nat, Ownership.Kind>,
                   answers: SyncAnswers, ghost op: Op) returns (ok: bool)
      requires node.Valid() && node.Doing(SyncOf(volumeID), op)
      requires op == Sync(podUID, targetPath, PublishVolume)
      requires (volumeID, podUID) in node.config.target && targetPath == node.config.target[(volumeID, podUID)]
      requires volumeID in node.config.backend && backend == node.config.backend[volumeID]
      requires volume.Ready(tree, files) && (ChangesOwner(spec) ==> spec.fsGroup == Some(volume.setting.gid))
      modifies node, volume
      ensures node.Valid() && old(node.log) <= node.log
      ensures ok <==>
              && answers.lookups && (volumeID in node.config.stages ==> volumeID in old(node.memory).staging)
              && answers.publish.ok
              && (ChangesOwner(spec) ==>
                    VolumeOwnership.ChangeSucceeds(volume.setting, tree, policy, volume.noStat, volume.noList,
                                                   old(volume.attrs)))
      ensures if ok then node.Doing(SyncOf(volumeID), op.(syncStep := Annotate))
              else node.Idle(SyncOf(volumeID)) && FailedSince(node.log, |old(node.log)|, SyncOf(volumeID))
      ensures ok ==> IsPublished(node.config, node.State(), (volumeID, podUID))
      // The one ownership change since the publish succeeded.
      ensures ok ==> && volume.results == (if ChangesOwner(spec) then [true] else [])
                     && (ChangesOwner(spec) ==>
                           && old(volume.trace) <= volume.trace
                           && VolumeOwnership.Settled(volume.setting, tree, policy, volume.noStat, files,
                                                      old(volume.attrs), volume.attrs,
                                                      volume.trace[|old(volume.trace)|..]))
    {
      hide Inv, ValidConfig, Legal, After, FailedSince, SameFor, Relied, Undisturbed, Step, OpInv;
      hide Node.Valid, Node.State, Node.Doing, Node.Idle;
      hide VolumeOwnership.Settled, VolumeOwnership.ChangeSucceeds, VolumeOwnership.FileSystem.Ready;
      if !answers.lookups || (volumeID in node.config.stages && volumeID !in node.memory.staging) {
        node.StopBeforePublish(volumeID, answers.lookups, op);
        return false;
      }
      ok := node.CallNodePublish(volumeID, backend, targetPath, answers.publish, volume, op);
      if !ok {
        return;
      }
      node.InterfereWithSync(volumeID, op.(syncStep := ChangeOwner));
      var needed := ChangesOwner(spec);
      ok := node.ChangeOwnership(volumeID, needed, volume, tree, spec.fsGroup, policy, files, op.(syncStep := ChangeOwner));
      FailureStaysUnless(ok, node.log, |old(node.log)|, SyncOf(volumeID));
    }
  }
}
