/** pkg/driver/nodeserver.go: the four calls of the CSI node service. The container orchestrator names volumes and
    paths as in the configuration, and has no two calls under way for one volume; what it may call beside a sync of
    the volume manager is what Enabled says. */
module NodeServers {
  import opened Kubernetes
  import opened StateFiles
  import opened NodeLifecycle
  import opened NodeSafety
  import opened NodeSteps
  import opened Nodes

  datatype Code = OK | InvalidArgument | Internal

  lemma FailureStaysUnless(ok: bool, log: seq<Action>, from: nat, lane: Lane)
    requires ok || exists at: nat | from <= at <= |log| :: FailedSince(log, at, lane)
    ensures ok || FailedSince(log, from, lane)
  {
    if !ok { FailureStays(log, log, from, lane); }
  }

  /** A failure since a later point is one since an earlier point. */
  lemma FailedEarlier(log: seq<Action>, from: nat, later: nat, lane: Lane)
    requires from <= later && FailedSince(log, later, lane)
    ensures FailedSince(log, from, lane)
  {
  }

  // What a publish request must say.

  datatype AccessMode =
    | UNKNOWN | SINGLE_NODE_WRITER | SINGLE_NODE_READER_ONLY | MULTI_NODE_READER_ONLY | MULTI_NODE_SINGLE_WRITER
    | MULTI_NODE_MULTI_WRITER | SINGLE_NODE_SINGLE_WRITER | SINGLE_NODE_MULTI_WRITER

  /** The file system type is that of a mount; a block volume has none. */
  datatype Capability = Capability(accessMode: AccessMode, fsType: Option<string>)

  const POD_UID := "csi.storage.k8s.io/pod.uid"
  const EPHEMERAL := "csi.storage.k8s.io/ephemeral"
  const EXPECTED_ATTRIBUTES := ["csi.storage.k8s.io/pod.name", "csi.storage.k8s.io/pod.namespace", POD_UID,
                                "csi.storage.k8s.io/serviceAccount.name", EPHEMERAL]

  /** One volume on one node, mounted with the default file system. */
  predicate Supported(capability: Capability) {
    && capability.accessMode in {SINGLE_NODE_WRITER, SINGLE_NODE_READER_ONLY, SINGLE_NODE_SINGLE_WRITER,
                                 SINGLE_NODE_MULTI_WRITER}
    && capability.fsType == Some("")
  }

  function Attribute(context: map<string, string>, attribute: string): string {
    if attribute in context then context[attribute] else ""
  }

  predicate Complete(context: map<string, string>) {
    forall i | 0 <= i < |EXPECTED_ATTRIBUTES| :: Attribute(context, EXPECTED_ATTRIBUTES[i]) != ""
  }

  predicate Acceptable(volumeID: Vol, targetPath: Path, capability: Option<Capability>, context: Option<map<string, string>>) {
    && volumeID != "" && targetPath != "" && capability.Some? && Supported(capability.value)
    && context.Some? && Complete(context.value) && Attribute(context.value, EPHEMERAL) != "true"
  }

  /** A mount of the default file system by one node, for a pod that is named and not ephemeral. */
  lemma AcceptableExactly(volumeID: Vol, targetPath: Path, capability: Option<Capability>,
                          context: Option<map<string, string>>)
    ensures Acceptable(volumeID, targetPath, capability, context) <==>
            && volumeID != "" && targetPath != ""
            && capability.Some? && capability.value.fsType == Some("")
            && capability.value.accessMode !in {UNKNOWN, MULTI_NODE_READER_ONLY, MULTI_NODE_SINGLE_WRITER,
                                                MULTI_NODE_MULTI_WRITER}
            && context.Some? && (
              var c := context.value;
              && "csi.storage.k8s.io/pod.name" in c && c["csi.storage.k8s.io/pod.name"] != ""
              && "csi.storage.k8s.io/pod.namespace" in c && c["csi.storage.k8s.io/pod.namespace"] != ""
              && "csi.storage.k8s.io/pod.uid" in c && c["csi.storage.k8s.io/pod.uid"] != ""
              && "csi.storage.k8s.io/serviceAccount.name" in c && c["csi.storage.k8s.io/serviceAccount.name"] != ""
              && "csi.storage.k8s.io/ephemeral" in c && c["csi.storage.k8s.io/ephemeral"] != ""
              && c["csi.storage.k8s.io/ephemeral"] != "true")
  {
    if context.Some? { CompleteExactly(context.value); }
    if capability.Some? { SupportedExactly(capability.value); }
    hide Complete, Supported;
    assert EPHEMERAL == "csi.storage.k8s.io/ephemeral";
  }

  lemma SupportedExactly(capability: Capability)
    ensures Supported(capability) <==>
            && capability.accessMode !in {UNKNOWN, MULTI_NODE_READER_ONLY, MULTI_NODE_SINGLE_WRITER, MULTI_NODE_MULTI_WRITER}
            && capability.fsType == Some("")
  {
    var m := capability.accessMode;
    assert m.UNKNOWN? || m.SINGLE_NODE_WRITER? || m.SINGLE_NODE_READER_ONLY? || m.MULTI_NODE_READER_ONLY?
           || m.MULTI_NODE_SINGLE_WRITER? || m.MULTI_NODE_MULTI_WRITER? || m.SINGLE_NODE_SINGLE_WRITER?
           || m.SINGLE_NODE_MULTI_WRITER?;
  }

  lemma CompleteExactly(c: map<string, string>)
    ensures Complete(c) <==>
            && Attribute(c, "csi.storage.k8s.io/pod.name") != "" && Attribute(c, "csi.storage.k8s.io/pod.namespace") != ""
            && Attribute(c, "csi.storage.k8s.io/pod.uid") != "" && Attribute(c, "csi.storage.k8s.io/serviceAccount.name") != ""
            && Attribute(c, "csi.storage.k8s.io/ephemeral") != ""
  {
    var e := EXPECTED_ATTRIBUTES;
    assert e[0] == "csi.storage.k8s.io/pod.name" && e[1] == "csi.storage.k8s.io/pod.namespace";
    assert e[2] == "csi.storage.k8s.io/pod.uid" && e[3] == "csi.storage.k8s.io/serviceAccount.name";
    assert e[4] == "csi.storage.k8s.io/ephemeral";
    assert Complete(c) <==> Attribute(c, e[0]) != "" && Attribute(c, e[1]) != "" && Attribute(c, e[2]) != ""
                            && Attribute(c, e[3]) != "" && Attribute(c, e[4]) != "";
  }

  /** Lists the attributes that are missing. */
  method ValidateVolumeContext(context: map<string, string>) returns (missing: seq<string>)
    ensures missing == [] <==> Complete(context)
    ensures forall attribute <- missing :: attribute in EXPECTED_ATTRIBUTES && Attribute(context, attribute) == ""
  {
    missing := [];
    for i := 0 to |EXPECTED_ATTRIBUTES|
      invariant missing == [] <==> forall j | 0 <= j < i :: Attribute(context, EXPECTED_ATTRIBUTES[j]) != ""
      invariant forall attribute <- missing :: attribute in EXPECTED_ATTRIBUTES && Attribute(context, attribute) == ""
    {
      var attribute := EXPECTED_ATTRIBUTES[i];
      if |Attribute(context, attribute)| == 0 {
        missing := missing + [attribute];
      }
    }
  }

  // The answers of the file system and the backend driver.

  datatype UnstageAnswers = UnstageAnswers(reachable: bool, unstage: Answer, removeBind: bool, removeStaging: bool)

  datatype UnpublishAnswers = UnpublishAnswers(unpublish: Answer, rmdir: bool, remove: bool)

  class NodeServer {
    const node: Node

    constructor (node: Node)
      ensures this.node == node
    {
      this.node := node;
    }

    method NodeStageVolume(volumeID: Vol, stagingTargetPath: Path, create: bool, encode: bool) returns (code: Code)
      requires node.Valid() && node.Idle(CallOn(volumeID))
      modifies node
      ensures node.Valid() && node.Idle(CallOn(volumeID)) && old(node.log) <= node.log
      ensures code == if volumeID == "" || stagingTargetPath == "" then InvalidArgument
                      else if create && encode then OK else Internal
      ensures code == InvalidArgument ==> node.log == old(node.log)
      ensures code == OK ==> volumeID in node.memory.staging && node.memory.staging[volumeID] == stagingTargetPath
      ensures code == Internal ==> FailedSince(node.log, |old(node.log)|, CallOn(volumeID))
    {
      hide Inv, ValidConfig, Legal, After, FailedSince, SameFor, Relied, Undisturbed, Step;
      if |volumeID| == 0 || |stagingTargetPath| == 0 {
        return InvalidArgument;
      }
      node.Begin(NodeStage(volumeID, stagingTargetPath));
      node.Interfere(CallOn(volumeID));
      var ok := node.BindStagingTargetPath(volumeID, stagingTargetPath, create, encode,
                                           Stage(stagingTargetPath, CreateStaging));
      FailureStaysUnless(ok, node.log, |old(node.log)|, CallOn(volumeID));
      code := if ok then OK else Internal;
    }

    /** Undoes the stage at the backend when that has the capability, and forgets the volume's bind and its
        staging path; but without the capability the staging path stays bound. */
    method NodeUnstageVolume(volumeID: Vol, stagingTargetPath: Path, answers: UnstageAnswers) returns (code: Code)
      requires node.Valid() && Enabled(node.config, node.State(), NodeUnstage(volumeID, stagingTargetPath))
      modifies node
      ensures node.Valid() && node.Idle(CallOn(volumeID)) && old(node.log) <= node.log
      ensures volumeID == "" || stagingTargetPath == "" ==> code == InvalidArgument && node.log == old(node.log)
      ensures volumeID != "" && stagingTargetPath != "" ==>
                var bound, stages := volumeID in old(node.memory).binds, volumeID in node.config.stages;
                code == if bound && !(answers.reachable && (stages ==> answers.unstage.ok)) then InvalidArgument
                        else if bound && !answers.removeBind then Internal
                        else if (!bound || stages) && !answers.removeStaging then Internal
                        else OK
      ensures code == OK ==>
                && volumeID !in node.memory.binds
                && (volumeID in node.config.stages || volumeID !in old(node.memory).binds ==>
                      volumeID !in node.memory.staging)
      ensures code != OK && volumeID != "" && stagingTargetPath != "" ==>
                FailedSince(node.log, |old(node.log)|, CallOn(volumeID))
    {
      hide Inv, ValidConfig, Legal, After, FailedSince, SameFor, Relied, Undisturbed, Step;
      if |volumeID| == 0 || |stagingTargetPath| == 0 {
        return InvalidArgument;
      }
      node.Begin(NodeUnstage(volumeID, stagingTargetPath));
      if volumeID in node.memory.binds {
        code := UnmountDevice(volumeID, stagingTargetPath, node.memory.binds[volumeID], answers);
        FailureStaysUnless(code == OK, node.log, |old(node.log)|, CallOn(volumeID));
        if code != OK || volumeID !in node.config.stages {
          return;
        }
      }
      ghost var s := node.State();
      node.Interfere(CallOn(volumeID));
      KeptForUnstage(node.config, s, node.State(), volumeID);
      var ok := node.UnbindStagingTargetPath(volumeID, answers.removeStaging, Unstage(stagingTargetPath, RemoveStaging));
      FailureStaysUnless(ok, node.log, |old(node.log)|, CallOn(volumeID));
      code := if ok then OK else Internal;
    }

    /** The part for a volume that is bound. */
    method UnmountDevice(volumeID: Vol, stagingTargetPath: Path, volumeBind: Backend, answers: UnstageAnswers)
      returns (code: Code)
      requires node.Valid() && volumeID in node.memory.binds && volumeBind == node.memory.binds[volumeID]
      requires node.Doing(CallOn(volumeID), Unstage(stagingTargetPath,
                                            if volumeID in node.config.stages then CallUnstage else RemoveBind))
      modifies node
      ensures node.Valid() && old(node.log) <= node.log
      ensures code == if !(answers.reachable && (volumeID in node.config.stages ==> answers.unstage.ok)) then InvalidArgument
                      else if answers.removeBind then OK else Internal
      ensures code == OK ==> volumeID !in node.memory.binds
      ensures code == OK && volumeID in node.config.stages ==>
                node.Doing(CallOn(volumeID), Unstage(stagingTargetPath, RemoveStaging))
      ensures code != OK || volumeID !in node.config.stages ==> node.Idle(CallOn(volumeID))
      ensures code != OK ==> FailedSince(node.log, |old(node.log)|, CallOn(volumeID))
    {
      hide Inv, ValidConfig, Legal, After, FailedSince, SameFor, Relied, Undisturbed, Step;
      ghost var s := node.State();
      node.Interfere(CallOn(volumeID));
      KeptForUnstage(node.config, s, node.State(), volumeID);
      if !answers.reachable {
        node.StopBeforeUnstage(volumeID, Unstage(stagingTargetPath,
                                                 if volumeID in node.config.stages then CallUnstage else RemoveBind));
        FailureStaysUnless(false, node.log, |old(node.log)|, CallOn(volumeID));
        return InvalidArgument;
      }
      if volumeID !in node.config.stages {
        var ok := node.DeleteVolumeBind(volumeID, answers.removeBind, Unstage(stagingTargetPath, RemoveBind));
        FailureStaysUnless(ok, node.log, |old(node.log)|, CallOn(volumeID));
        return if ok then OK else Internal;
      }
      var ok := node.CallNodeUnstage(volumeID, volumeBind.driverName, stagingTargetPath, answers.unstage,
                                     Unstage(stagingTargetPath, CallUnstage));
      FailureStaysUnless(ok, node.log, |old(node.log)|, CallOn(volumeID));
      if !ok {
        return InvalidArgument;
      }
      node.Interfere(CallOn(volumeID));
      ok := node.DeleteVolumeBind(volumeID, answers.removeBind, Unstage(stagingTargetPath, RemoveBind));
      FailureStaysUnless(ok, node.log, |old(node.log)|, CallOn(volumeID));
      code := if ok then OK else Internal;
    }

    method NodePublishVolume(volumeID: Vol, targetPath: Path, capability: Option<Capability>,
                             context: Option<map<string, string>>, answers: PublishAnswers) returns (code: Code)
      requires node.Valid() && node.Idle(CallOn(volumeID))
      requires Acceptable(volumeID, targetPath, capability, context) ==>
                 var k := (volumeID, Attribute(context.value, POD_UID));
                 k in node.config.target && node.config.target[k] == targetPath
      modifies node
      ensures node.Valid() && node.Idle(CallOn(volumeID)) && old(node.log) <= node.log
      ensures code == if !Acceptable(volumeID, targetPath, capability, context) then InvalidArgument
                      else if answers.mkdir.ok && answers.create && answers.encode then OK else Internal
      ensures code != InvalidArgument ==>
                (targetPath in node.dirs <==>
                   if answers.mkdir.ok then code == OK || !answers.rollBack
                   else answers.mkdir.took || targetPath in old(node.dirs))
      ensures code == InvalidArgument ==> node.log == old(node.log)
      ensures code == OK ==>
                var k := (volumeID, Attribute(context.value, POD_UID));
                k in node.memory.targets && node.memory.targets[k] == targetPath
      ensures code == Internal ==> FailedSince(node.log, |old(node.log)|, CallOn(volumeID))
    {
      hide Inv, ValidConfig, Legal, After, FailedSince, SameFor, Relied, Undisturbed, Step;
      if |volumeID| == 0 || |targetPath| == 0 || capability.None? || !Supported(capability.value) || context.None? {
        return InvalidArgument;
      }
      var missing := ValidateVolumeContext(context.value);
      if missing != [] {
        return InvalidArgument;
      }
      if Attribute(context.value, EPHEMERAL) == "true" {
        return InvalidArgument;
      }
      var podUID := Attribute(context.value, POD_UID);
      node.Begin(NodePublish(volumeID, podUID));
      ghost var s := node.State();
      node.Interfere(CallOn(volumeID));
      KeptForPublish(node.config, s, node.State(), volumeID, podUID);
      var ok := node.SetUpTargetPath(volumeID, podUID, targetPath, answers, Publish(podUID, MakeDir));
      FailureStaysUnless(ok, node.log, |old(node.log)|, CallOn(volumeID));
      code := if ok then OK else Internal;
    }

    /** When it succeeds, the pod's mount is gone from the backend, its directory and its records are gone. */
    method NodeUnpublishVolume(volumeID: Vol, targetPath: Path, answers: UnpublishAnswers, ghost podUID: Pod)
      returns (code: Code)
      requires node.Valid() && Enabled(node.config, node.State(), NodeUnpublish(volumeID, podUID))
      requires node.config.target[(volumeID, podUID)] == targetPath
      modifies node
      ensures node.Valid() && node.Idle(CallOn(volumeID)) && old(node.log) <= node.log
      ensures volumeID == "" || targetPath == "" ==> code == InvalidArgument && node.log == old(node.log)
      ensures volumeID != "" && targetPath != "" ==>
                code == if volumeID in old(node.memory).binds && !answers.unpublish.ok then InvalidArgument
                        else if answers.rmdir && (answers.remove || (volumeID, podUID) !in old(node.memory).targets) then OK
                        else Internal
      ensures code == OK ==>
                && !IsPublished(node.config, node.State(), (volumeID, podUID)) && targetPath !in node.dirs
                && targetPath !in node.memory.index && (volumeID, podUID) !in node.memory.targets
                && (volumeID, podUID) !in node.State().outstanding
      ensures code != OK && volumeID != "" && targetPath != "" ==>
                FailedSince(node.log, |old(node.log)|, CallOn(volumeID))
    {
      hide Inv, ValidConfig, Legal, After, FailedSince, SameFor, Relied, Undisturbed, Step;
      if |volumeID| == 0 || |targetPath| == 0 {
        return InvalidArgument;
      }
      node.Begin(NodeUnpublish(volumeID, podUID));
      ghost var s := node.State();
      if volumeID in node.memory.binds {
        var volumeBind := node.memory.binds[volumeID];
        s := node.State();
        node.Interfere(CallOn(volumeID));
        KeptForUnpublish(node.config, s, node.State(), volumeID, podUID);
        var ok := node.CallNodeUnpublish(volumeID, volumeBind, targetPath, answers.unpublish,
                                         Unpublish(podUID, CallUnpublish));
        FailureStaysUnless(ok, node.log, |old(node.log)|, CallOn(volumeID));
        if !ok {
          return InvalidArgument;
        }
      }
      s := node.State();
      node.Interfere(CallOn(volumeID));
      KeptForUnpublish(node.config, s, node.State(), volumeID, podUID);
      var ok := node.TearDownTargetPath(volumeID, podUID, targetPath, answers.rmdir, answers.remove,
                                        Unpublish(podUID, RemoveDir));
      FailureStaysUnless(ok, node.log, |old(node.log)|, CallOn(volumeID));
      if !ok {
        return Internal;
      }
      IndexAt(node.config, node.State(), (volumeID, podUID));
      ForgottenIsUnpublished(node.config, node.State(), (volumeID, podUID));
      code := OK;
    }
  }

  /** What no map knows is not published. */
  lemma ForgottenIsUnpublished(c: Config, s: State, k: Target)
    requires Inv(c, s) && Running(s) && k !in s.memory.value.targets
    ensures !IsPublished(c, s, k)
  {
    assert VolInv(c, s, k.0) && TargetInv(c, s, (k.0, k.1));
  }
}
