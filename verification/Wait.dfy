/** pkg/wait/controller.go: the signal file is touched once the pod carries every annotation that is asked for.
    Together with the volume manager, which annotates last, this means that every volume is ready. */
module Wait {
  import opened Kubernetes
  import opened NodeLifecycle
  import opened NodeRuns
  import opened NodeSignal
  import PodSync

  predicate Has(annotations: map<Key, string>, key: Key, value: string) {
    key in annotations && annotations[key] == value
  }

  predicate HasAll(annotations: map<Key, string>, required: map<Key, string>) {
    forall key <- required :: Has(annotations, key, required[key])
  }

  datatype SyncError = PodNotFound | CannotTouch

  class Controller {
    const requiredAnnotations: map<Key, string>
    var cached: Option<PodSync.Pod>
    var signalled: bool
    ghost var grounds: Option<PodSync.Pod>   // the pod on which the signal was given

    constructor (requiredAnnotations: map<Key, string>)
      ensures this.requiredAnnotations == requiredAnnotations && cached == None && !signalled && Valid()
    {
      this.requiredAnnotations, cached, signalled, grounds := requiredAnnotations, None, false, None;
    }

    ghost predicate Valid()
      reads this
    {
      signalled ==> grounds.Some? && HasAll(grounds.value.annotations, requiredAnnotations)
    }

    /** Whenever the cached pod has all annotations the signal is given, unless the file cannot be touched; otherwise
        nothing changes. */
    method Sync(touchable: bool) returns (r: Result<(), SyncError>)
      requires Valid()
      modifies this`signalled, this`grounds
      ensures Valid()
      ensures var all := cached.Some? && forall key <- requiredAnnotations ::
                           key in cached.value.annotations && cached.value.annotations[key] == requiredAnnotations[key];
              && r == (if cached.None? then Err(PodNotFound) else if all && !touchable then Err(CannotTouch) else Ok(()))
              && signalled == (old(signalled) || (all && touchable))
              && grounds == (if all && touchable then cached else old(grounds))
    {
      var annotated := EvaluateAnnotations();
      if annotated.Err? {
        return Err(annotated.error);
      }
      if annotated.value {
        if !touchable {
          return Err(CannotTouch);
        }
        signalled := true;
        grounds := cached;
      }
      r := Ok(());
    }

    method EvaluateAnnotations() returns (r: Result<bool, SyncError>)
      ensures cached.None? ==> r == Err(PodNotFound)
      ensures cached.Some? ==> r == Ok(HasAll(cached.value.annotations, requiredAnnotations))
    {
      if cached.None? {
        return Err(PodNotFound);
      }
      var rest := requiredAnnotations.Keys;
      while rest != {}
        invariant rest <= requiredAnnotations.Keys
        invariant forall key <- requiredAnnotations | key !in rest ::
                    Has(cached.value.annotations, key, requiredAnnotations[key])
        decreases rest
      {
        var key :| key in rest;
        if !(key in cached.value.annotations && cached.value.annotations[key] == requiredAnnotations[key]) {
          return Ok(false);
        }
        rest := rest - {key};
      }
      r := Ok(true);
    }
  }

  // The signal and the volumes.

  /** The annotations that the wait command asks for: one for each named volume. */
  function Required(names: set<string>): map<Key, string> {
    map name | name in names :: VolumeMounted(name) := PodSync.TRUE
  }

  /** Every mark that the pod carries was set in the run. */
  predicate AnnotatedBy(pod: PodSync.Pod, s: State, handles: map<string, Vol>, uid: NodeLifecycle.Pod) {
    forall name <- handles | PodSync.IsMarked(pod, name) :: (handles[name], uid) in s.marked
  }

  predicate AddsNoMark(before: PodSync.Pod, after: PodSync.Pod, handles: map<string, Vol>) {
    forall name <- handles | PodSync.IsMarked(after, name) :: PodSync.IsMarked(before, name)
  }

  /** Around action `a` the pod stays without new marks, or the action is a patch of the volume manager that the
      server accepts and that marks one volume of this pod. */
  predicate FollowsRun(before: PodSync.Pod, after: PodSync.Pod, s: State, a: Action, handles: map<string, Vol>,
                       uid: NodeLifecycle.Pod)
  {
    || AddsNoMark(before, after, handles)
    || exists name <- handles :: after == PodSync.WithMark(before, name) && Marks(s, (handles[name], uid), a)
  }

  /** The versions of one pod along a run: it starts without marks, and nobody but the volume manager adds any.
      `handles` names the proxy volumes behind the pod's volumes. */
  ghost predicate PodHistory(c: Config, acts: seq<Action>, pods: seq<PodSync.Pod>, handles: map<string, Vol>,
                             uid: NodeLifecycle.Pod)
    requires ValidConfig(c) && Legal(c, acts)
  {
    && |pods| == |acts| + 1
    && (forall name <- handles :: !PodSync.IsMarked(pods[0], name))
    && (forall n: nat | n < |acts| :: FollowsRun(pods[n], pods[n + 1], At(c, acts, n), acts[n], handles, uid))
  }

  lemma AnnotationsFollowMarks(c: Config, s: State, a: Action, before: PodSync.Pod, after: PodSync.Pod,
                               handles: map<string, Vol>, uid: NodeLifecycle.Pod)
    requires ValidConfig(c) && Sensible(c, s) && Enabled(c, s, a)
    requires AnnotatedBy(before, s, handles, uid) && FollowsRun(before, after, s, a, handles, uid)
    ensures AnnotatedBy(after, Apply(c, s, a), handles, uid)
  {
    hide Apply, Enabled, Marks;
    forall name <- handles | PodSync.IsMarked(after, name) ensures (handles[name], uid) in Apply(c, s, a).marked {
      StepShape(c, s, a, (handles[name], uid));
    }
  }

  /** In every version of the pod, each mark was set in the run. */
  lemma {:induction false} MarksComeFromTheRun(c: Config, acts: seq<Action>, pods: seq<PodSync.Pod>, n: nat,
                                               handles: map<string, Vol>, uid: NodeLifecycle.Pod)
    requires ValidConfig(c) && Legal(c, acts) && PodHistory(c, acts, pods, handles, uid) && n <= |acts|
    ensures AnnotatedBy(pods[n], At(c, acts, n), handles, uid)
  {
    hide At, Legal, Apply, Enabled, FollowsRun, ValidConfig;
    if n > 0 {
      MarksComeFromTheRun(c, acts, pods, n - 1, handles, uid);
      NextAt(c, acts, n - 1);
      assert FollowsRun(pods[n - 1], pods[n - 1 + 1], At(c, acts, n - 1), acts[n - 1], handles, uid);
      AnnotationsFollowMarks(c, At(c, acts, n - 1), acts[n - 1], pods[n - 1], pods[n], handles, uid);
    }
  }

  /** A version of the pod that has all the annotations asked for, however old it is when it is read: each of the
      named volumes was published by one sync, which settled its ownership before it had the pod marked. */
  lemma AnnotatedMeansReady(c: Config, acts: seq<Action>, pods: seq<PodSync.Pod>, n: nat, handles: map<string, Vol>,
                            uid: NodeLifecycle.Pod, names: set<string>)
    requires ValidConfig(c) && Legal(c, acts) && PodHistory(c, acts, pods, handles, uid) && n <= |acts|
    requires names <= handles.Keys && HasAll(pods[n].annotations, Required(names))
    ensures forall name <- names :: Ready(c, acts, (handles[name], uid))
  {
    MarksComeFromTheRun(c, acts, pods, n, handles, uid);
    PrefixLegal(c, acts, n);
    forall name <- names ensures Ready(c, acts, (handles[name], uid)) {
      assert VolumeMounted(name) in Required(names);
      assert PodSync.IsMarked(pods[n], name);
      MarkedMeansReady(c, acts[..n], (handles[name], uid));
      ReadyLater(c, acts[..n], acts, (handles[name], uid));
    }
  }

  /** Signal safety: when the wait command has given the signal, and its cache only ever showed versions of the
      pod, each required volume is ready. */
  lemma SignalMeansReady(controller: Controller, c: Config, acts: seq<Action>, pods: seq<PodSync.Pod>,
                         handles: map<string, Vol>, uid: NodeLifecycle.Pod, names: set<string>)
    requires ValidConfig(c) && Legal(c, acts) && PodHistory(c, acts, pods, handles, uid)
    requires controller.Valid() && controller.signalled && controller.grounds.value in pods
    requires controller.requiredAnnotations == Required(names) && names <= handles.Keys
    ensures forall name <- names :: Ready(c, acts, (handles[name], uid))
  {
    var n :| 0 <= n < |pods| && pods[n] == controller.grounds.value;
    AnnotatedMeansReady(c, acts, pods, n, handles, uid, names);
  }
}
