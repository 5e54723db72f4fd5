/** The API server as the controllers meet it: an object that changes under their hands between any two
    calls. Its ghost log records everything that ever happened to it, and is always a run of the binding
    protocol; so all that is proved of runs is true of it. */
module Clusters {
  import opened Kubernetes
  import opened Binding
  import opened BindingTheorems
  import opened BindingOneToOne

  /** At some point from `from` on, the server turned down a write of worker `w`. */
  ghost predicate RefusedSince(log: seq<Action>, from: nat, w: nat)
    requires Legal(log)
  {
    exists k: nat :: from <= k < |log| && log[k] == Write(w) && w in At(log, k).workers
                     && Send(At(log, k).server, At(log, k).workers[w]).Err?
  }

  lemma RefusalIsLogged(log: seq<Action>, w: nat)
    requires Legal(log) && w in After(log).workers && Send(After(log).server, After(log).workers[w]).Err?
    ensures Legal(log + [Write(w)]) && RefusedSince(log + [Write(w)], |log|, w)
  {
    Extend(log, Write(w));
    assert (log + [Write(w)])[..|log|] == log;
    assert At(log + [Write(w)], |log|) == After(log);
  }

  datatype LiveRead = LiveRead(name: string, answer: Result<Pvc, ApiError>)

  /** At some point from `from` on, the server accepted the write of worker `w` that `task` is about. */
  ghost predicate AcceptedSince(log: seq<Action>, from: nat, w: nat, task: Worker)
    requires Legal(log)
  {
    exists k: nat :: from <= k < |log| && log[k] == Write(w) && w in At(log, k).workers
                     && At(log, k).workers[w] == task && Send(At(log, k).server, task).Ok?
  }

  lemma AcceptanceIsLogged(log: seq<Action>, w: nat)
    requires Legal(log) && w in After(log).workers && Send(After(log).server, After(log).workers[w]).Ok?
    ensures Legal(log + [Write(w)]) && AcceptedSince(log + [Write(w)], |log|, w, After(log).workers[w])
  {
    Extend(log, Write(w));
    assert (log + [Write(w)])[..|log|] == log;
    assert At(log + [Write(w)], |log|) == After(log);
  }

  class Cluster {
    var store: map<string, Pvc>
    var revision: nat
    ghost var log: seq<Action>
    ghost var liveReads: seq<LiveRead>   // the live reads of the controllers here, with their answers

    constructor ()
      ensures Valid() && log == [] && liveReads == []
    {
      store, revision, log, liveReads := map[], 0, [], [];
    }

    ghost predicate Valid()
      reads this
    {
      Legal(log) && After(log).server == Server(store, revision)
    }

    ghost function State(): State
      requires Valid()
      reads this
    {
      After(log)
    }

    /** Other workers, users and the rest of the cluster take any number of steps. Callers know no more than
        this contract, and OthersInterfere shows that any such steps are within it. */
    method Interfere(ghost w: nat)
      requires Valid()
      modifies this
      ensures Valid() && old(log) <= log && OwnWrites(log, w) == OwnWrites(old(log), w) && liveReads == old(liveReads)
      ensures State().history >= old(State().history)
      ensures (w in State().workers <==> w in old(State().workers))
      ensures w in State().workers ==> State().workers[w] == old(State().workers[w])
    {
    }

    /** Worker `w` has read its cache, or got an answer, and now knows what to write. */
    ghost method Decide(w: nat, read: Action)
      requires Valid() && Enabled(State(), read)
      requires read.BinderRead? || read.ReleaserGet? || read.ProtectorRead?
      requires read.worker == w
      modifies this`log
      ensures Valid() && log == old(log) + [read] && State() == Apply(old(State()), read)
      ensures OwnWrites(log, w) == OwnWrites(old(log), w) && State().history == old(State().history)
      ensures read.ReleaserGet? && RefOf(read.backend) !in store ==>
                w in State().workers && State().workers[w] == Releasing(read.backend)
      ensures read.ProtectorRead? ==>
                w in State().workers && State().workers[w] == ProtectorIntent(read.pvc).value
    {
      Extend(log, read);
      log := log + [read];
    }

    /** A live read, which may also fail for reasons of its own. */
    method Get(name: string) returns (r: Result<Pvc, ApiError>)
      requires Valid()
      modifies this`liveReads
      ensures liveReads == old(liveReads) + [LiveRead(name, r)]
      ensures r.Ok? ==> name in store && r.value == store[name]
      ensures r.Err? ==> r.error == Unavailable || (r.error == NotFound && name !in store)
    {
      var reached := *;
      r := if !reached then Err(Unavailable) else if name in store then Ok(store[name]) else Err(NotFound);
      liveReads := liveReads + [LiveRead(name, r)];
    }

    /** A full update. The caller is a worker that is due to send exactly this object. */
    method Update(ghost w: nat, obj: Pvc) returns (r: Result<(), ApiError>)
      requires Valid() && w in State().workers
      requires Send(Server(store, revision), State().workers[w]) == Kubernetes.Update(Server(store, revision), obj)
      modifies this
      ensures Valid() && log == old(log) + [Write(w)] && State() == Apply(old(State()), Write(w))
      ensures r.Ok? <==> Kubernetes.Update(old(Server(store, revision)), obj).Ok?
      ensures liveReads == old(liveReads)
      ensures r.Ok? ==> AcceptedSince(log, old(|log|), w, old(State().workers[w]))
      ensures r.Err? ==> RefusedSince(log, old(|log|), w)
      ensures State().history >= old(State().history)
      ensures w in State().workers <==> r.Ok? && Next(old(State().workers[w])).Some?
    {
      hide RefusedSince, AcceptedSince, Legal, Send, Kubernetes.Update;
      var answer := Kubernetes.Update(Server(store, revision), obj);
      if answer.Err? { RefusalIsLogged(log, w); } else { AcceptanceIsLogged(log, w); }
      Extend(log, Write(w));
      log := log + [Write(w)];
      match answer
      case Ok(server) => store, revision, r := server.store, server.revision, Ok(());
      case Err(error) => r := Err(error);
    }

    method Patch(ghost w: nat, name: string, patch: FinalizerPatch) returns (r: Result<(), ApiError>)
      requires Valid() && w in State().workers
      requires Send(Server(store, revision), State().workers[w]) ==
               PatchFinalizers(Server(store, revision), name, patch)
      modifies this
      ensures Valid() && log == old(log) + [Write(w)] && State() == Apply(old(State()), Write(w))
      ensures r.Ok? <==> PatchFinalizers(old(Server(store, revision)), name, patch).Ok?
      ensures liveReads == old(liveReads)
      ensures r.Ok? ==> AcceptedSince(log, old(|log|), w, old(State().workers[w]))
      ensures r.Err? ==> RefusedSince(log, old(|log|), w)
      ensures State().history >= old(State().history)
      ensures w in State().workers <==> r.Ok? && Next(old(State().workers[w])).Some?
    {
      hide RefusedSince, AcceptedSince, Legal, Send, PatchFinalizers;
      var answer := PatchFinalizers(Server(store, revision), name, patch);
      if answer.Err? { RefusalIsLogged(log, w); } else { AcceptanceIsLogged(log, w); }
      Extend(log, Write(w));
      log := log + [Write(w)];
      match answer
      case Ok(server) => store, revision, r := server.store, server.revision, Ok(());
      case Err(error) => r := Err(error);
    }
  }

  // Interference is what others can do.

  predicate By(a: Action, w: nat) {
    match a
    case BinderRead(v, _, _) => v == w
    case ReleaserGet(v, _) => v == w
    case ProtectorRead(v, _) => v == w
    case Write(v) => v == w
    case Crash(v) => v == w
    case _ => false
  }

  predicate SameWorker(s: State, t: State, w: nat) {
    (w in s.workers <==> w in t.workers) && (w in s.workers ==> t.workers[w] == s.workers[w])
  }

  lemma OneOther(s: State, a: Action, w: nat)
    requires Enabled(s, a) && !By(a, w)
    ensures SameWorker(s, Apply(s, a), w) && s.history <= Apply(s, a).history
  {
    hide Send, Update, Create, Delete, ProtectorIntent;
  }

  /** Whatever others do between two calls of worker `w` is within the contract of Interfere. */
  lemma {:induction false} OthersInterfere(log: seq<Action>, more: seq<Action>, w: nat)
    requires Legal(log) && Legal(log + more) && forall a <- more :: !By(a, w)
    ensures SameWorker(After(log), After(log + more), w) && After(log).history <= After(log + more).history
    ensures OwnWrites(log + more, w) == OwnWrites(log, w)
    decreases |more|
  {
    hide Apply, Enabled;
    if more == [] {
      assert log + more == log;
    } else {
      var n := |more| - 1;
      assert (log + more)[..|log + more| - 1] == log + more[..n];
      OthersInterfere(log, more[..n], w);
      OneOther(After(log + more[..n]), more[n], w);
      assert log + more == (log + more[..n]) + [more[n]];
    }
  }

  /** How many API writes a worker has sent. */
  ghost function OwnWrites(log: seq<Action>, w: nat): nat {
    multiset(log)[Write(w)]
  }

  datatype Lookup = Lookup(name: string, answer: Option<Pvc>)

  /** An informer cache: for each name some version that the object once had, or nothing. */
  class Informer {
    var cache: map<string, Pvc>
    ghost var lookups: seq<Lookup>   // what was looked up, and what the cache answered

    constructor ()
      ensures cache == map[] && lookups == []
    {
      cache, lookups := map[], [];
    }

    ghost predicate Valid(cluster: Cluster)
      requires cluster.Valid()
      reads this, cluster
    {
      forall n <- cache :: cache[n] in cluster.State().history && cache[n].name == n
    }

    /** Events arrive, in any order and with any delay. */
    method Refresh(cluster: Cluster)
      requires cluster.Valid() && Valid(cluster)
      modifies this`cache
      ensures Valid(cluster)
    {
    }

    method Get(name: string) returns (pvc: Option<Pvc>)
      modifies this`lookups
      ensures pvc == if name in cache then Some(cache[name]) else None
      ensures lookups == old(lookups) + [Lookup(name, pvc)]
    {
      pvc := if name in cache then Some(cache[name]) else None;
      lookups := lookups + [Lookup(name, pvc)];
    }
  }
}
