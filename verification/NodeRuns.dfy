/** The states that a run of the node passes through. */
module NodeRuns {
  import opened NodeLifecycle

  lemma {:induction false} PrefixLegal(c: Config, acts: seq<Action>, n: nat)
    requires ValidConfig(c) && Legal(c, acts) && n <= |acts|
    ensures Legal(c, acts[..n])
    decreases |acts|
  {
    if n == |acts| {
      assert acts[..n] == acts;
    } else {
      PrefixLegal(c, acts[..|acts| - 1], n);
      assert acts[..|acts| - 1][..n] == acts[..n];
    }
  }

  /** The state before action `n` of a run. */
  ghost function At(c: Config, acts: seq<Action>, n: nat): State
    requires ValidConfig(c) && Legal(c, acts) && n <= |acts|
  {
    PrefixLegal(c, acts, n);
    After(c, acts[..n])
  }

  lemma SamePast(c: Config, acts: seq<Action>, longer: seq<Action>, m: nat)
    requires ValidConfig(c) && Legal(c, acts) && Legal(c, longer) && acts <= longer && m <= |acts|
    ensures At(c, longer, m) == At(c, acts, m)
  {
    assert longer[..m] == acts[..m];
  }

  lemma NextAt(c: Config, acts: seq<Action>, n: nat)
    requires ValidConfig(c) && Legal(c, acts) && n < |acts|
    ensures Sensible(c, At(c, acts, n)) && Enabled(c, At(c, acts, n), acts[n])
    ensures At(c, acts, n + 1) == Apply(c, At(c, acts, n), acts[n])
  {
    hide Apply, Enabled, ValidConfig;
    PrefixLegal(c, acts, n + 1);
    var prefix := acts[..n + 1];
    assert prefix[..n] == acts[..n] && prefix[n] == acts[n];
  }

  /** The last two states of a run. */
  lemma Ends(c: Config, acts: seq<Action>, a: Action)
    requires ValidConfig(c) && Legal(c, acts) && Legal(c, acts + [a])
    ensures At(c, acts + [a], |acts|) == After(c, acts) && At(c, acts + [a], |acts| + 1) == After(c, acts + [a])
  {
    assert (acts + [a])[..|acts|] == acts && (acts + [a])[..|acts| + 1] == acts + [a];
  }
}
