/**
 * The explorer configuration handed to the infographic container, and the
 * registry that the container builds from it (`_getInfographicMap`).
 */
module Explorers {
  import opened Wrappers

  /** One preset filter of an explorer: the radio button's search text and its caption (`label` in the configuration). */
  datatype Filter = Filter(searchParam: string, caption: string)

  /**
   * One explorer ("infographic") of the configuration list. An empty
   * `dateConstraint` stands for a missing (falsy) one.
   */
  datatype Explorer = Explorer(
    short: string,
    countParam: string,
    dateConstraint: string,
    filters: seq<Filter>,
    chartType: string)

  /** The registry built by `_getInfographicMap`: every element stored under its `short`, in list order. */
  function RegistryOf(xs: seq<Explorer>): (m: map<string, Explorer>)
    decreases |xs|
  {
    if xs == [] then map[]
    else RegistryOf(xs[..|xs| - 1])[xs[|xs| - 1].short := xs[|xs| - 1]]
  }

  /** Every entry of the registry is stored under its own short name. */
  ghost predicate WellFormedRegistry(m: map<string, Explorer>)
  {
    forall k :: k in m ==> m[k].short == k
  }

  /**
   * `_getInfographicMap`: a missing list gives the empty map; otherwise every
   * element is written under its `short` in list order, so a later element
   * overwrites an earlier one with the same `short`.
   */
  method InfographicMap(infographics: Option<seq<Explorer>>) returns (m: map<string, Explorer>)
    ensures infographics.None? ==> m == map[]
    ensures infographics.Some? ==> m == RegistryOf(infographics.value)
  {
    m := map[];
    if infographics.Some? {
      var xs := infographics.value;
      var i := 0;
      while i < |xs|
        invariant 0 <= i <= |xs|
        invariant m == RegistryOf(xs[..i])
      {
        assert xs[..i + 1][..i] == xs[..i];
        m := m[xs[i].short := xs[i]];
        i := i + 1;
      }
      assert xs[..|xs|] == xs;
    }
  }

  /**
   * A short name is a key of the registry exactly when some element carries
   * it, and then it maps to the LAST element carrying it (last write wins).
   */
  lemma {:induction false} RegistryLookup(xs: seq<Explorer>, k: string)
    ensures k in RegistryOf(xs) <==> exists i :: 0 <= i < |xs| && xs[i].short == k
    ensures k in RegistryOf(xs) ==>
      exists i :: 0 <= i < |xs| && xs[i].short == k && RegistryOf(xs)[k] == xs[i] &&
        forall j :: i < j < |xs| ==> xs[j].short != k
    decreases |xs|
  {
    if xs != [] {
      var n := |xs| - 1;
      var ys := xs[..n];
      assert forall i :: 0 <= i < n ==> xs[i] == ys[i];
      RegistryLookup(ys, k);
      if k == xs[n].short {
        assert RegistryOf(xs)[k] == xs[n];
      } else if k in RegistryOf(ys) {
        var i :| 0 <= i < |ys| && ys[i].short == k && RegistryOf(ys)[k] == ys[i] &&
          forall j :: i < j < |ys| ==> ys[j].short != k;
        assert xs[i].short == k && RegistryOf(xs)[k] == xs[i];
      }
    }
  }

  /** The registry never stores an explorer under another explorer's name. */
  lemma {:induction false} RegistryWellFormed(xs: seq<Explorer>)
    ensures WellFormedRegistry(RegistryOf(xs))
  {
    forall k | k in RegistryOf(xs)
      ensures RegistryOf(xs)[k].short == k
    {
      RegistryLookup(xs, k);
    }
  }

  /** An element that no later element shadows is what its short name looks up. */
  lemma {:induction false} RegistryFindsLast(xs: seq<Explorer>, i: nat)
    requires i < |xs|
    requires forall j :: i < j < |xs| ==> xs[j].short != xs[i].short
    ensures xs[i].short in RegistryOf(xs) && RegistryOf(xs)[xs[i].short] == xs[i]
  {
    RegistryLookup(xs, xs[i].short);
    var i' :| 0 <= i' < |xs| && xs[i'].short == xs[i].short && RegistryOf(xs)[xs[i].short] == xs[i'] &&
      forall j :: i' < j < |xs| ==> xs[j].short != xs[i].short;
    assert i' == i;
  }
}
