/**
 * `_getCurrRecords`: the number of records shown under the filters, the sum
 * of the `count` fields of a count query's results.
 */
module Records {
  import opened Wrappers

  /** One bucket of a count query's results: a term and how many records carry it. */
  datatype CountResult = CountResult(term: string, count: int)

  /** `results.map(result => result.count)`. */
  function Counts(results: seq<CountResult>): (cs: seq<int>)
    ensures |cs| == |results|
    ensures forall i :: 0 <= i < |results| ==> cs[i] == results[i].count
  {
    seq(|results|, i requires 0 <= i < |results| => results[i].count)
  }

  /**
   * `reduce((a, b) => a + b)` without an initial value: the first element is
   * the seed and every later element is added on the right, in order.
   */
  function ReduceAdd(xs: seq<int>): (r: int)
    requires |xs| > 0
    decreases |xs|
  {
    if |xs| == 1 then xs[0] else ReduceAdd(xs[..|xs| - 1]) + xs[|xs| - 1]
  }

  /** The sum of a sequence, from the front, as a reference definition. */
  function Sum(xs: seq<int>): (s: int)
    decreases |xs|
  {
    if xs == [] then 0 else xs[0] + Sum(xs[1..])
  }

  /** Sums split over a concatenation. */
  lemma {:induction false} SumAppend(a: seq<int>, b: seq<int>)
    ensures Sum(a + b) == Sum(a) + Sum(b)
    decreases |a|
  {
    if a == [] {
      assert a + b == b;
    } else {
      assert (a + b)[1..] == a[1..] + b;
      SumAppend(a[1..], b);
    }
  }

  /** The seedless left fold of `+` is the sum of the sequence. */
  lemma {:induction false} ReduceAddIsSum(xs: seq<int>)
    requires |xs| > 0
    ensures ReduceAdd(xs) == Sum(xs)
    decreases |xs|
  {
    if |xs| > 1 {
      var init := xs[..|xs| - 1];
      ReduceAddIsSum(init);
      SumAppend(init, [xs[|xs| - 1]]);
      assert init + [xs[|xs| - 1]] == xs;
    }
  }

  /**
   * `_getCurrRecords`: nothing for a missing result list (a failed query),
   * otherwise the sum of the counts. The source reduces without an initial
   * value, so an empty list is outside what it handles.
   */
  function CurrRecords(results: Option<seq<CountResult>>): (r: Option<int>)
    requires results.Some? ==> |results.value| > 0
    ensures r.None? <==> results.None?
    ensures r.Some? ==> r.value == Sum(Counts(results.value))
  {
    if results.None? then None
    else
      ReduceAddIsSum(Counts(results.value));
      Some(ReduceAdd(Counts(results.value)))
  }

  /** With no negative count, every bucket is at most the total shown. */
  lemma {:induction false} CountWithinTotal(results: seq<CountResult>, i: nat)
    requires i < |results|
    requires forall j :: 0 <= j < |results| ==> results[j].count >= 0
    ensures results[i].count <= Sum(Counts(results))
    decreases |results|
  {
    var cs := Counts(results);
    assert cs[0] == results[0].count;
    if i > 0 {
      CountWithinTotal(results[1..], i - 1);
      assert Counts(results[1..]) == cs[1..];
    } else {
      SumNonNegative(cs[1..]);
    }
  }

  /** A sum of non-negative numbers is non-negative. */
  lemma {:induction false} SumNonNegative(xs: seq<int>)
    requires forall j :: 0 <= j < |xs| ==> xs[j] >= 0
    ensures Sum(xs) >= 0
    decreases |xs|
  {
    if xs != [] {
      SumNonNegative(xs[1..]);
    }
  }
}
