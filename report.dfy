/**
 * The ordering step of `plot_results`: the summaries with at least one average, sorted by
 * uncached average (servers without one last), keeping the order of equal keys as Python's
 * `list.sort` does; then the three columns the chart is drawn from.
 */
module Report {
  import opened Wrappers
  import opened Config
  import opened Benchmark

  /** A summary with an uncached or a cached average: `r[1] is not None or r[2] is not None`. */
  predicate HasData(r: ServerSummary) { r.avgUncached.Some? || r.avgCached.Some? }

  function KeptResult(r: ServerSummary): seq<ServerSummary> {
    if HasData(r) then [r] else []
  }

  /** `valid_results`: the summaries with data, in their order. */
  function ValidResults(results: seq<ServerSummary>): seq<ServerSummary> {
    Gather(KeptResult, results)
  }

  /** The filter treats each summary on its own. */
  lemma ValidResultsAppend(a: seq<ServerSummary>, b: seq<ServerSummary>)
    ensures ValidResults(a + b) == ValidResults(a) + ValidResults(b)
  {
    GatherAppend(KeptResult, a, b);
  }

  /** Exactly the summaries with data are kept, each as often as it occurs. */
  lemma {:induction false} ValidResultsKeep(results: seq<ServerSummary>)
    ensures forall r :: multiset(ValidResults(results))[r] == if HasData(r) then multiset(results)[r] else 0
  {
    if results != [] {
      var x, rest := results[0], results[1..];
      assert results == [x] + rest;
      ValidResultsKeep(rest);
      ValidResultsAppend([x], rest);
      GatherOne(KeptResult, x);
    }
  }

  /** The sort key `(x[1] is None, x[1] if x[1] is not None else inf)`, as the uncached average. */
  function Key(r: ServerSummary): Option<real> { r.avgUncached }

  /** Strict key order: an average before none, smaller averages first. */
  predicate KeyBefore(a: Option<real>, b: Option<real>) {
    a.Some? && (b.None? || a.value < b.value)
  }

  /** No summary comes after one whose key is strictly greater. */
  predicate Ordered(s: seq<ServerSummary>) {
    forall i, j :: 0 <= i < j < |s| ==> !KeyBefore(Key(s[j]), Key(s[i]))
  }

  /** Place `x` before the first summary whose key is not strictly smaller than its own. */
  function Insert(x: ServerSummary, s: seq<ServerSummary>): seq<ServerSummary> {
    if s == [] || !KeyBefore(Key(s[0]), Key(x)) then [x] + s
    else [s[0]] + Insert(x, s[1..])
  }

  /** `valid_results.sort(key=...)`: a stable sort, written as an insertion sort. */
  function SortByLatency(s: seq<ServerSummary>): seq<ServerSummary> {
    if s == [] then [] else Insert(s[0], SortByLatency(s[1..]))
  }

  lemma {:induction false} InsertPermutes(x: ServerSummary, s: seq<ServerSummary>)
    ensures multiset(Insert(x, s)) == multiset(s) + multiset{x}
  {
    if s != [] && KeyBefore(Key(s[0]), Key(x)) {
      InsertPermutes(x, s[1..]);
      assert s == [s[0]] + s[1..];
    }
  }

  /** The sort rearranges its input and nothing more. */
  lemma {:induction false} SortPermutes(s: seq<ServerSummary>)
    ensures multiset(SortByLatency(s)) == multiset(s)
  {
    if s != [] {
      SortPermutes(s[1..]);
      InsertPermutes(s[0], SortByLatency(s[1..]));
      assert s == [s[0]] + s[1..];
    }
  }

  /** No summary of `s` has a key strictly before `k`. */
  predicate NoneBefore(k: Option<real>, s: seq<ServerSummary>) {
    forall j :: 0 <= j < |s| ==> !KeyBefore(Key(s[j]), k)
  }

  lemma {:induction false} InsertNoneBefore(x: ServerSummary, s: seq<ServerSummary>, k: Option<real>)
    requires NoneBefore(k, s) && !KeyBefore(Key(x), k)
    ensures NoneBefore(k, Insert(x, s))
  {
    if s != [] && KeyBefore(Key(s[0]), Key(x)) {
      InsertNoneBefore(x, s[1..], k);
      var t := Insert(x, s);
      assert forall j :: 0 < j < |t| ==> t[j] == Insert(x, s[1..])[j - 1];
    }
  }

  lemma OrderedCons(a: ServerSummary, t: seq<ServerSummary>)
    requires Ordered(t) && NoneBefore(Key(a), t)
    ensures Ordered([a] + t)
  {
    var u := [a] + t;
    forall i, j | 0 <= i < j < |u| ensures !KeyBefore(Key(u[j]), Key(u[i])) {
      assert u[j] == t[j - 1];
      if i > 0 { assert u[i] == t[i - 1]; }
    }
  }

  lemma {:induction false} InsertOrdered(x: ServerSummary, s: seq<ServerSummary>)
    requires Ordered(s)
    ensures Ordered(Insert(x, s))
  {
    if s == [] || !KeyBefore(Key(s[0]), Key(x)) {
      assert NoneBefore(Key(x), s) by {
        forall j | 0 <= j < |s| ensures !KeyBefore(Key(s[j]), Key(x)) {
          assert !KeyBefore(Key(s[j]), Key(s[0]));
        }
      }
      OrderedCons(x, s);
    } else {
      var tail := s[1..];
      assert Ordered(tail) && NoneBefore(Key(s[0]), tail) by {
        assert forall j :: 0 <= j < |tail| ==> tail[j] == s[j + 1];
      }
      InsertOrdered(x, tail);
      InsertNoneBefore(x, tail, Key(s[0]));
      OrderedCons(s[0], Insert(x, tail));
    }
  }

  /** The sort puts the summaries in key order. */
  lemma {:induction false} SortOrdered(s: seq<ServerSummary>)
    ensures Ordered(SortByLatency(s))
  {
    if s != [] {
      SortOrdered(s[1..]);
      InsertOrdered(s[0], SortByLatency(s[1..]));
    }
  }

  /** The summaries with key `k`, in order. */
  function WithKey(k: Option<real>, s: seq<ServerSummary>): seq<ServerSummary> {
    if s == [] then [] else (if Key(s[0]) == k then [s[0]] else []) + WithKey(k, s[1..])
  }

  lemma {:induction false} InsertWithKey(x: ServerSummary, s: seq<ServerSummary>, k: Option<real>)
    ensures WithKey(k, Insert(x, s)) == (if Key(x) == k then [x] else []) + WithKey(k, s)
  {
    if s != [] && KeyBefore(Key(s[0]), Key(x)) {
      InsertWithKey(x, s[1..], k);
      var t := Insert(x, s);
      assert t[0] == s[0] && t[1..] == Insert(x, s[1..]);
      if Key(s[0]) == k {
        // s[0] is strictly before x, so they do not share the key `k`.
        assert Key(x) != k;
      }
    } else {
      var t := [x] + s;
      assert t[0] == x && t[1..] == s;
    }
  }

  /**
   * The sort is stable: the summaries sharing any one key come out in the order they went
   * in.
   */
  lemma {:induction false} SortStable(s: seq<ServerSummary>, k: Option<real>)
    ensures WithKey(k, SortByLatency(s)) == WithKey(k, s)
  {
    if s != [] {
      SortStable(s[1..], k);
      InsertWithKey(s[0], SortByLatency(s[1..]), k);
    }
  }

  /** In key order, every summary with an uncached average comes before every one without, and the averages ascend. */
  lemma OrderedShape(s: seq<ServerSummary>)
    requires Ordered(s)
    ensures forall i, j :: 0 <= i < j < |s| && s[i].avgUncached.None? ==> s[j].avgUncached.None?
    ensures forall i, j :: 0 <= i < j < |s| && s[j].avgUncached.Some? ==> s[i].avgUncached.Some? && s[i].avgUncached.value <= s[j].avgUncached.value
  {
    forall i, j | 0 <= i < j < |s|
      ensures (s[i].avgUncached.None? ==> s[j].avgUncached.None?)
      ensures (s[j].avgUncached.Some? ==> s[i].avgUncached.Some? && s[i].avgUncached.value <= s[j].avgUncached.value)
    {
      assert !KeyBefore(Key(s[j]), Key(s[i]));
    }
  }

  /** `plot_results`'s sort (dns_speed_test.py:203-205) applied to its filter (dns_speed_test.py:199). */
  function PlotOrder(results: seq<ServerSummary>): seq<ServerSummary> {
    SortByLatency(ValidResults(results))
  }

  /**
   * The plotted summaries are exactly those with data, each as often as it occurs, in key
   * order, with the summaries of one key in their original order.
   */
  lemma PlotOrderSpec(results: seq<ServerSummary>)
    ensures forall r :: multiset(PlotOrder(results))[r] == if HasData(r) then multiset(results)[r] else 0
    ensures Ordered(PlotOrder(results))
    ensures forall k :: WithKey(k, PlotOrder(results)) == WithKey(k, ValidResults(results))
  {
    ValidResultsKeep(results);
    SortPermutes(ValidResults(results));
    SortOrdered(ValidResults(results));
    forall k ensures WithKey(k, PlotOrder(results)) == WithKey(k, ValidResults(results)) {
      SortStable(ValidResults(results), k);
    }
  }

  /** What `plot_results` gets to draw: nothing, nothing valid, or the bars in plot order. */
  datatype Chart =
    | NoData
    | NoValidData
    | Bars(names: seq<string>, uncachedHeights: seq<real>, cachedHeights: seq<real>)

  /** A missing average is drawn as a bar of height zero. */
  function Height(avg: Option<real>): real {
    if avg.Some? then avg.value else 0.0
  }

  /** `plot_results` (dns_speed_test.py:195-208): the early returns, then `server_names` and the two height lists. */
  function PlotResults(results: seq<ServerSummary>): Chart {
    if results == [] then NoData
    else
      var valid := ValidResults(results);
      if valid == [] then NoValidData
      else
        var sorted := SortByLatency(valid);
        Bars(seq(|sorted|, i requires 0 <= i < |sorted| => sorted[i].name),
             seq(|sorted|, i requires 0 <= i < |sorted| => Height(sorted[i].avgUncached)),
             seq(|sorted|, i requires 0 <= i < |sorted| => Height(sorted[i].avgCached)))
  }

  lemma {:induction false} ValidResultsEmpty(results: seq<ServerSummary>)
    ensures ValidResults(results) == [] <==> forall k :: 0 <= k < |results| ==> !HasData(results[k])
  {
    if results != [] {
      ValidResultsEmpty(results[1..]);
      ValidResultsAppend([results[0]], results[1..]);
      GatherOne(KeptResult, results[0]);
      assert results == [results[0]] + results[1..];
      assert forall k :: 1 <= k < |results| ==> results[k] == results[1..][k - 1];
    }
  }

  /**
   * The chart is empty exactly for no summaries, has nothing valid exactly when no summary
   * has data, and otherwise has one bar per plotted summary, under its name, with zero for
   * a missing average.
   */
  lemma PlotResultsCases(results: seq<ServerSummary>)
    ensures PlotResults(results).NoData? <==> results == []
    ensures PlotResults(results).NoValidData? <==> results != [] && forall k :: 0 <= k < |results| ==> !HasData(results[k])
    ensures var c, order := PlotResults(results), PlotOrder(results);
      c.Bars? ==>
        && order != []
        && |c.names| == |c.uncachedHeights| == |c.cachedHeights| == |order|
        && forall i :: 0 <= i < |order| ==>
             && c.names[i] == order[i].name
             && c.uncachedHeights[i] == (if order[i].avgUncached.Some? then order[i].avgUncached.value else 0.0)
             && c.cachedHeights[i] == (if order[i].avgCached.Some? then order[i].avgCached.value else 0.0)
  {
    ValidResultsEmpty(results);
    if ValidResults(results) != [] {
      SortPermutes(ValidResults(results));
      assert |multiset(PlotOrder(results))| == |multiset(ValidResults(results))|;
    }
  }
}
