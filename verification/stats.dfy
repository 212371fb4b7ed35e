/**
 The bar-chart series: one `(label, visitors)` pair per timeseries point,
 pushed in the order the points arrive.
 */
module Stats {
  import opened RustStr
  import opened Timeseries

  /** One bar: its two-byte label and its height in visitors. */
  type Stat = (seq<byte>, u64)

  /** Every date in the series admits the label slice. */
  predicate AllHaveDayLabels(results: seq<TimeseriesResult>) {
    forall i | 0 <= i < |results| :: HasDayLabel(results[i].date)
  }

  /** The pair the loop pushes for one result. */
  function StatOf(result: TimeseriesResult): Stat
    requires HasDayLabel(result.date)
  {
    (DayLabel(result.date), result.visitors)
  }

  /**
   The series the loop builds when no date makes it panic, defined the way
   the loop builds it: the series of all but the last point, with the last
   point's pair pushed on the end.
   */
  function BuildStats(results: seq<TimeseriesResult>): (stats: seq<Stat>)
    requires AllHaveDayLabels(results)
    ensures |stats| == |results|
    ensures forall i | 0 <= i < |results| ::
      && |stats[i].0| == 2
      && results[i].date == results[i].date[..|results[i].date| - 2] + stats[i].0
      && stats[i].1 == results[i].visitors
    decreases |results|
  {
    if results == [] then []
    else BuildStats(results[..|results| - 1]) + [StatOf(results[|results| - 1])]
  }

  /** Entry `i` of the series is the pair of `results[i]` and of nothing else. */
  lemma BuildStatsPointwise(results: seq<TimeseriesResult>, i: int)
    requires AllHaveDayLabels(results) && 0 <= i < |results|
    ensures BuildStats(results)[i] == StatOf(results[i])
  {
  }

  /** Building the series of two concatenated runs of points concatenates
      their series: no entry depends on a neighbouring point. */
  lemma BuildStatsAppend(a: seq<TimeseriesResult>, b: seq<TimeseriesResult>)
    requires AllHaveDayLabels(a) && AllHaveDayLabels(b)
    ensures AllHaveDayLabels(a + b)
    ensures BuildStats(a + b) == BuildStats(a) + BuildStats(b)
  {
    assert AllHaveDayLabels(a + b) by {
      forall i | 0 <= i < |a + b|
        ensures HasDayLabel((a + b)[i].date)
      {
        if i >= |a| {
          assert (a + b)[i] == b[i - |a|];
        }
      }
    }
    var lhs := BuildStats(a + b);
    var rhs := BuildStats(a) + BuildStats(b);
    forall i | 0 <= i < |lhs|
      ensures lhs[i] == rhs[i]
    {
      BuildStatsPointwise(a + b, i);
      if i < |a| {
        BuildStatsPointwise(a, i);
      } else {
        assert (a + b)[i] == b[i - |a|];
        BuildStatsPointwise(b, i - |a|);
      }
    }
  }

  /** The outcome of running the loop: the finished series, or the panic
      raised at the first point whose date the label slice rejects. */
  datatype Outcome =
    | Done(stats: seq<Stat>)
    | Panicked(at: nat, panic: Panic)

  /** The loop itself, including the panic that ends it at the first bad date. */
  method CollectStats(profile: Profile, results: seq<TimeseriesResult>) returns (outcome: Outcome)
    ensures outcome.Done? <==> AllHaveDayLabels(results)
    ensures outcome.Done? ==>
      && |outcome.stats| == |results|
      && forall k | 0 <= k < |results| :: outcome.stats[k] == StatOf(results[k])
    ensures outcome.Panicked? ==>
      && outcome.at < |results|
      && AllHaveDayLabels(results[..outcome.at])
      && !HasDayLabel(results[outcome.at].date)
      && TryDayLabel(profile, results[outcome.at].date) == Err(outcome.panic)
  {
    var stats: seq<Stat> := [];
    var i := 0;
    while i < |results|
      invariant 0 <= i <= |results|
      invariant AllHaveDayLabels(results[..i])
      invariant |stats| == i
      invariant forall k | 0 <= k < i :: stats[k] == StatOf(results[k])
    {
      var result := results[i];
      var day := TryDayLabel(profile, result.date);
      if day.Err? {
        return Panicked(i, day.panic);
      }
      stats := stats + [(day.value, result.visitors)];
      var prefix := results[..i + 1];
      assert AllHaveDayLabels(prefix) by {
        forall k | 0 <= k < |prefix|
          ensures HasDayLabel(prefix[k].date)
        {
          if k < i {
            assert prefix[k] == results[..i][k];
          }
        }
      }
      i := i + 1;
    }
    assert results[..i] == results;
    return Done(stats);
  }
}
