/**
 The application state handed to the bar chart, and the step of the program
 that turns a deserialized timeseries response into it.
 */
module Dashboard {
  import opened RustStr
  import opened Timeseries
  import opened Stats

  /** The dashboard's state: the series the bar chart draws. */
  datatype Tui = Tui(stats: seq<Stat>)

  /** `TUI::new`: takes ownership of the series and keeps it as given. */
  function New(stats: seq<Stat>): (app: Tui)
    ensures app.stats == stats
  {
    Tui(stats)
  }

  /** How the program continues after the response is deserialized: with
      the application state, or with the panic of the stats loop. */
  datatype Launch =
    | Launched(app: Tui)
    | Aborted(at: nat, panic: Panic)

  /**
   From the deserialized response to the application state: the stats loop,
   then `TUI::new`. The chart receives one bar per point, in order, labelled
   with the last two bytes of the point's date and as high as its count.
   */
  method Prepare(profile: Profile, response: TimeseriesResponse) returns (launch: Launch)
    ensures launch.Launched? <==> AllHaveDayLabels(response.results)
    ensures launch.Launched? ==>
      && |launch.app.stats| == |response.results|
      && forall i | 0 <= i < |response.results| ::
        launch.app.stats[i] == (DayLabel(response.results[i].date), response.results[i].visitors)
    ensures launch.Aborted? ==>
      && launch.at < |response.results|
      && AllHaveDayLabels(response.results[..launch.at])
      && TryDayLabel(profile, response.results[launch.at].date) == Err(launch.panic)
  {
    var outcome := CollectStats(profile, response.results);
    if outcome.Panicked? {
      return Aborted(outcome.at, outcome.panic);
    }
    launch := Launched(New(outcome.stats));
  }

  /** A week's first three days: the bars are labelled "01", "02", "03" and
      keep their counts, a zero count included. */
  lemma ThreeDaysScenario()
    ensures
      var results := [
        TimeseriesResult(Ascii("2021-05-01"), 10),
        TimeseriesResult(Ascii("2021-05-02"), 0),
        TimeseriesResult(Ascii("2021-05-03"), 5)];
      && AllHaveDayLabels(results)
      && BuildStats(results) == [(Ascii("01"), 10), (Ascii("02"), 0), (Ascii("03"), 5)]
  {
    var r1 := TimeseriesResult(Ascii("2021-05-01"), 10);
    var r2 := TimeseriesResult(Ascii("2021-05-02"), 0);
    var r3 := TimeseriesResult(Ascii("2021-05-03"), 5);
    AsciiDayLabel("2021-05-01");
    AsciiDayLabel("2021-05-02");
    AsciiDayLabel("2021-05-03");
    assert StatOf(r1) == (Ascii("01"), 10) by { assert "2021-05-01"[8..] == "01"; }
    assert StatOf(r2) == (Ascii("02"), 0) by { assert "2021-05-02"[8..] == "02"; }
    assert StatOf(r3) == (Ascii("03"), 5) by { assert "2021-05-03"[8..] == "03"; }
    var results := [r1, r2, r3];
    assert AllHaveDayLabels(results);
    BuildStatsPointwise(results, 0);
    BuildStatsPointwise(results, 1);
    BuildStatsPointwise(results, 2);
  }
}
