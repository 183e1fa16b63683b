/**
 * The page that owns the reading log: new readings are stamped with an id
 * and a date and put in front of the log, the latest reading is its head,
 * and the dashboard and the recommendations panel are fed from it.
 */
module IndexPage {
  import opened Wrappers
  import opened SoilData
  import opened Sequences
  import Dashboard
  import Recommendations

  /** A submitted reading stamped with its id and date (both supplied by the caller). */
  function NewEntry(d: NewReading, id: string, date: string): (e: SoilReading)
    ensures e.id == id && e.date == date
    ensures e.nitrogen == d.nitrogen && e.ph == d.ph && e.moisture == d.moisture
    ensures e.plant == d.plant
  {
    SoilReading(id, date, d.nitrogen, d.ph, d.moisture, d.plant)
  }

  /** The log after a reading is added: the new entry in front of the old log. */
  function AddEntry(log: seq<SoilReading>, e: SoilReading): (r: seq<SoilReading>)
    ensures |r| == |log| + 1
    ensures r[0] == e
    ensures r[1..] == log
  {
    [e] + log
  }

  /** The add-reading handler. */
  function HandleAddSoilData(log: seq<SoilReading>, d: NewReading, id: string, date: string): (r: seq<SoilReading>)
    ensures |r| == |log| + 1
    ensures r[0] == NewEntry(d, id, date)
    ensures forall i | 0 <= i < |log| :: r[i + 1] == log[i]
  {
    AddEntry(log, NewEntry(d, id, date))
  }

  /** The newest reading, or none for an empty log. */
  function LatestSoilData(log: seq<SoilReading>): (r: Option<SoilReading>)
    ensures r.None? <==> |log| == 0
    ensures r.Some? ==> r.value == log[0]
  {
    if |log| > 0 then Some(log[0]) else None
  }

  /** Right after an add, the latest reading is the entry just added. */
  lemma LatestAfterAdd(log: seq<SoilReading>, d: NewReading, id: string, date: string)
    ensures LatestSoilData(HandleAddSoilData(log, d, id, date)) == Some(NewEntry(d, id, date))
  {
  }

  /** The log built by adding `history` one entry at a time, oldest first. */
  function Replay(history: seq<SoilReading>): seq<SoilReading>
  {
    if |history| == 0 then [] else AddEntry(Replay(history[..|history| - 1]), history[|history| - 1])
  }

  /** Adding readings one by one yields them newest first: the history reversed. */
  lemma {:induction false} ReplayIsNewestFirst(history: seq<SoilReading>)
    ensures Replay(history) == Reverse(history)
    decreases |history|
  {
    if |history| > 0 {
      var init, last := history[..|history| - 1], history[|history| - 1];
      ReplayIsNewestFirst(init);
      assert history == init + [last];
      ReverseAppend(init, last);
    }
  }

  /**
   * The dashboard of a log built by successive adds charts the readings in
   * the order they were added, numbered from 1.
   */
  lemma ChartFollowsHistory(history: seq<SoilReading>)
    ensures var c := Dashboard.ChartData(Replay(history));
      && |c| == |history|
      && forall i | 0 <= i < |history| :: c[i] == Dashboard.Point(i + 1, history[i])
  {
    ReplayIsNewestFirst(history);
    ReverseReverse(history);
    Dashboard.ChartIsReversedLog(Replay(history));
  }

  /** An add extends the chart by one point for the new entry, numbered last. */
  lemma {:induction false} ChartAfterAdd(log: seq<SoilReading>, e: SoilReading)
    ensures Dashboard.ChartData(AddEntry(log, e)) == Dashboard.ChartData(log) + [Dashboard.Point(|log| + 1, e)]
  {
    var before, after := Dashboard.ChartData(log), Dashboard.ChartData(AddEntry(log, e));
    var longer := AddEntry(log, e);
    assert |after| == |before| + 1;
    forall i | 0 <= i < |after|
      ensures after[i] == (before + [Dashboard.Point(|log| + 1, e)])[i]
    {
      if i < |log| {
        assert longer[|longer| - 1 - i] == log[|log| - 1 - i];
      }
    }
  }

  /** What the page hands to its two views. */
  datatype Views = Views(dashboard: Dashboard.Summary, recommendations: Option<Recommendations.Diagnosis>)

  /** The dashboard gets the whole log, the recommendations panel the latest reading. */
  function Render(log: seq<SoilReading>): (v: Views)
    ensures v.dashboard.NoData? <==> v.recommendations.None?
    ensures v.dashboard.Summary? ==> v.recommendations.value.plant == v.dashboard.latest.plant
  {
    Views(Dashboard.Summarize(log), Recommendations.Diagnose(LatestSoilData(log)))
  }

  /** Both views describe the same latest reading. */
  lemma ViewsAgreeOnLatest(log: seq<SoilReading>)
    requires |log| > 0
    ensures Render(log).dashboard.latest == log[0]
    ensures Render(log).recommendations == Some(Recommendations.Analyse(log[0]))
  {
  }
}
