/** The usage-log merge both index-logs screens perform on a successful
    usage call: three operation series are collected into maps keyed by
    timestamp, and one row is emitted per entry of the `records` series. */
module Usage {
  import opened Common

  /** One `{t, v}` sample of a usage series: a timestamp in milliseconds and
      a count. */
  datatype Point = Point(t: int, v: int)

  /** The fields of the usage response the screens read; None where the
      field is missing, in which case `forEach`/`map` on it throws. */
  datatype UsageBody = UsageBody(
    records: Option<seq<Point>>,
    addRecordOperations: Option<seq<Point>>,
    deleteRecordOperations: Option<seq<Point>>,
    browseOperations: Option<seq<Point>>)

  /** One merged row. `day` is the UTC calendar day of the timestamp, counted
      from 1970-01-01, which the screen prints as `YYYY-MM-DD`. */
  datatype UsageRow = UsageRow(
    day: int,
    totalRecords: int,
    addRecordOperations: int,
    deleteRecordOperations: int,
    browseOperations: int)

  const MsPerDay: int := 86_400_000

  /** The largest distance from the epoch, in milliseconds, at which a
      JavaScript Date is valid; `toISOString` throws beyond it. */
  const MaxTimeMs: int := 8_640_000_000_000_000

  /** The day numbers of the first and last valid dates. */
  const MaxDay: int := 100_000_000

  predicate ValidTime(t: int)
  {
    -MaxTimeMs <= t <= MaxTimeMs
  }

  /** The calendar day of a timestamp: the day whose first millisecond is
      at or before `t` and whose successor's is after it. */
  function Day(t: int): (d: int)
    ensures MsPerDay * d <= t < MsPerDay * (d + 1)
  {
    t / MsPerDay
  }

  /** The map a `forEach(op => m.set(op.t, op.v))` leaves behind. */
  function SeriesMap(series: seq<Point>): (m: map<int, int>)
    ensures forall i :: 0 <= i < |series| ==> series[i].t in m
    ensures series != [] ==> m[series[|series| - 1].t] == series[|series| - 1].v
    decreases |series|
  {
    if series == [] then map[]
    else SeriesMap(series[..|series| - 1])[series[|series| - 1].t := series[|series| - 1].v]
  }

  /** `v` is the value of the last sample of `series` taken at `t`. */
  ghost predicate LastEntry(series: seq<Point>, t: int, v: int)
  {
    exists i :: 0 <= i < |series| && series[i].t == t && series[i].v == v &&
      forall j :: i < j < |series| ==> series[j].t != t
  }

  /** `v` is what a series contributes to the row at `t`: its last value
      there, or 0 when it has no sample at `t`. */
  ghost predicate SeriesValue(series: seq<Point>, t: int, v: int)
  {
    LastEntry(series, t, v) || ((forall i :: 0 <= i < |series| ==> series[i].t != t) && v == 0)
  }

  /** A series map holds exactly the timestamps of the series, and at each
      the value of the last sample taken there. */
  lemma {:induction false} SeriesMapLastWins(series: seq<Point>, t: int)
    ensures t in SeriesMap(series) <==> exists i :: 0 <= i < |series| && series[i].t == t
    ensures t in SeriesMap(series) ==> LastEntry(series, t, SeriesMap(series)[t])
    decreases |series|
  {
    if series != [] {
      var n := |series| - 1;
      var p := series[..n];
      SeriesMapLastWins(p, t);
      assert forall i :: 0 <= i < n ==> p[i] == series[i];
      if series[n].t == t {
        assert series[n].t == t && series[n].v == SeriesMap(series)[t];
      } else if t in SeriesMap(p) {
        var i :| 0 <= i < n && p[i].t == t && p[i].v == SeriesMap(p)[t] &&
          forall j :: i < j < n ==> p[j].t != t;
        assert series[i].t == t && series[i].v == SeriesMap(series)[t];
      }
    }
  }

  /** `m.get(t) || 0`: the stored value, or 0 when there is none (a stored
      0 also yields 0, which is the same number). */
  function ValueAt(m: map<int, int>, t: int): (v: int)
    ensures t in m ==> v == m[t]
    ensures t !in m ==> v == 0
  {
    if t in m then m[t] else 0
  }

  /** Looking a timestamp up in a series map gives the series' value there. */
  lemma SeriesValueAt(series: seq<Point>, t: int)
    ensures SeriesValue(series, t, ValueAt(SeriesMap(series), t))
  {
    SeriesMapLastWins(series, t);
  }

  /** The `forEach` loop that fills one map from one series. */
  method CollectSeries(series: seq<Point>) returns (m: map<int, int>)
    ensures m == SeriesMap(series)
  {
    m := map[];
    var i := 0;
    while i < |series|
      invariant 0 <= i <= |series|
      invariant m == SeriesMap(series[..i])
    {
      assert series[..i + 1][..i] == series[..i];
      m := m[series[i].t := series[i].v];
      i := i + 1;
    }
    assert series[..|series|] == series;
  }

  /** `records.map(...)`: one row per sample of the records series. */
  function MergeRows(records: seq<Point>, add: map<int, int>, delete: map<int, int>, browse: map<int, int>): (rows: seq<UsageRow>)
    ensures |rows| == |records|
  {
    seq(|records|, i requires 0 <= i < |records| =>
      UsageRow(Day(records[i].t), records[i].v,
               ValueAt(add, records[i].t), ValueAt(delete, records[i].t), ValueAt(browse, records[i].t)))
  }

  /** Every field the merge reads is present and every timestamp of the
      records series is a valid date. */
  predicate WellFormed(body: UsageBody)
    ensures WellFormed(body) ==>
      && body.records.Some?
      && forall i :: 0 <= i < |body.records.value| ==> -MaxDay <= Day(body.records.value[i].t) <= MaxDay
  {
    && body.records.Some?
    && body.addRecordOperations.Some?
    && body.deleteRecordOperations.Some?
    && body.browseOperations.Some?
    && forall i :: 0 <= i < |body.records.value| ==> ValidTime(body.records.value[i].t)
  }

  /** The rows the success path of `fetchLogs` stores, or None where it
      throws inside its `try` (a missing field, an invalid date). */
  function UsageRows(body: UsageBody): (rows: Option<seq<UsageRow>>)
    ensures rows.None? <==> !WellFormed(body)
    ensures rows.Some? ==> |rows.value| == |body.records.value|
    ensures rows.Some? ==> forall i :: 0 <= i < |rows.value| ==>
      rows.value[i].day == Day(body.records.value[i].t) && rows.value[i].totalRecords == body.records.value[i].v
  {
    if WellFormed(body) then
      Some(MergeRows(body.records.value, SeriesMap(body.addRecordOperations.value),
                     SeriesMap(body.deleteRecordOperations.value), SeriesMap(body.browseOperations.value)))
    else None
  }

  /** What the merged rows are, stated against the series themselves: one
      row per records sample, in order, carrying its day and value, and each
      operation count the last value of that series at the same timestamp,
      or 0. The merge fails exactly on a malformed body. */
  lemma UsageRowsSpec(body: UsageBody)
    ensures UsageRows(body).None? <==> !WellFormed(body)
    ensures UsageRows(body).Some? ==>
      var recs, rows := body.records.value, UsageRows(body).value;
      && |rows| == |recs|
      && forall i :: 0 <= i < |rows| ==>
           && rows[i].day == Day(recs[i].t)
           && rows[i].totalRecords == recs[i].v
           && SeriesValue(body.addRecordOperations.value, recs[i].t, rows[i].addRecordOperations)
           && SeriesValue(body.deleteRecordOperations.value, recs[i].t, rows[i].deleteRecordOperations)
           && SeriesValue(body.browseOperations.value, recs[i].t, rows[i].browseOperations)
  {
    if WellFormed(body) {
      var recs := body.records.value;
      forall i | 0 <= i < |recs|
        ensures SeriesValue(body.addRecordOperations.value, recs[i].t, ValueAt(SeriesMap(body.addRecordOperations.value), recs[i].t))
        ensures SeriesValue(body.deleteRecordOperations.value, recs[i].t, ValueAt(SeriesMap(body.deleteRecordOperations.value), recs[i].t))
        ensures SeriesValue(body.browseOperations.value, recs[i].t, ValueAt(SeriesMap(body.browseOperations.value), recs[i].t))
      {
        SeriesValueAt(body.addRecordOperations.value, recs[i].t);
        SeriesValueAt(body.deleteRecordOperations.value, recs[i].t);
        SeriesValueAt(body.browseOperations.value, recs[i].t);
      }
    }
  }

  /** A repeated timestamp: the later sample overwrites the earlier one. */
  lemma LaterSampleWins(t: int, first: int, second: int)
    ensures ValueAt(SeriesMap([Point(t, first), Point(t, second)]), t) == second
  {
    assert [Point(t, first), Point(t, second)][..1] == [Point(t, first)];
  }

  /** One records sample on day 1 with an add and a browse sample at the same
      timestamp and no delete sample: the row carries 5 adds, 0 deletes and
      2 browses. */
  lemma MergeExample()
    ensures UsageRows(UsageBody(Some([Point(MsPerDay, 7)]), Some([Point(MsPerDay, 5)]),
                                Some([]), Some([Point(MsPerDay, 2)])))
         == Some([UsageRow(1, 7, 5, 0, 2)])
  {
    var recs := [Point(MsPerDay, 7)];
    assert [Point(MsPerDay, 5)][..0] == [];
    assert [Point(MsPerDay, 2)][..0] == [];
    assert SeriesMap([Point(MsPerDay, 5)]) == map[MsPerDay := 5];
    assert SeriesMap([Point(MsPerDay, 2)]) == map[MsPerDay := 2];
    assert Day(MsPerDay) == 1;
    assert SeriesMap([]) == map[];
    var body := UsageBody(Some(recs), Some([Point(MsPerDay, 5)]), Some([]), Some([Point(MsPerDay, 2)]));
    assert WellFormed(body);
    var add, del, browse := map[MsPerDay := 5], map[], map[MsPerDay := 2];
    assert MergeRows(recs, add, del, browse) == [UsageRow(1, 7, 5, 0, 2)];
  }

  /** The body of `fetchLogs` after the response arrives: fill the three
      maps, then map the records series to rows. */
  method BuildUsageRows(body: UsageBody) returns (rows: Option<seq<UsageRow>>)
    ensures rows == UsageRows(body)
  {
    if !WellFormed(body) {
      return None;
    }
    var add := CollectSeries(body.addRecordOperations.value);
    var delete := CollectSeries(body.deleteRecordOperations.value);
    var browse := CollectSeries(body.browseOperations.value);
    rows := Some(MergeRows(body.records.value, add, delete, browse));
  }
}
