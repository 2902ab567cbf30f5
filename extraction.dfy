/** The training-set builder's feature extractor: hourly window end-times over the sensor
    log, a three-hour window per zone, four aggregates per window and the threshold risk
    label. */
module Extraction {
  import opened Zones
  import opened Seqs
  import opened Simulation

  const WINDOW_MINUTES: int := 180
  const STEP_MINUTES: int := 60
  const MIN_SAMPLES: int := 10
  const RISK_VIB: real := 0.75
  const RISK_RAIN: real := 6.0
  const RISK_TREND: real := 0.1

  datatype Option<T> = None | Some(value: T)

  // ---------------------------------------------------------------------------------
  // Window selection.

  /** A record lies in the window ending at `t` when it is stamped in (t - 180, t]. */
  predicate InWindow(t: int, r: Record)
  {
    t - WINDOW_MINUTES < r.ts <= t
  }

  function WindowTest(t: int): Record -> bool
  {
    (r: Record) => InWindow(t, r)
  }

  function ZoneTest(id: string): Record -> bool
  {
    (r: Record) => r.zoneId == id
  }

  /** The records of the window ending at `t`, in log order (one conjunctive mask). */
  function Window(log: seq<Record>, t: int): seq<Record>
  {
    Filter(log, WindowTest(t))
  }

  /** The records of one zone, in the order of `window`. */
  function ZoneSlice(window: seq<Record>, id: string): seq<Record>
  {
    Filter(window, ZoneTest(id))
  }

  /** Zone `id`'s part of the window ending at `t`: exactly the log's records of that zone
      stamped in (t - 180, t], and never more records than the log has. */
  function Slice(log: seq<Record>, t: int, id: string): (zdf: seq<Record>)
    ensures |zdf| <= |log|
    ensures forall r :: r in zdf <==> r in log && t - WINDOW_MINUTES < r.ts && r.ts <= t && r.zoneId == id
  {
    ZoneSlice(Window(log, t), id)
  }

  /** Timestamps strictly increase along `s`. */
  predicate Chronological(s: seq<Record>)
  {
    forall i, j :: 0 <= i < j < |s| ==> s[i].ts < s[j].ts
  }

  /** In a log whose per-zone timestamps increase, each zone's window slice is in time
      order, so its first and last rows are its earliest and latest samples. */
  lemma SliceChronological(log: seq<Record>, t: int, id: string)
    requires ZoneOrdered(log)
    ensures Chronological(Slice(log, t, id))
  {
    var rel := (a: Record, b: Record) => a.zoneId == b.zoneId ==> a.ts < b.ts;
    var window := Window(log, t);
    FilterPreservesPairs(log, WindowTest(t), rel);
    FilterPreservesPairs(window, ZoneTest(id), rel);
    var zdf := Slice(log, t, id);
    forall i, j | 0 <= i < j < |zdf|
      ensures zdf[i].ts < zdf[j].ts
    {
      assert zdf[i] in zdf && zdf[j] in zdf;
      assert rel(zdf[i], zdf[j]);
    }
  }

  /** A chronological run of integer timestamps spans at least one minute per step. */
  lemma {:induction false} ChronologicalSpan(s: seq<Record>)
    requires Chronological(s) && |s| > 0
    ensures s[0].ts + (|s| - 1) <= s[|s| - 1].ts
    decreases |s|
  {
    if |s| > 1 {
      var front := s[..|s| - 1];
      assert Chronological(front) by {
        forall i, j | 0 <= i < j < |front|
          ensures front[i].ts < front[j].ts
        {
          assert front[i] == s[i] && front[j] == s[j];
        }
      }
      ChronologicalSpan(front);
      assert front[0] == s[0] && front[|front| - 1] == s[|s| - 2];
    }
  }

  /** With one sample per zone per minute at most, a zone's window holds at most 180
      records. */
  lemma WindowCapacity(log: seq<Record>, t: int, id: string)
    requires ZoneOrdered(log)
    ensures |Slice(log, t, id)| <= WINDOW_MINUTES
  {
    var zdf := Slice(log, t, id);
    if |zdf| > 0 {
      SliceChronological(log, t, id);
      ChronologicalSpan(zdf);
      assert zdf[0] in zdf && zdf[|zdf| - 1] in zdf;
    }
  }

  /** Every window slice of a simulated log is in time order and holds at most 180
      records. */
  lemma SimulatedWindow(zones: seq<Zone>, draws: seq<TickDraws>, minutes: nat, t: int, id: string)
    requires DistinctIds(zones) && Shaped(draws, |zones|) && minutes <= |draws|
    ensures var zdf := Slice(Run(zones, draws, minutes).log, t, id);
      Chronological(zdf) && |zdf| <= WINDOW_MINUTES
  {
    var log := Run(zones, draws, minutes).log;
    LogShape(zones, draws, minutes);
    SliceChronological(log, t, id);
    WindowCapacity(log, t, id);
  }

  // ---------------------------------------------------------------------------------
  // Aggregates and the label.

  function Vibrations(zdf: seq<Record>): seq<real>
  {
    seq(|zdf|, i requires 0 <= i < |zdf| => zdf[i].vibration)
  }

  function Rainfalls(zdf: seq<Record>): seq<real>
  {
    seq(|zdf|, i requires 0 <= i < |zdf| => zdf[i].rainfall)
  }

  /** The four aggregates of one zone's window. */
  datatype Stats = Stats(vibMean: real, vibMax: real, rainSum: real, dispTrend: real)

  /** Mean and maximum vibration, total rainfall, and the displacement of the last row
      minus that of the first.  The maximum is one of the samples and bounds them all,
      and the mean never exceeds it. */
  function WindowStats(zdf: seq<Record>): (st: Stats)
    requires |zdf| > 0
    ensures exists i :: 0 <= i < |zdf| && zdf[i].vibration == st.vibMax
    ensures forall i :: 0 <= i < |zdf| ==> zdf[i].vibration <= st.vibMax
    ensures st.vibMean <= st.vibMax
    ensures st.dispTrend == zdf[|zdf| - 1].displacement - zdf[0].displacement
  {
    var v := Vibrations(zdf);
    MeanAtMostMax(v);
    assert forall i :: 0 <= i < |zdf| ==> zdf[i].vibration == v[i] && v[i] in v;
    Stats(Mean(v), Max(v), Sum(Rainfalls(zdf)), zdf[|zdf| - 1].displacement - zdf[0].displacement)
  }

  /** Over a log whose records keep the simulator's bounds, every non-empty window has
      its mean and maximum vibration in [0.1, 0.9] and its total rainfall between 0 and
      5 per sample. */
  lemma StatsBounds(log: seq<Record>, t: int, id: string)
    requires BoundedFrom(log, 0) && |Slice(log, t, id)| > 0
    ensures 0.1 <= WindowStats(Slice(log, t, id)).vibMean <= 0.9
    ensures 0.1 <= WindowStats(Slice(log, t, id)).vibMax <= 0.9
    ensures 0.0 <= WindowStats(Slice(log, t, id)).rainSum <= 5.0 * (|Slice(log, t, id)| as real)
  {
    var zdf := Slice(log, t, id);
    forall i | 0 <= i < |zdf|
      ensures SampleBounded(zdf[i])
    {
      assert zdf[i] in log;
      var k :| 0 <= k < |log| && log[k] == zdf[i];
    }
    SliceStatsBounds(zdf);
  }

  predicate SampleBounded(r: Record)
  {
    0.1 <= r.vibration <= 0.9 && 0.0 <= r.rainfall <= 5.0
  }

  lemma SliceStatsBounds(zdf: seq<Record>)
    requires |zdf| > 0 && forall i :: 0 <= i < |zdf| ==> SampleBounded(zdf[i])
    ensures 0.1 <= WindowStats(zdf).vibMean <= 0.9 && 0.1 <= WindowStats(zdf).vibMax <= 0.9
    ensures 0.0 <= WindowStats(zdf).rainSum <= 5.0 * (|zdf| as real)
  {
    var v := Vibrations(zdf);
    var rain := Rainfalls(zdf);
    forall x | x in v
      ensures 0.1 <= x <= 0.9
    {
      var i :| 0 <= i < |v| && v[i] == x;
      assert SampleBounded(zdf[i]);
    }
    forall x | x in rain
      ensures 0.0 <= x <= 5.0
    {
      var i :| 0 <= i < |rain| && rain[i] == x;
      assert SampleBounded(zdf[i]);
    }
    MeanWithin(v, 0.1, 0.9);
    SumAtMost(rain, 5.0);
    SumAtLeast(rain, 0.0);
  }

  /** The training label: 1 exactly when all three aggregates strictly exceed their
      thresholds, so a value on any threshold gives 0. */
  function Risk(st: Stats): (risk: int)
    ensures risk == 0 || risk == 1
    ensures risk == 1 <==> st.vibMax > RISK_VIB && st.rainSum > RISK_RAIN && st.dispTrend > RISK_TREND
    ensures st.vibMax == RISK_VIB || st.rainSum == RISK_RAIN || st.dispTrend == RISK_TREND ==> risk == 0
  {
    if st.vibMax > RISK_VIB && st.rainSum > RISK_RAIN && st.dispTrend > RISK_TREND then 1 else 0
  }

  /** The label is monotone: raising any aggregate never lowers it. */
  lemma RiskMonotone(a: Stats, b: Stats)
    requires a.vibMax <= b.vibMax && a.rainSum <= b.rainSum && a.dispTrend <= b.dispTrend
    ensures Risk(a) <= Risk(b)
  {
  }

  /** One training row: end-time, zone, the four aggregates, the zone's static attributes
      and the label. */
  datatype FeatureRow = FeatureRow(time: int, zoneId: string, vibMean: real, vibMax: real, rainSum: real, dispTrend: real,
                                   slope: int, bench: int, rock: RockClass, x: int, y: int, risk: int)

  function RowStats(row: FeatureRow): Stats
  {
    Stats(row.vibMean, row.vibMax, row.rainSum, row.dispTrend)
  }

  /** The row of zone `z` for the window slice `zdf` ending at `t`: the static attributes
      are the registry's, the aggregates are the slice's and the label is their risk. */
  function MakeRow(t: int, z: Zone, zdf: seq<Record>): (row: FeatureRow)
    requires |zdf| > 0
    ensures row.time == t && row.zoneId == z.id
    ensures row.slope == z.slope && row.bench == z.bench && row.rock == z.rock && row.x == z.x && row.y == z.y
    ensures RowStats(row) == WindowStats(zdf)
    ensures row.vibMean <= row.vibMax
    ensures row.risk == 1 <==> row.vibMax > RISK_VIB && row.rainSum > RISK_RAIN && row.dispTrend > RISK_TREND
    ensures row.risk == 0 || row.risk == 1
  {
    var st := WindowStats(zdf);
    FeatureRow(t, z.id, st.vibMean, st.vibMax, st.rainSum, st.dispTrend, z.slope, z.bench, z.rock, z.x, z.y, Risk(st))
  }

  /** Zone `z`'s row for the window ending at `t`, or none when the window holds fewer
      than ten of its samples. */
  function ZoneRow(log: seq<Record>, t: int, z: Zone): Option<FeatureRow>
  {
    var zdf := Slice(log, t, z.id);
    if |zdf| < MIN_SAMPLES then None else Some(MakeRow(t, z, zdf))
  }

  function AsSeq<T>(o: Option<T>): seq<T>
  {
    match o
    case None => []
    case Some(v) => [v]
  }

  /** The rows of the window ending at `t`, zone by zone in the order of `zs`: at most one
      per zone, all stamped `t`. */
  function RowsAt(log: seq<Record>, t: int, zs: seq<Zone>): (rows: seq<FeatureRow>)
    ensures |rows| <= |zs|
    ensures forall row :: row in rows ==> row.time == t
    decreases |zs|
  {
    if zs == [] then []
    else
      var k := |zs| - 1;
      RowsAt(log, t, zs[..k]) + AsSeq(ZoneRow(log, t, zs[k]))
  }

  function EnoughTest(log: seq<Record>, t: int): Zone -> bool
  {
    (z: Zone) => |Slice(log, t, z.id)| >= MIN_SAMPLES
  }

  /** The zones with at least ten samples in the window ending at `t`, in registry order. */
  function Qualified(log: seq<Record>, t: int, zs: seq<Zone>): (q: seq<Zone>)
    ensures forall z :: z in q <==> z in zs && |Slice(log, t, z.id)| >= MIN_SAMPLES
  {
    Filter(zs, EnoughTest(log, t))
  }

  /** `row` is zone `z`'s row for the window ending at `t`: the zone has at least ten
      samples there and `row` is built from them. */
  predicate RowOf(log: seq<Record>, t: int, z: Zone, row: FeatureRow)
  {
    var zdf := Slice(log, t, z.id);
    |zdf| >= MIN_SAMPLES && row == MakeRow(t, z, zdf)
  }

  /** The rows at `t` are exactly one per qualifying zone, in registry order, each built
      from its zone's window. */
  lemma {:induction false} RowsAtQualified(log: seq<Record>, t: int, zs: seq<Zone>)
    ensures |RowsAt(log, t, zs)| == |Qualified(log, t, zs)|
    ensures forall i :: 0 <= i < |Qualified(log, t, zs)| ==> RowOf(log, t, Qualified(log, t, zs)[i], RowsAt(log, t, zs)[i])
    decreases |zs|
  {
    if zs != [] {
      var k := |zs| - 1;
      var front := zs[..k];
      RowsAtQualified(log, t, front);
      QualifiedStep(log, t, zs);
      var rows := RowsAt(log, t, zs);
      var rf := RowsAt(log, t, front);
      var q := Qualified(log, t, zs);
      var qf := Qualified(log, t, front);
      forall i | 0 <= i < |q|
        ensures RowOf(log, t, q[i], rows[i])
      {
        if i < |qf| {
          assert rows[i] == rf[i] && q[i] == qf[i];
        }
      }
    }
  }

  /** The last zone adds one row and one qualified zone, or neither. */
  lemma QualifiedStep(log: seq<Record>, t: int, zs: seq<Zone>)
    requires zs != []
    ensures
      var k := |zs| - 1;
      var zdf := Slice(log, t, zs[k].id);
      if |zdf| >= MIN_SAMPLES then
        && RowsAt(log, t, zs) == RowsAt(log, t, zs[..k]) + [MakeRow(t, zs[k], zdf)]
        && Qualified(log, t, zs) == Qualified(log, t, zs[..k]) + [zs[k]]
      else
        && RowsAt(log, t, zs) == RowsAt(log, t, zs[..k])
        && Qualified(log, t, zs) == Qualified(log, t, zs[..k])
  {
  }

  lemma ZoneRowOf(log: seq<Record>, t: int, z: Zone, row: FeatureRow)
    ensures row in AsSeq(ZoneRow(log, t, z)) <==> RowOf(log, t, z, row)
  {
  }

  /** Every row of the window ending at `t` is the row of one of its zones. */
  lemma {:induction false} RowsAtSound(log: seq<Record>, t: int, zs: seq<Zone>, row: FeatureRow)
    requires row in RowsAt(log, t, zs)
    ensures exists z :: z in zs && RowOf(log, t, z, row)
    decreases |zs|
  {
    var k := |zs| - 1;
    var front := zs[..k];
    assert zs[..k + 1] == zs;
    RowsAtExtend(log, t, zs, k);
    ZoneRowOf(log, t, zs[k], row);
    if row in RowsAt(log, t, front) {
      RowsAtSound(log, t, front, row);
      var z :| z in front && RowOf(log, t, z, row);
      assert z in zs;
    } else {
      assert zs[k] in zs;
    }
  }

  /** Every zone with at least ten samples in the window ending at `t` has its row there. */
  lemma {:induction false} RowsAtComplete(log: seq<Record>, t: int, zs: seq<Zone>, i: nat, row: FeatureRow)
    requires i < |zs| && RowOf(log, t, zs[i], row)
    ensures row in RowsAt(log, t, zs)
    decreases |zs|
  {
    var k := |zs| - 1;
    RowsAtExtend(log, t, zs, k);
    assert zs[..k + 1] == zs;
    if i == k {
      ZoneRowOf(log, t, zs[k], row);
    } else {
      var front := zs[..k];
      assert front[i] == zs[i];
      RowsAtComplete(log, t, front, i, row);
    }
  }

  /** A row belongs to the window ending at `t` exactly when it is the row of one of the
      zones with at least ten samples there: a zone below ten contributes nothing. */
  lemma RowsAtMembership(log: seq<Record>, t: int, zs: seq<Zone>, row: FeatureRow)
    ensures row in RowsAt(log, t, zs) <==> exists z :: z in zs && RowOf(log, t, z, row)
  {
    if row in RowsAt(log, t, zs) {
      RowsAtSound(log, t, zs, row);
    }
    if exists z :: z in zs && RowOf(log, t, z, row) {
      var z :| z in zs && RowOf(log, t, z, row);
      var i :| 0 <= i < |zs| && zs[i] == z;
      RowsAtComplete(log, t, zs, i, row);
    }
  }

  // ---------------------------------------------------------------------------------
  // End-times.

  /** The earliest timestamp of a non-empty log. */
  function MinTs(log: seq<Record>): (m: int)
    requires |log| > 0
    ensures exists i :: 0 <= i < |log| && log[i].ts == m
    ensures forall i :: 0 <= i < |log| ==> m <= log[i].ts
    decreases |log|
  {
    if |log| == 1 then log[0].ts
    else
      var k := |log| - 1;
      var rest := MinTs(log[..k]);
      assert forall i :: 0 <= i < k ==> log[..k][i] == log[i];
      if log[k].ts < rest then log[k].ts else rest
  }

  /** The latest timestamp of a non-empty log. */
  function MaxTs(log: seq<Record>): (m: int)
    requires |log| > 0
    ensures exists i :: 0 <= i < |log| && log[i].ts == m
    ensures forall i :: 0 <= i < |log| ==> log[i].ts <= m
    decreases |log|
  {
    if |log| == 1 then log[0].ts
    else
      var k := |log| - 1;
      var rest := MaxTs(log[..k]);
      assert forall i :: 0 <= i < k ==> log[..k][i] == log[i];
      if log[k].ts > rest then log[k].ts else rest
  }

  /** The times `lo`, `lo + 60`, ... up to and including `hi`: empty exactly when
      `lo > hi`, otherwise ending at the last step that does not pass `hi`. */
  function Steps(lo: int, hi: int): (ts: seq<int>)
    ensures ts == [] <==> lo > hi
    ensures forall i :: 0 <= i < |ts| ==> ts[i] == lo + STEP_MINUTES * i
    ensures ts != [] ==> hi - STEP_MINUTES < ts[|ts| - 1] <= hi
    decreases hi - lo + STEP_MINUTES
  {
    if lo > hi then [] else [lo] + Steps(lo + STEP_MINUTES, hi)
  }

  /** The window end-times: from the earliest timestamp plus three hours to the latest, in
      one-hour steps; none for an empty log (whose minimum and maximum are undefined, so
      the loop condition is never true). */
  function EndTimes(log: seq<Record>): seq<int>
  {
    if log == [] then [] else Steps(MinTs(log) + WINDOW_MINUTES, MaxTs(log))
  }

  /** A simulated run of at least one minute over at least one zone has its end-times at
      minutes 180, 240, ... up to its last minute. */
  lemma SimulatedEndTimes(zones: seq<Zone>, draws: seq<TickDraws>, minutes: nat)
    requires DistinctIds(zones) && |zones| > 0 && Shaped(draws, |zones|) && 0 < minutes <= |draws|
    ensures EndTimes(Run(zones, draws, minutes).log) == Steps(WINDOW_MINUTES, minutes - 1)
  {
    var log := Run(zones, draws, minutes).log;
    LogShape(zones, draws, minutes);
    MinuteStamped(zones, draws, minutes, 0);
    MinuteStamped(zones, draws, minutes, minutes - 1);
    EndTimesOfSpan(log, 0, minutes - 1, Offset(0, |zones|), Offset(minutes - 1, |zones|));
  }

  /** A log whose timestamps lie in [lo, hi] and reach both ends has its end-times from
      `lo + 180` to `hi`. */
  lemma EndTimesOfSpan(log: seq<Record>, lo: int, hi: int, first: nat, last: nat)
    requires first < |log| && last < |log| && log[first].ts == lo && log[last].ts == hi
    requires forall i :: 0 <= i < |log| ==> lo <= log[i].ts <= hi
    ensures EndTimes(log) == Steps(lo + WINDOW_MINUTES, hi)
  {
    assert MinTs(log) == lo;
    assert MaxTs(log) == hi;
  }

  /** The first record of minute `m` of a simulated log is stamped `m`. */
  lemma MinuteStamped(zones: seq<Zone>, draws: seq<TickDraws>, minutes: nat, m: nat)
    requires DistinctIds(zones) && |zones| > 0 && Shaped(draws, |zones|) && m < minutes <= |draws|
    ensures var log := Run(zones, draws, minutes).log;
      Offset(m, |zones|) < |log| && log[Offset(m, |zones|)].ts == m
  {
    LogRecord(zones, draws, minutes, m, 0);
  }

  // ---------------------------------------------------------------------------------
  // The batch table.

  /** The rows of the windows ending at each of `times`, window by window. */
  function RowsFor(log: seq<Record>, zones: seq<Zone>, times: seq<int>): seq<FeatureRow>
    decreases |times|
  {
    if times == [] then []
    else
      var k := |times| - 1;
      RowsFor(log, zones, times[..k]) + RowsAt(log, times[k], zones)
  }

  /** The training table built from the log. */
  function BatchRows(log: seq<Record>, zones: seq<Zone>): seq<FeatureRow>
  {
    RowsFor(log, zones, EndTimes(log))
  }

  /** A row is in the table for `times` exactly when its end-time is one of `times` and it
      is one of that window's rows. */
  lemma {:induction false} RowsForMembership(log: seq<Record>, zones: seq<Zone>, times: seq<int>, row: FeatureRow)
    ensures row in RowsFor(log, zones, times) <==> row.time in times && row in RowsAt(log, row.time, zones)
    decreases |times|
  {
    if times != [] {
      var k := |times| - 1;
      RowsForMembership(log, zones, times[..k], row);
      var last := RowsAt(log, times[k], zones);
      assert RowsFor(log, zones, times) == RowsFor(log, zones, times[..k]) + last;
      assert times == times[..k] + [times[k]];
      assert row in last ==> row.time == times[k];
    }
  }

  /** One more zone adds that zone's row, if any, to the rows of a window. */
  lemma RowsAtExtend(log: seq<Record>, t: int, zs: seq<Zone>, j: nat)
    requires j < |zs|
    ensures RowsAt(log, t, zs[..j + 1]) == RowsAt(log, t, zs[..j]) + AsSeq(ZoneRow(log, t, zs[j]))
  {
    assert zs[..j + 1][..j] == zs[..j];
  }

  /** One step of the per-zone loop over the window ending at `t`: zone `zones[j]` adds
      its row exactly when its slice of the window has at least ten samples. */
  lemma WindowRowsStep(log: seq<Record>, t: int, zones: seq<Zone>, j: nat, window: seq<Record>, rows: seq<FeatureRow>)
    requires j < |zones| && window == Window(log, t) && rows == RowsAt(log, t, zones[..j])
    ensures |ZoneSlice(window, zones[j].id)| < MIN_SAMPLES ==> RowsAt(log, t, zones[..j + 1]) == rows
    ensures |ZoneSlice(window, zones[j].id)| >= MIN_SAMPLES ==>
      RowsAt(log, t, zones[..j + 1]) == rows + [MakeRow(t, zones[j], ZoneSlice(window, zones[j].id))]
  {
    RowsAtExtend(log, t, zones, j);
  }

  /** One more end-time adds that window's rows to the table. */
  lemma RowsForExtend(log: seq<Record>, zones: seq<Zone>, times: seq<int>, k: nat)
    requires k < |times|
    ensures RowsFor(log, zones, times[..k + 1]) == RowsFor(log, zones, times[..k]) + RowsAt(log, times[k], zones)
  {
    assert times[..k + 1][..k] == times[..k];
  }

  /** The body of the extraction loop for one end-time `t`: for each zone in registry
      order, the zone's window slice is aggregated and labelled, unless it has fewer than
      ten samples. */
  method WindowRows(log: seq<Record>, zones: seq<Zone>, t: int) returns (rows: seq<FeatureRow>)
    ensures rows == RowsAt(log, t, zones)
  {
    rows := [];
    var window := Window(log, t);
    for j := 0 to |zones|
      invariant rows == RowsAt(log, t, zones[..j])
    {
      var z := zones[j];
      var zdf := ZoneSlice(window, z.id);
      WindowRowsStep(log, t, zones, j, window, rows);
      if |zdf| < MIN_SAMPLES {
        continue;
      }
      rows := rows + [MakeRow(t, z, zdf)];
    }
    assert zones[..|zones|] == zones;
  }

  /** The extraction loop: the end-time advances hour by hour from the earliest timestamp
      plus three hours to the latest, and each window's rows are appended to the table. */
  method ExtractBatch(log: seq<Record>, zones: seq<Zone>) returns (rows: seq<FeatureRow>)
    ensures rows == BatchRows(log, zones)
  {
    rows := [];
    if log == [] {
      return;
    }
    var start := MinTs(log) + WINDOW_MINUTES;
    var end := MaxTs(log);
    var current := start;
    ghost var times := EndTimes(log);
    assert times == Steps(start, end);
    ghost var k := 0;
    while current <= end
      invariant k <= |times| && current == start + STEP_MINUTES * k
      invariant k == |times| ==> current > end
      invariant rows == RowsFor(log, zones, times[..k])
      decreases end - current
    {
      var windowRows := WindowRows(log, zones, current);
      assert times[k] == current;
      RowsForExtend(log, zones, times, k);
      rows := rows + windowRows;
      k := k + 1;
      current := current + STEP_MINUTES;
    }
    assert times[..k] == times;
  }

  // ---------------------------------------------------------------------------------
  // The training builder over the site registry.

  /** Every training row over a log that keeps the simulator's bounds and per-zone order
      has its vibration aggregates in [0.1, 0.9] and its total rainfall in [0, 900]. */
  lemma RowBounds(log: seq<Record>, zones: seq<Zone>, row: FeatureRow)
    requires BoundedFrom(log, 0) && ZoneOrdered(log) && row in BatchRows(log, zones)
    ensures 0.1 <= row.vibMean <= 0.9 && 0.1 <= row.vibMax <= 0.9
    ensures 0.0 <= row.rainSum <= 5.0 * (WINDOW_MINUTES as real)
  {
    RowsForMembership(log, zones, EndTimes(log), row);
    RowsAtSound(log, row.time, zones, row);
    var z :| z in zones && RowOf(log, row.time, z, row);
    var zdf := Slice(log, row.time, z.id);
    StatsBounds(log, row.time, z.id);
    WindowCapacity(log, row.time, z.id);
    assert RowStats(row) == WindowStats(zdf);
  }

  /** The training builder as one run: the simulator and the extractor both walk the
      site's five zones. The log is the run of the draws, the table is its hourly window
      rows, the end-times are minutes 180, 240, ... and every row's aggregates lie in the
      simulator's ranges. */
  method BuildDataset(draws: seq<TickDraws>, minutes: nat) returns (log: seq<Record>, rows: seq<FeatureRow>)
    requires minutes <= |draws|
    requires forall m :: 0 <= m < |draws| ==> InRange(draws[m], |Registry()|)
    ensures Shaped(draws, |Registry()|)
    ensures log == Run(Registry(), draws, minutes).log && |log| == 5 * minutes
    ensures rows == BatchRows(log, Registry())
    ensures minutes > 0 ==> EndTimes(log) == Steps(WINDOW_MINUTES, minutes - 1)
    ensures forall row :: row in rows ==>
      && 0.1 <= row.vibMean <= 0.9 && 0.1 <= row.vibMax <= 0.9
      && 0.0 <= row.rainSum <= 5.0 * (WINDOW_MINUTES as real)
  {
    var zones := Registry();
    LogBounds(zones, draws, minutes);
    log := GenerateLog(zones, draws, minutes);
    rows := ExtractBatch(log, zones);
    LogShape(zones, draws, minutes);
    if minutes > 0 {
      SimulatedEndTimes(zones, draws, minutes);
    }
    forall row | row in rows
      ensures 0.1 <= row.vibMean <= 0.9 && 0.1 <= row.vibMax <= 0.9
      ensures 0.0 <= row.rainSum <= 5.0 * (WINDOW_MINUTES as real)
    {
      RowBounds(log, zones, row);
    }
  }
}
