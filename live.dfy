/** The live risk-map loop: the same hourly end-times as the training-set builder, each
    window selected in two steps (the history up to now, then its last three hours), one
    feature entry per zone with at least ten samples, and the seven-column input the
    classifier is given. */
module Live {
  import opened Zones
  import opened Seqs
  import opened Simulation
  import opened Extraction

  // ---------------------------------------------------------------------------------
  // Two-step window selection.

  function HistoryTest(t: int): Record -> bool
  {
    (r: Record) => r.ts <= t
  }

  function RecentTest(t: int): Record -> bool
  {
    (r: Record) => r.ts > t - WINDOW_MINUTES
  }

  /** All records up to and including `t`. */
  function History(log: seq<Record>, t: int): seq<Record>
  {
    Filter(log, HistoryTest(t))
  }

  /** The records of `history` later than `t - 180`. */
  function Recent(history: seq<Record>, t: int): seq<Record>
  {
    Filter(history, RecentTest(t))
  }

  /** Cutting the history at `t` and then keeping its last three hours selects the same
      records, in the same order, as the training builder's single conjunctive mask. */
  lemma {:induction false} TwoStepWindow(log: seq<Record>, t: int)
    ensures Recent(History(log, t), t) == Window(log, t)
  {
    FilterTwice(log, HistoryTest(t), RecentTest(t), WindowTest(t));
  }

  // ---------------------------------------------------------------------------------
  // Feature entries.

  /** One live feature entry: the zone, the four window aggregates and the zone's static
      attributes (no end-time and no label). */
  datatype LiveFeature = LiveFeature(zoneId: string, vibMean: real, vibMax: real, rainSum: real, dispTrend: real,
                                     slope: int, bench: int, rock: RockClass, x: int, y: int)

  /** The entry of zone `z` for its window slice `zdf`. */
  function Feature(z: Zone, zdf: seq<Record>): LiveFeature
    requires |zdf| > 0
  {
    var st := WindowStats(zdf);
    LiveFeature(z.id, st.vibMean, st.vibMax, st.rainSum, st.dispTrend, z.slope, z.bench, z.rock, z.x, z.y)
  }

  /** Zone `z`'s entry at `t`, or none when its two-step window holds fewer than ten of
      its samples. */
  function ZoneFeature(log: seq<Record>, t: int, z: Zone): Option<LiveFeature>
  {
    var zdf := ZoneSlice(Recent(History(log, t), t), z.id);
    if |zdf| < MIN_SAMPLES then None else Some(Feature(z, zdf))
  }

  /** The entries at `t`, zone by zone in the order of `zs`: at most one per zone. */
  function FeaturesAt(log: seq<Record>, t: int, zs: seq<Zone>): (fs: seq<LiveFeature>)
    ensures |fs| <= |zs|
    decreases |zs|
  {
    if zs == [] then []
    else
      var k := |zs| - 1;
      FeaturesAt(log, t, zs[..k]) + AsSeq(ZoneFeature(log, t, zs[k]))
  }

  /** A training row without its end-time and label. */
  function AsLive(row: FeatureRow): LiveFeature
  {
    LiveFeature(row.zoneId, row.vibMean, row.vibMax, row.rainSum, row.dispTrend, row.slope, row.bench, row.rock, row.x, row.y)
  }

  function Project(rows: seq<FeatureRow>): seq<LiveFeature>
  {
    seq(|rows|, i requires 0 <= i < |rows| => AsLive(rows[i]))
  }

  lemma ProjectAppend(a: seq<FeatureRow>, b: seq<FeatureRow>)
    ensures Project(a + b) == Project(a) + Project(b)
  {
  }

  /** Live zone entries are the batch rows of the same zone and end-time, stripped of
      end-time and label. */
  lemma ZoneFeatureMatchesBatch(log: seq<Record>, t: int, z: Zone)
    ensures AsSeq(ZoneFeature(log, t, z)) == Project(AsSeq(ZoneRow(log, t, z)))
  {
    TwoStepWindow(log, t);
  }

  /** The live entries at `t` are exactly the training rows at `t` for the same log, with
      the same aggregates and static attributes, in the same zone order. */
  lemma {:induction false} LiveMatchesBatch(log: seq<Record>, t: int, zs: seq<Zone>)
    ensures FeaturesAt(log, t, zs) == Project(RowsAt(log, t, zs))
    decreases |zs|
  {
    if zs != [] {
      var k := |zs| - 1;
      LiveMatchesBatch(log, t, zs[..k]);
      ZoneFeatureMatchesBatch(log, t, zs[k]);
      ProjectAppend(RowsAt(log, t, zs[..k]), AsSeq(ZoneRow(log, t, zs[k])));
    }
  }

  /** The live entries at `t` come one per zone with at least ten window samples, in
      registry order; each names its zone and copies the zone's slope, bench height, rock
      class and position unchanged, and carries the aggregates of the zone's window. */
  lemma LiveEntries(log: seq<Record>, t: int, zs: seq<Zone>)
    ensures var fs := FeaturesAt(log, t, zs); var q := Qualified(log, t, zs);
      && |fs| == |q|
      && forall i :: 0 <= i < |q| ==>
        && fs[i].zoneId == q[i].id
        && fs[i].slope == q[i].slope && fs[i].bench == q[i].bench && fs[i].rock == q[i].rock
        && fs[i].x == q[i].x && fs[i].y == q[i].y
        && Stats(fs[i].vibMean, fs[i].vibMax, fs[i].rainSum, fs[i].dispTrend) == WindowStats(Slice(log, t, q[i].id))
  {
    LiveMatchesBatch(log, t, zs);
    RowsAtQualified(log, t, zs);
  }

  /** A refresh at `t` depends on the log only through its history up to `t`. */
  lemma {:induction false} FeaturesFromHistory(log: seq<Record>, observed: seq<Record>, t: int, zs: seq<Zone>)
    requires History(log, t) == History(observed, t)
    ensures FeaturesAt(log, t, zs) == FeaturesAt(observed, t, zs)
    decreases |zs|
  {
    if zs != [] {
      FeaturesFromHistory(log, observed, t, zs[..|zs| - 1]);
    }
  }

  /** The records after the first `k` minutes of a simulated log are stamped `k` or later. */
  lemma LaterMinutes(zones: seq<Zone>, draws: seq<TickDraws>, minutes: nat, k: nat)
    requires DistinctIds(zones) && Shaped(draws, |zones|) && k <= minutes <= |draws|
    ensures forall i :: Offset(k, |zones|) <= i < |Run(zones, draws, minutes).log| ==> Run(zones, draws, minutes).log[i].ts >= k
  {
    var full := Run(zones, draws, minutes).log;
    var n := Offset(k, |zones|);
    if n < |full| {
      OffsetIsProduct(minutes, |zones|);
      assert |zones| > 0;
      LogShape(zones, draws, minutes);
      MinuteStamped(zones, draws, minutes, k);
      assert forall i :: n <= i < |full| ==> full[n].ts <= full[i].ts;
    }
  }

  /** Replaying the simulation tick by tick: a refresh at `t` over the log observed after
      any `k > t` minutes equals the refresh at `t` over the complete log. */
  lemma LiveSeesObservedLog(zones: seq<Zone>, draws: seq<TickDraws>, minutes: nat, k: nat, t: int, zs: seq<Zone>)
    requires DistinctIds(zones) && Shaped(draws, |zones|) && t < k <= minutes <= |draws|
    ensures FeaturesAt(Run(zones, draws, k).log, t, zs) == FeaturesAt(Run(zones, draws, minutes).log, t, zs)
  {
    var full := Run(zones, draws, minutes).log;
    var observed := Run(zones, draws, k).log;
    var n := Offset(k, |zones|);
    RunPrefixAt(zones, draws, k, minutes);
    assert observed == full[..n];
    LaterMinutes(zones, draws, minutes, k);
    FilterIgnoresTail(full, n, HistoryTest(t));
    FeaturesFromHistory(observed, full, t, zs);
  }

  // ---------------------------------------------------------------------------------
  // Model input.

  /** The classifier's input row: exactly these seven columns, in this order. */
  datatype ModelInput = ModelInput(vibMean: real, vibMax: real, rainSum: real, dispTrend: real,
                                   slope: int, bench: int, rock: RockClass)

  function Columns(f: LiveFeature): ModelInput
  {
    ModelInput(f.vibMean, f.vibMax, f.rainSum, f.dispTrend, f.slope, f.bench, f.rock)
  }

  function Inputs(fs: seq<LiveFeature>): seq<ModelInput>
  {
    seq(|fs|, i requires 0 <= i < |fs| => Columns(fs[i]))
  }

  /** The seven feature columns of a training row. */
  function TrainingColumns(row: FeatureRow): ModelInput
  {
    ModelInput(row.vibMean, row.vibMax, row.rainSum, row.dispTrend, row.slope, row.bench, row.rock)
  }

  /** The classifier sees, at each end-time, exactly the feature columns of the training
      rows built from the same log at that end-time. */
  lemma InputsMatchTraining(log: seq<Record>, t: int, zs: seq<Zone>)
    ensures var rows := RowsAt(log, t, zs); var xs := Inputs(FeaturesAt(log, t, zs));
      && |xs| == |rows|
      && forall i :: 0 <= i < |rows| ==> xs[i] == TrainingColumns(rows[i])
  {
    var rows := RowsAt(log, t, zs);
    LiveMatchesBatch(log, t, zs);
    assert FeaturesAt(log, t, zs) == Project(rows);
    forall i | 0 <= i < |rows|
      ensures Inputs(Project(rows))[i] == TrainingColumns(rows[i])
    {
      assert Project(rows)[i] == AsLive(rows[i]);
    }
  }

  // ---------------------------------------------------------------------------------
  // The live loop.

  /** What one refresh of the map is computed from: its end-time, the entries and the
      classifier input built from them. */
  datatype Frame = Frame(time: int, features: seq<LiveFeature>, inputs: seq<ModelInput>)

  function FrameAt(log: seq<Record>, zones: seq<Zone>, t: int): Frame
  {
    var fs := FeaturesAt(log, t, zones);
    Frame(t, fs, Inputs(fs))
  }

  /** One frame per window end-time, in order. */
  function LiveFrames(log: seq<Record>, zones: seq<Zone>): seq<Frame>
  {
    var times := EndTimes(log);
    seq(|times|, i requires 0 <= i < |times| => FrameAt(log, zones, times[i]))
  }

  /** The live loop refreshes at the training builder's end-times, and the entries of the
      refresh at end-time `t` are the training rows at `t` without end-time and label. */
  lemma LiveFramesMatchBatch(log: seq<Record>, zones: seq<Zone>)
    ensures var frames := LiveFrames(log, zones); var times := EndTimes(log);
      && |frames| == |times|
      && forall i :: 0 <= i < |times| ==>
        && frames[i].time == times[i]
        && frames[i].features == Project(RowsAt(log, times[i], zones))
        && frames[i].inputs == Inputs(frames[i].features)
  {
    var times := EndTimes(log);
    forall i | 0 <= i < |times|
      ensures FeaturesAt(log, times[i], zones) == Project(RowsAt(log, times[i], zones))
    {
      LiveMatchesBatch(log, times[i], zones);
    }
  }

  lemma FeaturesAtExtend(log: seq<Record>, t: int, zs: seq<Zone>, j: nat)
    requires j < |zs|
    ensures FeaturesAt(log, t, zs[..j + 1]) == FeaturesAt(log, t, zs[..j]) + AsSeq(ZoneFeature(log, t, zs[j]))
  {
    assert zs[..j + 1][..j] == zs[..j];
  }

  /** One step of the per-zone loop of the live refresh at `t`. */
  lemma FeaturesStep(log: seq<Record>, t: int, zones: seq<Zone>, j: nat, recent: seq<Record>, fs: seq<LiveFeature>)
    requires j < |zones| && recent == Recent(History(log, t), t) && fs == FeaturesAt(log, t, zones[..j])
    ensures |ZoneSlice(recent, zones[j].id)| < MIN_SAMPLES ==> FeaturesAt(log, t, zones[..j + 1]) == fs
    ensures |ZoneSlice(recent, zones[j].id)| >= MIN_SAMPLES ==>
      FeaturesAt(log, t, zones[..j + 1]) == fs + [Feature(zones[j], ZoneSlice(recent, zones[j].id))]
  {
    FeaturesAtExtend(log, t, zones, j);
  }

  /** One refresh of the live map at end-time `t`: the history up to `t`, its last three
      hours, and one entry per zone with at least ten samples, in registry order. */
  method LiveFeaturesAt(log: seq<Record>, zones: seq<Zone>, t: int) returns (features: seq<LiveFeature>)
    ensures features == FeaturesAt(log, t, zones)
  {
    var history := History(log, t);
    var recent := Recent(history, t);
    features := [];
    for j := 0 to |zones|
      invariant features == FeaturesAt(log, t, zones[..j])
    {
      var z := zones[j];
      var zdf := ZoneSlice(recent, z.id);
      FeaturesStep(log, t, zones, j, recent, features);
      if |zdf| < MIN_SAMPLES {
        continue;
      }
      features := features + [Feature(z, zdf)];
    }
    assert zones[..|zones|] == zones;
  }

  /** The live loop: from the earliest timestamp plus three hours to the latest, hour by
      hour, one frame per refresh. */
  method RunLive(log: seq<Record>, zones: seq<Zone>) returns (frames: seq<Frame>)
    ensures frames == LiveFrames(log, zones)
  {
    frames := [];
    if log == [] {
      return;
    }
    var startTime := MinTs(log) + WINDOW_MINUTES;
    var endTime := MaxTs(log);
    var current := startTime;
    ghost var times := EndTimes(log);
    assert times == Steps(startTime, endTime);
    ghost var target := LiveFrames(log, zones);
    ghost var k := 0;
    while current <= endTime
      invariant k <= |times| && current == startTime + STEP_MINUTES * k
      invariant k == |times| ==> current > endTime
      invariant |frames| == k
      invariant forall i :: 0 <= i < k ==> frames[i] == target[i]
      decreases endTime - current
    {
      var features := LiveFeaturesAt(log, zones, current);
      var inputs := Inputs(features);
      assert times[k] == current;
      assert target[k] == Frame(current, features, inputs);
      PrefixStep(frames, target, Frame(current, features, inputs));
      frames := frames + [Frame(current, features, inputs)];
      k := k + 1;
      current := current + STEP_MINUTES;
    }
    assert k == |target|;
  }

  /** The live map over a simulated run of the site's five zones: one refresh per hour
      from minute 180 to the run's last minute, each holding the projected training rows
      of that end-time. */
  lemma SiteLiveFrames(draws: seq<TickDraws>, minutes: nat)
    requires Shaped(draws, |Registry()|) && 0 < minutes <= |draws|
    ensures var log := Run(Registry(), draws, minutes).log; var frames := LiveFrames(log, Registry());
      && |frames| == |Steps(WINDOW_MINUTES, minutes - 1)|
      && forall i :: 0 <= i < |frames| ==>
        && frames[i].time == WINDOW_MINUTES + STEP_MINUTES * i
        && frames[i].features == Project(RowsAt(log, frames[i].time, Registry()))
  {
    var log := Run(Registry(), draws, minutes).log;
    SimulatedEndTimes(Registry(), draws, minutes);
    LiveFramesMatchBatch(log, Registry());
  }

  /** Appending the next element of `target` keeps a prefix of it a prefix. */
  lemma PrefixStep<T>(xs: seq<T>, target: seq<T>, x: T)
    requires |xs| < |target| && x == target[|xs|]
    requires forall i :: 0 <= i < |xs| ==> xs[i] == target[i]
    ensures forall i :: 0 <= i < |xs + [x]| ==> (xs + [x])[i] == target[i]
  {
  }
}
