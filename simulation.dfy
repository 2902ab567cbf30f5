/** The seeded sensor simulator: two per-minute weather/blast state machines and a
    per-zone leaky-integrator displacement signal, emitting one sensor record per zone
    per minute.  The random draws are inputs, so every step is deterministic. */
module Simulation {
  import opened Zones

  const DECAY: real := 0.9
  const SEED_DISP: real := 0.01
  const RAIN_STOP: real := 0.08
  const RAIN_START: real := 0.03
  const BLAST_STOP: real := 0.1
  const BLAST_START: real := 0.04

  /** One row of the sensor log; `ts` is the minute offset from the start of the run. */
  datatype Record = Record(ts: int, zoneId: string, vibration: real, rainfall: real, displacement: real)

  /** The random draws of one minute: the rain intensity and rain flip draw, the blast
      boost and blast flip draw, and one base vibration per zone, in registry order.
      An intensity is only used while its flag is set. */
  datatype TickDraws = TickDraws(rainAmount: real, rainFlip: real, blastAmount: real, blastFlip: real, baseVib: seq<real>)

  /** The ranges the generator's draws come from, for `n` zones. */
  predicate InRange(d: TickDraws, n: nat)
  {
    && 1.0 <= d.rainAmount <= 5.0
    && 0.0 <= d.rainFlip < 1.0
    && 0.3 <= d.blastAmount <= 0.6
    && 0.0 <= d.blastFlip < 1.0
    && |d.baseVib| == n
    && forall j :: 0 <= j < n ==> 0.1 <= d.baseVib[j] <= 0.3
  }

  /** Every minute supplies one base vibration per zone. */
  predicate Shaped(draws: seq<TickDraws>, n: nat)
  {
    forall m :: 0 <= m < |draws| ==> |draws[m].baseVib| == n
  }

  /** The displacement memory has an entry for every zone of `zones`. */
  predicate Tracks(prev: map<string, real>, zones: seq<Zone>)
  {
    forall z :: z in zones ==> z.id in prev
  }

  // The two environmental state machines.  The emitted magnitude depends on the flag at
  // the start of the minute; the flag then flips on its own draw.

  function Rainfall(raining: bool, d: TickDraws): real
  {
    if raining then d.rainAmount else 0.0
  }

  function NextRaining(raining: bool, d: TickDraws): bool
  {
    if raining then !(d.rainFlip < RAIN_STOP) else d.rainFlip < RAIN_START
  }

  function BlastBoost(blasting: bool, d: TickDraws): real
  {
    if blasting then d.blastAmount else 0.0
  }

  function NextBlasting(blasting: bool, d: TickDraws): bool
  {
    if blasting then !(d.blastFlip < BLAST_STOP) else d.blastFlip < BLAST_START
  }

  /** The displacement drive of a zone for one minute's rainfall and vibration. */
  function Drive(z: Zone, rainfall: real, vibration: real): (drive: real)
    ensures z.slope > 0 && 0.0 <= rainfall && 0.0 <= vibration ==> drive > 0.0
  {
    var stress := 0.01 + 0.02 * rainfall + 0.5 * vibration;
    var scaled := stress * RockFactor(z.rock);
    assert stress > 0.0 ==> scaled > 0.0;
    scaled * SlopeFactor(z)
  }

  /** The whole simulator state: both flags, the per-zone displacement memory and the log so far. */
  datatype SimState = SimState(raining: bool, blasting: bool, prevDisp: map<string, real>, log: seq<Record>)

  /** Both flags off, every zone's memory seeded at 0.01, no records. */
  function Initial(zones: seq<Zone>): (s: SimState)
    ensures Tracks(s.prevDisp, zones)
    ensures forall id :: id in s.prevDisp ==> s.prevDisp[id] == SEED_DISP
    ensures !s.raining && !s.blasting && s.log == []
  {
    SimState(false, false, map z | z in zones :: z.id := SEED_DISP, [])
  }

  /** The record zone `z` emits in minute `minute`, given the displacement memory `prev`. */
  function ZoneRecord(prev: real, minute: int, z: Zone, rainfall: real, boost: real, base: real): Record
  {
    var vibration := base + boost;
    Record(minute, z.id, vibration, rainfall, DECAY * prev + Drive(z, rainfall, vibration))
  }

  /** One zone's update: emit its record and remember its displacement. */
  function ZoneUpdate(s: SimState, minute: int, z: Zone, rainfall: real, boost: real, base: real): SimState
    requires z.id in s.prevDisp
  {
    var r := ZoneRecord(s.prevDisp[z.id], minute, z, rainfall, boost, base);
    s.(prevDisp := s.prevDisp[z.id := r.displacement], log := s.log + [r])
  }

  /** The zone loop of one minute over `zs`, in order; zone `zs[j]` uses `baseVib[j]`. */
  function ZonesUpdate(s: SimState, minute: int, zs: seq<Zone>, rainfall: real, boost: real, baseVib: seq<real>): (s': SimState)
    requires forall z :: z in zs ==> z.id in s.prevDisp
    requires |baseVib| >= |zs|
    ensures forall id :: id in s.prevDisp ==> id in s'.prevDisp
    ensures s'.raining == s.raining && s'.blasting == s.blasting
    ensures |s'.log| == |s.log| + |zs| && s'.log[..|s.log|] == s.log
    decreases |zs|
  {
    if zs == [] then s
    else
      var k := |zs| - 1;
      assert forall z :: z in zs[..k] ==> z in zs;
      assert zs[k] in zs;
      ZoneUpdate(ZonesUpdate(s, minute, zs[..k], rainfall, boost, baseVib), minute, zs[k], rainfall, boost, baseVib[k])
  }

  /** The records one minute's zone loop emits over `zs`, each computed from its zone's
      memory before the loop. */
  function Batch(prev: map<string, real>, minute: int, zs: seq<Zone>, rainfall: real, boost: real, baseVib: seq<real>): (b: seq<Record>)
    requires forall z :: z in zs ==> z.id in prev
    requires |baseVib| >= |zs|
    ensures |b| == |zs|
    decreases |zs|
  {
    if zs == [] then []
    else
      var k := |zs| - 1;
      assert forall z :: z in zs[..k] ==> z in zs;
      assert zs[k] in zs;
      Batch(prev, minute, zs[..k], rainfall, boost, baseVib) + [ZoneRecord(prev[zs[k].id], minute, zs[k], rainfall, boost, baseVib[k])]
  }

  /** One simulated minute: weather and blasting first, then every zone. */
  function Tick(s: SimState, minute: int, zones: seq<Zone>, d: TickDraws): (s': SimState)
    requires forall z :: z in zones ==> z.id in s.prevDisp
    requires |d.baseVib| >= |zones|
    ensures forall id :: id in s.prevDisp ==> id in s'.prevDisp
    ensures |s'.log| == |s.log| + |zones| && s'.log[..|s.log|] == s.log
  {
    var rainfall := Rainfall(s.raining, d);
    var boost := BlastBoost(s.blasting, d);
    var flipped := s.(raining := NextRaining(s.raining, d), blasting := NextBlasting(s.blasting, d));
    ZonesUpdate(flipped, minute, zones, rainfall, boost, d.baseVib)
  }

  /** The number of records emitted by `m` minutes over `n` zones, which is also the
      position of minute `m`'s first record. */
  function Offset(m: nat, n: nat): nat
  {
    if m == 0 then 0 else Offset(m - 1, n) + n
  }

  lemma {:induction false} OffsetIsProduct(m: nat, n: nat)
    ensures Offset(m, n) == m * n
  {
    if m > 0 {
      OffsetIsProduct(m - 1, n);
      assert m * n == (m - 1) * n + n;
    }
  }

  lemma {:induction false} OffsetMonotonic(m: nat, k: nat, n: nat)
    requires m <= k
    ensures Offset(m, n) <= Offset(k, n)
    decreases k
  {
    if m < k {
      OffsetMonotonic(m, k - 1, n);
    }
  }

  /** The state after minutes `0 .. minutes-1`, started from `Initial(zones)`; minute `m`
      uses the draws `draws[m]`. */
  function Run(zones: seq<Zone>, draws: seq<TickDraws>, minutes: nat): (s: SimState)
    requires minutes <= |draws| && Shaped(draws, |zones|)
    ensures Tracks(s.prevDisp, zones)
    ensures |s.log| == Offset(minutes, |zones|)
  {
    if minutes == 0 then Initial(zones)
    else
      var before := Run(zones, draws, minutes - 1);
      Tick(before, minutes - 1, zones, draws[minutes - 1])
  }

  /** The simulator's mutable state: the two flags, the displacement memory keyed by zone
      id, and the rows emitted so far. */
  class Simulator {
    const zones: seq<Zone>
    var raining: bool
    var blasting: bool
    var prevDisp: map<string, real>
    var rows: seq<Record>

    function State(): SimState
      reads this
    {
      SimState(raining, blasting, prevDisp, rows)
    }

    ghost predicate Valid()
      reads this
    {
      Tracks(prevDisp, zones)
    }

    constructor (zones: seq<Zone>)
      ensures this.zones == zones
      ensures Valid() && State() == Initial(zones)
    {
      this.zones := zones;
      raining := false;
      blasting := false;
      prevDisp := map z | z in zones :: z.id := SEED_DISP;
      rows := [];
    }

    /** One minute of the simulation loop: the weather and blasting logic, then the zone loop. */
    method Step(minute: int, d: TickDraws)
      requires Valid() && |d.baseVib| == |zones|
      modifies this
      ensures Valid() && State() == Tick(old(State()), minute, zones, d)
    {
      var rainfall, boost := StepEnvironment(d);
      StepZones(minute, rainfall, boost, d.baseVib);
    }

    /** Advances both state machines; returns this minute's rainfall and blast boost,
        which depend on the flags before they flip. */
    method StepEnvironment(d: TickDraws) returns (rainfall: real, boost: real)
      modifies this`raining, this`blasting
      ensures rainfall == Rainfall(old(raining), d) && boost == BlastBoost(old(blasting), d)
      ensures raining == NextRaining(old(raining), d) && blasting == NextBlasting(old(blasting), d)
    {
      // Rain machine: the flag decides this minute's rainfall, then may flip.
      if raining {
        rainfall := d.rainAmount;
        if d.rainFlip < RAIN_STOP { raining := false; }
      } else {
        rainfall := 0.0;
        if d.rainFlip < RAIN_START { raining := true; }
      }
      // Blast machine: the flag decides this minute's boost, then may flip.
      if blasting {
        boost := d.blastAmount;
        if d.blastFlip < BLAST_STOP { blasting := false; }
      } else {
        boost := 0.0;
        if d.blastFlip < BLAST_START { blasting := true; }
      }
    }

    /** The zone loop of one minute: each zone in turn updates its displacement memory
        and appends its record. */
    method StepZones(minute: int, rainfall: real, boost: real, baseVib: seq<real>)
      requires Valid() && |baseVib| == |zones|
      modifies this`prevDisp, this`rows
      ensures Valid()
      ensures State() == ZonesUpdate(old(State()), minute, zones, rainfall, boost, baseVib)
    {
      ghost var start := State();
      for j := 0 to |zones|
        invariant Valid() && raining == start.raining && blasting == start.blasting
        invariant State() == ZonesUpdate(start, minute, zones[..j], rainfall, boost, baseVib)
      {
        UpdateZone(minute, zones[j], rainfall, boost, baseVib[j]);
        assert zones[..j + 1][..j] == zones[..j];
      }
      assert zones[..|zones|] == zones;
    }

    /** One zone's step: the leaky-integrator update of its memory and its record. */
    method UpdateZone(minute: int, z: Zone, rainfall: real, boost: real, base: real)
      requires z.id in prevDisp
      modifies this`prevDisp, this`rows
      ensures State() == ZoneUpdate(old(State()), minute, z, rainfall, boost, base)
    {
      var vibration := base + boost;
      var slopeFactor := z.slope as real / 45.0;
      var rf := RockFactor(z.rock);
      var dispNew := (0.01 + 0.02 * rainfall + 0.5 * vibration) * rf * slopeFactor;
      assert dispNew == Drive(z, rainfall, vibration);
      var displacement := DECAY * prevDisp[z.id] + dispNew;
      assert Record(minute, z.id, vibration, rainfall, displacement) == ZoneRecord(prevDisp[z.id], minute, z, rainfall, boost, base);
      prevDisp := prevDisp[z.id := displacement];
      rows := rows + [Record(minute, z.id, vibration, rainfall, displacement)];
    }
  }

  /** Runs the simulation for `minutes` minutes and returns the sensor log. */
  method GenerateLog(zones: seq<Zone>, draws: seq<TickDraws>, minutes: nat) returns (log: seq<Record>)
    requires minutes <= |draws| && Shaped(draws, |zones|)
    ensures log == Run(zones, draws, minutes).log
    ensures |log| == minutes * |zones|
  {
    OffsetIsProduct(minutes, |zones|);
    var sim := new Simulator(zones);
    for minute := 0 to minutes
      invariant sim.Valid() && sim.State() == Run(zones, draws, minute)
    {
      assert |draws[minute].baseVib| == |zones|;
      sim.Step(minute, draws[minute]);
    }
    log := sim.rows;
  }

  // ---------------------------------------------------------------------------------
  // Properties of the simulated log.

  /** Ordered by minute: timestamps never decrease along the log. */
  predicate TimeSorted(log: seq<Record>)
  {
    forall i, j :: 0 <= i < j < |log| ==> log[i].ts <= log[j].ts
  }

  /** Per zone, timestamps strictly increase along the log. */
  predicate ZoneOrdered(log: seq<Record>)
  {
    forall i, j :: 0 <= i < j < |log| && log[i].zoneId == log[j].zoneId ==> log[i].ts < log[j].ts
  }

  /** Record `j` of a batch is zone `zs[j]`'s record, computed from its own memory. */
  lemma {:induction false} BatchAt(prev: map<string, real>, minute: int, zs: seq<Zone>, rainfall: real, boost: real, baseVib: seq<real>)
    requires forall z :: z in zs ==> z.id in prev
    requires |baseVib| >= |zs|
    ensures forall j :: 0 <= j < |zs| ==>
      Batch(prev, minute, zs, rainfall, boost, baseVib)[j] == ZoneRecord(prev[zs[j].id], minute, zs[j], rainfall, boost, baseVib[j])
    decreases |zs|
  {
    if zs != [] {
      var k := |zs| - 1;
      var p := zs[..k];
      assert forall z :: z in p ==> z in zs;
      BatchAt(prev, minute, p, rainfall, boost, baseVib);
      var b := Batch(prev, minute, zs, rainfall, boost, baseVib);
      var bp := Batch(prev, minute, p, rainfall, boost, baseVib);
      forall j | 0 <= j < k
        ensures b[j] == bp[j]
      {
      }
    }
  }

  /** The zone loop leaves the memory of an id that none of its zones carries unchanged. */
  lemma {:induction false} ZonesUpdateMemory(s: SimState, minute: int, zs: seq<Zone>, rainfall: real, boost: real, baseVib: seq<real>, id: string)
    requires forall z :: z in zs ==> z.id in s.prevDisp
    requires |baseVib| >= |zs|
    requires id in s.prevDisp
    requires forall j :: 0 <= j < |zs| ==> zs[j].id != id
    ensures ZonesUpdate(s, minute, zs, rainfall, boost, baseVib).prevDisp[id] == s.prevDisp[id]
    decreases |zs|
  {
    if zs != [] {
      var k := |zs| - 1;
      assert forall z :: z in zs[..k] ==> z in zs;
      ZonesUpdateMemory(s, minute, zs[..k], rainfall, boost, baseVib, id);
    }
  }

  /** Within one minute's zone loop over distinct ids, the log grows by exactly the
      batch computed from the memory as it was before the loop. */
  lemma {:induction false} ZonesUpdateLog(s: SimState, minute: int, zs: seq<Zone>, rainfall: real, boost: real, baseVib: seq<real>)
    requires DistinctIds(zs)
    requires forall z :: z in zs ==> z.id in s.prevDisp
    requires |baseVib| >= |zs|
    ensures ZonesUpdate(s, minute, zs, rainfall, boost, baseVib).log == s.log + Batch(s.prevDisp, minute, zs, rainfall, boost, baseVib)
    decreases |zs|
  {
    if zs != [] {
      var k := |zs| - 1;
      var p := zs[..k];
      assert forall z :: z in p ==> z in zs;
      assert DistinctIds(p);
      ZonesUpdateLog(s, minute, p, rainfall, boost, baseVib);
      assert forall j :: 0 <= j < |p| ==> p[j].id != zs[k].id;
      ZonesUpdateMemory(s, minute, p, rainfall, boost, baseVib, zs[k].id);
      LastZone(s, minute, zs, rainfall, boost, baseVib);
      AppendAssociates(s.log, Batch(s.prevDisp, minute, p, rainfall, boost, baseVib),
        ZoneRecord(s.prevDisp[zs[k].id], minute, zs[k], rainfall, boost, baseVib[k]));
    }
  }

  /** The last zone of the loop appends one record to the log and to the batch. */
  lemma LastZone(s: SimState, minute: int, zs: seq<Zone>, rainfall: real, boost: real, baseVib: seq<real>)
    requires zs != []
    requires forall z :: z in zs ==> z.id in s.prevDisp
    requires |baseVib| >= |zs|
    ensures forall z :: z in zs[..|zs| - 1] ==> z.id in s.prevDisp
    ensures
      var k := |zs| - 1;
      var mid := ZonesUpdate(s, minute, zs[..k], rainfall, boost, baseVib);
      && ZonesUpdate(s, minute, zs, rainfall, boost, baseVib).log ==
           mid.log + [ZoneRecord(mid.prevDisp[zs[k].id], minute, zs[k], rainfall, boost, baseVib[k])]
      && ZonesUpdate(s, minute, zs, rainfall, boost, baseVib).prevDisp ==
           mid.prevDisp[zs[k].id := ZoneRecord(mid.prevDisp[zs[k].id], minute, zs[k], rainfall, boost, baseVib[k]).displacement]
      && Batch(s.prevDisp, minute, zs, rainfall, boost, baseVib) ==
           Batch(s.prevDisp, minute, zs[..k], rainfall, boost, baseVib) + [ZoneRecord(s.prevDisp[zs[k].id], minute, zs[k], rainfall, boost, baseVib[k])]
  {
    assert forall z :: z in zs[..|zs| - 1] ==> z in zs;
  }

  lemma AppendAssociates<T>(a: seq<T>, b: seq<T>, x: T)
    ensures (a + b) + [x] == a + (b + [x])
  {
  }

  /** After one minute's zone loop over distinct ids, the memory of zone `zs[j]` holds
      the displacement of its own record in the batch. */
  lemma {:induction false} ZonesUpdateExplained(s: SimState, minute: int, zs: seq<Zone>, rainfall: real, boost: real, baseVib: seq<real>, j: nat)
    requires DistinctIds(zs)
    requires forall z :: z in zs ==> z.id in s.prevDisp
    requires |baseVib| >= |zs| && j < |zs|
    ensures ZonesUpdate(s, minute, zs, rainfall, boost, baseVib).prevDisp[zs[j].id] ==
      Batch(s.prevDisp, minute, zs, rainfall, boost, baseVib)[j].displacement
    decreases |zs|
  {
    var k := |zs| - 1;
    var p := zs[..k];
    LastZone(s, minute, zs, rainfall, boost, baseVib);
    assert forall i :: 0 <= i < |p| ==> p[i].id != zs[k].id;
    ZonesUpdateMemory(s, minute, p, rainfall, boost, baseVib, zs[k].id);
    if j < k {
      assert zs[j] == p[j] && zs[j].id != zs[k].id;
      assert DistinctIds(p);
      ZonesUpdateExplained(s, minute, p, rainfall, boost, baseVib, j);
    }
  }

  /** One more minute only appends to the log. */
  lemma RunExtends(zones: seq<Zone>, draws: seq<TickDraws>, k: nat)
    requires Shaped(draws, |zones|) && 0 < k <= |draws|
    ensures forall i :: 0 <= i < Offset(k - 1, |zones|) ==> Run(zones, draws, k).log[i] == Run(zones, draws, k - 1).log[i]
  {
    var log := Run(zones, draws, k).log;
    var before := Run(zones, draws, k - 1).log;
    forall i | 0 <= i < Offset(k - 1, |zones|)
      ensures log[i] == before[i]
    {
      assert log[..|before|][i] == log[i];
    }
  }

  /** Running fewer minutes yields a prefix of the log: records are only ever appended. */
  lemma {:induction false} RunPrefixAt(zones: seq<Zone>, draws: seq<TickDraws>, m: nat, k: nat)
    requires Shaped(draws, |zones|) && m <= k <= |draws|
    ensures Offset(m, |zones|) <= |Run(zones, draws, k).log|
    ensures forall i :: 0 <= i < Offset(m, |zones|) ==> Run(zones, draws, m).log[i] == Run(zones, draws, k).log[i]
    decreases k
  {
    if m < k {
      RunPrefixAt(zones, draws, m, k - 1);
      RunExtends(zones, draws, k);
      OffsetMonotonic(m, k - 1, |zones|);
    }
  }

  /** The records minute `m` emits: the zone loop's batch over the memory before the
      minute, with the rainfall and the boost that the flags at its start select. */
  function MinuteBatch(zones: seq<Zone>, draws: seq<TickDraws>, m: nat): (b: seq<Record>)
    requires Shaped(draws, |zones|) && m < |draws|
    ensures |b| == |zones|
  {
    var before := Run(zones, draws, m);
    Batch(before.prevDisp, m, zones, Rainfall(before.raining, draws[m]), BlastBoost(before.blasting, draws[m]), draws[m].baseVib)
  }

  /** Minute `m` appends exactly its batch to the log. */
  lemma RunStep(zones: seq<Zone>, draws: seq<TickDraws>, m: nat)
    requires DistinctIds(zones) && Shaped(draws, |zones|) && m < |draws|
    ensures Run(zones, draws, m + 1).log == Run(zones, draws, m).log + MinuteBatch(zones, draws, m)
  {
    var before := Run(zones, draws, m);
    var d := draws[m];
    var flipped := before.(raining := NextRaining(before.raining, d), blasting := NextBlasting(before.blasting, d));
    ZonesUpdateLog(flipped, m, zones, Rainfall(before.raining, d), BlastBoost(before.blasting, d), d.baseVib);
  }

  /** After minute `m` each zone's memory holds the displacement of its record in the batch. */
  lemma RunStepMemory(zones: seq<Zone>, draws: seq<TickDraws>, m: nat)
    requires DistinctIds(zones) && Shaped(draws, |zones|) && m < |draws|
    ensures forall j :: 0 <= j < |zones| ==>
      Run(zones, draws, m + 1).prevDisp[zones[j].id] == MinuteBatch(zones, draws, m)[j].displacement
  {
    var before := Run(zones, draws, m);
    var d := draws[m];
    var flipped := before.(raining := NextRaining(before.raining, d), blasting := NextBlasting(before.blasting, d));
    forall j | 0 <= j < |zones|
      ensures Run(zones, draws, m + 1).prevDisp[zones[j].id] == MinuteBatch(zones, draws, m)[j].displacement
    {
      ZonesUpdateExplained(flipped, m, zones, Rainfall(before.raining, d), BlastBoost(before.blasting, d), d.baseVib, j);
    }
  }

  /** Each record of a batch: stamped with the minute and its zone's id, the minute's
      rainfall, the zone's base draw plus the boost, and 0.9 times the zone's memory plus
      the drive. */
  lemma BatchFields(prev: map<string, real>, minute: int, zs: seq<Zone>, raining: bool, blasting: bool, d: TickDraws)
    requires forall z :: z in zs ==> z.id in prev
    requires |d.baseVib| >= |zs|
    ensures
      var b := Batch(prev, minute, zs, Rainfall(raining, d), BlastBoost(blasting, d), d.baseVib);
      forall j :: 0 <= j < |zs| ==>
        && b[j].ts == minute && b[j].zoneId == zs[j].id
        && b[j].rainfall == (if raining then d.rainAmount else 0.0)
        && b[j].vibration == d.baseVib[j] + (if blasting then d.blastAmount else 0.0)
        && b[j].displacement == DECAY * prev[zs[j].id] + Drive(zs[j], b[j].rainfall, b[j].vibration)
  {
    BatchAt(prev, minute, zs, Rainfall(raining, d), BlastBoost(blasting, d), d.baseVib);
  }

  /** The fields of minute `m`'s records, in terms of the state before the minute. */
  lemma MinuteBatchFields(zones: seq<Zone>, draws: seq<TickDraws>, m: nat)
    requires Shaped(draws, |zones|) && m < |draws|
    ensures forall j :: 0 <= j < |zones| ==>
      && MinuteBatch(zones, draws, m)[j].ts == m
      && MinuteBatch(zones, draws, m)[j].zoneId == zones[j].id
      && MinuteBatch(zones, draws, m)[j].rainfall == (if Run(zones, draws, m).raining then draws[m].rainAmount else 0.0)
      && MinuteBatch(zones, draws, m)[j].vibration ==
           draws[m].baseVib[j] + (if Run(zones, draws, m).blasting then draws[m].blastAmount else 0.0)
      && MinuteBatch(zones, draws, m)[j].displacement ==
           DECAY * Run(zones, draws, m).prevDisp[zones[j].id]
           + Drive(zones[j], MinuteBatch(zones, draws, m)[j].rainfall, MinuteBatch(zones, draws, m)[j].vibration)
  {
    var before := Run(zones, draws, m);
    BatchFields(before.prevDisp, m, zones, before.raining, before.blasting, draws[m]);
  }

  /** Position-wise form of `RunStep`: minute `m`'s batch ends the log of `m + 1` minutes. */
  lemma RunStepAt(zones: seq<Zone>, draws: seq<TickDraws>, m: nat)
    requires DistinctIds(zones) && Shaped(draws, |zones|) && m < |draws|
    ensures forall j :: 0 <= j < |zones| ==>
      Run(zones, draws, m + 1).log[Offset(m, |zones|) + j] == MinuteBatch(zones, draws, m)[j]
  {
    RunStep(zones, draws, m);
  }

  /** Minute `m`'s batch sits at positions `Offset(m, |zones|) + j` of any longer run. */
  lemma MinuteInLog(zones: seq<Zone>, draws: seq<TickDraws>, minutes: nat, m: nat)
    requires DistinctIds(zones) && Shaped(draws, |zones|) && m < minutes <= |draws|
    ensures forall j :: 0 <= j < |zones| ==>
      Offset(m, |zones|) + j < |Run(zones, draws, minutes).log| &&
      Run(zones, draws, minutes).log[Offset(m, |zones|) + j] == MinuteBatch(zones, draws, m)[j]
  {
    RunStepAt(zones, draws, m);
    RunPrefixAt(zones, draws, m + 1, minutes);
    assert Offset(m + 1, |zones|) == Offset(m, |zones|) + |zones|;
  }

  /** Minute `m` of a simulated log: the record of zone `j` is stamped with the minute
      and the zone's id.  Its rainfall is the minute's intensity if it was raining at the
      start of the minute and 0 otherwise; its vibration is the zone's base draw plus the
      shared blast boost, if blasting was on.  Its displacement is 0.9 times the zone's
      memory before the minute plus the drive of that rainfall and vibration, and after
      the minute the zone's memory holds that displacement. */
  lemma LogRecord(zones: seq<Zone>, draws: seq<TickDraws>, minutes: nat, m: nat, j: nat)
    requires DistinctIds(zones) && Shaped(draws, |zones|) && m < minutes <= |draws| && j < |zones|
    ensures Offset(m, |zones|) + j < |Run(zones, draws, minutes).log|
    ensures
      var r := Run(zones, draws, minutes).log[Offset(m, |zones|) + j];
      var before := Run(zones, draws, m);
      && r.ts == m && r.zoneId == zones[j].id
      && r.rainfall == (if before.raining then draws[m].rainAmount else 0.0)
      && r.vibration == draws[m].baseVib[j] + (if before.blasting then draws[m].blastAmount else 0.0)
      && r.displacement == DECAY * before.prevDisp[zones[j].id] + Drive(zones[j], r.rainfall, r.vibration)
      && Run(zones, draws, m + 1).prevDisp[zones[j].id] == r.displacement
  {
    RunStepMemory(zones, draws, m);
    MinuteInLog(zones, draws, minutes, m);
    MinuteBatchFields(zones, draws, m);
  }

  /** The weather flags follow the two state machines: rain stops only on a flip draw
      below 0.08 and starts only on one below 0.03; blasting stops only below 0.1 and
      starts only below 0.04. */
  lemma RunFlags(zones: seq<Zone>, draws: seq<TickDraws>, m: nat)
    requires Shaped(draws, |zones|) && m < |draws|
    ensures Run(zones, draws, m + 1).raining ==
      (if Run(zones, draws, m).raining then draws[m].rainFlip >= RAIN_STOP else draws[m].rainFlip < RAIN_START)
    ensures Run(zones, draws, m + 1).blasting ==
      (if Run(zones, draws, m).blasting then draws[m].blastFlip >= BLAST_STOP else draws[m].blastFlip < BLAST_START)
  {
  }

  /** Every displacement memory is strictly positive. */
  predicate PositiveMemory(prev: map<string, real>)
  {
    forall id :: id in prev ==> prev[id] > 0.0
  }

  /** The records from position `start` on have vibration in [0.1,0.9], rainfall in
      [0,5] and a strictly positive displacement. */
  predicate BoundedFrom(log: seq<Record>, start: nat)
  {
    forall i :: start <= i < |log| ==>
      && 0.1 <= log[i].vibration <= 0.9
      && 0.0 <= log[i].rainfall <= 5.0
      && log[i].displacement > 0.0
  }

  /** Bounds kept by one minute's zone loop: with positive slopes, rainfall in [0,5], a
      boost in [0,0.6] and base draws in [0.1,0.3], vibration stays in [0.1,0.9] and every
      displacement memory and emitted displacement stays strictly positive. */
  lemma {:induction false} ZonesUpdateBounds(s: SimState, minute: int, zs: seq<Zone>, rainfall: real, boost: real, baseVib: seq<real>)
    requires forall z :: z in zs ==> z.id in s.prevDisp
    requires |baseVib| >= |zs|
    requires PositiveSlopes(zs)
    requires 0.0 <= rainfall <= 5.0 && 0.0 <= boost <= 0.6
    requires forall j :: 0 <= j < |zs| ==> 0.1 <= baseVib[j] <= 0.3
    requires PositiveMemory(s.prevDisp)
    ensures PositiveMemory(ZonesUpdate(s, minute, zs, rainfall, boost, baseVib).prevDisp)
    ensures BoundedFrom(ZonesUpdate(s, minute, zs, rainfall, boost, baseVib).log, |s.log|)
    decreases |zs|
  {
    if zs != [] {
      var k := |zs| - 1;
      var p := zs[..k];
      assert forall z :: z in p ==> z in zs;
      ZonesUpdateBounds(s, minute, p, rainfall, boost, baseVib);
      var mid := ZonesUpdate(s, minute, p, rainfall, boost, baseVib);
      assert zs[k] in zs;
      var r := ZoneRecord(mid.prevDisp[zs[k].id], minute, zs[k], rainfall, boost, baseVib[k]);
      assert zs[k].slope > 0;
      assert Drive(zs[k], rainfall, r.vibration) > 0.0;
      var s' := ZonesUpdate(s, minute, zs, rainfall, boost, baseVib);
      assert s'.log == mid.log + [r];
    }
  }

  /** Over draws from the generator's ranges and zones with positive slopes, every record
      has vibration in [0.1,0.9], rainfall in [0,5] and a strictly positive displacement,
      and every displacement memory stays strictly positive. */
  lemma {:induction false} LogBounds(zones: seq<Zone>, draws: seq<TickDraws>, minutes: nat)
    requires PositiveSlopes(zones) && minutes <= |draws|
    requires forall m :: 0 <= m < |draws| ==> InRange(draws[m], |zones|)
    ensures Shaped(draws, |zones|)
    ensures PositiveMemory(Run(zones, draws, minutes).prevDisp)
    ensures BoundedFrom(Run(zones, draws, minutes).log, 0)
    decreases minutes
  {
    if minutes > 0 {
      var m := minutes - 1;
      LogBounds(zones, draws, m);
      var before := Run(zones, draws, m);
      var d := draws[m];
      var flipped := before.(raining := NextRaining(before.raining, d), blasting := NextBlasting(before.blasting, d));
      ZonesUpdateBounds(flipped, m, zones, Rainfall(before.raining, d), BlastBoost(before.blasting, d), d.baseVib);
      var s := Run(zones, draws, minutes);
      forall i | 0 <= i < |before.log|
        ensures s.log[i] == before.log[i]
      {
        assert s.log[..|before.log|][i] == s.log[i];
      }
    }
  }

  /** Appending one minute's records, all stamped `m` and of distinct zones, to a log
      that is ordered and stamped below `m` keeps it ordered. */
  lemma AppendMinute(prefix: seq<Record>, batch: seq<Record>, m: int)
    requires TimeSorted(prefix) && ZoneOrdered(prefix)
    requires forall i :: 0 <= i < |prefix| ==> prefix[i].ts < m
    requires forall i :: 0 <= i < |batch| ==> batch[i].ts == m
    requires forall i, j :: 0 <= i < j < |batch| ==> batch[i].zoneId != batch[j].zoneId
    ensures TimeSorted(prefix + batch) && ZoneOrdered(prefix + batch)
  {
    var log := prefix + batch;
    var n0 := |prefix|;
    forall i, j | 0 <= i < j < |log|
      ensures log[i].ts <= log[j].ts
      ensures log[i].zoneId == log[j].zoneId ==> log[i].ts < log[j].ts
    {
      if j < n0 {
        assert log[i] == prefix[i] && log[j] == prefix[j];
      } else if i < n0 {
        assert log[i] == prefix[i] && log[j] == batch[j - n0];
      } else {
        assert log[i] == batch[i - n0] && log[j] == batch[j - n0];
      }
    }
  }

  /** A batch over distinct zones is stamped with its minute and names each zone once. */
  lemma BatchShape(prev: map<string, real>, minute: int, zs: seq<Zone>, rainfall: real, boost: real, baseVib: seq<real>)
    requires DistinctIds(zs)
    requires forall z :: z in zs ==> z.id in prev
    requires |baseVib| >= |zs|
    ensures forall i :: 0 <= i < |zs| ==> Batch(prev, minute, zs, rainfall, boost, baseVib)[i].ts == minute
    ensures forall i, j :: 0 <= i < j < |zs| ==>
      Batch(prev, minute, zs, rainfall, boost, baseVib)[i].zoneId != Batch(prev, minute, zs, rainfall, boost, baseVib)[j].zoneId
  {
    BatchAt(prev, minute, zs, rainfall, boost, baseVib);
  }

  /** The log is ordered by minute and, per zone, strictly by minute: every timestamp is a
      minute offset in [0, minutes). */
  lemma {:induction false} LogShape(zones: seq<Zone>, draws: seq<TickDraws>, minutes: nat)
    requires DistinctIds(zones) && Shaped(draws, |zones|) && minutes <= |draws|
    ensures var log := Run(zones, draws, minutes).log;
      && (forall i :: 0 <= i < |log| ==> 0 <= log[i].ts < minutes)
      && TimeSorted(log) && ZoneOrdered(log)
    decreases minutes
  {
    if minutes > 0 {
      var m := minutes - 1;
      LogShape(zones, draws, m);
      var before := Run(zones, draws, m);
      var b := Batch(before.prevDisp, m, zones, Rainfall(before.raining, draws[m]), BlastBoost(before.blasting, draws[m]), draws[m].baseVib);
      RunStep(zones, draws, m);
      assert b == MinuteBatch(zones, draws, m);
      BatchShape(before.prevDisp, m, zones, Rainfall(before.raining, draws[m]), BlastBoost(before.blasting, draws[m]), draws[m].baseVib);
      AppendMinute(before.log, b, m);
    }
  }
}
