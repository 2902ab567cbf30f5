/** The zone registry and the rock severity table of the MineGuard simulator. */
module Zones {

  /** Rock-competency class of a zone: the closed set of keys of the severity table,
      so an unknown class cannot be looked up. */
  datatype RockClass = Hard | Medium | Fractured

  /** Severity multiplier of a rock class: weaker rock amplifies the displacement drive. */
  function RockFactor(rock: RockClass): (f: real)
    ensures 0.5 <= f <= 1.5
    ensures rock == Hard <==> f == 0.5
    ensures rock == Medium <==> f == 1.0
    ensures rock == Fractured <==> f == 1.5
  {
    match rock
    case Hard => 0.5
    case Medium => 1.0
    case Fractured => 1.5
  }

  /** A monitored zone: slope angle in degrees, bench height, rock class and plan coordinates. */
  datatype Zone = Zone(id: string, slope: int, bench: int, rock: RockClass, x: int, y: int)

  /** The slope angle normalised against the 45 degree reference. */
  function SlopeFactor(z: Zone): real
  {
    z.slope as real / 45.0
  }

  predicate DistinctIds(zs: seq<Zone>)
  {
    forall i, j :: 0 <= i < j < |zs| ==> zs[i].id != zs[j].id
  }

  predicate PositiveSlopes(zs: seq<Zone>)
  {
    forall i :: 0 <= i < |zs| ==> zs[i].slope > 0
  }

  /** The five zones of the site. */
  function Registry(): (zs: seq<Zone>)
    ensures |zs| == 5
    ensures DistinctIds(zs) && PositiveSlopes(zs)
  {
    [ Zone("Z1", 55, 16, Fractured, 80, 60),
      Zone("Z2", 48, 14, Medium, 240, 60),
      Zone("Z3", 40, 12, Hard, 400, 60),
      Zone("Z4", 52, 15, Fractured, 80, 200),
      Zone("Z5", 35, 10, Hard, 240, 200) ]
  }
}
