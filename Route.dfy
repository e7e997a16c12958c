/** The route request's waypoints and the summary of the legs the directions
    service returns: origin -> [transfer stops] -> customer. */
module Route {
  import opened Wrappers
  import opened Registry

  /** `waypoints = []`, then append transfer 1 and transfer 2, each when present. */
  method BuildWaypoints(transfer1: Option<Coord>, transfer2: Option<Coord>) returns (waypoints: seq<Coord>)
    ensures |waypoints| <= 2
    ensures |waypoints| == (if transfer1.Some? then 1 else 0) + (if transfer2.Some? then 1 else 0)
    ensures transfer1.Some? ==> waypoints[0] == transfer1.value
    ensures transfer2.Some? ==> waypoints[|waypoints| - 1] == transfer2.value
    ensures forall w :: w in waypoints ==> Some(w) == transfer1 || Some(w) == transfer2
  {
    waypoints := [];
    if transfer1.Some? {
      waypoints := waypoints + [transfer1.value];
    }
    if transfer2.Some? {
      waypoints := waypoints + [transfer2.value];
    }
  }

  /** Python's `sum` of a list of integers; a sum of distances is not negative. */
  function Sum(xs: seq<int>): (r: int)
    ensures (forall i :: 0 <= i < |xs| ==> xs[i] >= 0) ==> r >= 0
  {
    if xs == [] then 0
    else
      assert forall i :: 0 <= i < |xs| - 1 ==> xs[1..][i] == xs[i + 1];
      xs[0] + Sum(xs[1..])
  }

  /** The sum of a concatenation is the sum of the parts. */
  lemma {:induction false} SumConcat(xs: seq<int>, ys: seq<int>)
    ensures Sum(xs + ys) == Sum(xs) + Sum(ys)
  {
    if xs == [] {
      assert xs + ys == ys;
    } else {
      assert (xs + ys)[1..] == xs[1..] + ys;
      SumConcat(xs[1..], ys);
    }
  }

  function Min(a: int, b: int): int {
    if a <= b then a else b
  }

  /** The two distances shown above the map, in kilometres. */
  datatype LegSummary = LegSummary(totalKm: real, partialKm: real)

  /** The distances shown above the map: `total_km = sum(vals) / 1000` and
      `part_km = sum(vals[:n]) / 1000 if n > 0 else total_km`, where `n` is the
      number of waypoints and the slice `vals[:n]` stops at the end of the list. */
  function Summarise(legMetres: seq<int>, waypointCount: nat): (r: LegSummary)
    ensures r.totalKm * 1000.0 == Sum(legMetres) as real
    ensures waypointCount == 0 ==> r.partialKm == r.totalKm
    ensures waypointCount > 0 ==> r.partialKm * 1000.0 == Sum(legMetres[..Min(waypointCount, |legMetres|)]) as real
  {
    var totalKm := Sum(legMetres) as real / 1000.0;
    var n := waypointCount;
    var partKm := if n > 0 then Sum(legMetres[..Min(n, |legMetres|)]) as real / 1000.0 else totalKm;
    LegSummary(totalKm, partKm)
  }

  /** With a waypoint, the partial distance and the legs after the last waypoint
      make up the total. */
  lemma PartialPlusRemainder(legMetres: seq<int>, waypointCount: nat)
    requires 0 < waypointCount <= |legMetres|
    ensures Summarise(legMetres, waypointCount).partialKm * 1000.0 + Sum(legMetres[waypointCount..]) as real
         == Summarise(legMetres, waypointCount).totalKm * 1000.0
  {
    assert legMetres == legMetres[..waypointCount] + legMetres[waypointCount..];
    SumConcat(legMetres[..waypointCount], legMetres[waypointCount..]);
  }

  /** Leg distances are never negative, so the partial distance lies between 0 and the total. */
  lemma PartialWithinTotal(legMetres: seq<int>, waypointCount: nat)
    requires forall i :: 0 <= i < |legMetres| ==> legMetres[i] >= 0
    ensures 0.0 <= Summarise(legMetres, waypointCount).partialKm <= Summarise(legMetres, waypointCount).totalKm
  {
    var k := Min(waypointCount, |legMetres|);
    assert legMetres == legMetres[..k] + legMetres[k..];
    SumConcat(legMetres[..k], legMetres[k..]);
    assert Sum(legMetres[..k]) >= 0 && Sum(legMetres[k..]) >= 0;
  }

  /** The distance line is shown only when both ends are known and the directions
      service returned at least one route (`if ruta:`); it summarises the legs of
      the first route. `routes` holds each returned route's leg lengths in metres. */
  function RouteSummary(origin: Option<Coord>, destination: Option<Coord>,
                        routes: seq<seq<int>>, waypointCount: nat): (r: Option<LegSummary>)
    ensures r.Some? <==> origin.Some? && destination.Some? && routes != []
    ensures r.Some? ==> r.value.totalKm * 1000.0 == Sum(routes[0]) as real
    ensures r.Some? && waypointCount == 0 ==> r.value.partialKm == r.value.totalKm
    ensures r.Some? && waypointCount > 0 ==>
              r.value.partialKm * 1000.0 == Sum(routes[0][..Min(waypointCount, |routes[0]|)]) as real
  {
    if origin.Some? && destination.Some? && routes != [] then Some(Summarise(routes[0], waypointCount))
    else None
  }
}
