/** The "nearby pharmacies" table: the registry's rows in the selected province
    and canton, each with its distance from the origin point of sale, kept when
    within the radius and sorted by that distance. */
module Proximity {
  import opened Wrappers
  import opened Registry

  /** A row of the table with its `distancia_km` column. */
  datatype Candidate = Candidate(pdv: Pdv, km: real)

  /** `df[(df[prov_c] == province) & (df[cant_c] == canton)]`: the rows of the
      selected province and canton, in table order. */
  function InArea(rows: seq<Pdv>, province: string, canton: string): (r: seq<Pdv>)
    ensures forall i :: 0 <= i < |r| ==> r[i].province == province && r[i].canton == canton
    ensures forall p :: multiset(r)[p] == if p.province == province && p.canton == canton then multiset(rows)[p] else 0
  {
    if rows == [] then []
    else
      var rest := InArea(rows[1..], province, canton);
      assert rows == [rows[0]] + rows[1..];
      if rows[0].province == province && rows[0].canton == canton then [rows[0]] + rest else rest
  }

  /** The `distancia_km` column: each row with its distance from `origin`. */
  function WithDistances(rows: seq<Pdv>, origin: Coord, geodesicKm: (Coord, Coord) -> real): (r: seq<Candidate>)
    ensures |r| == |rows|
    ensures forall i :: 0 <= i < |rows| ==> r[i] == Candidate(rows[i], geodesicKm(origin, rows[i].coord))
  {
    seq(|rows|, i requires 0 <= i < |rows| => Candidate(rows[i], geodesicKm(origin, rows[i].coord)))
  }

  /** `df_sel[df_sel["distancia_km"] <= limit]`, in table order. */
  function WithinLimit(cs: seq<Candidate>, limit: real): (r: seq<Candidate>)
    ensures forall i :: 0 <= i < |r| ==> r[i].km <= limit
    ensures forall c :: multiset(r)[c] == if c.km <= limit then multiset(cs)[c] else 0
  {
    if cs == [] then []
    else
      var rest := WithinLimit(cs[1..], limit);
      assert cs == [cs[0]] + cs[1..];
      if cs[0].km <= limit then [cs[0]] + rest else rest
  }

  /** Non-decreasing distances. */
  predicate SortedByDistance(cs: seq<Candidate>) {
    forall i, j :: 0 <= i < j < |cs| ==> cs[i].km <= cs[j].km
  }

  /** A candidate no farther than any of a sorted list can go in front of it. */
  lemma SortedCons(c: Candidate, cs: seq<Candidate>)
    requires SortedByDistance(cs)
    requires forall k :: 0 <= k < |cs| ==> c.km <= cs[k].km
    ensures SortedByDistance([c] + cs)
  {
    var r := [c] + cs;
    forall i, j | 0 <= i < j < |r| ensures r[i].km <= r[j].km {
      if i > 0 {
        assert r[i] == cs[i - 1] && r[j] == cs[j - 1];
      }
    }
  }

  /** `c` inserted into the sorted `cs` before the first candidate that is farther away. */
  function Insert(c: Candidate, cs: seq<Candidate>): (r: seq<Candidate>)
    requires SortedByDistance(cs)
    ensures SortedByDistance(r)
    ensures multiset(r) == multiset(cs) + multiset{c}
    ensures |r| == |cs| + 1 && (r[0] == c || (cs != [] && r[0] == cs[0]))
  {
    if cs == [] || c.km <= cs[0].km then
      SortedCons(c, cs);
      [c] + cs
    else
      var rest := Insert(c, cs[1..]);
      assert cs == [cs[0]] + cs[1..];
      assert cs[0].km <= rest[0].km;
      forall k | 0 <= k < |rest| ensures cs[0].km <= rest[k].km {
        assert rest[0].km <= rest[k].km;
      }
      SortedCons(cs[0], rest);
      [cs[0]] + rest
  }

  /** `.sort_values("distancia_km")`. The sort pandas uses by default is not
      stable, so only the order of distances is promised, not the order of ties. */
  function SortByDistance(cs: seq<Candidate>): (r: seq<Candidate>)
    ensures SortedByDistance(r)
    ensures multiset(r) == multiset(cs)
  {
    if cs == [] then []
    else
      assert cs == [cs[0]] + cs[1..];
      Insert(cs[0], SortByDistance(cs[1..]))
  }

  /** Two sorted arrangements of the same candidates list the same distances in
      the same positions: only the order among equally distant rows is left open. */
  lemma {:induction false} SortedPermutationsAgree(a: seq<Candidate>, b: seq<Candidate>)
    requires SortedByDistance(a) && SortedByDistance(b) && multiset(a) == multiset(b)
    ensures |a| == |b|
    ensures forall i :: 0 <= i < |a| ==> a[i].km == b[i].km
    decreases |a|
  {
    assert |a| == |multiset(a)| == |multiset(b)| == |b|;
    if a != [] {
      var k := NearestFirst(a, b);
      var rest := RemovedAt(b, k);
      var tail := a[1..];
      assert a == [a[0]] + tail;
      assert multiset(tail) == multiset(a) - multiset{a[0]};
      SortedPermutationsAgree(tail, rest);
      forall i | 0 < i < |a| ensures a[i].km == b[i].km {
        assert a[i] == tail[i - 1];
        assert tail[i - 1].km == rest[i - 1].km;
      }
    }
  }

  /** Where the first of the sorted `a` sits in the sorted `b`, which holds the
      same candidates: both lists start with the same distance. */
  lemma NearestFirst(a: seq<Candidate>, b: seq<Candidate>) returns (k: nat)
    requires SortedByDistance(a) && SortedByDistance(b) && multiset(a) == multiset(b) && a != []
    ensures k < |b| && b[k] == a[0] && b[0].km == a[0].km
  {
    assert a[0] in multiset(a) && b[0] in multiset(b);
    k :| 0 <= k < |b| && b[k] == a[0];
    var m :| 0 <= m < |a| && a[m] == b[0];
    assert a[0].km <= a[m].km && b[0].km <= b[k].km;
  }

  /** `b` without its element at `k`; when that element is as near as the first,
      the rest lists the same distances as `b` from its second position on. */
  function RemovedAt(b: seq<Candidate>, k: nat): (rest: seq<Candidate>)
    requires k < |b| && SortedByDistance(b) && b[k].km == b[0].km
    ensures multiset(rest) == multiset(b) - multiset{b[k]}
    ensures |rest| == |b| - 1 && forall i :: 0 <= i < |rest| ==> rest[i].km == b[i + 1].km
    ensures SortedByDistance(rest)
  {
    var rest := b[..k] + b[k + 1..];
    assert b == b[..k] + [b[k]] + b[k + 1..];
    forall i | 0 <= i < |rest| ensures rest[i].km == b[i + 1].km {
      if i < k {
        assert rest[i] == b[i];
        assert b[0].km <= b[i].km <= b[k].km && b[0].km <= b[i + 1].km <= b[k].km;
      } else {
        assert rest[i] == b[i + 1];
      }
    }
    rest
  }

  /** A candidate belongs in the table: its row is in the selected area, its
      distance is the row's distance from the origin, and that is within the limit. */
  predicate Qualifies(c: Candidate, origin: Coord, geodesicKm: (Coord, Coord) -> real,
                      province: string, canton: string, limit: real) {
    c.pdv.province == province && c.pdv.canton == canton
    && c.km == geodesicKm(origin, c.pdv.coord) && c.km <= limit
  }

  /** The nearby-pharmacies table of `app`: select the area, attach distances, keep those within the limit, sort. */
  function Nearby(rows: seq<Pdv>, origin: Coord, geodesicKm: (Coord, Coord) -> real,
                  province: string, canton: string, limit: real): (r: seq<Candidate>)
    ensures SortedByDistance(r)
    ensures forall i :: 0 <= i < |r| ==> Qualifies(r[i], origin, geodesicKm, province, canton, limit)
    ensures forall c :: multiset(r)[c] ==
              if Qualifies(c, origin, geodesicKm, province, canton, limit) then multiset(rows)[c.pdv] else 0
  {
    var r := SortByDistance(WithinLimit(WithDistances(InArea(rows, province, canton), origin, geodesicKm), limit));
    forall c ensures multiset(r)[c] ==
        if Qualifies(c, origin, geodesicKm, province, canton, limit) then multiset(rows)[c.pdv] else 0 {
      PipelineCount(rows, origin, geodesicKm, province, canton, limit, c);
    }
    forall i | 0 <= i < |r| ensures Qualifies(r[i], origin, geodesicKm, province, canton, limit) {
      assert r[i] in multiset(r);
      PipelineCount(rows, origin, geodesicKm, province, canton, limit, r[i]);
    }
    r
  }

  /** How often a candidate occurs once each stage of `Nearby` has run. */
  lemma PipelineCount(rows: seq<Pdv>, origin: Coord, geodesicKm: (Coord, Coord) -> real,
                      province: string, canton: string, limit: real, c: Candidate)
    ensures multiset(SortByDistance(WithinLimit(WithDistances(InArea(rows, province, canton), origin, geodesicKm), limit)))[c]
         == if Qualifies(c, origin, geodesicKm, province, canton, limit) then multiset(rows)[c.pdv] else 0
  {
    var area := InArea(rows, province, canton);
    var annotated := WithDistances(area, origin, geodesicKm);
    AnnotatedCount(area, origin, geodesicKm, c);
    assert multiset(area)[c.pdv] == if c.pdv.province == province && c.pdv.canton == canton then multiset(rows)[c.pdv] else 0;
    assert multiset(WithinLimit(annotated, limit))[c] == if c.km <= limit then multiset(annotated)[c] else 0;
  }

  /** Attaching distances keeps each row's multiplicity, under its own distance only. */
  lemma {:induction false} AnnotatedCount(rows: seq<Pdv>, origin: Coord, geodesicKm: (Coord, Coord) -> real, c: Candidate)
    ensures multiset(WithDistances(rows, origin, geodesicKm))[c] ==
              if c.km == geodesicKm(origin, c.pdv.coord) then multiset(rows)[c.pdv] else 0
  {
    if rows != [] {
      AnnotatedCount(rows[1..], origin, geodesicKm, c);
      assert rows == [rows[0]] + rows[1..];
      assert WithDistances(rows, origin, geodesicKm)
          == [Candidate(rows[0], geodesicKm(origin, rows[0].coord))] + WithDistances(rows[1..], origin, geodesicKm);
    }
  }

  /** Every row of the selected area within the limit appears in the table, as
      often as it appears in the registry. */
  lemma NearbyComplete(rows: seq<Pdv>, origin: Coord, geodesicKm: (Coord, Coord) -> real,
                       province: string, canton: string, limit: real, i: int)
    requires 0 <= i < |rows|
    requires rows[i].province == province && rows[i].canton == canton
    requires geodesicKm(origin, rows[i].coord) <= limit
    ensures Candidate(rows[i], geodesicKm(origin, rows[i].coord)) in Nearby(rows, origin, geodesicKm, province, canton, limit)
  {
    var c := Candidate(rows[i], geodesicKm(origin, rows[i].coord));
    assert rows[i] in multiset(rows);
    assert multiset(Nearby(rows, origin, geodesicKm, province, canton, limit))[c] > 0;
  }

  /** The table is computed only when both the origin and the
      customer coordinate are known; `None` is "not computed", `Some([])` is the
      "no pharmacies nearby" warning. Distances are measured from the origin. */
  function NearbyIfRouted(rows: seq<Pdv>, origin: Option<Coord>, destination: Option<Coord>,
                          geodesicKm: (Coord, Coord) -> real,
                          province: string, canton: string, limit: real): (r: Option<seq<Candidate>>)
    ensures r.Some? <==> origin.Some? && destination.Some?
    ensures r.Some? ==> r.value == Nearby(rows, origin.value, geodesicKm, province, canton, limit)
    ensures r.Some? ==> SortedByDistance(r.value)
    ensures r.Some? ==> forall i :: 0 <= i < |r.value| ==>
              Qualifies(r.value[i], origin.value, geodesicKm, province, canton, limit)
  {
    if origin.Some? && destination.Some? then
      Some(Nearby(rows, origin.value, geodesicKm, province, canton, limit))
    else None
  }

  /** The customer's coordinate decides only whether the table is shown, not what it holds. */
  lemma DestinationDoesNotMatter(rows: seq<Pdv>, origin: Option<Coord>, d1: Coord, d2: Coord,
                                 geodesicKm: (Coord, Coord) -> real,
                                 province: string, canton: string, limit: real)
    ensures NearbyIfRouted(rows, origin, Some(d1), geodesicKm, province, canton, limit)
         == NearbyIfRouted(rows, origin, Some(d2), geodesicKm, province, canton, limit)
  {
  }
}
