/** The point-of-sale registry: its records and the detection of the four
    columns `cargar_datos` finds by substring in the spreadsheet's headers. */
module Registry {
  import opened Wrappers
  import opened Text

  /** A (latitude, longitude) pair, as read from the coordinate columns. */
  datatype Coord = Coord(lat: real, lon: real)

  /** A point of sale (PDV) of the registry, reduced to the fields the core reads:
      its name, its coordinate and its province and canton, already title-cased by
      `str.title()`, which is not modelled. */
  datatype Pdv = Pdv(name: string, coord: Coord, province: string, canton: string)

  /** The four columns located by substring rather than by their exact name. */
  datatype ColumnKind = Latitude | Longitude | Province | Canton

  /** The located columns' normalised names. */
  datatype Columns = Columns(lat: string, lon: string, province: string, canton: string)

  /** Loading stops (with an error message) when one of the four columns is missing. */
  datatype LoadError = MissingColumns

  /** The substring test of each column kind, on a normalised header. Every test
      looks for at least three characters, so a matching header is never "". */
  predicate Matches(kind: ColumnKind, header: string)
    ensures Matches(kind, header) ==> |header| >= 3
  {
    ContainsLength(header, "lat");
    ContainsLength(header, "lon");
    ContainsLength(header, "lng");
    ContainsLength(header, "provincia");
    ContainsLength(header, "cant");
    match kind
    case Latitude => Contains(header, "lat")
    case Longitude => Contains(header, "lon") || Contains(header, "lng")
    case Province => Contains(header, "provincia")
    case Canton => Contains(header, "cant") && !Contains(header, "provincia")
  }

  /** The headers with surrounding whitespace removed and then lower-cased. */
  function Normalize(headers: seq<string>): (r: seq<string>)
    ensures |r| == |headers|
    ensures forall i :: 0 <= i < |headers| ==> r[i] == Lower(Strip(headers[i]))
    ensures forall i :: 0 <= i < |r| ==> Normal(r[i])
  {
    seq(|headers|, i requires 0 <= i < |headers| => NormalHeader(headers[i]))
  }

  /** A header that normalisation leaves alone: no capital letter, and no
      whitespace at either end. */
  predicate Normal(h: string) {
    (forall k :: 0 <= k < |h| ==> !IsUpper(h[k]))
    && (h == [] || (!IsSpace(h[0]) && !IsSpace(h[|h| - 1])))
  }

  /** `c.strip().lower()` for one header. */
  function NormalHeader(h: string): (r: string)
    ensures r == Lower(Strip(h)) && Normal(r)
  {
    var t := Strip(h);
    LowerKeepsSpace();
    Lower(t)
  }

  /** Lower-casing neither creates nor removes whitespace. */
  lemma LowerKeepsSpace()
    ensures forall c :: IsSpace(LowerChar(c)) <==> IsSpace(c)
  {
  }

  /** A normal header is its own normalisation. */
  lemma NormalFixed(h: string)
    requires Normal(h)
    ensures NormalHeader(h) == h
  {
    if h != [] {
      assert LeadingSpaces(h) == 0;
      assert h[0..] == h;
      assert TrailingSpaces(h) == 0;
    }
    assert Strip(h) == h;
    var l := Lower(h);
    forall k | 0 <= k < |h| ensures l[k] == h[k] { }
  }

  /** Normalising the headers a second time changes nothing. */
  lemma NormalizeIdempotent(headers: seq<string>)
    ensures Normalize(Normalize(headers)) == Normalize(headers)
  {
    var n := Normalize(headers);
    forall i | 0 <= i < |n| ensures Normalize(n)[i] == n[i] {
      NormalFixed(n[i]);
    }
  }

  /** Header `i` is the first of `headers` that satisfies the test of `kind`. */
  predicate IsFirstMatch(headers: seq<string>, kind: ColumnKind, i: int) {
    0 <= i < |headers| && Matches(kind, headers[i])
    && forall j :: 0 <= j < i ==> !Matches(kind, headers[j])
  }

  predicate HasMatch(headers: seq<string>, kind: ColumnKind) {
    exists i | 0 <= i < |headers| :: Matches(kind, headers[i])
  }

  /** `next((c for c in headers if <test of kind>), None)`. */
  function FirstMatch(headers: seq<string>, kind: ColumnKind): (r: Option<string>)
    ensures r.None? <==> !HasMatch(headers, kind)
    ensures r.Some? ==> exists i :: IsFirstMatch(headers, kind, i) && r.value == headers[i]
  {
    if |headers| == 0 then None
    else if Matches(kind, headers[0]) then
      assert IsFirstMatch(headers, kind, 0);
      Some(headers[0])
    else
      var r := FirstMatch(headers[1..], kind);
      assert r.Some? ==> exists i :: IsFirstMatch(headers, kind, i) && r.value == headers[i] by {
        if r.Some? {
          var i :| IsFirstMatch(headers[1..], kind, i) && r.value == headers[1..][i];
          assert IsFirstMatch(headers, kind, i + 1);
        }
      }
      r
  }

  /** `cargar_datos`: normalise the headers, locate the four columns, and stop
      when `all([lat_col, lon_col, prov_col, cant_col])` is false. */
  function DetectColumns(rawHeaders: seq<string>): (r: Result<Columns, LoadError>)
    ensures r.Success? <==>
              (HasMatch(Normalize(rawHeaders), Latitude) && HasMatch(Normalize(rawHeaders), Longitude)
               && HasMatch(Normalize(rawHeaders), Province) && HasMatch(Normalize(rawHeaders), Canton))
    ensures r.Success? ==>
              (exists i :: IsFirstMatch(Normalize(rawHeaders), Latitude, i) && r.value.lat == Normalize(rawHeaders)[i])
              && (exists i :: IsFirstMatch(Normalize(rawHeaders), Longitude, i) && r.value.lon == Normalize(rawHeaders)[i])
              && (exists i :: IsFirstMatch(Normalize(rawHeaders), Province, i) && r.value.province == Normalize(rawHeaders)[i])
              && (exists i :: IsFirstMatch(Normalize(rawHeaders), Canton, i) && r.value.canton == Normalize(rawHeaders)[i])
    ensures r.Success? ==> Contains(r.value.canton, "cant") && !Contains(r.value.canton, "provincia")
  {
    var headers := Normalize(rawHeaders);
    var lat := FirstMatch(headers, Latitude);
    var lon := FirstMatch(headers, Longitude);
    var prov := FirstMatch(headers, Province);
    var cant := FirstMatch(headers, Canton);
    NoneOrTruthy(headers, Latitude);
    NoneOrTruthy(headers, Longitude);
    NoneOrTruthy(headers, Province);
    NoneOrTruthy(headers, Canton);
    if Truthy(lat) && Truthy(lon) && Truthy(prov) && Truthy(cant) then
      Success(Columns(lat.value, lon.value, prov.value, cant.value))
    else
      Failure(MissingColumns)
  }

  /** The `all([...])` truthiness check fails only for a column that was not found:
      a detected column's name is never the empty string. */
  lemma NoneOrTruthy(headers: seq<string>, kind: ColumnKind)
    ensures Truthy(FirstMatch(headers, kind)) <==> FirstMatch(headers, kind).Some?
  {
    var r := FirstMatch(headers, kind);
    if r.Some? {
      var i :| IsFirstMatch(headers, kind, i) && r.value == headers[i];
    }
  }
}
