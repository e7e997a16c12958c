/** What the embedded map is configured with: its centre, its zoom level, and
    the KML overlay layers, in the order the script adds them. */
module MapView {
  import opened Wrappers
  import opened Registry
  import Session

  /** A province-canton choice of the sidebar, shown as "<province> - <canton>". */
  datatype ProvinceCanton = ProvinceCanton(province: string, canton: string) {
    function Label(): string {
      province + " - " + canton
    }
  }

  /** The three choices of the "Provincia - Cantón" select box. */
  const ProvinceCantonOptions: seq<ProvinceCanton> := [
    ProvinceCanton("Pichincha", "Quito"),
    ProvinceCanton("Guayas", "Guayaquil"),
    ProvinceCanton("Azuay", "Cuenca")
  ]

  /** `city_coords`: the fallback map centre of each choice, by label. */
  const CityCoords: map<string, Coord> := map[
    "Pichincha - Quito" := Coord(-0.180653, -78.467838),
    "Guayas - Guayaquil" := Coord(-2.189412, -79.889069),
    "Azuay - Cuenca" := Coord(-2.90055, -79.00408)
  ]

  /** Every choice of the select box has a fallback centre, so `city_coords[prov_can]` cannot fail. */
  lemma CityCoordsCoverOptions()
    ensures forall o :: o in ProvinceCantonOptions ==> o.Label() in CityCoords
  {
    assert ProvinceCantonOptions[0].Label() == "Pichincha - Quito";
    assert ProvinceCantonOptions[1].Label() == "Guayas - Guayaquil";
    assert ProvinceCantonOptions[2].Label() == "Azuay - Cuenca";
  }

  /** The map centre chosen in `app`: centred on the customer, else on the origin, else on the selected city. */
  function Centre(destination: Option<Coord>, origin: Option<Coord>, area: ProvinceCanton): (r: Coord)
    requires area in ProvinceCantonOptions
    ensures destination.Some? ==> r == destination.value
    ensures destination.None? && origin.Some? ==> r == origin.value
    ensures destination.None? && origin.None? ==> area.Label() in CityCoords && r == CityCoords[area.Label()]
  {
    CityCoordsCoverOptions();
    var r := FirstSomeOr([destination, origin], CityCoords[area.Label()]);
    assert destination.None? && origin.Some? ==> !(destination.Some?) && [destination, origin][1].Some?;
    r
  }

  /** `zoom` in `app`: the zoom level as a step function of the radius slider (km). */
  function Zoom(radiusKm: real): (z: int)
    ensures 12 <= z <= 15
    ensures z == 15 <==> radiusKm <= 1.0
    ensures z == 14 <==> 1.0 < radiusKm <= 2.5
    ensures z == 13 <==> 2.5 < radiusKm <= 5.0
    ensures z == 12 <==> 5.0 < radiusKm
  {
    if radiusKm <= 1.0 then 15 else (if radiusKm <= 2.5 then 14 else (if radiusKm <= 5.0 then 13 else 12))
  }

  /** A larger radius never gives a closer zoom. */
  lemma ZoomNonIncreasing(r1: real, r2: real)
    requires r1 <= r2
    ensures Zoom(r2) <= Zoom(r1)
  {
  }

  /** The KML overlays of `map_kml_urls`. */
  datatype Layer = LogisticaQuito | LogisticaGuayaquil | UbicacionPdvNacional

  function LayerName(l: Layer): string {
    match l
    case LogisticaQuito => "Logistica Quito"
    case LogisticaGuayaquil => "Logistica Guayaquil"
    case UbicacionPdvNacional => "Ubicacion PDV Nacional"
  }

  /** The prefix every layer's URL shares: a Google My Maps KML export. */
  const KmlExport: string := "https://www.google.com/maps/d/kml?mid="

  /** `map_kml_urls`: the KML export of each layer's My Maps map, by layer name. */
  const MapKmlUrls: map<string, string> := map[
    "Logistica Quito" := KmlExport + "1VM9PYAfefV4hQRk-Ew6vBmBWKc6ol9U",
    "Logistica Guayaquil" := KmlExport + "1tID-UCrZAom8k-CiPolZa1fqwz_02as",
    "Ubicacion PDV Nacional" := KmlExport + "1E274ysxqq1OJFObOlgGSyZ9yeD8r67k"
  ]

  /** `map_kml_urls[nm]`: every layer's name is a key of the table, so the lookup
      cannot fail, and the URL is a KML export. */
  function KmlUrl(l: Layer): (r: string)
    ensures LayerName(l) in MapKmlUrls && r == MapKmlUrls[LayerName(l)]
    ensures KmlExport <= r
  {
    MapKmlUrls[LayerName(l)]
  }

  /** `rutas_logistica`: the logistics layers offered as checkboxes, in order. */
  const LogisticsRoutes: seq<Layer> := [LogisticaQuito, LogisticaGuayaquil]

  /** The session key of a layer's checkbox: for a logistics layer
      `f"map_logistica_{nm.split()[-1]}"`, "map_logistica_" followed by the last
      word of its name; for the national layer the fixed key "pdv_nacional". */
  function CheckboxKey(l: Layer): (r: string)
    ensures l != UbicacionPdvNacional ==> r == "map_logistica_" + LayerName(l)[|"Logistica "|..]
    ensures l == UbicacionPdvNacional ==> r == "pdv_nacional"
  {
    match l
    case LogisticaQuito => "map_logistica_Quito"
    case LogisticaGuayaquil => "map_logistica_Guayaquil"
    case UbicacionPdvNacional => "pdv_nacional"
  }

  /** `selected_logistica`: the logistics layers whose checkbox is ticked, in the order offered. */
  function SelectedLogistics(routes: seq<Layer>, ticked: Layer -> bool): (r: seq<Layer>)
    ensures forall l :: l in r <==> l in routes && ticked(l)
    ensures |r| <= |routes|
  {
    if routes == [] then []
    else if ticked(routes[0]) then [routes[0]] + SelectedLogistics(routes[1..], ticked)
    else SelectedLogistics(routes[1..], ticked)
  }

  /** On the offered routes, the selection is Quito's layer before Guayaquil's, each when ticked. */
  lemma SelectedLogisticsOrder(ticked: Layer -> bool)
    ensures SelectedLogistics(LogisticsRoutes, ticked)
         == (if ticked(LogisticaQuito) then [LogisticaQuito] else [])
          + (if ticked(LogisticaGuayaquil) then [LogisticaGuayaquil] else [])
  {
    assert LogisticsRoutes[1..] == [LogisticaGuayaquil];
    assert LogisticsRoutes[1..][1..] == [];
  }

  /** The selection is the filter of the offered routes taken in their order:
      offering one more route adds it at the end exactly when it is ticked. */
  lemma {:induction false} SelectedLogisticsSnoc(routes: seq<Layer>, l: Layer, ticked: Layer -> bool)
    ensures SelectedLogistics(routes + [l], ticked)
         == SelectedLogistics(routes, ticked) + (if ticked(l) then [l] else [])
  {
    if routes == [] {
      assert routes + [l] == [l];
    } else {
      assert (routes + [l])[0] == routes[0];
      assert (routes + [l])[1..] == routes[1..] + [l];
      SelectedLogisticsSnoc(routes[1..], l, ticked);
    }
  }

  /** `f` applied to each element of `xs`, in the same order. */
  function Mapped<T, U>(xs: seq<T>, f: T -> U): (r: seq<U>)
    ensures |r| == |xs| && forall i :: 0 <= i < |xs| ==> r[i] == f(xs[i])
  {
    seq(|xs|, i requires 0 <= i < |xs| => f(xs[i]))
  }

  lemma MappedSnoc<T, U>(xs: seq<T>, x: T, f: T -> U)
    ensures Mapped(xs + [x], f) == Mapped(xs, f) + [f(x)]
  {
  }

  /** The URLs of `layers`, in the same order. */
  function Urls(layers: seq<Layer>): seq<string> {
    Mapped(layers, KmlUrl)
  }

  /** The layers the map gets: the selected logistics layers, then the national layer when shown. */
  function LayerOrder(selected: seq<Layer>, national: bool): seq<Layer> {
    selected + (if national then [UbicacionPdvNacional] else [])
  }

  /** The KML part of the map script: `kml_js` accumulated with `+=`, one `KmlLayer` statement per
      layer; the model keeps the URL each statement loads, in statement order. */
  method BuildKmlLayers(selected: seq<Layer>, national: bool) returns (kml: seq<string>)
    ensures kml == Urls(LayerOrder(selected, national))
  {
    kml := [];
    var i := 0;
    while i < |selected|
      invariant 0 <= i <= |selected|
      invariant kml == Urls(selected[..i])
    {
      MappedSnoc(selected[..i], selected[i], KmlUrl);
      assert selected[..i] + [selected[i]] == selected[..i + 1];
      kml := kml + [KmlUrl(selected[i])];
      i := i + 1;
    }
    assert selected[..i] == selected;
    if national {
      MappedSnoc(selected, UbicacionPdvNacional, KmlUrl);
      kml := kml + [KmlUrl(UbicacionPdvNacional)];
    } else {
      assert LayerOrder(selected, national) == selected;
    }
  }

  /** The national layer, when shown, is loaded last, after every selected logistics
      layer in its order; when not shown, only the selected layers are loaded. */
  lemma NationalLayerLast(selected: seq<Layer>, national: bool)
    ensures |Urls(LayerOrder(selected, national))| == |selected| + (if national then 1 else 0)
    ensures Urls(LayerOrder(selected, national))[..|selected|] == Urls(selected)
    ensures national ==> Urls(LayerOrder(selected, national))[|selected|] == KmlUrl(UbicacionPdvNacional)
  {
  }

  /** The keys under which the sidebar's widgets and the resolved customer
      coordinate live in the session store. */
  function SidebarKeys(): seq<string> {
    ["origen_pdv", "transfer_exist", "transfer1_pdv", "transfer2_exist", "transfer2_pdv",
     "address_input", "address_sel", "coords_cliente", "provincia_canton", "distance_limit",
     CheckboxKey(LogisticaQuito), CheckboxKey(LogisticaGuayaquil), CheckboxKey(UbicacionPdvNacional)]
  }

  /** The "new search" button forgets exactly the sidebar's keys: every widget
      key, the layer checkboxes' keys included, and the customer coordinate. */
  lemma ResetCoversSidebar()
    ensures SidebarKeys() == Session.ResetKeys
  {
  }
}
