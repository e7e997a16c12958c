# Pharmacy delivery planner: the decision rules, in Dafny

The application is a single-page Streamlit app that dispatchers use to plan a pharmacy
delivery. It loads a registry of points of sale (pharmacies, hubs and bases) from a
spreadsheet. The dispatcher picks an origin, up to two transfer stops and a customer
address. The app then lists the nearby pharmacies, asks a directions service for the
route, reports its length, and draws a map with KML overlays.

This project models the decision logic inside `app_gmaps_kmllayerV34.py` that sits
between those external services, and proves what that logic promises:

- **Registry** (`cargar_datos`): header normalisation (`strip`, then `lower`) and the
  detection of the latitude, longitude, province and canton columns. Each column is the
  first normalised header that matches its rule. The canton rule excludes headers
  containing "provincia". Loading fails when any of the four columns is missing.
- **Session**: the per-user session store as a class over a mutable map.
  - `clear_address` pops the two address keys.
  - The "new search" button pops thirteen fixed keys.
  - Popping an absent key does nothing.
- **Config**: the API key. It is the first non-empty value among two secrets and two
  environment variables, in that order. The app stops when there is none.
- **Proximity**: the nearby-pharmacies table. It keeps the rows of the selected province
  and canton and attaches each row's distance from the origin. It keeps the rows within
  the radius and sorts them by distance. The model proves the table sound and complete,
  including multiplicities. It proves the table sorted and a permutation of the
  qualifying rows, and that only the order among equally distant rows is left open.
- **Route**: the waypoint list, which is transfer 1 then transfer 2, each when present.
  Also the leg summary: the total distance is the sum of the legs /1000. The partial
  distance is the sum of the first *n* legs /1000, where *n* is the number of waypoints,
  or the total when there is no waypoint.
- **MapView**: the map centre (customer, else origin, else the selected city) and the
  zoom tiers, which never zoom in as the radius grows. Also the KML layers the map loads:
  the ticked logistics layers in order, then the national layer when shown.

The geodesic distance, the place and directions services and the Streamlit widgets are
outside the model. The geodesic distance becomes a function parameter. The services'
answers and the widget values become inputs.

`sort_values` uses pandas' default quicksort, which is not stable, so `SortByDistance`
promises only a sorted permutation, and `SortedPermutationsAgree` shows that this fixes
every distance in the table.

## Model

| member | source | states |
|---|---|---|
| Text.Strip | app_gmaps_kmllayerV34.py:14 | `str.strip()`: the result is a slice of the header whose prefix and suffix are all whitespace, and it neither starts nor ends with whitespace |
| Text.StripIdempotent | app_gmaps_kmllayerV34.py:14 | stripping an already stripped header changes nothing |
| Text.Lower | app_gmaps_kmllayerV34.py:14 | `str.lower()`: same length, no capital letter left, every capital replaced by its small letter, every other character kept |
| Text.LowerIdempotent | app_gmaps_kmllayerV34.py:14 | lower-casing twice equals lower-casing once |
| Text.ContainsLength | app_gmaps_kmllayerV34.py:15-18 | a header containing a pattern is at least as long as the pattern |
| Registry.NormalHeader | app_gmaps_kmllayerV34.py:14 | `c.strip().lower()` yields a header with no capital letter and no whitespace at either end |
| Registry.NormalFixed | app_gmaps_kmllayerV34.py:14 | a header with no capital and no surrounding whitespace is left unchanged by normalisation |
| Registry.Normalize | app_gmaps_kmllayerV34.py:14 | one normalised header per original header, in the same order, each in normal form |
| Registry.NormalizeIdempotent | app_gmaps_kmllayerV34.py:14 | normalising the header list a second time changes nothing |
| Registry.Matches | app_gmaps_kmllayerV34.py:15-18 | the four substring rules on a normalised header ("lat"; "lon" or "lng"; "provincia"; "cant" but not "provincia"); a header matching any of them has at least three characters, so it is never the empty string that `all([...])` at line 19 would reject |
| Registry.FirstMatch | app_gmaps_kmllayerV34.py:15-18 | `next((c for c in cols if rule), None)`: none exactly when no header matches; otherwise the header at the first matching position |
| Registry.NoneOrTruthy | app_gmaps_kmllayerV34.py:19 | a detected column is truthy exactly when it was found |
| Registry.DetectColumns | app_gmaps_kmllayerV34.py:14-21 | loading succeeds exactly when all four rules match some normalised header; each column is the first match of its rule; the canton column contains "cant" and never "provincia" |
| Session.Lookup | app_gmaps_kmllayerV34.py:59 | `st.session_state.get(key, default)`: the stored value when the key is present, the default otherwise |
| Session.Popped | app_gmaps_kmllayerV34.py:67-74 | popping a list of keys one by one removes exactly those keys and nothing else |
| Session.ResetKeyCount | app_gmaps_kmllayerV34.py:67-73 | the reset list names 13 distinct keys |
| Session.AddressKeysAreReset | app_gmaps_kmllayerV34.py:27 | `clear_address`'s two keys are among the reset keys |
| Session.PopAbsentIsNoop | app_gmaps_kmllayerV34.py:28 | `pop(k, None)` of an absent key leaves the store as it was |
| Session.ReadAfterReset | app_gmaps_kmllayerV34.py:66-74 | after a reset, `get` of a reset key yields the default, and `get` of any other key yields what it did before |
| Session.SessionStore.Set | app_gmaps_kmllayerV34.py:113 | storing a value changes that key's entry and nothing else |
| Session.SessionStore.Pop | app_gmaps_kmllayerV34.py:28 | returns the removed value, or none when absent; the new store is the old one without the key |
| Session.SessionStore.PopAll | app_gmaps_kmllayerV34.py:27-28 | the loop of pops leaves the old store minus exactly the listed keys |
| Session.SessionStore.ClearAddress | app_gmaps_kmllayerV34.py:26-28 | the new store is the old one without "coords_cliente" and "address_sel" |
| Session.SessionStore.NewSearch | app_gmaps_kmllayerV34.py:66-74 | every reset key is gone; every other key keeps its value |
| Config.Or | app_gmaps_kmllayerV34.py:34-39 | Python's `a or b` on strings-or-None: the first operand when it is truthy, otherwise the second; the result is truthy exactly when one of the operands is |
| Config.ResolveApiKey | app_gmaps_kmllayerV34.py:34-42 | failure (the app stops) exactly when no source is a non-empty string; otherwise the key is that of the first source, in the fixed order, that is non-empty |
| Config.PrimarySecretWins | app_gmaps_kmllayerV34.py:35 | a non-empty `GOOGLE_API_KEY` secret is always the key used |
| Proximity.InArea | app_gmaps_kmllayerV34.py:156 | every kept row is in the province and canton; each row of the area keeps its multiplicity and every other row is dropped |
| Proximity.WithDistances | app_gmaps_kmllayerV34.py:157-160 | one candidate per row, in order, carrying that row's distance from the origin |
| Proximity.WithinLimit | app_gmaps_kmllayerV34.py:161 | every kept candidate is within the limit, and every candidate within the limit keeps its multiplicity |
| Proximity.SortByDistance | app_gmaps_kmllayerV34.py:161 | the result is sorted by distance and is a permutation of the input |
| Proximity.SortedPermutationsAgree | app_gmaps_kmllayerV34.py:161 | any two sorted permutations of the same candidates agree on every position's distance, so only the order of ties is open |
| Proximity.AnnotatedCount | app_gmaps_kmllayerV34.py:157-160 | attaching distances keeps each row's multiplicity, under that row's own distance only |
| Proximity.PipelineCount | app_gmaps_kmllayerV34.py:156-161 | after the filter, the distance column, the limit and the sort, a candidate occurs as often as its row does in the registry if it qualifies, and never otherwise |
| Proximity.Nearby | app_gmaps_kmllayerV34.py:155-161 | the table is sorted by distance; every entry is a row of the area, at its distance from the origin, within the limit; each qualifying row appears exactly as often as in the registry |
| Proximity.NearbyComplete | app_gmaps_kmllayerV34.py:155-161 | every row of the area within the limit appears in the table |
| Proximity.NearbyIfRouted | app_gmaps_kmllayerV34.py:155-163 | the table is computed exactly when both origin and customer coordinates are known, and is then sorted and sound |
| Proximity.DestinationDoesNotMatter | app_gmaps_kmllayerV34.py:155-160 | only the origin is used as the distance reference; the customer only gates the table |
| Route.BuildWaypoints | app_gmaps_kmllayerV34.py:190-194 | at most two waypoints, one per present transfer; transfer 1 first and transfer 2 last; nothing else |
| Route.Sum | app_gmaps_kmllayerV34.py:215 | Python's `sum` over the leg lengths; a sum of non-negative lengths is not negative |
| Route.SumConcat | app_gmaps_kmllayerV34.py:215 | the sum over a concatenation is the sum of the sums |
| Route.Summarise | app_gmaps_kmllayerV34.py:213-219 | total km times 1000 is the sum of the legs; with no waypoint the partial equals the total; otherwise partial km times 1000 is the sum of the first n legs (the whole list when it is shorter) |
| Route.PartialPlusRemainder | app_gmaps_kmllayerV34.py:215-218 | the partial distance plus the legs after the last waypoint make up the total |
| Route.PartialWithinTotal | app_gmaps_kmllayerV34.py:215-218 | with non-negative legs, 0 <= partial <= total |
| Route.RouteSummary | app_gmaps_kmllayerV34.py:198-219 | distances are shown exactly when origin and customer are known and the directions service returned a route (`if ruta:`); they are then the summary of the first route's legs |
| MapView.CityCoordsCoverOptions | app_gmaps_kmllayerV34.py:52-56 | every "Provincia - Cantón" choice has a fallback centre, so the lookup at line 245 cannot fail |
| MapView.KmlUrl | app_gmaps_kmllayerV34.py:47-51 | `map_kml_urls[nm]` at lines 255 and 257: every layer's name is a key of the table, so the lookup cannot fail, and the URL is the table's entry for that name, a My Maps KML export |
| MapView.Centre | app_gmaps_kmllayerV34.py:240-245 | the centre is the customer when known, else the origin when known, else the selected city's coordinate |
| MapView.Zoom | app_gmaps_kmllayerV34.py:246 | zoom 15 for radius <= 1 km, 14 for (1, 2.5], 13 for (2.5, 5], 12 beyond, and nothing else |
| MapView.ZoomNonIncreasing | app_gmaps_kmllayerV34.py:246 | a larger radius never yields a larger zoom |
| MapView.SelectedLogistics | app_gmaps_kmllayerV34.py:133-136 | a layer is selected exactly when it is offered and ticked; no more layers than offered |
| MapView.CheckboxKey | app_gmaps_kmllayerV34.py:131-135 | a logistics layer's checkbox key is "map_logistica_" followed by the last word of its name (`nm.split()[-1]`); the national layer's key is "pdv_nacional" |
| MapView.SelectedLogisticsSnoc | app_gmaps_kmllayerV34.py:133-136 | the selection is the filter of the offered routes in their order: one more offered route is appended exactly when ticked |
| MapView.SelectedLogisticsOrder | app_gmaps_kmllayerV34.py:132-136 | on the offered routes, the selection is Quito's layer (when ticked) before Guayaquil's (when ticked) |
| MapView.BuildKmlLayers | app_gmaps_kmllayerV34.py:253-257 | the layers loaded are the selected layers' URLs in order, followed by the national layer's URL when shown |
| MapView.NationalLayerLast | app_gmaps_kmllayerV34.py:256-257 | the national layer adds exactly one layer, after all selected ones, and changes none of them |
| MapView.ResetCoversSidebar | app_gmaps_kmllayerV34.py:67-72 | a hand-written list of the widget keys at lines 83-135 (the layer checkboxes' keys taken from `CheckboxKey`) plus `coords_cliente` equals the reset list, in the same order |

## Left out

- The spreadsheet read (`pd.read_excel`), the cache decorator and the table display (`st.dataframe`, the column list and its renaming, lines 166-187) are I/O. The registry is an input sequence of rows.
- `str.title()` on the province and canton columns (lines 22-23) is not modelled. Rows carry their province and canton already title-cased by `str.title()`, which is not modelled, and the area filter compares them with the selection.
- Text.Lower: covers `str.lower()` for ASCII and the Latin-1 capitals only. Other Unicode case mappings are left out because headers are Spanish and Latin-1 suffices.
- The geodesic distance (`geopy.distance.geodesic`) is a parameter `geodesicKm` of the proximity functions. Computing ellipsoidal distances is floating-point numerics outside the model.
- Proximity.WithDistances: `geodesicKm` is total, so the model always yields a table. In the app, a row of the area with a missing (NaN) or out-of-range coordinate makes the distance call at line 158 raise, and no table appears. Coordinates in the registry are not validated, and that crash path is not modelled.
- Registry.DetectColumns: headers are strings. A non-string column label (a numeric header cell) makes `c.strip()` at line 14 raise before the "columns not found" stop at lines 19-21. That crash path is not modelled.
- Floating-point numbers are modelled as mathematical reals. Rounding of the division by 1000 and of the `.2f` text formatting (lines 216, 219) is not modelled.
- Proximity.SortByDistance: promises sorted order and permutation, not the order among rows with equal distance, because pandas' default sort is not stable.
- The Google place-autocomplete, place-details and directions calls (lines 104-113, 198-211) are network I/O. The leg distances in metres and the customer coordinate are inputs, and storing that coordinate is `Session.SessionStore.Set`.
- Route.BuildWaypoints: returns the coordinates rather than their `"lat,lon"` text, because the text is only passed on to the directions service.
- The lookup of the origin and transfer rows by pharmacy name (lines 139-152) is not modelled. Transfer coordinates enter `BuildWaypoints` as optional values.
- The Streamlit widgets, the rerun after a reset (lines 75-78) and `st.stop()` are UI control flow. The widgets are inputs to the model, and stopping is a `Failure` result.
- The origin and transfer option lists (lines 81-96) and `prov_can.split(" - ")` are not modelled. A province-canton choice is a stored pair whose label is `"<province> - <canton>"`.
- MapView.CheckboxKey: the keys are written out as constants. The contract ties each to its layer name by a fixed-width cut after "Logistica ", not by a general word split, which is enough for the two offered route names.
- The generated HTML/JavaScript (the hub and origin markers, the route polyline, the bounds, lines 227-237 and 248-304) is text templating. Of the `KmlLayer` statements only the URL each one loads is kept, in statement order.
