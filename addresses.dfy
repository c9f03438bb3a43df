/**
 * The cafe locator of src/screens/our_addresses_screen.py: a fixed list of
 * cafes, a case-insensitive search over name or address, a map view with
 * one marker per visible cafe, a list view with one row per visible cafe
 * (or a "nothing found" row), and a map/list toggle.
 *
 * Coordinates are carried, never computed with.
 */
module Addresses {
  import Text

  datatype Coord = Coord(latitude: real, longitude: real)

  datatype CafeLocation = CafeLocation(name: string, address: string, position: Coord)

  /** A map marker for one cafe. */
  datatype Marker = Marker(location: CafeLocation)

  /** A two-line list item: primary and secondary text. */
  datatype ListRow = ListRow(text: string, secondaryText: string)

  const NotFoundRow: ListRow := ListRow("Ничего не найдено", "Измените поисковый запрос")

  const MapMode: string := "map"
  const ListMode: string := "list"
  const Down: string := "down"
  const Normal: string := "normal"

  /** The zoom level focusing a cafe guarantees at least. */
  const FocusZoom: int := 13

  const InitialLocations: seq<CafeLocation> := [
    CafeLocation("Куб Кофе — Арбат", "ул. Арбат, 12", Coord(55.7522, 37.5928)),
    CafeLocation("Куб Кофе — Тверская", "ул. Тверская, 18", Coord(55.7647, 37.6055)),
    CafeLocation("Куб Кофе — Белорусская", "площадь Тверская Застава, 2", Coord(55.7722, 37.5822)),
    CafeLocation("Куб Кофе — Курская", "ул. Земляной Вал, 33", Coord(55.7579, 37.6670)),
    CafeLocation("Куб Кофе — Савёловская", "ул. Бутырская, 10", Coord(55.7921, 37.5824)),
    CafeLocation("Куб Кофе — Павелецкая", "ул. Валовая, 11", Coord(55.7312, 37.6384)),
    CafeLocation("Куб Кофе — Сокол", "Ленинградский проспект, 76", Coord(55.8046, 37.5166)),
    CafeLocation("Куб Кофе — Маяковская", "1-я Тверская-Ямская ул., 2", Coord(55.7700, 37.5978)),
    CafeLocation("Куб Кофе — Красные Ворота", "ул. Мясницкая, 24/7", Coord(55.7680, 37.6498)),
    CafeLocation("Куб Кофе — Новокузнецкая", "ул. Пятницкая, 25", Coord(55.7435, 37.6306))
  ]

  /** `search_text.strip().lower()`. */
  function NormalizedQuery(searchText: string): string {
    Text.LowerAll(Text.Strip(searchText))
  }

  /** `query in loc.name.lower() or query in loc.address.lower()`. */
  predicate Matches(loc: CafeLocation, query: string) {
    Text.Contains(Text.LowerAll(loc.name), query) || Text.Contains(Text.LowerAll(loc.address), query)
  }

  /** `a` can be obtained from `b` by deleting elements: the order of `b` is kept. */
  predicate IsSubsequence(a: seq<CafeLocation>, b: seq<CafeLocation>)
    decreases |b|
  {
    a == [] || (b != [] && ((a[0] == b[0] && IsSubsequence(a[1..], b[1..])) || IsSubsequence(a, b[1..])))
  }

  /** The list comprehension of `apply_filters` for a non-empty query. */
  function FilterLocations(locs: seq<CafeLocation>, query: string): seq<CafeLocation> {
    if locs == [] then []
    else if Matches(locs[0], query) then [locs[0]] + FilterLocations(locs[1..], query)
    else FilterLocations(locs[1..], query)
  }

  /** The filter keeps exactly the matching cafes, in their original order. */
  lemma {:induction false} FilterSpec(locs: seq<CafeLocation>, query: string)
    ensures forall l :: l in FilterLocations(locs, query) <==> l in locs && Matches(l, query)
    ensures IsSubsequence(FilterLocations(locs, query), locs)
  {
    if locs != [] {
      FilterSpec(locs[1..], query);
      var rest := FilterLocations(locs[1..], query);
      if Matches(locs[0], query) {
        assert ([locs[0]] + rest)[1..] == rest;
      }
    }
  }

  /** `_visible_locations` as `apply_filters` computes it: all cafes for a blank query. */
  function Visible(locs: seq<CafeLocation>, searchText: string): seq<CafeLocation> {
    var query := NormalizedQuery(searchText);
    if query == [] then locs else FilterLocations(locs, query)
  }

  /** Filtering a concatenation filters each part and keeps them in order. */
  lemma {:induction false} FilterAppend(a: seq<CafeLocation>, b: seq<CafeLocation>, query: string)
    ensures FilterLocations(a + b, query) == FilterLocations(a, query) + FilterLocations(b, query)
  {
    if a != [] {
      assert (a + b)[1..] == a[1..] + b;
      FilterAppend(a[1..], b, query);
    } else {
      assert a + b == b;
    }
  }

  /** Filtering twice with the same query changes nothing more. */
  lemma {:induction false} FilterIdempotent(locs: seq<CafeLocation>, query: string)
    ensures FilterLocations(FilterLocations(locs, query), query) == FilterLocations(locs, query)
  {
    if locs != [] {
      FilterIdempotent(locs[1..], query);
    }
  }

  /** Every cafe contains the empty query, so the blank-query shortcut agrees with the filter. */
  lemma {:induction false} FilterEmptyQueryKeepsAll(locs: seq<CafeLocation>)
    ensures FilterLocations(locs, "") == locs
  {
    if locs != [] {
      Text.EmptyContained(Text.LowerAll(locs[0].name));
      FilterEmptyQueryKeepsAll(locs[1..]);
    }
  }

  /**
   * A blank (empty or all-whitespace) search shows every cafe in its
   * original order; any other search shows exactly the cafes whose
   * lowercased name or address contains the normalised query, in their
   * original order.
   */
  lemma VisibleSpec(locs: seq<CafeLocation>, searchText: string)
    ensures (forall i :: 0 <= i < |searchText| ==> Text.IsSpace(searchText[i])) ==>
              Visible(locs, searchText) == locs
    ensures Visible(locs, searchText) == FilterLocations(locs, NormalizedQuery(searchText))
    ensures IsSubsequence(Visible(locs, searchText), locs)
    ensures forall l :: l in Visible(locs, searchText) <==>
              l in locs && Matches(l, NormalizedQuery(searchText))
  {
    Text.StripSpec(searchText);
    FilterEmptyQueryKeepsAll(locs);
    FilterSpec(locs, NormalizedQuery(searchText));
  }

  /** The search never reorders, drops or invents cafes beyond what the query excludes. */
  lemma {:induction false} SubsequenceLength(a: seq<CafeLocation>, b: seq<CafeLocation>)
    requires IsSubsequence(a, b)
    ensures |a| <= |b|
    decreases |b|
  {
    if a != [] {
      if a[0] == b[0] && IsSubsequence(a[1..], b[1..]) {
        SubsequenceLength(a[1..], b[1..]);
      } else {
        SubsequenceLength(a, b[1..]);
      }
    }
  }

  /** The screen starts with the ten cafes and an empty search, which shows all of them. */
  lemma InitialSearchShowsAll()
    ensures |InitialLocations| == 10
    ensures Visible(InitialLocations, "") == InitialLocations
  {
    assert Text.Strip("") == "";
  }

  function MarkersFor(visible: seq<CafeLocation>): seq<Marker> {
    seq(|visible|, i requires 0 <= i < |visible| => Marker(visible[i]))
  }

  function RowOf(loc: CafeLocation): ListRow {
    ListRow(loc.name, loc.address)
  }

  /** The rows `_populate_list` leaves: the placeholder alone, or one row per cafe. */
  function RowsFor(visible: seq<CafeLocation>): seq<ListRow> {
    if visible == [] then [NotFoundRow]
    else seq(|visible|, i requires 0 <= i < |visible| => RowOf(visible[i]))
  }

  /** The list is never empty: one placeholder when nothing is visible, else one row per cafe in order. */
  lemma RowsShape(visible: seq<CafeLocation>)
    ensures |RowsFor(visible)| == if visible == [] then 1 else |visible|
    ensures visible == [] ==> RowsFor(visible) == [NotFoundRow]
    ensures forall i :: 0 <= i < |visible| ==>
              RowsFor(visible)[i].text == visible[i].name &&
              RowsFor(visible)[i].secondaryText == visible[i].address
  {
  }

  /** `map_view.remove_marker(m)`: the first occurrence of `m` goes. */
  function RemoveMarker(layer: seq<Marker>, m: Marker): seq<Marker> {
    if layer == [] then []
    else if layer[0] == m then layer[1..]
    else [layer[0]] + RemoveMarker(layer[1..], m)
  }

  function ToggleFor(viewMode: string, mode: string): string {
    if viewMode == mode then Down else Normal
  }

  function Max(a: int, b: int): int {
    if a >= b then a else b
  }

  /** Which of the kv layout's ids the screen finds. */
  datatype Layout = Layout(mapView: bool, addressList: bool, mapToggle: bool, listToggle: bool, viewManager: bool)

  class OurAddressesScreen {
    const layout: Layout
    /** `_locations`: never changed after construction. */
    const locations: seq<CafeLocation>
    /** The `view_mode` property: "map" or "list". */
    var viewMode: string
    /** The `search_text` property. */
    var searchText: string
    /** `_visible_locations`. */
    var visible: seq<CafeLocation>
    /** `_map_markers`. */
    var markers: seq<Marker>
    /** The markers on the map widget. */
    var mapLayer: seq<Marker>
    /** The children of the `address_list` widget. */
    var rows: seq<ListRow>
    /** `state` of the `map_toggle` and `list_toggle` buttons. */
    var mapToggleState: string
    var listToggleState: string
    /** `current` of `addresses_view_manager`. */
    var managerCurrent: string
    /** The map view's center and zoom. */
    var center: Coord
    var zoom: int
    /** `_initialized`. */
    var initialized: bool

    /**
     * The visible cafes always follow the search text (the property observer
     * re-filters on every change), the map widget holds exactly the
     * screen's own markers, and the screen counts as initialized only once
     * both the map and the list exist.
     */
    ghost predicate Valid()
      reads this
    {
      visible == Visible(locations, searchText) && mapLayer == markers &&
      (initialized ==> layout.mapView && layout.addressList)
    }

    /** The toggle buttons and the view manager show the current mode, where they exist. */
    ghost predicate Synced()
      reads this
    {
      (layout.mapToggle ==> mapToggleState == ToggleFor(viewMode, MapMode)) &&
      (layout.listToggle ==> listToggleState == ToggleFor(viewMode, ListMode)) &&
      (layout.viewManager ==> managerCurrent == viewMode)
    }

    constructor (layout: Layout, center: Coord, zoom: int)
      ensures Valid()
      ensures this.layout == layout && locations == InitialLocations
      ensures viewMode == MapMode && searchText == "" && visible == InitialLocations
      ensures markers == [] && rows == [] && !initialized
      ensures this.center == center && this.zoom == zoom
    {
      this.layout := layout;
      locations := InitialLocations;
      viewMode := MapMode;
      searchText := "";
      visible := InitialLocations;
      markers := [];
      mapLayer := [];
      rows := [];
      mapToggleState := Normal;
      listToggleState := Normal;
      managerCurrent := "";
      this.center := center;
      this.zoom := zoom;
      initialized := false;
      InitialSearchShowsAll();
    }

    /** `_sync_toggle_buttons`. */
    method SyncToggleButtons()
      modifies this`mapToggleState, this`listToggleState
      ensures layout.mapToggle ==> mapToggleState == ToggleFor(viewMode, MapMode)
      ensures !layout.mapToggle ==> mapToggleState == old(mapToggleState)
      ensures layout.listToggle ==> listToggleState == ToggleFor(viewMode, ListMode)
      ensures !layout.listToggle ==> listToggleState == old(listToggleState)
    {
      if layout.mapToggle {
        mapToggleState := if viewMode == MapMode then Down else Normal;
      }
      if layout.listToggle {
        listToggleState := if viewMode == ListMode then Down else Normal;
      }
    }

    /** `on_view_mode`: sync the toggles and show the matching view. */
    method OnViewMode()
      modifies this`mapToggleState, this`listToggleState, this`managerCurrent
      ensures Synced()
      ensures !layout.mapToggle ==> mapToggleState == old(mapToggleState)
      ensures !layout.listToggle ==> listToggleState == old(listToggleState)
      ensures !layout.viewManager ==> managerCurrent == old(managerCurrent)
    {
      SyncToggleButtons();
      if layout.viewManager && managerCurrent != viewMode {
        managerCurrent := viewMode;
      }
    }

    /** `on_toggle_state`: only a toggle pressed down on the other mode switches the mode. */
    method OnToggleState(mode: string, state: string)
      modifies this`viewMode, this`mapToggleState, this`listToggleState, this`managerCurrent
      ensures state == Down && mode != old(viewMode) ==> viewMode == mode && Synced()
      ensures !(state == Down && mode != old(viewMode)) ==>
                viewMode == old(viewMode) && mapToggleState == old(mapToggleState) &&
                listToggleState == old(listToggleState) && managerCurrent == old(managerCurrent)
    {
      if state != Down || mode == viewMode {
        return;
      }
      viewMode := mode;
      OnViewMode();
    }

    /** `_populate_map`: take the old markers off the map, then one marker per visible cafe. */
    method PopulateMap()
      requires Valid()
      modifies this`markers, this`mapLayer, this`center
      ensures Valid()
      ensures !layout.mapView ==> markers == old(markers) && center == old(center)
      ensures layout.mapView ==> markers == MarkersFor(visible)
      ensures layout.mapView && visible != [] ==> center == visible[0].position
      ensures visible == [] ==> center == old(center)
    {
      if !layout.mapView {
        return;
      }
      var i := 0;
      while i < |markers|
        invariant 0 <= i <= |markers|
        invariant mapLayer == markers[i..]
        invariant center == old(center)
      {
        mapLayer := RemoveMarker(mapLayer, markers[i]);
        i := i + 1;
      }
      markers := [];
      if visible == [] {
        assert MarkersFor(visible) == [];
        return;
      }
      var j := 0;
      while j < |visible|
        invariant 0 <= j <= |visible|
        invariant mapLayer == markers
        invariant |markers| == j && forall k :: 0 <= k < j ==> markers[k] == Marker(visible[k])
      {
        var m := Marker(visible[j]);
        mapLayer := mapLayer + [m];
        markers := markers + [m];
        j := j + 1;
      }
      center := visible[0].position;
    }

    /** `_populate_list`: clear the list, then the placeholder or one row per visible cafe. */
    method PopulateList()
      modifies this`rows
      ensures layout.addressList ==> rows == RowsFor(visible)
      ensures !layout.addressList ==> rows == old(rows)
    {
      if !layout.addressList {
        return;
      }
      rows := [];
      if visible == [] {
        rows := rows + [NotFoundRow];
        return;
      }
      var j := 0;
      while j < |visible|
        invariant 0 <= j <= |visible|
        invariant |rows| == j && forall k :: 0 <= k < j ==> rows[k] == RowOf(visible[k])
      {
        rows := rows + [RowOf(visible[j])];
        j := j + 1;
      }
    }

    /** `apply_filters`: recompute the visible cafes and redraw both views. */
    method ApplyFilters()
      requires Valid()
      modifies this`visible, this`markers, this`mapLayer, this`center, this`rows
      ensures Valid()
      ensures visible == Visible(locations, searchText)
      ensures layout.mapView ==> markers == MarkersFor(visible)
      ensures !layout.mapView ==> markers == old(markers)
      ensures layout.addressList ==> rows == RowsFor(visible)
      ensures !layout.addressList ==> rows == old(rows)
    {
      visible := Visible(locations, searchText);
      PopulateMap();
      PopulateList();
    }

    /** `update_search`: the same text changes nothing; new text is stored and re-filters. */
    method UpdateSearch(text: string)
      requires Valid()
      modifies this`searchText, this`visible, this`markers, this`mapLayer, this`center, this`rows
      ensures Valid()
      ensures searchText == text && visible == Visible(locations, text)
      ensures text == old(searchText) ==>
                markers == old(markers) && rows == old(rows) && center == old(center)
      ensures text != old(searchText) && layout.mapView ==> markers == MarkersFor(visible)
      ensures text != old(searchText) && layout.addressList ==> rows == RowsFor(visible)
    {
      if searchText == text {
        return;
      }
      searchText := text;
      visible := Visible(locations, searchText);
      ApplyFilters();
    }

    /** `_focus_location`: without a map nothing happens; otherwise map mode, centered, zoom at least 13. */
    method FocusLocation(loc: CafeLocation)
      modifies this`viewMode, this`mapToggleState, this`listToggleState, this`managerCurrent
      modifies this`center, this`zoom
      ensures !layout.mapView ==>
                viewMode == old(viewMode) && center == old(center) && zoom == old(zoom) &&
                mapToggleState == old(mapToggleState) && listToggleState == old(listToggleState) &&
                managerCurrent == old(managerCurrent)
      ensures layout.mapView ==>
                viewMode == MapMode && center == loc.position && zoom == Max(old(zoom), FocusZoom)
      ensures layout.mapView && old(viewMode) != MapMode ==> Synced()
      ensures layout.mapView && old(viewMode) == MapMode ==>
                mapToggleState == old(mapToggleState) && listToggleState == old(listToggleState) &&
                managerCurrent == old(managerCurrent)
      ensures zoom >= old(zoom)
    {
      if !layout.mapView {
        return;
      }
      var changed := viewMode != MapMode;
      viewMode := MapMode;
      if changed {
        OnViewMode();
      }
      center := loc.position;
      zoom := Max(zoom, FocusZoom);
    }

    /**
     * `_ensure_initialized`: once both the map and the list exist the screen
     * is marked initialized for good, and every call then re-filters and
     * re-syncs the views; before that nothing happens.
     */
    method EnsureInitialized()
      requires Valid()
      modifies this`initialized, this`visible, this`markers, this`mapLayer, this`center, this`rows
      modifies this`mapToggleState, this`listToggleState, this`managerCurrent
      ensures Valid()
      ensures initialized == (old(initialized) || (layout.mapView && layout.addressList))
      ensures initialized ==> Synced() && rows == RowsFor(visible)
      ensures initialized && layout.mapView ==> markers == MarkersFor(visible)
      ensures !initialized ==>
                markers == old(markers) && rows == old(rows) && center == old(center) &&
                mapToggleState == old(mapToggleState) && listToggleState == old(listToggleState) &&
                managerCurrent == old(managerCurrent)
    {
      if initialized {
        ApplyFilters();
        OnViewMode();
        return;
      }
      if !layout.mapView || !layout.addressList {
        return;
      }
      initialized := true;
      ApplyFilters();
      OnViewMode();
    }
  }
}
