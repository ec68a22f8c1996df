/** The `Mapsheet` object: configuration, the point collection built from a
    Tabletop sheet, and the `loadPoints`/`draw` flow that drives a provider. */
module Sheets {
  import opened Wrappers
  import opened Options
  import opened Points
  import opened Markers
  import opened Providers

  /** What Tabletop hands to `loadPoints`: the sheet names in order and the
      rows of each sheet. */
  datatype Tabletop = Tabletop(modelNames: seq<string>, sheets: map<string, seq<Row>>)

  /** The options object given to `new Mapsheet(...)`; None is `undefined`.
      The popup template arrives already compiled, the element already
      looked up. */
  datatype SheetOptions = SheetOptions(
    key: string,
    element: Element,
    sheetName: Option<string>,
    provider: Option<Backend>,
    injectedMap: Option<MapSurface>,
    mapOptions: Option<Options>,
    fields: Option<seq<string>>,
    titleColumn: Option<string>,
    popupContent: Option<Renderer>,
    popupTemplate: Option<Renderer>,
    markerOptions: Option<map<string, string>>)

  datatype Mapsheet = Mapsheet(
    key: string,
    element: Element,
    sheetName: Option<string>,
    renderer: Provider,
    fields: Option<seq<string>>,
    titleColumn: Option<string>,
    popupContent: Option<Renderer>,
    popupTemplate: Option<Renderer>,
    markerOptions: map<string, string>,
    points: seq<Point>)

  /** The constructor: Leaflet unless a provider is named, no marker options
      means `{}`, and the renderer is built with the given map and options.
      No points exist until data arrives. */
  function NewMapsheet(o: SheetOptions): (s: Mapsheet)
    ensures s.renderer == NewProvider(o.provider.GetOr(UseLeaflet), o.injectedMap, o.mapOptions)
    ensures o.provider.None? ==> s.renderer.Leaflet?
    ensures s.renderer.surface == o.injectedMap
    ensures s.markerOptions == (if o.markerOptions.Some? then o.markerOptions.value else map[])
    ensures s.sheetName == o.sheetName && s.element == o.element && s.points == []
  {
    Mapsheet(o.key, o.element, o.sheetName,
             NewProvider(o.provider.GetOr(UseLeaflet), o.injectedMap, o.mapOptions),
             o.fields, o.titleColumn, o.popupContent, o.popupTemplate,
             o.markerOptions.GetOr(map[]), [])
  }

  /** The Point `loadPoints` makes for one row: the row plus the sheet's
      popup and marker configuration. */
  function PointFor(s: Mapsheet, row: Row): (p: Point)
    ensures p.model == row && p.fields == s.fields && p.titleColumn == s.titleColumn
    ensures p.popupContent == s.popupContent && p.popupTemplate == s.popupTemplate
    ensures p.markerOptions == s.markerOptions
  {
    Point(row, s.fields, s.popupContent, s.popupTemplate, s.titleColumn, s.markerOptions)
  }

  /** The sheet `loadPoints` reads: the configured one, else Tabletop's first
      (undefined when Tabletop has none). */
  function ResolveSheetName(configured: Option<string>, t: Tabletop): (r: Option<string>)
    ensures configured.Some? ==> r == configured
    ensures configured.None? && |t.modelNames| > 0 ==> r == Some(t.modelNames[0])
    ensures configured.None? && |t.modelNames| == 0 ==> r.None?
  {
    if configured.Some? then configured
    else if |t.modelNames| > 0 then Some(t.modelNames[0])
    else None
  }

  /** `draw()`: `initialize` on the element, then `drawPoints` on the points. */
  function Draw(s: Mapsheet, parse: Parser): (r: Mapsheet)
    ensures r == s.(renderer := r.renderer)
    ensures r.points == s.points && r.sheetName == s.sheetName
    ensures Ready(r.renderer) && r.renderer.Kind() == s.renderer.Kind()
    ensures s.renderer.surface.Some? ==>
      r.renderer.surface.value.origin == s.renderer.surface.value.origin
  {
    s.(renderer := DrawPoints(Initialize(s.renderer, s.element), s.points, parse))
  }

  /** What one `draw()` leaves on the map: the earlier overlays (none on a
      map it just created), then one marker per valid point in order, and
      exactly one more fit. */
  lemma DrawEffect(s: Mapsheet, parse: Parser)
    ensures var before := Initialize(s.renderer, s.element).surface.value;
            var after := Draw(s, parse).renderer.surface.value;
            && after.overlays == before.overlays + Drawn(Initialize(s.renderer, s.element), s.points, parse)
            && |after.fits| == |before.fits| + 1
            && |Drawn(Initialize(s.renderer, s.element), s.points, parse)| == |ValidPoints(s.points, parse)|
    ensures s.renderer.surface.None? ==>
      Draw(s, parse).renderer.surface.value.overlays == Drawn(Initialize(s.renderer, s.element), s.points, parse)
  {
    DrawPointsEffect(Initialize(s.renderer, s.element), s.points, parse);
  }

  /** How `loadPoints` ends: drawn, or thrown out of `sheets(name).elements`
      when the sheet does not exist (after `points` was emptied and the
      sheet name assigned). */
  datatype LoadOutcome = Loaded(sheet: Mapsheet) | SheetMissing(sheet: Mapsheet)

  /** The sheet `loadPoints` will read exists. */
  predicate SheetFound(s: Mapsheet, t: Tabletop) {
    var name := ResolveSheetName(s.sheetName, t);
    name.Some? && name.value in t.sheets
  }

  /** `loadPoints(data, tabletop)`. */
  function LoadPoints(s: Mapsheet, t: Tabletop, parse: Parser): (r: LoadOutcome)
    ensures r.sheet.sheetName == ResolveSheetName(s.sheetName, t)
    ensures r.sheet.(points := s.points, sheetName := s.sheetName, renderer := s.renderer) == s
    ensures r.Loaded? <==> r.sheet.sheetName.Some? && r.sheet.sheetName.value in t.sheets
    ensures r.SheetMissing? ==> r.sheet.points == [] && r.sheet.renderer == s.renderer
    ensures r.Loaded? ==>
      var rows := t.sheets[r.sheet.sheetName.value];
      && |r.sheet.points| == |rows|
      && forall i :: 0 <= i < |rows| ==> r.sheet.points[i] == PointFor(s, rows[i])
  {
    var name := ResolveSheetName(s.sheetName, t);
    var reset := s.(points := [], sheetName := name);
    if name.Some? && name.value in t.sheets then
      var rows := t.sheets[name.value];
      var points := seq(|rows|, i requires 0 <= i < |rows| => PointFor(s, rows[i]));
      Loaded(Draw(reset.(points := points), parse))
    else
      SheetMissing(reset)
  }

  /** A successful load draws its points through the provider: `initialize`
      first, then `drawPoints` over the fresh points. */
  lemma LoadPointsDraws(s: Mapsheet, t: Tabletop, parse: Parser)
    requires SheetFound(s, t)
    ensures var r := LoadPoints(s, t, parse).sheet;
            r.renderer == DrawPoints(Initialize(s.renderer, s.element), r.points, parse)
  {
  }

  /** Once a sheet name is resolved it sticks: a later load reads the same
      sheet even if Tabletop's first sheet has changed. */
  lemma SheetNameSticks(s: Mapsheet, t1: Tabletop, t2: Tabletop, parse: Parser)
    requires ResolveSheetName(s.sheetName, t1).Some?
    ensures LoadPoints(LoadPoints(s, t1, parse).sheet, t2, parse).sheet.sheetName
         == LoadPoints(s, t1, parse).sheet.sheetName
  {
  }

  /** Reloading replaces the points; it never appends to them. */
  lemma ReloadReplacesPoints(s: Mapsheet, t: Tabletop, parse: Parser)
    requires SheetFound(s, t)
    ensures var once := LoadPoints(s, t, parse).sheet;
            var twice := LoadPoints(once, t, parse);
            twice.Loaded? && twice.sheet.points == once.points
  {
  }

  /** The two-row example: one row with parsable coordinates, one with a
      latitude that does not parse. Both become points; one marker is drawn
      on the map the provider creates, and the view is fit once. */
  lemma TwoRowExample(o: SheetOptions, parse: Parser)
    requires o.injectedMap.None?
    requires parse("1").Some? && parse("2").Some? && parse("x").None?
    ensures var s := NewMapsheet(o.(sheetName := None));
            var rows := [map["lat" := "1", "lng" := "2", "name" := "A"],
                         map["lat" := "x", "lng" := "2", "name" := "B"]];
            var r := LoadPoints(s, Tabletop(["Sheet1"], map["Sheet1" := rows]), parse);
            && r.Loaded?
            && |r.sheet.points| == 2
            && |r.sheet.renderer.surface.value.overlays| == 1
            && |r.sheet.renderer.surface.value.fits| == 1
  {
    var s := NewMapsheet(o.(sheetName := None));
    var rows := [map["lat" := "1", "lng" := "2", "name" := "A"],
                 map["lat" := "x", "lng" := "2", "name" := "B"]];
    var t := Tabletop(["Sheet1"], map["Sheet1" := rows]);
    var r := LoadPoints(s, t, parse);
    assert r.Loaded?;
    var pts := r.sheet.points;
    var loaded := s.(points := pts, sheetName := Some("Sheet1"));
    assert r.sheet == Draw(loaded, parse);
    RowValidity(pts[0], pts[1], parse);
    var init := Initialize(loaded.renderer, loaded.element);
    DrawEffect(loaded, parse);
    OneOfTwoValid(pts, parse);
  }

  lemma RowValidity(a: Point, b: Point, parse: Parser)
    requires a.model == map["lat" := "1", "lng" := "2", "name" := "A"]
    requires b.model == map["lat" := "x", "lng" := "2", "name" := "B"]
    requires parse("1").Some? && parse("2").Some? && parse("x").None?
    ensures IsValid(a, parse) && !IsValid(b, parse)
  {
    assert "latitude" !in a.model && "longitude" !in a.model;
    assert "latitude" !in b.model;
  }

  lemma OneOfTwoValid(pts: seq<Point>, parse: Parser)
    requires |pts| == 2 && IsValid(pts[0], parse) && !IsValid(pts[1], parse)
    ensures |ValidPoints(pts, parse)| == 1
  {
    assert pts[..1][..0] == [];
    assert |ValidPoints(pts[..1], parse)| == 1;
  }
}
