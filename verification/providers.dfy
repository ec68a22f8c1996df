/** The four map providers of src/mapsheet.js (`Mapsheet.Providers.*`) as one
    tagged datatype. Every SDK object becomes a record: a map surface holds
    where it came from, the markers put on it and the extents it was asked to
    fit; the Google info windows are records of content, anchor and state. */
module Providers {
  import opened Wrappers
  import opened Options
  import opened Points
  import opened Markers

  /** The display element handed to `initialize`. */
  type Element = string

  /** A bounds accumulator: the positions extended into it, in order. */
  type Bounds = seq<LatLng>

  /** A map passed in by the caller, or one a provider created itself (with
      the container element it was bound to, when the element argument was
      used, and the options it was created with). */
  datatype MapOrigin = Injected(id: nat) | Created(container: Option<Element>, options: Options)

  /** A live map: what is drawn on it and every extent it was fit to. */
  datatype MapSurface = MapSurface(origin: MapOrigin, overlays: seq<Marker>, fits: seq<Bounds>)

  /** Google's shared `InfoWindow`: its content, the marker (an index into the
      map's overlays) it is anchored to, and whether it is open. */
  datatype InfoWindow = InfoWindow(content: string, anchor: Option<nat>, isOpen: bool)

  const FreshInfoWindow: InfoWindow := InfoWindow("loading...", None, false)

  /** The selector for `options.provider`. */
  datatype Backend = UseGoogle | UseMapQuest | UseMapBox | UseLeaflet

  /** One provider instance. Google keeps every info window `initialize` has
      made (the last is `this.infowindow`; earlier markers' click handlers
      still hold the one current when they were drawn). Google's `bounds` is
      undefined in the source before the first `initialize`; here it is
      empty, and nothing reads it before then. */
  datatype Provider =
    | Google(surface: Option<MapSurface>, mapOptions: Options, bounds: Bounds, infoWindows: seq<InfoWindow>)
    | MapQuest(surface: Option<MapSurface>, mapOptions: Options)
    | MapBox(surface: Option<MapSurface>, mapOptions: Options, markerLayer: seq<Marker>)
    | Leaflet(surface: Option<MapSurface>, mapOptions: Options, bounds: Bounds)
  {
    function Kind(): Backend {
      match this
      case Google(_, _, _, _) => UseGoogle
      case MapQuest(_, _) => UseMapQuest
      case MapBox(_, _, _) => UseMapBox
      case Leaflet(_, _, _) => UseLeaflet
    }

    /** The info window new Google markers bind their click handler to. */
    function Window(): nat {
      if Google? && |infoWindows| > 0 then |infoWindows| - 1 else 0
    }
  }

  const GoogleDefaults: Options := map["mapTypeId" := Text("roadmap")]

  const MapQuestDefaults: Options := map[
    "mapTypeId" := Text("osm"),
    "zoom" := Number(13.0),
    "bestFitMargin" := Number(0.0),
    "zoomOnDoubleClick" := Flag(true),
    "latLng" := Place(40.735383, -73.984655)]

  const MapBoxDefaults: Options := map["mapId" := Text("examples.map-vyofok3q")]

  const LeafletAttribution: string :=
    "Map data &copy; <a href=\"http://openstreetmap.org\">OpenStreetMap</a> contributors, "
    + "<a href=\"http://creativecommons.org/licenses/by-sa/2.0/\">CC-BY-SA</a>, tiles &copy; "
    + "<a href=\"http://www.mapquest.com/\" target=\"_blank\">MapQuest</a> "
    + "<img src=\"http://developer.mapquest.com/content/osm/mq_logo.png\" />"

  const LeafletDefaults: Options := map[
    "subdomains" := Text("1234"),
    "type" := Text("osm"),
    "tilePath" := Text("http://otile{s}.mqcdn.com/tiles/1.0.0/{type}/{z}/{x}/{y}.png"),
    "attribution" := Text(LeafletAttribution)]

  function Defaults(kind: Backend): (d: Options) {
    match kind
    case UseGoogle => GoogleDefaults
    case UseMapQuest => MapQuestDefaults
    case UseMapBox => MapBoxDefaults
    case UseLeaflet => LeafletDefaults
  }

  /** MapBox's default tile set, unless the caller names another. */
  lemma MapBoxDefaultMapId(overrides: Option<Options>)
    requires overrides.None? || "mapId" !in overrides.value
    ensures NewProvider(UseMapBox, None, overrides).mapOptions["mapId"] == Text("examples.map-vyofok3q")
  {
  }

  /** `new Mapsheet.Providers.X({ map, mapOptions })`: adopts the given map
      (if any) and lays the caller's options over the provider's defaults. */
  function NewProvider(kind: Backend, injected: Option<MapSurface>, overrides: Option<Options>): (p: Provider)
    ensures p.Kind() == kind && p.surface == injected
    ensures p.mapOptions.Keys == Defaults(kind).Keys + overrides.GetOr(map[]).Keys
    ensures overrides.Some? ==> forall k :: k in overrides.value ==> p.mapOptions[k] == overrides.value[k]
    ensures forall k :: k in Defaults(kind) && k !in overrides.GetOr(map[]) ==> p.mapOptions[k] == Defaults(kind)[k]
    ensures (p.Google? || p.Leaflet?) ==> p.bounds == []
    ensures p.Google? ==> p.infoWindows == []
  {
    var options := MergeOptions(Defaults(kind), overrides.GetOr(map[]));
    match kind
    case UseGoogle => Google(injected, options, [], [])
    case UseMapQuest => MapQuest(injected, options)
    case UseMapBox => MapBox(injected, options, [])
    case UseLeaflet => Leaflet(injected, options, [])
  }

  /** The map a provider's `initialize` creates when it has none. */
  function CreatedMap(p: Provider, element: Element): (m: MapSurface)
    ensures m.origin.Created? && m.overlays == [] && m.fits == []
    ensures p.Google? || p.MapBox? ==> m.origin == Created(Some(element), p.mapOptions)
    ensures p.Leaflet? ==> m.origin == Created(None, p.mapOptions)
    ensures p.MapQuest? ==>
      && m.origin.container.None? && "elt" in m.origin.options
      && m.origin.options["elt"] == (if "elt" in p.mapOptions then p.mapOptions["elt"] else Node(element))
  {
    var origin := match p
      case Google(_, _, _, _) => Created(Some(element), p.mapOptions)
      case MapQuest(_, _) => Created(None, MergeOptions(map["elt" := Node(element)], p.mapOptions))
      case MapBox(_, _, _) => Created(Some(element), p.mapOptions)
      case Leaflet(_, _, _) => Created(None, p.mapOptions);
    MapSurface(origin, [], [])
  }

  /** The state `drawPoints` needs: a map, and for Google the bounds and
      info window that `initialize` makes. */
  predicate Ready(p: Provider) {
    p.surface.Some? && (p.Google? ==> |p.infoWindows| > 0)
  }

  /** `initialize(element)`: creates a map only if there is none; Google also
      starts a fresh bounds and a fresh info window on every call. Leaflet's
      bounds, made once by its constructor, are left alone. */
  function Initialize(p: Provider, element: Element): (r: Provider)
    ensures Ready(r) && r.Kind() == p.Kind() && r.mapOptions == p.mapOptions
    ensures p.surface.Some? ==> r.surface == p.surface
    ensures p.surface.None? ==> r.surface == Some(CreatedMap(p, element))
    ensures r.Google? ==> r.bounds == [] && r.infoWindows == p.infoWindows + [FreshInfoWindow]
    ensures r.Leaflet? ==> r.bounds == p.bounds
    ensures r.MapBox? ==> r.markerLayer == p.markerLayer
  {
    var m := if p.surface.Some? then p.surface else Some(CreatedMap(p, element));
    match p
    case Google(_, o, _, ws) => Google(m, o, [], ws + [FreshInfoWindow])
    case MapQuest(_, o) => MapQuest(m, o)
    case MapBox(_, o, layer) => MapBox(m, o, layer)
    case Leaflet(_, o, b) => Leaflet(m, o, b)
  }

  /** Calling `initialize` again never replaces the map, whichever element is
      passed: an injected map and a map made by the first call both stay. */
  lemma InitializeKeepsMap(p: Provider, first: Element, second: Element)
    ensures Initialize(Initialize(p, first), second).surface == Initialize(p, first).surface
    ensures p.surface.Some? ==> Initialize(p, first).surface == p.surface
  {
  }

  /** The marker a provider of this kind draws for a valid point. */
  function MarkerOf(kind: Backend, window: nat, pt: Point, parse: Parser): (m: Marker)
    requires IsValid(pt, parse)
    ensures Position(m) == PointPosition(pt, parse)
  {
    match kind
    case UseGoogle => GoogleMarkerOf(pt, parse, window)
    case UseMapQuest => MapQuestPoiOf(pt, parse)
    case UseMapBox => MapBoxFeatureOf(pt, parse)
    case UseLeaflet => LeafletMarkerOf(pt, parse)
  }

  /** The points `drawPoints` keeps: the valid ones, in input order. */
  function ValidPoints(points: seq<Point>, parse: Parser): (vs: seq<Point>)
    ensures |vs| <= |points|
    ensures forall i :: 0 <= i < |vs| ==> IsValid(vs[i], parse)
    ensures forall j :: 0 <= j < |vs| ==> vs[j] in points
    decreases |points|
  {
    if points == [] then []
    else
      var front := points[..|points| - 1];
      var init := ValidPoints(front, parse);
      assert forall j :: 0 <= j < |init| ==> init[j] in points by {
        forall j | 0 <= j < |init|
          ensures init[j] in points
        {
          var k :| 0 <= k < |front| && front[k] == init[j];
          assert points[k] == init[j];
        }
      }
      if IsValid(points[|points| - 1], parse) then init + [points[|points| - 1]] else init
  }

  /** Every valid input point is kept: `continue` skips only invalid ones. */
  lemma {:induction false} ValidPointsKeeps(points: seq<Point>, parse: Parser, i: nat)
    requires i < |points| && IsValid(points[i], parse)
    ensures points[i] in ValidPoints(points, parse)
    decreases |points|
  {
    var n := |points| - 1;
    var init := ValidPoints(points[..n], parse);
    if i < n {
      ValidPointsKeeps(points[..n], parse, i);
      assert points[..n][i] == points[i];
      var j :| 0 <= j < |init| && init[j] == points[i];
      if IsValid(points[n], parse) {
        assert (init + [points[n]])[j] == points[i];
      }
    } else {
      assert ValidPoints(points, parse) == init + [points[n]];
      assert (init + [points[n]])[|init|] == points[i];
    }
  }

  /** One marker per point of `vs`, in order. */
  function MarkersOf(kind: Backend, window: nat, vs: seq<Point>, parse: Parser): (ms: seq<Marker>)
    requires forall i :: 0 <= i < |vs| ==> IsValid(vs[i], parse)
    ensures |ms| == |vs|
    ensures forall i :: 0 <= i < |vs| ==> ms[i] == MarkerOf(kind, window, vs[i], parse)
  {
    seq(|vs|, i requires 0 <= i < |vs| => MarkerOf(kind, window, vs[i], parse))
  }

  /** The positions of the drawn markers are the valid points' coordinates,
      in order (MapBox's longitude-first features included). */
  lemma MarkerPositions(kind: Backend, window: nat, vs: seq<Point>, parse: Parser)
    requires forall i :: 0 <= i < |vs| ==> IsValid(vs[i], parse)
    ensures |Positions(MarkersOf(kind, window, vs, parse))| == |vs|
    ensures forall i :: 0 <= i < |vs| ==>
      Positions(MarkersOf(kind, window, vs, parse))[i] == PointPosition(vs[i], parse)
  {
  }

  function WithOverlay(m: MapSurface, mk: Marker): (r: MapSurface)
    ensures r.origin == m.origin && r.fits == m.fits && r.overlays == m.overlays + [mk]
  {
    m.(overlays := m.overlays + [mk])
  }

  /** `r` is `p` with the markers `added` drawn on its map, in order, and
      nothing else changed but the accumulators that record them: Google and
      Leaflet bounds are extended by their positions, the MapBox marker
      layer by the markers themselves. */
  predicate Extends(p: Provider, r: Provider, added: seq<Marker>) {
    && Ready(p) && Ready(r)
    && r.Kind() == p.Kind() && r.Window() == p.Window() && r.mapOptions == p.mapOptions
    && r.surface.value.origin == p.surface.value.origin
    && r.surface.value.fits == p.surface.value.fits
    && r.surface.value.overlays == p.surface.value.overlays + added
    && (p.Google? ==> r.Google? && r.infoWindows == p.infoWindows && r.bounds == p.bounds + Positions(added))
    && (p.Leaflet? ==> r.Leaflet? && r.bounds == p.bounds + Positions(added))
    && (p.MapBox? ==> r.MapBox? && r.markerLayer == p.markerLayer + added)
  }

  /** Drawing `a` and then `b` draws `a + b`. */
  lemma ExtendsTrans(p: Provider, q: Provider, r: Provider, a: seq<Marker>, b: seq<Marker>)
    requires Extends(p, q, a) && Extends(q, r, b)
    ensures Extends(p, r, a + b)
  {
    assert Positions(a + b) == Positions(a) + Positions(b);
    assert (p.surface.value.overlays + a) + b == p.surface.value.overlays + (a + b);
    if p.Google? || p.Leaflet? {
      assert (p.bounds + Positions(a)) + Positions(b) == p.bounds + (Positions(a) + Positions(b));
    }
    if p.MapBox? {
      assert (p.markerLayer + a) + b == p.markerLayer + (a + b);
    }
  }

  /** The body of the `drawPoints` loop for one valid point: build the marker,
      put it on the map, and extend the bounds (Google, Leaflet) or add it to
      the marker layer (MapBox). */
  function PlaceMarker(q: Provider, pt: Point, parse: Parser): (r: Provider)
    requires Ready(q) && IsValid(pt, parse)
    ensures Extends(q, r, [MarkerOf(q.Kind(), q.Window(), pt, parse)])
  {
    var mk := MarkerOf(q.Kind(), q.Window(), pt, parse);
    var m := Some(WithOverlay(q.surface.value, mk));
    assert Positions([mk]) == [Position(mk)];
    match q
    case Google(_, o, b, ws) => Google(m, o, b + [Position(mk)], ws)
    case MapQuest(_, o) => MapQuest(m, o)
    case MapBox(_, o, layer) => MapBox(m, o, layer + [mk])
    case Leaflet(_, o, b) => Leaflet(m, o, b + [Position(mk)])
  }

  /** The `drawPoints` loop over `points`: invalid points are skipped and
      each valid one is placed, in order, so the map gains exactly the
      markers of the valid points. */
  function PlaceAll(p: Provider, points: seq<Point>, parse: Parser): (r: Provider)
    requires Ready(p)
    ensures Extends(p, r, MarkersOf(p.Kind(), p.Window(), ValidPoints(points, parse), parse))
    decreases |points|
  {
    if points == [] then
      assert p.surface.value.overlays + [] == p.surface.value.overlays;
      assert Positions([]) == [];
      (if p.Google? || p.Leaflet? then assert p.bounds + [] == p.bounds; p
       else if p.MapBox? then assert p.markerLayer + [] == p.markerLayer; p
       else p)
    else
      var init := points[..|points| - 1];
      var last := points[|points| - 1];
      var q := PlaceAll(p, init, parse);
      if IsValid(last, parse) then
        var r := PlaceMarker(q, last, parse);
        PlaceAllStep(p, points, parse);
        ExtendsTrans(p, q, r, MarkersOf(p.Kind(), p.Window(), ValidPoints(init, parse), parse),
                     [MarkerOf(p.Kind(), p.Window(), last, parse)]);
        r
      else
        assert ValidPoints(points, parse) == ValidPoints(init, parse);
        q
  }

  /** How the expected markers grow when the loop reaches a valid point. */
  lemma PlaceAllStep(p: Provider, points: seq<Point>, parse: Parser)
    requires points != [] && IsValid(points[|points| - 1], parse)
    ensures MarkersOf(p.Kind(), p.Window(), ValidPoints(points, parse), parse)
         == MarkersOf(p.Kind(), p.Window(), ValidPoints(points[..|points| - 1], parse), parse)
            + [MarkerOf(p.Kind(), p.Window(), points[|points| - 1], parse)]
  {
    var last := points[|points| - 1];
    var vs := ValidPoints(points[..|points| - 1], parse);
    assert ValidPoints(points, parse) == vs + [last];
    MarkersOfSnoc(p.Kind(), p.Window(), vs, last, parse);
  }

  lemma MarkersOfSnoc(kind: Backend, window: nat, vs: seq<Point>, last: Point, parse: Parser)
    requires forall i :: 0 <= i < |vs| ==> IsValid(vs[i], parse)
    requires IsValid(last, parse)
    ensures forall i :: 0 <= i < |vs + [last]| ==> IsValid((vs + [last])[i], parse)
    ensures MarkersOf(kind, window, vs + [last], parse)
         == MarkersOf(kind, window, vs, parse) + [MarkerOf(kind, window, last, parse)]
  {
    var all := vs + [last];
    forall i | 0 <= i < |all| ensures IsValid(all[i], parse) {
      if i < |vs| { assert all[i] == vs[i]; } else { assert all[i] == last; }
    }
    var before := MarkersOf(kind, window, vs, parse);
    var after := MarkersOf(kind, window, all, parse);
    var mk := MarkerOf(kind, window, last, parse);
    forall i | 0 <= i < |before| ensures after[i] == before[i] {
      assert all[i] == vs[i];
    }
    assert all[|vs|] == last;
    assert after[|before|] == mk;
    assert after == before + [mk];
  }

  /** The extent the viewport fit after the loop uses: Google and Leaflet
      fit their bounds, MapQuest's `bestFit` covers every shape on the map,
      MapBox fits the extent of this call's marker layer. */
  function Extent(q: Provider): (e: Bounds)
    requires Ready(q)
    ensures q.Google? || q.Leaflet? ==> e == q.bounds
    ensures q.MapQuest? ==> e == Positions(q.surface.value.overlays)
    ensures q.MapBox? ==> e == Positions(q.markerLayer)
  {
    match q
    case Google(_, _, b, _) => b
    case MapQuest(_, _) => Positions(q.surface.value.overlays)
    case MapBox(_, _, layer) => Positions(layer)
    case Leaflet(_, _, b) => b
  }

  /** The single fit after the loop (`fitBounds`, `bestFit`, `setExtent`). */
  function Fit(q: Provider): (r: Provider)
    requires Ready(q)
    ensures Ready(r) && r.Kind() == q.Kind() && r.Window() == q.Window() && r.mapOptions == q.mapOptions
    ensures r.surface.value.origin == q.surface.value.origin
    ensures r.surface.value.overlays == q.surface.value.overlays
    ensures r.surface.value.fits == q.surface.value.fits + [Extent(q)]
    ensures r.Google? ==> r.infoWindows == q.infoWindows && r.bounds == q.bounds
    ensures r.Leaflet? ==> r.bounds == q.bounds
    ensures r.MapBox? ==> r.markerLayer == q.markerLayer
  {
    var m := q.surface.value;
    q.(surface := Some(m.(fits := m.fits + [Extent(q)])))
  }

  /** MapBox starts every `drawPoints` with a new, empty marker layer. */
  function StartDraw(p: Provider): (r: Provider)
    requires Ready(p)
    ensures Ready(r) && r.Kind() == p.Kind() && r.Window() == p.Window() && r.mapOptions == p.mapOptions
    ensures r.surface == p.surface
    ensures r.Google? ==> r.infoWindows == p.infoWindows && r.bounds == p.bounds
    ensures r.Leaflet? ==> r.bounds == p.bounds
    ensures r.MapBox? ==> r.markerLayer == []
  {
    if p.MapBox? then p.(markerLayer := []) else p
  }

  /** `drawPoints(points)`. */
  function DrawPoints(p: Provider, points: seq<Point>, parse: Parser): (r: Provider)
    requires Ready(p)
    ensures Ready(r) && r.Kind() == p.Kind() && r.Window() == p.Window()
    ensures r.mapOptions == p.mapOptions && r.surface.value.origin == p.surface.value.origin
    ensures r.Google? ==> r.infoWindows == p.infoWindows
  {
    Fit(PlaceAll(StartDraw(p), points, parse))
  }

  /** The markers one `drawPoints` call adds. */
  function Drawn(p: Provider, points: seq<Point>, parse: Parser): (ms: seq<Marker>)
    ensures |ms| == |ValidPoints(points, parse)|
  {
    MarkersOf(p.Kind(), p.Window(), ValidPoints(points, parse), parse)
  }

  /** The extent the single fit of `drawPoints` receives, stated from the
      provider before the call. */
  function ExpectedExtent(p: Provider, points: seq<Point>, parse: Parser): (e: Bounds)
    requires Ready(p)
  {
    match p
    case Google(_, _, b, _) => b + Positions(Drawn(p, points, parse))
    case MapQuest(_, _) => Positions(p.surface.value.overlays + Drawn(p, points, parse))
    case MapBox(_, _, _) => Positions(Drawn(p, points, parse))
    case Leaflet(_, _, b) => b + Positions(Drawn(p, points, parse))
  }

  /** What `drawPoints` does, for every provider: exactly one marker per valid
      point, in input order, none for invalid points, added after what the
      map already shows; then exactly one fit, over the extent the provider
      accumulates. */
  lemma DrawPointsEffect(p: Provider, points: seq<Point>, parse: Parser)
    requires Ready(p)
    ensures DrawPoints(p, points, parse).surface.value.overlays == p.surface.value.overlays + Drawn(p, points, parse)
    ensures DrawPoints(p, points, parse).surface.value.fits == p.surface.value.fits + [ExpectedExtent(p, points, parse)]
    ensures p.Google? || p.Leaflet? ==> DrawPoints(p, points, parse).bounds == ExpectedExtent(p, points, parse)
  {
    var s := StartDraw(p);
    var added := Drawn(p, points, parse);
    var q := PlaceAll(s, points, parse);
    assert Extends(s, q, added);
    if p.MapBox? {
      assert q.markerLayer == [] + added;
      assert [] + added == added;
    }
  }

  /** The drawn markers sit exactly at the valid points' coordinates. */
  lemma DrawnPositions(p: Provider, points: seq<Point>, parse: Parser)
    requires Ready(p)
    ensures |Drawn(p, points, parse)| == |ValidPoints(points, parse)|
    ensures forall i :: 0 <= i < |ValidPoints(points, parse)| ==>
      Position(Drawn(p, points, parse)[i]) == PointPosition(ValidPoints(points, parse)[i], parse)
  {
  }

  /** Filtering keeps everything exactly when every point is valid. */
  lemma {:induction false} ValidPointsAll(points: seq<Point>, parse: Parser)
    ensures |ValidPoints(points, parse)| == |points| <==>
      forall i :: 0 <= i < |points| ==> IsValid(points[i], parse)
    decreases |points|
  {
    if points != [] {
      var init := points[..|points| - 1];
      var last := points[|points| - 1];
      ValidPointsAll(init, parse);
      assert forall i :: 0 <= i < |init| ==> init[i] == points[i];
      if IsValid(last, parse) {
        assert |ValidPoints(points, parse)| == |ValidPoints(init, parse)| + 1;
        assert (forall i :: 0 <= i < |points| ==> IsValid(points[i], parse)) <==>
               (forall i :: 0 <= i < |init| ==> IsValid(init[i], parse));
      } else {
        assert |ValidPoints(points, parse)| == |ValidPoints(init, parse)| <= |init| < |points|;
      }
    }
  }

  /** Filtering keeps nothing exactly when no point is valid. */
  lemma {:induction false} ValidPointsNone(points: seq<Point>, parse: Parser)
    ensures ValidPoints(points, parse) == [] <==>
      forall i :: 0 <= i < |points| ==> !IsValid(points[i], parse)
    decreases |points|
  {
    if points != [] {
      var init := points[..|points| - 1];
      var last := points[|points| - 1];
      ValidPointsNone(init, parse);
      assert forall i :: 0 <= i < |init| ==> init[i] == points[i];
      if IsValid(last, parse) {
        assert ValidPoints(points, parse) == ValidPoints(init, parse) + [last];
        assert |ValidPoints(points, parse)| > 0;
      } else {
        assert ValidPoints(points, parse) == ValidPoints(init, parse);
        assert (forall i :: 0 <= i < |points| ==> !IsValid(points[i], parse)) <==>
               (forall i :: 0 <= i < |init| ==> !IsValid(init[i], parse));
      }
    }
  }

  /** Google: `initialize` resets the bounds, so the fit after a redraw
      covers only that draw's markers, while every earlier marker stays on
      the map. */
  lemma GoogleRedrawFitsOnlyLatest(p: Provider, e: Element, first: seq<Point>, second: seq<Point>, parse: Parser)
    requires p.Google?
    ensures var once := DrawPoints(Initialize(p, e), first, parse);
            var i2 := Initialize(once, e);
            var twice := DrawPoints(i2, second, parse);
            twice.surface.value.fits[|twice.surface.value.fits| - 1] == Positions(Drawn(i2, second, parse))
            && twice.surface.value.overlays == once.surface.value.overlays + Drawn(i2, second, parse)
  {
    var once := DrawPoints(Initialize(p, e), first, parse);
    var i2 := Initialize(once, e);
    DrawPointsEffect(i2, second, parse);
    assert i2.bounds == [];
  }

  /** Leaflet: the bounds come from the constructor and are never reset, so
      the fit after a redraw covers the markers of both draws. */
  lemma LeafletRedrawFitsAll(p: Provider, e: Element, first: seq<Point>, second: seq<Point>, parse: Parser)
    requires p.Leaflet?
    ensures var i1 := Initialize(p, e);
            var once := DrawPoints(i1, first, parse);
            var i2 := Initialize(once, e);
            var twice := DrawPoints(i2, second, parse);
            twice.surface.value.fits[|twice.surface.value.fits| - 1] ==
              p.bounds + Positions(Drawn(i1, first, parse)) + Positions(Drawn(i2, second, parse))
  {
    var i1 := Initialize(p, e);
    DrawPointsEffect(i1, first, parse);
    var once := DrawPoints(i1, first, parse);
    var i2 := Initialize(once, e);
    DrawPointsEffect(i2, second, parse);
    assert once.bounds == ExpectedExtent(i1, first, parse);
  }

  /** Every Google marker on the map listens to an info window this provider
      made. */
  predicate WindowsBound(p: Provider) {
    p.Google? && p.surface.Some? ==>
      forall i :: 0 <= i < |p.surface.value.overlays| && p.surface.value.overlays[i].GoogleMarker? ==>
        p.surface.value.overlays[i].infoWindow < |p.infoWindows|
  }

  /** A click on the marker at `index`: if it is a Google marker drawn with
      a click handler, the info window it captured is unconditionally given
      the marker's content and opened on it; nothing else changes. */
  function Click(p: Provider, index: nat): (r: Provider)
    requires p.Google? && p.surface.Some? && index < |p.surface.value.overlays|
    ensures r.Google? && r.surface == p.surface && r.bounds == p.bounds && r.mapOptions == p.mapOptions
    ensures |r.infoWindows| == |p.infoWindows|
    ensures var mk := p.surface.value.overlays[index];
      mk.GoogleMarker? && mk.infoWindow < |p.infoWindows| ==>
        r.infoWindows[mk.infoWindow] == InfoWindow(mk.content, Some(index), true)
    ensures var mk := p.surface.value.overlays[index];
      forall w :: 0 <= w < |p.infoWindows| && !(mk.GoogleMarker? && mk.infoWindow == w) ==>
        r.infoWindows[w] == p.infoWindows[w]
  {
    var mk := p.surface.value.overlays[index];
    if mk.GoogleMarker? && mk.infoWindow < |p.infoWindows| then
      p.(infoWindows := p.infoWindows[mk.infoWindow := InfoWindow(mk.content, Some(index), true)])
    else p
  }

  /** The click handler does not look at the window's previous state:
      clicking twice is clicking once, and a window already open on this
      marker is re-populated all the same. */
  lemma ClickIgnoresWindowState(p: Provider, index: nat, previous: InfoWindow)
    requires p.Google? && p.surface.Some? && index < |p.surface.value.overlays|
    requires p.surface.value.overlays[index].GoogleMarker?
    requires p.surface.value.overlays[index].infoWindow < |p.infoWindows|
    ensures Click(Click(p, index), index) == Click(p, index)
    ensures Click(p.(infoWindows := p.infoWindows[p.surface.value.overlays[index].infoWindow := previous]), index)
            == Click(p, index)
  {
  }

  /** Every provider operation keeps Google markers bound to existing info
      windows. */
  lemma WindowsBoundPreserved(p: Provider, e: Element, points: seq<Point>, parse: Parser)
    requires WindowsBound(p)
    ensures WindowsBound(Initialize(p, e))
    ensures Ready(p) ==> WindowsBound(DrawPoints(p, points, parse))
  {
    if Ready(p) && p.Google? {
      DrawPointsEffect(p, points, parse);
      var r := DrawPoints(p, points, parse);
      var old_ := p.surface.value.overlays;
      var added := Drawn(p, points, parse);
      forall i | 0 <= i < |r.surface.value.overlays| && r.surface.value.overlays[i].GoogleMarker?
        ensures r.surface.value.overlays[i].infoWindow < |r.infoWindows|
      {
        if i >= |old_| {
          assert r.surface.value.overlays[i] == added[i - |old_|];
        }
      }
    }
  }
}
