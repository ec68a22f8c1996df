/** The markers each provider builds for one valid point (`drawMarker` and
    Google's `setMarkerIcon`), with every map SDK object replaced by a plain
    record of what the code puts into it. */
module Markers {
  import opened Wrappers
  import opened Text
  import opened Points
  import opened Options

  /** A map position, latitude first (`LatLng`, `coords()`). */
  datatype LatLng = LatLng(lat: real, lng: real)

  /** A GeoJSON position as MapBox features carry it: longitude first. */
  datatype LngLat = LngLat(lng: real, lat: real)

  /** What Google's `setMarkerIcon` assigns to `marker.icon`: a plain URL, or
      a chart-pin `MarkerImage` (its sizes and anchors are not modelled). */
  datatype GoogleIcon = IconUrl(url: string) | PinImage(url: string)

  datatype Marker =
    | GoogleMarker(position: LatLng, title: Option<string>, content: string,
                   icon: GoogleIcon, shadow: Option<string>, infoWindow: nat)
    | MapQuestPoi(position: LatLng, rollover: Option<string>, infoHtml: string)
    | MapBoxFeature(coordinates: LngLat, markerColor: Option<string>,
                    title: Option<string>, description: string)
    | LeafletMarker(position: LatLng, popup: string, iconOptions: Option<map<string, string>>)

  /** Where a marker sits on the map, whichever order its record stores it in. */
  function Position(m: Marker): (pos: LatLng)
    ensures m.MapBoxFeature? ==> pos.lat == m.coordinates.lat && pos.lng == m.coordinates.lng
    ensures !m.MapBoxFeature? ==> pos == m.position
  {
    match m
    case MapBoxFeature(c, _, _, _) => LatLng(c.lat, c.lng)
    case GoogleMarker(pos, _, _, _, _, _) => pos
    case MapQuestPoi(pos, _, _) => pos
    case LeafletMarker(pos, _, _) => pos
  }

  function Positions(ms: seq<Marker>): (ps: seq<LatLng>)
    ensures |ps| == |ms|
    ensures forall i :: 0 <= i < |ms| ==> ps[i] == Position(ms[i])
  {
    if ms == [] then [] else Positions(ms[..|ms| - 1]) + [Position(ms[|ms| - 1])]
  }

  /** The position of a valid point. */
  function PointPosition(p: Point, parse: Parser): (pos: LatLng)
    requires IsValid(p, parse)
    ensures Coords(p, parse) == (Some(pos.lat), Some(pos.lng))
  {
    LatLng(Latitude(p, parse).value, Longitude(p, parse).value)
  }

  const DefaultPinColor: string := "FE7569"
  const PinUrlPrefix: string := "http://chart.apis.google.com/chart?chst=d_map_pin_letter&chld=|"
  const PinShadowUrl: string := "http://chart.apis.google.com/chart?chst=d_map_pin_shadow"

  /** `get('icon url')`: the row's `iconurl` cell (see RowIconUrlIsGet). */
  function RowIconUrl(p: Point): (url: Option<string>) {
    Lookup(p.model, "iconurl")
  }

  /** `get('hexcolor')`: the row's `hexcolor` cell (see RowHexColorIsGet). */
  function RowHexColor(p: Point): (color: Option<string>) {
    Lookup(p.model, "hexcolor")
  }

  lemma RowIconUrlIsGet(p: Point)
    ensures RowIconUrl(p) == Get(p, Some("icon url"))
  {
    GetIconUrl(p);
  }

  lemma RowHexColorIsGet(p: Point)
    ensures RowHexColor(p) == Get(p, Some("hexcolor"))
  {
    GetNormalizedKey(p, "hexcolor");
  }

  /** `(get('hexcolor') || "FE7569").replace('#', '')`. */
  function PinColor(p: Point): (c: string)
    ensures Truthy(RowHexColor(p)) ==> c == RemoveFirstHash(RowHexColor(p).value)
    ensures !Truthy(RowHexColor(p)) ==> c == DefaultPinColor
  {
    RemoveFirstHash(Or(RowHexColor(p), Some(DefaultPinColor)).value)
  }

  /** Google's `setMarkerIcon`: the icon and, for the chart pin only, the
      shadow. A non-empty row `icon url` wins, then a non-empty configured
      `iconUrl`, then a chart pin coloured by the row. */
  function GoogleIconOf(p: Point): (r: (GoogleIcon, Option<string>))
    ensures Truthy(RowIconUrl(p)) ==> r == (IconUrl(RowIconUrl(p).value), None)
    ensures !Truthy(RowIconUrl(p)) && Truthy(Lookup(p.markerOptions, "iconUrl")) ==>
      r == (IconUrl(p.markerOptions["iconUrl"]), None)
    ensures !Truthy(RowIconUrl(p)) && !Truthy(Lookup(p.markerOptions, "iconUrl")) ==>
      r == (PinImage(PinUrlPrefix + PinColor(p)), Some(PinShadowUrl))
    ensures r.1.Some? <==> r.0.PinImage?
  {
    var rowUrl := RowIconUrl(p);
    var configured := Lookup(p.markerOptions, "iconUrl");
    if Truthy(rowUrl) then (IconUrl(rowUrl.value), None)
    else if Truthy(configured) then (IconUrl(configured.value), None)
    else (PinImage(PinUrlPrefix + PinColor(p)), Some(PinShadowUrl))
  }

  /** A row icon shadows whatever marker options are configured. */
  lemma GoogleRowIconWins(p: Point, options: map<string, string>)
    requires Truthy(RowIconUrl(p))
    ensures GoogleIconOf(p.(markerOptions := options)) == GoogleIconOf(p)
  {
  }

  /** A `#`-prefixed row colour ends up in the pin URL without its `#`, and
      a missing or empty colour gives the default pin. */
  lemma GooglePinColor(p: Point, color: string)
    requires !Truthy(RowIconUrl(p)) && !Truthy(Lookup(p.markerOptions, "iconUrl"))
    requires RowHexColor(p) == Some("#" + color)
    ensures GoogleIconOf(p).0 == PinImage(PinUrlPrefix + color)
  {
    RemoveLeadingHash(color);
    assert PinColor(p) == color;
  }

  /** Google `drawMarker`: a marker at the point, titled by the row, whose
      click shows `content()` in the info window it was created with. */
  function GoogleMarkerOf(p: Point, parse: Parser, window: nat): (m: Marker)
    requires IsValid(p, parse)
    ensures m.GoogleMarker? && Position(m) == PointPosition(p, parse)
    ensures m.title == Title(p) && m.content == Content(p) && m.infoWindow == window
    ensures (m.icon, m.shadow) == GoogleIconOf(p)
  {
    var (icon, shadow) := GoogleIconOf(p);
    GoogleMarker(PointPosition(p, parse), Title(p), Content(p), icon, shadow, window)
  }

  /** MapQuest `drawMarker`: a POI with the title as rollover and the content
      as info HTML. */
  function MapQuestPoiOf(p: Point, parse: Parser): (m: Marker)
    requires IsValid(p, parse)
    ensures m.MapQuestPoi? && Position(m) == PointPosition(p, parse)
    ensures m.rollover == Title(p) && m.infoHtml == Content(p)
  {
    MapQuestPoi(PointPosition(p, parse), Title(p), Content(p))
  }

  /** MapBox `drawMarker`: a GeoJSON feature, coordinates longitude first,
      coloured by the raw `hexcolor` cell (its `#` kept). */
  function MapBoxFeatureOf(p: Point, parse: Parser): (m: Marker)
    requires IsValid(p, parse)
    ensures m.MapBoxFeature?
    ensures m.coordinates.lng == Longitude(p, parse).value && m.coordinates.lat == Latitude(p, parse).value
    ensures m.markerColor == RowHexColor(p)
    ensures m.title == Title(p) && m.description == Content(p)
  {
    MapBoxFeature(LngLat(Longitude(p, parse).value, Latitude(p, parse).value),
                  RowHexColor(p), Title(p), Content(p))
  }

  /** The options Leaflet's `drawMarker` hands to `L.icon`, or None when it
      leaves the default icon. */
  function LeafletIconOf(p: Point): (r: Option<map<string, string>>)
    ensures Truthy(RowIconUrl(p)) ==>
      r == Some(MergeOptions(p.markerOptions, map["iconUrl" := RowIconUrl(p).value]))
    ensures !Truthy(RowIconUrl(p)) ==>
      (r.Some? <==> "iconUrl" in p.markerOptions) && (r.Some? ==> r.value == p.markerOptions)
  {
    var rowUrl := RowIconUrl(p);
    if Truthy(rowUrl) then Some(MergeOptions(p.markerOptions, map["iconUrl" := rowUrl.value]))
    else if "iconUrl" in p.markerOptions then Some(p.markerOptions)
    else None
  }

  /** Whenever Leaflet sets an icon, its `iconUrl` is the row's URL if the
      row has one, and the configured one otherwise; every other configured
      option is passed through. */
  lemma LeafletIconUrl(p: Point)
    requires LeafletIconOf(p).Some?
    ensures "iconUrl" in LeafletIconOf(p).value
    ensures LeafletIconOf(p).value["iconUrl"] ==
      (if Truthy(RowIconUrl(p)) then RowIconUrl(p).value else p.markerOptions["iconUrl"])
    ensures forall k :: k in p.markerOptions && k != "iconUrl" ==>
      k in LeafletIconOf(p).value && LeafletIconOf(p).value[k] == p.markerOptions[k]
  {
    var rowUrl := RowIconUrl(p);
    if Truthy(rowUrl) {
      var extra := map["iconUrl" := rowUrl.value];
      assert LeafletIconOf(p).value == MergeOptions(p.markerOptions, extra);
      assert "iconUrl" in extra && extra["iconUrl"] == rowUrl.value;
      forall k | k in p.markerOptions && k != "iconUrl"
        ensures k in LeafletIconOf(p).value && LeafletIconOf(p).value[k] == p.markerOptions[k]
      {
        assert k !in extra;
      }
    } else {
      assert LeafletIconOf(p).value == p.markerOptions;
    }
  }

  /** The providers disagree on an empty configured `iconUrl`: Google falls
      through to the chart pin, Leaflet still builds an icon from it. */
  lemma EmptyConfiguredIconDiffers(p: Point)
    requires !Truthy(RowIconUrl(p))
    requires "iconUrl" in p.markerOptions && p.markerOptions["iconUrl"] == ""
    ensures GoogleIconOf(p).0.PinImage?
    ensures LeafletIconOf(p) == Some(p.markerOptions)
  {
  }

  /** Leaflet `drawMarker`: a marker at `coords()` with `content()` bound as
      its popup, and the icon chosen above. */
  function LeafletMarkerOf(p: Point, parse: Parser): (m: Marker)
    requires IsValid(p, parse)
    ensures m.LeafletMarker? && Position(m) == PointPosition(p, parse)
    ensures m.position == LatLng(Coords(p, parse).0.value, Coords(p, parse).1.value)
    ensures m.popup == Content(p) && m.iconOptions == LeafletIconOf(p)
  {
    LeafletMarker(PointPosition(p, parse), Content(p), LeafletIconOf(p))
  }
}
