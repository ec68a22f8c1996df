# Mapsheet in Dafny

A model of the core of Mapsheet (`src/mapsheet.js`). Mapsheet turns the rows of a Tabletop spreadsheet into markers on one of four map providers: Google Maps, MapQuest, MapBox or Leaflet. The model covers these parts:

- `merge_options`, the shallow right-biased option merge (`options.dfy`).
- `Mapsheet.Point` (`point.dfy`). This covers coordinates with fallback fields, field lookup that lower-cases the name and removes its first run of spaces, the title, validity, and popup content with a fixed precedence.
- The markers each provider builds for a point (`markers.dfy`). This includes Google's `setMarkerIcon` precedence and Leaflet's icon options.
- The providers as one tagged datatype (`providers.dfy`), covering `initialize`, `drawPoints` and Google's shared info window. Every SDK object becomes a plain record:
  - a map surface holds its origin (injected or created), the markers drawn on it, and every extent it was asked to fit;
  - a bounds accumulator is the sequence of positions extended into it.
- The `Mapsheet` object (`mapsheet.dfy`): its constructor, `loadPoints` and `draw`.

`parseFloat` is a parameter `parse: string -> Option<real>`. `None` stands for NaN. Popup functions and compiled templates are fields of type `Row -> string`. Everything is a pure function over immutable values.

Behaviour of the code worth noting:
- `get` removes only the first run of spaces, because the regex `/ +/` has no `g` flag. So `"a b c"` becomes `"ab c"`.
- `content()` adds no wrapper element.
- A missing field in synthesised content renders as `undefined`, because that is what JavaScript string concatenation produces.
- A click on a Google marker re-populates the shared info window unconditionally. There is no "already open on this marker" check.
- `loadPoints` and `draw` take and invoke no completion callback.

## Model

| member | source | states |
|---|---|---|
| Options.MergeOptions | src/mapsheet.js:4-9 | the result has exactly the keys of both inputs; on a shared key the second input's value wins, otherwise the value is that of whichever input has the key |
| Options.MergeOptionsIdempotent | src/mapsheet.js:4-9 | laying the same overrides a second time changes nothing |
| Text.RemoveFirstSpaceRunSplits | src/mapsheet.js:100 | `replace(/ +/, '')` on (space-free prefix, non-empty run of spaces, rest not starting with a space) gives prefix + rest, so only the leftmost run of spaces is removed |
| Text.RemoveFirstSpaceRunNotGlobal | src/mapsheet.js:100 | the replacement is not global: "a b c" becomes "ab c" |
| Text.RemoveFirstHashSplits | src/mapsheet.js:180 | `replace('#', '')` removes exactly the first `#`: a hash-free prefix, a `#` and any rest give prefix + rest |
| Points.Get | src/mapsheet.js:96-101 | an undefined name gives undefined; otherwise the result is the row's value at the lower-cased name with its first space run removed, and undefined (no error) when that key is absent |
| Points.GetIconUrl | src/mapsheet.js:96-101 | `get("Icon URL")` and `get("icon url")` both read the row's `iconurl` |
| Text.ToLower | src/mapsheet.js:100 | `toLowerCase` keeps the length and lower-cases every character in place |
| Text.RemoveFirstSpaceRun | src/mapsheet.js:100 | `replace(/ +/, '')` never lengthens a name and leaves a name without spaces unchanged |
| Text.RemoveFirstHash | src/mapsheet.js:180 | `replace('#', '')` leaves a string without `#` unchanged and otherwise removes exactly one character |
| Text.Or | src/mapsheet.js:89 | JavaScript `a \|\| b` on string-or-undefined: `a` when it is defined and non-empty, else `b` |
| Points.GetIgnoresCase | src/mapsheet.js:100 | lower-casing a name before `get` does not change the result |
| Points.GetNormalizedKey | src/mapsheet.js:100 | a lower-case, space-free name is looked up unchanged |
| Points.Latitude | src/mapsheet.js:88-90 | latitude parses `latitude` when it is present and non-empty, else `lat`; it is NaN when the fallback is absent |
| Points.Longitude | src/mapsheet.js:92-94 | longitude parses `longitude` when present and non-empty, else `lng` when present and non-empty, else `long`; it is NaN when that is absent |
| Points.Coords | src/mapsheet.js:84-86 | `coords()` is latitude first, then longitude |
| Points.IsValid | src/mapsheet.js:107-109 | a point is valid exactly when both components of `coords()` are numbers; a valid row has a `latitude` or `lat` field and a `longitude`, `lng` or `long` field |
| Points.ShortFieldsGiveCoords | src/mapsheet.js:84-109 | a row with parsable non-empty `lat` and `lng`, and no non-empty `latitude`/`longitude`, is valid with exactly those coordinates |
| Points.MissingLatitudeInvalid | src/mapsheet.js:88-109 | a row with neither `latitude` nor `lat` is never valid |
| Points.Title | src/mapsheet.js:103-105 | the title is undefined without a title column, else the row value of the normalised title column |
| Points.Content | src/mapsheet.js:111-128 | content is the popup function's result if one is set, else the template's, else the synthesised field HTML if a field list is set, else '' |
| Points.ContentFunctionWins | src/mapsheet.js:112-113 | with a popup function set, changing the template or the field list does not change the content |
| Points.Show | src/mapsheet.js:122 | a missing cell is concatenated as the text `undefined`; a present one as itself |
| Points.SynthesizedShape | src/mapsheet.js:117-124 | the synthesised HTML starts with `<h3>title</h3>` exactly when the title is defined and non-empty; otherwise it is just the field lines, which open with `<p>` |
| Points.FieldsHtmlAppend | src/mapsheet.js:121-123 | the field lines of a concatenated field list are the two lists' lines concatenated, so lines appear in list order |
| Points.FieldsHtmlFront | src/mapsheet.js:121-123 | the first listed field's line comes first |
| Points.SynthesizeContent | src/mapsheet.js:116-124 | the loop that appends the heading and one `<p><strong>F</strong>: value</p>` line per field builds exactly the synthesised HTML |
| Markers.RowIconUrlIsGet | src/mapsheet.js:169 | the row cell the markers use as the icon URL is exactly `get('icon url')` |
| Markers.RowHexColorIsGet | src/mapsheet.js:179 | the row cell the markers use as the colour is exactly `get('hexcolor')` |
| Markers.PinColor | src/mapsheet.js:179-180 | the pin colour is the row's `hexcolor` with its first `#` removed when that is non-empty, else `FE7569` |
| Markers.GoogleIconOf | src/mapsheet.js:168-192 | a non-empty row `icon url` wins, then a non-empty configured `iconUrl`, then the chart-pin URL ending in the pin colour; a shadow is set exactly in the chart-pin case |
| Markers.GoogleRowIconWins | src/mapsheet.js:169-172 | with a non-empty row icon URL, the configured marker options have no effect on the icon |
| Markers.GooglePinColor | src/mapsheet.js:179-185 | a row colour `#c` (with no icon URL anywhere) yields the chart-pin URL ending in `c` |
| Markers.GoogleMarkerOf | src/mapsheet.js:194-207 | a Google marker sits at the point's latitude/longitude and carries its title and content, the icon and shadow chosen by `setMarkerIcon`, and the info window current when it was drawn |
| Markers.MapQuestPoiOf | src/mapsheet.js:254-261 | a MapQuest POI sits at the point, with the title as rollover and the content as info HTML |
| Markers.MapBoxFeatureOf | src/mapsheet.js:294-307 | a MapBox feature has coordinates longitude first, `marker-color` equal to the raw `hexcolor` (its `#` kept), and the title and content |
| Markers.LeafletIconOf | src/mapsheet.js:360-367 | with a non-empty row icon URL, the icon options are the marker options with `iconUrl` replaced by it; otherwise an icon is set exactly when `iconUrl` is defined in the marker options (even as ''), using those options |
| Markers.LeafletIconUrl | src/mapsheet.js:360-367 | whenever Leaflet sets an icon, its `iconUrl` is the row URL if the row has one, else the configured one, and every other configured option passes through |
| Markers.EmptyConfiguredIconDiffers | src/mapsheet.js:364-367 | for an empty configured `iconUrl`, Leaflet still builds an icon from it while Google (line 174) falls through to the chart pin |
| Markers.LeafletMarkerOf | src/mapsheet.js:356-373 | a Leaflet marker sits at `coords()`, its popup is the content, and its icon options are those chosen above |
| Providers.NewProvider | src/mapsheet.js:332-346 | a provider adopts the given map (or none) and merges the caller's options over its defaults, caller winning; Leaflet (like Google) starts with empty bounds |
| Providers.MapBoxDefaultMapId | src/mapsheet.js:281 | unless the caller's map options name a `mapId`, MapBox uses `examples.map-vyofok3q` |
| Providers.CreatedMap | src/mapsheet.js:246-250 | a created map starts empty; Google and MapBox bind it to the element, MapQuest passes the element as option `elt` unless the map options override it, and Leaflet does not use the element |
| Providers.Initialize | src/mapsheet.js:152-158 | `initialize` keeps an existing map and creates one only when there is none; Google also resets its bounds and appends a fresh "loading..." info window; Leaflet's bounds are untouched |
| Providers.InitializeKeepsMap | src/mapsheet.js:349-354 | a second `initialize`, with any element, never replaces the map, whether it was injected or created by the first call |
| Providers.MarkerOf | src/mapsheet.js:226 | the marker `drawMarker` builds for a valid point, per provider, sits at that point's coordinates |
| Providers.ValidPoints | src/mapsheet.js:224-225 | the points the loop does not skip (the same `continue` at lines 265, 317 and 377) are all valid, come from the input, and are never more than the input |
| Providers.ValidPointsKeeps | src/mapsheet.js:224-225 | every valid input point is kept, so only invalid points are skipped |
| Providers.MarkerPositions | src/mapsheet.js:295-298 | the drawn markers' positions are the valid points' coordinates in order, for MapBox's longitude-first features too |
| Providers.PlaceMarker | src/mapsheet.js:224-229 | one loop step adds exactly the point's marker to the map and extends the bounds (Google, Leaflet) or the marker layer (MapBox) by it; nothing else changes |
| Providers.PlaceAll | src/mapsheet.js:375-381 | the loop adds exactly the markers of the valid points, in input order, and extends the bounds or marker layer by exactly them |
| Providers.DrawPoints | src/mapsheet.js:223-231 | `drawPoints` keeps the map, its options, the provider kind and the info windows |
| Providers.DrawPointsEffect | src/mapsheet.js:263-270 | `drawPoints` appends one marker per valid point, in order, and performs exactly one fit; the fit covers the accumulated bounds (Google, Leaflet), every shape on the map (MapQuest), or this call's layer (MapBox) |
| Providers.DrawnPositions | src/mapsheet.js:316-320 | there are as many drawn markers as valid points, each at its point's position |
| Providers.ValidPointsAll | src/mapsheet.js:224-225 | every point gets a marker exactly when every point is valid |
| Providers.ValidPointsNone | src/mapsheet.js:264-265 | no point gets a marker exactly when no point is valid |
| Providers.Extent | src/mapsheet.js:230 | what the single fit covers: the bounds for Google (and Leaflet, line 382), every shape on the map for MapQuest's `bestFit` (line 269), the marker layer for MapBox's `setExtent` (line 321) |
| Providers.Fit | src/mapsheet.js:309-322 | the fit adds exactly one extent to the map and changes nothing else |
| Providers.StartDraw | src/mapsheet.js:309-312 | MapBox begins every draw with an empty marker layer |
| Providers.GoogleRedrawFitsOnlyLatest | src/mapsheet.js:156 | after re-initialising, Google's fit covers only the latest draw's markers, while earlier markers stay on the map |
| Providers.LeafletRedrawFitsAll | src/mapsheet.js:345 | Leaflet's bounds are made once, so a second draw's fit covers the markers of both draws |
| Providers.Click | src/mapsheet.js:214-220 | clicking a Google marker sets the info window it captured to the marker's content, anchored on it and open; every other window and the map stay unchanged |
| Providers.ClickIgnoresWindowState | src/mapsheet.js:217-220 | the click does not depend on the window's prior state: clicking twice equals clicking once, and an already-open window is re-populated the same way |
| Providers.WindowsBoundPreserved | src/mapsheet.js:214-216 | `initialize` and `drawPoints` keep every Google marker bound to an info window that exists |
| Sheets.NewMapsheet | src/mapsheet.js:17-30 | the provider defaults to Leaflet and the marker options default to `{}`; the renderer is built with the given map and map options |
| Sheets.PointFor | src/mapsheet.js:52 | each point carries its row plus the sheet's fields, title column, popup function, template and marker options |
| Sheets.ResolveSheetName | src/mapsheet.js:45-47 | the configured sheet name is kept; only when it is undefined does it become Tabletop's first sheet name |
| Sheets.Draw | src/mapsheet.js:59-62 | `draw` changes only the renderer, leaving it ready and of the same kind; an existing map keeps its origin |
| Sheets.DrawEffect | src/mapsheet.js:59-62 | `draw` adds one marker per valid point after whatever the map already showed (nothing, on a newly created map) and exactly one fit |
| Sheets.LoadPoints | src/mapsheet.js:42-57 | `loadPoints` resolves the sheet name, then replaces the points with exactly one point per sheet row, in order, and draws; for a missing sheet it stops with the points emptied; key, element and the point configuration are unchanged |
| Sheets.LoadPointsDraws | src/mapsheet.js:56 | a successful load runs `initialize` and then `drawPoints` over the fresh points |
| Sheets.SheetNameSticks | src/mapsheet.js:45-47 | once resolved, the sheet name is reused by later loads |
| Sheets.ReloadReplacesPoints | src/mapsheet.js:43 | loading the same sheet again yields exactly the same points as the first load, not the old points followed by new ones |
| Sheets.TwoRowExample | src/mapsheet.js:42-62 | for rows `{lat:"1",lng:"2"}` and `{lat:"x",lng:"2"}`, both become points, one marker is drawn on the created map, and it is fit once |

## Left out

- The Tabletop fetch and its asynchronous callback are not modelled. Neither are `document.getElementById` and Handlebars compilation. The sheet data, the element and the compiled template are inputs.
- Map SDK internals are not modelled: tile layers, map type constants, `MarkerImage` sizes and anchors, the MapBox zoomer/zoombox UI, and the view constants (Leaflet's `setView`, MapBox's `zoom(5).center(...)`). The container id `'map'` that Leaflet hardcodes is also left out; the model records only that Leaflet does not use the element argument. Google's info window `maxWidth` is left out too.
- MapBox adds a new marker layer to the map on every draw. The model flattens the layers' features into the map's overlays and keeps the current layer on the provider.
- `parseFloat`, NaN and floating-point arithmetic are not modelled. Coordinates are `real` and parsing is an uninterpreted parameter.
- Event-listener registration is not modelled. A click is a state transition on the Google info windows. MapQuest, MapBox and Leaflet popups are managed by their SDKs and are not modelled.
- `log`, the constructor's guard against calls without `new`, and `for-in` over inherited properties are not modelled.
- Text.ToLower: models `toLowerCase` for ASCII letters only. Full Unicode case mapping is out of scope.
- Markers.LeafletIconOf: marker option values are strings. Non-string Leaflet icon options such as sizes are not represented.
- Providers.DrawPoints: requires a ready provider. In the source, `drawPoints` before `initialize` throws a TypeError on the undefined map, and for Google on the undefined bounds.
- Providers.NewProvider: Google's `bounds` is undefined until the first `initialize`. The model represents it as empty, and nothing reads it before then.
- Sheets.NewMapsheet: `points` is undefined until data arrives. The model represents it as empty.
- Sheets.LoadPoints: Tabletop's own `sheets()` is not part of this model. A sheet name that is undefined or unknown is taken as the failure path, where `sheets(name).elements` throws.
