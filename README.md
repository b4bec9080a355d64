# Map widget: configuration pipeline and deferred Leaflet wrapper

A Dafny model of the two pieces of logic in a .NET MAUI map control that
shows an OpenStreetMap map through Leaflet inside a web view:

- **`MapView.GenerateHtmlFromMapData`** (C#). It takes the bound `Marks`
  text, a terse JSON array `[[lat, long, zoom], [lat, long] | [], ...]`.
  Element 0 gives the viewport. Every later non-empty array becomes a
  marker, holding all of that array's numbers. It builds the object
  `{position: {lat, long, zoom}, markers: [...]}` and writes it as compact
  JSON. It then splices the text into a page that runs
  `var map = new Mapper(); var json = '...'; map.draw(json);`.
  Modelled as pure functions over a parsed JSON value (`json.dfy`,
  `mapview.dfy`).
- **The JavaScript `Mapper` class.** Its constructor adds the Leaflet
  script to the page. Every public operation (`draw`, `draw_map`,
  `add_marker`, `add_marker_list`, `draw_from_json`) stores one closure in
  the script element's single `onload` slot, overwriting the previous one.
  When the script loads, the browser runs whatever closure the slot holds,
  once. Modelled as a class with the source's fields (`mapper.dfy`). Its
  methods are proved against value-level step functions. Leaflet's effects
  are appended to a ghost log.

`hostpage.dfy` joins the two halves. The page that the C# side generates
quotes the configuration correctly. When it runs against this `Mapper`,
no map is ever created:
`draw(json)` stores the draw-from-json closure, and that closure only
*registers* the draw-map closure (it calls the public `draw_map`). By then
the load event has already fired. The model follows the code as written:
one overwritten slot, not a queue of pending operations.

## Model

| member | source | states |
|---|---|---|
| `Json.WriteIsClean` | MapView.xaml.cs:77-80 | The non-indented serializer never inserts whitespace, a single quote or a backslash: its output is clean whenever the strings in the document are. |
| `MapView.ElementAt` | MapView.xaml.cs:58 | The `JsonElement` indexer succeeds exactly on an array with that index and yields that element. On a non-array it throws the wrong-kind exception. |
| `MapView.NumberAt` | MapView.xaml.cs:59-61 | `init[k].GetDouble()` succeeds exactly when `init` is an array whose entry `k` exists and is a number, and yields that number. |
| `MapView.DecodeViewport` | MapView.xaml.cs:58-61 | Viewport decoding succeeds iff the root is an array and element 0 is an array of at least three numbers. The viewport is then entries 0, 1, 2 of element 0, in that order. |
| `MapView.ViewportErrors` | MapView.xaml.cs:58-61 | Names the exception for each failing case. Non-array root: wrong kind. No element 0: out of range. Element 0 not an array: wrong kind. Fewer than 3 numeric entries: out of range. A non-number among the first three: GetDouble's exception. |
| `MapView.Doubles` | MapView.xaml.cs:66-68 | Converting a marker array succeeds iff every entry is a number, and keeps all the entries in order. |
| `MapView.DecodeMarkers` | MapView.xaml.cs:63-69 | The Where/Select chain succeeds iff every later element is an array whose entries are all numbers (when it has any). The marker count equals the number of non-empty later elements. |
| `MapView.MarkersFollowInput` | MapView.xaml.cs:63-69 | The non-empty element at index i becomes the marker at position "number of non-empty elements before i". That marker holds all of the element's numbers in order, with no length-2 check. |
| `MapView.EmptyElementsSkipped` | MapView.xaml.cs:65 | An empty array produces no marker and changes nothing else. A non-array element is an error. |
| `MapView.FirstBadElementDecidesError` | MapView.xaml.cs:63-69 | The first unreadable later element decides the exception. A non-array throws GetArrayLength's; an array with a non-number throws GetDouble's. |
| `MapView.Decode` | MapView.xaml.cs:58-69 | Decoding succeeds iff the viewport and every later element are readable. The position is the decoded viewport, and there is one marker per non-empty later element. |
| `MapView.MarkersIgnoreFirstElement` | MapView.xaml.cs:63-64 | The markers come from `Skip(1)` alone. Replacing element 0 by another valid viewport leaves them unchanged, and element 0 never yields a marker. |
| `MapView.DecodeSkipsPlaceholder` | MapView.xaml.cs:58-69 | `[[45,-93,10],[45.1,-93.1],[],[45.2,-93.2]]` decodes to viewport (45,-93,10) and exactly the two markers, in order. |
| `MapView.ShortViewportRefused` | MapView.xaml.cs:58-61 | `[[45,-93]]` is refused: `init[2]` is out of range. |
| `MapView.ConfigJson` | MapView.xaml.cs:71-75 | The configuration object has exactly two members, `position` then `markers`. `position` is `{lat, long, zoom}` holding the viewport's numbers in that order. `markers` is an array with one array per marker, and entry `k` of marker `i` is that marker's `k`-th number. |
| `MapView.ConfigJsonIsPlain` | MapView.xaml.cs:71-75 | The object holds only the fixed names `position`, `lat`, `long`, `zoom`, `markers` and numbers, so it contains no unclean string. |
| `MapView.PageQuotesEncloseJson` | MapView.xaml.cs:82-92 | When the spliced text is clean, the page has exactly two single quotes: the ones that open and close `var json = '...'`. The literal holds exactly the spliced text. |
| `MapView.GenerateHtmlFromMapData` | MapView.xaml.cs:53-93 | Succeeds iff the document decodes. The page is then the template around the compact text of the configuration built from the decoded viewport and markers. |
| `HostPage.GeneratedPageIsWellQuoted` | MapView.xaml.cs:77-92 | For every decodable document, the generated page's string literal holds exactly the compact configuration. That text has no quote, backslash or whitespace, so it cannot break the literal. |
| `HostPage.PositionReadsBack` | mapper.js:145-147 | The JavaScript reads `position.lat/long/zoom` of the written configuration back as the decoded viewport. |
| `HostPage.GeneratedPageDrawsNoMap` | mapper.js:137-161 | Covers the generated page (`new Mapper(); map.draw(json)`, then load). The fields receive the viewport, but no map is created. With no markers nothing is drawn. Otherwise Leaflet is asked to add exactly one marker, the first, to `null` (the `map` field was never set). |
| `Mapper.Initial` | mapper.js:6-14 | The constructor stores lat, long, zoom (default 0) and marker_list (default `[]`); an `undefined` argument takes the default. `map` is null, and the slot is empty and unfired. |
| `Mapper.Mapper.constructor` | mapper.js:6-38 | Builds the initial state and a fresh script element (`leaf_script`) with no handler. |
| `Mapper.Script.constructor` | mapper.js:48-53 | The created Leaflet script element starts with no `onload` handler and not yet loaded. |
| `Mapper.HasEntries` | mapper.js:75 | `v.length > 0` throws on `undefined`/`null`; on an array it is "the array is non-empty". |
| `Mapper.EntryCoordinates` | mapper.js:120-127 | An array entry gives `[0]` and `[1]`. Any other entry gives `.lat` and `.long`, which throws exactly on `undefined`/`null`. |
| `Mapper.DrawHandler` | mapper.js:86-97 | `draw(null)` chooses the draw-map closure; `draw(s)` chooses draw-from-json for `s`. |
| `Mapper.DrawMapEffect` | mapper.js:57-80 | `#draw_map` sets `map` to a map viewed at (lat, long, zoom) and logs its creation. It looks at `marker_list` only through `length > 0`. When that holds, it only stores the `add_marker_list` closure; fields and the load flag are unchanged. |
| `Mapper.AddMarkerListEffect` | mapper.js:114-131 | An empty list changes nothing and completes. For any list with `length > 0` (an array or an array-like object), entry `list[0]` is read: if it or its coordinates cannot be read, the closure throws before changing anything; otherwise exactly that one marker is placed, read as `[0]`/`[1]` or `.lat`/`.long`, and the closure then throws, because `addTo` is called on `#add_marker`'s undefined result. |
| `Mapper.EntryShapesAgree` | mapper.js:118-129 | A marker given as `[lat, long]` and one given as `{lat, long}` with the same numbers lead to the same state: the same single marker is placed. |
| `Mapper.HandlerEffect` | mapper.js:81-162 | Running any stored closure asks Leaflet for at most one thing, appended to the log, and leaves the load flag alone. |
| `Mapper.LoadEffect` | mapper.js:40-53 | The load event marks the script loaded. A second load changes nothing; with an empty slot, only the flag changes. The first load with a closure in the slot runs that closure on the loaded state. |
| `Mapper.LastCallWins` | mapper.js:81-162 | After any non-empty series of public calls, the slot holds the last call's closure and nothing else has changed: no queue, last writer wins. |
| `Mapper.CallsTouchOnlySlot` | mapper.js:81-162 | Public calls never draw and change no field or log entry; only the slot changes. |
| `Mapper.NothingRunsAfterLoad` | mapper.js:48-53 | After the script has loaded, no sequence of calls and load events changes anything but the slot. |
| `Mapper.OnlyLastHandlerRuns` | mapper.js:81-162 | Whatever calls precede the load event, exactly one closure runs, once: the last one stored. Everything after leaves its result as it was, except the slot. |
| `Mapper.InitialSatisfiesInvariant` | mapper.js:6-14 | A freshly constructed mapper satisfies the run invariant: empty log, no map. |
| `Mapper.AtMostOneMap` | mapper.js:57-85 | Every run from a state satisfying the invariant keeps it: the log stays empty until load and records at most one created map. |
| `Mapper.AddMarkerListHandlerOnlyReregisters` | mapper.js:132-136 | The public `add_marker_list` closure, when run, stores itself again and places no marker. |
| `Mapper.DrawFromJsonEffect` | mapper.js:137-157 | `#draw_from_json` leaves `map`, `marker_list` and the load flag unchanged and creates no map; it asks Leaflet at most to add one marker to the existing `map`. Unparsable text or an unreadable `position` throws before anything changes. Otherwise `position.lat/long/zoom` are copied into the fields and the draw-map closure is left in the slot. It completes exactly when `position` is readable and `markers.length > 0` is false. With `position` readable, the log is what `#add_marker_list` gives on `markers` when `markers.length > 0`, and unchanged otherwise, including when `markers` is missing and `.length` throws. |
| `Mapper.DrawChoosesHandler` | mapper.js:86-97 | `draw(null)` stores the draw-map closure, `draw(s)` the draw-from-json closure for `s`; no field changes. |
| `Mapper.Mapper.DrawMap` | mapper.js:81-85 | `draw_map()` only overwrites the slot with the draw-map closure. |
| `Mapper.Mapper.Draw` | mapper.js:86-97 | `draw(json_string = null)` overwrites the slot with the closure `DrawHandler` chooses. |
| `Mapper.Mapper.AddMarker` | mapper.js:106-113 | `add_marker(lat, long)` only overwrites the slot with the add-marker closure. |
| `Mapper.Mapper.AddMarkerList` | mapper.js:132-136 | `add_marker_list(list)` only overwrites the slot with its closure. |
| `Mapper.Mapper.DrawFromJson` | mapper.js:158-162 | `draw_from_json(s)` only overwrites the slot with the draw-from-json closure. |
| `Mapper.Mapper.PlaceMarker` | mapper.js:98-105 | `#add_marker` logs one marker on the current `map` and returns `undefined`. |
| `Mapper.Mapper.RunDrawMap` | mapper.js:57-80 | The imperative `#draw_map` produces exactly the state and outcome of `DrawMapEffect`. |
| `Mapper.Mapper.RunAddMarkerList` | mapper.js:114-131 | The imperative `#add_marker_list` produces exactly the state and outcome of `AddMarkerListEffect`. |
| `Mapper.Mapper.RunDrawFromJson` | mapper.js:137-157 | The imperative `#draw_from_json` produces exactly the state and outcome of `DrawFromJsonEffect`. |
| `Mapper.Mapper.RunHandler` | mapper.js:81-162 | Running a stored closure on the object matches `HandlerEffect`. |
| `Mapper.Mapper.FireLoad` | mapper.js:48-53 | The script's load event on the object matches `LoadEffect`: the slot's closure runs only the first time. |

## Left out

- Parsing JSON text (`JsonDocument.Parse`, `JSON.parse`). These are library calls. Every operation takes a parsed `Json` value. Text that `JSON.parse` rejects is the value `Unparsable`. `HostPage` takes `JSON.parse` of the written configuration to be that configuration.
- The `(float)` narrowing of `GetDouble()` and all floating-point precision. Numbers are abstract reals, so the serializer's refusal of non-finite values is not modelled either.
- How `JsonSerializer` spells a number. The writer takes a formatter `num`, and the only assumption is that it writes number characters. String escaping is not modelled, because the configuration holds only five fixed member names.
- The template's line endings. The raw string literal is taken to use `\n` with its common indentation removed.
- The .NET exception types. The wrong-kind and non-number cases are both `InvalidOperationException` in .NET; the model tells them apart.
- DOM work: the `<link>`/`<script>` elements of `#add_deps`, the map `<div>`, its style and id, and the `create_div`/`add_leaflet` flags (always true). These are browser I/O. The asset URLs are only text.
- Leaflet itself: `L.map`, `setView`, the tile layer, `L.Marker` and `addTo`. Their effects are log entries. Leaflet's own failures are not modelled (a marker added to a `null` map, an invalid `LatLng`).
- Script-load timing. `FireLoad` stands for the browser's single load event. A script that never loads is a run with no `Load` event.
- MAUI binding plumbing: `BindableProperty`, `OnHtmlContentChanged`, `OnMapDataChanged`, `HtmlWebViewSource`, `InitializeComponent`.
- JavaScript values other than JSON values and `undefined` (functions, class instances) as constructor or method arguments.
- `Mapper.HasEntries`: when `length` is a string, array or object, the conversion to a number for `> 0` is not modelled; it is taken as not positive. That case arises only for an object with its own `length` member. A string's `length` counts characters, not UTF-16 code units.
- `HostPage` takes the page's script, loaded from the jsDelivr `@0.0.3` release, to be the `Mapper` of this model; what that release actually holds is not part of this model.
- Aliasing: `marker_list` and the argument of `add_marker_list` are JavaScript references, so a caller could change the list after the call and before the load event. The model stores values, so a closure always sees the list as it was passed.
- A FIFO queue of pending operations, and an encoder back to the terse array format. The code has neither: it has a single overwritten slot, and it only decodes the terse format.
