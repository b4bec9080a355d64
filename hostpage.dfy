/**
 * The generated page end to end: `GenerateHtmlFromMapData` writes a page
 * that runs `var map = new Mapper(); map.draw(json);` with the compact
 * configuration as `json`; later the Leaflet script's load event fires.
 *
 * `JSON.parse` is not modelled: the text it reads is taken to be the
 * configuration object that was written.
 */
module HostPage {
  import opened Wrappers
  import opened Json
  import MapView
  import Mapper

  /** Entry `k` of a marker as JavaScript reads it: the number, or `undefined` past the end. */
  function Coordinate(marker: seq<real>, k: nat): Mapper.Value {
    if k < |marker| then Mapper.Defined(JNumber(marker[k])) else Mapper.Undefined
  }

  /** The events the page causes: `map.draw(json)` on a start mapper, then the load event. */
  function PageRun(config: MapView.MapConfig): (t: Mapper.State)
  {
    var start := Mapper.Initial(Mapper.Undefined, Mapper.Undefined, Mapper.Undefined, Mapper.Undefined);
    var draw := Mapper.Invoke(Mapper.DrawCall(Some(Mapper.Parsable(MapView.ConfigJson(config)))));
    Mapper.Run(start, [draw, Mapper.Load])
  }

  /** The mapper as the load event finds it: fresh, with the draw-from-json closure for the configuration in its slot. */
  function Loaded(config: MapView.MapConfig): Mapper.State {
    var start := Mapper.Initial(Mapper.Undefined, Mapper.Undefined, Mapper.Undefined, Mapper.Undefined);
    Mapper.Registered(start, Mapper.DrawFromJsonHandler(Mapper.Parsable(MapView.ConfigJson(config)))).(loaded := true)
  }

  /** Running the page is running the draw-from-json closure once, on the fresh mapper. */
  lemma PageRunIsDrawFromJson(config: MapView.MapConfig)
    ensures PageRun(config) == Mapper.DrawFromJsonEffect(Loaded(config), Mapper.Parsable(MapView.ConfigJson(config))).state
  {
    var text := Mapper.Parsable(MapView.ConfigJson(config));
    var start := Mapper.Initial(Mapper.Undefined, Mapper.Undefined, Mapper.Undefined, Mapper.Undefined);
    var s1 := Mapper.Registered(start, Mapper.DrawFromJsonHandler(text));
    var events := [Mapper.Invoke(Mapper.DrawCall(Some(text))), Mapper.Load];
    assert events[1..] == [Mapper.Load] && events[1..][1..] == [];
    assert Mapper.Run(start, events) == Mapper.Run(s1, [Mapper.Load]) == Mapper.LoadEffect(s1).state;
  }

  /** JavaScript reads the written position object back member by member. */
  lemma PositionReadsBack(config: MapView.MapConfig)
    ensures var position := Mapper.Defined(MapView.ConfigJson(config).members[0].value);
            Mapper.Get(position, "lat") == Ok(Mapper.Defined(JNumber(config.position.lat))) &&
            Mapper.Get(position, "long") == Ok(Mapper.Defined(JNumber(config.position.long))) &&
            Mapper.Get(position, "zoom") == Ok(Mapper.Defined(JNumber(config.position.zoom)))
  {
    var ms := MapView.ConfigJson(config).members[0].value.members;
    assert ms[..2][..1] == ms[..1];
    assert Mapper.Lookup(ms, "long") == Mapper.Lookup(ms[..2], "long");
    assert Mapper.Lookup(ms, "lat") == Mapper.Lookup(ms[..2], "lat") == Mapper.Lookup(ms[..1], "lat");
  }

  /** JavaScript reads the first written marker back as a non-empty list whose entry 0 is an array of that marker's numbers. */
  lemma MarkersReadBack(config: MapView.MapConfig)
    requires config.markers != []
    ensures var conf := Mapper.Defined(MapView.ConfigJson(config));
            var markers := Mapper.Defined(MapView.ConfigJson(config).members[1].value);
            Mapper.Get(conf, "markers") == Ok(markers) &&
            Mapper.HasEntries(markers) == Ok(true) &&
            Mapper.Index(markers, 0).Ok? &&
            Mapper.EntryCoordinates(Mapper.Index(markers, 0).value) ==
              Ok((Coordinate(config.markers[0], 0), Coordinate(config.markers[0], 1)))
  {
    var j := MapView.ConfigJson(config);
    var entry := Mapper.Defined(j.members[1].value.items[0]);
    assert Mapper.Index(entry, 0).value == Coordinate(config.markers[0], 0);
    assert Mapper.Index(entry, 1).value == Coordinate(config.markers[0], 1);
  }

  /**
   * The page the host generates never shows a map: the viewport is copied
   * into the mapper's fields, but `#draw_from_json` only stores the
   * draw-map closure, after the load event that would have run it. With no
   * markers nothing is drawn; otherwise Leaflet is asked to add the first
   * marker to `null` (the `map` field was never set) and the closure throws.
   */
  lemma GeneratedPageDrawsNoMap(config: MapView.MapConfig)
    ensures var t := PageRun(config);
            t.lat == Mapper.Defined(JNumber(config.position.lat)) &&
            t.long == Mapper.Defined(JNumber(config.position.long)) &&
            t.zoom == Mapper.Defined(JNumber(config.position.zoom)) &&
            t.mapHandle == Mapper.NoMap && Mapper.MapsCreated(t.log) == 0
    ensures config.markers == [] ==> PageRun(config).log == []
    ensures config.markers != [] ==>
              PageRun(config).log ==
                [Mapper.MarkerPlaced(Mapper.NoMap, Coordinate(config.markers[0], 0), Coordinate(config.markers[0], 1))]
  {
    var s := Loaded(config);
    var j := MapView.ConfigJson(config);
    PageRunIsDrawFromJson(config);
    PositionReadsBack(config);
    var t := PageRun(config);
    if config.markers == [] {
      assert Mapper.Get(Mapper.Defined(j), "markers") == Ok(Mapper.Defined(JArray([])));
      assert t.log == [];
    } else {
      MarkersReadBack(config);
      assert t.log == [Mapper.MarkerPlaced(Mapper.NoMap, Coordinate(config.markers[0], 0), Coordinate(config.markers[0], 1))];
      assert t.log[1..] == [];
    }
  }

  /**
   * The page's string literal holds exactly the compact configuration: for
   * every decodable document and every number formatter, the generated page
   * has exactly two single quotes, around the written configuration, and that
   * text has no whitespace, backslash or quote of its own.
   */
  lemma GeneratedPageIsWellQuoted(root: Json, num: real -> string)
    requires NumberFormatter(num) && MapView.Decodable(root)
    ensures var json := Write(MapView.ConfigJson(MapView.Decode(root).value), num);
            var page := MapView.GenerateHtmlFromMapData(root, num).value;
            AllClean(json) &&
            page[|MapView.PagePrefix|..|MapView.PagePrefix| + |json|] == json &&
            forall i :: 0 <= i < |page| ==>
              (page[i] == '\'' <==> i == |MapView.PagePrefix| - 1 || i == |MapView.PagePrefix| + |json|)
  {
    var config := MapView.Decode(root).value;
    MapView.ConfigJsonIsPlain(config);
    WriteIsClean(MapView.ConfigJson(config), num);
    MapView.PageQuotesEncloseJson(Write(MapView.ConfigJson(config), num));
  }
}
