/**
 * The host control's page generator (`MapView.GenerateHtmlFromMapData`).
 *
 * The bound `Marks` text is a terse positional JSON array
 * `[[lat, long, zoom], [lat, long] | [], ...]`. Element 0 gives the viewport;
 * every later non-empty array becomes a marker. The result is a configuration
 * object `{position: {lat, long, zoom}, markers: [[...], ...]}`, written as
 * compact JSON and spliced into a page that hands it to the JavaScript
 * `Mapper` inside a single-quoted string literal.
 *
 * The `JsonElement` accessors it uses throw: the indexer on a non-array or
 * past the end, `GetDouble` on a non-number, `GetArrayLength` and
 * `EnumerateArray` on a non-array. Each throw is an `Err` here.
 */
module MapView {
  import opened Wrappers
  import opened Json

  /** The exceptions the accessors raise. */
  datatype Error =
    | NotAnArray        // indexer, GetArrayLength or EnumerateArray on a value that is not an array
    | IndexOutOfRange   // indexer past the last element
    | NotANumber        // GetDouble on a value that is not a number

  /** The anonymous `position` object. */
  datatype Position = Position(lat: real, long: real, zoom: real)

  /** The anonymous configuration object: the viewport and the markers in input order. */
  datatype MapConfig = MapConfig(position: Position, markers: seq<seq<real>>)

  // ---------------------------------------------------------------------------
  // JsonElement accessors

  /** `e[i]` */
  function ElementAt(e: Json, i: nat): (r: Result<Json, Error>)
    ensures r.Ok? <==> e.JArray? && i < |e.items|
    ensures r.Ok? ==> r.value == e.items[i]
    ensures !e.JArray? ==> r == Err(NotAnArray)
  {
    if !e.JArray? then Err(NotAnArray)
    else if i < |e.items| then Ok(e.items[i])
    else Err(IndexOutOfRange)
  }

  /** `e.GetDouble()` */
  function GetDouble(e: Json): (r: Result<real, Error>)
    ensures r.Ok? <==> e.JNumber?
    ensures r.Ok? ==> r.value == e.n
  {
    if e.JNumber? then Ok(e.n) else Err(NotANumber)
  }

  /** `e.GetArrayLength()` */
  function GetArrayLength(e: Json): (r: Result<nat, Error>)
    ensures r.Ok? <==> e.JArray?
    ensures r.Ok? ==> r.value == |e.items|
  {
    if e.JArray? then Ok(|e.items|) else Err(NotAnArray)
  }

  /** `e[i].GetDouble()` */
  function NumberAt(e: Json, i: nat): (r: Result<real, Error>)
    ensures r.Ok? <==> e.JArray? && i < |e.items| && e.items[i].JNumber?
    ensures r.Ok? ==> r.value == e.items[i].n
  {
    var x :- ElementAt(e, i);
    GetDouble(x)
  }

  // ---------------------------------------------------------------------------
  // Viewport

  /** What the viewport decoding demands of the root: an array whose element 0 is an array of at least three numbers. */
  predicate HasViewport(root: Json) {
    root.JArray? && |root.items| > 0 &&
    var init := root.items[0];
    init.JArray? && |init.items| >= 3 &&
    init.items[0].JNumber? && init.items[1].JNumber? && init.items[2].JNumber?
  }

  /**
   * `init = root[0]` and the three `init[k].GetDouble()` calls, in source order.
   * It succeeds exactly when the root has a viewport, and then the viewport is
   * entries 0, 1 and 2 of element 0, in that order; extra entries are ignored.
   */
  function DecodeViewport(root: Json): (r: Result<Position, Error>)
    ensures r.Ok? <==> HasViewport(root)
    ensures r.Ok? ==> r.value == Position(root.items[0].items[0].n, root.items[0].items[1].n, root.items[0].items[2].n)
  {
    var init :- ElementAt(root, 0);
    var lat :- NumberAt(init, 0);
    var long :- NumberAt(init, 1);
    var zoom :- NumberAt(init, 2);
    Ok(Position(lat, long, zoom))
  }

  /** The exception that ends a failing viewport decoding: the first accessor that throws, in source order. */
  lemma ViewportErrors(root: Json)
    ensures !root.JArray? ==> DecodeViewport(root) == Err(NotAnArray)
    ensures root.JArray? && root.items == [] ==> DecodeViewport(root) == Err(IndexOutOfRange)
    ensures root.JArray? && root.items != [] && !root.items[0].JArray? ==> DecodeViewport(root) == Err(NotAnArray)
    ensures root.JArray? && root.items != [] && root.items[0].JArray? && |root.items[0].items| < 3 &&
            (forall k :: 0 <= k < |root.items[0].items| ==> root.items[0].items[k].JNumber?)
            ==> DecodeViewport(root) == Err(IndexOutOfRange)
    ensures root.JArray? && root.items != [] && root.items[0].JArray? &&
            (exists k :: 0 <= k < |root.items[0].items| && k < 3 && !root.items[0].items[k].JNumber?)
            ==> DecodeViewport(root) == Err(NotANumber)
  {
    if root.JArray? && root.items != [] && root.items[0].JArray? {
      var init := root.items[0];
      if exists k :: 0 <= k < |init.items| && k < 3 && !init.items[k].JNumber? {
        var k :| 0 <= k < |init.items| && k < 3 && !init.items[k].JNumber?;
        assert k == 0 || k == 1 || k == 2;
      }
    }
  }

  // ---------------------------------------------------------------------------
  // Markers

  /** Every entry of `items` is a number. */
  predicate AllNumbers(items: seq<Json>) {
    forall k :: 0 <= k < |items| ==> items[k].JNumber?
  }

  /** The numbers of `items`, in order. */
  function Numbers(items: seq<Json>): (r: seq<real>)
    requires AllNumbers(items)
    ensures |r| == |items|
    ensures forall k :: 0 <= k < |items| ==> r[k] == items[k].n
  {
    if items == [] then [] else [items[0].n] + Numbers(items[1..])
  }

  /** `arr.EnumerateArray().Select(e => e.GetDouble()).ToArray()`: fails on the first non-number. */
  function Doubles(items: seq<Json>): (r: Result<seq<real>, Error>)
    ensures r.Ok? <==> AllNumbers(items)
    ensures r.Ok? ==> r.value == Numbers(items)
    ensures r.Err? ==> r.error == NotANumber
  {
    if items == [] then Ok([])
    else
      var x :- GetDouble(items[0]);
      var rest :- Doubles(items[1..]);
      assert AllNumbers(items) <== AllNumbers(items[1..]) by {
        if AllNumbers(items[1..]) {
          forall k | 0 < k < |items| ensures items[k].JNumber? {
            assert items[k] == items[1..][k - 1];
          }
        }
      }
      Ok([x] + rest)
  }

  /** A later root element the Where filter lets through. */
  predicate NonEmpty(e: Json) {
    e.JArray? && |e.items| > 0
  }

  /** A later root element the pipeline accepts: an array, and all numbers when non-empty. */
  predicate MarkerElement(e: Json) {
    e.JArray? && AllNumbers(e.items)
  }

  /** How many elements of `es` are non-empty arrays. */
  function CountNonEmpty(es: seq<Json>): nat {
    if es == [] then 0 else (if NonEmpty(es[0]) then 1 else 0) + CountNonEmpty(es[1..])
  }

  /**
   * `.Where(arr => arr.GetArrayLength() > 0).Select(arr => ...Doubles...).ToArray()`
   * over the elements after the first. The LINQ chain is lazy, so `ToArray`
   * runs the filter and the conversion element by element in order, and the
   * first element that throws decides the error.
   */
  function DecodeMarkers(rest: seq<Json>): (r: Result<seq<seq<real>>, Error>)
    ensures r.Ok? <==> forall i :: 0 <= i < |rest| ==> MarkerElement(rest[i])
    ensures r.Ok? ==> |r.value| == CountNonEmpty(rest)
  {
    if rest == [] then Ok([])
    else
      var length :- GetArrayLength(rest[0]);
      var tail := rest[1..];
      assert forall i :: 0 < i < |rest| ==> rest[i] == tail[i - 1];
      if length == 0 then DecodeMarkers(tail)
      else
        var marker :- Doubles(rest[0].items);
        var markers :- DecodeMarkers(tail);
        Ok([marker] + markers)
  }

  /**
   * Markers keep input order and content: the non-empty element at index `i`
   * becomes the marker whose position is the number of non-empty elements
   * before it, holding all of that element's numbers in order (there is no
   * check that a marker has exactly two entries).
   */
  lemma {:induction false} MarkersFollowInput(rest: seq<Json>, i: nat)
    requires DecodeMarkers(rest).Ok?
    requires i < |rest| && NonEmpty(rest[i])
    ensures CountNonEmpty(rest[..i]) < |DecodeMarkers(rest).value|
    ensures AllNumbers(rest[i].items)
    ensures DecodeMarkers(rest).value[CountNonEmpty(rest[..i])] == Numbers(rest[i].items)
    decreases i
  {
    assert MarkerElement(rest[i]);
    var tail := rest[1..];
    assert forall k :: 0 < k < |rest| ==> rest[k] == tail[k - 1];
    if i == 0 {
      assert rest[..0] == [];
    } else {
      assert rest[..i][1..] == tail[..i - 1];
      MarkersFollowInput(tail, i - 1);
    }
  }

  /** Empty arrays after the first element produce no marker, and non-arrays there are an error. */
  lemma EmptyElementsSkipped(rest: seq<Json>, e: Json)
    ensures e.JArray? && e.items == [] ==> DecodeMarkers([e] + rest) == DecodeMarkers(rest)
    ensures !e.JArray? ==> DecodeMarkers([e] + rest) == Err(NotAnArray)
  {
    assert ([e] + rest)[1..] == rest;
  }

  /**
   * The first element after index 0 that the pipeline cannot read decides the
   * exception: GetArrayLength's for a non-array, GetDouble's for an array
   * holding a non-number.
   */
  lemma {:induction false} FirstBadElementDecidesError(rest: seq<Json>, i: nat)
    requires i < |rest| && !MarkerElement(rest[i])
    requires forall k :: 0 <= k < i ==> MarkerElement(rest[k])
    ensures DecodeMarkers(rest) == Err(if rest[i].JArray? then NotANumber else NotAnArray)
    decreases i
  {
    var tail := rest[1..];
    if i > 0 {
      assert MarkerElement(rest[0]);
      assert forall k :: 0 <= k < i - 1 ==> tail[k] == rest[k + 1];
      FirstBadElementDecidesError(tail, i - 1);
    }
  }

  // ---------------------------------------------------------------------------
  // The whole decoding

  /** What the whole pipeline demands of the root. */
  predicate Decodable(root: Json) {
    HasViewport(root) && forall i :: 1 <= i < |root.items| ==> MarkerElement(root.items[i])
  }

  /**
   * The viewport from element 0, then the markers from `root.EnumerateArray().Skip(1)`.
   * Element 0 is never a marker, however many entries it has.
   */
  function Decode(root: Json): (r: Result<MapConfig, Error>)
    ensures r.Ok? <==> Decodable(root)
    ensures r.Ok? ==> Ok(r.value.position) == DecodeViewport(root)
    ensures r.Ok? ==> |r.value.markers| == CountNonEmpty(root.items[1..])
  {
    var position :- DecodeViewport(root);
    var rest := root.items[1..];
    assert forall i :: 1 <= i < |root.items| ==> root.items[i] == rest[i - 1];
    var markers :- DecodeMarkers(rest);
    Ok(MapConfig(position, markers))
  }

  /** The markers come from the elements after the first alone: replacing element 0 by another viewport changes none of them. */
  lemma {:induction false} MarkersIgnoreFirstElement(init: Json, other: Json, rest: seq<Json>)
    requires Decode(JArray([init] + rest)).Ok?
    requires HasViewport(JArray([other] + rest))
    ensures Decode(JArray([other] + rest)).Ok?
    ensures Decode(JArray([other] + rest)).value.markers == Decode(JArray([init] + rest)).value.markers
    ensures Ok(Decode(JArray([init] + rest)).value.markers) == DecodeMarkers(rest)
  {
    assert ([init] + rest)[1..] == rest;
    assert ([other] + rest)[1..] == rest;
  }

  /** A viewport, one marker, an empty placeholder, another marker: the placeholder is skipped. */
  lemma DecodeSkipsPlaceholder()
    ensures var root := JArray([
              JArray([JNumber(45.0), JNumber(-93.0), JNumber(10.0)]),
              JArray([JNumber(45.1), JNumber(-93.1)]),
              JArray([]),
              JArray([JNumber(45.2), JNumber(-93.2)])]);
            Decode(root) == Ok(MapConfig(Position(45.0, -93.0, 10.0), [[45.1, -93.1], [45.2, -93.2]]))
  {
    var root := JArray([
      JArray([JNumber(45.0), JNumber(-93.0), JNumber(10.0)]),
      JArray([JNumber(45.1), JNumber(-93.1)]),
      JArray([]),
      JArray([JNumber(45.2), JNumber(-93.2)])]);
    var m1 := JArray([JNumber(45.1), JNumber(-93.1)]);
    var m2 := JArray([JNumber(45.2), JNumber(-93.2)]);
    assert Numbers(m1.items) == [45.1, -93.1];
    assert Numbers(m2.items) == [45.2, -93.2];
    assert DecodeMarkers([m2]) == Ok([[45.2, -93.2]]) by {
      assert [m2][1..] == [];
      assert Doubles(m2.items) == Ok([45.2, -93.2]);
      assert DecodeMarkers([]) == Ok([]);
      assert [[45.2, -93.2]] + [] == [[45.2, -93.2]];
    }
    assert DecodeMarkers([JArray([]), m2]) == Ok([[45.2, -93.2]]) by {
      assert [JArray([]), m2][1..] == [m2];
    }
    assert DecodeMarkers([m1, JArray([]), m2]) == Ok([[45.1, -93.1], [45.2, -93.2]]) by {
      assert [m1, JArray([]), m2][1..] == [JArray([]), m2];
      assert Doubles(m1.items) == Ok([45.1, -93.1]);
      assert [[45.1, -93.1]] + [[45.2, -93.2]] == [[45.1, -93.1], [45.2, -93.2]];
    }
    assert root.items[1..] == [m1, JArray([]), m2];
  }

  /** A viewport with only two entries is refused: `init[2]` is past the end. */
  lemma ShortViewportRefused()
    ensures Decode(JArray([JArray([JNumber(45.0), JNumber(-93.0)])])) == Err(IndexOutOfRange)
  {
    ViewportErrors(JArray([JArray([JNumber(45.0), JNumber(-93.0)])]));
  }

  // ---------------------------------------------------------------------------
  // The configuration object and the page

  /** The anonymous configuration object as the serializer sees it: fixed member names, numbers only. */
  function ConfigJson(c: MapConfig): (j: Json)
    ensures j.JObject? && |j.members| == 2
    ensures j.members[0].name == "position" && j.members[1].name == "markers"
    ensures j.members[0].value ==
              JObject([Member("lat", JNumber(c.position.lat)), Member("long", JNumber(c.position.long)),
                       Member("zoom", JNumber(c.position.zoom))])
    ensures j.members[1].value.JArray? && |j.members[1].value.items| == |c.markers|
    ensures forall i :: 0 <= i < |c.markers| ==>
              j.members[1].value.items[i].JArray? && |j.members[1].value.items[i].items| == |c.markers[i]|
    ensures forall i, k :: 0 <= i < |c.markers| && 0 <= k < |c.markers[i]| ==>
              j.members[1].value.items[i].items[k] == JNumber(c.markers[i][k])
  {
    var position := JObject([
      Member("lat", JNumber(c.position.lat)),
      Member("long", JNumber(c.position.long)),
      Member("zoom", JNumber(c.position.zoom))]);
    var markers := JArray(seq(|c.markers|, i requires 0 <= i < |c.markers| =>
      JArray(seq(|c.markers[i]|, k requires 0 <= k < |c.markers[i]| => JNumber(c.markers[i][k])))));
    JObject([Member("position", position), Member("markers", markers)])
  }

  /** The configuration holds only the five fixed member names and numbers, so every string in it is clean. */
  lemma ConfigJsonIsPlain(c: MapConfig)
    ensures Plain(ConfigJson(c))
  {
    var j := ConfigJson(c);
    assert AllClean("position") && AllClean("markers");
    assert AllClean("lat") && AllClean("long") && AllClean("zoom");
    assert Plain(j.members[0].value);
    var markers := j.members[1].value;
    forall i | 0 <= i < |markers.items|
      ensures Plain(markers.items[i])
    {
      assert markers.items[i].JArray?;
      assert forall k :: 0 <= k < |markers.items[i].items| ==> markers.items[i].items[k].JNumber?;
    }
  }

  /** The template lines before the string literal's opening quote. */
  const PageHead: string :=
    "<!DOCTYPE html>\n<html>\n" +
    ScriptTag +
    "<script>\nvar map = new Mapper();\nvar json = "

  /** The line that loads the JavaScript `Mapper` from its published location. */
  const ScriptTag: string :=
    "<script src=\"https://cdn.jsdelivr.net" + "/gh/tmpk13/Simple-HTML-" + "Map-Element-Maui@0.0.3" + "/mapper.js\"></script>\n"

  /** The template lines after the string literal's closing quote. */
  const PageTail: string := ";\nmap.draw(json);\n</script>\n</html>"

  /** The page up to and including the quote that opens the JavaScript string literal. */
  const PagePrefix: string := PageHead + "'"

  /** The page from the quote that closes the string literal on. */
  const PageSuffix: string := "'" + PageTail

  /** The page template with the configuration text spliced in. */
  function Page(json: string): string {
    PagePrefix + json + PageSuffix
  }

  lemma ScriptTagHasNoQuote()
    ensures '\'' !in ScriptTag
  {
    assert '\'' !in "<script src=\"https://cdn.jsdelivr.net";
    assert '\'' !in "/gh/tmpk13/Simple-HTML-";
    assert '\'' !in "Map-Element-Maui@0.0.3";
    assert '\'' !in "/mapper.js\"></script>\n";
  }

  /** Apart from the literal's two delimiters the template has no single quote. */
  lemma TemplateHasNoOtherQuote()
    ensures '\'' !in PageHead && '\'' !in PageTail
  {
    ScriptTagHasNoQuote();
    assert '\'' !in "<!DOCTYPE html>\n<html>\n";
    assert '\'' !in "<script>\nvar map = new Mapper();\nvar json = ";
  }

  /**
   * When the spliced text is clean, the page holds exactly two single quotes:
   * the one that opens the JavaScript string literal and the one that closes
   * it, so the literal's contents are exactly `json`.
   */
  lemma {:induction false} PageQuotesEncloseJson(json: string)
    requires AllClean(json)
    ensures Page(json)[..|PagePrefix|] == PagePrefix
    ensures Page(json)[|PagePrefix|..|PagePrefix| + |json|] == json
    ensures forall i :: 0 <= i < |Page(json)| ==>
              (Page(json)[i] == '\'' <==> i == |PagePrefix| - 1 || i == |PagePrefix| + |json|)
  {
    TemplateHasNoOtherQuote();
    var page := Page(json);
    forall i | 0 <= i < |page|
      ensures page[i] == '\'' <==> i == |PagePrefix| - 1 || i == |PagePrefix| + |json|
    {
      if i < |PagePrefix| - 1 {
        assert page[i] == PageHead[i];
      } else if i == |PagePrefix| - 1 {
      } else if i < |PagePrefix| + |json| {
        assert page[i] == json[i - |PagePrefix|];
        assert Clean(json[i - |PagePrefix|]);
      } else if i > |PagePrefix| + |json| {
        assert page[i] == PageTail[i - |PagePrefix| - |json| - 1];
      }
    }
  }

  /**
   * `GenerateHtmlFromMapData`: decode, build the configuration, write it
   * compactly with the number formatter `num`, splice it into the page.
   */
  function GenerateHtmlFromMapData(root: Json, num: real -> string): (r: Result<string, Error>)
    ensures r.Ok? <==> Decodable(root)
    ensures r.Ok? ==> r.value == Page(Write(ConfigJson(Decode(root).value), num))
  {
    var config :- Decode(root);
    Ok(Page(Write(ConfigJson(config), num)))
  }
}
