/**
 * The JavaScript `Mapper` class: a thin wrapper over the Leaflet library.
 *
 * Its constructor adds the Leaflet script to the page and keeps the script
 * element as `leaf_script`. Every public drawing operation does not draw: it
 * stores one closure in `leaf_script.onload`, overwriting whatever closure
 * was there. When the browser has loaded the script it calls that slot once.
 * The private `#` operations are the closures' bodies: they update the
 * fields and call into Leaflet. Leaflet's effects (a map created, a marker
 * placed) are appended to a ghost log.
 *
 * JavaScript values are JSON values or `undefined`. Reading a property of
 * `undefined` or `null`, or calling a method of `undefined`, throws a
 * TypeError; a throw ends the running closure with the fields as they are.
 */
module Mapper {
  import opened Wrappers
  import opened Json

  // ---------------------------------------------------------------------------
  // JavaScript values

  /** A JavaScript value the mapper handles: `undefined`, or a value JSON can hold. */
  datatype Value = Undefined | Defined(json: Json)

  /** What a closure can throw. */
  datatype Fault = TypeError | SyntaxError

  const Zero: Value := Defined(JNumber(0.0))

  /** A default parameter: JavaScript uses the default when the argument is `undefined`. */
  function OrDefault(v: Value, default: Value): Value
  {
    if v.Undefined? then default else v
  }

  /** The value of the last member named `key`, as `JSON.parse` keeps it, or `undefined`. */
  function Lookup(members: seq<Member>, key: string): (r: Value)
    ensures r.Undefined? <==> forall i :: 0 <= i < |members| ==> members[i].name != key
    ensures r.Defined? ==> exists i :: 0 <= i < |members| && members[i].name == key && members[i].value == r.json &&
                                       forall k :: i < k < |members| ==> members[k].name != key
  {
    if members == [] then Undefined
    else if members[|members| - 1].name == key then Defined(members[|members| - 1].value)
    else Lookup(members[..|members| - 1], key)
  }

  /**
   * `v.key` for a property name that is not an index: an own member of an
   * object, the `length` of an array or string, `undefined` otherwise; a
   * TypeError on `undefined` and `null`.
   */
  function Get(v: Value, key: string): (r: Result<Value, Fault>)
    ensures r.Err? <==> v.Undefined? || v == Defined(JNull)
    ensures r.Err? ==> r.error == TypeError
  {
    match v
    case Undefined => Err(TypeError)
    case Defined(j) =>
      match j
      case JNull => Err(TypeError)
      case JObject(members) => Ok(Lookup(members, key))
      case JArray(items) => Ok(if key == "length" then Defined(JNumber(|items| as real)) else Undefined)
      case JString(s) => Ok(if key == "length" then Defined(JNumber(|s| as real)) else Undefined)
      case _ => Ok(Undefined)
  }

  function Digit(d: nat): char
    requires d < 10
  {
    "0123456789"[d]
  }

  /** The property name JavaScript uses for index `n`. */
  function Decimal(n: nat): string
  {
    if n < 10 then [Digit(n)] else Decimal(n / 10) + [Digit(n % 10)]
  }

  /** `v[i]`: an array element or string character, or `undefined` past the end; other values are read by the decimal name. */
  function Index(v: Value, i: nat): (r: Result<Value, Fault>)
    ensures r.Err? <==> v.Undefined? || v == Defined(JNull)
    ensures v.Defined? && v.json.JArray? ==> r == Ok(if i < |v.json.items| then Defined(v.json.items[i]) else Undefined)
  {
    match v
    case Defined(JArray(items)) => Ok(if i < |items| then Defined(items[i]) else Undefined)
    case Defined(JString(s)) => Ok(if i < |s| then Defined(JString([s[i]])) else Undefined)
    case _ => Get(v, Decimal(i))
  }

  /** `Array.isArray(v)` */
  predicate IsArray(v: Value) {
    v.Defined? && v.json.JArray?
  }

  /** `v > 0` for the value a `length` read gives. */
  predicate Positive(v: Value) {
    match v
    case Defined(JNumber(n)) => n > 0.0
    case Defined(JBool(b)) => b
    case _ => false
  }

  /** `v.length > 0` */
  function HasEntries(v: Value): (r: Result<bool, Fault>)
    ensures r.Err? <==> v.Undefined? || v == Defined(JNull)
    ensures IsArray(v) ==> r == Ok(|v.json.items| > 0)
  {
    var length :- Get(v, "length");
    Ok(Positive(length))
  }

  // ---------------------------------------------------------------------------
  // The mapper's state, as values

  /** The text handed to `draw`/`draw_from_json`, as `JSON.parse` reads it. */
  datatype Text = Parsable(doc: Json) | Unparsable

  /** The closures the public operations store in `leaf_script.onload`. */
  datatype Handler =
    | DrawMapHandler                                   // () => this.#draw_map()
    | AddMarkerHandler(lat: Value, long: Value)        // () => this.#add_marker(lat, long)
    | AddMarkerListHandler(list: Value)                // () => this.add_marker_list(marker_list)
    | DrawFromJsonHandler(text: Text)                  // () => this.#draw_from_json(json_string)

  /** `this.map`: `null`, or the Leaflet map created with a view. */
  datatype MapRef = NoMap | LeafletMap(lat: Value, long: Value, zoom: Value)

  /** What Leaflet is asked to do. */
  datatype Effect =
    | MapCreated(lat: Value, long: Value, zoom: Value)
    | MarkerPlaced(on: MapRef, lat: Value, long: Value)

  /** The mapper's fields, the script element's handler slot and load flag, and the Leaflet log. */
  datatype State = State(
    lat: Value, long: Value, zoom: Value,
    mapHandle: MapRef,  // `this.map`
    markerList: Value,
    onload: Option<Handler>,
    loaded: bool,
    log: seq<Effect>)

  /** The state after a closure ran, and whether it ran to the end (false: it threw). */
  datatype Step = Step(state: State, completed: bool)

  /** The state `new Mapper(lat, long, zoom, marker_list)` builds. */
  function Initial(lat: Value, long: Value, zoom: Value, markerList: Value): (s: State)
    ensures s.lat == OrDefault(lat, Zero) && s.long == OrDefault(long, Zero) && s.zoom == OrDefault(zoom, Zero)
    ensures s.markerList == OrDefault(markerList, Defined(JArray([])))
    ensures s.mapHandle == NoMap && s.onload == None && !s.loaded && s.log == []
  {
    State(OrDefault(lat, Zero), OrDefault(long, Zero), OrDefault(zoom, Zero), NoMap,
          OrDefault(markerList, Defined(JArray([]))), None, false, [])
  }

  /** `leaf_script.onload = handler`: the one slot is overwritten; nothing else changes. */
  function Registered(s: State, h: Handler): State {
    s.(onload := Some(h))
  }

  /** The handler `draw(json_string)` stores: draw-map for `null`, draw-from-json otherwise. */
  function DrawHandler(text: Option<Text>): (h: Handler)
    ensures text.None? ==> h == DrawMapHandler
    ensures text.Some? ==> h == DrawFromJsonHandler(text.value)
  {
    if text.None? then DrawMapHandler else DrawFromJsonHandler(text.value)
  }

  /** `#add_marker(lat, long)`: one marker on the current map (whatever `this.map` is). */
  function PlaceMarkerEffect(s: State, lat: Value, long: Value): State {
    s.(log := s.log + [MarkerPlaced(s.mapHandle, lat, long)])
  }

  /**
   * `#draw_map()`: the map is created at the current view, then, only when
   * `marker_list` is non-empty, the PUBLIC `add_marker_list` is called, which
   * merely stores a handler.
   */
  function DrawMapEffect(s: State): (t: Step)
    ensures t.state.mapHandle == LeafletMap(s.lat, s.long, s.zoom)
    ensures t.state.log == s.log + [MapCreated(s.lat, s.long, s.zoom)]
    ensures t.state.lat == s.lat && t.state.long == s.long && t.state.zoom == s.zoom
    ensures t.state.markerList == s.markerList && t.state.loaded == s.loaded
    ensures t.completed <==> HasEntries(s.markerList).Ok?
    ensures t.state.onload == if HasEntries(s.markerList) == Ok(true) then Some(AddMarkerListHandler(s.markerList)) else s.onload
  {
    var drawn := s.(mapHandle := LeafletMap(s.lat, s.long, s.zoom), log := s.log + [MapCreated(s.lat, s.long, s.zoom)]);
    match HasEntries(drawn.markerList)
    case Err(_) => Step(drawn, false)
    case Ok(nonEmpty) =>
      if nonEmpty then Step(Registered(drawn, AddMarkerListHandler(drawn.markerList)), true)
      else Step(drawn, true)
  }

  /** The coordinates `#add_marker_list` reads from one entry: `[0]`/`[1]` of an array, `.lat`/`.long` otherwise. */
  function EntryCoordinates(entry: Value): (r: Result<(Value, Value), Fault>)
    ensures IsArray(entry) ==> r.Ok? && r.value == (Index(entry, 0).value, Index(entry, 1).value)
    ensures !IsArray(entry) ==> (r.Ok? <==> entry.Defined? && entry != Defined(JNull))
    ensures !IsArray(entry) && r.Ok? ==> r.value == (Get(entry, "lat").value, Get(entry, "long").value)
  {
    if IsArray(entry) then Ok((Index(entry, 0).value, Index(entry, 1).value))
    else
      var lat :- Get(entry, "lat");
      Ok((lat, Get(entry, "long").value))
  }

  /**
   * `#add_marker_list(marker_list)`. Its loop places the marker of entry 0 and
   * then calls `addTo` on what `#add_marker` returned, which is `undefined`:
   * the call throws, so the loop never reaches entry 1. An empty list does nothing.
   */
  function AddMarkerListEffect(s: State, list: Value): (t: Step)
    ensures HasEntries(list) == Ok(false) ==> t == Step(s, true)
    ensures HasEntries(list) != Ok(false) ==> !t.completed
    ensures t.state == s || (|t.state.log| == |s.log| + 1 &&
              t.state == PlaceMarkerEffect(s, t.state.log[|s.log|].lat, t.state.log[|s.log|].long))
    ensures HasEntries(list) == Ok(true) && (Index(list, 0).Err? || EntryCoordinates(Index(list, 0).value).Err?) ==>
              t == Step(s, false)
    ensures HasEntries(list) == Ok(true) && Index(list, 0).Ok? && EntryCoordinates(Index(list, 0).value).Ok? ==>
              var (lat, long) := EntryCoordinates(Index(list, 0).value).value;
              t == Step(PlaceMarkerEffect(s, lat, long), false)
  {
    match HasEntries(list)
    case Err(_) => Step(s, false)
    case Ok(nonEmpty) =>
      if !nonEmpty then Step(s, true)
      else
        match Index(list, 0)
        case Err(_) => Step(s, false)
        case Ok(entry) =>
          match EntryCoordinates(entry)
          case Err(_) => Step(s, false)
          case Ok(coordinates) => Step(PlaceMarkerEffect(s, coordinates.0, coordinates.1), false)
  }

  /** The text parses, and `position.lat` can be read from it without a TypeError. */
  predicate PositionReadable(text: Text) {
    text.Parsable? && Get(Defined(text.doc), "position").Ok? &&
    Get(Get(Defined(text.doc), "position").value, "lat").Ok?
  }

  /**
   * `#draw_from_json(json_string)`: parse, copy `position.lat/long/zoom` into
   * the fields, call the PUBLIC `draw_map` (which only stores a handler), then
   * run `#add_marker_list` on `markers` when it is non-empty.
   *
   * It never creates a map: `map`, `marker_list` and the load flag stay as
   * they were, and Leaflet is asked at most to add one marker to the
   * existing `map`. When `position` is readable, its `lat`, `long` and `zoom`
   * are copied into the fields and the draw-map closure is left in the slot;
   * otherwise the closure throws before changing anything. It runs to its end
   * only when `markers.length > 0` is false.
   */
  function DrawFromJsonEffect(s: State, text: Text): (t: Step)
    ensures t.state.mapHandle == s.mapHandle && t.state.markerList == s.markerList && t.state.loaded == s.loaded
    ensures t.state.log == s.log ||
            (|t.state.log| == |s.log| + 1 &&
             t.state.log == s.log + [MarkerPlaced(s.mapHandle, t.state.log[|s.log|].lat, t.state.log[|s.log|].long)])
    ensures !PositionReadable(text) ==> t == Step(s, false)
    ensures PositionReadable(text) ==>
              var position := Get(Defined(text.doc), "position").value;
              t.state.lat == Get(position, "lat").value && t.state.long == Get(position, "long").value &&
              t.state.zoom == Get(position, "zoom").value && t.state.onload == Some(DrawMapHandler)
    ensures t.completed <==> PositionReadable(text) && HasEntries(Get(Defined(text.doc), "markers").value) == Ok(false)
    ensures PositionReadable(text) ==>
              var markers := Get(Defined(text.doc), "markers").value;
              t.state.log == (if HasEntries(markers) == Ok(true) then AddMarkerListEffect(s, markers).state.log else s.log)
  {
    match text
    case Unparsable => Step(s, false)
    case Parsable(doc) =>
      var conf := Defined(doc);
      match Get(conf, "position")
      case Err(_) => Step(s, false)
      case Ok(position) =>
        match Get(position, "lat")
        case Err(_) => Step(s, false)
        case Ok(lat) =>
        var copied := s.(lat := lat,
                         long := Get(position, "long").value,
                         zoom := Get(position, "zoom").value);
        var registered := Registered(copied, DrawMapHandler);
        var markers := Get(conf, "markers").value;
        match HasEntries(markers)
        case Err(_) => Step(registered, false)
        case Ok(nonEmpty) =>
          if nonEmpty then AddMarkerListEffect(registered, markers) else Step(registered, true)
  }

  /**
   * Running the closure `h`: Leaflet is asked for at most one thing (a map or
   * a marker), appended to the log; the load flag is not the closure's to change.
   */
  function HandlerEffect(s: State, h: Handler): (t: Step)
    ensures t.state.loaded == s.loaded
    ensures t.state.log == s.log || (|t.state.log| == |s.log| + 1 && t.state.log[..|s.log|] == s.log)
  {
    match h
    case DrawMapHandler => DrawMapEffect(s)
    case AddMarkerHandler(lat, long) => Step(PlaceMarkerEffect(s, lat, long), true)
    case AddMarkerListHandler(list) => Step(Registered(s, AddMarkerListHandler(list)), true)
    case DrawFromJsonHandler(text) => DrawFromJsonEffect(s, text)
  }

  /** The script's load event: it fires once, and calls whatever closure the slot holds then. */
  function LoadEffect(s: State): (t: Step)
    ensures t.state.loaded
    ensures s.loaded ==> t == Step(s, true)
    ensures !s.loaded && s.onload.None? ==> t == Step(s.(loaded := true), true)
    ensures !s.loaded && s.onload.Some? ==> t == HandlerEffect(s.(loaded := true), s.onload.value)
  {
    if s.loaded then Step(s, true)
    else
      var fired := s.(loaded := true);
      match s.onload
      case None => Step(fired, true)
      case Some(h) => HandlerEffect(fired, h)
  }

  // ---------------------------------------------------------------------------
  // Sequences of calls and the load event

  /** A public operation called on the mapper. */
  datatype Call =
    | DrawMapCall                            // draw_map()
    | DrawCall(arg: Option<Text>)            // draw(json_string), None for null
    | AddMarkerCall(lat: Value, long: Value) // add_marker(lat, long)
    | AddMarkerListCall(list: Value)         // add_marker_list(marker_list)
    | DrawFromJsonCall(text: Text)           // draw_from_json(json_string)

  /** The closure a public operation stores. */
  function HandlerOf(c: Call): Handler {
    match c
    case DrawMapCall => DrawMapHandler
    case DrawCall(text) => DrawHandler(text)
    case AddMarkerCall(lat, long) => AddMarkerHandler(lat, long)
    case AddMarkerListCall(list) => AddMarkerListHandler(list)
    case DrawFromJsonCall(text) => DrawFromJsonHandler(text)
  }

  /** Calling public operations in order: each one overwrites the slot. */
  function CallAll(s: State, calls: seq<Call>): State
    decreases |calls|
  {
    if calls == [] then s else CallAll(Registered(s, HandlerOf(calls[0])), calls[1..])
  }

  /** What can happen to a mapper: a public call, or the browser's load event. */
  datatype Event = Invoke(call: Call) | Load

  function Apply(s: State, e: Event): State {
    match e
    case Invoke(c) => Registered(s, HandlerOf(c))
    case Load => LoadEffect(s).state
  }

  function Run(s: State, events: seq<Event>): State
    decreases |events|
  {
    if events == [] then s else Run(Apply(s, events[0]), events[1..])
  }

  function Invocations(calls: seq<Call>): (es: seq<Event>)
    ensures |es| == |calls|
    ensures forall i :: 0 <= i < |calls| ==> es[i] == Invoke(calls[i])
  {
    seq(|calls|, i requires 0 <= i < |calls| => Invoke(calls[i]))
  }

  /** How many maps the log records as created. */
  function MapsCreated(log: seq<Effect>): nat {
    if log == [] then 0 else (if log[0].MapCreated? then 1 else 0) + MapsCreated(log[1..])
  }

  /**
   * There is no queue: after any non-empty series of public calls the slot
   * holds the last call's closure, every earlier one is lost, and no field
   * and no Leaflet effect has changed.
   */
  lemma {:induction false} LastCallWins(s: State, calls: seq<Call>)
    requires calls != []
    ensures CallAll(s, calls) == s.(onload := Some(HandlerOf(calls[|calls| - 1])))
    decreases |calls|
  {
    if |calls| > 1 {
      LastCallWins(Registered(s, HandlerOf(calls[0])), calls[1..]);
    }
  }

  /** Public calls change nothing but the slot; with no calls the state is untouched. */
  lemma {:induction false} CallsTouchOnlySlot(s: State, calls: seq<Call>)
    ensures CallAll(s, calls).(onload := s.onload) == s
    decreases |calls|
  {
    if calls != [] {
      CallsTouchOnlySlot(Registered(s, HandlerOf(calls[0])), calls[1..]);
    }
  }

  /** Before the script has loaded, running a series of calls is calling them. */
  lemma {:induction false} InvocationsAreCalls(s: State, calls: seq<Call>, rest: seq<Event>)
    ensures Run(s, Invocations(calls) + rest) == Run(CallAll(s, calls), rest)
    decreases |calls|
  {
    if calls != [] {
      assert (Invocations(calls) + rest)[0] == Invoke(calls[0]);
      assert (Invocations(calls) + rest)[1..] == Invocations(calls[1..]) + rest;
      InvocationsAreCalls(Registered(s, HandlerOf(calls[0])), calls[1..], rest);
    } else {
      assert Invocations(calls) + rest == rest;
    }
  }

  /**
   * Once the script has loaded, nothing more is drawn: later calls only
   * overwrite the slot, and the load event does not fire again.
   */
  lemma {:induction false} NothingRunsAfterLoad(s: State, events: seq<Event>)
    requires s.loaded
    ensures Run(s, events).(onload := s.onload) == s
    decreases |events|
  {
    if events != [] {
      NothingRunsAfterLoad(Apply(s, events[0]), events[1..]);
    }
  }

  /**
   * Whatever calls precede the load event, exactly one closure runs, once:
   * the one the LAST call stored. Apart from the slot, every later call and
   * load event leaves the result as that closure left it.
   */
  lemma OnlyLastHandlerRuns(s: State, calls: seq<Call>, rest: seq<Event>)
    requires !s.loaded && calls != []
    ensures var h := HandlerOf(calls[|calls| - 1]);
            var after := HandlerEffect(s.(loaded := true, onload := Some(h)), h).state;
            Run(s, Invocations(calls) + [Load] + rest).(onload := after.onload) == after
  {
    var h := HandlerOf(calls[|calls| - 1]);
    InvocationsAreCalls(s, calls, [Load] + rest);
    assert Invocations(calls) + [Load] + rest == Invocations(calls) + ([Load] + rest);
    LastCallWins(s, calls);
    var after := HandlerEffect(s.(loaded := true, onload := Some(h)), h).state;
    assert Run(CallAll(s, calls), [Load] + rest) == Run(after, rest);
    NothingRunsAfterLoad(after, rest);
  }

  /** One closure creates at most one map. */
  lemma HandlerCreatesAtMostOneMap(s: State, h: Handler)
    requires s.log == []
    ensures MapsCreated(HandlerEffect(s, h).state.log) <= 1
  {
    var t := HandlerEffect(s, h).state;
    assert |t.log| <= 1;
    if t.log != [] {
      assert t.log[1..] == [];
    }
  }

  /**
   * An invariant of every run: the log is empty until the load event, and it
   * records at most one map. Every reachable state satisfies it (the initial
   * state does, and every event keeps it); some states that satisfy it are
   * not reachable.
   */
  ghost predicate Invariant(s: State) {
    (!s.loaded ==> s.log == []) && MapsCreated(s.log) <= 1
  }

  /** A mapper creates at most one Leaflet map in its lifetime, however it is used: every run keeps the invariant. */
  lemma {:induction false} AtMostOneMap(s: State, events: seq<Event>)
    requires Invariant(s)
    ensures Invariant(Run(s, events))
    decreases |events|
  {
    if events != [] {
      var next := Apply(s, events[0]);
      if events[0].Load? && !s.loaded {
        if s.onload.Some? {
          HandlerCreatesAtMostOneMap(s.(loaded := true), s.onload.value);
        }
      }
      assert Invariant(next);
      AtMostOneMap(next, events[1..]);
    }
  }

  /** Every mapper starts in a state that satisfies the invariant. */
  lemma InitialSatisfiesInvariant(lat: Value, long: Value, zoom: Value, markerList: Value)
    ensures Invariant(Initial(lat, long, zoom, markerList))
  {
  }

  /** The public `add_marker_list` closure, when it runs, only stores itself again: no marker is placed. */
  lemma AddMarkerListHandlerOnlyReregisters(s: State, list: Value)
    ensures HandlerEffect(s, AddMarkerListHandler(list)) == Step(s.(onload := Some(AddMarkerListHandler(list))), true)
    ensures HandlerEffect(s, AddMarkerListHandler(list)).state.log == s.log
  {
  }

  /**
   * The two marker shapes `#add_marker_list` reads, `[lat, long]` and
   * `{lat, long}`, lead to the same marker for the same coordinates.
   */
  lemma EntryShapesAgree(s: State, lat: real, long: real)
    ensures AddMarkerListEffect(s, Defined(JArray([JArray([JNumber(lat), JNumber(long)])]))) ==
            AddMarkerListEffect(s, Defined(JArray([JObject([Member("lat", JNumber(lat)), Member("long", JNumber(long))])])))
    ensures AddMarkerListEffect(s, Defined(JArray([JArray([JNumber(lat), JNumber(long)])]))) ==
            Step(PlaceMarkerEffect(s, Defined(JNumber(lat)), Defined(JNumber(long))), false)
  {
    var ms := [Member("lat", JNumber(lat)), Member("long", JNumber(long))];
    assert ms[..1] == [Member("lat", JNumber(lat))];
    assert Lookup(ms, "long") == Defined(JNumber(long));
    assert Lookup(ms, "lat") == Lookup(ms[..1], "lat") == Defined(JNumber(lat));
  }

  /** `draw(null)` stores the draw-map closure and `draw(s)` the draw-from-json closure for `s`; no field changes. */
  lemma DrawChoosesHandler(s: State, text: Option<Text>)
    ensures CallAll(s, [DrawCall(text)]) ==
            s.(onload := Some(if text.None? then DrawMapHandler else DrawFromJsonHandler(text.value)))
  {
    LastCallWins(s, [DrawCall(text)]);
  }

  // ---------------------------------------------------------------------------
  // The objects

  /** The `<script>` element that loads Leaflet: its `onload` slot and whether it has loaded. */
  class Script {
    var onload: Option<Handler>
    var loaded: bool

    constructor ()
      ensures onload == None && !loaded
    {
      onload := None;
      loaded := false;
    }
  }

  class Mapper {
    var lat: Value
    var long: Value
    var zoom: Value
    var mapHandle: MapRef       // `this.map`
    var markerList: Value       // `this.marker_list`
    const leafScript: Script    // `this.leaf_script`
    ghost var log: seq<Effect>  // what Leaflet was asked to do

    ghost function Model(): State
      reads this, leafScript
    {
      State(lat, long, zoom, mapHandle, markerList, leafScript.onload, leafScript.loaded, log)
    }

    /** `new Mapper(lat = 0, long = 0, zoom = 0, marker_list = [])`: the Leaflet script is added and kept, with no handler yet. */
    constructor (lat: Value := Zero, long: Value := Zero, zoom: Value := Zero,
                 markerList: Value := Defined(JArray([])))
      ensures Model() == Initial(lat, long, zoom, markerList)
      ensures fresh(leafScript)
    {
      this.lat := OrDefault(lat, Zero);
      this.long := OrDefault(long, Zero);
      this.zoom := OrDefault(zoom, Zero);
      this.mapHandle := NoMap;
      this.markerList := OrDefault(markerList, Defined(JArray([])));
      this.leafScript := new Script();
      this.log := [];
    }

    method Register(h: Handler)
      modifies leafScript
      ensures Model() == Registered(old(Model()), h)
    {
      leafScript.onload := Some(h);
    }

    /** `draw_map()` */
    method DrawMap()
      modifies leafScript
      ensures Model() == Registered(old(Model()), DrawMapHandler)
    {
      Register(DrawMapHandler);
    }

    /** `draw(json_string = null)` */
    method Draw(text: Option<Text> := None)
      modifies leafScript
      ensures Model() == Registered(old(Model()), DrawHandler(text))
    {
      if text.None? {
        DrawMap();
      } else {
        DrawFromJson(text.value);
      }
    }

    /** `add_marker(lat, long)` */
    method AddMarker(lat: Value, long: Value)
      modifies leafScript
      ensures Model() == Registered(old(Model()), AddMarkerHandler(lat, long))
    {
      Register(AddMarkerHandler(lat, long));
    }

    /** `add_marker_list(marker_list)` */
    method AddMarkerList(list: Value)
      modifies leafScript
      ensures Model() == Registered(old(Model()), AddMarkerListHandler(list))
    {
      Register(AddMarkerListHandler(list));
    }

    /** `draw_from_json(json_string)` */
    method DrawFromJson(text: Text)
      modifies leafScript
      ensures Model() == Registered(old(Model()), DrawFromJsonHandler(text))
    {
      Register(DrawFromJsonHandler(text));
    }

    /** `#add_marker(lat, long)`: a Leaflet marker added to `this.map`; returns nothing. */
    method PlaceMarker(lat: Value, long: Value) returns (result: Value)
      modifies this
      ensures Model() == PlaceMarkerEffect(old(Model()), lat, long)
      ensures result == Undefined
    {
      log := log + [MarkerPlaced(mapHandle, lat, long)];
      result := Undefined;
    }

    /** `#draw_map()` */
    method RunDrawMap() returns (completed: bool)
      modifies this, leafScript
      ensures Step(Model(), completed) == DrawMapEffect(old(Model()))
    {
      mapHandle := LeafletMap(lat, long, zoom);
      log := log + [MapCreated(lat, long, zoom)];
      var nonEmpty := HasEntries(markerList);
      if nonEmpty.Err? {
        return false;
      }
      if nonEmpty.value {
        AddMarkerList(markerList);
      }
      completed := true;
    }

    /**
     * `#add_marker_list(marker_list)`. The source's `for` loop cannot pass its
     * first iteration: after the first marker is placed, `mark.addTo(this.map)`
     * is a call on `undefined` and throws, so only entry 0 is ever visited.
     */
    method RunAddMarkerList(list: Value) returns (completed: bool)
      modifies this
      ensures Step(Model(), completed) == AddMarkerListEffect(old(Model()), list)
    {
      var i := 0;
      var more := HasEntries(list);  // i < marker_list.length
      if more.Err? || !more.value {
        return more.Ok?;
      }
      var entry := Index(list, i);
      if entry.Err? {
        return false;
      }
      var coordinates := EntryCoordinates(entry.value);
      if coordinates.Err? {
        return false;
      }
      var mark := PlaceMarker(coordinates.value.0, coordinates.value.1);
      // mark.addTo(this.map): `mark` is undefined
      completed := false;
    }

    /** `#draw_from_json(json_string)` */
    method RunDrawFromJson(text: Text) returns (completed: bool)
      modifies this, leafScript
      ensures Step(Model(), completed) == DrawFromJsonEffect(old(Model()), text)
    {
      if text.Unparsable? {
        return false;  // JSON.parse throws
      }
      var conf := Defined(text.doc);
      var position := Get(conf, "position");
      if position.Err? {
        return false;
      }
      var newLat := Get(position.value, "lat");
      if newLat.Err? {
        return false;
      }
      lat := newLat.value;
      long := Get(position.value, "long").value;
      zoom := Get(position.value, "zoom").value;
      DrawMap();
      var markers := Get(conf, "markers").value;
      var nonEmpty := HasEntries(markers);
      if nonEmpty.Err? {
        return false;
      }
      if nonEmpty.value {
        completed := RunAddMarkerList(markers);
      } else {
        completed := true;
      }
    }

    /** Running the closure `h`. */
    method RunHandler(h: Handler) returns (completed: bool)
      modifies this, leafScript
      ensures Step(Model(), completed) == HandlerEffect(old(Model()), h)
    {
      match h
      case DrawMapHandler =>
        completed := RunDrawMap();
      case AddMarkerHandler(lat, long) =>
        var _ := PlaceMarker(lat, long);
        completed := true;
      case AddMarkerListHandler(list) =>
        AddMarkerList(list);
        completed := true;
      case DrawFromJsonHandler(text) =>
        completed := RunDrawFromJson(text);
    }

    /** The browser's load event for `leaf_script`: the first time, the closure in the slot runs. */
    method FireLoad() returns (completed: bool)
      modifies this, leafScript
      ensures Step(Model(), completed) == LoadEffect(old(Model()))
    {
      if leafScript.loaded {
        return true;
      }
      leafScript.loaded := true;
      var handler := leafScript.onload;
      if handler.None? {
        return true;
      }
      completed := RunHandler(handler.value);
    }
  }
}
