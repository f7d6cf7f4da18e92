/** The admin screen's map editor (js/wdsgmap-admin.js): three form fields,
    one draggable marker and the map's centre and zoom, changed by the
    canvas-ready handler, the marker's drag-end listener, the address
    lookup's success callback and the clear button. */
module AdminEditor {
  import opened Php

  datatype LatLng = LatLng(lat: real, lng: real)

  /** The default view: the centre of the United States at a wide zoom. */
  const DefaultLocation := LatLng(37.5, -97.7)
  const DefaultZoom := 4

  /** The zoom a placed marker is shown at. */
  const StreetZoom := 16

  /** What the browser contributes: the position `new google.maps.LatLng(lat, lon)`
      makes of two field texts (the library treats the two axes differently,
      clamping the latitude and wrapping the longitude), and
      `Number.prototype.toFixed(6)`. */
  datatype Runtime = Runtime(toLatLng: (string, string) -> LatLng, toFixed6: real -> string)

  /** The address, latitude and longitude fields, the marker's position (none
      until one is set) and the map's centre and zoom. */
  datatype EditorState = EditorState(
    address: string,
    latitude: string,
    longitude: string,
    marker: Option<LatLng>,
    center: LatLng,
    zoom: int)

  /** A marker drag that ended at `position`, a lookup reply, a click on
      "Clear Map". */
  datatype Event =
    | DragEnd(position: LatLng)
    | SearchSuccess(foundLatitude: string, foundLongitude: string)
    | ClearClick

  /** A JavaScript string as a condition: only "" is false (unlike PHP, "0" is true). */
  predicate JsTruthy(s: string) {
    s != ""
  }

  /** The state right after document-ready: fields as rendered, the map at
      the default view and the marker without a position. */
  function Created(address: string, latitude: string, longitude: string): EditorState {
    EditorState(address, latitude, longitude, None, DefaultLocation, DefaultZoom)
  }

  /** `wds_map_markers_set(lat, lon)`. */
  function AfterMarkersSet(s: EditorState, lat: string, lon: string, rt: Runtime): EditorState {
    var position := rt.toLatLng(lat, lon);
    s.(marker := Some(position), center := position, zoom := StreetZoom,
       latitude := lat, longitude := lon)
  }

  /** The canvas-ready handler, with the latitude and longitude the script
      read when the document became ready. */
  function AfterCanvasReady(s: EditorState, lat: string, lon: string, rt: Runtime): EditorState {
    if JsTruthy(lat) && JsTruthy(lon) then AfterMarkersSet(s, lat, lon, rt) else s
  }

  /** The editor once loaded on the rendered field values. */
  function Opened(address: string, latitude: string, longitude: string, rt: Runtime): EditorState {
    AfterCanvasReady(Created(address, latitude, longitude), latitude, longitude, rt)
  }

  /** The map library moves the marker to where the drag ended; the
      listener then writes that position, to six decimals, into the fields. */
  function AfterDragEnd(s: EditorState, position: LatLng, rt: Runtime): EditorState {
    s.(marker := Some(position),
       latitude := rt.toFixed6(position.lat), longitude := rt.toFixed6(position.lng))
  }

  /** The lookup's success callback. */
  function AfterSearchSuccess(s: EditorState, lat: string, lon: string, rt: Runtime): EditorState {
    AfterMarkersSet(s, lat, lon, rt)
  }

  /** The clear button: blank fields, no marker, the default view. */
  function AfterClear(s: EditorState): EditorState {
    s.(address := "", latitude := "", longitude := "",
       marker := None, center := DefaultLocation, zoom := DefaultZoom)
  }

  function Step(s: EditorState, e: Event, rt: Runtime): EditorState {
    match e
    case DragEnd(position) => AfterDragEnd(s, position, rt)
    case SearchSuccess(lat, lon) => AfterSearchSuccess(s, lat, lon, rt)
    case ClearClick => AfterClear(s)
  }

  /** The state after handling `events` in order. */
  function Run(s: EditorState, events: seq<Event>, rt: Runtime): EditorState
    decreases |events|
  {
    if events == [] then s else Run(Step(s, events[0], rt), events[1..], rt)
  }

  // ---------------------------------------------------------------------
  // Invariants of the editor

  /** The map shows either the default view or a street-level view, and an
      unplaced marker goes with the default view. */
  predicate ViewConsistent(s: EditorState) {
    (s.zoom == DefaultZoom || s.zoom == StreetZoom)
    && (s.zoom == DefaultZoom ==> s.center == DefaultLocation)
    && (s.marker.None? ==> s.zoom == DefaultZoom)
  }

  /** A placed marker is what the latitude and longitude fields say: either
      the fields are the text it was placed from, or its position written
      to six decimals. */
  predicate FieldsTrackMarker(s: EditorState, rt: Runtime) {
    s.marker.Some? ==>
      rt.toLatLng(s.latitude, s.longitude) == s.marker.value
      || (s.latitude == rt.toFixed6(s.marker.value.lat) && s.longitude == rt.toFixed6(s.marker.value.lng))
  }

  predicate Consistent(s: EditorState, rt: Runtime) {
    ViewConsistent(s) && FieldsTrackMarker(s, rt)
  }

  /** Whatever the rendered field values, the loaded editor is consistent;
      it has placed the marker exactly when both coordinates are non-empty,
      and the address field is the rendered one. */
  lemma OpenedConsistent(address: string, latitude: string, longitude: string, rt: Runtime)
    ensures Consistent(Opened(address, latitude, longitude, rt), rt)
    ensures Opened(address, latitude, longitude, rt).address == address
    ensures Opened(address, latitude, longitude, rt).marker.Some? <==> latitude != "" && longitude != ""
  {
  }

  /** Every handler keeps the editor consistent. */
  lemma StepConsistent(s: EditorState, e: Event, rt: Runtime)
    requires Consistent(s, rt)
    ensures Consistent(Step(s, e, rt), rt)
  {
  }

  /** Any sequence of events keeps the editor consistent. */
  lemma {:induction false} RunConsistent(s: EditorState, events: seq<Event>, rt: Runtime)
    requires Consistent(s, rt)
    ensures Consistent(Run(s, events, rt), rt)
    decreases |events|
  {
    if events != [] {
      StepConsistent(s, events[0], rt);
      RunConsistent(Step(s, events[0], rt), events[1..], rt);
    }
  }

  /** Only the clear button touches the address field: after any sequence of
      events it is "" if a clear happened and the starting address otherwise. */
  lemma {:induction false} RunAddress(s: EditorState, events: seq<Event>, rt: Runtime)
    ensures Run(s, events, rt).address == if ClearClick in events then "" else s.address
    decreases |events|
  {
    if events != [] {
      assert events == [events[0]] + events[1..];
      RunAddress(Step(s, events[0], rt), events[1..], rt);
    }
  }

  /** Handling one more event is one more step. */
  lemma {:induction false} RunThenStep(s: EditorState, events: seq<Event>, e: Event, rt: Runtime)
    ensures Run(s, events + [e], rt) == Step(Run(s, events, rt), e, rt)
    decreases |events|
  {
    if events != [] {
      assert (events + [e])[1..] == events[1..] + [e];
      RunThenStep(Step(s, events[0], rt), events[1..], e, rt);
    }
  }

  /** Clearing returns the editor to the state it opens in on an empty form,
      whatever came before; so clearing twice is clearing once. */
  lemma ClearResets(s: EditorState, rt: Runtime)
    ensures AfterClear(s) == Opened("", "", "", rt)
    ensures AfterClear(AfterClear(s)) == AfterClear(s)
  {
  }

  // ---------------------------------------------------------------------
  // The editor as the page holds it

  class Editor {
    var address: string
    var latitude: string
    var longitude: string
    var marker: Option<LatLng>
    var center: LatLng
    var zoom: int

    /** The coordinates read from the hidden fields at document-ready. */
    const loadedLatitude: string
    const loadedLongitude: string
    const runtime: Runtime

    function State(): EditorState
      reads this
    {
      EditorState(address, latitude, longitude, marker, center, zoom)
    }

    /** Document-ready set-up: reads the two hidden fields, creates the map
        at the default view and a draggable marker without a position. */
    constructor (address: string, latitude: string, longitude: string, runtime: Runtime)
      ensures State() == Created(address, latitude, longitude)
      ensures loadedLatitude == latitude && loadedLongitude == longitude
      ensures this.runtime == runtime
    {
      this.address := address;
      this.latitude := latitude;
      this.longitude := longitude;
      loadedLatitude := latitude;
      loadedLongitude := longitude;
      this.runtime := runtime;
      marker := None;
      center := DefaultLocation;
      zoom := DefaultZoom;
    }

    /** `wds_map_markers_set`: marker and centre at (lat, lon), street zoom,
        the two coordinate fields set; the address field is not touched. */
    method MarkersSet(lat: string, lon: string)
      modifies this
      ensures State() == AfterMarkersSet(old(State()), lat, lon, runtime)
      ensures marker == Some(runtime.toLatLng(lat, lon))
      ensures center == marker.value && zoom == StreetZoom
      ensures latitude == lat && longitude == lon && address == old(address)
    {
      marker := Some(runtime.toLatLng(lat, lon));
      center := marker.value;
      zoom := StreetZoom;
      latitude := lat;
      longitude := lon;
    }

    /** The canvas-ready handler: places the marker when both loaded
        coordinates are non-empty, and otherwise changes nothing. */
    method OnCanvasReady()
      modifies this
      ensures State() == AfterCanvasReady(old(State()), loadedLatitude, loadedLongitude, runtime)
      ensures !(JsTruthy(loadedLatitude) && JsTruthy(loadedLongitude)) ==> State() == old(State())
    {
      if JsTruthy(loadedLatitude) && JsTruthy(loadedLongitude) {
        MarkersSet(loadedLatitude, loadedLongitude);
      }
    }

    /** The drag-end listener, after the library moved the marker to
        `position`: the coordinate fields get the position to six decimals;
        the address field, the centre and the zoom stay. */
    method OnDragEnd(position: LatLng)
      modifies this
      ensures State() == AfterDragEnd(old(State()), position, runtime)
      ensures latitude == runtime.toFixed6(position.lat) && longitude == runtime.toFixed6(position.lng)
      ensures address == old(address) && center == old(center) && zoom == old(zoom)
    {
      marker := Some(position);
      latitude := runtime.toFixed6(position.lat);
      longitude := runtime.toFixed6(position.lng);
    }

    /** The lookup's success callback: `wds_map_markers_set` on the reply. */
    method OnSearchSuccess(lat: string, lon: string)
      modifies this
      ensures State() == AfterSearchSuccess(old(State()), lat, lon, runtime)
      ensures address == old(address)
    {
      MarkersSet(lat, lon);
    }

    /** The clear button. */
    method OnClear()
      modifies this
      ensures State() == AfterClear(old(State()))
      ensures address == "" && latitude == "" && longitude == ""
      ensures marker == None && center == DefaultLocation && zoom == DefaultZoom
    {
      address := "";
      latitude := "";
      longitude := "";
      marker := None;
      center := DefaultLocation;
      zoom := DefaultZoom;
    }

    /** Dispatches one event to its handler. */
    method Handle(e: Event)
      modifies this
      ensures State() == Step(old(State()), e, runtime)
    {
      match e
      case DragEnd(position) => OnDragEnd(position);
      case SearchSuccess(lat, lon) => OnSearchSuccess(lat, lon);
      case ClearClick => OnClear();
    }
  }
}
