/**
 * The map page's state and its event handlers, each a pure function from the
 * current state (and the event's data) to the next state, plus the request the
 * handler sends, if any. Network outcomes are arguments.
 */
module MapView {
  import opened Wrappers
  import opened JsValues
  import opened LandModel

  /** A clicked map point, stored as the array `[lat, lng]`. */
  datatype Vertex = Vertex(lat: real, lng: real)

  /** A geocoder location: `x` is the longitude and `y` the latitude. */
  datatype Location = Location(x: real, y: real)

  /** A geocoder candidate, as listed in the search dropdown. */
  datatype Candidate = Candidate(address: string, location: Location)

  /** The component state that the handlers read and write. */
  datatype State = State(
    lands: seq<Land>,
    clickedPositions: seq<Vertex>,
    isCreatingLand: bool,
    showSaveModal: bool,
    toolboxOpen: bool,
    newLandData: map<string, string>,
    searchQuery: string,
    searchResults: seq<Candidate>,
    mapCenter: Vertex)

  /** The names of the four text fields of the save dialog. */
  const FormFields: set<string> := {"name", "imageUrl", "price", "type"}

  /** The map's initial center. */
  const InitialCenter := Vertex(22.94275737438829, 89.18402516392086)

  /** The state when the page mounts. */
  const Init := State(
    [], [], false, false, false,
    map["name" := "", "imageUrl" := "", "price" := "", "type" := ""],
    "", [], InitialCenter)

  /** A request a handler sends to the server or the geocoder. */
  datatype Request = CreateLand(payload: Blob) | Geocode(query: string)

  /** The state after a handler, and the request it sent. */
  datatype Transition = Transition(state: State, request: Option<Request>)

  /** The outcome of `POST /api/lands`. */
  datatype SaveResponse = Created(record: Land) | SaveFailed

  /** The outcome of the geocoder call; `candidates` may be missing from the body. */
  datatype GeocodeResponse = Candidates(candidates: Option<seq<Candidate>>) | GeocodeFailed

  /** The outcome of `GET /api/lands`. */
  datatype LoadResponse = Loaded(all: seq<Land>) | LoadFailed

  // ---------------------------------------------------------------- drafting

  /** "Add new": enter authoring with an empty draft and the toolbox open, from any state. */
  function StartLandCreation(s: State): (r: State)
    ensures r.isCreatingLand && r.toolboxOpen && r.clickedPositions == []
    ensures r.(isCreatingLand := s.isCreatingLand, toolboxOpen := s.toolboxOpen,
               clickedPositions := s.clickedPositions) == s
  {
    s.(isCreatingLand := true, clickedPositions := [], toolboxOpen := true)
  }

  /** A click whose target is an SVG element (an already drawn polygon) is not a map click. */
  predicate OnOverlay(tagName: Option<string>): (r: bool)
    ensures r <==> tagName.Some? && tagName.value in {"svg", "path"}
  {
    tagName == Some("svg") || tagName == Some("path")
  }

  /** A click on the map: append `[lat, lng]` while authoring, unless it hit a drawn shape. */
  function MapClick(s: State, tagName: Option<string>, at: Vertex): (r: State)
    ensures s.isCreatingLand && !OnOverlay(tagName) ==>
      |r.clickedPositions| == |s.clickedPositions| + 1
      && r.clickedPositions[..|s.clickedPositions|] == s.clickedPositions
      && r.clickedPositions[|s.clickedPositions|] == at
    ensures !s.isCreatingLand || OnOverlay(tagName) ==> r == s
    ensures r.(clickedPositions := s.clickedPositions) == s
  {
    if OnOverlay(tagName) then s
    else if s.isCreatingLand then s.(clickedPositions := s.clickedPositions + [at])
    else s
  }

  /** "Undo": `slice(0, -1)` of the draft, which leaves an empty draft empty. */
  function Revert(s: State): (r: State)
    ensures s.clickedPositions == [] ==> r == s
    ensures s.clickedPositions != [] ==>
      r.clickedPositions + [s.clickedPositions[|s.clickedPositions| - 1]] == s.clickedPositions
    ensures r.(clickedPositions := s.clickedPositions) == s
  {
    var n := |s.clickedPositions|;
    s.(clickedPositions := if n == 0 then [] else s.clickedPositions[..n - 1])
  }

  /** "Cancel": drop the draft and close the toolbox; authoring mode stays on. */
  function Cancel(s: State): (r: State)
    ensures r.clickedPositions == [] && !r.toolboxOpen
    ensures r.isCreatingLand == s.isCreatingLand
    ensures r.(clickedPositions := s.clickedPositions, toolboxOpen := s.toolboxOpen) == s
  {
    s.(clickedPositions := [], toolboxOpen := false)
  }

  /** The undo button is enabled. */
  predicate UndoEnabled(s: State): (r: bool)
    ensures r <==> s.clickedPositions != []
  {
    |s.clickedPositions| >= 1
  }

  /** The button opening the save dialog is enabled: the draft has a third vertex. */
  predicate SaveEnabled(s: State): (r: bool)
    ensures r ==> UndoEnabled(s)
    ensures r <==> s.clickedPositions != [] && s.clickedPositions[1..] != [] && s.clickedPositions[2..] != []
  {
    |s.clickedPositions| >= 3
  }

  // ---------------------------------------------------------------- saving

  /** A text field of the save dialog changes: `{...form, [name]: value}`. */
  function InputChange(form: map<string, string>, name: string, value: string): (r: map<string, string>)
    ensures name in r && r[name] == value
    ensures r.Keys == form.Keys + {name}
    ensures forall k :: k in form && k != name ==> r[k] == form[k]
  {
    form[name := value]
  }

  /** The draft as the JSON array of `[lat, lng]` pairs that is posted. */
  function EncodeVertices(vs: seq<Vertex>): (v: JsValue)
    ensures v.Arr? && |v.items| == |vs|
  {
    Arr(seq(|vs|, i requires 0 <= i < |vs| => Arr([Num(vs[i].lat), Num(vs[i].lng)])))
  }

  /** Reads a JSON array of numeric pairs back into vertices. */
  function DecodeVertices(v: JsValue): Option<seq<Vertex>>
  {
    if !v.Arr? then None else DecodePairs(v.items)
  }

  function DecodePairs(items: seq<JsValue>): (r: Option<seq<Vertex>>)
    ensures r.Some? ==> |r.value| == |items|
  {
    if items == [] then Some([])
    else
      match items[|items| - 1]
      case Arr(p) =>
        if |p| == 2 && p[0].Num? && p[1].Num? then
          match DecodePairs(items[..|items| - 1])
          case Some(front) => Some(front + [Vertex(p[0].n, p[1].n)])
          case None => None
        else None
      case _ => None
  }

  /** Decoding the posted coordinates gives back the draft exactly. */
  lemma {:induction false} DecodeEncode(vs: seq<Vertex>)
    ensures DecodeVertices(EncodeVertices(vs)) == Some(vs)
  {
    var items := EncodeVertices(vs).items;
    if vs != [] {
      var front := vs[..|vs| - 1];
      DecodeEncode(front);
      assert EncodeVertices(front).items == items[..|items| - 1];
      assert vs == front + [vs[|vs| - 1]];
    }
  }

  /**
   * The body of `POST /api/lands`: `{coordinates: draft, ...form}`. The form is
   * spread last, so a form key named "coordinates" would win.
   */
  function Payload(draft: seq<Vertex>, form: map<string, string>): (p: Blob)
    ensures p.Keys == form.Keys + {"coordinates"}
    ensures forall k :: k in form ==> p[k] == Str(form[k])
    ensures "coordinates" !in form ==> DecodeVertices(p["coordinates"]) == Some(draft)
  {
    DecodeEncode(draft);
    map k | k in form.Keys + {"coordinates"} :: if k in form then Str(form[k]) else EncodeVertices(draft)
  }

  /**
   * "Save Land": post the draft with the form. On success the server's record
   * is appended and the draft, dialog and toolbox are cleared; on failure
   * nothing changes. No vertex count is checked here.
   */
  function SaveLand(s: State, response: SaveResponse): (t: Transition)
    ensures t.request == Some(CreateLand(Payload(s.clickedPositions, s.newLandData)))
    ensures response.SaveFailed? ==> t.state == s
    ensures response.Created? ==>
      && |t.state.lands| == |s.lands| + 1
      && t.state.lands[..|s.lands|] == s.lands
      && t.state.lands[|s.lands|] == response.record
      && t.state.clickedPositions == [] && !t.state.showSaveModal && !t.state.toolboxOpen
      && t.state.(lands := s.lands, clickedPositions := s.clickedPositions,
                  showSaveModal := s.showSaveModal, toolboxOpen := s.toolboxOpen) == s
  {
    var request := Some(CreateLand(Payload(s.clickedPositions, s.newLandData)));
    match response
    case Created(record) =>
      Transition(s.(lands := s.lands + [record], showSaveModal := false,
                    clickedPositions := [], toolboxOpen := false), request)
    case SaveFailed => Transition(s, request)
  }

  /** The initial `GET /api/lands`: replace the list on success, keep it on failure. */
  function LandsLoaded(s: State, response: LoadResponse): (r: State)
    ensures response.Loaded? ==> r == s.(lands := response.all)
    ensures response.LoadFailed? ==> r == s
  {
    match response
    case Loaded(all) => s.(lands := all)
    case LoadFailed => s
  }

  // ---------------------------------------------------------------- colours

  /** Leaflet path options: either a fill colour or a stroke colour. */
  datatype PathOptions = PathOptions(fillColor: Option<string>, color: Option<string>)

  const RedOutline := PathOptions(None, Some("red"))

  /** The polygon style for a stored land `type`: "sell" blue fill, "rent" purple, anything else red. */
  function LandTypeColor(landType: Option<string>): (r: PathOptions)
    ensures landType == Some("sell") ==> r == PathOptions(Some("blue"), None)
    ensures landType == Some("rent") ==> r == PathOptions(None, Some("purple"))
    ensures r.fillColor.Some? <==> landType == Some("sell")
    ensures r.color == Some("purple") <==> landType == Some("rent")
    ensures r == RedOutline <==> landType != Some("sell") && landType != Some("rent")
  {
    if landType == Some("sell") then PathOptions(Some("blue"), None)
    else if landType == Some("rent") then PathOptions(None, Some("purple"))
    else RedOutline
  }

  /** No schema-valid `type` is "sell" or "rent", so every valid stored land is drawn red. */
  lemma ValidLandIsRed(l: Land)
    requires ValidLand(l)
    ensures LandTypeColor(l.landType) == RedOutline
  {
  }

  // ---------------------------------------------------------------- search

  /**
   * A keystroke in the search box. The query is always stored. A blank query
   * (empty after `trim()`) clears the results; otherwise a query whose raw
   * `length` is under 4 does nothing more, and a longer one sends exactly one
   * geocoder request.
   */
  function SearchChange(s: State, value: string): (t: Transition)
    ensures t.state.searchQuery == value
    ensures IsBlank(value) ==> t.state.searchResults == [] && t.request.None?
    ensures !IsBlank(value) && Utf16Length(value) < 4 ==>
      t.state.searchResults == s.searchResults && t.request.None?
    ensures !IsBlank(value) && Utf16Length(value) >= 4 ==>
      t.state.searchResults == s.searchResults && t.request == Some(Geocode(value))
    ensures t.state.(searchQuery := s.searchQuery, searchResults := s.searchResults) == s
  {
    TrimEmptyIffBlank(value);
    var s1 := s.(searchQuery := value);
    if Trim(value) != [] then
      if Utf16Length(value) < 4 then Transition(s1, None)
      else Transition(s1, Some(Geocode(value)))
    else Transition(s1.(searchResults := []), None)
  }

  /** A geocoder reply: a non-empty candidate list is shown, anything else empties the list. */
  function SearchResponse(s: State, response: GeocodeResponse): (r: State)
    ensures response.Candidates? && response.candidates.Some? && response.candidates.value != [] ==>
      r.searchResults == response.candidates.value
    ensures response.GeocodeFailed? || response.candidates.None? || response.candidates.value == [] ==>
      r.searchResults == []
    ensures r.(searchResults := s.searchResults) == s
  {
    match response
    case Candidates(Some(cs)) => s.(searchResults := if |cs| > 0 then cs else [])
    case _ => s.(searchResults := [])
  }

  /** Choosing a candidate: center on `[y, x]` (latitude first) and close the dropdown. */
  function SelectCandidate(s: State, location: Location): (r: State)
    ensures r.mapCenter.lat == location.y && r.mapCenter.lng == location.x
    ensures r.searchResults == []
    ensures r.(mapCenter := s.mapCenter, searchResults := s.searchResults) == s
  {
    s.(mapCenter := Vertex(location.y, location.x), searchResults := [])
  }

  // ---------------------------------------------------------------- properties

  /** Undo is the inverse of a click that appended a vertex. */
  lemma RevertUndoesClick(s: State, tagName: Option<string>, at: Vertex)
    requires s.isCreatingLand && !OnOverlay(tagName)
    ensures Revert(MapClick(s, tagName, at)) == s
  {
  }

  /** Bare-map clicks at each point of `points`, in order. */
  function ClickAll(s: State, points: seq<Vertex>): State
    decreases |points|
  {
    if points == [] then s
    else ClickAll(MapClick(s, None, points[0]), points[1..])
  }

  /** While authoring, a run of bare-map clicks appends exactly the clicked points, in order. */
  lemma {:induction false} ClicksAppendInOrder(s: State, points: seq<Vertex>)
    requires s.isCreatingLand
    ensures ClickAll(s, points).clickedPositions == s.clickedPositions + points
    ensures ClickAll(s, points).(clickedPositions := s.clickedPositions) == s
    decreases |points|
  {
    if points != [] {
      var s1 := MapClick(s, None, points[0]);
      ClicksAppendInOrder(s1, points[1..]);
      assert s1.clickedPositions + points[1..] == s.clickedPositions + points;
    }
  }

  /** Undo then click on `[a, b, c]` gives `[a, b, v]`. */
  lemma RevertThenClick(s: State, a: Vertex, b: Vertex, c: Vertex, v: Vertex)
    requires s.isCreatingLand && s.clickedPositions == [a, b, c]
    ensures MapClick(Revert(s), None, v).clickedPositions == [a, b, v]
  {
  }

  /** After a cancel, authoring mode is still on, so a bare-map click starts a new draft. */
  lemma ClickAfterCancelAppends(s: State, at: Vertex)
    requires s.isCreatingLand
    ensures var r := MapClick(Cancel(s), None, at);
      r.clickedPositions == [at] && !r.toolboxOpen
  {
  }

  /** The same holds after a successful save. */
  lemma ClickAfterSaveAppends(s: State, record: Land, at: Vertex)
    requires s.isCreatingLand
    ensures var r := MapClick(SaveLand(s, Created(record)).state, None, at);
      r.clickedPositions == [at] && !r.toolboxOpen && !r.showSaveModal
  {
  }

  /** Choosing the same candidate twice is the same as choosing it once. */
  lemma SelectCandidateIdempotent(s: State, location: Location)
    ensures SelectCandidate(SelectCandidate(s, location), location) == SelectCandidate(s, location)
  {
  }

  /** "abc" (three characters) sends nothing and keeps the results. */
  lemma ShortQuerySendsNothing(s: State)
    ensures SearchChange(s, "abc").request.None?
    ensures SearchChange(s, "abc").state.searchResults == s.searchResults
  {
    assert !IsBlank("abc") by { assert !IsJsWhitespace("abc"[0]); }
    Utf16LengthOfBmp("abc");
  }

  /** "Dhaka" (five characters) sends exactly that query. */
  lemma LongQuerySendsOneRequest(s: State)
    ensures SearchChange(s, "Dhaka").request == Some(Geocode("Dhaka"))
  {
  }

  /** "  ab" is sent: the length test counts the untrimmed query. */
  lemma LengthGateDoesNotTrim(s: State)
    ensures SearchChange(s, "  ab").request == Some(Geocode("  ab"))
  {
  }

  /** Two emoji are sent: each is two UTF-16 code units, so the length is 4. */
  lemma LengthGateCountsCodeUnits(s: State)
    ensures SearchChange(s, "\U{1F600}\U{1F600}").request.Some?
  {
  }

  /** A query of spaces clears the results and sends nothing. */
  lemma BlankQueryClears(s: State)
    ensures SearchChange(s, "   ").state.searchResults == []
    ensures SearchChange(s, "   ").request.None?
  {
  }
}
