/**
 * The map page as one event-driven machine: every user action and network
 * reply is an `Event`, `Step` dispatches it to its handler, and `Available`
 * says which events the rendered page lets happen (hidden or disabled buttons,
 * and the save dialog's backdrop, which covers the map, the toolbox and the
 * search box while the dialog is open).
 */
module MapViewSession {
  import opened Wrappers
  import opened JsValues
  import opened LandModel
  import opened MapView

  datatype Event =
    | StartClicked
    | MapClicked(tagName: Option<string>, at: Vertex)
    | UndoClicked
    | CancelClicked
    | SaveButtonClicked
    | DialogClosed
    | FieldEdited(name: string, value: string)
    | SaveLandClicked(response: SaveResponse)
    | SearchEdited(value: string)
    | SearchAnswered(answer: GeocodeResponse)
    | CandidateChosen(location: Location)
    | LandsFetched(fetched: LoadResponse)

  /**
   * Applies one event. Authoring mode is never switched off, and a request is
   * sent exactly by "Save Land" and by a non-blank search keystroke of length
   * at least 4.
   */
  function Step(s: State, e: Event): (t: Transition)
    ensures s.isCreatingLand ==> t.state.isCreatingLand
    ensures t.request.Some? <==>
      e.SaveLandClicked? || (e.SearchEdited? && !IsBlank(e.value) && Utf16Length(e.value) >= 4)
  {
    match e
    case StartClicked => Transition(StartLandCreation(s), None)
    case MapClicked(tagName, at) => Transition(MapClick(s, tagName, at), None)
    case UndoClicked => Transition(Revert(s), None)
    case CancelClicked => Transition(Cancel(s), None)
    case SaveButtonClicked => Transition(s.(showSaveModal := true), None)
    case DialogClosed => Transition(s.(showSaveModal := false), None)
    case FieldEdited(name, value) =>
      Transition(s.(newLandData := InputChange(s.newLandData, name, value)), None)
    case SaveLandClicked(response) => SaveLand(s, response)
    case SearchEdited(value) => SearchChange(s, value)
    case SearchAnswered(answer) => Transition(SearchResponse(s, answer), None)
    case CandidateChosen(location) => Transition(SelectCandidate(s, location), None)
    case LandsFetched(fetched) => Transition(LandsLoaded(s, fetched), None)
  }

  /** The events the rendered page can deliver in state `s`. */
  predicate Available(s: State, e: Event): (r: bool)
    ensures r && s.showSaveModal ==>
      e.DialogClosed? || e.FieldEdited? || e.SaveLandClicked? || e.SearchAnswered? || e.LandsFetched?
    ensures r && e.UndoClicked? ==> s.toolboxOpen && UndoEnabled(s)
    ensures r && e.SaveButtonClicked? ==> s.toolboxOpen && SaveEnabled(s)
    ensures r && e.StartClicked? ==> !s.toolboxOpen
    ensures r && e.CandidateChosen? ==> exists c :: c in s.searchResults && c.location == e.location
    ensures e.SearchAnswered? || e.LandsFetched? ==> r
  {
    match e
    case StartClicked => !s.toolboxOpen && !s.showSaveModal
    case MapClicked(_, _) => !s.showSaveModal
    case UndoClicked => s.toolboxOpen && UndoEnabled(s) && !s.showSaveModal
    case CancelClicked => s.toolboxOpen && !s.showSaveModal
    case SaveButtonClicked => s.toolboxOpen && SaveEnabled(s) && !s.showSaveModal
    case DialogClosed => s.showSaveModal
    case FieldEdited(name, _) => s.showSaveModal && name in FormFields
    case SaveLandClicked(_) => s.showSaveModal
    case SearchEdited(_) => !s.showSaveModal
    case SearchAnswered(_) => true
    case CandidateChosen(location) =>
      !s.showSaveModal && exists c :: c in s.searchResults && c.location == location
    case LandsFetched(_) => true
  }

  /**
   * What holds of every state the page can reach: outside authoring mode the
   * draft is empty, the toolbox is only open while authoring, the save dialog
   * is only open over an open toolbox with at least three vertices, and the
   * form holds exactly its four fields.
   */
  predicate Inv(s: State)
  {
    && (!s.isCreatingLand ==> s.clickedPositions == [])
    && (s.toolboxOpen ==> s.isCreatingLand)
    && (s.showSaveModal ==> s.toolboxOpen && SaveEnabled(s))
    && s.newLandData.Keys == FormFields
  }

  lemma InitSatisfiesInv()
    ensures Inv(Init)
  {
  }

  /** Every available event keeps the invariant. */
  lemma StepPreservesInv(s: State, e: Event)
    requires Inv(s) && Available(s, e)
    ensures Inv(Step(s, e).state)
  {
  }

  /**
   * The dialog's backdrop matters: an undo delivered while the save dialog is
   * open (which the page does not allow) leaves the dialog open over a
   * two-vertex draft.
   */
  lemma UndoUnderDialogBreaksInv(a: Vertex, b: Vertex, c: Vertex)
    ensures var s := Init.(isCreatingLand := true, toolboxOpen := true, showSaveModal := true,
                           clickedPositions := [a, b, c]);
      && Inv(s) && !Available(s, UndoClicked)
      && !Inv(Step(s, UndoClicked).state)
  {
  }

  /** Applies a sequence of events in order. */
  function Run(s: State, events: seq<Event>): State
    decreases |events|
  {
    if events == [] then s else Run(Step(s, events[0]).state, events[1..])
  }

  /** Every event of the sequence is available when it is delivered. */
  predicate Admissible(s: State, events: seq<Event>)
    decreases |events|
  {
    events == [] || (Available(s, events[0]) && Admissible(Step(s, events[0]).state, events[1..]))
  }

  /** The invariant holds after any sequence of available events. */
  lemma {:induction false} RunPreservesInv(s: State, events: seq<Event>)
    requires Inv(s) && Admissible(s, events)
    ensures Inv(Run(s, events))
    decreases |events|
  {
    if events != [] {
      StepPreservesInv(s, events[0]);
      RunPreservesInv(Step(s, events[0]).state, events[1..]);
    }
  }

  /** Once on, authoring mode stays on whatever happens next, available or not. */
  lemma {:induction false} RunKeepsCreating(s: State, events: seq<Event>)
    requires s.isCreatingLand
    ensures Run(s, events).isCreatingLand
    decreases |events|
  {
    if events != [] {
      RunKeepsCreating(Step(s, events[0]).state, events[1..]);
    }
  }

  /**
   * Through the page, "Save Land" always posts at least three vertices, and the
   * posted coordinates are exactly the draft: the three-vertex rule holds only
   * because of the disabled button and the dialog's backdrop.
   */
  lemma PageSavesPolygons(events: seq<Event>, response: SaveResponse)
    requires Admissible(Init, events)
    requires Available(Run(Init, events), SaveLandClicked(response))
    ensures var s := Run(Init, events);
      var t := Step(s, SaveLandClicked(response));
      && t.request.Some? && t.request.value.CreateLand?
      && DecodeVertices(t.request.value.payload["coordinates"]) == Some(s.clickedPositions)
      && |s.clickedPositions| >= 3
  {
    InitSatisfiesInv();
    RunPreservesInv(Init, events);
  }

  /** The handler itself accepts an empty draft and appends whatever the server returns. */
  lemma SaveLandChecksNoLength(s: State, record: Land)
    requires s.clickedPositions == [] && "coordinates" !in s.newLandData
    ensures var t := SaveLand(s, Created(record));
      && t.state.lands == s.lands + [record]
      && DecodeVertices(t.request.value.payload["coordinates"]) == Some([])
  {
  }

  /** Running `a ++ b` is running `a` and then `b`; both halves admissible makes the whole admissible. */
  lemma {:induction false} RunAppend(s: State, a: seq<Event>, b: seq<Event>)
    ensures Run(s, a + b) == Run(Run(s, a), b)
    ensures Admissible(s, a) && Admissible(Run(s, a), b) ==> Admissible(s, a + b)
    decreases |a|
  {
    if a == [] {
      assert a + b == b;
    } else {
      assert (a + b)[0] == a[0] && (a + b)[1..] == a[1..] + b;
      RunAppend(Step(s, a[0]).state, a[1..], b);
    }
  }

  /** A run that starts with an available event: its first step, then the rest. */
  lemma RunStep(s: State, e: Event, next: State, rest: seq<Event>)
    requires Available(s, e) && Step(s, e).state == next
    ensures Run(s, [e] + rest) == Run(next, rest)
    ensures Admissible(s, [e] + rest) <==> Admissible(next, rest)
  {
  }

}
