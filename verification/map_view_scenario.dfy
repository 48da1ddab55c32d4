/**
 * An end-to-end authoring scenario on the map page: start, three clicks, the
 * save dialog, three form fields and a successful save.
 */
module MapViewScenario {
  import opened Wrappers
  import JsValues
  import LandModel
  import opened MapView
  import opened MapViewSession

  /** Start, then bare-map clicks at three points. */
  function DraftEvents(p1: Vertex, p2: Vertex, p3: Vertex): seq<Event>
  {
    [StartClicked, MapClicked(None, p1), MapClicked(None, p2), MapClicked(None, p3)]
  }

  /** Open the save dialog, then fill name, price and type. */
  const FormEvents: seq<Event> :=
    [SaveButtonClicked, FieldEdited("name", "Plot A"), FieldEdited("price", "1000"),
     FieldEdited("type", "Residential")]

  function ScenarioEvents(p1: Vertex, p2: Vertex, p3: Vertex): seq<Event>
  {
    DraftEvents(p1, p2, p3) + FormEvents
  }

  /** The state after the draft events: authoring, toolbox open, the three points. */
  function DraftState(p1: Vertex, p2: Vertex, p3: Vertex): State
  {
    Init.(clickedPositions := [p1, p2, p3], isCreatingLand := true, toolboxOpen := true)
  }

  /** The state after the whole scenario: the three points, dialog open, form filled. */
  function ScenarioState(p1: Vertex, p2: Vertex, p3: Vertex): State
  {
    DraftState(p1, p2, p3).(showSaveModal := true,
      newLandData := map["name" := "Plot A", "imageUrl" := "", "price" := "1000", "type" := "Residential"])
  }

  lemma DraftPhase(p1: Vertex, p2: Vertex, p3: Vertex)
    ensures Admissible(Init, DraftEvents(p1, p2, p3))
    ensures Run(Init, DraftEvents(p1, p2, p3)) == DraftState(p1, p2, p3)
  {
    var s1 := Init.(isCreatingLand := true, toolboxOpen := true);
    var s2 := s1.(clickedPositions := [p1]);
    var s3 := s1.(clickedPositions := [p1, p2]);
    var s4 := DraftState(p1, p2, p3);
    var t3: seq<Event> := [MapClicked(None, p3)];
    var t2 := [MapClicked(None, p2)] + t3;
    var t1 := [MapClicked(None, p1)] + t2;
    RunStep(s3, MapClicked(None, p3), s4, []);
    assert t3 == [MapClicked(None, p3)] + [];
    RunStep(s2, MapClicked(None, p2), s3, t3);
    RunStep(s1, MapClicked(None, p1), s2, t2);
    RunStep(Init, StartClicked, s1, t1);
    assert DraftEvents(p1, p2, p3) == [StartClicked] + t1;
  }

  lemma FormPhase(p1: Vertex, p2: Vertex, p3: Vertex)
    ensures Admissible(DraftState(p1, p2, p3), FormEvents)
    ensures Run(DraftState(p1, p2, p3), FormEvents) == ScenarioState(p1, p2, p3)
  {
    var s4 := DraftState(p1, p2, p3);
    var s5 := s4.(showSaveModal := true);
    var s6 := s5.(newLandData := s5.newLandData["name" := "Plot A"]);
    var s7 := s6.(newLandData := s6.newLandData["price" := "1000"]);
    var s8 := s7.(newLandData := s7.newLandData["type" := "Residential"]);
    var t7: seq<Event> := [FieldEdited("type", "Residential")];
    var t6 := [FieldEdited("price", "1000")] + t7;
    var t5 := [FieldEdited("name", "Plot A")] + t6;
    RunStep(s7, FieldEdited("type", "Residential"), s8, []);
    assert t7 == [FieldEdited("type", "Residential")] + [];
    RunStep(s6, FieldEdited("price", "1000"), s7, t7);
    RunStep(s5, FieldEdited("name", "Plot A"), s6, t6);
    RunStep(s4, SaveButtonClicked, s5, t5);
    assert FormEvents == [SaveButtonClicked] + t5;
    assert s8 == ScenarioState(p1, p2, p3);
  }

  /** The scenario's events are all available and lead to the scenario state. */
  lemma ScenarioRun(p1: Vertex, p2: Vertex, p3: Vertex)
    ensures Admissible(Init, ScenarioEvents(p1, p2, p3))
    ensures Run(Init, ScenarioEvents(p1, p2, p3)) == ScenarioState(p1, p2, p3)
  {
    DraftPhase(p1, p2, p3);
    FormPhase(p1, p2, p3);
    RunAppend(Init, DraftEvents(p1, p2, p3), FormEvents);
  }

  /**
   * Saving the scenario's draft with a successful reply: the list gains the
   * server's record, the posted coordinates are the three points in click
   * order alongside the form fields, and the draft is cleared.
   */
  lemma ScenarioSave(p1: Vertex, p2: Vertex, p3: Vertex, record: LandModel.Land)
    ensures var s := ScenarioState(p1, p2, p3);
      var t := Step(s, SaveLandClicked(Created(record)));
      && Available(s, SaveLandClicked(Created(record)))
      && t.request.Some? && t.request.value.CreateLand?
      && DecodeVertices(t.request.value.payload["coordinates"]) == Some([p1, p2, p3])
      && "name" in t.request.value.payload && t.request.value.payload["name"] == JsValues.Str("Plot A")
      && t.state.lands == [record]
      && t.state.clickedPositions == []
  {
  }

  /** The scenario on the coordinates (22.94, 89.18), (22.95, 89.19), (22.96, 89.20). */
  lemma ScenarioExample(record: LandModel.Land)
    ensures var p1, p2, p3 := Vertex(22.94, 89.18), Vertex(22.95, 89.19), Vertex(22.96, 89.20);
      var t := Step(Run(Init, ScenarioEvents(p1, p2, p3)), SaveLandClicked(Created(record)));
      && DecodeVertices(t.request.value.payload["coordinates"]) == Some([p1, p2, p3])
      && t.state.lands == [record]
  {
    var p1, p2, p3 := Vertex(22.94, 89.18), Vertex(22.95, 89.19), Vertex(22.96, 89.20);
    ScenarioRun(p1, p2, p3);
    ScenarioSave(p1, p2, p3, record);
  }
}
