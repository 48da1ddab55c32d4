# land-vista client core, modelled in Dafny

This project models three pieces of land-vista, a map application for land parcels:

- the map page (`MapView`). Its state is a record: the parcel list `lands`, the draft polygon `clickedPositions`, the `isCreatingLand`, `toolboxOpen` and `showSaveModal` flags, the save-dialog form `newLandData`, the search box and its `searchResults`, and `mapCenter`. Each event handler is a pure function from that state to the next state, plus the request it sends.
- the "mark this as my map center" button (`SaveMapCenterButton`). It reads the object stored under the browser-storage key `landVistaData`, may allocate a `user_id`, overwrites the view keys and writes the object back.
- the server's `Land` schema (`landModel`). It has three closed string enumerations, fields that are all optional, and a `coordinates` list of numeric lists.

Modules:

- `Wrappers`: `Option`.
- `JsValues`: JSON-like JavaScript values, truthiness, `trim()`, and `length` counted in UTF-16 code units.
- `LandModel`: the schema.
- `MapView`: the handlers and the properties that relate them.
- `MapViewSession`: every action and network reply as an `Event`, `Step`, and `Available`. `Available` says which events the rendered page lets through: buttons that are hidden or disabled, and the save dialog's backdrop, which covers the map, the toolbox and the search box. It also holds the reachable-state invariant.
- `MapViewScenario`: an end-to-end authoring run.
- `SaveMapCenter`: the saved-view update.

Network and storage outcomes are arguments: `SaveResponse`, `GeocodeResponse`, `LoadResponse` and `AllocResponse`. Requests are outputs: `Request` and `SaveResult.allocationRequests`. Latitudes and longitudes are `real`s and are only stored and swapped, never computed on.

Behaviour of the code worth knowing:

- Cancel and a successful save never reset `isCreatingLand`. Later bare-map clicks keep appending vertices, even with the toolbox closed.
- "Add new" resets the draft to empty from any state, including while authoring.
- `handleSaveLand` posts any draft, including one with fewer than three vertices. The three-vertex rule exists only because the save button is disabled and the dialog's backdrop blocks the page (`PageSavesPolygons` against `SaveLandChecksNoLength`).
- A failed save changes nothing and reports nothing to the user. It is only logged.
- A non-blank query shorter than 4 code units leaves the previous `searchResults` in place; it does not empty them. The length test counts the untrimmed query, so `"  ab"` is sent.
- The schema checks no minimum vertex count and no pair arity.

## Model

| member | source | states |
|---|---|---|
| `JsValues.Truthy` | client/src/components/SaveMapCenterButton.jsx:13 | a value is falsy exactly when it is `null`, `false`, `0` or `""`; arrays and objects are truthy |
| `JsValues.TrimStart` | client/src/components/MapView.js:40 | the result is a suffix of the input, every character removed is whitespace, and a non-empty result does not start with whitespace |
| `JsValues.TrimEnd` | client/src/components/MapView.js:40 | the result is a prefix of the input, every character removed is whitespace, and a non-empty result does not end with whitespace |
| `JsValues.Trim` | client/src/components/MapView.js:40 | the result is a contiguous slice of the input, everything cut on either side is whitespace, and a non-empty result starts and ends with a non-whitespace character |
| `JsValues.TrimEmptyIffBlank` | client/src/components/MapView.js:40 | `trim()` yields the empty string exactly when every character is ECMAScript whitespace or a line terminator |
| `JsValues.Utf16Length` | client/src/components/MapView.js:48 | the `length` the gate tests lies between the character count and twice that count |
| `JsValues.Utf16LengthAppend` | client/src/components/MapView.js:48 | the `length` of a concatenation is the sum of the lengths, so the length is the sum over characters of their code units |
| `JsValues.CharUtf16Length` | client/src/components/MapView.js:48 | one character has `length` 2 exactly when it lies above U+FFFF, and 1 otherwise |
| `JsValues.Utf16LengthOfBmp` | client/src/components/MapView.js:48 | for text in the Basic Multilingual Plane, `length` is the character count |
| `LandModel.ParseLandType` | models/landModel.js:8 | a `type` string is accepted iff it is one of Residential, Commercial, Farming, "Fish Farm", and it reads back as the value spelled that way |
| `LandModel.ParseAvailability` | models/landModel.js:9 | an `availabilityStatus` is accepted iff it is one of "For Sale", "For Rent", Sold, Leased, Auction |
| `LandModel.ParseOwnership` | models/landModel.js:10 | an `ownershipType` is accepted iff it is one of Private, Government, Common |
| `LandModel.EnumRoundTrips` | models/landModel.js:8-10 | every enumeration value is spelled as an admitted string and parses back to itself |
| `LandModel.ValidationErrors` | models/landModel.js:8-10 | a field fails validation iff it is present and outside its enumeration; only the three enumerated fields can fail |
| `LandModel.ValidLandEnums` | models/landModel.js:8-10 | the enumerated fields of a valid document, when present, read back into the enumerations |
| `LandModel.NoFieldRequired` | models/landModel.js:3-13 | the all-absent document is valid, and removing any field of a valid document keeps it valid |
| `LandModel.CoordinatesUnconstrained` | models/landModel.js:11 | replacing `coordinates` by any list of numeric lists never changes validity |
| `LandModel.DegeneratePolygonIsValid` | models/landModel.js:8-11 | a two-point polygon with a one-number point is valid; the unspaced "FishFarm" is rejected |
| `MapView.StartLandCreation` | client/src/components/MapView.js:83-87 | from any state: authoring on, toolbox open, draft empty, every other field unchanged |
| `MapView.OnOverlay` | client/src/components/MapView.js:146-149 | a click is ignored as an overlay click exactly when its target tag is `svg` or `path`; a missing tag is a map click |
| `MapView.MapClick` | client/src/components/MapView.js:145-155 | the point is appended at the end exactly when authoring and the target is neither `svg` nor `path`; otherwise the state is unchanged |
| `MapView.Revert` | client/src/components/MapView.js:96-99 | removes exactly the last vertex; an empty draft stays empty; nothing else changes |
| `MapView.Cancel` | client/src/components/MapView.js:90-93 | the draft is emptied and the toolbox closed, while authoring mode keeps its value |
| `MapView.UndoEnabled` | client/src/components/MapView.js:228 | the undo button is enabled exactly when the draft is non-empty |
| `MapView.SaveEnabled` | client/src/components/MapView.js:237 | the save button is enabled exactly when the draft has a third vertex, and then undo is enabled too |
| `MapView.InputChange` | client/src/components/MapView.js:102-107 | the named field takes the value; every other field is kept; the key set grows by at most that name |
| `MapView.DecodeEncode` | client/src/components/MapView.js:111-112 | the posted `coordinates` array decodes back to the draft exactly |
| `MapView.Payload` | client/src/components/MapView.js:111-114 | the body holds every form field as a string and `coordinates` decoding to the draft, unless a form field named `coordinates` overrides it |
| `MapView.SaveLand` | client/src/components/MapView.js:110-125 | one create request with the current draft; on success the record is appended last, earlier parcels are kept, and the draft, dialog and toolbox are cleared; on failure the state is unchanged |
| `MapView.LandsLoaded` | client/src/components/MapView.js:27-35 | a successful listing replaces `lands`; a failed one leaves the state unchanged |
| `MapView.LandTypeColor` | client/src/components/MapView.js:127-140 | "sell" gets exactly `{fillColor: 'blue'}`, "rent" exactly `{color: 'purple'}`, and every other value, absent included, exactly `{color: 'red'}` |
| `MapView.ValidLandIsRed` | client/src/components/MapView.js:129-138 | every schema-valid stored land is drawn with the red default |
| `MapView.SearchChange` | client/src/components/MapView.js:38-50 | the query is stored. A blank query clears the results and sends nothing. A non-blank query under 4 code units sends nothing and keeps the results. Any other query sends exactly one geocoder request |
| `MapView.SearchResponse` | client/src/components/MapView.js:53-65 | a non-empty candidate list is shown as is; an empty or missing list, or an error, empties the results |
| `MapView.SelectCandidate` | client/src/components/MapView.js:69-72 | the center becomes `[y, x]` of the location, and the results are emptied |
| `MapView.SelectCandidateIdempotent` | client/src/components/MapView.js:69-72 | choosing the same location twice equals choosing it once |
| `MapView.RevertUndoesClick` | client/src/components/MapView.js:96-99 | undo after an appending click restores the state before the click |
| `MapView.ClicksAppendInOrder` | client/src/components/MapView.js:151-153 | while authoring, a run of bare-map clicks appends exactly the clicked points in order and changes nothing else |
| `MapView.RevertThenClick` | client/src/components/MapView.js:96-99 | undo then click on `[a, b, c]` gives `[a, b, v]` |
| `MapView.ClickAfterCancelAppends` | client/src/components/MapView.js:90-93 | after a cancel, a bare-map click still starts a new draft with the toolbox closed |
| `MapView.ClickAfterSaveAppends` | client/src/components/MapView.js:116-120 | after a successful save, a bare-map click still starts a new draft |
| `MapView.ShortQuerySendsNothing` | client/src/components/MapView.js:47-50 | "abc" sends no request and keeps the results |
| `MapView.LongQuerySendsOneRequest` | client/src/components/MapView.js:47-53 | "Dhaka" sends exactly one request, for "Dhaka" |
| `MapView.LengthGateDoesNotTrim` | client/src/components/MapView.js:40-48 | "  ab" is sent, because the length test does not trim |
| `MapView.LengthGateCountsCodeUnits` | client/src/components/MapView.js:48 | two astral-plane characters are sent, because each counts as two code units |
| `MapView.BlankQueryClears` | client/src/components/MapView.js:40-44 | a query of spaces clears the results and sends nothing |
| `MapViewSession.Step` | client/src/components/MapView.js:38-155 | no event switches authoring mode off; a request is sent exactly by "Save Land" and by a non-blank keystroke of length at least 4 |
| `MapViewSession.Available` | client/src/components/MapView.js:182-262 | undo needs an open toolbox and a non-empty draft; the save button needs an open toolbox and at least three vertices; "Add new" needs a closed toolbox; only a listed result can be chosen; while the save dialog is open only the dialog's own events and network replies get through; network replies always do |
| `MapViewSession.UndoUnderDialogBreaksInv` | client/src/components/MapView.js:262 | an undo under the open dialog, which the backdrop prevents, would leave the dialog open over a two-vertex draft and break the invariant |
| `MapViewSession.InitSatisfiesInv` | client/src/components/MapView.js:9-24 | the initial state satisfies the page invariant |
| `MapViewSession.StepPreservesInv` | client/src/components/MapView.js:211-262 | every event the page lets through preserves the invariant. The invariant: outside authoring the draft is empty; the toolbox is open only while authoring; the dialog is open only over an open toolbox with at least three vertices; the form has exactly its four fields |
| `MapViewSession.RunPreservesInv` | client/src/components/MapView.js:211-262 | the invariant holds after any sequence of events the page lets through |
| `MapViewSession.RunKeepsCreating` | client/src/components/MapView.js:83-125 | once authoring mode is on, no sequence of events turns it off |
| `MapViewSession.PageSavesPolygons` | client/src/components/MapView.js:237 | a "Save Land" reached through the page posts at least three vertices, exactly the draft |
| `MapViewSession.SaveLandChecksNoLength` | client/src/components/MapView.js:110-117 | the handler itself posts an empty draft and appends the server's record |
| `MapViewScenario.ScenarioRun` | client/src/components/MapView.js:83-107 | start, three clicks, the save dialog and three fields are all allowed, and they lead to the three-point draft with the filled form |
| `MapViewScenario.ScenarioSave` | client/src/components/MapView.js:110-120 | saving that draft posts the three points in click order with the name, appends the record and clears the draft |
| `MapViewScenario.ScenarioExample` | client/src/components/MapView.js:110-120 | the same on the points (22.94, 89.18), (22.95, 89.19), (22.96, 89.20) |
| `SaveMapCenter.LoadBlob` | client/src/components/SaveMapCenterButton.jsx:9 | a missing stored object reads as `{}` |
| `SaveMapCenter.AssignUserId` | client/src/components/SaveMapCenterButton.jsx:18 | the allocated id is stored under `user_id`; an `undefined` id leaves no key once serialised; other keys are kept |
| `SaveMapCenter.HandleMapCenterSave` | client/src/components/SaveMapCenterButton.jsx:7-27 | An allocation request is sent iff there is no truthy `user_id`. A stored truthy id is kept. A new id comes from the allocator's reply. After a write, the three view keys equal the arguments and every other key is preserved. Nothing is written or acknowledged iff the allocation was needed and failed |
| `SaveMapCenter.MissingBlobIsEmpty` | client/src/components/SaveMapCenterButton.jsx:9 | a missing stored object behaves exactly like a stored `{}` |
| `SaveMapCenter.FailedAllocationWritesNothing` | client/src/components/SaveMapCenterButton.jsx:14-26 | a failed allocation leaves storage untouched and gives no success notice |
| `SaveMapCenter.StoredIdIgnoresAllocator` | client/src/components/SaveMapCenterButton.jsx:10-21 | with a truthy stored id, the allocator's outcome makes no difference |
| `SaveMapCenter.SaveTwiceIsSaveOnce` | client/src/components/SaveMapCenterButton.jsx:9-25 | once a save has stored a truthy id, saving again with the same view sends no request and writes the same object |
| `SaveMapCenter.FirstSaveExample` | client/src/components/SaveMapCenterButton.jsx:9-25 | on empty storage with the reply `{user_id: "u1"}`, exactly the four keys are stored |

## Left out

- Rendering, MUI layout, styles and the details modal (`handleLandClick` and `handleCloseModal` with `selectedLand`) are presentation only. The only rendering facts kept are the ones `Available` needs: which buttons are shown or disabled, and that the save dialog's backdrop blocks the rest of the page.
- `MapCenterUpdater` and `map.setView` are not modelled. They are a library call with no visible logic; the model stops at `mapCenter`.
- The geocoder URL, `encodeURIComponent`, axios and `fetch` are not modelled. A request is an emitted `Request` value and a reply is an argument.
- Interleaving of asynchronous replies is not modelled. A save's request and reply form one step (`SaveLand`), and a geocoder reply may arrive at any time, so a stale search reply overwriting a newer one is allowed but not analysed.
- React's stale closures are not modelled. Each handler sees the state left by the previous event.
- JSON (de)serialisation, `toast` and `console.error` are not modelled. The stored object is a `map`, and a success notice is the same thing as a write. A stored value that is not an object, and a stored string that fails to parse, are not modelled.
- JavaScript numbers are `real`s: NaN, infinities and floating-point rounding are not modelled. Nothing is computed on coordinates.
- An `undefined` argument to the saved-view handler is not modelled. Its arguments are JSON values, including objects such as a `{lat, lng}` center. An `undefined` allocated id is modelled.
- Mongoose's type casting, `required`/default handling beyond "all fields optional, `coordinates` defaults to `[]`", and the ObjectId format of `userId` are not modelled. The `_id` assignment is the record the server returns.
- `app.js` (server bootstrap, routes, static files) is not part of this model.
- Dafny `char` is a Unicode scalar value, so a JavaScript string holding a lone surrogate (which `length` counts as one unit) cannot be represented.
