/**
 * "Mark this as my map center": a read-modify-write of the object stored under
 * the browser-storage key "landVistaData". The stored object is read (a missing
 * one reads as `{}`), a `user_id` is allocated by `POST /users/create` only when
 * the object has no truthy one, the three view keys are overwritten, and the
 * object is written back. The allocation call's outcome is an argument.
 */
module SaveMapCenter {
  import opened Wrappers
  import opened JsValues

  const UserIdKey := "user_id"
  const MapCenterKey := "map_center"
  const MapZoomKey := "map_zoom"
  const BaseLayerKey := "activeBaseLayer"

  /** The keys the save writes. */
  const ViewKeys: set<string> := {UserIdKey, MapCenterKey, MapZoomKey, BaseLayerKey}

  /** The outcome of the allocation call: the parsed response body, or a failure (rejected fetch or unparsable body). */
  datatype AllocResponse = Allocated(body: Blob) | AllocFailed

  /**
   * What one save does: how many allocation requests it sends and the object
   * it writes back. A write is always followed by the success notice, so
   * `written.Some?` is also "the user was told the center was saved".
   */
  datatype SaveResult = SaveResult(allocationRequests: nat, written: Option<Blob>)

  /** The stored object, or `{}` when nothing is stored. */
  function LoadBlob(stored: Option<Blob>): (b: Blob)
    ensures stored.None? ==> b == map[]
    ensures stored.Some? ==> b == stored.value
  {
    stored.GetOr(map[])
  }

  /** The object already holds a usable user id. */
  predicate HasUserId(b: Blob)
  {
    UserIdKey in b && Truthy(b[UserIdKey])
  }

  /**
   * `data.user_id = id` followed by `JSON.stringify`: an `undefined` id (`None`)
   * leaves no key at all.
   */
  function AssignUserId(b: Blob, id: Option<JsValue>): (r: Blob)
    ensures UserIdKey in r <==> id.Some?
    ensures id.Some? ==> r[UserIdKey] == id.value
    ensures forall k :: k in b && k != UserIdKey ==> k in r && r[k] == b[k]
    ensures forall k :: k in r && k != UserIdKey ==> k in b
  {
    match id
    case Some(v) => b[UserIdKey := v]
    case None => b - {UserIdKey}
  }

  /** The value of `key` in `b`, `None` when absent. */
  function Lookup(b: Blob, key: string): Option<JsValue>
  {
    if key in b then Some(b[key]) else None
  }

  /** Overwrites the three view keys. */
  function WriteView(b: Blob, center: JsValue, zoom: JsValue, baseLayer: JsValue): Blob
  {
    b[MapCenterKey := center][MapZoomKey := zoom][BaseLayerKey := baseLayer]
  }

  /** The object holds the given view. */
  predicate ShowsView(b: Blob, center: JsValue, zoom: JsValue, baseLayer: JsValue)
  {
    && MapCenterKey in b && b[MapCenterKey] == center
    && MapZoomKey in b && b[MapZoomKey] == zoom
    && BaseLayerKey in b && b[BaseLayerKey] == baseLayer
  }

  /** `handleMapCenterSave(center, zoom, baseLayer)` with the allocation outcome `alloc`. */
  function HandleMapCenterSave(stored: Option<Blob>, center: JsValue, zoom: JsValue, baseLayer: JsValue,
                               alloc: AllocResponse): (r: SaveResult)
    ensures var data := LoadBlob(stored);
      && r.allocationRequests == (if HasUserId(data) then 0 else 1)
      && (r.written.None? <==> !HasUserId(data) && alloc.AllocFailed?)
    ensures var data := LoadBlob(stored);
      r.written.Some? ==>
        && ShowsView(r.written.value, center, zoom, baseLayer)
        && (forall k :: k in data && k !in ViewKeys ==> k in r.written.value && r.written.value[k] == data[k])
        && (forall k :: k in r.written.value && k !in ViewKeys ==> k in data)
    ensures var data := LoadBlob(stored);
      HasUserId(data) ==>
        && r.written.Some? && UserIdKey in r.written.value
        && r.written.value[UserIdKey] == data[UserIdKey]
    ensures var data := LoadBlob(stored);
      !HasUserId(data) && alloc.Allocated? ==>
        && r.written.Some?
        && (UserIdKey in r.written.value <==> UserIdKey in alloc.body)
        && (UserIdKey in alloc.body ==> r.written.value[UserIdKey] == alloc.body[UserIdKey])
  {
    var data := LoadBlob(stored);
    if !HasUserId(data) then
      match alloc
      case AllocFailed => SaveResult(1, None)
      case Allocated(body) =>
        SaveResult(1, Some(WriteView(AssignUserId(data, Lookup(body, UserIdKey)), center, zoom, baseLayer)))
    else
      SaveResult(0, Some(WriteView(data, center, zoom, baseLayer)))
  }

  /** The stored object after a save: the written one, or the old one when nothing was written. */
  function StorageAfter(stored: Option<Blob>, r: SaveResult): Option<Blob>
  {
    if r.written.Some? then r.written else stored
  }

  /** A missing stored object behaves exactly like a stored `{}`. */
  lemma MissingBlobIsEmpty(center: JsValue, zoom: JsValue, baseLayer: JsValue, alloc: AllocResponse)
    ensures HandleMapCenterSave(None, center, zoom, baseLayer, alloc)
         == HandleMapCenterSave(Some(map[]), center, zoom, baseLayer, alloc)
  {
  }

  /** A failed allocation leaves storage untouched and shows no success notice. */
  lemma FailedAllocationWritesNothing(stored: Option<Blob>, center: JsValue, zoom: JsValue, baseLayer: JsValue)
    requires !HasUserId(LoadBlob(stored))
    ensures var r := HandleMapCenterSave(stored, center, zoom, baseLayer, AllocFailed);
      r.written.None? && StorageAfter(stored, r) == stored
  {
  }

  /** With a user id already stored, the allocator's outcome makes no difference. */
  lemma StoredIdIgnoresAllocator(stored: Option<Blob>, center: JsValue, zoom: JsValue, baseLayer: JsValue,
                                 a1: AllocResponse, a2: AllocResponse)
    requires HasUserId(LoadBlob(stored))
    ensures HandleMapCenterSave(stored, center, zoom, baseLayer, a1)
         == HandleMapCenterSave(stored, center, zoom, baseLayer, a2)
  {
  }

  /** Writing a view an object already shows changes nothing. */
  lemma WriteViewShown(b: Blob, center: JsValue, zoom: JsValue, baseLayer: JsValue)
    requires ShowsView(b, center, zoom, baseLayer)
    ensures WriteView(b, center, zoom, baseLayer) == b
  {
  }

  /**
   * Once a save has stored a usable user id, saving again with the same view
   * sends no request and writes the same object.
   */
  lemma SaveTwiceIsSaveOnce(stored: Option<Blob>, center: JsValue, zoom: JsValue, baseLayer: JsValue,
                            a1: AllocResponse, a2: AllocResponse)
    requires var r := HandleMapCenterSave(stored, center, zoom, baseLayer, a1);
      r.written.Some? && HasUserId(r.written.value)
    ensures var r := HandleMapCenterSave(stored, center, zoom, baseLayer, a1);
      HandleMapCenterSave(r.written, center, zoom, baseLayer, a2) == SaveResult(0, r.written)
  {
    var r := HandleMapCenterSave(stored, center, zoom, baseLayer, a1);
    WriteViewShown(r.written.value, center, zoom, baseLayer);
  }

  /** A first save with a fixed allocator reply on empty storage stores exactly the four keys. */
  lemma FirstSaveExample(center: JsValue, zoom: JsValue, baseLayer: JsValue)
    ensures HandleMapCenterSave(None, center, zoom, baseLayer, Allocated(map[UserIdKey := Str("u1")]))
         == SaveResult(1, Some(map[UserIdKey := Str("u1"), MapCenterKey := center,
                                   MapZoomKey := zoom, BaseLayerKey := baseLayer]))
  {
  }
}
