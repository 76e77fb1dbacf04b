/**
 * The unversioned HTTP client, `model/ShoppingListApi.kt`: no version
 * segment, no authentication, only `IOException` caught, and a polling
 * `all()` that also moves the connectivity flag.
 */
module LegacyApi {
  import opened Wrappers
  import opened Items
  import opened Wire
  import opened Requests
  import opened Connectivity

  /** What `all()` did: returned a (nullable) map, or let an exception out. */
  datatype FetchResult = Returned(list: Option<ItemMap>) | Raised(e: ExceptionKind)

  class LegacyShoppingListApi {
    /** The global `ConnectionStateObserver`. */
    const conn: ConnectionStateObserver
    /** Every request handed to the plain `OkHttpClient`, in order. */
    var sent: seq<Request>

    constructor (conn: ConnectionStateObserver)
      ensures this.conn == conn && sent == []
    {
      this.conn := conn;
      sent := [];
    }

    /** `deleteChecked`: the `delete` helper at `/delete-checked`. */
    method DeleteChecked(serverUrl: string, outcome: Outcome) returns (r: WriteResult)
      modifies this`sent
      ensures sent == old(sent) + [LegacyDeleteRequest(LegacyUrl(serverUrl, "/delete-checked"))]
      ensures r == CatchIOOnly(outcome)
    {
      sent := sent + [LegacyDeleteRequest(LegacyUrl(serverUrl, "/delete-checked"))];
      r := CatchIOOnly(outcome);
    }

    /** `deleteAll`: also the `delete` helper at `/delete-checked`. */
    method DeleteAll(serverUrl: string, outcome: Outcome) returns (r: WriteResult)
      modifies this`sent
      ensures sent == old(sent) + [LegacyDeleteRequest(LegacyUrl(serverUrl, "/delete-checked"))]
      ensures r == CatchIOOnly(outcome)
    {
      sent := sent + [LegacyDeleteRequest(LegacyUrl(serverUrl, "/delete-checked"))];
      r := CatchIOOnly(outcome);
    }

    /** `update(item)`: a POST of the item to `/update`. */
    method Update(serverUrl: string, item: Item, outcome: Outcome) returns (r: WriteResult)
      modifies this`sent
      ensures sent == old(sent) + [PostRequest(LegacyUrl(serverUrl, "/update"), item)]
      ensures r == CatchIOOnly(outcome)
    {
      sent := sent + [PostRequest(LegacyUrl(serverUrl, "/update"), item)];
      r := CatchIOOnly(outcome);
    }

    /**
     * `all()`: GET `/current`. `payload` is the body of a 200 response as a
     * JSON object, `None` when it does not parse as one (org.json then throws
     * a `JSONException`, which is not caught).
     */
    method All(serverUrl: string, outcome: Outcome, payload: Option<JsonObject>) returns (r: FetchResult)
      modifies this`sent, conn
      ensures sent == old(sent) + [GetRequest(LegacyUrl(serverUrl, "/current"))]
      ensures outcome == Threw(IOException) ==> r == Returned(None) && !conn.connected
      ensures outcome.Threw? && outcome.e != IOException ==>
                r == Raised(outcome.e) && conn.connected == old(conn.connected)
      ensures outcome.Responded? && outcome.code != 200 ==>
                r == Returned(None) && conn.connected == old(conn.connected)
      ensures outcome == Responded(200) && payload == None ==>
                r == Raised(JsonException) && conn.connected == old(conn.connected)
      ensures outcome == Responded(200) && payload.Some? ==>
                && r.Returned? && r.list.Some? && conn.connected
                && KeyedById(r.list.value)
                && r.list.value.Keys == Ids(payload.value.Values)
                && (forall k :: k in r.list.value ==> r.list.value[k] in payload.value.Values)
                && (KeyedById(payload.value) ==> r.list.value == payload.value)
    {
      sent := sent + [GetRequest(LegacyUrl(serverUrl, "/current"))];
      match outcome
      case Threw(e) =>
        if e == IOException {
          conn.UpdateConnectionState(false);
          r := Returned(None);
        } else {
          r := Raised(e);
        }
      case Responded(code) =>
        if code != 200 {
          r := Returned(None);
        } else if payload == None {
          r := Raised(JsonException);
        } else {
          var json := payload.value;
          var keys := JsonKeyOrder(json);
          var m := DecodeSnapshot(json, keys);
          if KeyedById(json) {
            SnapshotRoundTrip(json, keys);
          }
          conn.UpdateConnectionState(true);
          r := Returned(Some(m));
        }
    }
  }
}
