/**
 * The Android client's synchronisation engine: the manager that reconciles
 * the local table with each pushed snapshot and forwards edits, the
 * versioned HTTP client, and the websocket listener that decodes snapshots
 * and drives the connectivity flag and the reconnect callback.
 *
 * The three classes refer to one another, as in the source, so they share a
 * module. Kotlin callbacks become object references: the listener's
 * `onListUpdate` is its manager's `HandleApiUpdate`, and its
 * `onConnectionLoss` is its API's `OnConnectionLoss`.
 */
module Client {
  import opened Wrappers
  import opened Items
  import opened Wire
  import opened Requests
  import opened Connectivity
  import opened LocalStore

  /** The `SharedPreferences` entries the API reads; `None` is an unset entry. */
  class Preferences {
    var serverUrl: Option<string>
    var userName: Option<string>
    var password: Option<string>

    constructor ()
      ensures serverUrl == None && userName == None && password == None
    {
      serverUrl, userName, password := None, None, None;
    }

    /** `serverUrlProvider`: the stored URL, or the default one. */
    function ServerUrl(): (url: string)
      reads this
      ensures serverUrl == None ==> url == DEFAULT_SERVER_URL
      ensures serverUrl.Some? ==> url == serverUrl.value
    {
      serverUrl.GetOr(DEFAULT_SERVER_URL)
    }

    /** `usernameProvider`: the stored user name, or empty. */
    function UserName(): (name: string)
      reads this
      ensures userName == None ==> name == ""
      ensures userName.Some? ==> name == userName.value
    {
      userName.GetOr("")
    }

    /** `passwordProvider`: the stored password, or empty. */
    function Password(): (word: string)
      reads this
      ensures password == None ==> word == ""
      ensures password.Some? ==> word == password.value
    {
      password.GetOr("")
    }
  }

  /** What the HTTP client saw happen, in order: a request sent, or the caller sleeping. */
  datatype TransportEvent = Sent(request: Request) | Paused(millis: nat)

  /**
   * What `connect` did: opened a socket with a new listener, or threw the
   * `IllegalArgumentException` OkHttp raises for a URL it cannot parse. Nothing
   * in `connect` or in its callers catches that exception.
   */
  datatype Connection = Opened(listener: ApiWebSocketListener) | UrlRejected

  /** The versioned HTTP client, `model/api/ShoppingListApi.kt`. */
  class ShoppingListApi {
    const prefs: Preferences
    /** The global `ConnectionStateObserver` the listeners write. */
    const conn: ConnectionStateObserver
    /** Everything handed to the transport so far. */
    var events: seq<TransportEvent>

    constructor (prefs: Preferences, conn: ConnectionStateObserver)
      ensures this.prefs == prefs && this.conn == conn && events == []
    {
      this.prefs := prefs;
      this.conn := conn;
      events := [];
    }

    /**
     * A request after `BasicAuthInterceptor`, with the credentials the
     * providers give at this moment; nothing is cached between requests.
     */
    function Authenticated(req: Request): (r: Request)
      reads prefs
      ensures r.verb == req.verb && r.url == req.url && r.body == req.body
      ensures prefs.UserName() != "" && prefs.Password() != "" ==>
                r.authorization == Some(BasicCredentials(prefs.UserName(), prefs.Password()))
      ensures prefs.UserName() == "" || prefs.Password() == "" ==> r == req
    {
      Intercept(req, prefs.UserName(), prefs.Password())
    }

    /**
     * The websocket handshake `connect` opens: a GET to `/v1/ws` under the
     * server URL, authenticated if and only if both credentials are set.
     */
    function Handshake(): (r: Request)
      reads prefs
      ensures r.verb == GET && r.url == prefs.ServerUrl() + "/v1/ws" && r.body == None
      ensures r.authorization ==
                if prefs.UserName() != "" && prefs.Password() != ""
                then Some(BasicCredentials(prefs.UserName(), prefs.Password()))
                else None
    {
      Authenticated(GetRequest(WsUrl(prefs.ServerUrl())))
    }

    /**
     * `connect`: open the push channel at the current base URL. The new
     * listener reports snapshots to `manager` and connection loss back to this
     * client. `urlAccepted` says whether OkHttp's URL parser takes the
     * handshake URL (the parser is not modelled: any stored string reaches
     * it); when it does not, the builder throws before anything is sent.
     */
    method Connect(manager: ShoppingListManager, urlAccepted: bool) returns (c: Connection)
      modifies this`events
      ensures urlAccepted ==> events == old(events) + [Sent(Handshake())]
      ensures urlAccepted ==> c.Opened? && fresh(c.listener)
      ensures urlAccepted ==> c.listener.manager == manager && c.listener.api == this
      ensures !urlAccepted ==> events == old(events) && c == UrlRejected
    {
      if urlAccepted {
        events := events + [Sent(Handshake())];
        var listener := new ApiWebSocketListener(manager, this);
        c := Opened(listener);
      } else {
        c := UrlRejected;
      }
    }

    /**
     * The loss callback `connect` installs: sleep one second, then `connect`
     * again, which throws out of the callback when the URL is rejected.
     */
    method OnConnectionLoss(manager: ShoppingListManager, urlAccepted: bool) returns (c: Connection)
      modifies this`events
      ensures urlAccepted ==> events == old(events) + [Paused(RECONNECT_DELAY_MS), Sent(Handshake())]
      ensures urlAccepted ==> c.Opened? && fresh(c.listener)
      ensures urlAccepted ==> c.listener.manager == manager && c.listener.api == this
      ensures !urlAccepted ==> events == old(events) + [Paused(RECONNECT_DELAY_MS)] && c == UrlRejected
    {
      events := events + [Paused(RECONNECT_DELAY_MS)];
      c := Connect(manager, urlAccepted);
    }

    /** `deleteChecked`: a DELETE to `/v1/delete-checked`; nothing escapes. */
    method DeleteChecked(outcome: Outcome) returns (r: WriteResult)
      modifies this`events
      ensures events == old(events) + [Sent(Authenticated(DeleteRequest(DeleteCheckedUrl(prefs.ServerUrl()))))]
      ensures r == SwallowAll(outcome)
    {
      events := events + [Sent(Authenticated(DeleteRequest(DeleteCheckedUrl(prefs.ServerUrl()))))];
      r := SwallowAll(outcome);
    }

    /** `deleteAll`: also a DELETE to `/v1/delete-checked`; nothing escapes. */
    method DeleteAll(outcome: Outcome) returns (r: WriteResult)
      modifies this`events
      ensures events == old(events) + [Sent(Authenticated(DeleteRequest(DeleteCheckedUrl(prefs.ServerUrl()))))]
      ensures r == SwallowAll(outcome)
    {
      events := events + [Sent(Authenticated(DeleteRequest(DeleteCheckedUrl(prefs.ServerUrl()))))];
      r := SwallowAll(outcome);
    }

    /** `update(item)`: a POST of the item to `/v1/update`; nothing escapes. */
    method Update(item: Item, outcome: Outcome) returns (r: WriteResult)
      modifies this`events
      ensures events == old(events) + [Sent(Authenticated(PostRequest(UpdateUrl(prefs.ServerUrl()), item)))]
      ensures r == SwallowAll(outcome)
    {
      events := events + [Sent(Authenticated(PostRequest(UpdateUrl(prefs.ServerUrl()), item)))];
      r := SwallowAll(outcome);
    }
  }

  /** `ShoppingListManager`: the reconciler between snapshots, the local table and the API. */
  class ShoppingListManager {
    const repository: ShoppingItemTable
    const api: ShoppingListApi

    constructor (repository: ShoppingItemTable, api: ShoppingListApi)
      ensures this.repository == repository && this.api == api
    {
      this.repository := repository;
      this.api := api;
    }

    /**
     * `handleApiUpdate`: drop the rows whose id the snapshot lacks, then
     * upsert every snapshot item. The table ends up reconciled to the
     * snapshot whatever it held before; for a snapshot keyed by id it becomes
     * that snapshot exactly.
     */
    method HandleApiUpdate(listUpdate: ItemMap)
      requires repository.Valid()
      modifies repository
      ensures repository.Valid()
      ensures ReconciledTo(repository.rows, listUpdate)
      ensures KeyedById(listUpdate) ==> repository.rows == listUpdate
    {
      var items := listUpdate.Values;
      repository.DeleteAllExcept(items);
      repository.InsertAll(items);
      if KeyedById(listUpdate) {
        ReconciledToKeyedIsSnapshot(repository.rows, listUpdate);
      }
    }

    /** `update(item)`: only forwarded; the local table is not touched. */
    method Update(item: Item, outcome: Outcome) returns (r: WriteResult)
      modifies api`events
      ensures api.events == old(api.events) + [Sent(api.Authenticated(PostRequest(UpdateUrl(api.prefs.ServerUrl()), item)))]
      ensures r == SwallowAll(outcome)
      ensures unchanged(repository)
    {
      r := api.Update(item, outcome);
    }

    /** `deleteAll`: only forwarded; the local table is not touched. */
    method DeleteAll(outcome: Outcome) returns (r: WriteResult)
      modifies api`events
      ensures api.events == old(api.events) + [Sent(api.Authenticated(DeleteRequest(DeleteCheckedUrl(api.prefs.ServerUrl()))))]
      ensures r == SwallowAll(outcome)
      ensures unchanged(repository)
    {
      r := api.DeleteAll(outcome);
    }

    /** `deleteChecked`: only forwarded; the local table is not touched. */
    method DeleteChecked(outcome: Outcome) returns (r: WriteResult)
      modifies api`events
      ensures api.events == old(api.events) + [Sent(api.Authenticated(DeleteRequest(DeleteCheckedUrl(api.prefs.ServerUrl()))))]
      ensures r == SwallowAll(outcome)
      ensures unchanged(repository)
    {
      r := api.DeleteChecked(outcome);
    }

    /** `messages()`: exactly the repository's `all()` view, one item per stored id. */
    function Messages(): (r: set<Item>)
      requires repository.Valid()
      reads this, repository
      ensures r == repository.All()
      ensures forall x :: x in r <==> x.id in repository.rows && repository.rows[x.id] == x
    {
      repository.All()
    }
  }

  /**
   * `ApiWebSocketListener`: the push channel's callbacks. The flag it writes
   * is the one global `ConnectionStateObserver`, reached through its API, so a
   * listener and the listener its reconnect creates write the same flag.
   */
  class ApiWebSocketListener {
    const manager: ShoppingListManager
    const api: ShoppingListApi

    constructor (manager: ShoppingListManager, api: ShoppingListApi)
      ensures this.manager == manager && this.api == api
    {
      this.manager := manager;
      this.api := api;
    }

    /** `onOpen`: the flag becomes true. */
    method OnOpen()
      modifies api.conn
      ensures api.conn.connected
    {
      api.conn.UpdateConnectionState(true);
    }

    /**
     * `onMessage`: decode the object into a map keyed by each value's id and
     * hand the whole map to `handleApiUpdate` once.
     */
    method OnMessage(json: JsonObject)
      requires manager.repository.Valid()
      modifies manager.repository
      ensures manager.repository.Valid()
      ensures ReconciledTo(manager.repository.rows, json)
      ensures KeyedById(json) ==> manager.repository.rows == json
    {
      var keys := JsonKeyOrder(json);
      var decoded := DecodeSnapshot(json, keys);
      if KeyedById(json) {
        SnapshotRoundTrip(json, keys);
      }
      manager.HandleApiUpdate(decoded);
      ReconciledThroughDecoding(manager.repository.rows, decoded, json);
    }

    /**
     * `onFailure`: the flag becomes false and the loss callback runs once; a
     * rejected URL makes the callback, and so `onFailure`, throw.
     */
    method OnFailure(urlAccepted: bool) returns (next: Connection)
      modifies api.conn, api`events
      ensures !api.conn.connected
      ensures urlAccepted ==> api.events == old(api.events) + [Paused(RECONNECT_DELAY_MS), Sent(api.Handshake())]
      ensures urlAccepted ==> next.Opened? && fresh(next.listener)
      ensures urlAccepted ==> next.listener.manager == manager && next.listener.api == api
      ensures !urlAccepted ==> api.events == old(api.events) + [Paused(RECONNECT_DELAY_MS)] && next == UrlRejected
    {
      api.conn.UpdateConnectionState(false);
      next := api.OnConnectionLoss(manager, urlAccepted);
    }

    /**
     * `onClosing`: the flag becomes true, as the source sets it, and the loss
     * callback runs once; a rejected URL makes it throw.
     */
    method OnClosing(urlAccepted: bool) returns (next: Connection)
      modifies api.conn, api`events
      ensures api.conn.connected
      ensures urlAccepted ==> api.events == old(api.events) + [Paused(RECONNECT_DELAY_MS), Sent(api.Handshake())]
      ensures urlAccepted ==> next.Opened? && fresh(next.listener)
      ensures urlAccepted ==> next.listener.manager == manager && next.listener.api == api
      ensures !urlAccepted ==> api.events == old(api.events) + [Paused(RECONNECT_DELAY_MS)] && next == UrlRejected
    {
      api.conn.UpdateConnectionState(true);
      next := api.OnConnectionLoss(manager, urlAccepted);
    }
  }

  /** Reconciling with the decoded map is reconciling with the object it came from. */
  lemma ReconciledThroughDecoding(rows: ItemMap, decoded: ItemMap, json: JsonObject)
    requires KeyedById(decoded)
    requires decoded.Keys == Ids(json.Values)
    requires forall k :: k in decoded ==> decoded[k] in json.Values
    requires ReconciledTo(rows, decoded)
    ensures ReconciledTo(rows, json)
  {
    forall k | k in Ids(decoded.Values) ensures k in decoded {
      var v :| v in decoded.Values && v.id == k;
      var key :| key in decoded && decoded[key] == v;
    }
    forall k | k in decoded ensures k in Ids(decoded.Values) {
      assert decoded[k] in decoded.Values;
    }
    forall k | k in rows ensures rows[k] in json.Values {
      var key :| key in decoded && decoded[key] == rows[k];
    }
  }
}
