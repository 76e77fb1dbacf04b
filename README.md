# justshop list synchronisation, modelled in Dafny

justshop is a shared shopping list. A Rust backend holds one list of items
in memory. The list is a map from item id to item, where an item is
`{id, content, checked, timestamp}`. The backend exposes three mutations:
upsert one item, delete the checked items, and delete all items. After each
mutation it pushes the whole list, as one JSON snapshot, to every websocket
subscriber.

An Android client keeps a local Room table. It replaces that table's
contents with each snapshot it receives. Client edits and deletes are only
forwarded to the server; the local table changes only when the resulting
snapshot comes back. A global boolean tracks connectivity: the websocket
listener writes it, and so does the older polling client.

The model has these modules:

- `Items`: the item record and the map algebra both ends use.
- `Wire`: the snapshot object and the client's decoding loop.
- `ServerApi`: the server store, the subscriber registry and the broadcast.
- `LocalStore`: the client table.
- `Connectivity`: the flag.
- `Requests`: URLs, Basic authentication and error policies.
- `Client`: the manager, the versioned API and the websocket listener.
- `LegacyApi`: the unversioned client.
- `Sync`: both ends composed.

The headline result is `Sync.ServerMutationReachesClient`. Suppose a server
mutation's broadcast frame is delivered to a subscriber's listener and
applied. Then the client's table equals the server's list. This holds
whatever the table held before, and whatever order the JSON parser visits
the members in.

It needs one condition on the server: every entry is stored under its own
item's id. The server invariant `Server.Valid()` carries this condition. The
constructor demands it of the loaded list, and every handler keeps it. The
condition is necessary. The client keys by the value's id, not by the member
name, so an entry stored under a foreign key would come back under a
different key.

Inputs that come from outside are parameters of the model:

- the HTTP outcome (a status code or an exception kind);
- a 200 body's decoded JSON object;
- the enumeration order of a JSON object, chosen by `Wire.JsonKeyOrder`;
- the order in which a `HashMap` or collection is iterated (a `:|` choice).

The model keeps these quirks of the code, as the source has them:

- `onClosing` sets the flag to true.
- Both clients' `deleteAll` targets `/delete-checked`, although the server
  also routes `/v1/delete-all` (`backend/src/main.rs:64`).
- The legacy `delete` helper never sets the DELETE method, so OkHttp's
  default, GET, is sent.

## Model

| member | source | states |
|---|---|---|
| Items.UpsertKeepsKeyedById | backend/src/api.rs:33-35 | inserting under `updated_item.id` keeps every key equal to its value's id; afterwards `list[x.id] == x` and every other entry is unchanged |
| Items.UpsertSize | app/app/src/main/java/nz/eloque/justshop/model/shopping_list/ShoppingItemDao.kt:12-13 | an upsert adds one entry when the id is new and none otherwise |
| Items.UpsertIdempotent | app/app/src/main/java/nz/eloque/justshop/model/shopping_list/ShoppingItemDao.kt:12-13 | upserting the same item twice is upserting it once |
| Items.RetainUncheckedExactly | backend/src/api.rs:46 | `retain(!checked)` keeps an id exactly when it was present and unchecked, leaves the kept entries untouched, and preserves keying by id |
| Items.RetainUncheckedIdempotent | backend/src/api.rs:46 | deleting the checked items twice is deleting them once |
| Items.RetainUncheckedCount | backend/src/api.rs:45-48 | the logged count `old_count - new_count` cannot underflow and equals the number of checked entries |
| Wire.Decode | app/app/src/main/java/nz/eloque/justshop/model/api/ApiWebSocketListener.kt:30-34 | the map the decoding loop builds over a key order; every entry sits under its own item's id, and the JSON member names are ignored |
| Wire.DecodeStep | app/app/src/main/java/nz/eloque/justshop/model/api/ApiWebSocketListener.kt:32-33 | one loop iteration stores the member's value under the value's id |
| Wire.DecodeHasId | app/app/src/main/java/nz/eloque/justshop/model/api/ApiWebSocketListener.kt:30-34 | the id of every visited value is a key of the decoded map |
| Wire.DecodeSource | app/app/src/main/java/nz/eloque/justshop/model/api/ApiWebSocketListener.kt:30-34 | every decoded entry is the value of some visited member |
| Wire.DecodeLastWins | app/app/src/main/java/nz/eloque/justshop/model/api/ApiWebSocketListener.kt:31-34 | of two values with the same id, the one visited later in iteration order wins |
| Wire.JsonKeyOrder | app/app/src/main/java/nz/eloque/justshop/model/api/ApiWebSocketListener.kt:31 | `json.keys()` yields every member name exactly once, in some order |
| Wire.DecodeSnapshot | app/app/src/main/java/nz/eloque/justshop/model/api/ApiWebSocketListener.kt:30-34 | the loop computes `Decode`; the result is keyed by id, holds exactly the ids of the object's values, and holds only those values |
| Wire.DecodedFromValues | app/app/src/main/java/nz/eloque/justshop/model/api/ApiWebSocketListener.kt:30-34 | whatever the member order, the decoded keys are the ids of the object's values, and every entry is one of those values |
| Wire.IdDecoded | app/app/src/main/java/nz/eloque/justshop/model/api/ApiWebSocketListener.kt:30-34 | each id carried by a value of the object is a key of the decoded map |
| Wire.SnapshotRoundTrip | backend/src/api.rs:23-26 | decoding the server's serialised list gives back the list, in any member order, when the list is keyed by id |
| Wire.RoundTripAt | app/app/src/main/java/nz/eloque/justshop/model/api/ApiWebSocketListener.kt:32-33 | each entry of a keyed list survives serialisation and decoding |
| Wire.ForEach | app/app/src/main/java/nz/eloque/justshop/model/api/ShoppingListApi.kt:139-146 | the counter loop visits indices `0..length-1` in order, each exactly once; the legacy copy at `model/ShoppingListApi.kt:110-117` is the same loop |
| ServerApi.Apply | backend/src/api.rs:33-58 | each of the three mutations preserves keying by id |
| ServerApi.Server.constructor | backend/src/api.rs:15 | the server starts with the loaded list, no subscribers, and the id counter at 1; the loaded list must be keyed by id, and the invariant holds from then on |
| ServerApi.Server.Update | backend/src/api.rs:18-28 | every subscriber registered at broadcast time gets exactly one new frame, and every one of them gets the same serialisation of the current list; the registry keys are unchanged |
| ServerApi.Server.UpdateShoppingItem | backend/src/api.rs:32-40 | the list becomes the upsert of the item under its id, then it is broadcast |
| ServerApi.Server.DeleteChecked | backend/src/api.rs:43-53 | the list keeps only unchecked entries; the returned count is old size minus new size, which is the number of checked entries; then it is broadcast |
| ServerApi.Server.DeleteAll | backend/src/api.rs:56-64 | the list becomes empty, then it is broadcast |
| ServerApi.Server.Handle | backend/src/api.rs:32-64 | any mutation leaves `Apply(old list, op)`, keeps the invariant (list keyed by id, registered ids below the counter), and broadcasts the new list once to every subscriber |
| ServerApi.Server.UserConnected | backend/src/api.rs:69-87 | the new id is the counter's old value; it differs from every registered id; the counter advances; exactly that id is added with an empty channel |
| ServerApi.Server.UserDisconnected | backend/src/api.rs:108-111 | exactly that id leaves the registry; every other subscriber stays |
| Connectivity.ConnectionStateObserver.constructor | app/app/src/main/java/nz/eloque/justshop/model/ConnectionStateObserver.kt:8 | the flag starts out false |
| Connectivity.ConnectionStateObserver.UpdateConnectionState | app/app/src/main/java/nz/eloque/justshop/model/ConnectionStateObserver.kt:14-16 | after `updateConnectionState(b)` the flag, as `isConnected()` reads it, is `b`, and nothing else is written |
| Connectivity.ConnectionStateObserver.UpdateAll | app/app/src/main/java/nz/eloque/justshop/model/ConnectionStateObserver.kt:14-16 | successive `updateConnectionState` calls leave the flag at `Replay` of the updates: the last update, or the old value when there was none |
| Connectivity.LastUpdateWins | app/app/src/main/java/nz/eloque/justshop/model/ConnectionStateObserver.kt:14-16 | `Replay`, the flag after successive updates (what `UpdateAll` computes), is the last update; with no update it is the initial value |
| Connectivity.RepeatedUpdateIsIdle | app/app/src/main/java/nz/eloque/justshop/model/ConnectionStateObserver.kt:14-16 | emitting the value already held changes nothing, also before any update, when the held value is the initial one |
| LocalStore.ReconciledToKeyedIsSnapshot | app/app/src/main/java/nz/eloque/justshop/model/ShoppingListManager.kt:18-23 | a table reconciled to a snapshot keyed by id is exactly that snapshot |
| LocalStore.ReconciledIndependentOfPrior | app/app/src/main/java/nz/eloque/justshop/model/ShoppingListManager.kt:21-22 | for a keyed snapshot, the table after reconciling does not depend on what it held before, so applying the snapshot twice is applying it once |
| LocalStore.AllOneRowPerId | app/app/src/main/java/nz/eloque/justshop/model/shopping_list/ShoppingItemDao.kt:15-16 | `all()` holds at most one row per id, because the id is the primary key |
| LocalStore.ShoppingItemTable.Insert | app/app/src/main/java/nz/eloque/justshop/model/shopping_list/ShoppingItemDao.kt:12-13 | the REPLACE insert upserts by primary key |
| LocalStore.ShoppingItemTable.InsertAll | app/app/src/main/java/nz/eloque/justshop/model/ShoppingListManager.kt:22 | the collection insert adds exactly the given ids; each such row is one of the given items; other rows are untouched |
| LocalStore.ShoppingItemTable.DeleteAll | app/app/src/main/java/nz/eloque/justshop/model/shopping_list/ShoppingItemDao.kt:18-19 | the table becomes empty |
| LocalStore.ShoppingItemTable.DeleteAllExcept | app/app/src/main/java/nz/eloque/justshop/model/ShoppingListManager.kt:21 | only the rows whose id is among the given items' ids remain, and they are unchanged |
| LocalStore.ShoppingItemTable.All | app/app/src/main/java/nz/eloque/justshop/model/shopping_list/ShoppingItemDao.kt:15-16 | an item is returned exactly when it is the row stored under its id |
| Requests.BasicCredentials | app/app/src/main/java/nz/eloque/justshop/model/api/ShoppingListApi.kt:31 | the user-pass string is the user, a colon, and the password (section 2 of RFC 7617) |
| Requests.SplitAtFirstColon | app/app/src/main/java/nz/eloque/justshop/model/api/ShoppingListApi.kt:31 | the receiving side of section 2 of RFC 7617: a split result has a colon-free user part and reassembles to the input; there is no result exactly when the input has no colon |
| Requests.SplitAfterColonFree | app/app/src/main/java/nz/eloque/justshop/model/api/ShoppingListApi.kt:31 | splitting `u ":" p` at the first colon gives `u` and `p` when `u` has no colon |
| Requests.CredentialsReadBack | app/app/src/main/java/nz/eloque/justshop/model/api/ShoppingListApi.kt:31 | the user-pass string built from a colon-free user name is read back as the same user name and password |
| Requests.Latin1 | app/app/src/main/java/nz/eloque/justshop/model/api/ShoppingListApi.kt:31 | the ISO-8859-1 step of `Credentials.basic`: same length, every character up to U+00FF kept, every other one sent as `'?'` |
| Requests.Latin1Concat | app/app/src/main/java/nz/eloque/justshop/model/api/ShoppingListApi.kt:31 | the encoding distributes over concatenation |
| Requests.Latin1ColonFree | app/app/src/main/java/nz/eloque/justshop/model/api/ShoppingListApi.kt:31 | the encoding of a colon-free string is colon-free |
| Requests.Latin1Identity | app/app/src/main/java/nz/eloque/justshop/model/api/ShoppingListApi.kt:31 | the encoding changes a string exactly when one of its characters lies above U+00FF |
| Requests.Latin1Credentials | app/app/src/main/java/nz/eloque/justshop/model/api/ShoppingListApi.kt:31 | the encoded user-pass string is the encoded user, a colon, and the encoded password |
| Requests.SentCredentialsReadBack | app/app/src/main/java/nz/eloque/justshop/model/api/ShoppingListApi.kt:31 | from the bytes actually sent, an RFC 7617 receiver (section 2) reads a colon-free user name and the password back as their ISO-8859-1 forms, which are the originals exactly when no character lies above U+00FF |
| Requests.NonLatin1UserArrivesAsQuestionMark | app/app/src/main/java/nz/eloque/justshop/model/api/ShoppingListApi.kt:31 | the user name "Ł" produces the same bytes as "?", and an RFC 7617 receiver (section 2) reads it as "?" |
| Requests.ColonInUserIsAmbiguous | app/app/src/main/java/nz/eloque/justshop/model/api/ShoppingListApi.kt:30-31 | the pairs `("a:b", "c")` and `("a", "b:c")` give the same header, which reads back as the second pair, because a colon in the user name is not rejected |
| Requests.Intercept | app/app/src/main/java/nz/eloque/justshop/model/api/ShoppingListApi.kt:26-40 | verb, URL and body pass through; with both credentials non-empty the header is `Basic` of those credentials; otherwise the request goes on as it came |
| Requests.InterceptAttachesIffBothNonEmpty | app/app/src/main/java/nz/eloque/justshop/model/api/ShoppingListApi.kt:30-38 | an `Authorization` header is attached if and only if both credentials are non-empty; otherwise the request goes on unchanged; nothing else in the request changes |
| Requests.BaseUrl | app/app/src/main/java/nz/eloque/justshop/model/api/ShoppingListApi.kt:52-54 | the base URL is the server URL followed by `/v1` |
| Requests.VersionedEndpoints | app/app/src/main/java/nz/eloque/justshop/model/api/ShoppingListApi.kt:65-98 | connect, update and both deletes target `/v1/ws`, `/v1/update` and `/v1/delete-checked` under the server URL |
| Requests.PostRequest | app/app/src/main/java/nz/eloque/justshop/model/api/ShoppingListApi.kt:108-115 | the `post` helper (in both clients) builds a POST to the URL carrying the item, with no header yet |
| Requests.DeleteRequest | app/app/src/main/java/nz/eloque/justshop/model/api/ShoppingListApi.kt:118-124 | the versioned `delete` helper builds a DELETE to the URL with no body, in contrast to the legacy helper |
| Requests.GetRequest | app/app/src/main/java/nz/eloque/justshop/model/api/ShoppingListApi.kt:127-133 | the `get` helper (in both clients) builds a GET to the URL with no body |
| Requests.LegacyDeleteRequest | app/app/src/main/java/nz/eloque/justshop/model/ShoppingListApi.kt:90-95 | the legacy `delete` helper's request is not a DELETE: it is the builder default, GET, with no body |
| Requests.SwallowAll | app/app/src/main/java/nz/eloque/justshop/model/api/ShoppingListApi.kt:73-105 | the versioned write calls never let an exception out: every exception is logged; only a 200 succeeds silently; a non-200 code is only logged |
| Requests.CatchIOOnly | app/app/src/main/java/nz/eloque/justshop/model/ShoppingListApi.kt:22-54 | the legacy write calls let an exception out, of the kind thrown, exactly when it is not an `IOException`; an `IOException` is logged; codes are handled as in the versioned client |
| Client.Preferences.ServerUrl | app/app/src/main/java/nz/eloque/justshop/model/api/ShoppingListApi.kt:47 | the stored server URL, or `https://justshop.eloque.nz` when unset |
| Client.Preferences.UserName | app/app/src/main/java/nz/eloque/justshop/model/api/ShoppingListApi.kt:48 | the stored user name, or empty when unset |
| Client.Preferences.Password | app/app/src/main/java/nz/eloque/justshop/model/api/ShoppingListApi.kt:49 | the stored password, or empty when unset |
| Client.ShoppingListApi.Authenticated | app/app/src/main/java/nz/eloque/justshop/model/api/ShoppingListApi.kt:57-59 | a request through the client's interceptor: verb, URL and body unchanged; the header is attached from the preferences as they are at this call, exactly when both are non-empty |
| Client.ShoppingListApi.Handshake | app/app/src/main/java/nz/eloque/justshop/model/api/ShoppingListApi.kt:63-65 | the handshake is a GET to the server URL plus `/v1/ws` with no body; its header is `Basic` of the current credentials when both are set, and absent otherwise |
| Client.ShoppingListApi.Connect | app/app/src/main/java/nz/eloque/justshop/model/api/ShoppingListApi.kt:61-71 | with a URL OkHttp accepts: one handshake to the `/v1/ws` URL, with the credentials as they are now, and a new listener that reports to the given manager and to this client; with a rejected URL: nothing is sent, no listener is made, and the `IllegalArgumentException` escapes |
| Client.ShoppingListApi.OnConnectionLoss | app/app/src/main/java/nz/eloque/justshop/model/api/ShoppingListApi.kt:66-69 | the loss callback sleeps 1000 ms and then makes exactly one new connect, which either opens or throws out of the callback with nothing sent |
| Client.ShoppingListApi.DeleteChecked | app/app/src/main/java/nz/eloque/justshop/model/api/ShoppingListApi.kt:73-82 | one authenticated DELETE to `/v1/delete-checked`; the result follows the swallow-all policy |
| Client.ShoppingListApi.DeleteAll | app/app/src/main/java/nz/eloque/justshop/model/api/ShoppingListApi.kt:84-93 | also one authenticated DELETE to `/v1/delete-checked`; the result follows the swallow-all policy |
| Client.ShoppingListApi.Update | app/app/src/main/java/nz/eloque/justshop/model/api/ShoppingListApi.kt:95-105 | one authenticated POST of the item to `/v1/update`; the result follows the swallow-all policy |
| Client.ShoppingListManager.HandleApiUpdate | app/app/src/main/java/nz/eloque/justshop/model/ShoppingListManager.kt:18-23 | deleteAllExcept and then insert leave the local ids exactly the ids of the snapshot's values, each row one of those values (server wins); for a snapshot keyed by id the table becomes the snapshot |
| Client.ShoppingListManager.Update | app/app/src/main/java/nz/eloque/justshop/model/ShoppingListManager.kt:26-28 | the item is only forwarded as one POST; the local table is unchanged |
| Client.ShoppingListManager.Messages | app/app/src/main/java/nz/eloque/justshop/model/ShoppingListManager.kt:30 | exactly the repository's `all()` view |
| Client.ShoppingListManager.DeleteAll | app/app/src/main/java/nz/eloque/justshop/model/ShoppingListManager.kt:32-34 | only forwarded as one request; the local table is unchanged |
| Client.ShoppingListManager.DeleteChecked | app/app/src/main/java/nz/eloque/justshop/model/ShoppingListManager.kt:36-38 | only forwarded as one request; the local table is unchanged |
| Client.ApiWebSocketListener.OnOpen | app/app/src/main/java/nz/eloque/justshop/model/api/ApiWebSocketListener.kt:21-26 | the one global connectivity flag (the API's observer) becomes true |
| Client.ApiWebSocketListener.OnMessage | app/app/src/main/java/nz/eloque/justshop/model/api/ApiWebSocketListener.kt:27-36 | the object is decoded and handed once, whole, to `handleApiUpdate`; the table ends reconciled to the object's values, and equals the object when it is keyed by id |
| Client.ApiWebSocketListener.OnFailure | app/app/src/main/java/nz/eloque/justshop/model/api/ApiWebSocketListener.kt:38-44 | the flag becomes false, and the loss callback runs exactly once: one pause and one new handshake, or, with a rejected URL, the pause and then the escaping exception |
| Client.ApiWebSocketListener.OnClosing | app/app/src/main/java/nz/eloque/justshop/model/api/ApiWebSocketListener.kt:46-52 | the flag becomes true, as the source sets it, and the loss callback runs exactly once; with a rejected URL only the pause happens and the exception escapes |
| Client.ReconciledThroughDecoding | app/app/src/main/java/nz/eloque/justshop/model/api/ApiWebSocketListener.kt:34-35 | reconciling with the decoded map is reconciling with the object it was decoded from |
| LegacyApi.LegacyShoppingListApi.DeleteChecked | app/app/src/main/java/nz/eloque/justshop/model/ShoppingListApi.kt:22-31 | one GET (the `delete` helper) to the unversioned `/delete-checked`; only an `IOException` is caught |
| LegacyApi.LegacyShoppingListApi.DeleteAll | app/app/src/main/java/nz/eloque/justshop/model/ShoppingListApi.kt:33-42 | also one GET to the unversioned `/delete-checked`; only an `IOException` is caught |
| LegacyApi.LegacyShoppingListApi.Update | app/app/src/main/java/nz/eloque/justshop/model/ShoppingListApi.kt:44-54 | one POST of the item to the unversioned `/update`; only an `IOException` is caught |
| LegacyApi.LegacyShoppingListApi.All | app/app/src/main/java/nz/eloque/justshop/model/ShoppingListApi.kt:56-77 | GET `/current`. An `IOException` gives null and sets the flag false. Any other exception escapes and leaves the flag alone. A non-200 code gives null and leaves the flag alone. An unparsable 200 body raises a JSON exception. A parsed 200 body gives a map keyed by id, holding exactly the ids of the body's values, and sets the flag true |
| Sync.SyncRoundTrip | backend/src/api.rs:23-28 | for any mutation and any member order, a table reconciled to the decoded broadcast equals the server's new list |
| Sync.ServerMutationReachesClient | backend/src/api.rs:18-28 | from a valid server (its list keyed by id), a mutation and then delivery of the broadcast frame to a subscriber's listener leave the server valid and the client table equal to the server list |
| Sync.ClientEditRoundTrip | app/app/src/main/java/nz/eloque/justshop/model/ShoppingListManager.kt:26-28 | a client edit reaches the table only through the server: after the POST, the upsert and the broadcast, the table equals the server list and holds the edited item |

## Left out

- Concurrency. The model leaves out the server's `RwLock`, its `mpsc` channels and `tokio::spawn`, and the client's `CoroutineScope.launch`. Each handler and each launched block is one atomic step. So the interleaving of the asynchronous flag write with the loss callback is not modelled.
- `Thread.sleep(1000)` is recorded as a `Paused(1000)` transport event. No time passes in the model.
- OkHttp, websocket framing and serde/org.json text are left out, and so is the base64 step of `Credentials.basic` (its ISO-8859-1 step is `Requests.Latin1`). A JSON object is modelled as its parsed map from member name to item. Serialisation is that map itself.
- A malformed frame in `onMessage` (its text is not an object, or a member is not an item) is not modelled. The listener takes an already-parsed object.
- `messages()` returns a Room `Flow` that re-emits on every change. The model returns the current snapshot only.
- `scheduleReconnect` is empty and never called, so it has no behaviour to model. Reconnection is the `OnConnectionLoss` callback.
- `Provider<ShoppingListManager>.get()` is resolved once: `Connect` takes the manager as an argument.
- ServerApi.Server.constructor: the state file read by `load_state` (`backend/src/main.rs:102-112`) is taken to hold each item under its own id. The loader itself accepts any map. Every handler stores items under their own id, so a file the server saved itself meets the condition.
- Client.ShoppingListApi.Connect: OkHttp's URL parser is not modelled. Whether it accepts the stored server URL is an input, `urlAccepted`. The settings screen stores any string, so a rejection is possible.
- Client.ShoppingListApi.OnConnectionLoss, Client.ApiWebSocketListener.OnFailure and Client.ApiWebSocketListener.OnClosing: they take the same `urlAccepted` input and pass it on to `Connect`.
- The write calls build their request inside the `try`, so a rejected URL is one more exception there. The model records a `Sent` entry for every write call. An entry whose outcome is `Threw(...)` may stand for a request that was never built.
- Both HTTP clients take the connectivity observer as a constructor argument. In the source it is one global `object`. No contract relates the two clients' flags, so a composition of both must pass the same observer to each.
- The backend checks no credentials. No route in `backend/src/main.rs:38-74` reads the `Authorization` header. So the Basic header matters only to whatever sits in front of the backend at the server URL, and the read-back lemmas describe that receiver, not the backend.
- Requests.CredentialsReadBack: holds of the user-pass characters. The bytes sent are their ISO-8859-1 form, with `'?'` for anything beyond U+00FF. `Requests.SentCredentialsReadBack` states the round trip for those bytes, and `Requests.NonLatin1UserArrivesAsQuestionMark` shows the loss.
- Requests.BasicCredentials: neither client rejects a colon in the user name, although section 2 of RFC 7617 forbids one. Such a header cannot be read back as the pair it was built from. `Requests.ColonInUserIsAmbiguous` exhibits this case, and `Requests.CredentialsReadBack` covers only colon-free user names.
- ServerApi.Server.UserConnected: the `usize` counter is unbounded here, so its wrap-around after 2^64 connections is not modelled. The model proves a new id differs from every registered id, not from every id ever issued.
- `Update` ignores send errors on a closed channel, as the source does. So a frame is counted as sent even when nobody receives it.
- The receive loop of `user_connected` only waits for the socket to end. It is modelled by the caller calling `UserDisconnected`.
- `backend/src/main.rs` (route wiring, state-file load/save, the periodic save loop) and `backend/src/state.rs` are not part of this model. `Server.Handle` stands for the routing of the three mutation endpoints.
- The clock default for `timestamp` is left out. The timestamp is an opaque 64-bit integer.
- The repository interface lacks `deleteAllExcept` and a collection `insert`, although the manager calls both. They are modelled at their evident meaning:
  - drop the rows whose id is not among the items' ids;
  - upsert each item.
- The one-to-one pass-through repository is the same table as the DAO.
- Client.ShoppingListManager.HandleApiUpdate: no contract states on its own that deleteAllExcept runs before insert. That order is only the order of the two calls in the body.
- The Compose UI, the view models, dependency injection and the Room database singletons are not part of this model.
