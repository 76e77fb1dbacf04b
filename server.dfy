/**
 * The backend's request handlers: one shared list, a registry of push
 * subscribers, and the broadcast that follows every mutation.
 */
module ServerApi {
  import opened Items
  import opened Wire

  /** A websocket text frame carrying a serialised snapshot of the list. */
  datatype Message = Text(body: JsonObject)

  /** The three mutations the backend exposes. */
  datatype Mutation = UpdateItem(item: Item) | DeleteChecked | DeleteAll

  /** The list a mutation leaves behind. */
  function Apply(list: ItemMap, op: Mutation): (r: ItemMap)
    ensures KeyedById(list) ==> KeyedById(r)
  {
    match op
    case UpdateItem(item) => Upsert(list, item)
    case DeleteChecked => RetainUnchecked(list)
    case DeleteAll => map[]
  }

  class Server {
    /** The shared `HashMap<Uuid, ShoppingItem>`. */
    var list: ItemMap
    /**
     * The `Users` registry: each subscriber id with the frames sent on its
     * channel so far, oldest first.
     */
    var users: map<nat, seq<Message>>
    /** `NEXT_USER_ID`: the next subscriber id the counter hands out. */
    var nextUserId: nat

    /**
     * Every entry is stored under its own item's id, and every registered id
     * was issued by the counter, which starts at 1.
     */
    ghost predicate Valid()
      reads this
    {
      && KeyedById(list)
      && 1 <= nextUserId
      && forall id :: id in users ==> id < nextUserId
    }

    /**
     * Start-up: the loaded list, nobody subscribed, the counter at 1. The
     * state file is taken to hold each item under its own id, as every
     * handler stores it.
     */
    constructor (loaded: ItemMap)
      requires KeyedById(loaded)
      ensures Valid()
      ensures list == loaded && users == map[] && nextUserId == 1
    {
      list := loaded;
      users := map[];
      nextUserId := 1;
    }

    /**
     * `update`: serialise the current list once and send that same frame to
     * every registered subscriber. Send errors are ignored, as in the source.
     */
    method Update()
      requires Valid()
      modifies this`users
      ensures Valid()
      ensures users.Keys == old(users).Keys
      ensures forall id :: id in users ==> users[id] == old(users)[id] + [Text(Serialize(list))]
    {
      var reply := Text(Serialize(list));
      var pending := users.Keys;
      while pending != {}
        invariant pending <= users.Keys
        invariant users.Keys == old(users).Keys
        invariant forall id :: id in users ==>
                    users[id] == if id in pending then old(users)[id] else old(users)[id] + [reply]
        decreases pending
      {
        var id :| id in pending;
        users := users[id := users[id] + [reply]];
        pending := pending - {id};
      }
    }

    /** `update_shopping_item`: store the item under its id, then broadcast. */
    method UpdateShoppingItem(updatedItem: Item)
      requires Valid()
      modifies this`list, this`users
      ensures Valid()
      ensures list == Upsert(old(list), updatedItem)
      ensures users.Keys == old(users).Keys
      ensures forall id :: id in users ==> users[id] == old(users)[id] + [Text(Serialize(list))]
    {
      list := list[updatedItem.id := updatedItem];
      UpsertKeepsKeyedById(old(list), updatedItem);
      Update();
    }

    /**
     * `delete_checked`: keep only the unchecked entries, then broadcast.
     * `removed` is the count the handler logs.
     */
    method DeleteChecked() returns (removed: nat)
      requires Valid()
      modifies this`list, this`users
      ensures Valid()
      ensures list == RetainUnchecked(old(list))
      ensures removed == |old(list)| - |list| == |CheckedKeys(old(list))|
      ensures users.Keys == old(users).Keys
      ensures forall id :: id in users ==> users[id] == old(users)[id] + [Text(Serialize(list))]
    {
      var oldCount := |list|;
      RetainUncheckedCount(list);
      RetainUncheckedExactly(list);
      list := map k | k in list && !list[k].checked :: list[k];
      var newCount := |list|;
      removed := oldCount - newCount;
      Update();
    }

    /** `delete_all`: empty the list, then broadcast. */
    method DeleteAll()
      requires Valid()
      modifies this`list, this`users
      ensures Valid()
      ensures list == map[]
      ensures users.Keys == old(users).Keys
      ensures forall id :: id in users ==> users[id] == old(users)[id] + [Text(Serialize(list))]
    {
      list := map[];
      Update();
    }

    /** Route a mutation to its handler. */
    method Handle(op: Mutation)
      requires Valid()
      modifies this`list, this`users
      ensures Valid()
      ensures list == Apply(old(list), op)
      ensures users.Keys == old(users).Keys
      ensures forall id :: id in users ==> users[id] == old(users)[id] + [Text(Serialize(list))]
    {
      match op
      case UpdateItem(item) => UpdateShoppingItem(item);
      case DeleteChecked => var _ := DeleteChecked();
      case DeleteAll => DeleteAll();
    }

    /**
     * The registration step of `user_connected`: take the next id from the
     * counter and register an empty channel under it. The receive loop that
     * follows only waits for the socket to end; its end is `UserDisconnected`.
     */
    method UserConnected() returns (myId: nat)
      requires Valid()
      modifies this`users, this`nextUserId
      ensures Valid()
      ensures myId == old(nextUserId) && nextUserId == myId + 1
      ensures myId !in old(users)
      ensures users == old(users)[myId := []]
    {
      myId := nextUserId;
      nextUserId := nextUserId + 1;
      users := users[myId := []];
    }

    /** `user_disconnected`: drop exactly that id from the registry. */
    method UserDisconnected(myId: nat)
      requires Valid()
      modifies this`users
      ensures Valid()
      ensures users == old(users) - {myId}
    {
      users := users - {myId};
    }
  }
}
