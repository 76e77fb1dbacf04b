/**
 * Both ends together: a server mutation, the broadcast it triggers, and the
 * client applying the frame it received. Afterwards the client's table is the
 * server's list.
 */
module Sync {
  import opened Wrappers
  import opened Items
  import opened Wire
  import opened Requests
  import opened ServerApi
  import opened LocalStore
  import opened Client

  /**
   * Whatever the mutation and whatever order the client's parser visits the
   * members in, a table reconciled to the decoded broadcast is the server's
   * new list.
   */
  lemma SyncRoundTrip(list: ItemMap, op: Mutation, keys: seq<Uuid>, rows: ItemMap)
    requires KeyedById(list)
    requires Enumerates(keys, Serialize(Apply(list, op)))
    requires ReconciledTo(rows, Decode(Serialize(Apply(list, op)), keys))
    ensures rows == Apply(list, op)
  {
    SnapshotRoundTrip(Apply(list, op), keys);
    ReconciledToKeyedIsSnapshot(rows, Apply(list, op));
  }

  /**
   * A server mutation followed by delivery of the broadcast frame to one
   * subscriber's listener leaves that client's table equal to the server's list.
   */
  method ServerMutationReachesClient(server: Server, op: Mutation, subscriber: nat, listener: ApiWebSocketListener)
    requires server.Valid()
    requires subscriber in server.users
    requires listener.manager.repository.Valid()
    modifies server`list, server`users, listener.manager.repository
    ensures server.Valid()
    ensures server.list == Apply(old(server.list), op)
    ensures listener.manager.repository.Valid()
    ensures listener.manager.repository.rows == server.list
  {
    server.Handle(op);
    var outbox := server.users[subscriber];
    var frame := outbox[|outbox| - 1];
    listener.OnMessage(frame.body);
  }

  /**
   * A client edit: the manager forwards the item and leaves its table alone;
   * the server stores the POSTed item and broadcasts; the client applies the
   * frame. Only then does the client's table hold the edit.
   */
  method ClientEditRoundTrip(listener: ApiWebSocketListener, server: Server, subscriber: nat, item: Item)
    requires server.Valid()
    requires subscriber in server.users
    requires listener.manager.repository.Valid()
    modifies listener.manager.api`events, server`list, server`users, listener.manager.repository
    ensures server.Valid()
    ensures server.list == Upsert(old(server.list), item)
    ensures listener.manager.repository.rows == server.list
    ensures item.id in listener.manager.repository.rows && listener.manager.repository.rows[item.id] == item
  {
    var manager := listener.manager;
    ghost var before := manager.repository.rows;
    var _ := manager.Update(item, Responded(200));
    assert manager.repository.rows == before;
    var request := manager.api.events[|manager.api.events| - 1].request;
    assert request.body == Some(item);
    server.UpdateShoppingItem(request.body.value);
    var outbox := server.users[subscriber];
    listener.OnMessage(outbox[|outbox| - 1].body);
  }
}
