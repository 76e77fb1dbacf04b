/**
 * The on-device table `shopping_items`, keyed by the item id (its primary
 * key), as the DAO and the repository that passes straight through to it
 * expose it.
 */
module LocalStore {
  import opened Items

  /**
   * `rows` is the local table after reconciling with `snapshot`: it holds
   * exactly the ids of the snapshot's items, and each row is one of those
   * items, stored under its own id. It does not mention the rows held before.
   */
  ghost predicate ReconciledTo(rows: ItemMap, snapshot: ItemMap) {
    && rows.Keys == Ids(snapshot.Values)
    && forall k :: k in rows ==> rows[k].id == k && rows[k] in snapshot.Values
  }

  /** For a snapshot keyed by id, the reconciled table is the snapshot itself. */
  lemma ReconciledToKeyedIsSnapshot(rows: ItemMap, snapshot: ItemMap)
    requires KeyedById(snapshot)
    requires ReconciledTo(rows, snapshot)
    ensures rows == snapshot
  {
    forall k | k in snapshot ensures k in rows {
      assert snapshot[k] in snapshot.Values;
    }
    forall k | k in rows ensures k in snapshot && rows[k] == snapshot[k] {
      var key :| key in snapshot && snapshot[key] == rows[k];
    }
  }

  /**
   * Reconciling with a snapshot keyed by id gives one table whatever the
   * table held before, so applying the same snapshot again changes nothing.
   */
  lemma ReconciledIndependentOfPrior(rows1: ItemMap, rows2: ItemMap, snapshot: ItemMap)
    requires KeyedById(snapshot)
    requires ReconciledTo(rows1, snapshot) && ReconciledTo(rows2, snapshot)
    ensures rows1 == rows2
  {
    ReconciledToKeyedIsSnapshot(rows1, snapshot);
    ReconciledToKeyedIsSnapshot(rows2, snapshot);
  }

  class ShoppingItemTable {
    /** The rows, by primary key. */
    var rows: ItemMap

    /** `id` is the primary key: each row is stored under its own id. */
    ghost predicate Valid()
      reads this
    {
      KeyedById(rows)
    }

    constructor ()
      ensures Valid() && rows == map[]
    {
      rows := map[];
    }

    /** `insert` with `OnConflictStrategy.REPLACE`: upsert by primary key. */
    method Insert(item: Item)
      requires Valid()
      modifies this
      ensures Valid()
      ensures rows == Upsert(old(rows), item)
    {
      rows := rows[item.id := item];
    }

    /**
     * `insert(items)` for a collection: each item is upserted in turn, in an
     * order the collection chooses. Every given id ends up present with one of
     * the given items; rows with other ids are untouched.
     */
    method InsertAll(items: set<Item>)
      requires Valid()
      modifies this
      ensures Valid()
      ensures rows.Keys == old(rows).Keys + Ids(items)
      ensures forall k :: k in rows && k !in Ids(items) ==> rows[k] == old(rows)[k]
      ensures forall k :: k in rows && k in Ids(items) ==> rows[k] in items
    {
      var todo := items;
      ghost var done: set<Item> := {};
      while todo != {}
        invariant todo + done == items && todo !! done
        invariant KeyedById(rows)
        invariant rows.Keys == old(rows).Keys + Ids(done)
        invariant forall k :: k in rows && k !in Ids(done) ==> rows[k] == old(rows)[k]
        invariant forall k :: k in rows && k in Ids(done) ==> rows[k] in done
        decreases todo
      {
        var x :| x in todo;
        IdsAdd(done, x);
        rows := rows[x.id := x];
        todo := todo - {x};
        done := done + {x};
      }
    }

    /** `deleteAll`: the table becomes empty. */
    method DeleteAll()
      modifies this
      ensures Valid() && rows == map[]
    {
      rows := map[];
    }

    /** `deleteAllExcept(items)`: drop the rows whose id is not among the items' ids. */
    method DeleteAllExcept(items: set<Item>)
      requires Valid()
      modifies this
      ensures Valid()
      ensures rows.Keys == old(rows).Keys * Ids(items)
      ensures forall k :: k in rows ==> rows[k] == old(rows)[k]
    {
      var keep := Ids(items);
      rows := map k | k in rows && k in keep :: rows[k];
    }

    /** `all()`: the current rows; at most one row per id. */
    function All(): (r: set<Item>)
      requires Valid()
      reads this
      ensures forall x :: x in r <==> x.id in rows && rows[x.id] == x
    {
      rows.Values
    }
  }

  /** Adding an item to a collection adds exactly its id to the collection's ids. */
  lemma IdsAdd(s: set<Item>, x: Item)
    ensures Ids(s + {x}) == Ids(s) + {x.id}
  {
  }

  /** Two rows of `all()` with the same id are the same row. */
  lemma AllOneRowPerId(t: ShoppingItemTable, x: Item, y: Item)
    requires t.Valid()
    requires x in t.All() && y in t.All()
    requires x.id == y.id
    ensures x == y
  {
  }
}
