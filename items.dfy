/**
 * The item record shared by both ends of the wire and the map algebra the
 * server store and the client table are built on: a shopping list is a finite
 * map from item id to item.
 */
module Items {

  /** A UUID; only equality of ids matters to the synchronisation logic. */
  datatype Uuid = Uuid(bits: bv128)

  /** The 64-bit signed timestamp (`Long` in Kotlin, `i64` in Rust). */
  newtype Int64 = x: int | -0x8000_0000_0000_0000 <= x < 0x8000_0000_0000_0000

  /** One shopping item; an edit produces a new value with the same id. */
  datatype Item = Item(id: Uuid, content: string, checked: bool, timestamp: Int64)

  /** A shopping list: the server's `HashMap<Uuid, ShoppingItem>`, the client's snapshot map and table. */
  type ItemMap = map<Uuid, Item>

  /** Every entry is stored under its own item's id. */
  predicate KeyedById(m: ItemMap) {
    forall k :: k in m ==> m[k].id == k
  }

  /** The ids carried by a collection of items. */
  function Ids(items: set<Item>): set<Uuid> {
    set x | x in items :: x.id
  }

  /** Upsert by id: what `HashMap::insert(item.id, item)` and Room's REPLACE insert do. */
  function Upsert(m: ItemMap, x: Item): ItemMap {
    m[x.id := x]
  }

  /** What `retain(|_, v| !v.checked)` keeps. */
  function RetainUnchecked(m: ItemMap): ItemMap {
    map k | k in m && !m[k].checked :: m[k]
  }

  /** The keys whose entries are checked. */
  function CheckedKeys(m: ItemMap): set<Uuid> {
    set k | k in m && m[k].checked
  }

  /** Upserting keeps every entry under its own id. */
  lemma UpsertKeepsKeyedById(m: ItemMap, x: Item)
    requires KeyedById(m)
    ensures KeyedById(Upsert(m, x))
    ensures Upsert(m, x)[x.id] == x
    ensures forall k :: k in m && k != x.id ==> k in Upsert(m, x) && Upsert(m, x)[k] == m[k]
  {
  }

  /** Upserting adds one entry when the id is new and none otherwise. */
  lemma UpsertSize(m: ItemMap, x: Item)
    ensures |Upsert(m, x)| == if x.id in m then |m| else |m| + 1
  {
  }

  /** Upserting the same item twice is the same as upserting it once. */
  lemma UpsertIdempotent(m: ItemMap, x: Item)
    ensures Upsert(Upsert(m, x), x) == Upsert(m, x)
  {
  }

  /** `retain` removes exactly the checked entries and leaves the others untouched. */
  lemma RetainUncheckedExactly(m: ItemMap)
    ensures forall k :: k in RetainUnchecked(m) <==> k in m && !m[k].checked
    ensures forall k :: k in RetainUnchecked(m) ==> RetainUnchecked(m)[k] == m[k]
    ensures KeyedById(m) ==> KeyedById(RetainUnchecked(m))
  {
  }

  /** Removing the checked entries twice is the same as removing them once. */
  lemma RetainUncheckedIdempotent(m: ItemMap)
    ensures RetainUnchecked(RetainUnchecked(m)) == RetainUnchecked(m)
  {
  }

  /**
   * The count the server logs, old size minus new size, is the number of
   * checked entries; in particular it cannot underflow.
   */
  lemma RetainUncheckedCount(m: ItemMap)
    ensures |RetainUnchecked(m)| <= |m|
    ensures |m| - |RetainUnchecked(m)| == |CheckedKeys(m)|
  {
    var kept := RetainUnchecked(m).Keys;
    var gone := CheckedKeys(m);
    assert kept !! gone;
    assert m.Keys == kept + gone;
    assert |m.Keys| == |kept| + |gone|;
  }
}
