/**
 * What crosses the wire: a list snapshot as a JSON object whose members are
 * named by item id and whose values are item records, and the client-side
 * loop that turns such an object back into a map keyed by each value's id.
 */
module Wire {
  import opened Items

  /**
   * A parsed JSON object: member name -> decoded item record. The text form
   * (serde_json on the server, org.json on the client) is not modelled.
   */
  type JsonObject = map<Uuid, Item>

  /** `serde_json::to_string_pretty(&list)`: one member per entry, named by its key. */
  function Serialize(list: ItemMap): JsonObject {
    list
  }

  /** Every name in `keys` is a member of the object. */
  predicate MembersOf(keys: seq<Uuid>, obj: JsonObject) {
    forall i :: 0 <= i < |keys| ==> keys[i] in obj
  }

  /** `keys` is an iteration order of the object's member names: each exactly once. */
  predicate Enumerates(keys: seq<Uuid>, obj: JsonObject) {
    && MembersOf(keys, obj)
    && (forall i, j :: 0 <= i < j < |keys| ==> keys[i] != keys[j])
    && (forall k :: k in obj ==> k in keys)
  }

  /**
   * The map the decoding loop has built after visiting the members named by
   * `keys`, in that order: each value stored under its own id, so a later
   * value overwrites an earlier one with the same id.
   */
  function Decode(obj: JsonObject, keys: seq<Uuid>): (m: ItemMap)
    requires MembersOf(keys, obj)
    ensures KeyedById(m)
  {
    if keys == [] then map[]
    else
      var last := obj[keys[|keys| - 1]];
      Decode(obj, keys[..|keys| - 1])[last.id := last]
  }

  /** Decoding one more member stores its value under the value's id. */
  lemma DecodeStep(obj: JsonObject, keys: seq<Uuid>, i: nat)
    requires MembersOf(keys, obj)
    requires i < |keys|
    ensures Decode(obj, keys[..i + 1]) == Decode(obj, keys[..i])[obj[keys[i]].id := obj[keys[i]]]
  {
    assert keys[..i + 1][..i] == keys[..i];
  }

  /** The id of every visited value is a key of the decoded map. */
  lemma {:induction false} DecodeHasId(obj: JsonObject, keys: seq<Uuid>, i: nat)
    requires MembersOf(keys, obj)
    requires i < |keys|
    ensures obj[keys[i]].id in Decode(obj, keys)
  {
    var n := |keys| - 1;
    if i < n {
      var init := keys[..n];
      assert init[i] == keys[i];
      DecodeHasId(obj, init, i);
    }
  }

  /** Every decoded entry is the value of a visited member, and `i` says which. */
  lemma {:induction false} DecodeSource(obj: JsonObject, keys: seq<Uuid>, k: Uuid) returns (i: nat)
    requires MembersOf(keys, obj)
    requires k in Decode(obj, keys)
    ensures i < |keys| && obj[keys[i]] == Decode(obj, keys)[k]
  {
    var n := |keys| - 1;
    var init := keys[..n];
    if k == obj[keys[n]].id {
      i := n;
    } else {
      i := DecodeSource(obj, init, k);
      assert init[i] == keys[i];
    }
  }

  /** When two visited values share an id, the one visited later wins. */
  lemma {:induction false} DecodeLastWins(obj: JsonObject, keys: seq<Uuid>, i: nat)
    requires MembersOf(keys, obj)
    requires i < |keys|
    requires forall j :: i < j < |keys| ==> obj[keys[j]].id != obj[keys[i]].id
    ensures obj[keys[i]].id in Decode(obj, keys) && Decode(obj, keys)[obj[keys[i]].id] == obj[keys[i]]
  {
    var n := |keys| - 1;
    if i < n {
      var init := keys[..n];
      assert init[i] == keys[i];
      forall j | i < j < |init| ensures obj[init[j]].id != obj[init[i]].id {
        assert init[j] == keys[j];
      }
      DecodeLastWins(obj, init, i);
    }
  }

  /**
   * `json.keys()`: some iteration order of the member names. org.json does not
   * fix the order, so every result the contract allows is a possible one.
   */
  method JsonKeyOrder(obj: JsonObject) returns (keys: seq<Uuid>)
    ensures Enumerates(keys, obj)
  {
    keys := [];
    var rest := obj.Keys;
    while rest != {}
      invariant rest <= obj.Keys
      invariant forall i, j :: 0 <= i < j < |keys| ==> keys[i] != keys[j]
      invariant forall i :: 0 <= i < |keys| ==> keys[i] in obj && keys[i] !in rest
      invariant forall k :: k in obj ==> k in keys || k in rest
      decreases rest
    {
      var k :| k in rest;
      keys := keys + [k];
      rest := rest - {k};
    }
  }

  /**
   * The decoding loop of `ApiWebSocketListener.onMessage` and of the legacy
   * `all()`: for each member, decode the item and store it under the item's
   * own id (the member name is not used). The result holds exactly the ids
   * of the object's values, and only its values.
   */
  method DecodeSnapshot(obj: JsonObject, keys: seq<Uuid>) returns (m: ItemMap)
    requires Enumerates(keys, obj)
    ensures m == Decode(obj, keys)
    ensures KeyedById(m)
    ensures m.Keys == Ids(obj.Values)
    ensures forall k :: k in m ==> m[k] in obj.Values
  {
    m := map[];
    var i := 0;
    while i < |keys|
      invariant 0 <= i <= |keys|
      invariant m == Decode(obj, keys[..i])
    {
      var item := obj[keys[i]];
      DecodeStep(obj, keys, i);
      m := m[item.id := item];
      i := i + 1;
    }
    assert keys[..i] == keys;
    DecodedFromValues(obj, keys);
  }

  /** The decoded map holds exactly the ids of the object's values, and only its values. */
  lemma DecodedFromValues(obj: JsonObject, keys: seq<Uuid>)
    requires Enumerates(keys, obj)
    ensures Decode(obj, keys).Keys == Ids(obj.Values)
    ensures forall k :: k in Decode(obj, keys) ==> Decode(obj, keys)[k] in obj.Values
  {
    var m := Decode(obj, keys);
    var ids := Ids(obj.Values);
    forall k | k in m ensures k in ids && m[k] in obj.Values {
      var i := DecodeSource(obj, keys, k);
    }
    forall k | k in ids ensures k in m {
      IdDecoded(obj, keys, k);
    }
    assert m.Keys == ids;
  }

  /** Each id carried by a member's value is a key of the decoded map. */
  lemma IdDecoded(obj: JsonObject, keys: seq<Uuid>, k: Uuid)
    requires Enumerates(keys, obj)
    requires k in Ids(obj.Values)
    ensures k in Decode(obj, keys)
  {
    var v :| v in obj.Values && v.id == k;
    var key :| key in obj && obj[key] == v;
    var i :| 0 <= i < |keys| && keys[i] == key;
    DecodeHasId(obj, keys, i);
  }

  /**
   * Decoding what the server serialised gives back the server's map, whatever
   * order the client's parser visits the members in, provided every entry is
   * stored under its own id.
   */
  lemma SnapshotRoundTrip(list: ItemMap, keys: seq<Uuid>)
    requires KeyedById(list)
    requires Enumerates(keys, Serialize(list))
    ensures Decode(Serialize(list), keys) == list
  {
    var m := Decode(list, keys);
    forall k | k in list ensures k in m && m[k] == list[k] {
      RoundTripAt(list, keys, k);
    }
    forall k | k in m ensures k in list {
      var i := DecodeSource(list, keys, k);
    }
  }

  /** One entry survives the round trip. */
  lemma RoundTripAt(list: ItemMap, keys: seq<Uuid>, k: Uuid)
    requires KeyedById(list)
    requires Enumerates(keys, list)
    requires k in list
    ensures k in Decode(list, keys) && Decode(list, keys)[k] == list[k]
  {
    var i :| 0 <= i < |keys| && keys[i] == k;
    forall j | i < j < |keys| ensures list[keys[j]].id != list[keys[i]].id {
      assert keys[j] != keys[i];
    }
    DecodeLastWins(list, keys, i);
  }

  /**
   * `JSONArray.forEach`: a counter runs from 0 to `length() - 1` and hands
   * each element to the action. The result is the elements in the order the
   * action received them.
   */
  method ForEach<T>(elements: seq<T>) returns (visited: seq<T>)
    ensures visited == elements
  {
    visited := [];
    var i := 0;
    while i < |elements|
      invariant 0 <= i <= |elements|
      invariant visited == elements[..i]
    {
      var element := elements[i];
      visited := visited + [element];
      i := i + 1;
    }
  }
}
