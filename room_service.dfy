/**
 * The room service's key-exclusion helper, which deletes the listed keys from an
 * object in place and hands back that same object, and its use when a room is
 * fetched by id, where the room's passcode hash is stripped before the room leaves
 * the service.
 */
module RoomService {
  import opened Results

  /** A plain object whose own properties the helper deletes in place. */
  class Record<K(==), V> {
    var fields: map<K, V>

    constructor (fields: map<K, V>)
      ensures this.fields == fields
    {
      this.fields := fields;
    }
  }

  /** The name of the property that holds a room's hashed passcode. */
  const HashedCode: string := "hashedCode"

  /** Deleting one property: it is gone afterwards, and every other one is untouched. */
  function Delete<K, V>(m: map<K, V>, k: K): (r: map<K, V>)
    ensures k !in r
    ensures forall j :: j in r ==> j in m
    ensures forall j :: j in m && j != k ==> j in r && r[j] == m[j]
  {
    m - {k}
  }

  /** The object's properties after the keys are deleted one by one, in order. */
  function Excluded<K, V>(m: map<K, V>, keys: seq<K>): map<K, V>
  {
    if keys == [] then m
    else Delete(Excluded(m, keys[..|keys| - 1]), keys[|keys| - 1])
  }

  /** Deleting the keys one by one removes exactly the set of listed keys. */
  lemma {:induction false} ExcludedIsSetRemoval<K, V>(m: map<K, V>, keys: seq<K>)
    ensures Excluded(m, keys) == m - (set k | k in keys)
  {
    if keys != [] {
      var init, last := keys[..|keys| - 1], keys[|keys| - 1];
      ExcludedIsSetRemoval(m, init);
      assert keys == init + [last];
      assert (set k | k in keys) == (set k | k in init) + {last};
    }
  }

  /** No listed key is left, and every unlisted property keeps its value. */
  lemma {:induction false} ExcludedRemovesOnlyListedKeys<K, V>(m: map<K, V>, keys: seq<K>)
    ensures forall k :: k in keys ==> k !in Excluded(m, keys)
    ensures forall k :: k in Excluded(m, keys) ==> k in m && k !in keys
    ensures forall k :: k in m && k !in keys ==> k in Excluded(m, keys) && Excluded(m, keys)[k] == m[k]
  {
    ExcludedIsSetRemoval(m, keys);
  }

  /** Only which keys are listed matters: not their order, nor their repetitions. */
  lemma {:induction false} ExcludedOrderIndependent<K, V>(m: map<K, V>, a: seq<K>, b: seq<K>)
    requires forall k :: k in a <==> k in b
    ensures Excluded(m, a) == Excluded(m, b)
  {
    ExcludedIsSetRemoval(m, a);
    ExcludedIsSetRemoval(m, b);
    assert (set k | k in a) == (set k | k in b);
  }

  /** Listing a key a second time changes nothing. */
  lemma {:induction false} ExcludedDuplicateKey<K, V>(m: map<K, V>, keys: seq<K>, k: K)
    requires k in keys
    ensures Excluded(m, keys + [k]) == Excluded(m, keys)
  {
    ExcludedOrderIndependent(m, keys + [k], keys);
  }

  /** Excluding the same keys twice is the same as excluding them once. */
  lemma {:induction false} ExcludedIdempotent<K, V>(m: map<K, V>, keys: seq<K>)
    ensures Excluded(Excluded(m, keys), keys) == Excluded(m, keys)
  {
    ExcludedIsSetRemoval(m, keys);
    ExcludedIsSetRemoval(Excluded(m, keys), keys);
  }

  /** Deleting keys the object does not have (in particular, none) leaves it as it was. */
  lemma {:induction false} ExcludedAbsentKeys<K, V>(m: map<K, V>, keys: seq<K>)
    requires forall k :: k in keys ==> k !in m
    ensures Excluded(m, keys) == m
  {
    ExcludedIsSetRemoval(m, keys);
    assert m.Keys !! (set k | k in keys);
  }

  /**
   * Deletes each listed key from the object in place and returns the same object,
   * now without those keys.
   */
  method Exclude<K, V>(room: Record<K, V>, keys: seq<K>) returns (r: Record<K, V>)
    modifies room
    ensures r == room
    ensures room.fields == Excluded(old(room.fields), keys)
    ensures forall k :: k in keys ==> k !in room.fields
    ensures forall k :: k in old(room.fields) && k !in keys ==> k in room.fields && room.fields[k] == old(room.fields)[k]
  {
    for i := 0 to |keys|
      invariant room.fields == Excluded(old(room.fields), keys[..i])
    {
      assert keys[..i + 1][..i] == keys[..i];
      room.fields := Delete(room.fields, keys[i]);
    }
    assert keys[..|keys|] == keys;
    ExcludedRemovesOnlyListedKeys(old(room.fields), keys);
    r := room;
  }

  /**
   * Returns the fetched room without its passcode hash. The lookup itself is the
   * `fetched` parameter; when it found no room, deleting a property of `null`
   * throws, which is `None` here.
   */
  method GetRoomById<V>(fetched: Record?<string, V>) returns (r: Option<Record<string, V>>)
    modifies fetched
    ensures r.None? <==> fetched == null
    ensures r.Some? ==> r.value == fetched
    ensures r.Some? ==> HashedCode !in r.value.fields
    ensures fetched != null ==> fetched.fields == old(fetched.fields) - {HashedCode}
  {
    if fetched == null {
      return None;
    }
    var room := Exclude(fetched, [HashedCode]);
    ExcludedIsSetRemoval(old(fetched.fields), [HashedCode]);
    assert (set k | k in [HashedCode]) == {HashedCode};
    r := Some(room);
  }
}
