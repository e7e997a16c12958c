/** The per-user session store (`st.session_state`): a mutable key/value map
    from which the "new search" button and `clear_address` pop fixed keys. */
module Session {
  import opened Wrappers

  /** The keys the "new search" button pops, in the order it pops them. */
  const ResetKeys: seq<string> := [
    "origen_pdv", "transfer_exist", "transfer1_pdv",
    "transfer2_exist", "transfer2_pdv",
    "address_input", "address_sel", "coords_cliente",
    "provincia_canton", "distance_limit",
    "map_logistica_Quito", "map_logistica_Guayaquil", "pdv_nacional"
  ]

  /** The keys `clear_address` pops when the address text changes. */
  const AddressKeys: seq<string> := ["coords_cliente", "address_sel"]

  function KeySet(keys: seq<string>): set<string> {
    set k | k in keys
  }

  /** The map left after `m.pop(k, None)` for each `k` of `keys` in turn. */
  function Popped<V>(m: map<string, V>, keys: seq<string>): (r: map<string, V>)
    ensures r == m - KeySet(keys)
  {
    if keys == [] then m
    else
      var r := Popped(m - {keys[0]}, keys[1..]);
      assert KeySet(keys) == {keys[0]} + KeySet(keys[1..]);
      r
  }

  /** No key appears twice in `keys`. */
  predicate Distinct(keys: seq<string>) {
    forall i, j :: 0 <= i < j < |keys| ==> keys[i] != keys[j]
  }

  /** A list of distinct keys names as many keys as it has entries. */
  lemma {:induction false} DistinctKeyCount(keys: seq<string>)
    requires Distinct(keys)
    ensures |KeySet(keys)| == |keys|
  {
    if keys != [] {
      DistinctKeyCount(keys[1..]);
      assert KeySet(keys) == {keys[0]} + KeySet(keys[1..]);
      assert keys[0] !in KeySet(keys[1..]);
    }
  }

  /** The reset names thirteen different keys. */
  lemma ResetKeyCount()
    ensures |KeySet(ResetKeys)| == 13
  {
    assert Distinct(ResetKeys);
    DistinctKeyCount(ResetKeys);
  }

  /** `clear_address`'s keys are among the reset's keys. */
  lemma AddressKeysAreReset()
    ensures KeySet(AddressKeys) <= KeySet(ResetKeys)
  {
    assert ResetKeys[6] == "address_sel" && ResetKeys[7] == "coords_cliente";
  }

  /** `session.get(key, default)`, on the store's map. */
  function Lookup<V>(m: map<string, V>, key: string, default: V): (r: V)
    ensures key in m ==> r == m[key]
    ensures key !in m ==> r == default
  {
    if key in m then m[key] else default
  }

  /** Popping a key that is absent leaves the store as it was. */
  lemma PopAbsentIsNoop<V>(m: map<string, V>, key: string)
    requires key !in m
    ensures Popped(m, [key]) == m
  {
  }

  /** After a reset, reading any reset key gives the default, whatever the store held,
      and reading any other key gives what it gave before. */
  lemma ReadAfterReset<V>(m: map<string, V>, key: string, default: V)
    ensures key in ResetKeys ==> Lookup(Popped(m, ResetKeys), key, default) == default
    ensures key !in ResetKeys ==> Lookup(Popped(m, ResetKeys), key, default) == Lookup(m, key, default)
  {
  }

  class SessionStore<V> {
    /** The session's entries. */
    var entries: map<string, V>

    constructor (initial: map<string, V>)
      ensures entries == initial
    {
      entries := initial;
    }

    /** `session[key] = value`. */
    method Set(key: string, value: V)
      modifies this
      ensures entries == old(entries)[key := value]
    {
      entries := entries[key := value];
    }

    /** `session.pop(key, None)`: the removed value, or none when the key is absent. */
    method Pop(key: string) returns (r: Option<V>)
      modifies this
      ensures r == if key in old(entries) then Some(old(entries)[key]) else None
      ensures entries == old(entries) - {key}
    {
      if key in entries {
        r := Some(entries[key]);
      } else {
        r := None;
      }
      entries := entries - {key};
    }

    /** `for k in keys: session.pop(k, None)`. */
    method PopAll(keys: seq<string>)
      modifies this
      ensures entries == Popped(old(entries), keys)
      ensures entries == old(entries) - KeySet(keys)
    {
      var i := 0;
      while i < |keys|
        invariant 0 <= i <= |keys|
        invariant entries == old(entries) - KeySet(keys[..i])
      {
        var _ := Pop(keys[i]);
        assert KeySet(keys[..i + 1]) == KeySet(keys[..i]) + {keys[i]};
        i := i + 1;
      }
      assert keys[..i] == keys;
    }

    /** `clear_address`: forget the resolved customer address and coordinate. */
    method ClearAddress()
      modifies this
      ensures entries == old(entries) - {"coords_cliente", "address_sel"}
    {
      PopAll(AddressKeys);
      assert KeySet(AddressKeys) == {"coords_cliente", "address_sel"};
    }

    /** The "new search" button: forget every selection of the sidebar. */
    method NewSearch()
      modifies this
      ensures entries == old(entries) - KeySet(ResetKeys)
      ensures forall k :: k in ResetKeys ==> k !in entries
      ensures forall k :: k in old(entries) && k !in ResetKeys ==> k in entries && entries[k] == old(entries)[k]
    {
      PopAll(ResetKeys);
    }
  }
}
