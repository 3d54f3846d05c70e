/**
 * Plain JavaScript objects used as constant records.
 *
 * An object literal `{ [k1]: v1, [k2]: v2, ... }` is evaluated left to right;
 * a computed key that repeats an earlier one silently overwrites it. Reads
 * look at own keys only, `None` standing for `undefined`; properties
 * inherited from `Object.prototype` are not modelled.
 */
module JsObject {

  datatype Option<+T> = None | Some(value: T)

  /** The keys written in a list of literal entries. */
  function KeysOf<K, V>(entries: seq<(K, V)>): set<K>
  {
    set i | 0 <= i < |entries| :: entries[i].0
  }

  /** No key is written twice in the literal, so no entry is overwritten. */
  predicate DistinctKeys<K(==), V>(entries: seq<(K, V)>)
  {
    forall i, j | 0 <= i < j < |entries| :: entries[i].0 != entries[j].0
  }

  /**
   * The object an object literal evaluates to: entries are added in order,
   * and a later entry with the same key replaces an earlier one.
   */
  function FromEntries<K(==), V>(entries: seq<(K, V)>): (m: map<K, V>)
    ensures m.Keys == KeysOf(entries)
  {
    if entries == [] then map[]
    else
      var init, last := entries[..|entries| - 1], entries[|entries| - 1];
      assert KeysOf(entries) == KeysOf(init) + {last.0} by {
        assert entries == init + [last];
      }
      FromEntries(init)[last.0 := last.1]
  }

  /** With distinct keys, every literal entry survives as written. */
  lemma {:induction false} FromEntriesLookup<K, V>(entries: seq<(K, V)>, i: int)
    requires DistinctKeys(entries)
    requires 0 <= i < |entries|
    ensures entries[i].0 in FromEntries(entries)
    ensures FromEntries(entries)[entries[i].0] == entries[i].1
  {
    var n := |entries|;
    var init := entries[..n - 1];
    assert KeysOf(entries) == KeysOf(init) + {entries[n - 1].0};
    if i < n - 1 {
      assert DistinctKeys(init);
      FromEntriesLookup(init, i);
      assert entries[i].0 != entries[n - 1].0;
    }
  }

  /** With distinct keys, the object has exactly one property per entry. */
  lemma {:induction false} FromEntriesSize<K, V>(entries: seq<(K, V)>)
    requires DistinctKeys(entries)
    ensures |FromEntries(entries)| == |entries|
  {
    if entries != [] {
      var n := |entries|;
      var init, last := entries[..n - 1], entries[n - 1];
      assert DistinctKeys(init) by {
        forall i, j | 0 <= i < j < |init| ensures init[i].0 != init[j].0 {
          assert init[i] == entries[i] && init[j] == entries[j];
        }
      }
      FromEntriesSize(init);
      var m0 := FromEntries(init);
      assert last.0 !in m0;
      assert FromEntries(entries) == m0[last.0 := last.1];
      assert |m0[last.0 := last.1]| == |m0| + 1;
    }
  }

  /** An own-key property read: `None` (`undefined`) when the key is not an own key. */
  function Get<K, V>(m: map<K, V>, k: K): (r: Option<V>)
    ensures r.Some? <==> k in m
    ensures r.Some? ==> r.value == m[k]
  {
    if k in m then Some(m[k]) else None
  }
}
