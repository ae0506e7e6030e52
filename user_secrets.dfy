/** Decoding of the invocation's `userContext` secret: a list of `{key, value}`
    entries folded left into one object, later entries overwriting earlier ones. */
module UserSecrets {
  import opened JsValues

  datatype Entry = Entry(key: string, value: JsValue)

  /** The `userContext` secret after `JSON.parse`: a list of entries, or a
      payload that fails to parse (or is not a list) and makes the decoding throw. */
  datatype Payload = Parsed(entries: seq<Entry>) | Unparseable

  /** The accumulator of the `reduce` after all `entries`: each entry in turn
      writes `acc[key] = value`. */
  function Decoded(entries: seq<Entry>): (m: map<string, JsValue>)
    ensures forall k :: k in m ==> exists i :: 0 <= i < |entries| && entries[i].key == k && m[k] == entries[i].value
    decreases |entries|
  {
    if entries == [] then map[]
    else
      var last := entries[|entries| - 1];
      Decoded(entries[..|entries| - 1])[last.key := last.value]
  }

  /** The keys that occur in the entries. */
  function KeysOf(entries: seq<Entry>): set<string> {
    set i | 0 <= i < |entries| :: entries[i].key
  }

  /** `i` is the position of the last entry with key `k`. */
  predicate IsLastOccurrence(entries: seq<Entry>, k: string, i: int) {
    && 0 <= i < |entries|
    && entries[i].key == k
    && forall j :: i < j < |entries| ==> entries[j].key != k
  }

  /** The decoded object has exactly the keys of the list. */
  lemma {:induction false} DecodedKeys(entries: seq<Entry>)
    ensures Decoded(entries).Keys == KeysOf(entries)
    decreases |entries|
  {
    if entries != [] {
      var init := entries[..|entries| - 1];
      DecodedKeys(init);
      assert KeysOf(entries) == KeysOf(init) + {entries[|entries| - 1].key} by {
        forall k | k in KeysOf(entries) ensures k in KeysOf(init) + {entries[|entries| - 1].key} {
          var i :| 0 <= i < |entries| && entries[i].key == k;
          if i < |entries| - 1 {
            assert init[i].key == k;
          }
        }
        forall k | k in KeysOf(init) ensures k in KeysOf(entries) {
          var i :| 0 <= i < |init| && init[i].key == k;
          assert entries[i].key == k;
        }
      }
    }
  }

  /** Each key is bound to the value of its last occurrence in the list. */
  lemma {:induction false} DecodedLastWins(entries: seq<Entry>, k: string, i: int)
    requires IsLastOccurrence(entries, k, i)
    ensures k in Decoded(entries) && Decoded(entries)[k] == entries[i].value
    decreases |entries|
  {
    if i < |entries| - 1 {
      var init := entries[..|entries| - 1];
      assert IsLastOccurrence(init, k, i);
      DecodedLastWins(init, k, i);
    }
  }

  /** The `reduce` with its mutated accumulator. */
  method DecodeSecrets(entries: seq<Entry>) returns (acc: map<string, JsValue>)
    ensures acc == Decoded(entries)
    ensures acc.Keys == KeysOf(entries)
  {
    acc := map[];
    for i := 0 to |entries|
      invariant acc == Decoded(entries[..i])
    {
      assert entries[..i + 1][..i] == entries[..i];
      acc := acc[entries[i].key := entries[i].value];
    }
    assert entries[..|entries|] == entries;
    DecodedKeys(entries);
  }
}
