/**
 * The static table of themes. The table's contents (src/data/strengths.js) are
 * not part of this model: every operation takes the table as a parameter.
 */
module Strengths {
  import opened Wrappers

  /** One theme: its key, display name, short description and (optional) domain. */
  datatype Strength = Strength(key: string, name: string, blurb: string, domain: Option<string>)

  /** `table.find(s => s.key === key)`: the FIRST entry with that key, if any. */
  function Find(table: seq<Strength>, key: string): (r: Option<Strength>)
    ensures r.Some? <==> exists i :: 0 <= i < |table| && table[i].key == key
    ensures r.Some? ==> exists i :: 0 <= i < |table| && table[i] == r.value && r.value.key == key &&
                                     forall j :: 0 <= j < i ==> table[j].key != key
  {
    if table == [] then None
    else if table[0].key == key then Some(table[0])
    else
      var r := Find(table[1..], key);
      assert r.Some? ==> exists i :: 0 <= i < |table| && table[i] == r.value && r.value.key == key &&
                                     forall j :: 0 <= j < i ==> table[j].key != key by {
        if r.Some? {
          var i :| 0 <= i < |table[1..]| && table[1..][i] == r.value && r.value.key == key &&
                   forall j :: 0 <= j < i ==> table[1..][j].key != key;
          assert table[i + 1] == r.value;
          forall j | 0 <= j < i + 1 ensures table[j].key != key {
            if j > 0 { assert table[j] == table[1..][j - 1]; }
          }
        }
      }
      r
  }

  /** `table.some(s => s.key === key)`: the key names some theme. */
  predicate IsKnown(table: seq<Strength>, key: string): (known: bool)
    ensures known <==> exists i :: 0 <= i < |table| && table[i].key == key
  {
    Find(table, key).Some?
  }

  /**
   * The lookup `new Map()` filled by `table.forEach(s => m.set(s.key, s))`:
   * a later entry with the same key replaces an earlier one.
   */
  function ByKey(table: seq<Strength>): (m: map<string, Strength>)
    ensures forall k :: k in m <==> exists i :: 0 <= i < |table| && table[i].key == k
    ensures forall k :: k in m ==> m[k].key == k && m[k] in table
  {
    if table == [] then map[]
    else
      var last := table[|table| - 1];
      var m := ByKey(table[..|table| - 1])[last.key := last];
      assert forall k :: k in m <==> exists i :: 0 <= i < |table| && table[i].key == k by {
        forall k ensures k in m <==> exists i :: 0 <= i < |table| && table[i].key == k {
          if k in m && k != last.key {
            var i :| 0 <= i < |table[..|table| - 1]| && table[..|table| - 1][i].key == k;
            assert table[i].key == k;
          }
          if exists i :: 0 <= i < |table| && table[i].key == k {
            var i :| 0 <= i < |table| && table[i].key == k;
            if i < |table| - 1 { assert table[..|table| - 1][i].key == k; }
          }
        }
      }
      assert forall s :: s in table[..|table| - 1] ==> s in table;
      m
  }

  /** When keys are unique, the map and `find` agree. */
  lemma {:induction false} ByKeyAgreesWithFind(table: seq<Strength>, key: string)
    requires forall i, j :: 0 <= i < j < |table| ==> table[i].key != table[j].key
    ensures key in ByKey(table) <==> Find(table, key).Some?
    ensures key in ByKey(table) ==> ByKey(table)[key] == Find(table, key).value
  {
    if key in ByKey(table) {
      var r := Find(table, key);
      var i :| 0 <= i < |table| && table[i] == r.value && r.value.key == key;
      var m := ByKey(table);
      var j :| 0 <= j < |table| && table[j] == m[key];
      assert table[j].key == key;
      assert i == j;
    }
  }
}
