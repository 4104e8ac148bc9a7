/**
 * The state of the soundboard view in src/components/CliftonStrengthsSoundboard.jsx:
 * up to five selected theme keys and a key-to-level map, with toggle, level,
 * reset, randomise, export and import operations.
 */
module Soundboard {
  import opened Wrappers
  import opened Json
  import opened Strengths
  import SeqUtils
  import StrengthUtils
  import Picker

  /** At most five themes can be selected. */
  const MaxSelected: nat := 5
  /** The level a selected theme shows when none is stored. */
  const DefaultLevel: real := 50.0
  /** The selection a first visit starts with. */
  const InitialSelection: seq<string> := ["maximizer", "connectedness", "belief", "adaptability", "empathy"]

  /** `toggleSelect`: remove a selected key; append an unselected one unless five are selected. */
  function ToggleSelection(prev: seq<string>, key: string): (r: seq<string>)
    ensures key in r <==> key !in prev && |prev| < MaxSelected
    ensures forall k :: k != key ==> (k in r <==> k in prev)
    ensures key in prev ==> r == SeqUtils.RemoveAll(prev, key)
    ensures key !in prev && |prev| >= MaxSelected ==> r == prev
    ensures key !in prev && |prev| < MaxSelected ==> r == prev + [key]
    ensures |prev| <= MaxSelected ==> |r| <= MaxSelected
    ensures SeqUtils.NoDup(prev) ==> SeqUtils.NoDup(r)
  {
    SeqUtils.ToggleCapped(prev, key, MaxSelected)
  }

  /** Deselecting a key of a duplicate-free selection keeps every other key in its place order. */
  lemma DeselectKeepsOrder(prev: seq<string>, i: nat)
    requires SeqUtils.NoDup(prev) && i < |prev|
    ensures ToggleSelection(prev, prev[i]) == prev[..i] + prev[i + 1..]
  {
    SeqUtils.RemoveAllAt(prev, i);
  }

  /**
   * Deselecting keeps the order of the rest even with repeated keys: the selection
   * split in two parts loses every copy of the key from each part, and nothing else.
   */
  lemma DeselectKeepsOrderWithRepeats(a: seq<string>, b: seq<string>, key: string)
    requires key in a + b
    ensures ToggleSelection(a + b, key) == SeqUtils.RemoveAll(a, key) + SeqUtils.RemoveAll(b, key)
  {
    SeqUtils.RemoveAllAppend(a, b, key);
  }

  /** Selecting a key and toggling it again restores the selection. */
  lemma SelectThenDeselect(prev: seq<string>, key: string)
    requires key !in prev && |prev| < MaxSelected
    ensures ToggleSelection(ToggleSelection(prev, key), key) == prev
  {
    SeqUtils.RemoveAllAppended(prev, key);
  }

  /**
   * The picker's button rule and the toggle agree: a disabled button would change
   * nothing, and an enabled button always changes the selection.
   */
  lemma PickerButtonMatchesToggle(prev: seq<string>, key: string)
    ensures Picker.ButtonDisabled(key, prev, MaxSelected) <==> ToggleSelection(prev, key) == prev
  {
    if key in prev {
      assert key !in ToggleSelection(prev, key);
    } else if |prev| < MaxSelected {
      assert key in ToggleSelection(prev, key);
    }
  }

  /** A stored level that the defaulting step keeps: a number. */
  predicate HasNumber(levels: map<string, Json>, k: string)
  {
    k in levels && levels[k].JNum?
  }

  /** A level written by `randomise`: an integer from 0 to 100. */
  predicate IsWholePercent(v: Json)
  {
    v.JNum? && v.n == v.n.Floor as real && 0.0 <= v.n <= 100.0
  }

  /** The exported document `{ selected, levels }`. */
  datatype Payload = Payload(selected: seq<string>, levels: map<string, Json>)

  /**
   * `exportJSON`'s payload: the selection as it is, and for exactly the selected
   * keys their stored level, where `?? 50` replaces only an absent or null level.
   */
  function ExportPayload(selected: seq<string>, levels: map<string, Json>): (p: Payload)
    ensures p.selected == selected
    ensures p.levels.Keys == set k | k in selected
    ensures forall k :: k in p.levels ==>
              p.levels[k] == if k in levels && !levels[k].JNull? then levels[k] else JNum(DefaultLevel)
  {
    Payload(selected, map k | k in selected :: if k in levels && levels[k] != JNull then levels[k] else JNum(DefaultLevel))
  }

  /** Once every selected key has a number, the export holds exactly those stored numbers. */
  lemma ExportAfterDefaults(selected: seq<string>, levels: map<string, Json>)
    requires forall k :: k in selected ==> k in levels && levels[k].JNum?
    ensures ExportPayload(selected, levels).levels == map k | k in selected :: levels[k]
  {
  }

  /** The payload as the JSON document that is written out. */
  function PayloadJson(p: Payload): Json
  {
    JObj(map["selected" := JArr(Strs(p.selected)), "levels" := JObj(p.levels)])
  }

  /** A list of keys as a JSON array of strings. */
  function Strs(keys: seq<string>): (r: seq<Json>)
    ensures |r| == |keys|
  {
    if keys == [] then [] else [JStr(keys[0])] + Strs(keys[1..])
  }

  /**
   * The import guard: `data.selected` must be an array and `typeof data.levels`
   * must be "object" (objects, arrays and null pass); otherwise the import is ignored.
   */
  function ImportRequest(data: Json): (r: Option<(seq<Json>, Json)>)
    ensures r.Some? ==> TypeOf(r.value.1) == "object"
    ensures r.Some? <==> data.JObj? && "selected" in data.fields && data.fields["selected"].JArr? &&
                         "levels" in data.fields && TypeOf(data.fields["levels"]) == "object"
  {
    match (Member(data, "selected"), Member(data, "levels"))
    case (Some(JArr(items)), Some(lv)) => if TypeOf(lv) == "object" then Some((items, lv)) else None
    case _ => None
  }

  /** `data.selected.filter((k) => STRENGTHS.some((s) => s.key === k))`: strings naming a theme, in order. */
  function KnownKeys(table: seq<Strength>, items: seq<Json>): (r: seq<string>)
    ensures |r| <= |items|
    ensures forall k :: k in r <==> JStr(k) in items && IsKnown(table, k)
    ensures |items| == 1 && items[0].JStr? ==>
              r == (if IsKnown(table, items[0].s) then [items[0].s] else [])
    ensures |items| == 1 && !items[0].JStr? ==> r == []
  {
    if items == [] then []
    else
      var rest := KnownKeys(table, items[1..]);
      assert forall v :: v in items <==> v == items[0] || v in items[1..];
      match items[0]
      case JStr(k) => if IsKnown(table, k) then [k] + rest else rest
      case _ => rest
  }

  /** The imported selection: the known keys of the input, in input order, cut to five. */
  function ImportedSelection(table: seq<Strength>, items: seq<Json>): (r: seq<string>)
    ensures |r| <= MaxSelected
    ensures r <= KnownKeys(table, items)
    ensures |KnownKeys(table, items)| <= MaxSelected ==> r == KnownKeys(table, items)
    ensures |KnownKeys(table, items)| > MaxSelected ==> |r| == MaxSelected
  {
    SeqUtils.SliceTo(KnownKeys(table, items), MaxSelected)
  }

  /** The filter keeps order: the known keys of two parts are those of the first part, then the second's. */
  lemma {:induction false} KnownKeysAppend(table: seq<Strength>, a: seq<Json>, b: seq<Json>)
    ensures KnownKeys(table, a + b) == KnownKeys(table, a) + KnownKeys(table, b)
  {
    if a == [] {
      assert a + b == b;
    } else {
      assert (a + b)[1..] == a[1..] + b;
      KnownKeysAppend(table, a[1..], b);
    }
  }

  /** A list of known keys written as strings is kept whole by the known-key filter. */
  lemma {:induction false} KnownKeysOfStrs(table: seq<Strength>, keys: seq<string>)
    requires forall k :: k in keys ==> IsKnown(table, k)
    ensures KnownKeys(table, Strs(keys)) == keys
  {
    if keys != [] {
      KnownKeysOfStrs(table, keys[1..]);
      assert Strs(keys)[1..] == Strs(keys[1..]);
    }
  }

  /**
   * Exporting and importing again restores the state: for a selection of at most
   * five known keys, each with a number stored, the import gives back the same
   * selection and leaves the level map as it was.
   */
  lemma ExportImportRoundTrip(table: seq<Strength>, selected: seq<string>, levels: map<string, Json>)
    requires |selected| <= MaxSelected
    requires forall k :: k in selected ==> IsKnown(table, k) && HasNumber(levels, k)
    ensures ImportRequest(PayloadJson(ExportPayload(selected, levels))).Some?
    ensures var req := ImportRequest(PayloadJson(ExportPayload(selected, levels))).value;
            ImportedSelection(table, req.0) == selected && Spread(levels, req.1) == levels
  {
    var p := ExportPayload(selected, levels);
    ExportedRequest(p);
    KnownKeysOfStrs(table, selected);
    SpreadExportedLevels(selected, levels);
  }

  /** The written document passes the import guard with its own list and level object. */
  lemma ExportedRequest(p: Payload)
    ensures ImportRequest(PayloadJson(p)) == Some((Strs(p.selected), JObj(p.levels)))
  {
    var data := PayloadJson(p);
    assert Member(data, "selected") == Some(JArr(Strs(p.selected)));
    assert Member(data, "levels") == Some(JObj(p.levels));
  }

  /** Spreading the exported levels over levels that already hold numbers changes nothing. */
  lemma SpreadExportedLevels(selected: seq<string>, levels: map<string, Json>)
    requires forall k :: k in selected ==> HasNumber(levels, k)
    ensures Spread(levels, JObj(ExportPayload(selected, levels).levels)) == levels
  {
    var exported := ExportPayload(selected, levels).levels;
    var r := Spread(levels, JObj(exported));
    assert r.Keys == levels.Keys;
    forall k | k in r ensures r[k] == levels[k] {
      if k in exported {
        assert HasNumber(levels, k);
      }
    }
  }

  /** The import does not remove repeated keys: a repeated known key is imported twice. */
  lemma ImportKeepsRepeats(table: seq<Strength>, k: string)
    requires IsKnown(table, k)
    ensures ImportedSelection(table, [JStr(k), JStr(k)]) == [k, k]
  {
    assert [JStr(k), JStr(k)][1..] == [JStr(k)];
    assert [JStr(k)][1..] == [];
  }

  /** The soundboard's state: the selection and the level map. */
  class Soundboard {
    /** The theme table (src/data/strengths.js), fixed for the session. */
    const table: seq<Strength>
    var selected: seq<string>
    var levels: map<string, Json>

    /** The bound the view checks at start-up: at most five selected themes. */
    ghost predicate Valid()
      reads this
    {
      |selected| <= MaxSelected
    }

    /** A first visit: the five default themes and no stored levels. */
    constructor (table: seq<Strength>)
      ensures Valid()
      ensures this.table == table && selected == InitialSelection && levels == map[]
    {
      this.table := table;
      selected := InitialSelection;
      levels := map[];
    }

    /** `toggleSelect(key)`: only the selection changes. */
    method ToggleSelect(key: string)
      requires Valid()
      modifies this
      ensures Valid()
      ensures selected == ToggleSelection(old(selected), key) && levels == old(levels)
      ensures SeqUtils.NoDup(old(selected)) ==> SeqUtils.NoDup(selected)
    {
      selected := ToggleSelection(selected, key);
    }

    /** `setLevel(key, v)`: stores `clamp(v)` at `key`; every other level is unchanged. */
    method SetLevel(key: string, v: real)
      requires Valid()
      modifies this
      ensures Valid() && selected == old(selected)
      ensures levels == old(levels)[key := JNum(StrengthUtils.Clamp(v, 0.0, 100.0))]
      ensures 0.0 <= levels[key].n <= 100.0
    {
      levels := levels[key := JNum(StrengthUtils.Clamp(v, 0.0, 100.0))];
    }

    /**
     * The effect run whenever the selection changes: every selected key whose
     * level is not a number gets 50; all other entries are kept.
     */
    method ApplyLevelDefaults()
      requires Valid()
      modifies this
      ensures Valid() && selected == old(selected)
      ensures levels.Keys == old(levels).Keys + set k | k in selected
      ensures forall k :: k in levels ==>
                levels[k] == if k in selected && !HasNumber(old(levels), k) then JNum(DefaultLevel) else old(levels)[k]
      ensures forall k :: k in selected ==> HasNumber(levels, k)
    {
      var next := levels;
      var i := 0;
      while i < |selected|
        invariant 0 <= i <= |selected|
        invariant next.Keys == levels.Keys + set k | k in selected[..i]
        invariant forall k :: k in next ==>
                    next[k] == if k in selected[..i] && !HasNumber(levels, k) then JNum(DefaultLevel) else levels[k]
      {
        var k := selected[i];
        assert selected[..i + 1] == selected[..i] + [k];
        if !(k in next && next[k].JNum?) {
          next := next[k := JNum(DefaultLevel)];
        }
        i := i + 1;
      }
      assert selected[..i] == selected;
      levels := next;
    }

    /** `reset`: every selected key's level becomes 50; unselected keys keep theirs. */
    method Reset()
      requires Valid()
      modifies this
      ensures Valid() && selected == old(selected)
      ensures levels.Keys == old(levels).Keys + set k | k in selected
      ensures forall k :: k in levels ==> levels[k] == if k in selected then JNum(DefaultLevel) else old(levels)[k]
    {
      var next := levels;
      var i := 0;
      while i < |selected|
        invariant 0 <= i <= |selected|
        invariant next.Keys == levels.Keys + set k | k in selected[..i]
        invariant forall k :: k in next ==> next[k] == if k in selected[..i] then JNum(DefaultLevel) else levels[k]
      {
        assert selected[..i + 1] == selected[..i] + [selected[i]];
        next := next[selected[i] := JNum(DefaultLevel)];
        i := i + 1;
      }
      assert selected[..i] == selected;
      levels := next;
    }

    /**
     * `randomise`: each selected key gets `Math.floor(r * 101)` for its own draw
     * `r` of `Math.random()`, a whole number from 0 to 100; unselected keys keep theirs.
     */
    method Randomise(draws: seq<real>)
      requires Valid()
      requires |draws| == |selected|
      requires forall i :: 0 <= i < |draws| ==> 0.0 <= draws[i] < 1.0
      modifies this
      ensures Valid() && selected == old(selected)
      ensures levels.Keys == old(levels).Keys + set k | k in selected
      ensures forall k :: k in selected ==> IsWholePercent(levels[k])
      ensures forall k :: k in levels && k !in selected ==> levels[k] == old(levels)[k]
    {
      var next := levels;
      var i := 0;
      while i < |selected|
        invariant 0 <= i <= |selected|
        invariant next.Keys == levels.Keys + set k | k in selected[..i]
        invariant forall k :: k in selected[..i] ==> IsWholePercent(next[k])
        invariant forall k :: k in next && k !in selected[..i] ==> next[k] == levels[k]
      {
        assert selected[..i + 1] == selected[..i] + [selected[i]];
        var m := (draws[i] * 101.0).Floor;
        assert 0 <= m <= 100 by {
          assert 0.0 <= draws[i] * 101.0 < 101.0;
        }
        next := next[selected[i] := JNum(m as real)];
        i := i + 1;
      }
      assert selected[..i] == selected;
      levels := next;
    }

    /**
     * The document `exportJSON` writes. A state accessor: it reads the board's
     * selection and levels into `ExportPayload`, where the export's properties are proved.
     */
    function Export(): (p: Payload)
      reads this
      ensures p == ExportPayload(selected, levels)
    {
      ExportPayload(selected, levels)
    }

    /**
     * `importJSON` with an already parsed document: when the guard holds, the
     * selection becomes the imported one and the imported levels override the
     * stored ones (without clamping); otherwise nothing changes.
     */
    method Import(data: Json)
      requires Valid()
      modifies this
      ensures Valid()
      ensures ImportRequest(data).None? ==> selected == old(selected) && levels == old(levels)
      ensures ImportRequest(data).Some? ==>
                selected == ImportedSelection(table, ImportRequest(data).value.0) &&
                levels == Spread(old(levels), ImportRequest(data).value.1)
    {
      match ImportRequest(data)
      case None =>
      case Some((items, lv)) =>
        selected := ImportedSelection(table, items);
        levels := Spread(levels, lv);
    }
  }

  /** The known-key filter of the import keeps achiever and empathy and drops the unknown key. */
  lemma ImportScenarioSelection(table: seq<Strength>)
    requires IsKnown(table, "achiever") && IsKnown(table, "empathy") && !IsKnown(table, "not-a-real-key")
    ensures ImportedSelection(table, [JStr("achiever"), JStr("not-a-real-key"), JStr("empathy")]) == ["achiever", "empathy"]
  {
    var items := [JStr("achiever"), JStr("not-a-real-key"), JStr("empathy")];
    assert items[1..] == [JStr("not-a-real-key"), JStr("empathy")];
    assert items[1..][1..] == [JStr("empathy")];
    assert items[1..][1..][1..] == [];
    assert KnownKeys(table, items[1..][1..]) == ["empathy"];
    assert KnownKeys(table, items[1..]) == ["empathy"];
  }

  /**
   * Importing `{selected: ["achiever", "not-a-real-key", "empathy"], levels: {achiever: 80}}`
   * and letting the defaulting step run selects achiever and empathy, with levels 80 and 50.
   */
  method ImportScenario(table: seq<Strength>) returns (sel: seq<string>, achiever: Json, empathy: Json)
    requires IsKnown(table, "achiever") && IsKnown(table, "empathy") && !IsKnown(table, "not-a-real-key")
    ensures sel == ["achiever", "empathy"]
    ensures achiever == JNum(80.0) && empathy == JNum(DefaultLevel)
  {
    var board := new Soundboard(table);
    var items := [JStr("achiever"), JStr("not-a-real-key"), JStr("empathy")];
    var imported := map["achiever" := JNum(80.0)];
    var data := JObj(map["selected" := JArr(items), "levels" := JObj(imported)]);
    assert ImportRequest(data) == Some((items, JObj(imported)));
    ImportScenarioSelection(table);
    board.Import(data);
    assert board.levels == imported;
    board.ApplyLevelDefaults();
    assert "empathy" != "achiever";
    sel := board.selected;
    achiever := board.levels["achiever"];
    empathy := board.levels["empathy"];
  }
}
