/** The theme picker of src/components/Picker.jsx: search filter, capacity rule and badges. */
module Picker {
  import opened Strengths
  import SeqUtils
  import Text

  /** A theme matches when its lower-cased name includes the lower-cased query. */
  predicate Matches(query: string, s: Strength)
  {
    Text.Includes(Text.ToLower(s.name), Text.ToLower(query))
  }

  /** `STRENGTHS.filter(...)`: the matching themes, in table order; an empty query keeps all. */
  function Filtered(table: seq<Strength>, query: string): (r: seq<Strength>)
    ensures forall s :: s in r <==> s in table && Matches(query, s)
    ensures query == "" ==> r == table
  {
    var r := SeqUtils.Filter(table, s => Matches(query, s));
    assert query == "" ==> r == table by {
      if query == "" {
        forall i | 0 <= i < |table| ensures Matches(query, table[i]) {
          Text.IncludesEmpty(Text.ToLower(table[i].name));
        }
        SeqUtils.FilterKeepsAll(table, s => Matches(query, s));
      }
    }
    r
  }

  /** Filtering a table split in two filters each part: table order is kept. */
  lemma FilteredKeepsOrder(a: seq<Strength>, b: seq<Strength>, query: string)
    ensures Filtered(a + b, query) == Filtered(a, query) + Filtered(b, query)
  {
    SeqUtils.FilterAppend(a, b, s => Matches(query, s));
  }

  /** A one-theme table keeps its theme exactly when it matches, so with the order lemma each match appears once. */
  lemma FilteredOne(s: Strength, query: string)
    ensures Filtered([s], query) == if Matches(query, s) then [s] else []
  {
    SeqUtils.FilterOne(s, t => Matches(query, t));
  }

  /** The search ignores the case of the query. */
  lemma FilteredIgnoresQueryCase(table: seq<Strength>, query: string)
    ensures Filtered(table, Text.ToLower(query)) == Filtered(table, query)
  {
    Text.ToLowerIdempotent(query);
    SeqUtils.FilterCongruent(table, s => Matches(Text.ToLower(query), s), s => Matches(query, s));
  }

  /** `selected.length < max`: there is room for one more theme within `max`. */
  predicate CanAddMore(selected: seq<string>, max: int): (can: bool)
    ensures can <==> |selected| + 1 <= max
  {
    |selected| < max
  }

  /** A theme's button is disabled when the theme is unselected and no more can be added. */
  function ButtonDisabled(key: string, selected: seq<string>, max: int): (d: bool)
    ensures d ==> key !in selected
    ensures d <==> key !in selected && !CanAddMore(selected, max)
  {
    var selectedNow := key in selected;
    !selectedNow && !CanAddMore(selected, max)
  }

  /** The badge row: the names of the selected keys that are in the table, in selection order. */
  function Badges(table: seq<Strength>, selected: seq<string>): (r: seq<string>)
    ensures |r| <= |selected|
    ensures (forall k :: k in selected ==> IsKnown(table, k)) ==> |r| == |selected|
    ensures forall j :: 0 <= j < |r| ==> exists s :: s in table && s.name == r[j]
  {
    if selected == [] then []
    else
      var rest := Badges(table, selected[1..]);
      assert selected[0] in selected && forall k :: k in selected[1..] ==> k in selected;
      match Find(table, selected[0])
      case None => rest
      case Some(s) => [s.name] + rest
  }

  /** Badges for a selection made of two parts are the two parts' badges, in order. */
  lemma {:induction false} BadgesKeepOrder(table: seq<Strength>, a: seq<string>, b: seq<string>)
    ensures Badges(table, a + b) == Badges(table, a) + Badges(table, b)
  {
    if a == [] {
      assert a + b == b;
    } else {
      assert (a + b)[1..] == a[1..] + b;
      BadgesKeepOrder(table, a[1..], b);
    }
  }

  /** A single selected key gives its theme's name when the key is known, and no badge otherwise. */
  lemma BadgesOne(table: seq<Strength>, k: string)
    ensures Badges(table, [k]) == (if IsKnown(table, k) then [Find(table, k).value.name] else [])
  {
    assert [k][1..] == [];
  }
}
