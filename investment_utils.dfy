/**
 * `generateCombinedInvestment` of src/utils/investmentUtils.js: one bullet line per
 * selected key that has investment tips, joined by newlines. The tips table
 * (src/data/investmentGuides.js) and the strengths table are parameters.
 */
module InvestmentUtils {
  import opened Wrappers
  import opened Strengths
  import SeqUtils
  import Text

  /** The bullet prefix exactly as the file spells it: 'â', '€', '¢' and a space. */
  const Bullet: string := "\U{00E2}\U{20AC}\U{00A2} "

  /** `${tips[0]}`: the first tip, or the text "undefined" for an empty tips list. */
  function FirstTip(tips: seq<string>): (r: string)
    ensures |tips| > 0 ==> r == tips[0]
    ensures |tips| == 0 ==> r == "undefined"
  {
    if |tips| > 0 then tips[0] else "undefined"
  }

  /** `STRENGTHS.find((s) => s.key === k)?.name ?? k`: the theme's name, or the raw key. */
  function DisplayName(table: seq<Strength>, k: string): (r: string)
    ensures Find(table, k).Some? ==> r == Find(table, k).value.name
    ensures Find(table, k).None? ==> r == k
  {
    match Find(table, k)
    case Some(s) => s.name
    case None => k
  }

  /** The line pushed for a key that has tips. */
  function Line(table: seq<Strength>, guides: map<string, seq<string>>, k: string): (r: string)
    requires k in guides
    ensures r == Bullet + DisplayName(table, k) + ": " + FirstTip(guides[k])
    ensures r != "" && Text.Count(r, '\n') == Text.Count(DisplayName(table, k), '\n') + Text.Count(FirstTip(guides[k]), '\n')
  {
    var r := Bullet + DisplayName(table, k) + ": " + FirstTip(guides[k]);
    Text.CountAppend(Bullet + DisplayName(table, k), ": " + FirstTip(guides[k]), '\n');
    Text.CountAppend(Bullet, DisplayName(table, k), '\n');
    Text.CountAppend(": ", FirstTip(guides[k]), '\n');
    assert Bullet + DisplayName(table, k) + ": " + FirstTip(guides[k]) ==
           (Bullet + DisplayName(table, k)) + (": " + FirstTip(guides[k]));
    Text.CountAbsent(Bullet, '\n');
    Text.CountAbsent(": ", '\n');
    r
  }

  /** The lines the loop pushes for `keys`, in order (specification of the loop). */
  function Lines(table: seq<Strength>, guides: map<string, seq<string>>, keys: seq<string>): (r: seq<string>)
    ensures |r| <= |keys|
    ensures forall line :: line in r ==> exists k :: k in keys && k in guides && line == Line(table, guides, k)
  {
    if keys == [] then []
    else
      var k := keys[|keys| - 1];
      var init := keys[..|keys| - 1];
      assert forall x :: x in init ==> x in keys;
      Lines(table, guides, init) + (if k in guides then [Line(table, guides, k)] else [])
  }

  /** The keys that produce a line: those with an entry in the tips table, in input order. */
  function KeysWithTips(guides: map<string, seq<string>>, keys: seq<string>): (r: seq<string>)
    ensures forall k :: k in r <==> k in keys && k in guides
  {
    SeqUtils.Filter(keys, k => k in guides)
  }

  /**
   * There is exactly one line per key that has tips, in input order, and the
   * j-th line belongs to the j-th such key; keys without tips contribute nothing.
   */
  lemma {:induction false} LinesPerKey(table: seq<Strength>, guides: map<string, seq<string>>, keys: seq<string>)
    ensures |Lines(table, guides, keys)| == |KeysWithTips(guides, keys)|
    ensures forall j :: 0 <= j < |Lines(table, guides, keys)| ==>
              KeysWithTips(guides, keys)[j] in guides &&
              Lines(table, guides, keys)[j] == Line(table, guides, KeysWithTips(guides, keys)[j])
  {
    if keys != [] {
      var init, k := keys[..|keys| - 1], keys[|keys| - 1];
      LinesPerKey(table, guides, init);
      assert keys == init + [k];
      SeqUtils.FilterAppend(init, [k], k => k in guides);
      assert SeqUtils.Filter([k], k => k in guides) == (if k in guides then [k] else []) by {
        assert [k][1..] == [];
      }
    }
  }

  /** The combined text: every pushed line, separated by "\n". */
  method GenerateCombinedInvestment(table: seq<Strength>, guides: map<string, seq<string>>, selectedKeys: seq<string>)
    returns (text: string)
    ensures text == Text.Join(Lines(table, guides, selectedKeys), "\n")
  {
    var lines: seq<string> := [];
    var i := 0;
    while i < |selectedKeys|
      invariant 0 <= i <= |selectedKeys|
      invariant lines == Lines(table, guides, selectedKeys[..i])
    {
      var k := selectedKeys[i];
      assert selectedKeys[..i + 1][..i] == selectedKeys[..i];
      if k in guides {
        lines := lines + [Line(table, guides, k)];
      }
      i := i + 1;
    }
    assert selectedKeys[..i] == selectedKeys;
    text := Text.Join(lines, "\n");
  }

  /** The text is empty exactly when no selected key has tips (in particular for no keys at all). */
  lemma CombinedEmptyIff(table: seq<Strength>, guides: map<string, seq<string>>, keys: seq<string>)
    ensures Text.Join(Lines(table, guides, keys), "\n") == "" <==> forall k :: k in keys ==> k !in guides
  {
    LinesPerKey(table, guides, keys);
    var ks := KeysWithTips(guides, keys);
    Text.JoinEmpty(Lines(table, guides, keys), "\n");
    if ks != [] {
      assert ks[0] in keys && ks[0] in guides;
    }
  }

  /**
   * When no name or first tip contains a newline, the text holds exactly one newline
   * between consecutive lines and none at the end.
   */
  lemma CombinedNewlines(table: seq<Strength>, guides: map<string, seq<string>>, keys: seq<string>)
    requires forall k :: k in keys && k in guides ==>
               Text.Count(DisplayName(table, k), '\n') == 0 && Text.Count(FirstTip(guides[k]), '\n') == 0
    requires exists k :: k in keys && k in guides
    ensures Text.Count(Text.Join(Lines(table, guides, keys), "\n"), '\n') == |KeysWithTips(guides, keys)| - 1
  {
    LinesPerKey(table, guides, keys);
    var ls := Lines(table, guides, keys);
    var ks := KeysWithTips(guides, keys);
    var k :| k in keys && k in guides;
    assert k in ks;
    forall j | 0 <= j < |ls| ensures Text.Count(ls[j], '\n') == 0 {
      assert ks[j] in ks;
    }
    Text.JoinSeparatorCount(ls, '\n');
  }
}
