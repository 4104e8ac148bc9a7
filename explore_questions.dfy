/**
 * The coaching-question dialog of src/components/ExploreThemeQuestions.jsx:
 * question ids, the Fisher-Yates shuffle (with the random draws as a
 * parameter), the prompts it shows, and the per-theme starred questions.
 */
module ExploreThemeQuestions {
  import opened Wrappers
  import SeqUtils

  /** `makeQuestionId(themeKey, question)`: the key, "::", then the question. */
  function MakeQuestionId(themeKey: string, question: string): (id: string)
    ensures |id| == |themeKey| + 2 + |question|
    ensures id[..|themeKey|] == themeKey && id[|themeKey|..|themeKey| + 2] == "::" && id[|themeKey| + 2..] == question
  {
    themeKey + "::" + question
  }

  /** Within one theme, the id gives back its question, so distinct questions get distinct ids. */
  lemma QuestionIdInjective(themeKey: string, q1: string, q2: string)
    ensures MakeQuestionId(themeKey, q1) == MakeQuestionId(themeKey, q2) <==> q1 == q2
  {
    if MakeQuestionId(themeKey, q1) == MakeQuestionId(themeKey, q2) {
      assert q1 == MakeQuestionId(themeKey, q1)[|themeKey| + 2..];
    }
  }

  /**
   * Across themes the id is ambiguous; favourites stay apart only because they
   * are stored per theme key.
   */
  lemma QuestionIdAmbiguousAcrossThemes()
    ensures MakeQuestionId("a::b", "c") == MakeQuestionId("a", "b::c")
  {
  }

  /** `Math.floor(Math.random() * (i + 1))` for a draw `d` in [0, 1). */
  function SwapIndex(d: real, i: nat): (j: int)
    requires 0.0 <= d < 1.0
    ensures 0 <= j <= i
  {
    ScaledDrawBelow(d, i + 1);
    (d * (i + 1) as real).Floor
  }

  /** A draw in [0, 1) scaled by `n` lies in [0, n). */
  lemma ScaledDrawBelow(d: real, n: nat)
    requires 0.0 <= d < 1.0 && n > 0
    ensures 0.0 <= d * n as real < n as real
  {
    assert d * n as real < 1.0 * n as real;
  }

  /** Every index in [0, i] is drawn by some value in [0, 1). */
  lemma SwapIndexCovers(i: nat, j: nat)
    requires j <= i
    ensures 0.0 <= j as real / (i + 1) as real < 1.0
    ensures SwapIndex(j as real / (i + 1) as real, i) == j
  {
    var d := j as real / (i + 1) as real;
    assert d * (i + 1) as real == j as real;
  }

  /** The draws of one shuffle: one value in [0, 1) per position. */
  ghost predicate ValidDraws(draws: seq<real>, n: nat)
  {
    |draws| >= n && forall k :: 0 <= k < |draws| ==> 0.0 <= draws[k] < 1.0
  }

  /** The swap indices of one shuffle: for each position i from 1 on, an index in [0, i]. */
  ghost predicate ValidSwaps(swaps: seq<int>, n: nat)
  {
    |swaps| >= n && forall k :: 0 < k < n ==> 0 <= swaps[k] <= k
  }

  /** The swap index each draw gives, position by position. */
  function SwapsOf(draws: seq<real>, n: nat): (swaps: seq<int>)
    requires ValidDraws(draws, n)
    ensures |swaps| == n && ValidSwaps(swaps, n)
    ensures forall k :: 0 <= k < n ==> swaps[k] == SwapIndex(draws[k], k)
  {
    seq(n, k requires 0 <= k < n => SwapIndex(draws[k], k))
  }

  /** `[a[i], a[j]] = [a[j], a[i]]` on a sequence. */
  function Swap<T>(s: seq<T>, i: nat, j: nat): (r: seq<T>)
    requires i < |s| && j < |s|
    ensures |r| == |s|
  {
    s[i := s[j]][j := s[i]]
  }

  /** A swap keeps the multiset of elements. */
  lemma SwapPermutes<T>(s: seq<T>, i: nat, j: nat)
    requires i < |s| && j < |s|
    ensures multiset(Swap(s, i, j)) == multiset(s)
  {
  }

  /** The shuffle's remaining steps: positions `i` down to 1, each swapped with its index at or below it. */
  function ShuffleFrom<T>(s: seq<T>, swaps: seq<int>, i: int): (r: seq<T>)
    requires i < |s| && ValidSwaps(swaps, |s|)
    decreases i
  {
    if i <= 0 then s
    else ShuffleFrom(Swap(s, i, swaps[i]), swaps, i - 1)
  }

  /** `shuffle(arr)` with its swap indices given. */
  function Shuffled<T>(s: seq<T>, swaps: seq<int>): (r: seq<T>)
    requires ValidSwaps(swaps, |s|)
    ensures |r| == |s| && multiset(r) == multiset(s)
  {
    ShuffleFromPermutes(s, swaps, |s| - 1);
    ShuffleFrom(s, swaps, |s| - 1)
  }

  /** Each remaining step only swaps, so the result is a permutation of the input. */
  lemma {:induction false} ShuffleFromPermutes<T>(s: seq<T>, swaps: seq<int>, i: int)
    requires i < |s| && ValidSwaps(swaps, |s|)
    ensures |ShuffleFrom(s, swaps, i)| == |s|
    ensures multiset(ShuffleFrom(s, swaps, i)) == multiset(s)
    decreases i
  {
    if i > 0 {
      SwapPermutes(s, i, swaps[i]);
      ShuffleFromPermutes(Swap(s, i, swaps[i]), swaps, i - 1);
    }
  }

  /** `[a[i], a[j]] = [a[j], a[i]]` in place. */
  method SwapElements<T>(a: array<T>, i: nat, j: nat)
    requires i < a.Length && j < a.Length
    modifies a
    ensures a[..] == Swap(old(a[..]), i, j)
  {
    a[i], a[j] := a[j], a[i];
  }

  /**
   * `shuffle(arr)`: copies the input into a fresh array and swaps in place from
   * the last position down; the caller's sequence is a value and stays as it was.
   */
  method Shuffle<T>(arr: seq<T>, swaps: seq<int>) returns (r: seq<T>)
    requires ValidSwaps(swaps, |arr|)
    ensures r == Shuffled(arr, swaps)
    ensures |r| == |arr| && multiset(r) == multiset(arr)
  {
    var a := CopyOf(arr);
    var i := a.Length - 1;
    while i > 0
      invariant i < a.Length == |arr|
      invariant ShuffleFrom(a[..], swaps, i) == Shuffled(arr, swaps)
    {
      ghost var before := a[..];
      SwapElements(a, i, swaps[i]);
      ShuffleStep(before, swaps, i);
      i := i - 1;
    }
    r := a[..];
  }

  /** `[...arr]`: a fresh array holding the sequence. */
  method CopyOf<T>(s: seq<T>) returns (a: array<T>)
    ensures fresh(a) && a[..] == s
  {
    a := new T[|s|](k requires 0 <= k < |s| => s[k]);
  }

  /** One step of the shuffle: swap position `i` with its index, then go on below `i`. */
  lemma ShuffleStep<T>(s: seq<T>, swaps: seq<int>, i: int)
    requires 0 < i < |s| && ValidSwaps(swaps, |s|)
    ensures ShuffleFrom(s, swaps, i) == ShuffleFrom(Swap(s, i, swaps[i]), swaps, i - 1)
  {
  }

  /** `themeQuestions`: no questions without a theme key or for a key missing from the bank. */
  function ThemeQuestions(themeKey: string, bank: map<string, seq<string>>): (qs: seq<string>)
    ensures themeKey == "" || themeKey !in bank ==> qs == []
    ensures themeKey != "" && themeKey in bank ==> qs == bank[themeKey]
  {
    if themeKey == "" then []
    else if themeKey in bank then bank[themeKey]
    else []
  }

  /** `Math.min(count, n)`. */
  function Min(a: int, b: int): int
  {
    if a <= b then a else b
  }

  /** What `randomise` shows: nothing without questions, else the first min(count, n) of a shuffle. */
  function Picked(themeKey: string, bank: map<string, seq<string>>, count: int, draws: seq<real>): (r: seq<string>)
    requires ValidDraws(draws, |ThemeQuestions(themeKey, bank)|)
    ensures themeKey == "" || themeKey !in bank || bank[themeKey] == [] ==> r == []
    ensures themeKey != "" && themeKey in bank && count >= 0 ==> |r| == Min(count, |bank[themeKey]|)
  {
    var qs := ThemeQuestions(themeKey, bank);
    if themeKey == "" || |qs| == 0 then []
    else SeqUtils.SliceTo(Shuffled(qs, SwapsOf(draws, |qs|)), Min(count, |qs|))
  }

  /** The prompts shown are drawn from the theme's bank, no question more often than it is there. */
  lemma PickedShape(themeKey: string, bank: map<string, seq<string>>, count: int, draws: seq<real>)
    requires ValidDraws(draws, |ThemeQuestions(themeKey, bank)|)
    ensures multiset(Picked(themeKey, bank, count, draws)) <= multiset(ThemeQuestions(themeKey, bank))
    ensures forall q :: q in Picked(themeKey, bank, count, draws) ==> q in ThemeQuestions(themeKey, bank)
  {
    var qs := ThemeQuestions(themeKey, bank);
    if themeKey != "" && |qs| != 0 {
      var sh := Shuffled(qs, SwapsOf(draws, |qs|));
      var p := SeqUtils.SliceTo(sh, Min(count, |qs|));
      assert sh == p + sh[|p|..];
      assert multiset(sh) == multiset(p) + multiset(sh[|p|..]);
      forall q | q in p ensures q in qs {
        assert q in multiset(p);
        assert q in multiset(sh);
        assert q in multiset(qs);
      }
    }
  }

  /** With a count of at least n, the prompts are all of the theme's questions, reordered. */
  lemma PickedAllWhenCountLarge(themeKey: string, bank: map<string, seq<string>>, count: int, draws: seq<real>)
    requires ValidDraws(draws, |ThemeQuestions(themeKey, bank)|)
    requires themeKey != "" && themeKey in bank && count >= |bank[themeKey]|
    ensures multiset(Picked(themeKey, bank, count, draws)) == multiset(bank[themeKey])
  {
    var qs := bank[themeKey];
    if |qs| != 0 {
      var swaps := SwapsOf(draws, |qs|);
      assert SeqUtils.SliceTo(Shuffled(qs, swaps), |qs|) == Shuffled(qs, swaps);
    }
  }

  /** `Boolean(themeFavs[qid])`: a missing theme or question is not starred. */
  predicate IsStarred(favourites: map<string, map<string, bool>>, themeKey: string, qid: string)
  {
    themeKey in favourites && qid in favourites[themeKey] && favourites[themeKey][qid]
  }

  /** `toggleStar(question)`'s update: flip `!nextTheme[qid]` inside a copy of the theme's entry. */
  function ToggledFavourites(favourites: map<string, map<string, bool>>, themeKey: string, question: string)
    : (r: map<string, map<string, bool>>)
    ensures themeKey == "" ==> r == favourites
    ensures themeKey != "" ==> r.Keys == favourites.Keys + {themeKey}
    ensures forall t :: t != themeKey && t in favourites ==> r[t] == favourites[t]
  {
    if themeKey == "" then favourites
    else
      var qid := MakeQuestionId(themeKey, question);
      var prevTheme := if themeKey in favourites then favourites[themeKey] else map[];
      favourites[themeKey := prevTheme[qid := !(qid in prevTheme && prevTheme[qid])]]
  }

  /** A toggle flips exactly the starred state of (theme, question id) and leaves every other one alone. */
  lemma ToggleFlipsOnlyOne(favourites: map<string, map<string, bool>>, themeKey: string, question: string)
    requires themeKey != ""
    ensures forall t, q ::
              IsStarred(ToggledFavourites(favourites, themeKey, question), t, q) ==
              (if t == themeKey && q == MakeQuestionId(themeKey, question) then !IsStarred(favourites, t, q)
               else IsStarred(favourites, t, q))
  {
  }

  /** Starring twice gives back the starred state of every question. */
  lemma ToggleTwiceRestores(favourites: map<string, map<string, bool>>, themeKey: string, question: string)
    ensures forall t, q ::
              IsStarred(ToggledFavourites(ToggledFavourites(favourites, themeKey, question), themeKey, question), t, q) ==
              IsStarred(favourites, t, q)
  {
    if themeKey != "" {
      ToggleFlipsOnlyOne(favourites, themeKey, question);
      ToggleFlipsOnlyOne(ToggledFavourites(favourites, themeKey, question), themeKey, question);
    }
  }

  /** `Object.values(themeFavs).some(Boolean)`: the "saved on this device" note. */
  predicate AnyStarred(favourites: map<string, map<string, bool>>, themeKey: string)
  {
    themeKey in favourites && exists qid :: qid in favourites[themeKey] && favourites[themeKey][qid]
  }

  /** After starring a question that was not starred, the note shows. */
  lemma StarShowsNote(favourites: map<string, map<string, bool>>, themeKey: string, question: string)
    requires themeKey != "" && !IsStarred(favourites, themeKey, MakeQuestionId(themeKey, question))
    ensures AnyStarred(ToggledFavourites(favourites, themeKey, question), themeKey)
  {
    var qid := MakeQuestionId(themeKey, question);
    ToggleFlipsOnlyOne(favourites, themeKey, question);
    assert IsStarred(ToggledFavourites(favourites, themeKey, question), themeKey, qid);
  }

  /** The dialog's state. */
  class ExploreDialog {
    var open: bool
    var displayQuestions: seq<string>
    var favourites: map<string, map<string, bool>>

    /** Closed, no prompts, no favourites. */
    constructor ()
      ensures !open && displayQuestions == [] && favourites == map[]
    {
      open := false;
      displayQuestions := [];
      favourites := map[];
    }

    /** `randomise()` for the current theme, bank and count. */
    method Randomise(selectedThemeKey: Option<string>, bank: map<string, seq<string>>, count: int, draws: seq<real>)
      requires ValidDraws(draws, |ThemeQuestions(selectedThemeKey.GetOr(""), bank)|)
      modifies this
      ensures displayQuestions == Picked(selectedThemeKey.GetOr(""), bank, count, draws)
      ensures open == old(open) && favourites == old(favourites)
    {
      var themeKey := selectedThemeKey.GetOr("");
      var themeQuestions := ThemeQuestions(themeKey, bank);
      if themeKey == "" || |themeQuestions| == 0 {
        displayQuestions := [];
        return;
      }
      var shuffled := Shuffle(themeQuestions, SwapsOf(draws, |themeQuestions|));
      displayQuestions := SeqUtils.SliceTo(shuffled, Min(count, |themeQuestions|));
    }

    /** Opening the dialog draws a fresh set of prompts; closing keeps them. */
    method SetOpen(v: bool, selectedThemeKey: Option<string>, bank: map<string, seq<string>>, count: int, draws: seq<real>)
      requires ValidDraws(draws, |ThemeQuestions(selectedThemeKey.GetOr(""), bank)|)
      modifies this
      ensures open == v && favourites == old(favourites)
      ensures v ==> displayQuestions == Picked(selectedThemeKey.GetOr(""), bank, count, draws)
      ensures !v ==> displayQuestions == old(displayQuestions)
    {
      open := v;
      if v {
        Randomise(selectedThemeKey, bank, count, draws);
      }
    }

    /** `toggleStar(question)`: ignored without a theme key. */
    method ToggleStar(selectedThemeKey: Option<string>, question: string)
      modifies this
      ensures favourites == ToggledFavourites(old(favourites), selectedThemeKey.GetOr(""), question)
      ensures open == old(open) && displayQuestions == old(displayQuestions)
    {
      var themeKey := selectedThemeKey.GetOr("");
      if themeKey == "" {
        return;
      }
      var qid := MakeQuestionId(themeKey, question);
      var nextTheme := if themeKey in favourites then favourites[themeKey] else map[];
      nextTheme := nextTheme[qid := !(qid in nextTheme && nextTheme[qid])];
      favourites := favourites[themeKey := nextTheme];
    }
  }
}
