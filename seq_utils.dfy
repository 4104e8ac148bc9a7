/** List rules shared by the selection lists of the soundboard and the dominant-themes wheel. */
module SeqUtils {

  /** No element occurs twice. */
  ghost predicate NoDup<T>(s: seq<T>) {
    forall i, j :: 0 <= i < j < |s| ==> s[i] != s[j]
  }

  /** `s.filter(p)`: the elements satisfying `p`, in their original order. */
  function Filter<T(!new)>(s: seq<T>, p: T -> bool): (r: seq<T>)
    ensures forall x :: x in r <==> x in s && p(x)
    ensures |r| <= |s|
    ensures |r| == |s| <==> forall i :: 0 <= i < |s| ==> p(s[i])
  {
    if s == [] then []
    else if p(s[0]) then [s[0]] + Filter(s[1..], p)
    else Filter(s[1..], p)
  }

  /** Filtering distributes over concatenation, so the kept elements stay in input order. */
  lemma {:induction false} FilterAppend<T(!new)>(a: seq<T>, b: seq<T>, p: T -> bool)
    ensures Filter(a + b, p) == Filter(a, p) + Filter(b, p)
  {
    if a == [] {
      assert a + b == b;
    } else {
      assert (a + b)[1..] == a[1..] + b;
      FilterAppend(a[1..], b, p);
    }
  }

  /** A one-element list keeps its element exactly when the element passes. */
  lemma FilterOne<T(!new)>(x: T, p: T -> bool)
    ensures Filter([x], p) == if p(x) then [x] else []
  {
    assert [x][1..] == [];
  }

  /** Filters with predicates that agree on every element give the same result. */
  lemma {:induction false} FilterCongruent<T(!new)>(s: seq<T>, p: T -> bool, q: T -> bool)
    requires forall x :: p(x) == q(x)
    ensures Filter(s, p) == Filter(s, q)
  {
    if s != [] {
      FilterCongruent(s[1..], p, q);
    }
  }

  /** Filtering keeps a duplicate-free list duplicate-free. */
  lemma {:induction false} FilterNoDup<T(!new)>(s: seq<T>, p: T -> bool)
    requires NoDup(s)
    ensures NoDup(Filter(s, p))
  {
    if s != [] {
      assert NoDup(s[1..]) by {
        forall i, j | 0 <= i < j < |s[1..]| ensures s[1..][i] != s[1..][j] {
          assert s[1..][i] == s[i + 1] && s[1..][j] == s[j + 1];
        }
      }
      FilterNoDup(s[1..], p);
      var rest := Filter(s[1..], p);
      if p(s[0]) {
        assert s[0] !in rest;
        var r := [s[0]] + rest;
        forall i, j | 0 <= i < j < |r| ensures r[i] != r[j] {
          if i == 0 {
            assert r[j] == rest[j - 1];
          } else {
            assert r[i] == rest[i - 1] && r[j] == rest[j - 1];
          }
        }
      }
    }
  }

  /** The test `x => x !== v`. */
  function Other<T(==)>(v: T): T -> bool
  {
    x => x != v
  }

  /** `s.filter(x => x !== v)`: every occurrence of `v` removed, the others kept in order. */
  function RemoveAll<T(==,!new)>(s: seq<T>, v: T): (r: seq<T>)
    ensures forall x :: x in r <==> x in s && x != v
    ensures v in s ==> |r| < |s|
    ensures v !in s ==> r == s
  {
    var r := Filter(s, Other(v));
    assert v in s ==> |r| < |s| by {
      if v in s {
        var i :| 0 <= i < |s| && s[i] == v;
      }
    }
    assert v !in s ==> r == s by {
      if v !in s {
        FilterKeepsAll(s, Other(v));
      }
    }
    r
  }

  /** Removal distributes over concatenation: the kept elements stay in input order. */
  lemma RemoveAllAppend<T(!new)>(a: seq<T>, b: seq<T>, v: T)
    ensures RemoveAll(a + b, v) == RemoveAll(a, v) + RemoveAll(b, v)
  {
    FilterAppend(a, b, Other(v));
  }

  /** A one-element list loses its element exactly when it is the removed value. */
  lemma RemoveAllOne<T(!new)>(x: T, v: T)
    ensures RemoveAll([x], v) == if x == v then [] else [x]
  {
    FilterOne(x, Other(v));
  }

  /** A filter that every element passes changes nothing. */
  lemma {:induction false} FilterKeepsAll<T(!new)>(s: seq<T>, p: T -> bool)
    requires forall i :: 0 <= i < |s| ==> p(s[i])
    ensures Filter(s, p) == s
  {
    if s != [] {
      FilterKeepsAll(s[1..], p);
      assert [s[0]] + s[1..] == s;
    }
  }

  /** Removing a key that was just appended to a list without it gives the list back. */
  lemma RemoveAllAppended<T(!new)>(s: seq<T>, v: T)
    requires v !in s
    ensures RemoveAll(s + [v], v) == s
  {
    FilterAppend(s, [v], Other(v));
    FilterKeepsAll(s, Other(v));
    assert Filter([v], Other(v)) == [] by {
      assert [v][1..] == [];
    }
  }

  /** In a duplicate-free list, removing the element at index `i` removes exactly that position. */
  lemma {:induction false} RemoveAllAt<T(!new)>(s: seq<T>, i: nat)
    requires NoDup(s) && i < |s|
    ensures RemoveAll(s, s[i]) == s[..i] + s[i + 1..]
  {
    var v := s[i];
    var p := Other(v);
    assert s == s[..i] + ([s[i]] + s[i + 1..]);
    FilterAppend(s[..i], [s[i]] + s[i + 1..], p);
    FilterAppend([s[i]], s[i + 1..], p);
    assert Filter([s[i]], p) == [] by {
      assert [s[i]][1..] == [];
    }
    FilterKeepsAll(s[..i], p);
    FilterKeepsAll(s[i + 1..], p);
  }

  /**
   * Toggle a key in a bounded list: a present key is removed; an absent key is
   * appended when fewer than `cap` are held, and otherwise nothing happens.
   */
  function ToggleCapped<T(==,!new)>(prev: seq<T>, key: T, cap: nat): (r: seq<T>)
    ensures key in r <==> key !in prev && |prev| < cap
    ensures forall x :: x != key ==> (x in r <==> x in prev)
    ensures key in prev ==> r == RemoveAll(prev, key)
    ensures key !in prev && |prev| >= cap ==> r == prev
    ensures key !in prev && |prev| < cap ==> r == prev + [key]
    ensures |prev| <= cap ==> |r| <= cap
    ensures NoDup(prev) ==> NoDup(r)
  {
    if key in prev then
      var r := RemoveAll(prev, key);
      assert NoDup(prev) ==> NoDup(r) by {
        if NoDup(prev) {
          FilterNoDup(prev, Other(key));
        }
      }
      r
    else if |prev| >= cap then prev
    else prev + [key]
  }

  /** `s.slice(0, end)`: a negative end counts from the back; the end is clamped into [0, |s|]. */
  function SliceTo<T>(s: seq<T>, end: int): (r: seq<T>)
    ensures r <= s
    ensures 0 <= end ==> |r| == if end < |s| then end else |s|
    ensures end < 0 ==> |r| == if |s| + end < 0 then 0 else |s| + end
  {
    var e := if end < 0 then (if |s| + end < 0 then 0 else |s| + end)
             else if end < |s| then end else |s|;
    s[..e]
  }
}
