/** The shape of an already parsed JSON document, and the JavaScript operations the import applies to it. */
module Json {
  import opened Wrappers

  datatype Json =
    | JNull
    | JBool(b: bool)
    | JNum(n: real)
    | JStr(s: string)
    | JArr(items: seq<Json>)
    | JObj(fields: map<string, Json>)

  /** `typeof v`: null and arrays both report "object". */
  function TypeOf(v: Json): (t: string)
    ensures t == "object" <==> v.JNull? || v.JArr? || v.JObj?
  {
    match v
    case JNull => "object"
    case JBool(_) => "boolean"
    case JNum(_) => "number"
    case JStr(_) => "string"
    case JArr(_) => "object"
    case JObj(_) => "object"
  }

  /**
   * `v.name` for a property that only plain objects carry; None stands for
   * `undefined`. (On null JavaScript throws instead; the one caller swallows the
   * error and does nothing, exactly as for `undefined`.)
   */
  function Member(v: Json, name: string): (r: Option<Json>)
    ensures r.Some? <==> v.JObj? && name in v.fields
  {
    if v.JObj? && name in v.fields then Some(v.fields[name]) else None
  }

  function DigitChar(d: nat): char
    requires d < 10
  {
    ('0' as int + d) as char
  }

  /** The decimal text of a natural number, as used for array indices turned into keys. */
  function NatToString(n: nat): string
  {
    if n < 10 then [DigitChar(n)] else NatToString(n / 10) + [DigitChar(n % 10)]
  }

  /** One digit below 10, more from 10 on; the last digit is `n % 10`. */
  lemma {:induction false} NatToStringShape(n: nat)
    ensures |NatToString(n)| == 1 <==> n < 10
    ensures |NatToString(n)| >= 1 && NatToString(n)[|NatToString(n)| - 1] == DigitChar(n % 10)
  {
    if n >= 10 {
      NatToStringShape(n / 10);
    }
  }

  /** Different numbers have different decimal texts. */
  lemma {:induction false} NatToStringInjective(a: nat, b: nat)
    requires a != b
    ensures NatToString(a) != NatToString(b)
  {
    NatToStringShape(a);
    NatToStringShape(b);
    if a >= 10 && b >= 10 && a % 10 == b % 10 {
      NatToStringInjective(a / 10, b / 10);
      var sa, sb := NatToString(a), NatToString(b);
      assert sa[..|sa| - 1] == NatToString(a / 10);
      assert sb[..|sb| - 1] == NatToString(b / 10);
    }
  }

  /** `k` is the key of one of the first `n` array indices. */
  ghost predicate IsIndexKey(k: string, n: nat)
  {
    exists j :: 0 <= j < n && k == NatToString(j)
  }

  /** `{...prev, ...items}` for an array: index keys "0", "1", ... in order. */
  function SpreadItems(prev: map<string, Json>, items: seq<Json>): (r: map<string, Json>)
    ensures forall k :: k in r <==> k in prev || IsIndexKey(k, |items|)
    ensures forall k :: k in prev && !IsIndexKey(k, |items|) ==> r[k] == prev[k]
  {
    if items == [] then prev
    else
      var n := |items| - 1;
      var r0 := SpreadItems(prev, items[..n]);
      var r := r0[NatToString(n) := items[n]];
      assert forall j :: 0 <= j < n ==> NatToString(j) != NatToString(n) by {
        forall j | 0 <= j < n ensures NatToString(j) != NatToString(n) {
          NatToStringInjective(j, n);
        }
      }
      assert forall k :: IsIndexKey(k, |items|) <==> IsIndexKey(k, n) || k == NatToString(n);
      r
  }

  /** Index `j` of the array ends up under the key NatToString(j). */
  lemma {:induction false} SpreadItemsAtIndex(prev: map<string, Json>, items: seq<Json>, j: nat)
    requires j < |items|
    ensures NatToString(j) in SpreadItems(prev, items)
    ensures SpreadItems(prev, items)[NatToString(j)] == items[j]
  {
    assert IsIndexKey(NatToString(j), |items|);
    var n := |items| - 1;
    if j < n {
      SpreadItemsAtIndex(prev, items[..n], j);
      NatToStringInjective(j, n);
    }
  }

  /**
   * `{...prev, ...src}` for a value whose `typeof` is "object": the source's
   * entries override; null contributes nothing.
   */
  function Spread(prev: map<string, Json>, src: Json): (r: map<string, Json>)
    requires TypeOf(src) == "object"
    ensures src.JObj? ==> r.Keys == prev.Keys + src.fields.Keys &&
                          forall k :: k in r ==> r[k] == if k in src.fields then src.fields[k] else prev[k]
    ensures src.JNull? ==> r == prev
    ensures forall k :: k in prev ==> k in r
  {
    match src
    case JObj(m) => prev + m
    case JArr(items) => SpreadItems(prev, items)
    case JNull => prev
  }
}
