/**
 * The ranked top-ten wheel of src/components/DominantThemesTab.jsx: ten nullable
 * slots, the duplicate guard of the slot pickers, the all-ten gate, the
 * two-theme blend picker, the blend text, and the wedge angles of the wheel.
 */
module DominantThemes {
  import opened Wrappers
  import opened Strengths
  import SeqUtils
  import Text

  /** The wheel has ten ranked slots. */
  const SlotCount: nat := 10
  /** A blend is made of two picks. */
  const MaxPicks: nat := 2
  /** Each slot's wedge spans 360 / 10 degrees. */
  const SegmentAngle: real := 360.0 / 10.0

  /** `Array(10).fill(null)`. */
  const EmptySlots: seq<Option<string>> := [None, None, None, None, None, None, None, None, None, None]

  /** `Boolean(k)`: a slot that holds a non-empty key. */
  predicate Filled(slot: Option<string>)
  {
    slot.Some? && slot.value != ""
  }

  /** `val || null`: the picker's empty choice clears the slot. */
  function SlotValue(val: string): (r: Option<string>)
    ensures r.None? <==> val == ""
    ensures r.Some? ==> r.value == val
  {
    if val == "" then None else Some(val)
  }

  /** `selectedKeys`: the keys of the filled slots, in slot order. */
  function SelectedKeys(slots: seq<Option<string>>): (r: seq<string>)
    ensures |r| <= |slots|
    ensures forall k :: k in r <==> k != "" && Some(k) in slots
    ensures |r| == |slots| <==> forall i :: 0 <= i < |slots| ==> Filled(slots[i])
  {
    if slots == [] then []
    else
      var rest := SelectedKeys(slots[1..]);
      assert forall v :: v in slots <==> v == slots[0] || v in slots[1..];
      assert (forall i :: 0 <= i < |slots| ==> Filled(slots[i])) <==>
             Filled(slots[0]) && forall i :: 0 <= i < |slots[1..]| ==> Filled(slots[1..][i]) by {
        if forall i :: 0 <= i < |slots[1..]| ==> Filled(slots[1..][i]) {
          forall i | 1 <= i < |slots| ensures Filled(slots[i]) {
            assert slots[i] == slots[1..][i - 1];
          }
        }
      }
      if Filled(slots[0]) then [slots[0].value] + rest else rest
  }

  /** `allTenSelected`: ten filled slots; with ten slots, exactly when every slot is filled. */
  predicate AllTenSelected(slots: seq<Option<string>>): (all: bool)
    ensures |slots| == SlotCount ==> (all <==> forall i :: 0 <= i < SlotCount ==> Filled(slots[i]))
  {
    |SelectedKeys(slots)| == SlotCount
  }

  /** `isOptionDisabled(optionKey, slotIndex)`: the key already sits in another slot. */
  function IsOptionDisabled(slots: seq<Option<string>>, optionKey: string, slotIndex: int): (d: bool)
    ensures d <==> exists i :: 0 <= i < |slots| && i != slotIndex && slots[i] == Some(optionKey)
  {
    OccupiedFrom(slots, optionKey, slotIndex, 0)
  }

  /** The `some` scan of IsOptionDisabled from index `from` on. */
  function OccupiedFrom(slots: seq<Option<string>>, key: string, skip: int, from: nat): (d: bool)
    requires from <= |slots|
    ensures d <==> exists i :: from <= i < |slots| && i != skip && slots[i] == Some(key)
    decreases |slots| - from
  {
    if from == |slots| then false
    else (from != skip && slots[from] == Some(key)) || OccupiedFrom(slots, key, skip, from + 1)
  }

  /** No key sits in two slots. */
  ghost predicate DistinctSlots(slots: seq<Option<string>>)
  {
    forall i, j :: 0 <= i < j < |slots| && slots[i].Some? ==> slots[i] != slots[j]
  }

  /**
   * The guard is exactly right: putting a key into slot `index` keeps the slots
   * distinct if and only if the key is not a disabled option there.
   */
  lemma SetSlotKeepsDistinct(slots: seq<Option<string>>, index: nat, key: Option<string>)
    requires DistinctSlots(slots) && index < |slots|
    ensures DistinctSlots(slots[index := key]) <==> key.None? || !IsOptionDisabled(slots, key.value, index)
  {
    var next := slots[index := key];
    if key.Some? && IsOptionDisabled(slots, key.value, index) {
      var i :| 0 <= i < |slots| && i != index && slots[i] == key;
      if i < index {
        assert next[i] == next[index];
      } else {
        assert next[index] == next[i];
      }
    }
  }

  /** `toggleBlendPick`'s update: remove a picked key; add a new one only while fewer than two are picked. */
  function TogglePick(prev: seq<string>, key: string): (r: seq<string>)
    ensures key in r <==> key !in prev && |prev| < MaxPicks
    ensures forall k :: k != key ==> (k in r <==> k in prev)
    ensures key !in prev && |prev| >= MaxPicks ==> r == prev
    ensures key !in prev && |prev| < MaxPicks ==> r == prev + [key]
    ensures |prev| <= MaxPicks ==> |r| <= MaxPicks
    ensures SeqUtils.NoDup(prev) ==> SeqUtils.NoDup(r)
  {
    SeqUtils.ToggleCapped(prev, key, MaxPicks)
  }

  /** `withTrademark(name)`. */
  function WithTrademark(name: string): (r: string)
    ensures |r| == |name| + 1 && r[..|name|] == name && r[|name|] == '\U{00AE}'
  {
    name + "\U{00AE}"
  }

  /** JavaScript truthiness of an optional string: present and non-empty. */
  predicate Truthy(d: Option<string>)
  {
    d.Some? && d.value != ""
  }

  /** `a0.domain ?? (themeToDomain ? themeToDomain[a0.key] : undefined)`. */
  function ResolveDomain(s: Strength, themeToDomain: Option<map<string, string>>): (r: Option<string>)
    ensures s.domain.Some? ==> r == s.domain
    ensures s.domain.None? && themeToDomain.Some? && s.key in themeToDomain.value ==> r == Some(themeToDomain.value[s.key])
    ensures s.domain.None? && (themeToDomain.None? || s.key !in themeToDomain.value) ==> r.None?
  {
    if s.domain.Some? then s.domain
    else if themeToDomain.Some? && s.key in themeToDomain.value then Some(themeToDomain.value[s.key])
    else None
  }

  const DifferentDomains: string :=
    "Different domains often creates a broad, balanced blend, as long as you stay intentional about what leads."
  const SameDomain: string :=
    "Same-domain blends can feel powerful and consistent, especially under pressure, but can become intense if overused."

  /** The closing sentence: "different domains" only when both domains are known and differ. */
  function Complement(aDomain: Option<string>, bDomain: Option<string>): (r: string)
    ensures r == DifferentDomains <==> Truthy(aDomain) && Truthy(bDomain) && aDomain.value != bDomain.value
    ensures r == DifferentDomains || r == SameDomain
  {
    if Truthy(aDomain) && Truthy(bDomain) && aDomain.value != bDomain.value then DifferentDomains else SameDomain
  }

  /** The closing sentence does not depend on which theme was picked first. */
  lemma ComplementSymmetric(aDomain: Option<string>, bDomain: Option<string>)
    ensures Complement(aDomain, bDomain) == Complement(bDomain, aDomain)
  {
  }

  /** The text `generateBlend` returns. */
  datatype BlendText = BlendText(title: string, summary: string, whatYouMightLove: seq<string>, watchFor: seq<string>)

  const SummaryMiddle: string := ", it may show up as a distinctive way of thinking, relating, or acting. "
  /** The two fixed "what you might love" lines, whatever the themes. */
  const LoveLines: seq<string> :=
    ["Clarity about what matters, with energy to follow through.", "A sense of momentum once you commit."]
  /** The two fixed "watch for" lines, whatever the themes. */
  const WatchLines: seq<string> :=
    ["Overusing the blend when a simpler approach would do.", "Moving faster than others can follow."]

  /** `generateBlend(a, b)` for two themes whose domains are already resolved. */
  function GenerateBlend(a: Strength, b: Strength): (r: BlendText)
    ensures r.title == WithTrademark(a.name) + " + " + WithTrademark(b.name)
    ensures r.summary == "Together, this can look like " + a.blurb + " When paired with " + Text.ToLower(b.name) +
                         SummaryMiddle + Complement(a.domain, b.domain)
    ensures r.whatYouMightLove == LoveLines && r.watchFor == WatchLines
    ensures |r.whatYouMightLove| == 2 && |r.watchFor| == 2
  {
    var complement := Complement(a.domain, b.domain);
    BlendText(
      WithTrademark(a.name) + " + " + WithTrademark(b.name),
      "Together, this can look like " + a.blurb + " When paired with " + Text.ToLower(b.name) + SummaryMiddle + complement,
      LoveLines,
      WatchLines)
  }

  /** The blend shown: one exists only when exactly two picks both name known themes. */
  function CurrentBlend(blendKeys: seq<string>, byKey: map<string, Strength>, themeToDomain: Option<map<string, string>>)
    : (r: Option<BlendText>)
    ensures r.Some? <==> |blendKeys| == 2 && blendKeys[0] in byKey && blendKeys[1] in byKey
    ensures r.Some? ==>
              r.value.title == WithTrademark(byKey[blendKeys[0]].name) + " + " + WithTrademark(byKey[blendKeys[1]].name)
    ensures r.Some? ==> r.value == GenerateBlend(
              byKey[blendKeys[0]].(domain := ResolveDomain(byKey[blendKeys[0]], themeToDomain)),
              byKey[blendKeys[1]].(domain := ResolveDomain(byKey[blendKeys[1]], themeToDomain)))
  {
    if |blendKeys| != 2 then None
    else if blendKeys[0] !in byKey || blendKeys[1] !in byKey then None
    else
      var a0, b0 := byKey[blendKeys[0]], byKey[blendKeys[1]];
      Some(GenerateBlend(a0.(domain := ResolveDomain(a0, themeToDomain)), b0.(domain := ResolveDomain(b0, themeToDomain))))
  }

  /** The first angle of slot `idx`'s wedge, clockwise from the top. */
  function SegmentStart(idx: nat): real
  {
    idx as real * SegmentAngle
  }

  /** The last angle of slot `idx`'s wedge. */
  function SegmentEnd(idx: nat): real
  {
    SegmentStart(idx) + SegmentAngle
  }

  /** Angle `a` lies in slot `idx`'s wedge (start included, end excluded). */
  predicate InWedge(idx: nat, a: real)
  {
    SegmentStart(idx) <= a < SegmentEnd(idx)
  }

  /** Neighbouring wedges share their boundary, and the ten wedges run from 0 to 360 degrees. */
  lemma WedgesAdjoin(idx: nat)
    requires idx < SlotCount - 1
    ensures SegmentStart(0) == 0.0 && SegmentEnd(SlotCount - 1) == 360.0
    ensures SegmentEnd(idx) == SegmentStart(idx + 1)
  {
  }

  /** The wedges tile the circle: every angle in [0, 360) lies in exactly one slot's wedge. */
  lemma WedgesTile(a: real)
    requires 0.0 <= a < 360.0
    ensures exists idx :: 0 <= idx < SlotCount && InWedge(idx, a)
    ensures forall i: nat, j: nat :: InWedge(i, a) && InWedge(j, a) ==> i == j
  {
    var idx := (a / SegmentAngle).Floor;
    assert 0 <= idx < SlotCount;
    assert InWedge(idx, a);
  }

  /** `largeArcFlag`: "1" (the long way round) only for spans above 180 degrees. */
  function LargeArcFlag(startAngle: real, endAngle: real): (r: string)
    ensures r == "0" <==> endAngle - startAngle <= 180.0
    ensures r == "0" || r == "1"
  {
    if endAngle - startAngle <= 180.0 then "0" else "1"
  }

  /** For a wheel of `n` equal wedges, the long arc is used only when there is a single wedge. */
  lemma LargeArcOnlyForOneWedge(n: nat)
    requires n >= 1
    ensures LargeArcFlag(0.0, 360.0 / n as real) == "1" <==> n == 1
  {
    if n >= 2 {
      assert 360.0 / n as real <= 180.0;
    }
  }

  /** One wedge of the rendered wheel. */
  datatype Wedge = Wedge(idx: nat, key: string, title: string, startAngle: real, endAngle: real, largeArc: string, picked: bool)

  /** The label of a wedge: the trademarked name, or the raw key for an unknown theme. */
  function WedgeLabel(byKey: map<string, Strength>, key: string): (r: string)
    ensures key in byKey ==> r == WithTrademark(byKey[key].name)
    ensures key !in byKey ==> r == key
  {
    if key in byKey then WithTrademark(byKey[key].name) else key
  }

  /** The wedges for slots `from` onward; empty slots draw nothing. */
  function WedgesFrom(slots: seq<Option<string>>, blendKeys: seq<string>, byKey: map<string, Strength>, from: nat)
    : (r: seq<Wedge>)
    requires from <= |slots|
    ensures |r| == |SelectedKeys(slots[from..])|
    ensures forall w :: w in r ==>
              from <= w.idx < |slots| && Filled(slots[w.idx]) && w.key == slots[w.idx].value &&
              w.startAngle == SegmentStart(w.idx) && w.endAngle == SegmentEnd(w.idx) && w.largeArc == "0" &&
              w.title == WedgeLabel(byKey, w.key) && (w.picked <==> w.key in blendKeys)
    decreases |slots| - from
  {
    if from == |slots| then (assert slots[from..] == []; [])
    else
      var rest := WedgesFrom(slots, blendKeys, byKey, from + 1);
      assert slots[from..][1..] == slots[from + 1..];
      if Filled(slots[from]) then
        var key := slots[from].value;
        var head := Wedge(from, key, WedgeLabel(byKey, key), SegmentStart(from), SegmentEnd(from),
                          LargeArcFlag(SegmentStart(from), SegmentEnd(from)), key in blendKeys);
        [head] + rest
      else rest
  }

  /** The wedges' slot indices strictly increase along the sequence. */
  predicate InSlotOrder(r: seq<Wedge>)
  {
    forall i, j :: 0 <= i < j < |r| ==> r[i].idx < r[j].idx
  }

  /** A wedge before a run in slot order, at a lower slot than all of it, keeps the order. */
  lemma InSlotOrderCons(head: Wedge, rest: seq<Wedge>)
    requires InSlotOrder(rest) && forall w :: w in rest ==> head.idx < w.idx
    ensures InSlotOrder([head] + rest)
  {
    var r := [head] + rest;
    forall i, j | 0 <= i < j < |r| ensures r[i].idx < r[j].idx {
      assert r[j] == rest[j - 1] && r[j] in rest;
      if i > 0 {
        assert r[i] == rest[i - 1];
      }
    }
  }

  /** The wedges come in slot order. */
  lemma {:induction false} WedgesFromInSlotOrder(slots: seq<Option<string>>, blendKeys: seq<string>,
                                                 byKey: map<string, Strength>, from: nat)
    requires from <= |slots|
    ensures InSlotOrder(WedgesFrom(slots, blendKeys, byKey, from))
    decreases |slots| - from
  {
    if from < |slots| {
      WedgesFromInSlotOrder(slots, blendKeys, byKey, from + 1);
      var r := WedgesFrom(slots, blendKeys, byKey, from);
      var rest := WedgesFrom(slots, blendKeys, byKey, from + 1);
      if Filled(slots[from]) {
        assert r == [r[0]] + rest && r[0].idx == from;
        InSlotOrderCons(r[0], rest);
      }
    }
  }

  /** Every filled slot from `from` on has its wedge. */
  lemma {:induction false} WedgesFromCoverFilled(slots: seq<Option<string>>, blendKeys: seq<string>,
                                                 byKey: map<string, Strength>, from: nat)
    requires from <= |slots|
    ensures var r := WedgesFrom(slots, blendKeys, byKey, from);
            forall i :: from <= i < |slots| && Filled(slots[i]) ==> exists w :: w in r && w.idx == i
    decreases |slots| - from
  {
    if from < |slots| {
      WedgesFromCoverFilled(slots, blendKeys, byKey, from + 1);
      var r := WedgesFrom(slots, blendKeys, byKey, from);
      var rest := WedgesFrom(slots, blendKeys, byKey, from + 1);
      if Filled(slots[from]) {
        assert r == [r[0]] + rest && r[0].idx == from;
        forall i | from <= i < |slots| && Filled(slots[i]) ensures exists w :: w in r && w.idx == i {
          if i == from {
            assert r[0] in r;
          } else {
            var w :| w in rest && w.idx == i;
            assert w in r;
          }
        }
      }
    }
  }

  /** `renderWheel`: nothing until all ten slots are filled, then one wedge per slot in rank order. */
  function RenderWheel(slots: seq<Option<string>>, blendKeys: seq<string>, byKey: map<string, Strength>)
    : (r: seq<Wedge>)
    requires |slots| == SlotCount
    ensures !AllTenSelected(slots) ==> r == []
    ensures AllTenSelected(slots) ==> |r| == SlotCount
    ensures AllTenSelected(slots) ==> forall i :: 0 <= i < SlotCount ==> r[i].idx == i
    ensures forall w :: w in r ==>
              w.idx < SlotCount && w.key == slots[w.idx].value && w.startAngle == SegmentStart(w.idx) &&
              w.endAngle == SegmentEnd(w.idx) && w.largeArc == "0" && (w.picked <==> w.key in blendKeys)
  {
    if !AllTenSelected(slots) then []
    else
      assert slots[0..] == slots;
      var r := WedgesFrom(slots, blendKeys, byKey, 0);
      WedgesFromInSlotOrder(slots, blendKeys, byKey, 0);
      IncreasingIdxIsRank(r);
      r
  }

  /** `n` wedges whose slot indices increase and stay below `n` sit at slots 0 to n-1 in turn. */
  lemma IncreasingIdxIsRank(r: seq<Wedge>)
    requires InSlotOrder(r)
    requires forall w :: w in r ==> w.idx < |r|
    ensures forall i :: 0 <= i < |r| ==> r[i].idx == i
  {
    forall i | 0 <= i < |r| ensures r[i].idx == i {
      IdxAtLeast(r, i);
      IdxAtMost(r, i);
    }
  }

  lemma {:induction false} IdxAtLeast(r: seq<Wedge>, i: nat)
    requires InSlotOrder(r)
    requires i < |r|
    ensures i <= r[i].idx
  {
    if i > 0 {
      IdxAtLeast(r, i - 1);
    }
  }

  lemma {:induction false} IdxAtMost(r: seq<Wedge>, i: nat)
    requires InSlotOrder(r)
    requires forall w :: w in r ==> w.idx < |r|
    requires i < |r|
    ensures r[i].idx <= i
    decreases |r| - i
  {
    if i + 1 < |r| {
      IdxAtMost(r, i + 1);
    } else {
      assert r[i] in r;
    }
  }

  /** The tab's state. */
  class DominantThemesTab {
    /** The theme table, the optional key-to-domain table, and the lookup built from the first. */
    const strengths: seq<Strength>
    const themeToDomain: Option<map<string, string>>
    const strengthByKey: map<string, Strength>

    var slots: seq<Option<string>>
    var showDomainColours: bool
    var detailOpen: bool
    var detailKey: Option<string>
    var blendMode: bool
    var blendKeys: seq<string>

    /** Ten slots; at most two distinct blend picks. */
    ghost predicate Valid()
      reads this
    {
      |slots| == SlotCount && |blendKeys| <= MaxPicks && SeqUtils.NoDup(blendKeys)
    }

    /** A fresh tab: all slots empty, domain colours on, no dialog, blend mode off. */
    constructor (strengths: seq<Strength>, themeToDomain: Option<map<string, string>>)
      ensures Valid()
      ensures this.strengths == strengths && this.themeToDomain == themeToDomain
      ensures strengthByKey == ByKey(strengths)
      ensures slots == EmptySlots && showDomainColours
      ensures !detailOpen && detailKey.None? && !blendMode && blendKeys == []
    {
      this.strengths := strengths;
      this.themeToDomain := themeToDomain;
      var m := BuildStrengthByKey(strengths);
      strengthByKey := m;
      slots := EmptySlots;
      showDomainColours := true;
      detailOpen := false;
      detailKey := None;
      blendMode := false;
      blendKeys := [];
    }

    /** `setSlot(index, key)`: only that slot changes; the picks and the mode are untouched. */
    method SetSlot(index: nat, key: Option<string>)
      requires Valid() && index < SlotCount
      modifies this
      ensures Valid()
      ensures slots == old(slots)[index := key]
      ensures blendKeys == old(blendKeys) && blendMode == old(blendMode)
      ensures showDomainColours == old(showDomainColours)
      ensures detailOpen == old(detailOpen) && detailKey == old(detailKey)
    {
      slots := slots[index := key];
    }

    /** `clearAll`: empty slots and picks, blend mode off, dialog closed; the colour switch is kept. */
    method ClearAll()
      requires Valid()
      modifies this
      ensures Valid()
      ensures slots == EmptySlots && blendKeys == [] && !blendMode && !detailOpen
      ensures showDomainColours == old(showDomainColours) && detailKey == old(detailKey)
    {
      slots := EmptySlots;
      blendKeys := [];
      blendMode := false;
      detailOpen := false;
    }

    /** `openDetail(themeKey)`: a double-click opens the detail dialog for that theme. */
    method OpenDetail(themeKey: string)
      requires Valid()
      modifies this
      ensures Valid()
      ensures detailKey == Some(themeKey) && detailOpen
      ensures slots == old(slots) && blendKeys == old(blendKeys) && blendMode == old(blendMode)
      ensures showDomainColours == old(showDomainColours)
    {
      detailKey := Some(themeKey);
      detailOpen := true;
    }

    /** The domain-colour switch. */
    method SetShowDomainColours(v: bool)
      requires Valid()
      modifies this
      ensures Valid()
      ensures showDomainColours == v
      ensures slots == old(slots) && blendKeys == old(blendKeys) && blendMode == old(blendMode)
      ensures detailOpen == old(detailOpen) && detailKey == old(detailKey)
    {
      showDomainColours := v;
    }

    /**
     * `toggleBlendPick(themeKey)`: ignored unless blend mode is on and the key is
     * in a filled slot; otherwise the pick list is toggled with a cap of two.
     */
    method ToggleBlendPick(themeKey: string)
      requires Valid()
      modifies this
      ensures Valid()
      ensures !old(blendMode) || themeKey !in SelectedKeys(old(slots)) ==> blendKeys == old(blendKeys)
      ensures old(blendMode) && themeKey in SelectedKeys(old(slots)) ==> blendKeys == TogglePick(old(blendKeys), themeKey)
      ensures slots == old(slots) && blendMode == old(blendMode)
      ensures showDomainColours == old(showDomainColours)
      ensures detailOpen == old(detailOpen) && detailKey == old(detailKey)
    {
      if !blendMode {
        return;
      }
      if themeKey !in SelectedKeys(slots) {
        return;
      }
      blendKeys := TogglePick(blendKeys, themeKey);
    }

    /**
     * The "Select 2" switch: switching in either direction empties the picks. The
     * switch is disabled until all ten slots are filled, so then nothing happens.
     */
    method SetBlendMode(v: bool)
      requires Valid()
      modifies this
      ensures Valid()
      ensures AllTenSelected(old(slots)) ==> blendMode == v && blendKeys == []
      ensures !AllTenSelected(old(slots)) ==> blendMode == old(blendMode) && blendKeys == old(blendKeys)
      ensures slots == old(slots) && showDomainColours == old(showDomainColours)
      ensures detailOpen == old(detailOpen) && detailKey == old(detailKey)
    {
      if AllTenSelected(slots) {
        blendMode := v;
        blendKeys := [];
      }
    }

    /** The "Reset" button of the blend panel: the picks are emptied, the mode is kept. */
    method ResetPicks()
      requires Valid()
      modifies this
      ensures Valid()
      ensures blendKeys == [] && blendMode == old(blendMode) && slots == old(slots)
      ensures showDomainColours == old(showDomainColours)
      ensures detailOpen == old(detailOpen) && detailKey == old(detailKey)
    {
      blendKeys := [];
    }

    /**
     * The blend shown in the centre panel. A state accessor: it reads the tab's picks
     * into `CurrentBlend`, where the blend's properties are stated.
     */
    function Blend(): (r: Option<BlendText>)
      reads this
      ensures r == CurrentBlend(blendKeys, strengthByKey, themeToDomain)
    {
      CurrentBlend(blendKeys, strengthByKey, themeToDomain)
    }
  }

  /** The `strengthByKey` memo: `strengths.forEach((s) => m.set(s.key, s))`. */
  method BuildStrengthByKey(strengths: seq<Strength>) returns (m: map<string, Strength>)
    ensures m == ByKey(strengths)
  {
    m := map[];
    var i := 0;
    while i < |strengths|
      invariant 0 <= i <= |strengths|
      invariant m == ByKey(strengths[..i])
    {
      assert strengths[..i + 1][..i] == strengths[..i];
      m := m[strengths[i].key := strengths[i]];
      i := i + 1;
    }
    assert strengths[..i] == strengths;
  }

  /** A key whose slot is cleared is no longer among the filled slots (the keys sit in one slot each). */
  lemma ClearedSlotLeavesSelection(slots: seq<Option<string>>, index: nat)
    requires DistinctSlots(slots) && index < |slots| && Filled(slots[index])
    ensures slots[index].value !in SelectedKeys(slots[index := None])
  {
  }

  /**
   * Clearing a picked key's slot on the tab: the picks still hold the key
   * although it is no longer among the filled slots.
   */
  method ClearPickedSlot(tab: DominantThemesTab, index: nat)
    requires tab.Valid() && index < SlotCount
    requires DistinctSlots(tab.slots) && Filled(tab.slots[index]) && tab.slots[index].value in tab.blendKeys
    modifies tab
    ensures tab.Valid()
    ensures old(tab.slots)[index].value in tab.blendKeys
    ensures old(tab.slots)[index].value !in SelectedKeys(tab.slots)
  {
    ClearedSlotLeavesSelection(tab.slots, index);
    tab.SetSlot(index, None);
  }

  /** Once a blend exists, a third key is ignored and both picks stay. */
  lemma ThirdPickIgnored(blendKeys: seq<string>, key: string)
    requires |blendKeys| == 2 && key !in blendKeys
    ensures TogglePick(blendKeys, key) == blendKeys
  {
  }
}
