/** `clamp` and the domain-colour lookup of src/utils/strengthUtils.js. */
module StrengthUtils {

  /** `Math.min(Math.max(v, lo), hi)`; the callers use the defaults lo = 0, hi = 100. */
  function Clamp(v: real, lo: real, hi: real): (r: real)
    ensures lo <= hi ==> lo <= r <= hi
    ensures lo <= v <= hi ==> r == v
    ensures v < lo && lo <= hi ==> r == lo
    ensures hi < v ==> r == hi
    ensures r == v || r == lo || r == hi
  {
    var m := if v < lo then lo else v;
    if hi < m then hi else m
  }

  /** Clamping an already clamped value changes nothing. */
  lemma ClampIdempotent(v: real, lo: real, hi: real)
    ensures Clamp(Clamp(v, lo, hi), lo, hi) == Clamp(v, lo, hi)
  {
  }

  /** Clamping is monotone: a larger input never gives a smaller result. */
  lemma ClampMonotone(v: real, w: real, lo: real, hi: real)
    requires v <= w
    ensures Clamp(v, lo, hi) <= Clamp(w, lo, hi)
  {
  }

  // The four domain colours and the fallback for an unknown key.
  const Executing := "#6A1B9A"
  const Influencing := "#EF6C00"
  const RelationshipBuilding := "#1565C0"
  const StrategicThinking := "#2E7D32"
  const Unknown := "#999"

  const ExecutingThemes: set<string> :=
    {"achiever", "arranger", "belief", "consistency", "deliberative", "discipline", "focus", "responsibility", "restorative"}
  const InfluencingThemes: set<string> :=
    {"activator", "command", "communication", "competition", "maximizer", "selfassurance", "significance", "woo"}
  const RelationshipBuildingThemes: set<string> :=
    {"adaptability", "connectedness", "developer", "empathy", "harmony", "includer", "individualization", "positivity", "relator"}
  const StrategicThinkingThemes: set<string> :=
    {"analytical", "context", "futuristic", "ideation", "input", "intellection", "learner", "strategic"}

  /** Every key listed in the object literal `domainColours`. */
  const AllThemes: set<string> :=
    ExecutingThemes + InfluencingThemes + RelationshipBuildingThemes + StrategicThinkingThemes

  /**
   * `domainColours[key] || "#999"`: the object literal lists each key once, grouped by
   * domain, so the lookup is a membership test per domain (the groups are disjoint,
   * see DomainsDisjoint).
   */
  function StrengthColor(key: string): (r: string)
    ensures r in {Executing, Influencing, RelationshipBuilding, StrategicThinking, Unknown}
    ensures r == Unknown <==> key !in AllThemes
  {
    if key in ExecutingThemes then Executing
    else if key in InfluencingThemes then Influencing
    else if key in RelationshipBuildingThemes then RelationshipBuilding
    else if key in StrategicThinkingThemes then StrategicThinking
    else Unknown
  }

  /** No key is listed under two domains. */
  lemma DomainsDisjoint()
    ensures ExecutingThemes !! InfluencingThemes
    ensures ExecutingThemes !! RelationshipBuildingThemes
    ensures ExecutingThemes !! StrategicThinkingThemes
    ensures InfluencingThemes !! RelationshipBuildingThemes
    ensures InfluencingThemes !! StrategicThinkingThemes
    ensures RelationshipBuildingThemes !! StrategicThinkingThemes
  {
    ExecutingInfluencingDisjoint();
    ExecutingRelationshipBuildingDisjoint();
    ExecutingStrategicThinkingDisjoint();
    InfluencingRelationshipBuildingDisjoint();
    InfluencingStrategicThinkingDisjoint();
    RelationshipBuildingStrategicThinkingDisjoint();
  }

  lemma ExecutingInfluencingDisjoint()
    ensures ExecutingThemes !! InfluencingThemes
  {
  }

  lemma ExecutingRelationshipBuildingDisjoint()
    ensures ExecutingThemes !! RelationshipBuildingThemes
  {
  }

  lemma ExecutingStrategicThinkingDisjoint()
    ensures ExecutingThemes !! StrategicThinkingThemes
  {
  }

  lemma InfluencingRelationshipBuildingDisjoint()
    ensures InfluencingThemes !! RelationshipBuildingThemes
  {
  }

  lemma InfluencingStrategicThinkingDisjoint()
    ensures InfluencingThemes !! StrategicThinkingThemes
  {
  }

  lemma RelationshipBuildingStrategicThinkingDisjoint()
    ensures RelationshipBuildingThemes !! StrategicThinkingThemes
  {
  }

  /** The table lists 34 distinct keys: 9 + 8 + 9 + 8. */
  lemma DomainTableSize()
    ensures |ExecutingThemes| == 9 && |InfluencingThemes| == 8
    ensures |RelationshipBuildingThemes| == 9 && |StrategicThinkingThemes| == 8
    ensures |AllThemes| == 34
  {
    DomainSizes();
    DomainsDisjoint();
    var a := ExecutingThemes + InfluencingThemes;
    var b := a + RelationshipBuildingThemes;
    assert |a| == 17;
    assert |b| == 26;
  }

  lemma DomainSizes()
    ensures |ExecutingThemes| == 9 && |InfluencingThemes| == 8
    ensures |RelationshipBuildingThemes| == 9 && |StrategicThinkingThemes| == 8
  {
    ExecutingSize();
    InfluencingSize();
    RelationshipBuildingSize();
    StrategicThinkingSize();
  }

  lemma ExecutingSize()
    ensures |ExecutingThemes| == 9
  {
  }

  lemma InfluencingSize()
    ensures |InfluencingThemes| == 8
  {
  }

  lemma RelationshipBuildingSize()
    ensures |RelationshipBuildingThemes| == 9
  {
  }

  lemma StrategicThinkingSize()
    ensures |StrategicThinkingThemes| == 8
  {
  }

  /** Each listed key gets its own domain's colour. */
  lemma StrengthColorOfDomain(key: string)
    ensures key in ExecutingThemes ==> StrengthColor(key) == Executing
    ensures key in InfluencingThemes ==> StrengthColor(key) == Influencing
    ensures key in RelationshipBuildingThemes ==> StrengthColor(key) == RelationshipBuilding
    ensures key in StrategicThinkingThemes ==> StrengthColor(key) == StrategicThinking
  {
    DomainsDisjoint();
  }
}
