/** The terminology mapper: the five-point unified risk scale, the curated
    tables that place each lab's own level names on it, the positional rule
    that places the levels of a lab without a curated table, and the
    first-match lookups over the resulting map. */
module Terminology {
  import opened Optional
  import opened Strings
  import opened Seqs
  import opened Dicts
  import opened Records

  datatype UnifiedLevel = Minimal | Emerging | Significant | Severe | Critical {

    /** The enum value: the rank on the unified scale. */
    function Value(): (v: int)
      ensures 1 <= v <= 5
    {
      match this
      case Minimal => 1
      case Emerging => 2
      case Significant => 3
      case Severe => 4
      case Critical => 5
    }

    /** The enum member name. */
    function Name(): string {
      match this
      case Minimal => "MINIMAL"
      case Emerging => "EMERGING"
      case Significant => "SIGNIFICANT"
      case Severe => "SEVERE"
      case Critical => "CRITICAL"
    }

    /** The canonical description of the level. */
    function Description(): string {
      match this
      case Minimal => "Systems posing no meaningful incremental risk beyond widely available tools"
      case Emerging => "Early signs of dangerous capabilities, but no significant uplift beyond existing resources"
      case Significant => "Substantially increases risk of catastrophic misuse, requires robust mitigations"
      case Severe => "High-risk capabilities requiring maximum safeguards and potential deployment restrictions"
      case Critical => "Capabilities that could contribute to existential risks, may require development pause"
    }
  }

  /** The members of the enum in declaration order. */
  const AllLevels: seq<UnifiedLevel> := [Minimal, Emerging, Significant, Severe, Critical]

  /** Declaration order is rank order, and every level is listed once. */
  lemma AllLevelsInRankOrder()
    ensures |AllLevels| == 5
    ensures forall i | 0 <= i < 5 :: AllLevels[i].Value() == i + 1
    ensures forall u: UnifiedLevel :: AllLevels[u.Value() - 1] == u
  {
  }

  datatype Confidence = Exact | Approximate | Uncertain {
    function Text(): string {
      match this
      case Exact => "exact"
      case Approximate => "approximate"
      case Uncertain => "uncertain"
    }
  }

  datatype LevelMapping = LevelMapping(
    lab: string,
    levelName: string,
    levelId: string,
    unified: UnifiedLevel,
    confidence: Confidence,
    notes: Option<string>)

  /** The first mapping of `ms` at level `u`. */
  function FirstAtLevel(ms: seq<LevelMapping>, u: UnifiedLevel): (r: Option<LevelMapping>)
    ensures r.None? <==> forall i | 0 <= i < |ms| :: ms[i].unified != u
    ensures r.Some? ==> exists i | 0 <= i < |ms| :: ms[i] == r.value && ms[i].unified == u && forall j | 0 <= j < i :: ms[j].unified != u
  {
    if ms == [] then None
    else if ms[0].unified == u then Some(ms[0])
    else
      var r := FirstAtLevel(ms[1..], u);
      assert r.Some? ==> exists i | 1 <= i < |ms| :: ms[i] == r.value && ms[i].unified == u && forall j | 0 <= j < i :: ms[j].unified != u by {
        if r.Some? {
          var i :| 0 <= i < |ms[1..]| && ms[1..][i] == r.value && ms[1..][i].unified == u && forall j | 0 <= j < i :: ms[1..][j].unified != u;
          assert ms[i + 1] == r.value;
          forall j | 0 <= j < i + 1 ensures ms[j].unified != u {
            if j > 0 { assert ms[j] == ms[1..][j - 1]; }
          }
        }
      }
      r
  }

  /** The first mapping of `ms` whose level name equals `name` ignoring case. */
  function FirstNamed(ms: seq<LevelMapping>, name: string): (r: Option<LevelMapping>)
    ensures r.None? <==> forall i | 0 <= i < |ms| :: Lower(ms[i].levelName) != Lower(name)
    ensures r.Some? ==> exists i | 0 <= i < |ms| :: ms[i] == r.value && Lower(ms[i].levelName) == Lower(name) && forall j | 0 <= j < i :: Lower(ms[j].levelName) != Lower(name)
  {
    if ms == [] then None
    else if Lower(ms[0].levelName) == Lower(name) then Some(ms[0])
    else
      var r := FirstNamed(ms[1..], name);
      assert r.Some? ==> exists i | 1 <= i < |ms| :: ms[i] == r.value && Lower(ms[i].levelName) == Lower(name) && forall j | 0 <= j < i :: Lower(ms[j].levelName) != Lower(name) by {
        if r.Some? {
          var i :| 0 <= i < |ms[1..]| && ms[1..][i] == r.value && Lower(ms[1..][i].levelName) == Lower(name) && forall j | 0 <= j < i :: Lower(ms[1..][j].levelName) != Lower(name);
          assert ms[i + 1] == r.value;
          forall j | 0 <= j < i + 1 ensures Lower(ms[j].levelName) != Lower(name) {
            if j > 0 { assert ms[j] == ms[1..][j - 1]; }
          }
        }
      }
      r
  }

  /** The mappings of every lab other than `lab` (compared exactly) that sit
      at level `u`, lab by lab in map order. */
  function AllAtLevel(mappings: Dict<seq<LevelMapping>>, lab: string, u: UnifiedLevel): (r: seq<LevelMapping>)
    ensures forall m :: m in r <==> exists i | 0 <= i < |mappings| :: mappings[i].0 != lab && m in mappings[i].1 && m.unified == u
  {
    if mappings == [] then []
    else
      var here := if mappings[0].0 != lab then FilterEq(mappings[0].1, (m: LevelMapping) => m.unified, u) else [];
      FilterEqMembers(mappings[0].1, (m: LevelMapping) => m.unified, u);
      var rest := AllAtLevel(mappings[1..], lab, u);
      assert forall i | 0 <= i < |mappings[1..]| :: mappings[1..][i] == mappings[i + 1];
      assert forall m | m in here + rest :: exists i | 0 <= i < |mappings| :: mappings[i].0 != lab && m in mappings[i].1 && m.unified == u by {
        forall m | m in here + rest ensures exists i | 0 <= i < |mappings| :: mappings[i].0 != lab && m in mappings[i].1 && m.unified == u {
          if m !in here {
            var i :| 0 <= i < |mappings[1..]| && mappings[1..][i].0 != lab && m in mappings[1..][i].1 && m.unified == u;
            assert mappings[i + 1] == mappings[1..][i];
          }
        }
      }
      assert forall m | (exists i | 0 <= i < |mappings| :: mappings[i].0 != lab && m in mappings[i].1 && m.unified == u) :: m in here + rest by {
        forall m | exists i | 0 <= i < |mappings| :: mappings[i].0 != lab && m in mappings[i].1 && m.unified == u
          ensures m in here + rest
        {
          var i :| 0 <= i < |mappings| && mappings[i].0 != lab && m in mappings[i].1 && m.unified == u;
          if i > 0 { assert mappings[1..][i - 1] == mappings[i]; }
        }
      }
      here + rest
  }

  /** The per-lab level mappings; `mappings` is a dictionary from lab to list. */
  datatype TerminologyMap = TerminologyMap(mappings: Dict<seq<LevelMapping>>) {

    /** `mappings.get(lab, [])`, with the lab compared exactly. */
    function LabMappings(lab: string): seq<LevelMapping> {
      Get(mappings, lab).GetOr([])
    }

    /** `get_lab_level`: the first of the lab's mappings at the given level,
        in list order, or `None` when the lab has none there. */
    function GetLabLevel(lab: string, u: UnifiedLevel): (r: Option<LevelMapping>)
      ensures r.None? <==> forall m | m in LabMappings(lab) :: m.unified != u
      ensures r.Some? ==> exists i | 0 <= i < |LabMappings(lab)| ::
        LabMappings(lab)[i] == r.value && r.value.unified == u && forall j | 0 <= j < i :: LabMappings(lab)[j].unified != u
    {
      FirstAtLevel(LabMappings(lab), u)
    }

    /** `get_equivalent_levels`: every mapping, in any other lab, at the level
        of the first of the lab's levels named `levelName` (ignoring case);
        empty when the lab has no such level. Labs are compared exactly. */
    function GetEquivalentLevels(lab: string, levelName: string): (r: seq<LevelMapping>)
      ensures FirstNamed(LabMappings(lab), levelName).None? ==> r == []
      ensures FirstNamed(LabMappings(lab), levelName).Some? ==>
        var u := FirstNamed(LabMappings(lab), levelName).value.unified;
        forall m :: m in r <==> exists i | 0 <= i < |mappings| :: mappings[i].0 != lab && m in mappings[i].1 && m.unified == u
    {
      match FirstNamed(LabMappings(lab), levelName)
      case None => []
      case Some(found) => AllAtLevel(mappings, lab, found.unified)
    }
  }

  // ------------------------------------------------------------ curated data

  function Curated(lab: string, name: string, id: string, u: UnifiedLevel, c: Confidence, note: string): LevelMapping {
    LevelMapping(lab, name, id, u, c, Some(note))
  }

  /** The curated tables of `LEVEL_MAPPINGS`, lab by lab. */
  const AnthropicLevels: seq<LevelMapping> := [
      Curated("anthropic", "ASL-1", "asl_1", Minimal, Exact, "No meaningful catastrophic risk"),
      Curated("anthropic", "ASL-2", "asl_2", Emerging, Exact, "Current systems, early signs of capabilities"),
      Curated("anthropic", "ASL-3", "asl_3", Significant, Exact, "Substantial increase in catastrophic misuse risk"),
      Curated("anthropic", "ASL-4", "asl_4", Severe, Exact, "Could accelerate state-level threats")]

  const OpenAiLevels: seq<LevelMapping> := [
      Curated("openai", "Low", "low", Minimal, Approximate, "Minimal risk, similar to widely available tools"),
      Curated("openai", "Medium", "medium", Emerging, Approximate, "Modest uplift, doesn't fundamentally change threat landscape"),
      Curated("openai", "High", "high", Significant, Exact, "Significantly increases risk in tracked categories"),
      Curated("openai", "Critical", "critical", Critical, Exact, "Could contribute to existential-level risks")]

  const DeepMindLevels: seq<LevelMapping> := [
      Curated("deepmind", "Below CCL", "below_ccl", Emerging, Approximate, "Below Critical Capability Levels"),
      Curated("deepmind", "Approaching CCL", "approaching_ccl", Emerging, Approximate, "Early warning, 50% of CCL thresholds"),
      Curated("deepmind", "CCL-1", "ccl_1", Significant, Exact, "First Critical Capability Level"),
      Curated("deepmind", "CCL-2", "ccl_2", Severe, Exact, "Second Critical Capability Level, severe risks")]

  const MetaLevels: seq<LevelMapping> := [
      Curated("meta", "Tier 1 - Low Risk", "tier_1", Minimal, Approximate, "Minimal incremental risk"),
      Curated("meta", "Tier 2 - Moderate Risk", "tier_2", Emerging, Approximate, "Meaningful but manageable risk uplift"),
      Curated("meta", "Tier 3 - High Risk", "tier_3", Significant, Exact, "Significant dangerous capabilities"),
      Curated("meta", "Tier 4 - Critical Risk", "tier_4", Critical, Exact, "Catastrophic or existential-level risks")]

  /** `LEVEL_MAPPINGS` */
  const LevelMappings: Dict<seq<LevelMapping>> := [
    ("anthropic", AnthropicLevels), ("openai", OpenAiLevels), ("deepmind", DeepMindLevels), ("meta", MetaLevels)]

  const CuratedLabs: set<string> := {"anthropic", "openai", "deepmind", "meta"}

  lemma CuratedTableIsDict()
    ensures IsDict(LevelMappings) && KeySetOf(LevelMappings) == CuratedLabs
  {
    CuratedKeys();
    KeysListed(LevelMappings, DefaultLabs);
    CuratedLabsListed();
  }

  lemma CuratedLabsListed()
    ensures Distinct(DefaultLabs) && forall k :: k in DefaultLabs <==> k in CuratedLabs
  {
  }

  /** The curated labs, in table order, are the four default labs. */
  lemma CuratedKeys()
    ensures |LevelMappings| == 4 && Keys(LevelMappings) == DefaultLabs
  {
    assert LevelMappings[0].0 == "anthropic" && LevelMappings[1].0 == "openai";
    assert LevelMappings[2].0 == "deepmind" && LevelMappings[3].0 == "meta";
  }

  /** The first-match name at level `u` of a table of four mappings. */
  lemma LevelNameOfFour(ms: seq<LevelMapping>, u: UnifiedLevel)
    requires |ms| == 4
    ensures LevelNameAt(ms, u) == (
      if ms[0].unified == u then Some(ms[0].levelName)
      else if ms[1].unified == u then Some(ms[1].levelName)
      else if ms[2].unified == u then Some(ms[2].levelName)
      else if ms[3].unified == u then Some(ms[3].levelName)
      else None)
  {
    var t1, t2, t3 := ms[1..], ms[2..], ms[3..];
    assert t1[1..] == t2 && t2[1..] == t3 && t3[1..] == [];
    assert FirstAtLevel(ms, u) == if ms[0].unified == u then Some(ms[0]) else FirstAtLevel(t1, u);
    assert FirstAtLevel(t1, u) == if ms[1].unified == u then Some(ms[1]) else FirstAtLevel(t2, u);
    assert FirstAtLevel(t2, u) == if ms[2].unified == u then Some(ms[2]) else FirstAtLevel(t3, u);
    assert FirstAtLevel(t3, u) == if ms[3].unified == u then Some(ms[3]) else None;
  }

  /** Anthropic's level names on the unified scale; none at CRITICAL. */
  lemma AnthropicLevelNames()
    ensures LevelNameAt(AnthropicLevels, Minimal) == Some("ASL-1") && LevelNameAt(AnthropicLevels, Emerging) == Some("ASL-2")
    ensures LevelNameAt(AnthropicLevels, Significant) == Some("ASL-3") && LevelNameAt(AnthropicLevels, Severe) == Some("ASL-4")
    ensures LevelNameAt(AnthropicLevels, Critical) == None
  {
    LevelNameOfFour(AnthropicLevels, Minimal);
    LevelNameOfFour(AnthropicLevels, Emerging);
    LevelNameOfFour(AnthropicLevels, Significant);
    LevelNameOfFour(AnthropicLevels, Severe);
    LevelNameOfFour(AnthropicLevels, Critical);
  }

  /** OpenAI's level names on the unified scale; none at SEVERE. */
  lemma OpenAiLevelNames()
    ensures LevelNameAt(OpenAiLevels, Minimal) == Some("Low") && LevelNameAt(OpenAiLevels, Emerging) == Some("Medium")
    ensures LevelNameAt(OpenAiLevels, Significant) == Some("High") && LevelNameAt(OpenAiLevels, Severe) == None
    ensures LevelNameAt(OpenAiLevels, Critical) == Some("Critical")
  {
    LevelNameOfFour(OpenAiLevels, Minimal);
    LevelNameOfFour(OpenAiLevels, Emerging);
    LevelNameOfFour(OpenAiLevels, Significant);
    LevelNameOfFour(OpenAiLevels, Severe);
    LevelNameOfFour(OpenAiLevels, Critical);
  }

  /** DeepMind's level names on the unified scale. Two of its levels sit at
      EMERGING and the first one wins; none sits at MINIMAL or CRITICAL. */
  lemma DeepMindLevelNames()
    ensures DeepMindLevels[1].levelName == "Approaching CCL" && DeepMindLevels[1].unified == Emerging
    ensures LevelNameAt(DeepMindLevels, Minimal) == None && LevelNameAt(DeepMindLevels, Emerging) == Some("Below CCL")
    ensures LevelNameAt(DeepMindLevels, Significant) == Some("CCL-1") && LevelNameAt(DeepMindLevels, Severe) == Some("CCL-2")
    ensures LevelNameAt(DeepMindLevels, Critical) == None
  {
    LevelNameOfFour(DeepMindLevels, Minimal);
    LevelNameOfFour(DeepMindLevels, Emerging);
    LevelNameOfFour(DeepMindLevels, Significant);
    LevelNameOfFour(DeepMindLevels, Severe);
    LevelNameOfFour(DeepMindLevels, Critical);
  }

  /** Meta's level names on the unified scale; none at SEVERE. */
  lemma MetaLevelNames()
    ensures LevelNameAt(MetaLevels, Minimal) == Some("Tier 1 - Low Risk")
    ensures LevelNameAt(MetaLevels, Emerging) == Some("Tier 2 - Moderate Risk")
    ensures LevelNameAt(MetaLevels, Significant) == Some("Tier 3 - High Risk")
    ensures LevelNameAt(MetaLevels, Severe) == None
    ensures LevelNameAt(MetaLevels, Critical) == Some("Tier 4 - Critical Risk")
  {
    LevelNameOfFour(MetaLevels, Minimal);
    LevelNameOfFour(MetaLevels, Emerging);
    LevelNameOfFour(MetaLevels, Significant);
    LevelNameOfFour(MetaLevels, Severe);
    LevelNameOfFour(MetaLevels, Critical);
  }

  // ------------------------------------------------------------ positional inference

  /** The unified level `_infer_mappings` gives the threshold at position `i`
      of `n`: the first is MINIMAL (also when it is the only one), the last is
      CRITICAL when there are at least four and SEVERE otherwise, the second
      (when not last) is EMERGING, and all others are SIGNIFICANT. */
  function PositionLevel(i: int, n: int): (u: UnifiedLevel)
    requires 0 <= i < n
    ensures u == Minimal <==> i == 0
    ensures u == Emerging <==> i == 1 && n > 2
    ensures u == Significant <==> 2 <= i < n - 1
    ensures u == Severe <==> 0 < i == n - 1 && n < 4
    ensures u == Critical <==> 0 < i == n - 1 && n >= 4
  {
    if i == 0 then Minimal
    else if i == n - 1 then (if n >= 4 then Critical else Severe)
    else if i == 1 then Emerging
    else Significant
  }

  /** Later positions never get a lower level. */
  lemma PositionLevelMonotone(i: int, j: int, n: int)
    requires 0 <= i <= j < n
    ensures PositionLevel(i, n).Value() <= PositionLevel(j, n).Value()
  {
  }

  const InferredNote := "Inferred from position in framework"

  /** The mapping `_infer_mappings` builds for threshold `t` at position `i` of `n`. */
  function InferredMapping(lab: string, t: Threshold, i: nat, n: int): (m: LevelMapping)
    requires i < n
    ensures m.lab == lab && m.unified == PositionLevel(i, n)
    ensures m.levelName == (if t.levelName.Some? then t.levelName.value else "Level " + NatToString(i + 1))
    ensures m.levelId == (if t.levelId.Some? then t.levelId.value else "level_" + NatToString(i + 1))
    ensures m.confidence == Uncertain && m.notes == Some(InferredNote)
  {
    LevelMapping(
      lab,
      t.levelName.GetOr("Level " + NatToString(i + 1)),
      t.levelId.GetOr("level_" + NatToString(i + 1)),
      PositionLevel(i, n),
      Uncertain,
      Some(InferredNote))
  }

  /** The inferred table of a lab: one mapping per threshold, in input order. */
  function InferFor(lab: string, ts: seq<Threshold>): (r: seq<LevelMapping>)
    ensures |r| == |ts| && forall i | 0 <= i < |ts| :: r[i] == InferredMapping(lab, ts[i], i, |ts|)
  {
    seq(|ts|, i requires 0 <= i < |ts| => InferredMapping(lab, ts[i], i, |ts|))
  }

  /** `_infer_mappings` */
  method InferMappings(lab: string, e: Extraction) returns (mappings: seq<LevelMapping>)
    ensures mappings == InferFor(lab, e.thresholds)
  {
    var thresholds := e.thresholds;
    mappings := [];
    for i := 0 to |thresholds|
      invariant mappings == InferFor(lab, thresholds)[..i]
    {
      var t := thresholds[i];
      var levelName := if t.levelName.Some? then t.levelName.value else "Level " + NatToString(i + 1);
      var levelId := if t.levelId.Some? then t.levelId.value else "level_" + NatToString(i + 1);
      var unified;
      if i == 0 {
        unified := Minimal;
      } else if i == |thresholds| - 1 {
        unified := if |thresholds| >= 4 then Critical else Severe;
      } else if i == 1 {
        unified := Emerging;
      } else {
        unified := Significant;
      }
      mappings := mappings + [LevelMapping(lab, levelName, levelId, unified, Uncertain, Some(InferredNote))];
    }
  }

  // ------------------------------------------------------------ building the map

  /** The key an input lab is stored under. */
  function LabKey(entry: (string, Extraction)): string {
    Lower(entry.0)
  }

  /** The map entry added for an uncurated lab. */
  function InferredEntry(entry: (string, Extraction)): (string, seq<LevelMapping>) {
    (Lower(entry.0), InferFor(entry.0, entry.1.thresholds))
  }

  function InferredEntries(es: seq<(string, Extraction)>): (r: Dict<seq<LevelMapping>>)
    ensures |r| == |es| && forall i | 0 <= i < |es| :: r[i] == InferredEntry(es[i])
  {
    if es == [] then [] else [InferredEntry(es[0])] + InferredEntries(es[1..])
  }

  /** The terminology map of a set of records: the curated tables, then one
      inferred table for each input lab whose lower-cased name was not seen
      before (curated names count as seen), in input order. */
  function TermMapOf(xs: Extractions): Dict<seq<LevelMapping>> {
    LevelMappings + InferredEntries(DedupFrom(xs, LabKey, CuratedLabs))
  }

  /** The first loop of `_build_terminology_map`: a copy of every curated table. */
  method CopyCurated() returns (tm: Dict<seq<LevelMapping>>)
    ensures tm == LevelMappings
  {
    tm := [];
    for i := 0 to |LevelMappings|
      invariant tm == LevelMappings[..i]
    {
      tm := tm + [(LevelMappings[i].0, LevelMappings[i].1)];
    }
  }

  /** One step of the second loop on the deduplicated labs: a lab whose key
      was seen is skipped, any other is kept and its key marked as seen. */
  lemma DedupStep(xs: Extractions, i: int, seen: set<string>)
    requires 0 <= i < |xs|
    ensures LabKey(xs[i]) in seen ==> DedupFrom(xs[i..], LabKey, seen) == DedupFrom(xs[i + 1..], LabKey, seen)
    ensures LabKey(xs[i]) !in seen ==>
      InferredEntries(DedupFrom(xs[i..], LabKey, seen)) == [InferredEntry(xs[i])] + InferredEntries(DedupFrom(xs[i + 1..], LabKey, seen + {LabKey(xs[i])}))
  {
    assert xs[i..][1..] == xs[i + 1..];
    var rest := DedupFrom(xs[i + 1..], LabKey, seen + {LabKey(xs[i])});
    assert ([xs[i]] + rest)[1..] == rest;
  }

  /** What the map will be once the labs from `i` on are processed, when
      `tm` holds the entries built so far. */
  ghost function Built(xs: Extractions, i: int, tm: Dict<seq<LevelMapping>>): Dict<seq<LevelMapping>>
    requires 0 <= i <= |xs|
  {
    tm + InferredEntries(DedupFrom(xs[i..], LabKey, KeySetOf(tm)))
  }

  /** The second loop starts from the curated tables. */
  lemma BuildStart(xs: Extractions)
    ensures Built(xs, 0, LevelMappings) == TermMapOf(xs)
  {
    CuratedTableIsDict();
    assert xs[0..] == xs;
  }

  /** The second loop ends with the map it built. */
  lemma BuildDone(xs: Extractions, tm: Dict<seq<LevelMapping>>)
    ensures Built(xs, |xs|, tm) == tm
  {
    assert xs[|xs|..] == [];
  }

  /** The same step on the map being built, for a lab already in the map
      and for a new one. */
  lemma BuildStepSeen(xs: Extractions, i: int, tm: Dict<seq<LevelMapping>>)
    requires 0 <= i < |xs| && LabKey(xs[i]) in KeySetOf(tm)
    ensures Built(xs, i + 1, tm) == Built(xs, i, tm)
  {
    DedupStep(xs, i, KeySetOf(tm));
  }

  lemma BuildStepNew(xs: Extractions, i: int, tm: Dict<seq<LevelMapping>>)
    requires 0 <= i < |xs| && LabKey(xs[i]) !in KeySetOf(tm)
    ensures Built(xs, i + 1, tm + [InferredEntry(xs[i])]) == Built(xs, i, tm)
  {
    var e := InferredEntry(xs[i]);
    var seen := KeySetOf(tm);
    var k := LabKey(xs[i]);
    assert KeySetOf(tm + [e]) == seen + {k} by {
      KeySetOfAppend(tm, e.0, e.1);
    }
    var r := InferredEntries(DedupFrom(xs[i + 1..], LabKey, seen + {k}));
    assert InferredEntries(DedupFrom(xs[i..], LabKey, seen)) == [e] + r by {
      DedupStep(xs, i, seen);
    }
    AppendAssoc(tm, [e], r);
  }

  /** `_build_terminology_map` */
  method BuildTerminologyMap(xs: Extractions) returns (tm: Dict<seq<LevelMapping>>)
    ensures tm == TermMapOf(xs)
  {
    tm := CopyCurated();
    BuildStart(xs);
    for i := 0 to |xs|
      invariant Built(xs, i, tm) == TermMapOf(xs)
    {
      var lab := xs[i].0;
      var labLower := Lower(lab);
      if labLower !in KeySetOf(tm) {
        BuildStepNew(xs, i, tm);
        var inferred := InferMappings(lab, xs[i].1);
        tm := tm + [(labLower, inferred)];
      } else {
        BuildStepSeen(xs, i, tm);
      }
    }
    BuildDone(xs, tm);
  }

  /** The built map is a dictionary: no lab appears twice. */
  lemma TermMapIsDict(xs: Extractions)
    ensures IsDict(TermMapOf(xs))
  {
    CuratedTableIsDict();
    var kept := DedupFrom(xs, LabKey, CuratedLabs);
    DedupKeys(xs, LabKey, CuratedLabs);
    var inferred := InferredEntries(kept);
    forall i, j | 0 <= i < j < |inferred| ensures inferred[i].0 != inferred[j].0 {
      assert inferred[i].0 == LabKey(kept[i]) && inferred[j].0 == LabKey(kept[j]);
    }
    forall j | 0 <= j < |inferred| ensures inferred[j].0 !in KeySetOf(LevelMappings) {
      assert inferred[j].0 == LabKey(kept[j]);
    }
    AppendDisjointDicts(LevelMappings, inferred);
  }

  /** Every curated lab keeps its curated table verbatim, whatever the input:
      in particular an input lab whose lower-cased name is curated is never
      re-inferred. */
  lemma CuratedVerbatim(xs: Extractions, i: int)
    requires 0 <= i < |LevelMappings|
    ensures Get(TermMapOf(xs), LevelMappings[i].0) == Some(LevelMappings[i].1)
  {
    TermMapIsDict(xs);
    assert TermMapOf(xs)[i] == LevelMappings[i];
    GetEntry(TermMapOf(xs), i);
  }

  /** The first input lab with a given uncurated lower-cased name gets the
      table inferred from its own thresholds, under the lower-cased name. */
  lemma UncuratedInferred(xs: Extractions, i: int)
    requires 0 <= i < |xs| && LabKey(xs[i]) !in CuratedLabs
    requires FirstWithKey(xs, LabKey, i)
    ensures Get(TermMapOf(xs), Lower(xs[i].0)) == Some(InferFor(xs[i].0, xs[i].1.thresholds))
  {
    DedupKeepsFirst(xs, LabKey, CuratedLabs, i);
    var kept := DedupFrom(xs, LabKey, CuratedLabs);
    var n :| 0 <= n < |kept| && kept[n] == xs[i];
    assert InferredEntries(kept)[n] == InferredEntry(xs[i]);
    TermMapIsDict(xs);
    GetInSuffix(LevelMappings, InferredEntries(kept), n);
  }

  /** The labs of the built map: the curated labs and the lower-cased name
      of every input lab. */
  lemma TermMapKeys(xs: Extractions)
    ensures forall k :: k in KeySetOf(TermMapOf(xs)) <==> k in CuratedLabs || k in KeySet(xs, LabKey)
  {
    CuratedTableIsDict();
    var kept := DedupFrom(xs, LabKey, CuratedLabs);
    DedupKeys(xs, LabKey, CuratedLabs);
    InferredKeys(kept);
    KeySetOfConcat(LevelMappings, InferredEntries(kept));
  }

  lemma InferredKeys(es: seq<(string, Extraction)>)
    ensures KeySetOf(InferredEntries(es)) == KeySet(es, LabKey)
  {
    var inferred := InferredEntries(es);
    forall k ensures k in KeySetOf(inferred) <==> k in KeySet(es, LabKey) {
      if k in KeySetOf(inferred) {
        var j :| 0 <= j < |inferred| && inferred[j].0 == k;
        assert LabKey(es[j]) == k;
      }
      if k in KeySet(es, LabKey) {
        var j :| 0 <= j < |es| && LabKey(es[j]) == k;
        assert inferred[j].0 == k;
      }
    }
  }

  /** Every input lab has an entry under its lower-cased name. */
  lemma EveryInputLabMapped(xs: Extractions, i: int)
    requires 0 <= i < |xs|
    ensures Get(TermMapOf(xs), Lower(xs[i].0)).Some?
  {
    TermMapKeys(xs);
    assert LabKey(xs[i]) in KeySet(xs, LabKey);
    GetPresent(TermMapOf(xs), Lower(xs[i].0));
  }

  // ------------------------------------------------------------ TerminologyMapper

  /** One unified level of the exported dictionary. */
  datatype LevelEntry = LevelEntry(level: string, value: int, description: string)

  /** One lab mapping of the exported dictionary. */
  datatype MappingEntry = MappingEntry(
    labLevelName: string,
    labLevelId: string,
    unifiedLevel: string,
    unifiedLevelValue: int,
    confidence: string,
    notes: Option<string>)

  datatype TerminologyDict = TerminologyDict(unifiedLevels: seq<LevelEntry>, labMappings: Dict<seq<MappingEntry>>)

  function ExportMapping(m: LevelMapping): MappingEntry {
    MappingEntry(m.levelName, m.levelId, m.unified.Name(), m.unified.Value(), m.confidence.Text(), m.notes)
  }

  function ExportMappings(ms: seq<LevelMapping>): (r: seq<MappingEntry>)
    ensures |r| == |ms| && forall j | 0 <= j < |ms| :: r[j] == ExportMapping(ms[j])
  {
    seq(|ms|, j requires 0 <= j < |ms| => ExportMapping(ms[j]))
  }

  class TerminologyMapper {
    const extractions: Extractions
    const termMap: TerminologyMap

    constructor(xs: Extractions)
      ensures extractions == xs && termMap == TerminologyMap(TermMapOf(xs))
    {
      extractions := xs;
      var tm := BuildTerminologyMap(xs);
      termMap := TerminologyMap(tm);
    }

    /** `get_unified_level`: the level of the first of the lab's levels whose
        name matches ignoring case; the lab is looked up lower-cased. `None`
        when the lab or the name is unknown. */
    function GetUnifiedLevel(lab: string, levelName: string): (r: Option<UnifiedLevel>)
      ensures r.None? <==> forall m | m in termMap.LabMappings(Lower(lab)) :: Lower(m.levelName) != Lower(levelName)
      ensures r.Some? ==> exists i | 0 <= i < |termMap.LabMappings(Lower(lab))| ::
        var ms := termMap.LabMappings(Lower(lab));
        Lower(ms[i].levelName) == Lower(levelName) && ms[i].unified == r.value &&
        forall j | 0 <= j < i :: Lower(ms[j].levelName) != Lower(levelName)
    {
      match FirstNamed(termMap.LabMappings(Lower(lab)), levelName)
      case None => None
      case Some(m) => Some(m.unified)
    }

    /** `get_equivalents`: for every other lab (compared ignoring case) that
        has a level at the unified level of `levelName`, the name of its first
        such level; empty when `levelName` is unknown. */
    function GetEquivalents(lab: string, levelName: string): (r: Dict<string>)
      ensures GetUnifiedLevel(lab, levelName).None? ==> r == []
      ensures forall e | e in r :: Lower(e.0) != Lower(lab)
      ensures GetUnifiedLevel(lab, levelName).Some? ==>
        var u := GetUnifiedLevel(lab, levelName).value;
        forall e | e in r :: exists i | 0 <= i < |termMap.mappings| ::
          termMap.mappings[i].0 == e.0 && LevelNameAt(termMap.mappings[i].1, u) == Some(e.1)
    {
      match GetUnifiedLevel(lab, levelName)
      case None => []
      case Some(u) => EquivalentsFrom(termMap.mappings, lab, u)
    }

    /** `get_all_labs`: the keys of the map in order, curated labs first. */
    function GetAllLabs(): (r: seq<string>)
      ensures |r| == |termMap.mappings| && forall i | 0 <= i < |r| :: r[i] == termMap.mappings[i].0
    {
      Keys(termMap.mappings)
    }

    /** `get_lab_levels`: the table stored under the lower-cased lab, or empty. */
    function GetLabLevels(lab: string): (r: seq<LevelMapping>)
      ensures (forall i | 0 <= i < |termMap.mappings| :: termMap.mappings[i].0 != Lower(lab)) ==> r == []
      ensures forall i | 0 <= i < |termMap.mappings| && termMap.mappings[i].0 == Lower(lab) && IsDict(termMap.mappings) ::
        r == termMap.mappings[i].1
    {
      termMap.LabMappings(Lower(lab))
    }

    /** `to_dict`: the five unified levels in rank order with values 1 to 5,
        and for each lab of the map one exported entry per mapping. */
    function ToDict(): (r: TerminologyDict)
      ensures |r.unifiedLevels| == 5
      ensures forall i | 0 <= i < 5 ::
        r.unifiedLevels[i] == LevelEntry(AllLevels[i].Name(), i + 1, AllLevels[i].Description())
      ensures |r.labMappings| == |termMap.mappings|
      ensures forall i | 0 <= i < |termMap.mappings| ::
        r.labMappings[i].0 == termMap.mappings[i].0 &&
        |r.labMappings[i].1| == |termMap.mappings[i].1| &&
        forall j | 0 <= j < |termMap.mappings[i].1| :: r.labMappings[i].1[j] == ExportMapping(termMap.mappings[i].1[j])
    {
      AllLevelsInRankOrder();
      var levels := seq(5, i requires 0 <= i < 5 => LevelEntry(AllLevels[i].Name(), AllLevels[i].Value(), AllLevels[i].Description()));
      var labs := seq(|termMap.mappings|, i requires 0 <= i < |termMap.mappings| =>
        (termMap.mappings[i].0, ExportMappings(termMap.mappings[i].1)));
      TerminologyDict(levels, labs)
    }
  }

  /** The name of the first mapping of `ms` at level `u`. */
  function LevelNameAt(ms: seq<LevelMapping>, u: UnifiedLevel): Option<string> {
    match FirstAtLevel(ms, u)
    case None => None
    case Some(m) => Some(m.levelName)
  }

  /** The equivalents loop of `get_equivalents` over the map entries. */
  function EquivalentsFrom(mappings: Dict<seq<LevelMapping>>, lab: string, u: UnifiedLevel): (r: Dict<string>)
    ensures forall e | e in r :: Lower(e.0) != Lower(lab)
    ensures forall e | e in r :: exists i | 0 <= i < |mappings| :: mappings[i].0 == e.0 && LevelNameAt(mappings[i].1, u) == Some(e.1)
  {
    if mappings == [] then []
    else
      var first := LevelNameAt(mappings[0].1, u);
      var here := if Lower(mappings[0].0) != Lower(lab) && first.Some? then [(mappings[0].0, first.value)] else [];
      var rest := EquivalentsFrom(mappings[1..], lab, u);
      assert forall e | e in rest :: exists i | 0 <= i < |mappings| :: mappings[i].0 == e.0 && LevelNameAt(mappings[i].1, u) == Some(e.1) by {
        forall e | e in rest ensures exists i | 0 <= i < |mappings| :: mappings[i].0 == e.0 && LevelNameAt(mappings[i].1, u) == Some(e.1) {
          var i :| 0 <= i < |mappings[1..]| && mappings[1..][i].0 == e.0 && LevelNameAt(mappings[1..][i].1, u) == Some(e.1);
          assert mappings[i + 1] == mappings[1..][i];
        }
      }
      here + rest
  }

  /** Every other lab with a level at `u` contributes the name of its first one. */
  lemma {:induction false} EquivalentsComplete(mappings: Dict<seq<LevelMapping>>, lab: string, u: UnifiedLevel, i: int)
    requires 0 <= i < |mappings| && Lower(mappings[i].0) != Lower(lab) && LevelNameAt(mappings[i].1, u).Some?
    ensures (mappings[i].0, LevelNameAt(mappings[i].1, u).value) in EquivalentsFrom(mappings, lab, u)
  {
    if i > 0 {
      assert mappings[1..][i - 1] == mappings[i];
      EquivalentsComplete(mappings[1..], lab, u, i - 1);
    }
  }

  /** Every key of the equivalents is a key of the map. */
  lemma EquivalentKeys(mappings: Dict<seq<LevelMapping>>, lab: string, u: UnifiedLevel)
    ensures forall j | 0 <= j < |EquivalentsFrom(mappings, lab, u)| ::
      EquivalentsFrom(mappings, lab, u)[j].0 in KeySetOf(mappings)
  {
    var r := EquivalentsFrom(mappings, lab, u);
    forall j | 0 <= j < |r| ensures r[j].0 in KeySetOf(mappings) {
      assert r[j] in r;
    }
  }

  /** The equivalents form a dictionary whenever the map does. */
  lemma {:induction false} EquivalentsAreDict(mappings: Dict<seq<LevelMapping>>, lab: string, u: UnifiedLevel)
    requires IsDict(mappings)
    ensures IsDict(EquivalentsFrom(mappings, lab, u))
  {
    if mappings != [] {
      var tail := mappings[1..];
      TailIsDict(mappings);
      EquivalentsAreDict(tail, lab, u);
      var rest := EquivalentsFrom(tail, lab, u);
      var first := LevelNameAt(mappings[0].1, u);
      if Lower(mappings[0].0) != Lower(lab) && first.Some? {
        var here := [(mappings[0].0, first.value)];
        assert EquivalentsFrom(mappings, lab, u) == here + rest;
        EquivalentKeys(tail, lab, u);
        AppendDisjointDicts(here, rest);
      } else {
        assert EquivalentsFrom(mappings, lab, u) == rest;
      }
    }
  }
}
