/** The gap catalogue: ten curated gaps between the published frameworks,
    coverage gaps synthesised from the supplied records, and the analyzer
    that merges both, drops repeated ids and filters and exports the result. */
module Gaps {
  import opened Optional
  import opened Strings
  import opened Seqs
  import opened Dicts
  import opened Json
  import opened Records

  datatype GapType = ThresholdGap | CoverageGap | DefinitionGap | TerminologyGap {
    function Value(): string {
      match this
      case ThresholdGap => "threshold"
      case CoverageGap => "coverage"
      case DefinitionGap => "definition"
      case TerminologyGap => "terminology"
    }
  }

  /** `GapType(s)`: the member whose value is `s`. */
  function GapTypeOf(s: string): (r: Option<GapType>)
    ensures forall t: GapType :: r == Some(t) <==> t.Value() == s
  {
    if s == "threshold" then Some(ThresholdGap)
    else if s == "coverage" then Some(CoverageGap)
    else if s == "definition" then Some(DefinitionGap)
    else if s == "terminology" then Some(TerminologyGap)
    else None
  }

  datatype GapSeverity = High | Medium | Low {
    function Value(): string {
      match this
      case High => "high"
      case Medium => "medium"
      case Low => "low"
    }
  }

  /** `GapSeverity(s)`: the member whose value is `s`. */
  function GapSeverityOf(s: string): (r: Option<GapSeverity>)
    ensures forall v: GapSeverity :: r == Some(v) <==> v.Value() == s
  {
    if s == "high" then Some(High)
    else if s == "medium" then Some(Medium)
    else if s == "low" then Some(Low)
    else None
  }

  datatype GapExample = GapExample(lab: string, quote: string, interpretation: string) {
    function ToDict(): Value {
      Obj([("lab", Str(lab)), ("quote", Str(quote)), ("interpretation", Str(interpretation))])
    }
  }

  /** The inverse of `GapExample.ToDict`. */
  function ExampleFromDict(v: Value): Option<GapExample> {
    if !v.Obj? then None
    else
      var lab := StrField(v.fields, "lab");
      var quote := StrField(v.fields, "quote");
      var interp := StrField(v.fields, "interpretation");
      if lab.Some? && quote.Some? && interp.Some? then Some(GapExample(lab.value, quote.value, interp.value))
      else None
  }

  function ExamplesToDicts(es: seq<GapExample>): (r: seq<Value>)
    ensures |r| == |es| && forall i | 0 <= i < |es| :: r[i] == es[i].ToDict()
  {
    seq(|es|, i requires 0 <= i < |es| => es[i].ToDict())
  }

  function ExamplesFromDicts(vs: seq<Value>): Option<seq<GapExample>> {
    if vs == [] then Some([])
    else
      match (ExampleFromDict(vs[0]), ExamplesFromDicts(vs[1..]))
      case (Some(e), Some(rest)) => Some([e] + rest)
      case _ => None
  }

  /** A gap between frameworks; `kind` is the source's `type` field. */
  datatype Gap = Gap(
    gapId: string,
    kind: GapType,
    severity: GapSeverity,
    title: string,
    description: string,
    affectedLabs: seq<string>,
    domain: Option<string>,
    examples: seq<GapExample>,
    recommendation: Option<string>)
  {
    /** `Gap.to_dict` */
    function ToDict(): Value {
      Obj([
        ("gap_id", Str(gapId)),
        ("type", Str(kind.Value())),
        ("severity", Str(severity.Value())),
        ("title", Str(title)),
        ("description", Str(description)),
        ("affected_labs", Arr(Strs(affectedLabs))),
        ("domain", NullOr(domain)),
        ("examples", Arr(ExamplesToDicts(examples))),
        ("recommendation", NullOr(recommendation))])
    }
  }

  /** Reads a gap back from its dictionary; `None` for anything else. */
  function GapFromDict(v: Value): Option<Gap> {
    if !v.Obj? then None
    else
      var f := v.fields;
      var id := StrField(f, "gap_id");
      var kind := if StrField(f, "type").Some? then GapTypeOf(StrField(f, "type").value) else None;
      var sev := if StrField(f, "severity").Some? then GapSeverityOf(StrField(f, "severity").value) else None;
      var title := StrField(f, "title");
      var desc := StrField(f, "description");
      var labs := if ArrField(f, "affected_labs").Some? then AsStrs(ArrField(f, "affected_labs").value) else None;
      var dom := if Get(f, "domain").Some? then AsNullOr(Get(f, "domain").value) else None;
      var exs := if ArrField(f, "examples").Some? then ExamplesFromDicts(ArrField(f, "examples").value) else None;
      var rec := if Get(f, "recommendation").Some? then AsNullOr(Get(f, "recommendation").value) else None;
      if id.Some? && kind.Some? && sev.Some? && title.Some? && desc.Some? && labs.Some? && dom.Some? && exs.Some? && rec.Some?
      then Some(Gap(id.value, kind.value, sev.value, title.value, desc.value, labs.value, dom.value, exs.value, rec.value))
      else None
  }

  lemma ExampleRoundTrip(e: GapExample)
    ensures ExampleFromDict(e.ToDict()) == Some(e)
  {
    var f := e.ToDict().fields;
    GetFirst(f, 0);
    GetFirst(f, 1);
    GetFirst(f, 2);
  }

  lemma {:induction false} ExamplesRoundTrip(es: seq<GapExample>)
    ensures ExamplesFromDicts(ExamplesToDicts(es)) == Some(es)
  {
    if es != [] {
      assert ExamplesToDicts(es)[1..] == ExamplesToDicts(es[1..]);
      ExamplesRoundTrip(es[1..]);
      ExampleRoundTrip(es[0]);
      assert es == [es[0]] + es[1..];
    }
  }

  lemma GapField0(g: Gap)
    ensures Get(g.ToDict().fields, "gap_id") == Some(Str(g.gapId))
  {
    var f := g.ToDict().fields;
    GetFirst(f, 0);
  }

  lemma GapField1(g: Gap)
    ensures Get(g.ToDict().fields, "type") == Some(Str(g.kind.Value()))
  {
    var f := g.ToDict().fields;
    assert forall j | 0 <= j < 1 :: f[j].0 != f[1].0;
    GetFirst(f, 1);
  }

  lemma GapField2(g: Gap)
    ensures Get(g.ToDict().fields, "severity") == Some(Str(g.severity.Value()))
  {
    var f := g.ToDict().fields;
    assert forall j | 0 <= j < 2 :: f[j].0 != f[2].0;
    GetFirst(f, 2);
  }

  lemma GapField3(g: Gap)
    ensures Get(g.ToDict().fields, "title") == Some(Str(g.title))
  {
    var f := g.ToDict().fields;
    assert forall j | 0 <= j < 3 :: f[j].0 != f[3].0;
    GetFirst(f, 3);
  }

  lemma GapField4(g: Gap)
    ensures Get(g.ToDict().fields, "description") == Some(Str(g.description))
  {
    var f := g.ToDict().fields;
    assert forall j | 0 <= j < 4 :: f[j].0 != f[4].0;
    GetFirst(f, 4);
  }

  lemma GapField5(g: Gap)
    ensures Get(g.ToDict().fields, "affected_labs") == Some(Arr(Strs(g.affectedLabs)))
  {
    var f := g.ToDict().fields;
    assert forall j | 0 <= j < 5 :: f[j].0 != f[5].0;
    GetFirst(f, 5);
  }

  lemma GapField6(g: Gap)
    ensures Get(g.ToDict().fields, "domain") == Some(NullOr(g.domain))
  {
    var f := g.ToDict().fields;
    assert forall j | 0 <= j < 6 :: f[j].0 != f[6].0;
    GetFirst(f, 6);
  }

  lemma GapField7(g: Gap)
    ensures Get(g.ToDict().fields, "examples") == Some(Arr(ExamplesToDicts(g.examples)))
  {
    var f := g.ToDict().fields;
    assert forall j | 0 <= j < 7 :: f[j].0 != f[7].0;
    GetFirst(f, 7);
  }

  lemma GapField8(g: Gap)
    ensures Get(g.ToDict().fields, "recommendation") == Some(NullOr(g.recommendation))
  {
    var f := g.ToDict().fields;
    assert forall j | 0 <= j < 8 :: f[j].0 != f[8].0;
    GetFirst(f, 8);
  }

  /** What `GapFromDict` reads from each key of an exported gap. */
  lemma GapParsedFields(g: Gap)
    ensures var f := g.ToDict().fields;
      && StrField(f, "gap_id") == Some(g.gapId)
      && StrField(f, "type") == Some(g.kind.Value())
      && StrField(f, "severity") == Some(g.severity.Value())
      && StrField(f, "title") == Some(g.title)
      && StrField(f, "description") == Some(g.description)
      && ArrField(f, "affected_labs") == Some(Strs(g.affectedLabs))
      && Get(f, "domain") == Some(NullOr(g.domain))
      && ArrField(f, "examples") == Some(ExamplesToDicts(g.examples))
      && Get(f, "recommendation") == Some(NullOr(g.recommendation))
  {
    GapField0(g); GapField1(g); GapField2(g); GapField3(g); GapField4(g);
    GapField5(g); GapField6(g); GapField7(g); GapField8(g);
  }

  /** Exporting a gap loses nothing: it can be read back from its dictionary. */
  lemma GapRoundTrip(g: Gap)
    ensures GapFromDict(g.ToDict()) == Some(g)
  {
    GapParsedFields(g);
    AsStrsOfStrs(g.affectedLabs);
    ExamplesRoundTrip(g.examples);
    GapValuesDecode(g);
  }

  /** The type, the severity, the domain and the recommendation of a gap read
      back from their exported values. */
  lemma GapValuesDecode(g: Gap)
    ensures GapTypeOf(g.kind.Value()) == Some(g.kind)
    ensures GapSeverityOf(g.severity.Value()) == Some(g.severity)
    ensures AsNullOr(NullOr(g.domain)) == Some(g.domain)
    ensures AsNullOr(NullOr(g.recommendation)) == Some(g.recommendation)
  {
  }

  function GapIdOf(g: Gap): string { g.gapId }
  function SeverityOf(g: Gap): GapSeverity { g.severity }
  function KindOf(g: Gap): GapType { g.kind }

  /** The filter key of `get_gaps_by_domain`: a gap without a domain (or with
      an empty one) matches no domain. */
  function DomainKeyOf(g: Gap): Option<string> {
    if g.domain.Some? && g.domain.value != "" then Some(Lower(g.domain.value)) else None
  }

  // ------------------------------------------------------------ KNOWN_GAPS

  const AllLabs: seq<string> := ["anthropic", "openai", "deepmind", "meta"]

  // The curated texts below are written word by word: many short literals are
  // far cheaper for the verifier than a few long ones.

  const GapThrAut001 := Gap("THR-AUT-001", ThresholdGap, High,
      "Autonomy " + "Threshold " + "Misalignment",
      "Labs " + "define " + "'dangerous " + "autonomy' " + "differently. " + "Anthropic " +
        "focuses " + "on " + "self-replication " + "and " + "resource " + "acquisition, " + "while " +
        "OpenAI " + "emphasizes " + "general " + "autonomous " + "task " + "completion, " + "and " +
        "DeepMind " + "tracks " + "ML " + "R&D " + "automation " + "specifically.",
      AllLabs, Some("autonomy"),
      [GapExample("anthropic", "Cannot " + "meaningfully " + "self-replicate " + "or " + "acquire " +
        "resources", "Focuses " + "on " + "self-preservation " + "behaviors"),
       GapExample("openai", "Significant " + "autonomous " + "task " + "completion", "Broader " +
         "definition " + "of " + "autonomy"),
       GapExample("deepmind", "Can " + "substantially " + "accelerate " + "AI " + "development", "Specific " +
         "to " + "AI " + "R&D " + "autonomy")],
      Some("Define " + "standardized " + "autonomy " + "metrics: " + "(1) " + "Self-replication " +
        "capability, " + "(2) " + "Resource " + "acquisition, " + "(3) " + "Task " + "completion " +
        "without " + "oversight, " + "(4) " + "AI " + "R&D " + "acceleration"))

  const GapThrRnd001 := Gap("THR-RND-001", ThresholdGap, High,
      "AI " + "R&D " + "Acceleration " + "Threshold " + "Divergence",
      "Different " + "labs " + "have " + "vastly " + "different " + "thresholds " + "for " + "when " +
        "AI-assisted " + "R&D " + "becomes " + "concerning. " + "Some " + "treat " + "any " +
        "meaningful " + "acceleration " + "as " + "high-risk, " + "others " + "focus " + "only " +
        "on " + "autonomous " + "research.",
      ["anthropic", "deepmind"], Some("ai_rd"),
      [GapExample("anthropic", "Can " + "meaningfully " + "accelerate " + "AI " + "development " +
        "(ASL-3)", "Broad " + "acceleration " + "concern"),
       GapExample("deepmind", "Can " + "substantially " + "accelerate " + "AI " + "development " +
         "(CCL-1)", "Similar " + "but " + "different " + "threshold " + "terminology")],
      Some("Establish " + "quantitative " + "metrics " + "for " + "AI " + "R&D " + "acceleration " +
        "(e.g., " + "X% " + "reduction " + "in " + "development " + "time, " + "capability " + "to " +
        "discover " + "novel " + "architectures)"))

  const GapThrCbr001 := Gap("THR-CBR-001", ThresholdGap, High,
      "CBRN " + "Uplift " + "Definition " + "Inconsistency",
      "'Meaningful " + "uplift' " + "for " + "CBRN " + "capabilities " + "is " + "defined " +
        "differently. " + "Some " + "labs " + "compare " + "to " + "'web " + "search " +
        "baseline', " + "others " + "to " + "'non-expert " + "baseline', " + "with " + "unclear " +
        "equivalence.",
      AllLabs, Some("cbrn"),
      [GapExample("anthropic", "No " + "meaningful " + "uplift " + "beyond " + "web " + "search", "Web " +
        "search " + "as " + "baseline"),
       GapExample("openai", "Modest " + "uplift, " + "comparable " + "to " + "skilled " + "search", "Skilled " +
         "search " + "as " + "baseline"),
       GapExample("deepmind", "Significantly " + "increases " + "ability " + "of " + "non-experts " +
         "to " + "cause " + "harm", "Non-expert " + "baseline")],
      Some("Define " + "standardized " + "CBRN " + "uplift " + "metrics " + "with " + "specific " +
        "baseline " + "comparisons " + "and " + "quantitative " + "uplift " + "thresholds"))

  const GapTerm001 := Gap("TERM-001", TerminologyGap, High,
      "Risk " + "Level " + "Naming " + "Inconsistency",
      "Labs " + "use " + "completely " + "different " + "naming " + "conventions " + "for " +
        "risk " + "levels, " + "making " + "cross-framework " + "comparison " + "difficult " +
        "for " + "regulators " + "and " + "researchers.",
      AllLabs, None,
      [GapExample("anthropic", "ASL-1 " + "through " + "ASL-4", "AI " + "Safety " + "Levels"),
       GapExample("openai", "Low, " + "Medium, " + "High, " + "Critical", "Risk-based " + "naming"),
       GapExample("deepmind", "Below " + "CCL, " + "CCL-1, " + "CCL-2", "Critical " + "Capability " +
         "Levels"),
       GapExample("meta", "Tier " + "1 " + "through " + "Tier " + "4", "Tiered " + "system")],
      Some("Adopt " + "a " + "unified " + "5-tier " + "framework: " + "Minimal, " + "Emerging, " +
        "Significant, " + "Severe, " + "Critical"))

  const GapCovPer001 := Gap("COV-PER-001", CoverageGap, Medium,
      "Persuasion/Manipulation " + "Coverage " + "Gap",
      "Not " + "all " + "frameworks " + "explicitly " + "address " + "AI " + "persuasion " + "and " +
        "manipulation " + "capabilities " + "with " + "the " + "same " + "rigor " + "as " + "other " +
        "domains.",
      ["anthropic", "meta"], Some("persuasion"),
      [GapExample("anthropic", "Partial " + "coverage " + "of " + "persuasion", "Not " + "as " +
        "detailed " + "as " + "CBRN/cyber"),
       GapExample("openai", "Sophisticated " + "persuasion " + "campaigns " + "(High " + "level)", "Explicit " +
         "coverage")],
      Some("All " + "frameworks " + "should " + "include " + "explicit " + "persuasion " +
        "thresholds " + "with " + "metrics " + "for " + "influence " + "operations"))

  const GapCovDec001 := Gap("COV-DEC-001", CoverageGap, Medium,
      "Deception/Scheming " + "Coverage " + "Variance",
      "Only " + "some " + "frameworks " + "explicitly " + "address " + "AI " + "deception " + "and " +
        "scheming " + "behaviors " + "as " + "a " + "distinct " + "risk " + "category.",
      ["anthropic", "openai", "meta"], Some("deception"),
      [GapExample("deepmind", "Evidence " + "of " + "goal-directed " + "deceptive " + "behavior " +
        "(CCL-1)", "Explicit " + "scheming " + "threshold"),
       GapExample("anthropic", "No " + "explicit " + "deception " + "category", "Covered " +
         "implicitly " + "under " + "autonomy")],
      Some("Add " + "explicit " + "deception/scheming " + "thresholds " + "to " + "all " +
        "frameworks"))

  const GapDefSec001 := Gap("DEF-SEC-001", DefinitionGap, Medium,
      "Security " + "Level " + "Definition " + "Variance",
      "Security " + "requirements " + "at " + "equivalent " + "risk " + "levels " + "vary " +
        "significantly. " + "'Enhanced " + "security' " + "means " + "different " + "things " +
        "across " + "frameworks.",
      AllLabs, None,
      [GapExample("anthropic", "Hardened " + "infrastructure " + "(ASL-3)", "Focus " + "on " +
        "infrastructure"),
       GapExample("deepmind", "Security " + "Level " + "Alpha " + "to " + "Omega", "Explicit " +
         "tiered " + "security " + "system"),
       GapExample("meta", "Weight " + "security " + "(Tier " + "3+)", "Focus " + "on " + "model " +
         "weights")],
      Some("Define " + "standardized " + "security " + "levels " + "with " + "specific " +
        "technical " + "requirements"))

  const GapThrCyb001 := Gap("THR-CYB-001", ThresholdGap, Medium,
      "Cyber " + "Capability " + "Threshold " + "Ambiguity",
      "Thresholds " + "for " + "dangerous " + "cyber " + "capabilities " + "vary " + "in " +
        "specificity " + "and " + "measurability.",
      AllLabs, Some("cyber"),
      [GapExample("anthropic", "Can " + "discover " + "and " + "exploit " + "novel " +
        "vulnerabilities " + "(ASL-3)", "Novel " + "vulnerability " + "focus"),
       GapExample("openai", "Can " + "discover " + "or " + "exploit " + "significant " +
         "vulnerabilities " + "(High)", "Significant " + "vs " + "novel"),
       GapExample("deepmind", "Can " + "automate " + "significant " + "parts " + "of " +
         "sophisticated " + "attacks " + "(CCL-1)", "Automation " + "focus")],
      Some("Define " + "specific " + "cyber " + "capability " + "benchmarks " + "with " +
        "measurable " + "criteria"))

  const GapDefPau001 := Gap("DEF-PAU-001", DefinitionGap, High,
      "Pause " + "Commitment " + "Ambiguity",
      "While " + "all " + "labs " + "commit " + "to " + "pausing " + "under " + "extreme " +
        "circumstances, " + "the " + "specific " + "conditions " + "and " + "duration " + "are " +
        "often " + "vague.",
      AllLabs, None,
      [GapExample("anthropic", "Will " + "not " + "train/deploy " + "without " + "safeguards " +
        "in " + "place", "Safeguard-gated"),
       GapExample("openai", "Will " + "not " + "deploy " + "Critical " + "models " + "without " +
         "approval", "Approval-gated"),
       GapExample("deepmind", "Will " + "not " + "deploy " + "models " + "exceeding " + "CCL " +
         "without " + "mitigations", "Mitigation-gated")],
      Some("Define " + "clear, " + "verifiable " + "pause " + "conditions " + "with " + "specific " +
        "capability " + "thresholds " + "and " + "safeguard " + "requirements"))

  const GapTerm002 := Gap("TERM-002", TerminologyGap, Low,
      "Safeguard " + "vs " + "Mitigation " + "Terminology",
      "Labs " + "use " + "'safeguards', " + "'mitigations', " + "and " + "'controls' " + "somewhat " +
        "interchangeably.",
      AllLabs, None,
      [GapExample("anthropic", "Required " + "safeguards", "Uses " + "'safeguards'"),
       GapExample("deepmind", "Deployment " + "mitigations " + "verified", "Uses " + "'mitigations'"),
       GapExample("openai", "Safety " + "mitigations", "Uses " + "'mitigations'")],
      Some("Standardize " + "terminology: " + "'Safeguards' " + "for " + "proactive " + "measures, " +
        "'Mitigations' " + "for " + "risk " + "reduction"))

  /** `KNOWN_GAPS`, in declared order. */
  const KnownGaps: seq<Gap> := [GapThrAut001, GapThrRnd001, GapThrCbr001, GapTerm001, GapCovPer001, GapCovDec001, GapDefSec001, GapThrCyb001, GapDefPau001, GapTerm002]

  const KnownIds: seq<string> := ["THR-AUT-001", "THR-RND-001", "THR-CBR-001", "TERM-001", "COV-PER-001",
    "COV-DEC-001", "DEF-SEC-001", "THR-CYB-001", "DEF-PAU-001", "TERM-002"]

  lemma KnownIdsDistinct()
    ensures forall i, j | 0 <= i < j < |KnownIds| :: KnownIds[i] != KnownIds[j]
  {
  }

  /** The ids of the curated gaps, in declared order. */
  lemma KnownGapIds()
    ensures |KnownGaps| == |KnownIds| == 10
    ensures forall i | 0 <= i < |KnownGaps| :: KnownGaps[i].gapId == KnownIds[i]
  {
  }

  /** The ten curated gaps have ten different ids. */
  lemma KnownGapsDistinct()
    ensures |KnownGaps| == 10
    ensures forall i | 0 <= i < |KnownGaps| :: KnownGaps[i].gapId == KnownIds[i]
    ensures DistinctKeys(KnownGaps, GapIdOf)
  {
    KnownIdsDistinct();
    KnownGapIds();
  }

  // ------------------------------------------------------- coverage gaps

  /** A risk-domain entry names `domain` (ignoring case) with coverage
      "full" or "partial". */
  predicate Covers(rd: RiskDomain, domain: string) {
    DomainKey(rd) == Lower(domain) && (rd.coverage == Some("full") || rd.coverage == Some("partial"))
  }

  /** `has_domain` for one lab's record. */
  predicate CoversDomain(rds: seq<RiskDomain>, domain: string) {
    exists j | 0 <= j < |rds| :: Covers(rds[j], domain)
  }

  /** A record covers only domains it names. */
  lemma CoveredIsNamed(rds: seq<RiskDomain>, domain: string)
    requires CoversDomain(rds, domain) && domain != ""
    ensures Lower(domain) in DomainsIn(rds)
  {
    var j :| 0 <= j < |rds| && Covers(rds[j], domain);
    assert HasDomainName(rds[j]);
  }

  /** `labs_covering`: the labs whose record covers `domain`, in record order. */
  function CoveringLabs(xs: Extractions, domain: string): (r: seq<string>)
    ensures forall lab :: lab in r <==> exists i | 0 <= i < |xs| :: xs[i].0 == lab && CoversDomain(xs[i].1.riskDomains, domain)
  {
    if xs == [] then []
    else
      var rest := CoveringLabs(xs[1..], domain);
      assert forall i | 0 <= i < |xs[1..]| :: xs[1..][i] == xs[i + 1];
      (if CoversDomain(xs[0].1.riskDomains, domain) then [xs[0].0] else []) + rest
  }

  /** `labs_missing`: the labs whose record does not cover `domain`, in record order. */
  function MissingLabs(xs: Extractions, domain: string): (r: seq<string>)
    ensures forall lab :: lab in r <==> exists i | 0 <= i < |xs| :: xs[i].0 == lab && !CoversDomain(xs[i].1.riskDomains, domain)
  {
    if xs == [] then []
    else
      var rest := MissingLabs(xs[1..], domain);
      assert forall i | 0 <= i < |xs[1..]| :: xs[1..][i] == xs[i + 1];
      (if CoversDomain(xs[0].1.riskDomains, domain) then [] else [xs[0].0]) + rest
  }

  /** Every lab is either covering or missing. */
  lemma {:induction false} CoveringMissingPartition(xs: Extractions, domain: string)
    ensures |CoveringLabs(xs, domain)| + |MissingLabs(xs, domain)| == |xs|
  {
    if xs != [] {
      CoveringMissingPartition(xs[1..], domain);
    }
  }

  /** When every lab covers a domain, no lab misses it. */
  lemma {:induction false} NoneMissing(xs: Extractions, domain: string)
    requires forall i | 0 <= i < |xs| :: CoversDomain(xs[i].1.riskDomains, domain)
    ensures MissingLabs(xs, domain) == []
  {
    if xs != [] {
      assert CoversDomain(xs[0].1.riskDomains, domain);
      NoneMissing(xs[1..], domain);
    }
  }

  /** The three letters a synthesised gap id is built from. */
  function DomainCode(domain: string): string {
    Upper(Prefix(domain, 3))
  }

  /** Some curated gap id starts with `prefix`. */
  predicate KnownIdStartsWith(prefix: string) {
    exists i | 0 <= i < |KnownIds| :: StartsWith(KnownIds[i], prefix)
  }

  /** The gap synthesised for a domain that some labs miss. */
  function DynamicGap(domain: string, missing: seq<string>): Gap {
    Gap("COV-" + DomainCode(domain) + "-DYN", CoverageGap, Medium,
      Title(domain) + " Coverage Gap",
      "Not all frameworks " + "address " + domain + " with equal rigor.",
      missing, Some(domain), [],
      Some("Ensure all frameworks " + "explicitly address " + domain + " risk domain"))
  }

  /** The gap `find_coverage_gaps` emits for one domain, if any. */
  function CoverageGapFor(xs: Extractions, domain: string): Option<Gap> {
    var covering := CoveringLabs(xs, domain);
    var missing := MissingLabs(xs, domain);
    if covering != [] && missing != [] && domain != "other" && !KnownIdStartsWith("COV-" + DomainCode(domain))
    then Some(DynamicGap(domain, missing))
    else None
  }

  /** A domain gets a synthesised gap exactly when some lab covers it, some
      lab does not, it is not "other" and no curated gap id starts with its
      coverage prefix; the gap lists exactly the labs that miss it. */
  lemma CoverageGapForIff(xs: Extractions, domain: string)
    ensures CoverageGapFor(xs, domain).Some? <==>
      && (exists i | 0 <= i < |xs| :: CoversDomain(xs[i].1.riskDomains, domain))
      && (exists i | 0 <= i < |xs| :: !CoversDomain(xs[i].1.riskDomains, domain))
      && domain != "other"
      && !KnownIdStartsWith("COV-" + DomainCode(domain))
    ensures CoverageGapFor(xs, domain).Some? ==>
      var g := CoverageGapFor(xs, domain).value;
      && g.gapId == "COV-" + DomainCode(domain) + "-DYN"
      && g.kind == CoverageGap && g.severity == Medium
      && g.domain == Some(domain)
      && (forall lab :: lab in g.affectedLabs <==>
            exists i | 0 <= i < |xs| :: xs[i].0 == lab && !CoversDomain(xs[i].1.riskDomains, domain))
  {
    var covering := CoveringLabs(xs, domain);
    var missing := MissingLabs(xs, domain);
    if covering != [] { assert covering[0] in covering; }
    if exists i | 0 <= i < |xs| :: CoversDomain(xs[i].1.riskDomains, domain) {
      var i :| 0 <= i < |xs| && CoversDomain(xs[i].1.riskDomains, domain);
      assert xs[i].0 in covering;
    }
    if missing != [] { assert missing[0] in missing; }
    if exists i | 0 <= i < |xs| :: !CoversDomain(xs[i].1.riskDomains, domain) {
      var i :| 0 <= i < |xs| && !CoversDomain(xs[i].1.riskDomains, domain);
      assert xs[i].0 in missing;
    }
  }

  /** The gaps synthesised for a list of domains, in that order. */
  function CoverageGapsOver(xs: Extractions, ds: seq<string>): seq<Gap> {
    if ds == [] then []
    else GapsOf(CoverageGapFor(xs, ds[0])) + CoverageGapsOver(xs, ds[1..])
  }

  /** The gap found, if any, as a list. */
  function GapsOf(o: Option<Gap>): seq<Gap> {
    match o
    case Some(g) => [g]
    case None => []
  }

  /** One step of the domain loop. */
  lemma CoverageGapsOverStep(xs: Extractions, ds: seq<string>, k: int, r: seq<Gap>, goal: seq<Gap>)
    requires 0 <= k < |ds|
    requires r + CoverageGapsOver(xs, ds[k..]) == goal
    ensures (r + GapsOf(CoverageGapFor(xs, ds[k]))) + CoverageGapsOver(xs, ds[k + 1..]) == goal
  {
    assert ds[k..][1..] == ds[k + 1..];
    AppendAssoc(r, GapsOf(CoverageGapFor(xs, ds[k])), CoverageGapsOver(xs, ds[k + 1..]));
  }

  /** The synthesised gaps are those of the listed domains. */
  lemma {:induction false} CoverageGapsOverMembers(xs: Extractions, ds: seq<string>)
    ensures forall g :: g in CoverageGapsOver(xs, ds) <==> exists k | 0 <= k < |ds| :: CoverageGapFor(xs, ds[k]) == Some(g)
  {
    if ds != [] {
      CoverageGapsOverMembers(xs, ds[1..]);
      assert forall k | 0 <= k < |ds[1..]| :: ds[1..][k] == ds[k + 1];
      forall g | exists k | 0 <= k < |ds| :: CoverageGapFor(xs, ds[k]) == Some(g)
        ensures g in CoverageGapsOver(xs, ds)
      {
        var k :| 0 <= k < |ds| && CoverageGapFor(xs, ds[k]) == Some(g);
        if k > 0 { assert ds[1..][k - 1] == ds[k]; }
      }
    }
  }

  /** When a single domain of a list without repetitions yields a gap, the
      synthesised gaps are that one gap, whatever the order of the list. */
  lemma {:induction false} CoverageGapsOverSingle(xs: Extractions, ds: seq<string>, d: string)
    requires forall i, j | 0 <= i < j < |ds| :: ds[i] != ds[j]
    requires CoverageGapFor(xs, d).Some?
    requires forall k | 0 <= k < |ds| && ds[k] != d :: CoverageGapFor(xs, ds[k]).None?
    ensures CoverageGapsOver(xs, ds) == if d in ds then [CoverageGapFor(xs, d).value] else []
  {
    if ds != [] {
      CoverageGapsOverSingle(xs, ds[1..], d);
    }
  }

  /** `find_coverage_gaps`, visiting the domain set in sorted order. */
  ghost function CoverageGaps(xs: Extractions): seq<Gap> {
    CoverageGapsOver(xs, SortedOf(DomainsOf(xs)))
  }

  /** When a single observed domain yields a gap, `find_coverage_gaps`
      returns that gap alone, whatever order it visits the domains in. */
  lemma CoverageGapsSingle(xs: Extractions, d: string)
    requires d in DomainsOf(xs) && CoverageGapFor(xs, d).Some?
    requires forall e | e in DomainsOf(xs) && e != d :: CoverageGapFor(xs, e).None?
    ensures CoverageGaps(xs) == [CoverageGapFor(xs, d).value]
  {
    var ds := SortedOf(DomainsOf(xs));
    StrictlySortedDistinct(ds);
    forall k | 0 <= k < |ds| && ds[k] != d ensures CoverageGapFor(xs, ds[k]).None? {
      assert ds[k] in ds;
    }
    assert d in ds;
    CoverageGapsOverSingle(xs, ds, d);
  }

  /** What `analyze_all` returns: the curated gaps, then (when records were
      supplied) the synthesised ones, keeping the first gap of every id. */
  ghost function Analysis(xs: Extractions): seq<Gap> {
    DedupFrom(KnownGaps + (if xs != [] then CoverageGaps(xs) else []), GapIdOf, {})
  }

  /** The set of curated gap ids. */
  lemma KnownIdSet()
    ensures KeySet(KnownGaps, GapIdOf) == set i | 0 <= i < |KnownIds| :: KnownIds[i]
  {
    KnownGapIds();
  }

  /** A synthesised id starts with its own coverage prefix, so it never
      equals a curated id. */
  lemma {:induction false} SynthesisedIdsAreNew(xs: Extractions, ds: seq<string>)
    ensures forall i | 0 <= i < |CoverageGapsOver(xs, ds)| :: GapIdOf(CoverageGapsOver(xs, ds)[i]) !in KeySet(KnownGaps, GapIdOf)
  {
    var synth := CoverageGapsOver(xs, ds);
    CoverageGapsOverMembers(xs, ds);
    KnownIdSet();
    forall i | 0 <= i < |synth| ensures GapIdOf(synth[i]) !in KeySet(KnownGaps, GapIdOf) {
      assert synth[i] in synth;
      var k :| 0 <= k < |ds| && CoverageGapFor(xs, ds[k]) == Some(synth[i]);
      var prefix := "COV-" + DomainCode(ds[k]);
      var id := prefix + "-DYN";
      assert synth[i].gapId == id;
      assert !KnownIdStartsWith(prefix);
      assert id[..|prefix|] == prefix;
      assert StartsWith(id, prefix);
      assert forall n | 0 <= n < |KnownIds| :: KnownIds[n] != id;
    }
  }

  /** `analyze_all` yields the ten curated gaps in declared order, followed by
      the synthesised gaps with repeated ids dropped: a synthesised gap is
      never dropped because of a curated one. */
  lemma AnalysisSplit(xs: Extractions)
    ensures Analysis(xs) == KnownGaps + DedupFrom(if xs != [] then CoverageGaps(xs) else [], GapIdOf, {})
  {
    var synth := if xs != [] then CoverageGaps(xs) else [];
    KnownGapsDistinct();
    DedupAppend(KnownGaps, synth, GapIdOf, {});
    DedupIdentity(KnownGaps, GapIdOf, {});
    if xs != [] {
      SynthesisedIdsAreNew(xs, SortedOf(DomainsOf(xs)));
    }
    DedupIgnoresUnseen(synth, GapIdOf, {}, KeySet(KnownGaps, GapIdOf));
    assert {} + KeySet(KnownGaps, GapIdOf) == KeySet(KnownGaps, GapIdOf);
  }

  /** Without records `analyze_all` returns exactly the curated gaps. */
  lemma AnalysisWithoutRecords()
    ensures Analysis([]) == KnownGaps
    ensures |Analysis([])| == 10
  {
    AnalysisSplit([]);
    assert DedupFrom([], GapIdOf, {}) == [];
  }

  /** After `analyze_all` no two gaps share an id, every gap comes from the
      curated or synthesised list, and every id of those lists is present. */
  lemma AnalysisIds(xs: Extractions)
    ensures DistinctKeys(Analysis(xs), GapIdOf)
    ensures IsSubsequence(Analysis(xs), KnownGaps + (if xs != [] then CoverageGaps(xs) else []))
    ensures KeySet(Analysis(xs), GapIdOf) == KeySet(KnownGaps + (if xs != [] then CoverageGaps(xs) else []), GapIdOf)
  {
    var all := KnownGaps + (if xs != [] then CoverageGaps(xs) else []);
    DedupKeys(all, GapIdOf, {});
    DedupSubsequence(all, GapIdOf, {});
  }

  /** Each gap kept by `analyze_all` is the first gap of its id in the
      combined list, and each first gap of an id is kept. */
  lemma AnalysisFirstWins(xs: Extractions, i: int)
    requires var all := KnownGaps + (if xs != [] then CoverageGaps(xs) else []);
      0 <= i < |all| && FirstWithKey(all, GapIdOf, i)
    ensures (KnownGaps + (if xs != [] then CoverageGaps(xs) else []))[i] in Analysis(xs)
  {
    var all := KnownGaps + (if xs != [] then CoverageGaps(xs) else []);
    DedupKeepsFirst(all, GapIdOf, {}, i);
  }

  // ------------------------------------------------------ grouped export

  /** The dictionaries of a list of gaps. */
  function GapDicts(gs: seq<Gap>): (r: seq<Value>)
    ensures |r| == |gs| && forall i | 0 <= i < |gs| :: GapFromDict(r[i]) == Some(gs[i])
  {
    var r := seq(|gs|, i requires 0 <= i < |gs| => gs[i].ToDict());
    assert forall i | 0 <= i < |gs| :: GapFromDict(r[i]) == Some(gs[i]) by {
      forall i | 0 <= i < |gs| ensures GapFromDict(r[i]) == Some(gs[i]) {
        GapRoundTrip(gs[i]);
      }
    }
    r
  }

  /** What `GapAnalyzer.to_dict` returns: the number of gaps, and the gaps
      grouped by severity and, separately, by type. */
  datatype GapsDict = GapsDict(totalGaps: nat, bySeverity: Dict<seq<Value>>, byType: Dict<seq<Value>>)

  function Grouped(gs: seq<Gap>): GapsDict {
    GapsDict(|gs|,
      [("high", GapDicts(FilterEq(gs, SeverityOf, High))),
       ("medium", GapDicts(FilterEq(gs, SeverityOf, Medium))),
       ("low", GapDicts(FilterEq(gs, SeverityOf, Low)))],
      [("threshold", GapDicts(FilterEq(gs, KindOf, ThresholdGap))),
       ("coverage", GapDicts(FilterEq(gs, KindOf, CoverageGap))),
       ("definition", GapDicts(FilterEq(gs, KindOf, DefinitionGap))),
       ("terminology", GapDicts(FilterEq(gs, KindOf, TerminologyGap)))])
  }

  /** Each grouping holds every gap exactly once: the severity groups and the
      type groups both add up to the total, and each group reads back as the
      gaps of the list with that severity (or type), in list order. */
  lemma GroupedPartitions(gs: seq<Gap>)
    ensures var d := Grouped(gs);
      && |d.bySeverity| == 3 && |d.byType| == 4
      && |d.bySeverity[0].1| + |d.bySeverity[1].1| + |d.bySeverity[2].1| == d.totalGaps
      && |d.byType[0].1| + |d.byType[1].1| + |d.byType[2].1| + |d.byType[3].1| == d.totalGaps
    ensures forall s: GapSeverity, g :: g in FilterEq(gs, SeverityOf, s) <==> g in gs && g.severity == s
    ensures forall k: GapType, g :: g in FilterEq(gs, KindOf, k) <==> g in gs && g.kind == k
  {
    assert forall i | 0 <= i < |gs| :: SeverityOf(gs[i]) == High || SeverityOf(gs[i]) == Medium || SeverityOf(gs[i]) == Low;
    assert forall i | 0 <= i < |gs| :: KindOf(gs[i]) == ThresholdGap || KindOf(gs[i]) == CoverageGap || KindOf(gs[i]) == DefinitionGap || KindOf(gs[i]) == TerminologyGap;
    FilterEqPartition3(gs, SeverityOf, High, Medium, Low);
    FilterEqPartition4(gs, KindOf, ThresholdGap, CoverageGap, DefinitionGap, TerminologyGap);
    forall s: GapSeverity {
      FilterEqMembers(gs, SeverityOf, s);
    }
    forall k: GapType {
      FilterEqMembers(gs, KindOf, k);
    }
  }

  /** The `analysis_metadata` block of the exported report. */
  datatype AnalysisMetadata = AnalysisMetadata(
    totalGaps: nat,
    highSeverityCount: nat,
    mediumSeverityCount: nat,
    lowSeverityCount: nat,
    labsAnalyzed: seq<string>)

  // ------------------------------------------------------ the analyzer

  /** The search loop of `find_coverage_gaps` for one lab, stopping at the
      first covering entry. */
  method HasDomain(rds: seq<RiskDomain>, domain: string) returns (has: bool)
    ensures has == CoversDomain(rds, domain)
  {
    has := false;
    var j := 0;
    while j < |rds|
      invariant 0 <= j <= |rds|
      invariant !has && forall k | 0 <= k < j :: !Covers(rds[k], domain)
    {
      if DomainKey(rds[j]) == Lower(domain) {
        if rds[j].coverage == Some("full") || rds[j].coverage == Some("partial") {
          has := true;
          break;
        }
      }
      j := j + 1;
    }
  }

  /** `any(g.gap_id.startswith(prefix) for g in KNOWN_GAPS)` */
  method AnyKnownIdStartsWith(prefix: string) returns (b: bool)
    ensures b == KnownIdStartsWith(prefix)
  {
    KnownGapsDistinct();
    b := false;
    for i := 0 to |KnownGaps|
      invariant b <==> exists k | 0 <= k < i :: StartsWith(KnownIds[k], prefix)
    {
      if StartsWith(KnownGaps[i].gapId, prefix) {
        b := true;
      }
    }
  }

  /** The loop of `analyze_all` that keeps the first gap of every id, with
      the `seen_ids` set. */
  method DedupById(all: seq<Gap>) returns (unique: seq<Gap>)
    ensures unique == DedupFrom(all, GapIdOf, {})
  {
    ghost var goal := DedupFrom(all, GapIdOf, {});
    var seenIds: set<string> := {};
    unique := [];
    for i := 0 to |all|
      invariant unique + DedupFrom(all[i..], GapIdOf, seenIds) == goal
    {
      DedupLoopStep(all, GapIdOf, i, seenIds, unique, goal);
      if all[i].gapId !in seenIds {
        seenIds := seenIds + {all[i].gapId};
        unique := unique + [all[i]];
      }
    }
    assert all[|all|..] == [];
  }

  /** The inner loop of `find_coverage_gaps`: splits the labs into those
      covering `domain` and those missing it. */
  method SplitLabs(xs: Extractions, domain: string) returns (covering: seq<string>, missing: seq<string>)
    ensures covering == CoveringLabs(xs, domain) && missing == MissingLabs(xs, domain)
  {
    covering := [];
    missing := [];
    for i := 0 to |xs|
      invariant covering + CoveringLabs(xs[i..], domain) == CoveringLabs(xs, domain)
      invariant missing + MissingLabs(xs[i..], domain) == MissingLabs(xs, domain)
    {
      SplitLabsStep(xs, domain, i);
      var has := HasDomain(xs[i].1.riskDomains, domain);
      if has {
        AppendAssoc(covering, [xs[i].0], CoveringLabs(xs[i + 1..], domain));
        covering := covering + [xs[i].0];
      } else {
        AppendAssoc(missing, [xs[i].0], MissingLabs(xs[i + 1..], domain));
        missing := missing + [xs[i].0];
      }
    }
    assert xs[|xs|..] == [];
  }

  /** One lab of the split: it goes to the covering or to the missing labs. */
  lemma SplitLabsStep(xs: Extractions, domain: string, i: int)
    requires 0 <= i < |xs|
    ensures CoversDomain(xs[i].1.riskDomains, domain) ==>
      CoveringLabs(xs[i..], domain) == [xs[i].0] + CoveringLabs(xs[i + 1..], domain) &&
      MissingLabs(xs[i..], domain) == MissingLabs(xs[i + 1..], domain)
    ensures !CoversDomain(xs[i].1.riskDomains, domain) ==>
      CoveringLabs(xs[i..], domain) == CoveringLabs(xs[i + 1..], domain) &&
      MissingLabs(xs[i..], domain) == [xs[i].0] + MissingLabs(xs[i + 1..], domain)
  {
    assert xs[i..][1..] == xs[i + 1..];
  }

  /** The body of the domain loop of `find_coverage_gaps`. */
  method CoverageGapOf(xs: Extractions, domain: string) returns (g: Option<Gap>)
    ensures g == CoverageGapFor(xs, domain)
  {
    var covering, missing := SplitLabs(xs, domain);
    g := None;
    if covering != [] && missing != [] && domain != "other" {
      var known := AnyKnownIdStartsWith("COV-" + DomainCode(domain));
      if !known {
        g := Some(DynamicGap(domain, missing));
      }
    }
  }

  /** The domain loop of `find_coverage_gaps`. */
  method CoverageGapsLoop(xs: Extractions, domains: seq<string>) returns (r: seq<Gap>)
    ensures r == CoverageGapsOver(xs, domains)
  {
    r := [];
    ghost var goal := CoverageGapsOver(xs, domains);
    for k := 0 to |domains|
      invariant r + CoverageGapsOver(xs, domains[k..]) == goal
    {
      var g := CoverageGapOf(xs, domains[k]);
      CoverageGapsOverStep(xs, domains, k, r, goal);
      if g.Some? {
        assert GapsOf(g) == [g.value];
        r := r + [g.value];
      } else {
        assert r + GapsOf(g) == r;
      }
    }
    assert domains[|domains|..] == [];
    assert r == goal;
  }

  class GapAnalyzer {
    const extractions: Extractions
    var gaps: seq<Gap>

    /** `extractions or {}`: no records is the empty dictionary. */
    constructor(xs: Option<Extractions>)
      ensures extractions == xs.GetOr([]) && gaps == []
    {
      extractions := xs.GetOr([]);
      gaps := [];
    }

    /** `analyze_all`: resets the gap list, collects the curated and
        synthesised gaps and keeps the first gap of every id. */
    method AnalyzeAll() returns (r: seq<Gap>)
      modifies this
      ensures gaps == Analysis(extractions) && r == gaps
    {
      gaps := [];
      AppendEmpty(KnownGaps);
      gaps := gaps + KnownGaps;
      if extractions != [] {
        var t := FindThresholdGaps();
        var c := FindCoverageGaps();
        var d := FindDefinitionGaps();
        AppendEmpty(c);
        gaps := gaps + (t + c + d);
      }
      gaps := DedupById(gaps);
      r := gaps;
    }

    /** `find_threshold_gaps`: its comparison has no outcome, so it never
        reports a gap. */
    method FindThresholdGaps() returns (r: seq<Gap>)
      ensures r == []
    {
      r := [];
    }

    /** `find_definition_gaps` */
    method FindDefinitionGaps() returns (r: seq<Gap>)
      ensures r == []
    {
      r := [];
    }

    /** `_get_all_domains` */
    method GetAllDomains() returns (ds: set<string>)
      ensures ds == DomainsOf(extractions)
    {
      ds := CollectDomains(extractions);
    }

    /** `find_coverage_gaps` */
    method FindCoverageGaps() returns (r: seq<Gap>)
      ensures r == CoverageGaps(extractions)
    {
      var allDomains := GetAllDomains();
      var domains := Sorted(allDomains);
      r := CoverageGapsLoop(extractions, domains);
    }

    /** `get_gaps_by_severity`: the gaps of that severity, in list order. */
    function GetGapsBySeverity(severity: GapSeverity): (r: seq<Gap>)
      reads this
      ensures forall g :: g in r <==> g in gaps && g.severity == severity
      ensures IsSubsequence(r, gaps)
    {
      FilterEqMembers(gaps, SeverityOf, severity);
      FilterEqSubsequence(gaps, SeverityOf, severity);
      FilterEq(gaps, SeverityOf, severity)
    }

    /** `get_gaps_by_type`: the gaps of that type, in list order. */
    function GetGapsByType(kind: GapType): (r: seq<Gap>)
      reads this
      ensures forall g :: g in r <==> g in gaps && g.kind == kind
      ensures IsSubsequence(r, gaps)
    {
      FilterEqMembers(gaps, KindOf, kind);
      FilterEqSubsequence(gaps, KindOf, kind);
      FilterEq(gaps, KindOf, kind)
    }

    /** `get_gaps_by_domain`: the gaps whose domain equals `domain` ignoring
        case, in list order; a gap without a domain is never returned. */
    function GetGapsByDomain(domain: string): (r: seq<Gap>)
      reads this
      ensures forall g :: g in r <==> g in gaps && g.domain.Some? && g.domain.value != "" && Lower(g.domain.value) == Lower(domain)
      ensures forall g | g in r :: g.domain.Some?
      ensures IsSubsequence(r, gaps)
    {
      FilterEqMembers(gaps, DomainKeyOf, Some(Lower(domain)));
      FilterEqSubsequence(gaps, DomainKeyOf, Some(Lower(domain)));
      FilterEq(gaps, DomainKeyOf, Some(Lower(domain)))
    }

    /** The counts of the exported report: the severity counts add up to the
        total, and the labs are those of the records or the four default labs. */
    function Metadata(): (m: AnalysisMetadata)
      reads this
      ensures m.highSeverityCount + m.mediumSeverityCount + m.lowSeverityCount == m.totalGaps == |gaps|
      ensures m.labsAnalyzed == LabsOrDefault(extractions)
    {
      assert forall i | 0 <= i < |gaps| :: SeverityOf(gaps[i]) == High || SeverityOf(gaps[i]) == Medium || SeverityOf(gaps[i]) == Low;
      FilterEqPartition3(gaps, SeverityOf, High, Medium, Low);
      AnalysisMetadata(|gaps|, |GetGapsBySeverity(High)|, |GetGapsBySeverity(Medium)|, |GetGapsBySeverity(Low)|,
        LabsOrDefault(extractions))
    }

    /** `to_dict`: runs the analysis only when there are no gaps yet, then
        groups the gaps by severity and by type. */
    method ToDict() returns (d: GapsDict)
      modifies this
      ensures old(gaps) != [] ==> gaps == old(gaps)
      ensures old(gaps) == [] ==> gaps == Analysis(extractions)
      ensures d == Grouped(gaps)
    {
      if gaps == [] {
        var _ := AnalyzeAll();
      }
      d := GapsDict(|gaps|,
        [("high", GapDicts(GetGapsBySeverity(High))),
         ("medium", GapDicts(GetGapsBySeverity(Medium))),
         ("low", GapDicts(GetGapsBySeverity(Low)))],
        [("threshold", GapDicts(GetGapsByType(ThresholdGap))),
         ("coverage", GapDicts(GetGapsByType(CoverageGap))),
         ("definition", GapDicts(GetGapsByType(DefinitionGap))),
         ("terminology", GapDicts(GetGapsByType(TerminologyGap)))]);
    }
  }
}
