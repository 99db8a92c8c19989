/** The prebuilt extraction records of the four labs, as the comparison
    engine reads them (threshold names and ids, risk domains with their
    coverage, safeguard types and names, commitment types), and the lookup of
    a record by lab name. */
module Prebuilt {
  import opened Optional
  import opened Strings
  import opened Dicts
  import opened Records

  const AnthropicRecord := Extraction(
    [Threshold(Some("ASL-1"), Some("asl_1")),
      Threshold(Some("ASL-2"), Some("asl_2")),
      Threshold(Some("ASL-3"), Some("asl_3")),
      Threshold(Some("ASL-4"), Some("asl_4"))],
    [RiskDomain(Some("cbrn"), Some("full")),
      RiskDomain(Some("cyber"), Some("full")),
      RiskDomain(Some("autonomy"), Some("full")),
      RiskDomain(Some("ai_rd"), Some("full")),
      RiskDomain(Some("persuasion"), Some("partial"))],
    [Safeguard(Some("security"), Some("Hardened Infrastructure")),
      Safeguard(Some("deployment"), Some("Deployment Restrictions")),
      Safeguard(Some("operational"), Some("Red Team Evaluations")),
      Safeguard(Some("governance"), Some("External Oversight"))],
    [Commitment(Some("pause")), Commitment(Some("assessment")), Commitment(Some("cooperation"))])

  const OpenAiRecord := Extraction(
    [Threshold(Some("Low"), Some("low")),
      Threshold(Some("Medium"), Some("medium")),
      Threshold(Some("High"), Some("high")),
      Threshold(Some("Critical"), Some("critical"))],
    [RiskDomain(Some("cbrn"), Some("full")),
      RiskDomain(Some("cyber"), Some("full")),
      RiskDomain(Some("persuasion"), Some("full")),
      RiskDomain(Some("autonomy"), Some("full"))],
    [Safeguard(Some("technical"), Some("Safety Mitigations")),
      Safeguard(Some("deployment"), Some("Deployment Restrictions")),
      Safeguard(Some("security"), Some("Model Security")),
      Safeguard(Some("governance"), Some("Board Oversight"))],
    [Commitment(Some("pause")), Commitment(Some("disclosure")), Commitment(Some("assessment"))])

  const DeepMindRecord := Extraction(
    [Threshold(Some("Below CCL"), Some("below_ccl")),
      Threshold(Some("Approaching CCL"), Some("approaching_ccl")),
      Threshold(Some("CCL-1"), Some("ccl_1")),
      Threshold(Some("CCL-2"), Some("ccl_2"))],
    [RiskDomain(Some("cbrn"), Some("full")),
      RiskDomain(Some("cyber"), Some("full")),
      RiskDomain(Some("autonomy"), Some("full")),
      RiskDomain(Some("deception"), Some("full"))],
    [Safeguard(Some("security"), Some("Security Levels")),
      Safeguard(Some("deployment"), Some("Deployment Controls")),
      Safeguard(Some("technical"), Some("Alignment Techniques")),
      Safeguard(Some("governance"), Some("Responsibility Council"))],
    [Commitment(Some("pause")), Commitment(Some("disclosure")), Commitment(Some("cooperation"))])

  const MetaRecord := Extraction(
    [Threshold(Some("Tier 1 - Low Risk"), Some("tier_1")),
      Threshold(Some("Tier 2 - Moderate Risk"), Some("tier_2")),
      Threshold(Some("Tier 3 - High Risk"), Some("tier_3")),
      Threshold(Some("Tier 4 - Critical Risk"), Some("tier_4"))],
    [RiskDomain(Some("cbrn"), Some("full")),
      RiskDomain(Some("cyber"), Some("full")),
      RiskDomain(Some("autonomy"), Some("partial"))],
    [Safeguard(Some("technical"), Some("Model Mitigations")),
      Safeguard(Some("deployment"), Some("Access Controls")),
      Safeguard(Some("security"), Some("Weight Security")),
      Safeguard(Some("governance"), Some("External Review"))],
    [Commitment(Some("pause")), Commitment(Some("disclosure")), Commitment(Some("cooperation"))])


  /** `PREBUILT_EXTRACTIONS`, in declared order. */
  const PrebuiltExtractions: Extractions := [
    ("anthropic", AnthropicRecord),
    ("openai", OpenAiRecord),
    ("deepmind", DeepMindRecord),
    ("meta", MetaRecord)]

  const PrebuiltLabs: set<string> := {"anthropic", "openai", "deepmind", "meta"}

  /** The fixture is a dictionary whose keys are the four labs, in the order
      of the default table columns. */
  lemma PrebuiltIsDict()
    ensures IsDict(PrebuiltExtractions) && KeySetOf(PrebuiltExtractions) == PrebuiltLabs
    ensures Keys(PrebuiltExtractions) == DefaultLabs
  {
    assert PrebuiltExtractions[0].0 == "anthropic" && PrebuiltExtractions[1].0 == "openai";
    assert PrebuiltExtractions[2].0 == "deepmind" && PrebuiltExtractions[3].0 == "meta";
  }

  /** `get_prebuilt_extraction`: the record of the lab named `labName`
      compared in lower case, or `None` for a lab without one. */
  function GetPrebuiltExtraction(labName: string): (r: Option<Extraction>)
    ensures r.Some? <==> Lower(labName) in PrebuiltLabs
    ensures r.Some? ==> exists i | 0 <= i < |PrebuiltExtractions| :: PrebuiltExtractions[i] == (Lower(labName), r.value)
  {
    PrebuiltIsDict();
    Get(PrebuiltExtractions, Lower(labName))
  }

  /** The lookup ignores case: a name and its lower-case form find the same
      record. */
  lemma PrebuiltIgnoresCase(labName: string)
    ensures GetPrebuiltExtraction(Lower(labName)) == GetPrebuiltExtraction(labName)
  {
    LowerIdempotent(labName);
  }

  /** Capitalised names find their record; an unknown lab finds nothing. */
  lemma PrebuiltLookups()
    ensures GetPrebuiltExtraction("Anthropic") == Some(AnthropicRecord)
    ensures GetPrebuiltExtraction("DeepMind") == Some(DeepMindRecord)
    ensures GetPrebuiltExtraction("xai") == None
  {
    assert Lower("Anthropic") == "anthropic";
    assert Lower("DeepMind") == "deepmind";
    assert Lower("xai") == "xai";
  }

  const PrebuiltDomains: set<string> := {"cbrn", "cyber", "autonomy", "ai_rd", "persuasion", "deception"}

  /** The risk domains named in a record, when every name is present and
      already lower case. */
  lemma DomainsInPlain(rds: seq<RiskDomain>, names: seq<string>)
    requires |names| == |rds|
    requires forall j | 0 <= j < |rds| :: rds[j].domain == Some(names[j]) && names[j] != "" && Lower(names[j]) == names[j]
    ensures forall d :: d in DomainsIn(rds) <==> d in names
  {
    forall d | d in names ensures d in DomainsIn(rds) {
      var j :| 0 <= j < |rds| && names[j] == d;
      assert HasDomainName(rds[j]) && DomainKey(rds[j]) == d;
    }
  }

  /** The domain names of each prebuilt record, in record order. */
  const RecordDomainNames: seq<seq<string>> := [
    ["cbrn", "cyber", "autonomy", "ai_rd", "persuasion"],
    ["cbrn", "cyber", "persuasion", "autonomy"],
    ["cbrn", "cyber", "autonomy", "deception"],
    ["cbrn", "cyber", "autonomy"]]

  /** The records' domain names together are the six prebuilt domains;
      all but "deception" are named by the first record. */
  lemma RecordDomainNamesUnion()
    ensures |RecordDomainNames| == 4
    ensures forall i, d | 0 <= i < 4 && d in RecordDomainNames[i] :: d in PrebuiltDomains
    ensures forall d | d in PrebuiltDomains :: d in RecordDomainNames[if d == "deception" then 2 else 0]
  {
  }

  /** The prebuilt domain names are non-empty and already lower case. */
  lemma PrebuiltDomainsPlain()
    ensures forall d | d in PrebuiltDomains :: d != "" && Lower(d) == d
  {
    assert Lower("cbrn") == "cbrn" && Lower("cyber") == "cyber" && Lower("autonomy") == "autonomy";
    assert Lower("ai_rd") == "ai_rd" && Lower("persuasion") == "persuasion" && Lower("deception") == "deception";
  }

  /** The domains each prebuilt record names. */
  lemma RecordDomains(i: int)
    requires 0 <= i < |PrebuiltExtractions|
    ensures forall d :: d in DomainsIn(PrebuiltExtractions[i].1.riskDomains) <==> d in RecordDomainNames[i]
  {
    if i == 0 {
      RecordDomainsOf(AnthropicRecord, 0);
    } else if i == 1 {
      RecordDomainsOf(OpenAiRecord, 1);
    } else if i == 2 {
      RecordDomainsOf(DeepMindRecord, 2);
    } else {
      RecordDomainsOf(MetaRecord, 3);
    }
  }

  /** The domains of one prebuilt record. */
  lemma RecordDomainsOf(x: Extraction, i: int)
    requires 0 <= i < |PrebuiltExtractions| && PrebuiltExtractions[i].1 == x
    ensures forall d :: d in DomainsIn(x.riskDomains) <==> d in RecordDomainNames[i]
  {
    RecordDomainNamesUnion();
    PrebuiltDomainsPlain();
    DomainsInPlain(x.riskDomains, RecordDomainNames[i]);
  }
}
