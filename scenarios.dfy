/** The engine run on the prebuilt records of the four labs: the observed
    risk domains, the one coverage gap they add to the curated catalogue and
    the resulting gap counts. */
module Scenarios {
  import opened Optional
  import opened Strings
  import opened Seqs
  import opened Dicts
  import opened Records
  import opened Prebuilt
  import opened Gaps

  /** The prebuilt records name six risk domains between them: the ones of
      the Anthropic record and "deception" from the DeepMind record. */
  lemma PrebuiltDomainSet()
    ensures DomainsOf(PrebuiltExtractions) == PrebuiltDomains
  {
    var xs := PrebuiltExtractions;
    forall i | 0 <= i < |xs|
      ensures forall d :: d in DomainsIn(xs[i].1.riskDomains) <==> d in RecordDomainNames[i]
    {
      RecordDomains(i);
    }
    RecordDomainNamesUnion();
    forall d ensures d in PrebuiltDomains <==> exists i | 0 <= i < |RecordDomainNames| :: d in RecordDomainNames[i] {
      if d in PrebuiltDomains {
        var i := if d == "deception" then 2 else 0;
        assert d in RecordDomainNames[i];
      }
    }
    DomainsOfListed(xs, RecordDomainNames, PrebuiltDomains);
  }

  /** The three-letter codes of the domains the catalogue does not already
      name, and of the two it does. */
  lemma DomainCodes()
    ensures DomainCode("cbrn") == "CBR" && DomainCode("cyber") == "CYB" && DomainCode("autonomy") == "AUT"
    ensures DomainCode("ai_rd") == "AI_" && DomainCode("persuasion") == "PER" && DomainCode("deception") == "DEC"
  {
    assert Prefix("cbrn", 3) == "cbr" && Prefix("cyber", 3) == "cyb" && Prefix("autonomy", 3) == "aut";
    assert Prefix("ai_rd", 3) == "ai_" && Prefix("persuasion", 3) == "per" && Prefix("deception", 3) == "dec";
  }

  /** Every prebuilt record covers cbrn, cyber and autonomy (Meta's autonomy
      coverage being partial), so none of them gets a gap. */
  lemma CoveredEverywhere(d: string)
    requires d == "cbrn" || d == "cyber" || d == "autonomy"
    ensures CoverageGapFor(PrebuiltExtractions, d) == None
  {
    var xs := PrebuiltExtractions;
    assert Lower(d) == d;
    forall i | 0 <= i < |xs| ensures CoversDomain(xs[i].1.riskDomains, d) {
      var rds := xs[i].1.riskDomains;
      var j := if d == "cbrn" then 0 else if d == "cyber" then 1 else if i == 1 then 3 else 2;
      assert Covers(rds[j], d);
    }
    NoneMissing(xs, d);
  }

  /** Persuasion and deception already have curated coverage gaps
      (COV-PER-001, COV-DEC-001), so no gap is synthesised for them. */
  lemma CuratedDomainsSuppressed(d: string)
    requires d == "persuasion" || d == "deception"
    ensures CoverageGapFor(PrebuiltExtractions, d) == None
  {
    DomainCodes();
    var prefix := "COV-" + DomainCode(d);
    var n := if d == "persuasion" then 4 else 5;
    assert KnownIds[n][..|prefix|] == prefix;
    assert StartsWith(KnownIds[n], prefix);
  }

  /** Of the prebuilt records only the first, Anthropic's, covers ai_rd. */
  lemma AiRdCoveredBy(i: int)
    requires 0 <= i < |PrebuiltExtractions|
    ensures CoversDomain(PrebuiltExtractions[i].1.riskDomains, "ai_rd") <==> i == 0
  {
    assert Lower("ai_rd") == "ai_rd";
    if i == 0 {
      assert Covers(AnthropicRecord.riskDomains[3], "ai_rd");
    } else {
      RecordDomains(i);
      OnlyFirstNamesAiRd(i);
      NotCoveredUnlessNamed(PrebuiltExtractions[i].1.riskDomains, RecordDomainNames[i], "ai_rd");
    }
  }

  /** Only the first record names ai_rd. */
  lemma OnlyFirstNamesAiRd(i: int)
    requires 1 <= i < |RecordDomainNames|
    ensures "ai_rd" !in RecordDomainNames[i]
  {
  }

  /** A record does not cover a domain it does not name. */
  lemma NotCoveredUnlessNamed(rds: seq<RiskDomain>, names: seq<string>, d: string)
    requires forall e :: e in DomainsIn(rds) <==> e in names
    requires d != "" && Lower(d) == d && d !in names
    ensures !CoversDomain(rds, d)
  {
    if CoversDomain(rds, d) {
      CoveredIsNamed(rds, d);
    }
  }

  /** Only Anthropic covers ai_rd. */
  lemma AiRdLabs()
    ensures CoveringLabs(PrebuiltExtractions, "ai_rd") == ["anthropic"]
    ensures MissingLabs(PrebuiltExtractions, "ai_rd") == ["openai", "deepmind", "meta"]
  {
    var xs := PrebuiltExtractions;
    var d := "ai_rd";
    AiRdCoveredBy(0);
    AiRdCoveredBy(1);
    AiRdCoveredBy(2);
    AiRdCoveredBy(3);
    assert xs[1..][1..][1..][1..] == [];
    assert CoveringLabs(xs[3..], d) == [] && MissingLabs(xs[3..], d) == ["meta"];
    assert CoveringLabs(xs[2..], d) == [] && MissingLabs(xs[2..], d) == ["deepmind", "meta"];
    assert CoveringLabs(xs[1..], d) == [] && MissingLabs(xs[1..], d) == ["openai", "deepmind", "meta"];
  }

  /** No curated gap id starts with "COV-AI_". */
  lemma NoAiRdPrefix()
    ensures !KnownIdStartsWith("COV-AI_")
  {
    forall n | 0 <= n < |KnownIds| ensures !StartsWith(KnownIds[n], "COV-AI_") {
      assert KnownIds[n][..7] != "COV-AI_" by {
        assert KnownIds[n][0] != 'C' || KnownIds[n][4] != 'A';
      }
    }
  }

  /** Only Anthropic covers ai_rd and no curated id starts with "COV-AI_",
      so ai_rd gets a gap listing the other three labs. */
  lemma AiRdGap()
    ensures CoverageGapFor(PrebuiltExtractions, "ai_rd") == Some(DynamicGap("ai_rd", ["openai", "deepmind", "meta"]))
  {
    DomainCodes();
    AiRdLabs();
    NoAiRdPrefix();
  }

  /** The gap synthesised from the prebuilt records. */
  const AiRdCoverageGap := DynamicGap("ai_rd", ["openai", "deepmind", "meta"])

  /** Five of the curated gaps are of high severity. */
  lemma KnownHighGaps()
    ensures FilterEq(KnownGaps, SeverityOf, High) == [GapThrAut001, GapThrRnd001, GapThrCbr001, GapTerm001, GapDefPau001]
  {
    var a, b := KnownGaps[..5], KnownGaps[5..];
    assert KnownGaps == a + b;
    FilterEqAppend(a, b, SeverityOf, High);
    FilterEqFive(a, SeverityOf, High);
    FilterEqFive(b, SeverityOf, High);
  }

  /** Every prebuilt domain other than ai_rd yields no gap. */
  lemma OnlyAiRdGap(d: string)
    requires d in PrebuiltDomains && d != "ai_rd"
    ensures CoverageGapFor(PrebuiltExtractions, d).None?
  {
    if d == "persuasion" || d == "deception" {
      CuratedDomainsSuppressed(d);
    } else {
      CoveredEverywhere(d);
    }
  }

  /** The coverage gaps of the prebuilt records: only ai_rd yields one. */
  lemma PrebuiltCoverageGaps()
    ensures CoverageGaps(PrebuiltExtractions) == [AiRdCoverageGap]
  {
    PrebuiltDomainSet();
    forall e | e in DomainsOf(PrebuiltExtractions) && e != "ai_rd"
      ensures CoverageGapFor(PrebuiltExtractions, e).None?
    {
      OnlyAiRdGap(e);
    }
    AiRdGap();
    CoverageGapsSingle(PrebuiltExtractions, "ai_rd");
  }

  /** With the four prebuilt records `analyze_all` yields the ten curated
      gaps followed by the ai_rd coverage gap. */
  lemma PrebuiltAnalysis()
    ensures Analysis(PrebuiltExtractions) == KnownGaps + [AiRdCoverageGap]
  {
    PrebuiltCoverageGaps();
    AnalysisSplit(PrebuiltExtractions);
    DedupSingleton(AiRdCoverageGap, GapIdOf);
  }

  /** The report totals for the prebuilt records: eleven gaps, five of them
      of high severity. */
  lemma PrebuiltGapCounts()
    ensures |Analysis(PrebuiltExtractions)| == 11
    ensures |FilterEq(Analysis(PrebuiltExtractions), SeverityOf, High)| == 5
  {
    PrebuiltAnalysis();
    KnownGapsDistinct();
    KnownHighGaps();
    FilterEqAppend(KnownGaps, [AiRdCoverageGap], SeverityOf, High);
  }

  /** The report step: an analyzer over the prebuilt records finds eleven
      gaps, five of them of high severity. */
  method PrebuiltReport() returns (total: nat, high: nat)
    ensures total == 11 && high == 5
  {
    var analyzer := new GapAnalyzer(Some(PrebuiltExtractions));
    var all := analyzer.AnalyzeAll();
    var highGaps := analyzer.GetGapsBySeverity(High);
    assert highGaps == FilterEq(all, SeverityOf, High);
    ReportCounts(all, highGaps);
    total := |all|;
    high := |highGaps|;
  }

  lemma ReportCounts(all: seq<Gap>, highGaps: seq<Gap>)
    requires all == Analysis(PrebuiltExtractions) && highGaps == FilterEq(all, SeverityOf, High)
    ensures |all| == 11 && |highGaps| == 5
  {
    PrebuiltGapCounts();
  }
}
