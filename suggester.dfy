/** The harmonisation recommendations: seven fixed proposals for a common
    vocabulary across the labs' frameworks, each with a category, a priority,
    a confidence and the regulators and bodies it applies to, and the filters
    that select them by category, by priority and by audience. */
module Suggester {
  import opened Optional
  import opened Strings
  import opened Seqs
  import opened Records

  datatype Recommendation = Recommendation(
    id: string,
    topic: string,
    category: string,
    priority: string,
    confidence: string,
    applicableTo: seq<string>)

  function CategoryOf(r: Recommendation): string { r.category }
  function PriorityOf(r: Recommendation): string { r.priority }
  function IdOf(r: Recommendation): string { r.id }

  const Harm001 := Recommendation("HARM-001",
      "Unified Risk Level Framework",
      "terminology", "high", "high",
      ["EU AI Office", "UK AISI", "US AISI", "AI Labs", "ISO Standards Bodies"])

  const Harm002 := Recommendation("HARM-002",
      "Standardized Autonomy Capability Definition",
      "threshold", "high", "medium",
      ["EU AI Office", "UK AISI", "US AISI", "AI Labs", "Academic Researchers"])

  const Harm003 := Recommendation("HARM-003",
      "CBRN Uplift Measurement Standard",
      "threshold", "high", "medium",
      ["EU AI Office", "UK AISI", "US AISI", "AI Labs", "Biosecurity Experts"])

  const Harm004 := Recommendation("HARM-004",
      "Security Level Standardization",
      "safeguard", "medium", "high",
      ["EU AI Office", "UK AISI", "US AISI", "AI Labs"])

  const Harm005 := Recommendation("HARM-005",
      "Pause Commitment Protocol",
      "process", "high", "medium",
      ["EU AI Office", "UK AISI", "US AISI", "AI Labs", "Frontier Model Forum"])

  const Harm006 := Recommendation("HARM-006",
      "Evaluation Transparency Standard",
      "process", "medium", "high",
      ["EU AI Office", "UK AISI", "US AISI", "AI Labs", "Academic Researchers"])

  const Harm007 := Recommendation("HARM-007",
      "Terminology Glossary",
      "terminology", "medium", "high",
      ["EU AI Office", "UK AISI", "US AISI", "AI Labs", "Media", "General Public"])

  /** `RECOMMENDATIONS`, in the order the source lists them. */
  const Recommendations: seq<Recommendation> :=
    [Harm001, Harm002, Harm003, Harm004, Harm005, Harm006, Harm007]

  /** `audience.lower() in a.lower()` for some body `a` the recommendation
      applies to. */
  predicate ForAudience(r: Recommendation, audience: string) {
    exists i | 0 <= i < |r.applicableTo| :: Contains(Lower(r.applicableTo[i]), Lower(audience))
  }

  /** The ids of the catalogue, in order. */
  const RecommendationIds: seq<string> :=
    ["HARM-001", "HARM-002", "HARM-003", "HARM-004", "HARM-005", "HARM-006", "HARM-007"]

  /** The catalogue ids are distinct: they differ in their last digit. */
  lemma RecommendationIdsDistinct()
    ensures forall i, j | 0 <= i < j < |RecommendationIds| :: RecommendationIds[i] != RecommendationIds[j]
  {
    forall i, j | 0 <= i < j < |RecommendationIds| ensures RecommendationIds[i] != RecommendationIds[j] {
      assert RecommendationIds[i][7] != RecommendationIds[j][7];
    }
  }

  /** The catalogue lists seven recommendations with distinct ids,
      HARM-001 to HARM-007 in order. */
  lemma CatalogueIds()
    ensures MapSeq(Recommendations, IdOf) == RecommendationIds
    ensures DistinctKeys(Recommendations, IdOf)
  {
    var rs := Recommendations;
    assert rs[0] == Harm001 && rs[1] == Harm002 && rs[2] == Harm003 && rs[3] == Harm004;
    assert rs[4] == Harm005 && rs[5] == Harm006 && rs[6] == Harm007;
    var ids := MapSeq(rs, IdOf);
    assert ids[0] == IdOf(rs[0]) && ids[1] == IdOf(rs[1]) && ids[2] == IdOf(rs[2]) && ids[3] == IdOf(rs[3]);
    assert ids[4] == IdOf(rs[4]) && ids[5] == IdOf(rs[5]) && ids[6] == IdOf(rs[6]);
    assert ids == RecommendationIds;
    RecommendationIdsDistinct();
  }

  /** Each recommendation is of one of the four categories the export groups
      by, of high or medium priority, and applicable to the EU AI Office
      among others. */
  lemma CatalogueShape()
    ensures forall i | 0 <= i < |Recommendations| ::
      CategoryOf(Recommendations[i]) in {"terminology", "threshold", "safeguard", "process"}
    ensures forall i | 0 <= i < |Recommendations| ::
      PriorityOf(Recommendations[i]) == "high" || PriorityOf(Recommendations[i]) == "medium"
    ensures forall i | 0 <= i < |Recommendations| ::
      |Recommendations[i].applicableTo| > 0 && Recommendations[i].applicableTo[0] == "EU AI Office"
  {
  }

  /** `LanguageSuggester`: a copy of the catalogue next to the records it was
      given (`extractions or {}`), which no recommendation depends on. */
  class LanguageSuggester {
    const extractions: Extractions
    /** The instance's own copy of the catalogue. */
    const recommendations: seq<Recommendation> := Recommendations

    constructor(xs: Option<Extractions>)
      ensures extractions == xs.GetOr([])
    {
      extractions := xs.GetOr([]);
    }

    /** `get_recommendations`: the seven recommendations in catalogue order. */
    function GetRecommendations(): (r: seq<Recommendation>)
      ensures r == recommendations
      ensures MapSeq(r, IdOf) == RecommendationIds && DistinctKeys(r, IdOf)
    {
      CatalogueIds();
      recommendations
    }

    /** `get_recommendations_by_category`: exactly the recommendations of the
        category, in catalogue order. */
    function GetByCategory(category: string): (r: seq<Recommendation>)
      reads this
      ensures forall x {:trigger x in r} :: x in r <==> x in recommendations && x.category == category
      ensures IsSubsequence(r, recommendations)
    {
      FilterEqMembers(recommendations, CategoryOf, category);
      FilterEqSubsequence(recommendations, CategoryOf, category);
      FilterEq(recommendations, CategoryOf, category)
    }

    /** `get_recommendations_by_priority`: exactly the recommendations of the
        priority, in catalogue order. */
    function GetByPriority(priority: string): (r: seq<Recommendation>)
      reads this
      ensures forall x {:trigger x in r} :: x in r <==> x in recommendations && x.priority == priority
      ensures IsSubsequence(r, recommendations)
    {
      FilterEqMembers(recommendations, PriorityOf, priority);
      FilterEqSubsequence(recommendations, PriorityOf, priority);
      FilterEq(recommendations, PriorityOf, priority)
    }

    /** `get_recommendations_for_audience`: exactly the recommendations with a
        body whose name contains the audience, ignoring case, in catalogue
        order. */
    function GetForAudience(audience: string): (r: seq<Recommendation>)
      reads this
      ensures forall x {:trigger x in r} :: x in r <==> x in recommendations && ForAudience(x, audience)
      ensures IsSubsequence(r, recommendations)
    {
      FilterMembers(recommendations, x => ForAudience(x, audience));
      FilterSubsequence(recommendations, x => ForAudience(x, audience));
      Filter(recommendations, x => ForAudience(x, audience))
    }
  }

  /** The catalogue by category: HARM-001 and HARM-007 on terminology,
      HARM-002 and HARM-003 on thresholds, HARM-004 on safeguards, HARM-005
      and HARM-006 on process, each in catalogue order. */
  lemma CatalogueByCategory()
    ensures FilterEq(Recommendations, CategoryOf, "terminology") == [Harm001, Harm007]
    ensures FilterEq(Recommendations, CategoryOf, "threshold") == [Harm002, Harm003]
    ensures FilterEq(Recommendations, CategoryOf, "safeguard") == [Harm004]
    ensures FilterEq(Recommendations, CategoryOf, "process") == [Harm005, Harm006]
  {
    CatalogueOrder();
    FilterEqSeven(Recommendations, CategoryOf, "terminology");
    FilterEqSeven(Recommendations, CategoryOf, "threshold");
    FilterEqSeven(Recommendations, CategoryOf, "safeguard");
    FilterEqSeven(Recommendations, CategoryOf, "process");
  }

  /** The catalogue by priority: HARM-001, HARM-002, HARM-003 and HARM-005
      are high, HARM-004, HARM-006 and HARM-007 medium, none low. */
  lemma CatalogueByPriority()
    ensures FilterEq(Recommendations, PriorityOf, "high") == [Harm001, Harm002, Harm003, Harm005]
    ensures FilterEq(Recommendations, PriorityOf, "medium") == [Harm004, Harm006, Harm007]
    ensures FilterEq(Recommendations, PriorityOf, "low") == []
  {
    CatalogueOrder();
    FilterEqSeven(Recommendations, PriorityOf, "high");
    FilterEqSeven(Recommendations, PriorityOf, "medium");
    FilterEqSeven(Recommendations, PriorityOf, "low");
  }

  /** The recommendations by position. */
  lemma CatalogueOrder()
    ensures |Recommendations| == 7
    ensures Recommendations[0] == Harm001 && Recommendations[1] == Harm002 && Recommendations[2] == Harm003
    ensures Recommendations[3] == Harm004 && Recommendations[4] == Harm005 && Recommendations[5] == Harm006
    ensures Recommendations[6] == Harm007
    ensures Recommendations[2..] == [Harm003, Harm004, Harm005, Harm006, Harm007]
  {
  }

  /** Every recommendation is listed under exactly one of the four category
      headings of the export: two on terminology, two on thresholds, one on
      safeguards and two on process. */
  lemma CategoryPartition(s: LanguageSuggester)
    ensures |s.GetByCategory("terminology")| == 2 && |s.GetByCategory("threshold")| == 2
    ensures |s.GetByCategory("safeguard")| == 1 && |s.GetByCategory("process")| == 2
    ensures |s.GetByCategory("terminology")| + |s.GetByCategory("threshold")|
      + |s.GetByCategory("safeguard")| + |s.GetByCategory("process")| == |s.recommendations|
  {
    CatalogueByCategory();
  }

  /** The summary counts: four high, three medium and no low priority
      recommendation, which together are all of them. */
  lemma PriorityCounts(s: LanguageSuggester)
    ensures |s.GetByPriority("high")| == 4 && |s.GetByPriority("medium")| == 3
    ensures s.GetByPriority("low") == []
    ensures |s.GetByPriority("high")| + |s.GetByPriority("medium")| + |s.GetByPriority("low")| == |s.recommendations|
  {
    CatalogueByPriority();
  }

  /** The audience is compared lower-cased, so its case does not matter. */
  lemma AudienceIgnoresCase(s: LanguageSuggester, audience: string)
    ensures s.GetForAudience(Lower(audience)) == s.GetForAudience(audience)
  {
    LowerIdempotent(audience);
    FilterCongruent(s.recommendations, x => ForAudience(x, Lower(audience)), x => ForAudience(x, audience));
  }

  /** Every recommendation applies to the EU AI Office, and so does every
      recommendation when the audience is empty, the empty text being part of
      every name. */
  lemma EveryRecommendationForEurope(s: LanguageSuggester)
    ensures s.GetForAudience("EU AI Office") == s.recommendations
    ensures s.GetForAudience("") == s.recommendations
  {
    CatalogueShape();
    forall i | 0 <= i < |Recommendations|
      ensures ForAudience(Recommendations[i], "EU AI Office") && ForAudience(Recommendations[i], "")
    {
      var body := Lower(Recommendations[i].applicableTo[0]);
      assert StartsWith(body, body) && StartsWith(body, Lower(""));
    }
    FilterKeepsAll(Recommendations, x => ForAudience(x, "EU AI Office"));
    FilterKeepsAll(Recommendations, x => ForAudience(x, ""));
  }
}
