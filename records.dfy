/** The view of an extraction record that the comparison engine reads: the
    level names and ids of the capability thresholds, the domain and coverage
    of each risk domain, the type and name of each safeguard and the type of
    each commitment. A field is `None` when its key is absent from the record.
    A list that is absent is the empty list, which is what the engine's
    `extraction.get(key, [])` makes of it.  */
module Records {
  import opened Optional
  import opened Strings
  import opened Dicts

  datatype Threshold = Threshold(levelName: Option<string>, levelId: Option<string>)

  datatype RiskDomain = RiskDomain(domain: Option<string>, coverage: Option<string>)

  datatype Safeguard = Safeguard(kind: Option<string>, name: Option<string>)

  datatype Commitment = Commitment(kind: Option<string>)

  datatype Extraction = Extraction(
    thresholds: seq<Threshold>,
    riskDomains: seq<RiskDomain>,
    safeguards: seq<Safeguard>,
    commitments: seq<Commitment>)

  /** What `extractions.get(lab, {})` yields for a lab without a record. */
  const EmptyExtraction := Extraction([], [], [], [])

  type Extractions = Dict<Extraction>

  /** The four labs the tables fall back to when no records are supplied. */
  const DefaultLabs: seq<string> := ["anthropic", "openai", "deepmind", "meta"]

  /** The table columns: the labs of the records, or the four default labs
      when there are none. */
  function LabsOrDefault(xs: Extractions): (r: seq<string>)
    ensures xs == [] ==> r == DefaultLabs
    ensures xs != [] ==> |r| == |xs| && forall i | 0 <= i < |xs| :: r[i] == xs[i].0
  {
    if xs == [] then DefaultLabs else Keys(xs)
  }

  /** `extractions.get(lab, {})` */
  function ExtractionOf(xs: Extractions, lab: string): Extraction {
    Get(xs, lab).GetOr(EmptyExtraction)
  }

  /** `rd.get("domain")` is truthy. */
  predicate HasDomainName(rd: RiskDomain) {
    rd.domain.Some? && rd.domain.value != ""
  }

  /** `rd.get("domain", "").lower()` */
  function DomainKey(rd: RiskDomain): string {
    Lower(rd.domain.GetOr(""))
  }

  /** The lower-cased, non-empty domain names of one record's risk domains. */
  function DomainsIn(rds: seq<RiskDomain>): (r: set<string>)
    ensures forall d :: d in r <==> exists j | 0 <= j < |rds| :: HasDomainName(rds[j]) && DomainKey(rds[j]) == d
  {
    if rds == [] then {}
    else
      var rest := DomainsIn(rds[1..]);
      assert forall j | 0 <= j < |rds[1..]| :: rds[1..][j] == rds[j + 1];
      (if HasDomainName(rds[0]) then {DomainKey(rds[0])} else {}) + rest
  }

  /** `_get_all_domains`: the domain names across all records. */
  function DomainsOf(xs: Extractions): (r: set<string>)
    ensures forall d :: d in r <==> exists i | 0 <= i < |xs| :: d in DomainsIn(xs[i].1.riskDomains)
  {
    if xs == [] then {}
    else
      var rest := DomainsOf(xs[1..]);
      assert forall i | 0 <= i < |xs[1..]| :: xs[1..][i] == xs[i + 1];
      assert forall d :: (exists i | 0 <= i < |xs| :: d in DomainsIn(xs[i].1.riskDomains)) ==>
        d in DomainsIn(xs[0].1.riskDomains) || exists i | 0 <= i < |xs[1..]| :: d in DomainsIn(xs[1..][i].1.riskDomains) by {
        forall d | exists i | 0 <= i < |xs| :: d in DomainsIn(xs[i].1.riskDomains)
          ensures d in DomainsIn(xs[0].1.riskDomains) || exists i | 0 <= i < |xs[1..]| :: d in DomainsIn(xs[1..][i].1.riskDomains)
        {
          var i :| 0 <= i < |xs| && d in DomainsIn(xs[i].1.riskDomains);
          if i > 0 { assert xs[1..][i - 1] == xs[i]; }
        }
      }
      DomainsIn(xs[0].1.riskDomains) + rest
  }

  /** When each record names exactly the domains listed for it, the collected
      domains are those of all the lists. */
  lemma DomainsOfListed(xs: Extractions, names: seq<seq<string>>, all: set<string>)
    requires |xs| == |names|
    requires forall i | 0 <= i < |xs| :: forall d :: d in DomainsIn(xs[i].1.riskDomains) <==> d in names[i]
    requires forall d :: d in all <==> exists i | 0 <= i < |names| :: d in names[i]
    ensures DomainsOf(xs) == all
  {
  }

  /** Every collected domain name is already lower case. */
  lemma DomainsAreLower(xs: Extractions)
    ensures forall d | d in DomainsOf(xs) :: Lower(d) == d
  {
    forall d | d in DomainsOf(xs) ensures Lower(d) == d {
      var i :| 0 <= i < |xs| && d in DomainsIn(xs[i].1.riskDomains);
      var j :| 0 <= j < |xs[i].1.riskDomains| && HasDomainName(xs[i].1.riskDomains[j]) && DomainKey(xs[i].1.riskDomains[j]) == d;
      LowerIdempotent(xs[i].1.riskDomains[j].domain.value);
    }
  }

  /** The nested collection loop of `_get_all_domains` and of the domain
      coverage table. */
  method CollectDomains(xs: Extractions) returns (ds: set<string>)
    ensures ds == DomainsOf(xs)
  {
    ds := {};
    for i := 0 to |xs|
      invariant ds + DomainsOf(xs[i..]) == DomainsOf(xs)
    {
      DomainsOfStep(xs, i);
      ds := AddDomainsIn(ds, xs[i].1.riskDomains);
    }
    assert xs[|xs|..] == [];
  }

  /** The inner loop: one record's domain names added to those seen so far. */
  method AddDomainsIn(seen: set<string>, rds: seq<RiskDomain>) returns (ds: set<string>)
    ensures ds == seen + DomainsIn(rds)
  {
    ds := seen;
    for j := 0 to |rds|
      invariant ds + DomainsIn(rds[j..]) == seen + DomainsIn(rds)
    {
      DomainsInStep(rds, j);
      if HasDomainName(rds[j]) {
        ds := ds + {DomainKey(rds[j])};
      }
    }
    assert rds[|rds|..] == [];
  }

  lemma DomainsOfStep(xs: Extractions, i: int)
    requires 0 <= i < |xs|
    ensures DomainsOf(xs[i..]) == DomainsIn(xs[i].1.riskDomains) + DomainsOf(xs[i + 1..])
  {
    assert xs[i..][0] == xs[i] && xs[i..][1..] == xs[i + 1..];
  }

  lemma DomainsInStep(rds: seq<RiskDomain>, j: int)
    requires 0 <= j < |rds|
    ensures DomainsIn(rds[j..]) == (if HasDomainName(rds[j]) then {DomainKey(rds[j])} else {}) + DomainsIn(rds[j + 1..])
  {
    assert rds[j..][0] == rds[j] && rds[j..][1..] == rds[j + 1..];
  }
}
