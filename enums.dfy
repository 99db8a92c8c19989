/** The string enumerations of the extraction schema. Each member stands for
    its lower-case string value; `Parse*` is the enum's constructor from a
    value, which fails (Python raises `ValueError`) on any other string. */
module Enums {
  import opened Optional

  datatype RiskDomainType =
    | Cbrn | Cyber | Autonomy | Persuasion | ModelAutonomy | AiRd
    | Deception | Biosecurity | Chemical | Radiological | Nuclear | OtherDomain
  {
    function Value(): string {
      match this
      case Cbrn => "cbrn"
      case Cyber => "cyber"
      case Autonomy => "autonomy"
      case Persuasion => "persuasion"
      case ModelAutonomy => "model_autonomy"
      case AiRd => "ai_rd"
      case Deception => "deception"
      case Biosecurity => "biosecurity"
      case Chemical => "chemical"
      case Radiological => "radiological"
      case Nuclear => "nuclear"
      case OtherDomain => "other"
    }
  }

  /** `RiskDomainType(s)` */
  function ParseRiskDomainType(s: string): (r: Option<RiskDomainType>)
    ensures r.Some? ==> r.value.Value() == s
    ensures forall t: RiskDomainType :: t.Value() == s ==> r == Some(t)
  {
    match s
    case "cbrn" => Some(Cbrn)
    case "cyber" => Some(Cyber)
    case "autonomy" => Some(Autonomy)
    case "persuasion" => Some(Persuasion)
    case "model_autonomy" => Some(ModelAutonomy)
    case "ai_rd" => Some(AiRd)
    case "deception" => Some(Deception)
    case "biosecurity" => Some(Biosecurity)
    case "chemical" => Some(Chemical)
    case "radiological" => Some(Radiological)
    case "nuclear" => Some(Nuclear)
    case "other" => Some(OtherDomain)
    case _ => None
  }

  datatype CoverageLevel = Full | Partial | NoCoverage {
    function Value(): string {
      match this
      case Full => "full"
      case Partial => "partial"
      case NoCoverage => "none"
    }
  }

  /** `CoverageLevel(s)` */
  function ParseCoverageLevel(s: string): (r: Option<CoverageLevel>)
    ensures r.Some? ==> r.value.Value() == s
    ensures forall t: CoverageLevel :: t.Value() == s ==> r == Some(t)
  {
    match s
    case "full" => Some(Full)
    case "partial" => Some(Partial)
    case "none" => Some(NoCoverage)
    case _ => None
  }

  datatype SafeguardType = Deployment | Security | Operational | Governance | Technical | Procedural {
    function Value(): string {
      match this
      case Deployment => "deployment"
      case Security => "security"
      case Operational => "operational"
      case Governance => "governance"
      case Technical => "technical"
      case Procedural => "procedural"
    }
  }

  /** `SafeguardType(s)` */
  function ParseSafeguardType(s: string): (r: Option<SafeguardType>)
    ensures r.Some? ==> r.value.Value() == s
    ensures forall t: SafeguardType :: t.Value() == s ==> r == Some(t)
  {
    match s
    case "deployment" => Some(Deployment)
    case "security" => Some(Security)
    case "operational" => Some(Operational)
    case "governance" => Some(Governance)
    case "technical" => Some(Technical)
    case "procedural" => Some(Procedural)
    case _ => None
  }

  datatype EvaluationType = Internal | External | RedTeam | Benchmark | Audit {
    function Value(): string {
      match this
      case Internal => "internal"
      case External => "external"
      case RedTeam => "red_team"
      case Benchmark => "benchmark"
      case Audit => "audit"
    }
  }

  /** `EvaluationType(s)` */
  function ParseEvaluationType(s: string): (r: Option<EvaluationType>)
    ensures r.Some? ==> r.value.Value() == s
    ensures forall t: EvaluationType :: t.Value() == s ==> r == Some(t)
  {
    match s
    case "internal" => Some(Internal)
    case "external" => Some(External)
    case "red_team" => Some(RedTeam)
    case "benchmark" => Some(Benchmark)
    case "audit" => Some(Audit)
    case _ => None
  }

  datatype CommitmentType = Pause | Disclosure | Cooperation | Assessment | OtherCommitment {
    function Value(): string {
      match this
      case Pause => "pause"
      case Disclosure => "disclosure"
      case Cooperation => "cooperation"
      case Assessment => "assessment"
      case OtherCommitment => "other"
    }
  }

  /** `CommitmentType(s)` */
  function ParseCommitmentType(s: string): (r: Option<CommitmentType>)
    ensures r.Some? ==> r.value.Value() == s
    ensures forall t: CommitmentType :: t.Value() == s ==> r == Some(t)
  {
    match s
    case "pause" => Some(Pause)
    case "disclosure" => Some(Disclosure)
    case "cooperation" => Some(Cooperation)
    case "assessment" => Some(Assessment)
    case "other" => Some(OtherCommitment)
    case _ => None
  }

  /** Distinct members have distinct values, so a member is determined by its
      value; every value is lower case without spaces or hyphens. */
  lemma RiskDomainValuesDistinct(a: RiskDomainType, b: RiskDomainType)
    ensures a.Value() == b.Value() ==> a == b
    ensures forall i | 0 <= i < |a.Value()| :: 'a' <= a.Value()[i] <= 'z' || a.Value()[i] == '_'
  {
    assert ParseRiskDomainType(a.Value()) == Some(a);
  }
}
