/** The matrix builder: the tables that compare the labs side by side. Each
    table is a list of rows and each row a dictionary from column name to
    cell text; the lab columns are headed by the title-cased lab name, and a
    later lab whose title equals an earlier column overwrites that cell, as an
    assignment into a Python dictionary does. */
module Matrix {
  import opened Optional
  import opened Strings
  import opened Seqs
  import opened Dicts
  import opened Records
  import opened Terminology

  type Row = map<string, string>

  type Table = seq<Row>

  /** The lab column of every lab. */
  function LabTitles(labs: seq<string>): set<string> {
    set j | 0 <= j < |labs| :: Title(labs[j])
  }

  /** No lab heads the column `h`. */
  predicate NoLabTitled(labs: seq<string>, h: string) {
    forall j | 0 <= j < |labs| :: Title(labs[j]) != h
  }

  /** No lab after position `j` heads the same column as `labs[j]`. */
  predicate LastWithTitle(labs: seq<string>, j: int)
    requires 0 <= j < |labs|
  {
    forall k | j < k < |labs| :: Title(labs[k]) != Title(labs[j])
  }

  /** The lab entries of a row: one per lab, under the lab's title. */
  predicate KeyedByTitle(entries: seq<(string, string)>, labs: seq<string>) {
    |entries| == |labs| && forall j | 0 <= j < |labs| :: entries[j].0 == Title(labs[j])
  }

  /** A header no lab title overwrites keeps its cell. */
  lemma HeaderKept(first: Row, entries: seq<(string, string)>, labs: seq<string>, h: string)
    requires KeyedByTitle(entries, labs) && NoLabTitled(labs, h) && h in first
    ensures h in Assign(first, entries) && Assign(first, entries)[h] == first[h]
  {
    AssignUntouched(first, entries, h);
  }

  /** The last lab with a title decides the cell under it. */
  lemma CellOfLab(first: Row, entries: seq<(string, string)>, labs: seq<string>, j: int)
    requires KeyedByTitle(entries, labs) && 0 <= j < |labs| && LastWithTitle(labs, j)
    ensures Title(labs[j]) in Assign(first, entries) && Assign(first, entries)[Title(labs[j])] == entries[j].1
  {
    AssignLastWins(first, entries, j);
  }

  /** The lab entries of a row whose cell for each lab is `cell(lab)`. */
  function LabEntries(labs: seq<string>, cell: string -> string): seq<(string, string)> {
    seq(|labs|, j requires 0 <= j < |labs| => (Title(labs[j]), cell(labs[j])))
  }

  lemma LabEntriesSnoc(labs: seq<string>, cell: string -> string, j: int)
    requires 0 <= j < |labs|
    ensures LabEntries(labs[..j + 1], cell) == LabEntries(labs[..j], cell) + [(Title(labs[j]), cell(labs[j]))]
  {
  }

  /** Over entries made by `cell`, a header no lab title overwrites keeps its
      cell, and the last lab with a title decides the cell under it. */
  lemma LabEntriesHeader(first: Row, labs: seq<string>, cell: string -> string, h: string)
    requires NoLabTitled(labs, h) && h in first
    ensures h in Assign(first, LabEntries(labs, cell)) && Assign(first, LabEntries(labs, cell))[h] == first[h]
  {
    HeaderKept(first, LabEntries(labs, cell), labs, h);
  }

  lemma LabEntriesCell(first: Row, labs: seq<string>, cell: string -> string, j: int)
    requires 0 <= j < |labs| && LastWithTitle(labs, j)
    ensures Title(labs[j]) in Assign(first, LabEntries(labs, cell))
    ensures Assign(first, LabEntries(labs, cell))[Title(labs[j])] == cell(labs[j])
  {
    CellOfLab(first, LabEntries(labs, cell), labs, j);
  }

  // ------------------------------------------------------ level comparison

  /** The marker appended to a lab's level name for each confidence. */
  function ConfidenceSymbol(c: Confidence): (r: string)
    ensures |r| == 2 && r[0] == ' '
  {
    match c
    case Exact => " ✓"
    case Approximate => " ~"
    case Uncertain => " ?"
  }

  /** A cell of the level comparison: the lab's level name with its
      confidence marker, or "-" when the lab has no level there. */
  function ComparisonCell(m: Option<LevelMapping>): (r: string)
    ensures r == "-" <==> m.None?
    ensures m.Some? ==> (|r| == |m.value.levelName| + 2 && r[..|m.value.levelName|] == m.value.levelName &&
      r[|m.value.levelName|..] == ConfidenceSymbol(m.value.confidence))
  {
    match m
    case None => "-"
    case Some(mapping) => mapping.levelName + ConfidenceSymbol(mapping.confidence)
  }

  /** The description column: the canonical description shortened. */
  function DescriptionCell(u: UnifiedLevel): string {
    Shortened(u.Description())
  }

  /** `s[:60] + "..."` */
  function Shortened(s: string): string {
    Prefix(s, 60) + "..."
  }

  /** A shortened text is its first 60 characters (all of it when shorter),
      then "...". */
  lemma ShortenedShape(s: string)
    ensures var n := if |s| < 60 then |s| else 60;
      |Shortened(s)| == n + 3 && Shortened(s)[..n] == s[..n] && Shortened(s)[n..] == "..."
  {
  }

  /** The two header cells of a comparison row. */
  function HeaderCells(name: string, description: string): Row {
    map["Unified Level" := name, "Description" := description]
  }

  lemma HeaderCellsLookup(name: string, description: string)
    ensures HeaderCells(name, description).Keys == {"Unified Level", "Description"}
    ensures HeaderCells(name, description)["Unified Level"] == name
    ensures HeaderCells(name, description)["Description"] == description
  {
  }

  function ComparisonHeader(u: UnifiedLevel): Row {
    HeaderCells(Title(u.Name()), DescriptionCell(u))
  }

  /** The cell of one lab at one unified level. */
  function LevelCell(tm: TerminologyMap, lab: string, u: UnifiedLevel): string {
    ComparisonCell(tm.GetLabLevel(lab, u))
  }

  /** A lab's cell is "-" exactly when none of its mappings is at the level,
      and otherwise names the level of its first mapping there. */
  lemma LevelCellMeaning(tm: TerminologyMap, lab: string, u: UnifiedLevel)
    ensures LevelCell(tm, lab, u) == "-" <==> forall m | m in tm.LabMappings(lab) :: m.unified != u
    ensures LevelCell(tm, lab, u) != "-" ==> exists i | 0 <= i < |tm.LabMappings(lab)| ::
      && tm.LabMappings(lab)[i].unified == u
      && (forall k | 0 <= k < i :: tm.LabMappings(lab)[k].unified != u)
      && LevelCell(tm, lab, u) == tm.LabMappings(lab)[i].levelName + ConfidenceSymbol(tm.LabMappings(lab)[i].confidence)
  {
  }

  /** The cell of each lab at level `u`, as one function of the lab. */
  function LevelCells(tm: TerminologyMap, u: UnifiedLevel): string -> string {
    lab => LevelCell(tm, lab, u)
  }

  function ComparisonEntries(tm: TerminologyMap, labs: seq<string>, u: UnifiedLevel): seq<(string, string)> {
    LabEntries(labs, LevelCells(tm, u))
  }

  function ComparisonRow(tm: TerminologyMap, labs: seq<string>, u: UnifiedLevel): Row {
    Assign(ComparisonHeader(u), ComparisonEntries(tm, labs, u))
  }

  /** `build_comparison_matrix`: one row per unified level, in rank order. */
  function ComparisonMatrix(tm: TerminologyMap, labs: seq<string>): Table {
    seq(5, i requires 0 <= i < 5 => ComparisonRow(tm, labs, AllLevels[i]))
  }

  // ------------------------------------------------------ domain coverage

  /** The domains that always get a row. */
  const StandardDomains: set<string> := {"cbrn", "cyber", "autonomy", "persuasion", "ai_rd", "deception"}

  /** The row order of the coverage table: every observed domain and every
      standard domain, sorted. */
  ghost function CoverageDomains(xs: Extractions): seq<string> {
    SortedOf(DomainsOf(xs) + StandardDomains)
  }

  /** The label of a domain row: upper case, with "_" read as a space. */
  function DomainLabel(d: string): (r: string)
    ensures |r| == |d|
    ensures forall i | 0 <= i < |r| :: !IsLowerChar(r[i]) && r[i] != '_'
  {
    ReplaceChar(Upper(d), '_', ' ')
  }

  /** `i` is the position of the first of the risk domains with the domain `d`. */
  predicate FirstWithDomain(rds: seq<RiskDomain>, d: string, i: int) {
    0 <= i < |rds| && DomainKey(rds[i]) == d && forall j | 0 <= j < i :: DomainKey(rds[j]) != d
  }

  /** The coverage a lab's record states for a domain: that of the first of
      its risk domains with the domain (compared lower-cased), "partial" when
      that entry states none, and "?" when no entry has the domain. */
  function CoverageOf(rds: seq<RiskDomain>, d: string): (r: string)
    ensures (forall i | 0 <= i < |rds| :: DomainKey(rds[i]) != d) ==> r == "?"
    ensures forall i | FirstWithDomain(rds, d, i) :: r == rds[i].coverage.GetOr("partial")
  {
    if rds == [] then "?"
    else if DomainKey(rds[0]) == d then rds[0].coverage.GetOr("partial")
    else
      var r := CoverageOf(rds[1..], d);
      assert forall i | FirstWithDomain(rds, d, i) :: FirstWithDomain(rds[1..], d, i - 1) by {
        forall i | FirstWithDomain(rds, d, i) ensures FirstWithDomain(rds[1..], d, i - 1) {
          forall j | 0 <= j < i - 1 ensures DomainKey(rds[1..][j]) != d {
            assert rds[1..][j] == rds[j + 1];
          }
        }
      }
      assert forall i | 1 <= i < |rds| :: rds[i] == rds[1..][i - 1];
      r
  }

  /** The symbol of a coverage value; anything unrecognised is "?". */
  function CoverageSymbol(coverage: string): string {
    match coverage
    case "full" => "●"
    case "partial" => "◐"
    case "none" => "○"
    case _ => "?"
  }

  function CoverageEntries(xs: Extractions, labs: seq<string>, d: string): seq<(string, string)> {
    seq(|labs|, j requires 0 <= j < |labs| => CoverageEntry(xs, labs[j], d))
  }

  /** The cell of one lab in the row of domain `d`. */
  function CoverageEntry(xs: Extractions, lab: string, d: string): (string, string) {
    (Title(lab), CoverageSymbol(CoverageOf(ExtractionOf(xs, lab).riskDomains, d)))
  }

  lemma CoverageEntriesSnoc(xs: Extractions, labs: seq<string>, d: string, j: int)
    requires 0 <= j < |labs|
    ensures CoverageEntries(xs, labs[..j + 1], d) == CoverageEntries(xs, labs[..j], d) + [CoverageEntry(xs, labs[j], d)]
  {
    var a := CoverageEntries(xs, labs[..j + 1], d);
    var b := CoverageEntries(xs, labs[..j], d) + [CoverageEntry(xs, labs[j], d)];
    forall i | 0 <= i < |a| ensures a[i] == b[i] {
      if i < j { assert labs[..j + 1][i] == labs[..j][i]; }
    }
  }

  lemma CoverageEntriesKeyed(xs: Extractions, labs: seq<string>, d: string)
    ensures KeyedByTitle(CoverageEntries(xs, labs, d), labs)
  {
  }

  function CoverageRow(xs: Extractions, labs: seq<string>, d: string): Row {
    Assign(map["Domain" := DomainLabel(d)], CoverageEntries(xs, labs, d))
  }

  /** `build_domain_coverage_matrix` */
  ghost function CoverageMatrix(xs: Extractions): Table {
    var labs := LabsOrDefault(xs);
    var ds := CoverageDomains(xs);
    seq(|ds|, i requires 0 <= i < |ds| => CoverageRow(xs, labs, ds[i]))
  }

  // ------------------------------------------------------ safeguards

  const SafeguardTypes: seq<string> := ["security", "deployment", "operational", "governance", "technical"]

  /** `s.get("type", "").lower()` */
  function SafeguardKey(s: Safeguard): string {
    Lower(s.kind.GetOr(""))
  }

  /** The "(+k)" note that counts the further safeguards of a type. */
  function MoreNote(k: nat): string {
    "... (+" + NatToString(k) + ")"
  }

  /** A cell of the safeguard table: "-" when the lab has no safeguard of the
      type, otherwise the first 20 characters of the first one's name, with a
      note of how many more there are. */
  function SafeguardCell(sgs: seq<Safeguard>, t: string): string {
    var matches := SafeguardsOfType(sgs, t);
    if matches == [] then "-"
    else
      var first := Prefix(matches[0].name.GetOr(""), 20);
      if |matches| > 1 then first + MoreNote(|matches| - 1) else first
  }

  function SafeguardEntries(xs: Extractions, labs: seq<string>, t: string): seq<(string, string)> {
    seq(|labs|, j requires 0 <= j < |labs| => (Title(labs[j]), SafeguardCell(ExtractionOf(xs, labs[j]).safeguards, t)))
  }

  lemma SafeguardEntriesSnoc(xs: Extractions, labs: seq<string>, t: string, j: int)
    requires 0 <= j < |labs|
    ensures SafeguardEntries(xs, labs[..j + 1], t) == SafeguardEntries(xs, labs[..j], t) +
      [(Title(labs[j]), SafeguardCell(ExtractionOf(xs, labs[j]).safeguards, t))]
  {
  }

  lemma SafeguardEntriesKeyed(xs: Extractions, labs: seq<string>, t: string)
    ensures KeyedByTitle(SafeguardEntries(xs, labs, t), labs)
  {
  }

  function SafeguardRow(xs: Extractions, labs: seq<string>, t: string): Row {
    Assign(map["Safeguard Type" := Title(t)], SafeguardEntries(xs, labs, t))
  }

  /** `build_safeguard_matrix`: one row per safeguard type. */
  function SafeguardMatrix(xs: Extractions): Table {
    var labs := LabsOrDefault(xs);
    seq(5, i requires 0 <= i < 5 => SafeguardRow(xs, labs, SafeguardTypes[i]))
  }

  // ------------------------------------------------------ commitments

  const CommitmentTypes: seq<string> := ["pause", "disclosure", "cooperation", "assessment"]

  /** `c.get("type", "").lower()` */
  function CommitmentKey(c: Commitment): string {
    Lower(c.kind.GetOr(""))
  }

  /** A cell of the commitment table: a check mark exactly when the lab has a
      commitment of the type. */
  function CommitmentCell(cs: seq<Commitment>, t: string): (r: string)
    ensures r == "✓" <==> exists i | 0 <= i < |cs| :: CommitmentKey(cs[i]) == t
    ensures r == "-" <==> forall i | 0 <= i < |cs| :: CommitmentKey(cs[i]) != t
  {
    FilterEqFirst(cs, CommitmentKey, t);
    if FilterEq(cs, CommitmentKey, t) != [] then "✓" else "-"
  }

  function CommitmentEntries(xs: Extractions, labs: seq<string>, t: string): seq<(string, string)> {
    seq(|labs|, j requires 0 <= j < |labs| => (Title(labs[j]), CommitmentCell(ExtractionOf(xs, labs[j]).commitments, t)))
  }

  lemma CommitmentEntriesSnoc(xs: Extractions, labs: seq<string>, t: string, j: int)
    requires 0 <= j < |labs|
    ensures CommitmentEntries(xs, labs[..j + 1], t) == CommitmentEntries(xs, labs[..j], t) +
      [(Title(labs[j]), CommitmentCell(ExtractionOf(xs, labs[j]).commitments, t))]
  {
  }

  lemma CommitmentEntriesKeyed(xs: Extractions, labs: seq<string>, t: string)
    ensures KeyedByTitle(CommitmentEntries(xs, labs, t), labs)
  {
  }

  function CommitmentRow(xs: Extractions, labs: seq<string>, t: string): Row {
    Assign(map["Commitment Type" := Title(t)], CommitmentEntries(xs, labs, t))
  }

  /** `build_commitment_matrix`: one row per commitment type. */
  function CommitmentMatrix(xs: Extractions): Table {
    var labs := LabsOrDefault(xs);
    seq(4, i requires 0 <= i < 4 => CommitmentRow(xs, labs, CommitmentTypes[i]))
  }

  // ------------------------------------------------------ summary

  datatype DomainCounts = DomainCounts(full: nat, partial: nat, total: nat)

  datatype SummaryStats = SummaryStats(
    labsAnalyzed: nat,
    domainCoverage: Dict<DomainCounts>,
    levelCounts: Dict<int>,
    unifiedLevels: nat)

  /** `rd.get("coverage")` */
  function CoverageKey(rd: RiskDomain): Option<string> {
    rd.coverage
  }

  /** The full and partial coverage counts of one record. */
  function CountsFor(e: Extraction): (c: DomainCounts)
    ensures c.total == c.full + c.partial <= |e.riskDomains|
    ensures c.full == |FilterEq(e.riskDomains, CoverageKey, Some("full"))|
    ensures c.partial == |FilterEq(e.riskDomains, CoverageKey, Some("partial"))|
  {
    var full := |FilterEq(e.riskDomains, CoverageKey, Some("full"))|;
    var partial := |FilterEq(e.riskDomains, CoverageKey, Some("partial"))|;
    FilterEqDisjoint(e.riskDomains, CoverageKey, Some("full"), Some("partial"));
    DomainCounts(full, partial, full + partial)
  }

  /** `domain_counts[lab] = ...` for each lab in turn. */
  function DomainCountsOver(xs: Extractions, labs: seq<string>): Dict<DomainCounts> {
    PutEach(labs, LabCounts(xs))
  }

  /** The domain counts of each lab, as one function of the lab. */
  function LabCounts(xs: Extractions): string -> DomainCounts {
    lab => CountsFor(ExtractionOf(xs, lab))
  }

  /** The number of levels of each lab, as one function of the lab. */
  function LabLevels(xs: Extractions): string -> int {
    lab => |ExtractionOf(xs, lab).thresholds|
  }

  /** `level_counts[lab] = ...` for each lab in turn. */
  function LevelCountsOver(xs: Extractions, labs: seq<string>): Dict<int> {
    PutEach(labs, LabLevels(xs))
  }

  /** `get_summary_stats` */
  function SummaryOf(xs: Extractions): SummaryStats {
    var labs := LabsOrDefault(xs);
    SummaryStats(|labs|, DomainCountsOver(xs, labs), LevelCountsOver(xs, labs), |AllLevels|)
  }

  // ------------------------------------------------------ properties

  /** The columns of a row: its own headers and one column per lab title. */
  lemma RowColumns(first: Row, labs: seq<string>, entries: seq<(string, string)>)
    requires KeyedByTitle(entries, labs)
    ensures Assign(first, entries).Keys == first.Keys + LabTitles(labs)
  {
    AssignKeys(first, entries);
  }

  /** The comparison table has five rows, in rank order, and every row has
      the columns "Unified Level", "Description" and one per lab. */
  lemma ComparisonShape(tm: TerminologyMap, labs: seq<string>)
    ensures |ComparisonMatrix(tm, labs)| == 5
    ensures forall i | 0 <= i < 5 ::
      ComparisonMatrix(tm, labs)[i].Keys == {"Unified Level", "Description"} + LabTitles(labs)
  {
    forall i | 0 <= i < 5 ensures ComparisonMatrix(tm, labs)[i].Keys == {"Unified Level", "Description"} + LabTitles(labs) {
      assert KeyedByTitle(ComparisonEntries(tm, labs, AllLevels[i]), labs);
      HeaderCellsLookup(Title(AllLevels[i].Name()), DescriptionCell(AllLevels[i]));
      RowColumns(ComparisonHeader(AllLevels[i]), labs, ComparisonEntries(tm, labs, AllLevels[i]));
    }
  }

  /** The header cells of the comparison row of level `u`, unless a lab's
      title overwrites them. */
  lemma {:induction false} ComparisonHeaders(tm: TerminologyMap, labs: seq<string>, u: UnifiedLevel)
    requires NoLabTitled(labs, "Unified Level") && NoLabTitled(labs, "Description")
    ensures "Unified Level" in ComparisonRow(tm, labs, u) && "Description" in ComparisonRow(tm, labs, u)
    ensures ComparisonRow(tm, labs, u)["Unified Level"] == Title(u.Name())
    ensures ComparisonRow(tm, labs, u)["Description"] == DescriptionCell(u)
  {
    ComparisonRowParts(tm, labs, u);
    ComparisonHeaderParts(u);
    RowHeaders(Title(u.Name()), DescriptionCell(u), labs, LevelCells(tm, u));
  }

  lemma ComparisonRowParts(tm: TerminologyMap, labs: seq<string>, u: UnifiedLevel)
    ensures ComparisonRow(tm, labs, u) == Assign(ComparisonHeader(u), LabEntries(labs, LevelCells(tm, u)))
  {
  }

  lemma ComparisonHeaderParts(u: UnifiedLevel)
    ensures ComparisonHeader(u) == HeaderCells(Title(u.Name()), DescriptionCell(u))
  {
  }

  /** The header cells of a row survive the lab columns when no lab's title
      is a header. */
  lemma {:induction false} RowHeaders(name: string, description: string, labs: seq<string>, cells: string -> string)
    requires NoLabTitled(labs, "Unified Level") && NoLabTitled(labs, "Description")
    ensures var row := Assign(HeaderCells(name, description), LabEntries(labs, cells));
      && "Unified Level" in row && "Description" in row
      && row["Unified Level"] == name && row["Description"] == description
  {
    HeaderCellsLookup(name, description);
    LabEntriesHeader(HeaderCells(name, description), labs, cells, "Unified Level");
    LabEntriesHeader(HeaderCells(name, description), labs, cells, "Description");
  }

  /** The cell of a lab in the comparison row of level `u` shows the lab's
      first level at `u`, and is "-" exactly when the lab has none there. */
  lemma {:induction false} ComparisonCellAt(tm: TerminologyMap, labs: seq<string>, u: UnifiedLevel, j: int)
    requires 0 <= j < |labs| && LastWithTitle(labs, j)
    ensures Title(labs[j]) in ComparisonRow(tm, labs, u)
    ensures ComparisonRow(tm, labs, u)[Title(labs[j])] == LevelCell(tm, labs[j], u)
  {
    ComparisonRowParts(tm, labs, u);
    LabEntriesCell(ComparisonHeader(u), labs, LevelCells(tm, u), j);
  }

  /** The labs of a terminology mapper: the four curated labs first, and no
      two labs under the same column title. */
  lemma MapperColumns(xs: Extractions)
    ensures |Keys(TermMapOf(xs))| >= 4 && Keys(TermMapOf(xs))[..4] == DefaultLabs
    ensures forall j | 0 <= j < |Keys(TermMapOf(xs))| :: LastWithTitle(Keys(TermMapOf(xs)), j)
  {
    var tm := TermMapOf(xs);
    var labs := Keys(tm);
    CuratedKeys();
    TermMapIsDict(xs);
    assert forall j | 0 <= j < 4 :: labs[j] == Keys(LevelMappings)[j];
    MapperLabsLower(xs);
    forall j, k | 0 <= j < k < |labs| ensures Title(labs[k]) != Title(labs[j]) {
      LowerOfTitle(labs[j]);
      LowerOfTitle(labs[k]);
      assert labs[j] != labs[k];
    }
  }

  lemma DefaultLabsLower()
    ensures forall j | 0 <= j < 4 :: Lower(DefaultLabs[j]) == DefaultLabs[j]
  {
    assert Lower("anthropic") == "anthropic";
    assert Lower("openai") == "openai";
    assert Lower("deepmind") == "deepmind";
    assert Lower("meta") == "meta";
  }

  /** Every lab of a terminology map is stored lower-cased. */
  lemma MapperLabsLower(xs: Extractions)
    ensures forall j | 0 <= j < |TermMapOf(xs)| :: Lower(TermMapOf(xs)[j].0) == TermMapOf(xs)[j].0
  {
    var tm := TermMapOf(xs);
    var kept := DedupFrom(xs, LabKey, CuratedLabs);
    var inferred := InferredEntries(kept);
    CuratedKeys();
    DefaultLabsLower();
    assert tm == LevelMappings + inferred;
    forall j | 0 <= j < |tm| ensures Lower(tm[j].0) == tm[j].0 {
      if j < 4 {
        assert tm[j].0 == Keys(LevelMappings)[j];
      } else {
        assert tm[j] == inferred[j - 4];
        LowerIdempotent(kept[j - 4].0);
      }
    }
  }

  /** In the comparison table built from the records, every lab cell shows
      the lab's first level at the row's unified level, or "-" when it has
      none there. */
  lemma ComparisonCells(xs: Extractions, i: int, j: int)
    requires 0 <= i < 5 && 0 <= j < |Keys(TermMapOf(xs))|
    ensures var labs := Keys(TermMapOf(xs));
      var tm := TerminologyMap(TermMapOf(xs));
      Title(labs[j]) in ComparisonMatrix(tm, labs)[i] &&
      ComparisonMatrix(tm, labs)[i][Title(labs[j])] == LevelCell(tm, labs[j], AllLevels[i])
  {
    MapperColumns(xs);
    ComparisonCellAt(TerminologyMap(TermMapOf(xs)), Keys(TermMapOf(xs)), AllLevels[i], j);
  }

  /** The rows of the coverage table: one per observed or standard domain,
      sorted, so at least the six standard ones. */
  lemma CoverageDomainRows(xs: Extractions)
    ensures |CoverageMatrix(xs)| == |CoverageDomains(xs)| >= 6
    ensures StrictlySorted(CoverageDomains(xs))
    ensures forall d :: d in CoverageDomains(xs) <==> d in DomainsOf(xs) || d in StandardDomains
  {
    var all := DomainsOf(xs) + StandardDomains;
    StandardDomainCount();
    SubsetCardinality(StandardDomains, all);
  }

  lemma StandardDomainCount()
    ensures |StandardDomains| == 6
  {
    var s := ["cbrn", "cyber", "autonomy", "persuasion", "ai_rd", "deception"];
    assert s[0][0] == 'c' && s[1][0] == 'c' && s[0][1] != s[1][1];
    assert s[2][0] == 'a' && s[4][0] == 'a' && s[2][1] != s[4][1];
    assert s[3][0] == 'p' && s[5][0] == 'd';
    assert {"cbrn"} + {"cyber"} + {"autonomy"} + {"persuasion"} + {"ai_rd"} + {"deception"} == StandardDomains;
  }

  lemma SubsetCardinality(a: set<string>, b: set<string>)
    requires a <= b
    ensures |a| <= |b|
  {
    assert b == a + (b - a);
  }

  /** The label cell of a coverage row, unless a lab's title overwrites it. */
  lemma CoverageLabel(xs: Extractions, labs: seq<string>, d: string)
    requires NoLabTitled(labs, "Domain")
    ensures "Domain" in CoverageRow(xs, labs, d) && CoverageRow(xs, labs, d)["Domain"] == DomainLabel(d)
    ensures CoverageRow(xs, labs, d).Keys == {"Domain"} + LabTitles(labs)
  {
    var entries := CoverageEntries(xs, labs, d);
    CoverageEntriesKeyed(xs, labs, d);
    HeaderKept(map["Domain" := DomainLabel(d)], entries, labs, "Domain");
    RowColumns(map["Domain" := DomainLabel(d)], labs, entries);
  }

  /** The cell of a lab in a coverage row is the symbol of the coverage of
      the lab's first risk domain with that name. */
  lemma CoverageCellAt(xs: Extractions, labs: seq<string>, d: string, j: int)
    requires 0 <= j < |labs| && LastWithTitle(labs, j)
    ensures Title(labs[j]) in CoverageRow(xs, labs, d)
    ensures CoverageRow(xs, labs, d)[Title(labs[j])] == CoverageSymbol(CoverageOf(ExtractionOf(xs, labs[j]).riskDomains, d))
  {
    var entries := CoverageEntries(xs, labs, d);
    CoverageEntriesKeyed(xs, labs, d);
    CellOfLab(map["Domain" := DomainLabel(d)], entries, labs, j);
  }

  /** What a coverage cell shows: "?" when no risk domain has the name; for
      the first one that has it, "●", "◐" or "○" for full, partial or no
      coverage, "◐" also when it states no coverage, and "?" for anything
      else. */
  lemma CoverageCellCases(rds: seq<RiskDomain>, d: string)
    ensures (forall i | 0 <= i < |rds| :: DomainKey(rds[i]) != d) ==> CoverageSymbol(CoverageOf(rds, d)) == "?"
    ensures forall i | FirstWithDomain(rds, d, i) ::
      CoverageSymbol(CoverageOf(rds, d)) ==
        match rds[i].coverage
        case None => "◐"
        case Some("full") => "●"
        case Some("partial") => "◐"
        case Some("none") => "○"
        case Some(_) => "?"
  {
  }

  /** Without records the coverage rows are the six standard domains, in
      sorted order. */
  lemma EmptyCoverageDomains()
    ensures CoverageDomains([]) == ["ai_rd", "autonomy", "cbrn", "cyber", "deception", "persuasion"]
  {
    var sorted := ["ai_rd", "autonomy", "cbrn", "cyber", "deception", "persuasion"];
    assert DomainsOf([]) + StandardDomains == StandardDomains;
    assert StrictlySorted(sorted) by {
      assert StrLt(sorted[0], sorted[1]) && StrLt(sorted[1], sorted[2]) && StrLt(sorted[2], sorted[3]);
      assert StrLt(sorted[3], sorted[4]) && StrLt(sorted[4], sorted[5]);
      forall i, j | 0 <= i < j < 6 ensures StrLt(sorted[i], sorted[j]) {
        SortedChain(sorted, i, j);
      }
    }
    SortedUnique(sorted, StandardDomains);
  }

  /** Without records the tables fall back to the four default labs, and
      every lab cell is empty: "?" for coverage, "-" for safeguards and
      commitments. */
  lemma EmptyCells(d: string, t: string, j: int)
    requires 0 <= j < 4
    ensures LabsOrDefault([]) == DefaultLabs
    ensures Title(DefaultLabs[j]) in CoverageRow([], DefaultLabs, d) && CoverageRow([], DefaultLabs, d)[Title(DefaultLabs[j])] == "?"
    ensures Title(DefaultLabs[j]) in SafeguardRow([], DefaultLabs, t) && SafeguardRow([], DefaultLabs, t)[Title(DefaultLabs[j])] == "-"
    ensures Title(DefaultLabs[j]) in CommitmentRow([], DefaultLabs, t) && CommitmentRow([], DefaultLabs, t)[Title(DefaultLabs[j])] == "-"
  {
    var ce := CoverageEntries([], DefaultLabs, d);
    assert ce[j].0 == Title(DefaultLabs[j]);
    AssignConstant(map["Domain" := DomainLabel(d)], ce, "?");
    var se := SafeguardEntries([], DefaultLabs, t);
    assert se[j].0 == Title(DefaultLabs[j]);
    AssignConstant(map["Safeguard Type" := Title(t)], se, "-");
    var me := CommitmentEntries([], DefaultLabs, t);
    assert me[j].0 == Title(DefaultLabs[j]);
    AssignConstant(map["Commitment Type" := Title(t)], me, "-");
  }

  /** Ordered neighbours give an ordered list. */
  lemma {:induction false} SortedChain(s: seq<string>, i: int, j: int)
    requires 0 <= i < j < |s|
    requires forall k | 0 <= k < |s| - 1 :: StrLt(s[k], s[k + 1])
    ensures StrLt(s[i], s[j])
    decreases j - i
  {
    if j > i + 1 {
      SortedChain(s, i + 1, j);
      StrLtTransitive(s[i], s[i + 1], s[j]);
    }
  }

  /** The safeguards of a type, in list order. */
  function SafeguardsOfType(sgs: seq<Safeguard>, t: string): (r: seq<Safeguard>)
    ensures r == [] <==> forall i | 0 <= i < |sgs| :: SafeguardKey(sgs[i]) != t
    ensures forall i | 0 <= i < |sgs| && SafeguardKey(sgs[i]) == t && (forall j | 0 <= j < i :: SafeguardKey(sgs[j]) != t) ::
      r != [] && r[0] == sgs[i]
  {
    FilterEqFirst(sgs, SafeguardKey, t);
    var r := FilterEq(sgs, SafeguardKey, t);
    forall i | 0 <= i < |sgs| && SafeguardKey(sgs[i]) == t && (forall j | 0 <= j < i :: SafeguardKey(sgs[j]) != t)
      ensures r[0] == sgs[i]
    {
      var i0 :| 0 <= i0 < |sgs| && SafeguardKey(sgs[i0]) == t && r[0] == sgs[i0] && forall j | 0 <= j < i0 :: SafeguardKey(sgs[j]) != t;
      assert i0 == i;
    }
    r
  }

  /** A safeguard cell is "-" exactly when the lab has no safeguard of the
      type, or has just one and its name is "-". */
  lemma SafeguardCellDash(sgs: seq<Safeguard>, t: string)
    ensures var matches := SafeguardsOfType(sgs, t);
      SafeguardCell(sgs, t) == "-" <==>
        matches == [] || (|matches| == 1 && Prefix(matches[0].name.GetOr(""), 20) == "-")
  {
    var matches := SafeguardsOfType(sgs, t);
    if |matches| > 1 {
      var r := SafeguardCell(sgs, t);
      assert |r| >= 7;
    }
  }

  /** Otherwise the cell starts with the first 20 characters of the name of
      the first safeguard of the type; with more than one it ends in
      "... (+k)", where k reads back as the number of further safeguards. */
  lemma SafeguardCellHead(sgs: seq<Safeguard>, t: string, i: int)
    requires 0 <= i < |sgs| && SafeguardKey(sgs[i]) == t && forall j | 0 <= j < i :: SafeguardKey(sgs[j]) != t
    ensures var head := Prefix(sgs[i].name.GetOr(""), 20);
      var r := SafeguardCell(sgs, t);
      var more := |SafeguardsOfType(sgs, t)| - 1;
      && |head| <= 20 && |r| >= |head| && r[..|head|] == head
      && (more == 0 ==> r == head)
      && (more > 0 ==>
            |r| > |head| + 6 && r[|head|..|head| + 6] == "... (+" && r[|r| - 1] == ')' &&
            ParseNat(r[|head| + 6..|r| - 1]) == more)
  {
    var matches := SafeguardsOfType(sgs, t);
    var head := Prefix(sgs[i].name.GetOr(""), 20);
    assert matches[0] == sgs[i];
    if |matches| > 1 {
      var digits := NatToString(|matches| - 1);
      NatToStringRoundTrip(|matches| - 1);
      var r := head + "... (+" + digits + ")";
      assert SafeguardCell(sgs, t) == r;
      assert r[|head| + 6..|r| - 1] == digits;
      assert r[|head|..|head| + 6] == "... (+";
    }
  }

  /** A commitment row has the type's title and one check-mark cell per lab. */
  lemma CommitmentCellAt(xs: Extractions, labs: seq<string>, t: string, j: int)
    requires 0 <= j < |labs| && LastWithTitle(labs, j)
    ensures Title(labs[j]) in CommitmentRow(xs, labs, t)
    ensures CommitmentRow(xs, labs, t)[Title(labs[j])] == "✓" <==>
      exists i | 0 <= i < |ExtractionOf(xs, labs[j]).commitments| :: CommitmentKey(ExtractionOf(xs, labs[j]).commitments[i]) == t
  {
    var entries := CommitmentEntries(xs, labs, t);
    CommitmentEntriesKeyed(xs, labs, t);
    CellOfLab(map["Commitment Type" := Title(t)], entries, labs, j);
    assert entries[j].1 == CommitmentCell(ExtractionOf(xs, labs[j]).commitments, t);
  }

  /** The cell of a lab in a safeguard row is that lab's safeguard cell. */
  lemma SafeguardCellAt(xs: Extractions, labs: seq<string>, t: string, j: int)
    requires 0 <= j < |labs| && LastWithTitle(labs, j)
    ensures Title(labs[j]) in SafeguardRow(xs, labs, t)
    ensures SafeguardRow(xs, labs, t)[Title(labs[j])] == SafeguardCell(ExtractionOf(xs, labs[j]).safeguards, t)
  {
    var entries := SafeguardEntries(xs, labs, t);
    SafeguardEntriesKeyed(xs, labs, t);
    CellOfLab(map["Safeguard Type" := Title(t)], entries, labs, j);
  }

  /** The safeguard and commitment tables have one row per type, and every
      row the type's column and one column per lab. */
  lemma TypeTablesShape(xs: Extractions)
    ensures |SafeguardMatrix(xs)| == 5 && |CommitmentMatrix(xs)| == 4
    ensures forall i | 0 <= i < 5 :: SafeguardMatrix(xs)[i].Keys == {"Safeguard Type"} + LabTitles(LabsOrDefault(xs))
    ensures forall i | 0 <= i < 4 :: CommitmentMatrix(xs)[i].Keys == {"Commitment Type"} + LabTitles(LabsOrDefault(xs))
  {
    var labs := LabsOrDefault(xs);
    forall i | 0 <= i < 5 ensures SafeguardMatrix(xs)[i].Keys == {"Safeguard Type"} + LabTitles(labs) {
      var t := SafeguardTypes[i];
      SafeguardEntriesKeyed(xs, labs, t);
      RowColumns(map["Safeguard Type" := Title(t)], labs, SafeguardEntries(xs, labs, t));
    }
    forall i | 0 <= i < 4 ensures CommitmentMatrix(xs)[i].Keys == {"Commitment Type"} + LabTitles(labs) {
      var t := CommitmentTypes[i];
      CommitmentEntriesKeyed(xs, labs, t);
      RowColumns(map["Commitment Type" := Title(t)], labs, CommitmentEntries(xs, labs, t));
    }
  }

  /** The summary counts every column lab, gives each its full, partial and
      total coverage counts (total = full + partial, at most its number of
      risk domains) and its number of thresholds, and counts five unified
      levels. */
  lemma SummaryFacts(xs: Extractions)
    ensures var s := SummaryOf(xs);
      var labs := LabsOrDefault(xs);
      && s.labsAnalyzed == |labs| && s.unifiedLevels == 5
      && (forall x :: x in KeySetOf(s.domainCoverage) <==> x in labs)
      && (forall x :: x in KeySetOf(s.levelCounts) <==> x in labs)
      && forall j | 0 <= j < |labs| ::
        && Get(s.domainCoverage, labs[j]) == Some(CountsFor(ExtractionOf(xs, labs[j])))
        && Get(s.domainCoverage, labs[j]).value.total == Get(s.domainCoverage, labs[j]).value.full + Get(s.domainCoverage, labs[j]).value.partial
        && Get(s.domainCoverage, labs[j]).value.total <= |ExtractionOf(xs, labs[j]).riskDomains|
        && Get(s.levelCounts, labs[j]) == Some(|ExtractionOf(xs, labs[j]).thresholds|)
  {
    var labs := LabsOrDefault(xs);
    PutEachCover(labs, LabCounts(xs));
    PutEachCover(labs, LabLevels(xs));
  }

  // ------------------------------------------------------ the builder

  /** Writes the cell of every lab under its title, in lab order, into a
      copy of `first`. */
  method FillLabColumns(first: Row, labs: seq<string>, cell: string -> string) returns (row: Row)
    ensures row == Assign(first, LabEntries(labs, cell))
  {
    row := first;
    for j := 0 to |labs|
      invariant row == Assign(first, LabEntries(labs[..j], cell))
    {
      LabEntriesSnoc(labs, cell, j);
      AssignSnoc(first, LabEntries(labs[..j], cell), Title(labs[j]), cell(labs[j]));
      row := row[Title(labs[j]) := cell(labs[j])];
    }
    assert labs[..|labs|] == labs;
  }

  class MatrixBuilder {
    const extractions: Extractions
    const mapper: TerminologyMapper

    /** A missing or empty dictionary of records is the empty one. */
    constructor(xs: Option<Extractions>)
      ensures extractions == xs.GetOr([])
      ensures mapper.extractions == xs.GetOr([]) && mapper.termMap == TerminologyMap(TermMapOf(xs.GetOr([])))
    {
      extractions := xs.GetOr([]);
      mapper := new TerminologyMapper(xs.GetOr([]));
    }

    /** The lab columns of the domain, safeguard and commitment tables. */
    method Labs() returns (labs: seq<string>)
      ensures labs == LabsOrDefault(extractions)
    {
      if extractions != [] {
        labs := Keys(extractions);
      } else {
        labs := DefaultLabs;
      }
    }

    method BuildComparisonMatrix() returns (table: Table)
      ensures table == ComparisonMatrix(mapper.termMap, mapper.GetAllLabs())
    {
      var labs := mapper.GetAllLabs();
      table := [];
      for i := 0 to |AllLevels|
        invariant |table| == i && forall k | 0 <= k < i :: table[k] == ComparisonRow(mapper.termMap, labs, AllLevels[k])
      {
        var row := BuildComparisonRow(labs, AllLevels[i]);
        table := table + [row];
      }
    }

    /** One row of the level comparison: the header cells, then the lab
        columns. */
    method BuildComparisonRow(labs: seq<string>, u: UnifiedLevel) returns (row: Row)
      ensures row == ComparisonRow(mapper.termMap, labs, u)
    {
      var tm := mapper.termMap;
      row := FillLabColumns(ComparisonHeader(u), labs, LevelCells(tm, u));
    }

    /** The inner search of the coverage table: the first matching entry
        decides. */
    method FindCoverage(rds: seq<RiskDomain>, d: string) returns (coverage: string)
      ensures coverage == CoverageOf(rds, d)
    {
      coverage := "?";
      var k := 0;
      while k < |rds|
        invariant 0 <= k <= |rds|
        invariant CoverageOf(rds[k..], d) == CoverageOf(rds, d)
      {
        assert rds[k..][1..] == rds[k + 1..];
        if DomainKey(rds[k]) == d {
          coverage := rds[k].coverage.GetOr("partial");
          return;
        }
        k := k + 1;
      }
    }

    method BuildDomainCoverageMatrix() returns (table: Table)
      ensures table == CoverageMatrix(extractions)
    {
      var domains := CoverageDomainList();
      var labs := Labs();
      table := BuildCoverageRows(labs, domains);
    }

    /** The row order of the coverage table. */
    method CoverageDomainList() returns (domains: seq<string>)
      ensures domains == CoverageDomains(extractions)
    {
      var allDomains := CollectDomains(extractions);
      allDomains := allDomains + StandardDomains;
      domains := Sorted(allDomains);
    }

    method BuildCoverageRows(labs: seq<string>, domains: seq<string>) returns (table: Table)
      ensures |table| == |domains| && forall k | 0 <= k < |domains| :: table[k] == CoverageRow(extractions, labs, domains[k])
    {
      table := [];
      for i := 0 to |domains|
        invariant |table| == i && forall k | 0 <= k < i :: table[k] == CoverageRow(extractions, labs, domains[k])
      {
        var row := BuildCoverageRow(labs, domains[i]);
        table := table + [row];
      }
    }

    /** One row of the domain coverage table. */
    method BuildCoverageRow(labs: seq<string>, d: string) returns (row: Row)
      ensures row == CoverageRow(extractions, labs, d)
    {
      row := map["Domain" := DomainLabel(d)];
      for j := 0 to |labs|
        invariant row == Assign(map["Domain" := DomainLabel(d)], CoverageEntries(extractions, labs[..j], d))
      {
        var extraction := ExtractionOf(extractions, labs[j]);
        var coverage := FindCoverage(extraction.riskDomains, d);
        var cell := CoverageSymbol(coverage);
        CoverageEntriesSnoc(extractions, labs, d, j);
        AssignSnoc(map["Domain" := DomainLabel(d)], CoverageEntries(extractions, labs[..j], d), Title(labs[j]), cell);
        row := row[Title(labs[j]) := cell];
      }
      assert labs[..|labs|] == labs;
    }

    method BuildSafeguardMatrix() returns (table: Table)
      ensures table == SafeguardMatrix(extractions)
    {
      var labs := Labs();
      table := [];
      for i := 0 to |SafeguardTypes|
        invariant |table| == i && forall k | 0 <= k < i :: table[k] == SafeguardRow(extractions, labs, SafeguardTypes[k])
      {
        var row := BuildSafeguardRow(labs, SafeguardTypes[i]);
        table := table + [row];
      }
    }

    /** One row of the safeguard table. */
    method BuildSafeguardRow(labs: seq<string>, t: string) returns (row: Row)
      ensures row == SafeguardRow(extractions, labs, t)
    {
      row := map["Safeguard Type" := Title(t)];
      for j := 0 to |labs|
        invariant row == Assign(map["Safeguard Type" := Title(t)], SafeguardEntries(extractions, labs[..j], t))
      {
        var extraction := ExtractionOf(extractions, labs[j]);
        var cell := SafeguardCell(extraction.safeguards, t);
        SafeguardEntriesSnoc(extractions, labs, t, j);
        AssignSnoc(map["Safeguard Type" := Title(t)], SafeguardEntries(extractions, labs[..j], t), Title(labs[j]), cell);
        row := row[Title(labs[j]) := cell];
      }
      assert labs[..|labs|] == labs;
    }

    method BuildCommitmentMatrix() returns (table: Table)
      ensures table == CommitmentMatrix(extractions)
    {
      var labs := Labs();
      table := [];
      for i := 0 to |CommitmentTypes|
        invariant |table| == i && forall k | 0 <= k < i :: table[k] == CommitmentRow(extractions, labs, CommitmentTypes[k])
      {
        var row := BuildCommitmentRow(labs, CommitmentTypes[i]);
        table := table + [row];
      }
    }

    /** One row of the commitment table. */
    method BuildCommitmentRow(labs: seq<string>, t: string) returns (row: Row)
      ensures row == CommitmentRow(extractions, labs, t)
    {
      row := map["Commitment Type" := Title(t)];
      for j := 0 to |labs|
        invariant row == Assign(map["Commitment Type" := Title(t)], CommitmentEntries(extractions, labs[..j], t))
      {
        var extraction := ExtractionOf(extractions, labs[j]);
        var cell := CommitmentCell(extraction.commitments, t);
        CommitmentEntriesSnoc(extractions, labs, t, j);
        AssignSnoc(map["Commitment Type" := Title(t)], CommitmentEntries(extractions, labs[..j], t), Title(labs[j]), cell);
        row := row[Title(labs[j]) := cell];
      }
      assert labs[..|labs|] == labs;
    }

    method GetSummaryStats() returns (stats: SummaryStats)
      ensures stats == SummaryOf(extractions)
    {
      var labs := Labs();
      var domainCounts := CountDomains(labs);
      var levelCounts := CountLevels(labs);
      stats := SummaryStats(|labs|, domainCounts, levelCounts, |AllLevels|);
    }

    /** The first loop of `get_summary_stats`: the domain counts of each lab. */
    method CountDomains(labs: seq<string>) returns (domainCounts: Dict<DomainCounts>)
      ensures domainCounts == DomainCountsOver(extractions, labs)
    {
      domainCounts := [];
      for i := 0 to |labs|
        invariant domainCounts == DomainCountsOver(extractions, labs[..i])
      {
        var extraction := ExtractionOf(extractions, labs[i]);
        PutEachStep(labs, LabCounts(extractions), i);
        domainCounts := Put(domainCounts, labs[i], CountsFor(extraction));
      }
      assert labs[..|labs|] == labs;
    }

    /** The second loop of `get_summary_stats`: the number of levels of each lab. */
    method CountLevels(labs: seq<string>) returns (levelCounts: Dict<int>)
      ensures levelCounts == LevelCountsOver(extractions, labs)
    {
      levelCounts := [];
      for i := 0 to |labs|
        invariant levelCounts == LevelCountsOver(extractions, labs[..i])
      {
        var extraction := ExtractionOf(extractions, labs[i]);
        PutEachStep(labs, LabLevels(extractions), i);
        levelCounts := Put(levelCounts, labs[i], |extraction.thresholds|);
      }
      assert labs[..|labs|] == labs;
    }
  }
}
