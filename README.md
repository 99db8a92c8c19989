# RSP Harmonization Engine — a Dafny model of its core

The RSP Harmonization Engine compares the responsible scaling policies that
frontier AI labs publish (Anthropic, OpenAI, Google DeepMind, Meta). It works
from structured extraction records of each framework: capability thresholds,
risk domains, safeguards, evaluation requirements and commitments. From these it

- maps every lab's own risk levels (ASL-3, "High", CCL-1, "Tier 3 - High Risk", …)
  onto a unified five-point scale, inferring a mapping by position for labs it
  has no curated table for;
- reports gaps between the frameworks: ten curated gaps plus coverage gaps found
  where some labs address a risk domain and others do not;
- builds side-by-side comparison tables (levels, domain coverage, safeguards,
  commitments) and summary statistics;
- repairs raw extraction records and warns about incomplete or inconsistent ones;
- merges the records extracted from the chunks of one long document and
  deduplicates their sections;
- offers seven fixed harmonisation recommendations, filtered by category,
  priority or audience, and normalises lab names.

This project models that core in Dafny and proves what the code promises about
it. The modules follow the source files:

| file | models |
|---|---|
| `terminology.dfy` | `src/comparison/terminology_mapper.py`: unified levels, the curated table, inference by position, the map builder (a loop), the `TerminologyMapper` class and its dictionary export |
| `gaps.dfy` | `src/comparison/gap_analyzer.py`: gap types and severities, the curated gaps, coverage-gap synthesis, deduplication in `analyze_all`, the filters, the `GapAnalyzer` class and its export |
| `matrix.dfy` | `src/comparison/matrix_builder.py`: the four matrices and the summary statistics, as methods of a `MatrixBuilder` class with loops |
| `validator.dfy` | `src/extraction/schema_validator.py`: `fix_common_issues`, `_fix_threshold`, `_fix_domain` |
| `checks.dfy` | `src/extraction/schema_validator.py`: `_check_completeness` and `_check_consistency` |
| `enums.dfy` | `src/extraction/schema_validator.py`: the string enumerations of the schema |
| `extractor.dfy` | `src/extraction/llm_extractor.py`: `_merge_extractions` over list objects that may be shared, `_deduplicate_list`, `_default_extraction` |
| `prebuilt.dfy` | `src/extraction/llm_extractor.py`: the prebuilt records of the four labs and `get_prebuilt_extraction` |
| `scenarios.dfy` | the gap analysis run on the prebuilt records (the figures `create_submission.py` reports) |
| `helpers.dfy` | `src/utils/helpers.py`: `truncate_text`, `normalize_lab_name` |
| `suggester.dfy` | `src/harmonization/language_suggester.py`: the recommendation catalogue and the `LanguageSuggester` filters |
| `records.dfy` | the typed view of an extraction record that the comparison code reads |
| `json.dfy`, `dicts.dfy`, `seqs.dfy`, `strings.dfy`, `optional.dfy` | Python values, insertion-ordered dictionaries, list comprehensions and seen-set deduplication, ASCII string operations, `None` |

Python dictionaries are sequences of key/value pairs with distinct keys, so
that insertion order is kept. Where the source raises (`KeyError`,
`AttributeError`, `TypeError` on an unhashable key), the model returns an
error value instead of requiring that the raise cannot happen.

## Model

| member | source | states |
|---|---|---|
| Terminology.UnifiedLevel.Value | src/comparison/terminology_mapper.py:14-20 | the five unified levels carry the ranks 1 to 5 |
| Terminology.AllLevelsInRankOrder | src/comparison/terminology_mapper.py:14-20 | iterating the enum visits MINIMAL..CRITICAL in rank order, and each level sits at position rank - 1 |
| Terminology.FirstAtLevel | src/comparison/terminology_mapper.py:41-44 | the result is the first mapping at the unified level, and it is absent exactly when no mapping is at that level |
| Terminology.FirstNamed | src/comparison/terminology_mapper.py:50-53 | the first mapping whose name matches case-insensitively; absent exactly when no name matches |
| Terminology.AllAtLevel | src/comparison/terminology_mapper.py:59-66 | a mapping is collected exactly when it belongs to a different lab's list and is at the level |
| Terminology.TerminologyMap.GetLabLevel | src/comparison/terminology_mapper.py:39-44 | first mapping of the lab at the unified level; None exactly when the lab (or a missing lab's empty list) has none there |
| Terminology.TerminologyMap.GetEquivalentLevels | src/comparison/terminology_mapper.py:46-66 | empty when the name is unknown for the lab; otherwise exactly the mappings of other labs at the name's unified level |
| Terminology.CuratedTableIsDict | src/comparison/terminology_mapper.py:70-111 | the curated table has distinct keys, namely anthropic, openai, deepmind and meta |
| Terminology.CuratedLabsListed | src/comparison/terminology_mapper.py:70-111 | the default lab list is duplicate-free and names exactly the curated labs |
| Terminology.CuratedKeys | src/comparison/terminology_mapper.py:70-111 | four curated labs, in the order the table lists them |
| Terminology.LevelNameOfFour | src/comparison/terminology_mapper.py:41-44 | in a four-level table the name at a unified level is the first of the four at that level |
| Terminology.AnthropicLevelNames | src/comparison/terminology_mapper.py:71-80 | ASL-1..ASL-4 stand at MINIMAL..SEVERE, and Anthropic has no CRITICAL level |
| Terminology.OpenAiLevelNames | src/comparison/terminology_mapper.py:81-90 | Low, Medium, High, Critical at MINIMAL, EMERGING, SIGNIFICANT, CRITICAL; none at SEVERE |
| Terminology.DeepMindLevelNames | src/comparison/terminology_mapper.py:91-100 | both "Below CCL" and "Approaching CCL" sit at EMERGING and the lookup returns "Below CCL", the first; CCL-1 and CCL-2 at SIGNIFICANT and SEVERE; none at MINIMAL or CRITICAL |
| Terminology.MetaLevelNames | src/comparison/terminology_mapper.py:101-110 | Tier 1..3 at MINIMAL..SIGNIFICANT, Tier 4 at CRITICAL, none at SEVERE |
| Terminology.PositionLevel | src/comparison/terminology_mapper.py:162-169 | position i of n is MINIMAL iff first; the last of n >= 2 is CRITICAL iff n >= 4, else SEVERE; the second of more than two is EMERGING; the rest are SIGNIFICANT |
| Terminology.PositionLevelMonotone | src/comparison/terminology_mapper.py:162-169 | inferred levels never decrease along a framework's thresholds |
| Terminology.InferredMapping | src/comparison/terminology_mapper.py:157-178 | the inferred mapping keeps the lab, takes the threshold's name and id or "Level i+1" / "level_i+1", its positional level, confidence "uncertain" and the fixed note |
| Terminology.InferFor | src/comparison/terminology_mapper.py:152-180 | one inferred mapping per threshold, in order |
| Terminology.InferMappings | src/comparison/terminology_mapper.py:152-180 | the loop builds exactly the inferred list of the thresholds |
| Terminology.InferredEntries | src/comparison/terminology_mapper.py:144-148 | each new lab contributes its lower-cased name and its inferred list, in order |
| Terminology.CopyCurated | src/comparison/terminology_mapper.py:140-141 | the map starts as a copy of the curated table |
| Terminology.DedupStep | src/comparison/terminology_mapper.py:144-148 | a lab already mapped adds nothing; a new one adds its inferred entry before the rest |
| Terminology.BuildStart | src/comparison/terminology_mapper.py:137-141 | the loop's goal at the start is the whole terminology map |
| Terminology.BuildDone | src/comparison/terminology_mapper.py:150 | after the last extraction the built map is the goal |
| Terminology.BuildStepSeen | src/comparison/terminology_mapper.py:146 | an extraction whose lower-cased lab is already a key changes nothing |
| Terminology.BuildStepNew | src/comparison/terminology_mapper.py:146-148 | an extraction with a new lower-cased lab appends its inferred entry |
| Terminology.BuildTerminologyMap | src/comparison/terminology_mapper.py:135-150 | the built map is the curated table followed by one inferred entry per new lower-cased lab, first occurrence wins |
| Terminology.TermMapIsDict | src/comparison/terminology_mapper.py:135-150 | the terminology map never holds the same lab twice |
| Terminology.CuratedVerbatim | src/comparison/terminology_mapper.py:139-148 | a curated lab keeps its curated list whatever the extractions say |
| Terminology.UncuratedInferred | src/comparison/terminology_mapper.py:144-148 | a lab outside the curated table is mapped, under its lower-cased name, to the list inferred from its first extraction |
| Terminology.TermMapKeys | src/comparison/terminology_mapper.py:135-150 | the map's labs are exactly the curated labs plus the lower-cased extraction labs |
| Terminology.InferredKeys | src/comparison/terminology_mapper.py:144-148 | the inferred entries are keyed by the lower-cased labs they came from |
| Terminology.EveryInputLabMapped | src/comparison/terminology_mapper.py:144-148 | every extraction's lab has an entry |
| Terminology.ExportMappings | src/comparison/terminology_mapper.py:284-294 | one exported record per mapping, in order |
| Terminology.TerminologyMapper.constructor | src/comparison/terminology_mapper.py:126-133 | the mapper keeps its extractions and builds the terminology map from them |
| Terminology.TerminologyMapper.GetUnifiedLevel | src/comparison/terminology_mapper.py:186-200 | the level of the first case-insensitive name match in the lower-cased lab's list; None exactly when nothing matches |
| Terminology.TerminologyMapper.GetEquivalents | src/comparison/terminology_mapper.py:202-224 | empty for an unknown level; every entry is another lab (case-insensitively) paired with that lab's first name at the level |
| Terminology.TerminologyMapper.GetAllLabs | src/comparison/terminology_mapper.py:226-228 | the labs of the map, in insertion order |
| Terminology.TerminologyMapper.GetLabLevels | src/comparison/terminology_mapper.py:230-232 | the lower-cased lab's list, or empty when the lab is not mapped |
| Terminology.TerminologyMapper.ToDict | src/comparison/terminology_mapper.py:269-296 | five level records in rank order with name, value and description, then every lab's exported mappings in order |
| Terminology.EquivalentsFrom | src/comparison/terminology_mapper.py:216-224 | every entry is a lab other than the source lab with its first name at the level |
| Terminology.EquivalentsComplete | src/comparison/terminology_mapper.py:216-224 | every other lab with a level at the unified level appears with that level's name |
| Terminology.EquivalentKeys | src/comparison/terminology_mapper.py:217-221 | the equivalents are keyed by labs of the map |
| Terminology.EquivalentsAreDict | src/comparison/terminology_mapper.py:216-224 | the equivalents never name a lab twice |
| Gaps.GapTypeOf | src/comparison/gap_analyzer.py:17-22 | parsing a gap-type string yields exactly the type whose value it is |
| Gaps.GapSeverityOf | src/comparison/gap_analyzer.py:25-29 | parsing a severity string yields exactly the severity whose value it is |
| Gaps.ExamplesToDicts | src/comparison/gap_analyzer.py:62-65 | one lab/quote/interpretation record per example, in order |
| Gaps.ExampleRoundTrip | src/comparison/gap_analyzer.py:62-65 | an example is recovered from its exported record |
| Gaps.ExamplesRoundTrip | src/comparison/gap_analyzer.py:62-65 | a list of examples is recovered from its exported records |
| Gaps.GapParsedFields | src/comparison/gap_analyzer.py:53-67 | every field of the exported gap reads back as the gap's own value |
| Gaps.GapRoundTrip | src/comparison/gap_analyzer.py:53-67 | a gap is recovered from its exported dictionary |
| Gaps.GapValuesDecode | src/comparison/gap_analyzer.py:53-67 | the type, severity, domain and recommendation each decode back from their exported form |
| Gaps.KnownIdsDistinct | src/comparison/gap_analyzer.py:71-220 | the ten curated gap ids are pairwise distinct |
| Gaps.KnownGapIds | src/comparison/gap_analyzer.py:71-220 | there are ten curated gaps, carrying the listed ids in order |
| Gaps.KnownGapsDistinct | src/comparison/gap_analyzer.py:71-220 | no two curated gaps share an id |
| Gaps.CoveredIsNamed | src/comparison/gap_analyzer.py:305-311 | a lab that covers a non-empty domain names it among its risk domains |
| Gaps.CoveringLabs | src/comparison/gap_analyzer.py:302-316 | a lab is listed as covering exactly when one of its risk domains matches case-insensitively with full or partial coverage |
| Gaps.MissingLabs | src/comparison/gap_analyzer.py:302-316 | a lab is listed as missing exactly when none of its risk domains covers the domain |
| Gaps.CoveringMissingPartition | src/comparison/gap_analyzer.py:302-316 | every lab lands in exactly one of the two lists |
| Gaps.NoneMissing | src/comparison/gap_analyzer.py:313-316 | when every lab covers the domain nobody is missing |
| Gaps.CoverageGapForIff | src/comparison/gap_analyzer.py:318-333 | a dynamic gap exists iff some lab covers and some lab misses the domain, the domain is not "other" and no curated id starts with its COV prefix; it is then the MEDIUM coverage gap "COV-XXX-DYN" on that domain listing exactly the missing labs |
| Gaps.CoverageGapsOverStep | src/comparison/gap_analyzer.py:301-333 | each domain appends its gap, if any, in domain order |
| Gaps.CoverageGapsOverMembers | src/comparison/gap_analyzer.py:295-335 | the coverage gaps are exactly the dynamic gaps of the domains |
| Gaps.CoverageGapsOverSingle | src/comparison/gap_analyzer.py:295-335 | when only one domain yields a gap, the result is that one gap |
| Gaps.CoverageGapsSingle | src/comparison/gap_analyzer.py:295-335 | over all domains of the extractions, a single gap-yielding domain gives exactly its gap |
| Gaps.KnownIdSet | src/comparison/gap_analyzer.py:71-220 | the ids of the curated gaps are exactly the listed ids |
| Gaps.SynthesisedIdsAreNew | src/comparison/gap_analyzer.py:320-323 | no dynamic gap reuses a curated gap's id |
| Gaps.AnalysisSplit | src/comparison/gap_analyzer.py:241-261 | the analysis is all curated gaps followed by the de-duplicated dynamic gaps |
| Gaps.AnalysisWithoutRecords | src/comparison/gap_analyzer.py:244-247 | without extractions the analysis is exactly the ten curated gaps |
| Gaps.AnalysisIds | src/comparison/gap_analyzer.py:252-260 | the analysis has distinct ids, keeps the candidates' order, and loses no id |
| Gaps.AnalysisFirstWins | src/comparison/gap_analyzer.py:252-260 | the first candidate with an id is the one kept |
| Gaps.GapDicts | src/comparison/gap_analyzer.py:444-452 | each exported dictionary decodes back to its gap |
| Gaps.GroupedPartitions | src/comparison/gap_analyzer.py:441-454 | the severity groups and the type groups each partition the gaps, and for every severity and every type a gap is in its group exactly when it has that severity or type |
| Gaps.HasDomain | src/comparison/gap_analyzer.py:306-311 | the early-exit search reports whether any risk domain covers the domain |
| Gaps.AnyKnownIdStartsWith | src/comparison/gap_analyzer.py:323 | the search reports whether some curated id starts with the prefix |
| Gaps.DedupById | src/comparison/gap_analyzer.py:252-260 | the loop keeps the first gap of each id, in order |
| Gaps.SplitLabs | src/comparison/gap_analyzer.py:302-316 | the loop builds the covering and missing lists |
| Gaps.SplitLabsStep | src/comparison/gap_analyzer.py:313-316 | each lab goes to the covering list or to the missing list according to its coverage |
| Gaps.CoverageGapOf | src/comparison/gap_analyzer.py:301-333 | one domain's step computes its dynamic gap |
| Gaps.CoverageGapsLoop | src/comparison/gap_analyzer.py:301-333 | the loop over the domains builds the coverage gaps in order |
| Gaps.GapAnalyzer.constructor | src/comparison/gap_analyzer.py:226-233 | a missing extractions argument becomes empty and the gap list starts empty |
| Gaps.GapAnalyzer.AnalyzeAll | src/comparison/gap_analyzer.py:235-261 | the stored and returned gaps are the analysis of the extractions |
| Gaps.GapAnalyzer.FindThresholdGaps | src/comparison/gap_analyzer.py:263-293 | no threshold gap is ever produced |
| Gaps.GapAnalyzer.FindDefinitionGaps | src/comparison/gap_analyzer.py:337-341 | no definition gap is ever produced |
| Gaps.GapAnalyzer.GetAllDomains | src/comparison/gap_analyzer.py:343-352 | the lower-cased non-empty domain names of all extractions |
| Gaps.GapAnalyzer.FindCoverageGaps | src/comparison/gap_analyzer.py:295-335 | the dynamic coverage gaps of the extractions |
| Gaps.GapAnalyzer.GetGapsBySeverity | src/comparison/gap_analyzer.py:354-356 | exactly the stored gaps of that severity, in order |
| Gaps.GapAnalyzer.GetGapsByType | src/comparison/gap_analyzer.py:358-360 | exactly the stored gaps of that type, in order |
| Gaps.GapAnalyzer.GetGapsByDomain | src/comparison/gap_analyzer.py:362-364 | exactly the stored gaps with a non-empty domain equal case-insensitively, in order |
| Gaps.GapAnalyzer.Metadata | src/comparison/gap_analyzer.py:420-427 | the three severity counts add up to the total, and the analysed labs are the extraction labs or the four defaults |
| Gaps.GapAnalyzer.ToDict | src/comparison/gap_analyzer.py:436-454 | runs the analysis only when no gaps are stored, then groups the gaps by severity and by type |
| Matrix.HeaderKept | src/comparison/matrix_builder.py:39-52 | writing the lab columns leaves a header cell no lab title collides with untouched |
| Matrix.CellOfLab | src/comparison/matrix_builder.py:42-52 | a lab's column holds that lab's cell when no later lab has the same title |
| Matrix.LabEntriesSnoc | src/comparison/matrix_builder.py:42-52 | the lab loop adds one titled cell per lab, in order |
| Matrix.LabEntriesHeader | src/comparison/matrix_builder.py:39-52 | the header cells survive the lab columns |
| Matrix.LabEntriesCell | src/comparison/matrix_builder.py:42-52 | the column titled after a lab holds that lab's cell |
| Matrix.ConfidenceSymbol | src/comparison/matrix_builder.py:45-49 | each confidence symbol is a space followed by one mark |
| Matrix.ComparisonCell | src/comparison/matrix_builder.py:43-52 | "-" exactly when the lab has no level there; otherwise the level name followed by its confidence symbol |
| Matrix.ShortenedShape | src/comparison/matrix_builder.py:40 | the description cell is its first 60 characters followed by "..." |
| Matrix.HeaderCellsLookup | src/comparison/matrix_builder.py:39-40 | a comparison row starts with exactly the "Unified Level" and "Description" cells |
| Matrix.LevelCellMeaning | src/comparison/matrix_builder.py:43-52 | a lab's cell is "-" iff none of its mappings is at the level; otherwise it shows the first such mapping's name and confidence |
| Matrix.DomainLabel | src/comparison/matrix_builder.py:79 | the domain label has the domain's length, no lower-case letter and no underscore |
| Matrix.CoverageOf | src/comparison/matrix_builder.py:82-88 | "?" when no risk domain matches; otherwise the first match's coverage, "partial" when it has none |
| Matrix.CoverageEntriesSnoc | src/comparison/matrix_builder.py:81-98 | the lab loop adds one coverage cell per lab, in order |
| Matrix.CoverageEntriesKeyed | src/comparison/matrix_builder.py:98 | the coverage cells are keyed by the labs' titles |
| Matrix.SafeguardEntriesSnoc | src/comparison/matrix_builder.py:117-132 | the lab loop adds one safeguard cell per lab, in order |
| Matrix.SafeguardEntriesKeyed | src/comparison/matrix_builder.py:128-132 | the safeguard cells are keyed by the labs' titles |
| Matrix.CommitmentCell | src/comparison/matrix_builder.py:153-161 | a tick exactly when some commitment has the type, "-" exactly when none has |
| Matrix.CommitmentEntriesSnoc | src/comparison/matrix_builder.py:151-161 | the lab loop adds one commitment cell per lab, in order |
| Matrix.CommitmentEntriesKeyed | src/comparison/matrix_builder.py:159-161 | the commitment cells are keyed by the labs' titles |
| Matrix.CountsFor | src/comparison/matrix_builder.py:247-260 | full and partial count the risk domains with that coverage, and the total is their sum, at most the number of domains |
| Matrix.RowColumns | src/comparison/matrix_builder.py:39-52 | a row's columns are its header columns plus the labs' titles |
| Matrix.ComparisonShape | src/comparison/matrix_builder.py:29-56 | five rows, each with the two header columns and one column per lab title |
| Matrix.ComparisonHeaders | src/comparison/matrix_builder.py:39-40 | each row shows the title-cased level name and the shortened description |
| Matrix.ComparisonRowParts | src/comparison/matrix_builder.py:38-54 | a comparison row is the header followed by the labs' level cells |
| Matrix.ComparisonHeaderParts | src/comparison/matrix_builder.py:39-40 | the header holds the level's title and its shortened description |
| Matrix.RowHeaders | src/comparison/matrix_builder.py:39-40 | the header cells keep their values after the lab columns are written |
| Matrix.ComparisonCellAt | src/comparison/matrix_builder.py:42-52 | the column of a lab holds its level cell |
| Matrix.MapperColumns | src/comparison/matrix_builder.py:35 | the comparison columns start with the four curated labs, and no two columns share a title |
| Matrix.DefaultLabsLower | src/comparison/matrix_builder.py:75 | the default lab names are already lower case |
| Matrix.MapperLabsLower | src/comparison/terminology_mapper.py:140-148 | every lab key of the terminology map is lower case |
| Matrix.ComparisonCells | src/comparison/matrix_builder.py:29-56 | in the built comparison matrix, row i and lab j hold the lab's cell at the i-th level |
| Matrix.CoverageDomainRows | src/comparison/matrix_builder.py:64-78 | one row per domain, in sorted order, for exactly the extractions' domains plus the six standard ones (at least six rows) |
| Matrix.StandardDomainCount | src/comparison/matrix_builder.py:72 | the six standard domains are distinct |
| Matrix.CoverageLabel | src/comparison/matrix_builder.py:79-98 | a coverage row has the "Domain" label plus one column per lab title |
| Matrix.CoverageCellAt | src/comparison/matrix_builder.py:81-98 | the column of a lab holds the symbol of its coverage of the domain |
| Matrix.CoverageCellCases | src/comparison/matrix_builder.py:83-96 | full, partial (or missing) and none give their symbols; an unknown coverage or an unnamed domain gives "?" |
| Matrix.EmptyCoverageDomains | src/comparison/matrix_builder.py:72-78 | without extractions the rows are the six standard domains in sorted order |
| Matrix.EmptyCells | src/comparison/matrix_builder.py:75-161 | without extractions the four default labs show "?" for coverage and "-" for safeguards and commitments |
| Matrix.SafeguardsOfType | src/comparison/matrix_builder.py:119-122 | empty exactly when no safeguard has the type; otherwise it starts with the first one that has |
| Matrix.SafeguardCellDash | src/comparison/matrix_builder.py:124-132 | the cell is "-" exactly when no safeguard has the type, or a single one is itself named "-" |
| Matrix.SafeguardCellHead | src/comparison/matrix_builder.py:124-130 | the cell starts with the first match's name cut to 20 characters and, when there are more, ends with "... (+k)" where k is the number of further matches |
| Matrix.CommitmentCellAt | src/comparison/matrix_builder.py:151-161 | a lab's commitment cell is a tick exactly when it has a commitment of the type |
| Matrix.SafeguardCellAt | src/comparison/matrix_builder.py:117-132 | a lab's column holds its safeguard cell for the type |
| Matrix.TypeTablesShape | src/comparison/matrix_builder.py:104-165 | five safeguard rows and four commitment rows, each with its type column and one column per lab title |
| Matrix.SummaryFacts | src/comparison/matrix_builder.py:236-273 | the stats count the labs, key both tables by exactly those labs, give each lab its coverage counts and its number of thresholds, and report five unified levels |
| Matrix.FillLabColumns | src/comparison/matrix_builder.py:42-52 | the loop writes every lab's cell into the row |
| Matrix.MatrixBuilder.constructor | src/comparison/matrix_builder.py:20-27 | a missing extractions argument becomes empty; the mapper is built from the same extractions |
| Matrix.MatrixBuilder.Labs | src/comparison/matrix_builder.py:75 | the extraction labs, or the four default labs when there are none |
| Matrix.MatrixBuilder.BuildComparisonMatrix | src/comparison/matrix_builder.py:29-56 | the comparison matrix over the mapper's labs |
| Matrix.MatrixBuilder.BuildComparisonRow | src/comparison/matrix_builder.py:38-54 | one level's comparison row |
| Matrix.MatrixBuilder.FindCoverage | src/comparison/matrix_builder.py:82-88 | the early-exit search finds the coverage of the domain |
| Matrix.MatrixBuilder.BuildDomainCoverageMatrix | src/comparison/matrix_builder.py:58-102 | the domain coverage matrix of the extractions |
| Matrix.MatrixBuilder.CoverageDomainList | src/comparison/matrix_builder.py:64-78 | the sorted union of the extractions' domains and the standard domains |
| Matrix.MatrixBuilder.BuildCoverageRows | src/comparison/matrix_builder.py:77-100 | one coverage row per domain, in order |
| Matrix.MatrixBuilder.BuildCoverageRow | src/comparison/matrix_builder.py:79-98 | one domain's coverage row |
| Matrix.MatrixBuilder.BuildSafeguardMatrix | src/comparison/matrix_builder.py:104-136 | the safeguard matrix of the extractions |
| Matrix.MatrixBuilder.BuildSafeguardRow | src/comparison/matrix_builder.py:115-132 | one type's safeguard row |
| Matrix.MatrixBuilder.BuildCommitmentMatrix | src/comparison/matrix_builder.py:138-165 | the commitment matrix of the extractions |
| Matrix.MatrixBuilder.BuildCommitmentRow | src/comparison/matrix_builder.py:149-161 | one type's commitment row |
| Matrix.MatrixBuilder.GetSummaryStats | src/comparison/matrix_builder.py:236-273 | the summary statistics of the extractions |
| Matrix.MatrixBuilder.CountDomains | src/comparison/matrix_builder.py:244-260 | per-lab coverage counts, keyed by lab |
| Matrix.MatrixBuilder.CountLevels | src/comparison/matrix_builder.py:262-266 | per-lab threshold counts, keyed by lab |
| Enums.ParseRiskDomainType | src/extraction/schema_validator.py:10-23 | a string parses to a risk domain exactly when it is that domain's value |
| Enums.ParseCoverageLevel | src/extraction/schema_validator.py:26-30 | a string parses to a coverage level exactly when it is that level's value |
| Enums.ParseSafeguardType | src/extraction/schema_validator.py:33-40 | a string parses to a safeguard type exactly when it is that type's value |
| Enums.ParseEvaluationType | src/extraction/schema_validator.py:43-49 | a string parses to an evaluation type exactly when it is that type's value |
| Enums.ParseCommitmentType | src/extraction/schema_validator.py:52-58 | a string parses to a commitment type exactly when it is that type's value |
| Enums.RiskDomainValuesDistinct | src/extraction/schema_validator.py:10-23 | the twelve risk domain values are distinct and made of lower-case letters and underscores |
| Validator.SetDefault | src/extraction/schema_validator.py:235-236 | the key ends up holding its old value, or the default when it had none; a present key changes nothing |
| Validator.EnsureList | src/extraction/schema_validator.py:243-248 | an absent or null key becomes an empty list; any other value is left alone |
| Validator.DefaultsKeep | src/extraction/schema_validator.py:232-248 | filling one key leaves every other key untouched |
| Validator.PutIsDictIf | src/extraction/schema_validator.py:201-228 | assigning a key keeps a dictionary's keys distinct |
| Validator.LevelId | src/extraction/schema_validator.py:239-240 | the generated level id has the name's length and no space, hyphen or upper-case letter |
| Validator.DomainName | src/extraction/schema_validator.py:224-226 | the normalised domain name has the name's length, no space or upper-case letter, and a hyphen exactly where the name has one |
| Validator.DomainNameIdempotent | src/extraction/schema_validator.py:224-226 | normalising a normalised domain name changes nothing |
| Validator.SchemaAfterRepair | src/extraction/schema_validator.py:99-103 | the schema's domain validator gives the same name whether or not the repair normalised it first |
| Validator.RepairKeepsHyphen | src/extraction/schema_validator.py:224-226 | "Model-Autonomy" is repaired to "model-autonomy", which is no risk domain value, while the schema's validator maps it to "model_autonomy" |
| Validator.FixThreshold | src/extraction/schema_validator.py:230-250 | the repair succeeds exactly on a dict that has a level id or whose level name is a string, and yields a dict |
| Validator.FixThresholdFields | src/extraction/schema_validator.py:234-248 | level_name defaults to name then "Unknown Level"; level_id is kept or derived from the level name; null or absent triggers and required_safeguards become empty lists |
| Validator.FixThresholdKeeps | src/extraction/schema_validator.py:232 | every other field of the threshold is copied unchanged |
| Validator.FixDomain | src/extraction/schema_validator.py:252-268 | the repair succeeds exactly on a dict and yields a dict |
| Validator.FixDomainFields | src/extraction/schema_validator.py:256-266 | domain defaults to "other", coverage to "partial", and null or absent thresholds become an empty list |
| Validator.FixDomainKeeps | src/extraction/schema_validator.py:254 | every other field of the domain is copied unchanged |
| Validator.NormalizeDomain | src/extraction/schema_validator.py:224-226 | a present domain name is replaced by its normalised form; the step raises when it is not a string |
| Validator.NormalizeDomainKeeps | src/extraction/schema_validator.py:224-226 | normalising leaves every other field untouched |
| Validator.FixThresholdIdempotent | src/extraction/schema_validator.py:230-250 | repairing a repaired threshold changes nothing |
| Validator.FixDomainIdempotent | src/extraction/schema_validator.py:219-226 | a repaired and normalised domain is left unchanged by both steps |
| Validator.MapResult | src/extraction/schema_validator.py:214-221 | the list comprehension succeeds exactly when every element's repair does, and then repairs each element in place |
| Validator.MapResultIdentity | src/extraction/schema_validator.py:214-221 | a comprehension whose steps change nothing returns the list unchanged |
| Validator.EnsureLists | src/extraction/schema_validator.py:208-211 | each listed key that is absent or null becomes an empty list; every other key keeps its value |
| Validator.WithDefaults | src/extraction/schema_validator.py:201-211 | after the defaults, lab_info is truthy (kept when it already was), the five list keys are present and non-null, and nothing else changes |
| Validator.WithLabInfo | src/extraction/schema_validator.py:204-205 | an absent or falsy lab_info becomes the "Unknown" lab; other keys are untouched |
| Validator.LabInfoNotAList | src/extraction/schema_validator.py:204-211 | lab_info is not one of the list keys |
| Validator.DefaultsHaveLists | src/extraction/schema_validator.py:208-211 | thresholds and risk domains are present after the defaults |
| Validator.WithDefaultsNoop | src/extraction/schema_validator.py:201-211 | a record that already has its lab info and all its lists is left unchanged |
| Validator.FixedThresholds | src/extraction/schema_validator.py:214-216 | the repaired thresholds are all dicts |
| Validator.FixedDomains | src/extraction/schema_validator.py:219-226 | the repaired and normalised domains are all dicts |
| Validator.MapEach | src/extraction/schema_validator.py:214-221 | the loop repairs each element, and raises on the first failure |
| Validator.MapResultStep | src/extraction/schema_validator.py:214-221 | each step appends one repaired element, and one failing element fails the whole list |
| Validator.FixCommonIssues | src/extraction/schema_validator.py:192-228 | the repair method computes the repaired record, raising exactly when a step raises |
| Validator.DomainsAfterThresholds | src/extraction/schema_validator.py:214-221 | replacing the thresholds does not affect the domain repair |
| Validator.RepairThresholds | src/extraction/schema_validator.py:214-216 | the threshold step computes the repaired thresholds |
| Validator.RepairDomains | src/extraction/schema_validator.py:219-226 | the domain step raises exactly when the domain repair does, and otherwise stores the repaired domains |
| Validator.AddDefaults | src/extraction/schema_validator.py:201-211 | the default step computes the record with its defaults |
| Validator.EnsureEach | src/extraction/schema_validator.py:208-211 | the loop fills every list key |
| Validator.EnsureListsStep | src/extraction/schema_validator.py:208-211 | each loop step fills one more key |
| Validator.NormalizeEach | src/extraction/schema_validator.py:224-226 | the in-place loop normalises each domain name |
| Validator.InPlaceStep | src/extraction/schema_validator.py:224-226 | updating one element in place keeps the later ones and extends the finished prefix |
| Validator.FixedSections | src/extraction/schema_validator.py:192-228 | the repaired record holds the repaired thresholds and domains, and every other key as after the defaults |
| Validator.FixedKeepsOrder | src/extraction/schema_validator.py:201-228 | the repaired record has the same keys in the same order as the record with its defaults |
| Validator.FixedThresholdsRepaired | src/extraction/schema_validator.py:234-248 | every repaired threshold has a level name, a level id and non-null trigger and safeguard lists |
| Validator.FixedDomainsRepaired | src/extraction/schema_validator.py:219-226 | every repaired domain has a coverage, a thresholds list and a normalised string name |
| Validator.DomainRepaired | src/extraction/schema_validator.py:252-268 | a repaired, normalised domain has all the fields the repair guarantees |
| Validator.FixedIdempotent | src/extraction/schema_validator.py:192-228 | repairing a repaired record changes nothing |
| Validator.FixedDefaultsKept | src/extraction/schema_validator.py:201-211 | the repaired record has a truthy lab_info and all five lists present and non-null |
| Validator.DefaultsWf | src/extraction/schema_validator.py:201-211 | the defaults keep the risk domains well formed |
| Validator.FixedThresholdsAgain | src/extraction/schema_validator.py:214-216 | repairing already repaired thresholds gives them back |
| Validator.FixedDomainsAgain | src/extraction/schema_validator.py:219-226 | repairing already repaired domains gives them back |
| Checks.MissingDescriptionInjective | src/extraction/schema_validator.py:288-290 | two missing-description warnings are equal only for the same threshold number |
| Checks.SectionWarnings | src/extraction/schema_validator.py:274-285 | each of the four "No ... defined" warnings appears exactly when its section is absent or empty |
| Checks.SectionWarningsDistinct | src/extraction/schema_validator.py:274-285 | the four section warnings are different texts |
| Checks.DescriptionWarnings | src/extraction/schema_validator.py:287-290 | the description check raises exactly when some threshold is not a dict, and otherwise gives at most one warning per threshold |
| Checks.DescriptionWarningsExact | src/extraction/schema_validator.py:287-290 | "Threshold n missing description" appears exactly when the n-th threshold (1-based) has no truthy description |
| Checks.UndescribedFrom | src/extraction/schema_validator.py:287-290 | the numbers of the undescribed thresholds, counted from a start, lie in range and strictly increase |
| Checks.UndescribedFromSnoc | src/extraction/schema_validator.py:287-290 | a threshold added at the end adds its own number, if undescribed, after the others |
| Checks.DescriptionWarningsInOrder | src/extraction/schema_validator.py:287-290 | the warnings are exactly "Threshold n missing description" for each undescribed threshold n (counted from 1), in increasing n |
| Checks.CompletenessWarnings | src/extraction/schema_validator.py:270-292 | the check raises exactly when the thresholds cannot be iterated or one is not a dict, and it keeps every section warning |
| Checks.CompletenessExact | src/extraction/schema_validator.py:270-292 | in the full completeness check, threshold n is reported exactly when it lacks a description |
| Checks.NotASectionWarning | src/extraction/schema_validator.py:274-290 | a missing-description warning is never mistaken for a section warning |
| Checks.CheckCompleteness | src/extraction/schema_validator.py:270-292 | the method computes the completeness warnings |
| Checks.AppendDescriptionWarnings | src/extraction/schema_validator.py:287-290 | the loop appends the description warnings to those already found, and raises when the check does |
| Checks.SectionWarningsSteps | src/extraction/schema_validator.py:274-285 | the four conditional appends build the section warnings |
| Checks.DescriptionStep | src/extraction/schema_validator.py:288-290 | a non-dict threshold raises; an undescribed one appends its numbered warning; a described one adds nothing |
| Checks.CompletenessAfterRepair | src/extraction/schema_validator.py:192-292 | the completeness check never raises on a repaired record |
| Checks.RepairedThresholds | src/extraction/schema_validator.py:214-216 | a repaired record's thresholds are an iterable list of dicts |
| Checks.FieldSet | src/extraction/schema_validator.py:299 | the set comprehension raises unless every item is a dict with a hashable field; it then holds exactly the items' field values, and is empty exactly for no items |
| Checks.ConcatMap | src/extraction/schema_validator.py:302-315 | the nested loop succeeds exactly when every step does, and collects exactly the steps' warnings |
| Checks.ConcatMapStep | src/extraction/schema_validator.py:302-315 | each step appends its warnings, and a raising step makes the whole loop raise |
| Checks.LevelWarning | src/extraction/schema_validator.py:303-305 | a hashable level warns exactly when the threshold levels are non-empty and do not contain it; an unhashable one raises |
| Checks.LevelWarnings | src/extraction/schema_validator.py:303-305 | a safeguard's levels warn exactly as their individual checks do, and raise on an unhashable level |
| Checks.LevelWarningsStep | src/extraction/schema_validator.py:303-305 | each level appends its warning; an unhashable level makes the loop raise |
| Checks.SafeguardWarnings | src/extraction/schema_validator.py:302-305 | a safeguard's warnings are those of its applicable levels, and none when no threshold has a level |
| Checks.SafeguardWarningsExact | src/extraction/schema_validator.py:302-305 | a warning is reported exactly for an applicable level missing from non-empty threshold levels |
| Checks.TriggerWarning | src/extraction/schema_validator.py:312-315 | the trigger check raises unless the trigger is a dict whose truthy domain is a string; it warns exactly about a non-empty domain whose lower case is neither covered nor "any" |
| Checks.EachTriggerWarning | src/extraction/schema_validator.py:312-315 | a threshold's triggers warn exactly as their individual checks do |
| Checks.EachTriggerWarningStep | src/extraction/schema_validator.py:312-315 | each trigger appends its warnings; a raising trigger makes the loop raise |
| Checks.TriggerWarnings | src/extraction/schema_validator.py:311-315 | a threshold's warnings are those of its triggers |
| Checks.AllSafeguardWarnings | src/extraction/schema_validator.py:302-305 | the safeguard loop succeeds exactly when every safeguard does, and reports exactly their warnings |
| Checks.AllTriggerWarnings | src/extraction/schema_validator.py:311-315 | the threshold loop succeeds exactly when every threshold does, and reports exactly their warnings |
| Checks.ConsistencyRaises | src/extraction/schema_validator.py:294-317 | the consistency check succeeds exactly when every section iterates, both sets can be built and both loops succeed |
| Checks.ConsistencyExact | src/extraction/schema_validator.py:294-317 | a warning is reported exactly when a safeguard or a threshold's trigger reports it |
| Checks.NoThresholdsNoWarnings | src/extraction/schema_validator.py:304 | a record without thresholds gets no consistency warning |
| Checks.CheckConsistency | src/extraction/schema_validator.py:294-317 | the method computes the consistency warnings |
| Checks.CollectField | src/extraction/schema_validator.py:299 | the loop collects the field set |
| Checks.CheckSafeguards | src/extraction/schema_validator.py:302-305 | the loop computes all safeguard warnings |
| Checks.CheckSafeguard | src/extraction/schema_validator.py:303-305 | the loop computes one safeguard's warnings |
| Checks.CheckTriggers | src/extraction/schema_validator.py:311-315 | the loop computes all trigger warnings |
| Checks.CheckThresholdTriggers | src/extraction/schema_validator.py:312-315 | the loop computes one threshold's trigger warnings |
| Extractor.MergedKeysDistinct | src/extraction/llm_extractor.py:243-244 | the five merged list keys are distinct |
| Extractor.DeduplicatedKeysDistinct | src/extraction/llm_extractor.py:251 | the three de-duplicated keys are distinct |
| Extractor.DefaultExtraction | src/extraction/llm_extractor.py:276-286 | the default extraction has lab_info, the five list keys and metadata, in that order, and every value is empty |
| Extractor.DefaultListsEmpty | src/extraction/llm_extractor.py:280-284 | each merged list key starts as an empty list |
| Extractor.FirstTruthy | src/extraction/llm_extractor.py:263-269 | the first truthy field among level_name, domain, name and type, or the fallback when none is truthy |
| Extractor.DedupList | src/extraction/llm_extractor.py:257-274 | de-duplication raises exactly when some item is not a dict or its key is unhashable |
| Extractor.DedupListSpec | src/extraction/llm_extractor.py:257-274 | the result keeps the first item of each key, in order, with distinct keys, and loses no key |
| Extractor.DeduplicateList | src/extraction/llm_extractor.py:257-274 | the seen-set loop computes the de-duplicated list |
| Extractor.ExtendKey | src/extraction/llm_extractor.py:245-248 | extending one key raises exactly when the chunk's value is truthy and either the merged value is not a list or the chunk's value cannot be iterated |
| Extractor.ExtendKeyAt | src/extraction/llm_extractor.py:245-248 | after one key is extended it holds the old list (or a fresh one) followed by the chunk's items; every other key is unchanged |
| Extractor.ExtendChunk | src/extraction/llm_extractor.py:243-248 | extending by one chunk keeps the merged keys distinct |
| Extractor.ExtendChunkAt | src/extraction/llm_extractor.py:243-248 | after one chunk, each merged key holds its old list followed by the chunk's contribution |
| Extractor.ExtendAll | src/extraction/llm_extractor.py:242-248 | extending by all later chunks keeps the keys distinct |
| Extractor.ExtendAllAt | src/extraction/llm_extractor.py:242-248 | after all chunks, each merged key holds the base list followed by every later chunk's items in chunk order; other keys are the base's |
| Extractor.ExtendedStep | src/extraction/llm_extractor.py:242-248 | extending by one chunk and then by the rest is extending by all |
| Extractor.DedupValue | src/extraction/llm_extractor.py:253 | de-duplicating a field raises exactly when it cannot be iterated or its list cannot be de-duplicated |
| Extractor.DedupField | src/extraction/llm_extractor.py:252-253 | de-duplicating one field keeps the keys distinct |
| Extractor.DedupFieldOf | src/extraction/llm_extractor.py:252-253 | an absent field is skipped; a present one is replaced by its de-duplicated list, or the step raises |
| Extractor.DedupFieldAt | src/extraction/llm_extractor.py:252-253 | only the de-duplicated field changes |
| Extractor.DedupSections | src/extraction/llm_extractor.py:251-253 | de-duplicating several fields keeps the keys distinct |
| Extractor.DedupSectionsAt | src/extraction/llm_extractor.py:251-253 | each listed present field holds its de-duplicated list; every other field is unchanged |
| Extractor.DedupAll | src/extraction/llm_extractor.py:251-253 | the final de-duplication keeps the keys distinct |
| Extractor.MergeValues | src/extraction/llm_extractor.py:231-255 | no chunks give the default extraction; one chunk is returned as is; more keep the first chunk's keys distinct |
| Extractor.MergeAt | src/extraction/llm_extractor.py:231-255 | each key of the merge holds the extended value, de-duplicated for thresholds, domains and safeguards |
| Extractor.MergeDeduplicates | src/extraction/llm_extractor.py:240-253 | a de-duplicated key of the merge keeps, in order, the first item of each key among the first chunk's items and the later chunks' items |
| Extractor.ListObj.constructor | src/extraction/llm_extractor.py:240-248 | a new list object holds the given items |
| Extractor.ListObj.Extend | src/extraction/llm_extractor.py:248 | `extend` appends the items in place |
| Extractor.ViewOf | src/extraction/llm_extractor.py:240-255 | the value of a chunk reads each list field from its list object |
| Extractor.Views | src/extraction/llm_extractor.py:231-255 | the values of the chunks, in order |
| Extractor.GetView | src/extraction/llm_extractor.py:245-253 | looking a key up in a chunk's value reads the chunk's field |
| Extractor.DefaultChunkReads | src/extraction/llm_extractor.py:276-286 | a chunk built from five distinct empty lists reads as the default extraction |
| Extractor.DefaultChunkRefs | src/extraction/llm_extractor.py:276-286 | the default chunk refers only to its five lists |
| Extractor.NewDefault | src/extraction/llm_extractor.py:276-286 | a fresh default extraction with fresh empty lists |
| Extractor.ExtendOne | src/extraction/llm_extractor.py:245-248 | extending one key in place raises exactly when the value-level step does, and otherwise leaves the merged chunk reading as that step's result |
| Extractor.ExtendList | src/extraction/llm_extractor.py:246-248 | the key's list, new if it was absent, ends with the given items |
| Extractor.ExtendFrom | src/extraction/llm_extractor.py:243-248 | extending by one chunk in place matches the value-level step |
| Extractor.AppendList | src/extraction/llm_extractor.py:246-247 | an absent key gets a new list holding the items |
| Extractor.ExtendAt | src/extraction/llm_extractor.py:248 | extending one list object in place changes exactly that key's value |
| Extractor.DedupOne | src/extraction/llm_extractor.py:252-253 | de-duplicating one key in place matches the value-level step, stores a new list and changes no other key |
| Extractor.DedupPresent | src/extraction/llm_extractor.py:253 | a present key's list is replaced by a new, de-duplicated one |
| Extractor.DedupItems | src/extraction/llm_extractor.py:253 | the items are de-duplicated, or the step raises as the value-level step does |
| Extractor.ReplaceList | src/extraction/llm_extractor.py:253 | the key is bound to a new list holding the items; nothing else changes |
| Extractor.DedupLists | src/extraction/llm_extractor.py:250-253 | the in-place de-duplication matches the value-level step, binds new lists and leaves the other keys alone |
| Extractor.MergeExtractions | src/extraction/llm_extractor.py:231-255 | the merge raises exactly when the value-level merge does and otherwise reads as its result; no chunks give a fresh default; one chunk is returned itself; with more, the first chunk's own lists are extended in place, because the copy is shallow |
| Extractor.MergeSeveral | src/extraction/llm_extractor.py:240-255 | the merge of two or more chunks, with the same in-place effect on the first chunk's lists |
| Extractor.FirstChunkExtended | src/extraction/llm_extractor.py:240-248 | the first chunk shares its lists with the shallow copy and so sees every extension |
| Extractor.ExtendChunks | src/extraction/llm_extractor.py:242-248 | extending by every later chunk in place matches the value-level step |
| Extractor.ViewReplace | src/extraction/llm_extractor.py:247 | rebinding a key of a chunk changes only that key's value |
| Extractor.ViewPrefix | src/extraction/llm_extractor.py:240-248 | the value of a chunk's prefix is a prefix of its value |
| Extractor.ReplaceParsed | src/extraction/llm_extractor.py:253 | binding a key to a new list keeps the chunk's lists distinct |
| Extractor.ViewAppend | src/extraction/llm_extractor.py:247 | adding a key appends its value |
| Extractor.AppendParsed | src/extraction/llm_extractor.py:247 | adding a key bound to a new list keeps the chunk's lists distinct |
| Helpers.TruncateText | src/utils/helpers.py:75-88 | a text within the limit is returned unchanged; a longer one ends with the suffix and, when the suffix fits, is exactly the limit long; a suffix longer than the limit follows Python's negative-index slice |
| Helpers.TruncateBound | src/utils/helpers.py:86-88 | with a suffix that fits, the result is never longer than the limit or the text |
| Helpers.Alias | src/utils/helpers.py:101-120 | every alias maps to one of the twelve canonical lab ids |
| Helpers.NormalizeLabName | src/utils/helpers.py:122-123 | the name is lower-cased, stripped and has '-' and '_' read as spaces; a known alias then gives its canonical id, any other key has its spaces turned into underscores; the result has no hyphen and no space |
| Helpers.AliasTargets | src/utils/helpers.py:101-120 | every alias target is plain and maps to itself |
| Helpers.CanonicalIdsPlain | src/utils/helpers.py:101-120 | each canonical id is plain and maps to itself |
| Helpers.StripLeftKeeps | src/utils/helpers.py:122 | stripping the left keeps a suffix of the text that does not start with white space |
| Helpers.StripRightKeeps | src/utils/helpers.py:122 | stripping the right keeps a prefix of the text that does not end with white space |
| Helpers.StripKeeps | src/utils/helpers.py:122 | the stripped text keeps only the text's characters and neither starts nor ends with white space |
| Helpers.StripNoop | src/utils/helpers.py:122 | a text without white space at its ends is left unchanged by strip |
| Helpers.NormalizedKeyShape | src/utils/helpers.py:122 | the normalised key has no upper-case letter, hyphen or underscore, and its ends are a space or not white space |
| Helpers.NormalizeIdempotent | src/utils/helpers.py:91-123 | normalising a normalised lab name changes nothing |
| Helpers.PlainIsFixed | src/utils/helpers.py:122 | the key of a plain name is the name itself |
| Helpers.NormalizeExamples | src/utils/helpers.py:91-123 | "Open-AI" gives "openai", "Google_DeepMind" gives "deepmind", "AWS" gives "amazon" and "Mistral-AI" gives "mistral_ai" |
| Helpers.OpenAiExample | src/utils/helpers.py:104 | "Open-AI" normalises to "openai" |
| Helpers.DeepMindExample | src/utils/helpers.py:106 | "Google_DeepMind" normalises to "deepmind" |
| Helpers.AwsExample | src/utils/helpers.py:112 | "AWS" normalises to "amazon" |
| Helpers.MistralExample | src/utils/helpers.py:122-123 | "Mistral-AI" is no alias and becomes "mistral_ai" |
| Helpers.KeyOf | src/utils/helpers.py:122 | a name whose lower case has no white space at its ends has as key that lower case with '-' and '_' read as spaces |
| Suggester.RecommendationIdsDistinct | src/harmonization/language_suggester.py:46-181 | the seven recommendation ids are distinct |
| Suggester.CatalogueIds | src/harmonization/language_suggester.py:46-181 | the catalogue lists HARM-001 to HARM-007 in order, without a repeated id |
| Suggester.CatalogueShape | src/harmonization/language_suggester.py:46-181 | every recommendation has one of the four categories, priority high or medium, and "EU AI Office" first in its audience |
| Suggester.LanguageSuggester.constructor | src/harmonization/language_suggester.py:187-189 | a missing extractions argument becomes empty; the suggester holds the whole catalogue |
| Suggester.LanguageSuggester.GetRecommendations | src/harmonization/language_suggester.py:191-192 | the instance's catalogue itself, carrying HARM-001 to HARM-007 in order, each id once |
| Suggester.LanguageSuggester.GetByCategory | src/harmonization/language_suggester.py:194-195 | exactly the recommendations of the category, in order |
| Suggester.LanguageSuggester.GetByPriority | src/harmonization/language_suggester.py:197-198 | exactly the recommendations of the priority, in order |
| Suggester.LanguageSuggester.GetForAudience | src/harmonization/language_suggester.py:200-201 | exactly the recommendations with an audience entry containing the audience case-insensitively, in order |
| Suggester.CatalogueByCategory | src/harmonization/language_suggester.py:46-181 | terminology is HARM-001 and 007, threshold 002 and 003, safeguard 004, process 005 and 006 |
| Suggester.CatalogueByPriority | src/harmonization/language_suggester.py:46-181 | high is HARM-001, 002, 003 and 005; medium is 004, 006 and 007; none is low |
| Suggester.CatalogueOrder | src/harmonization/language_suggester.py:46-181 | the catalogue holds seven recommendations in id order |
| Suggester.CategoryPartition | src/harmonization/language_suggester.py:194-195 | the four category filters split the recommendations 2, 2, 1, 2 |
| Suggester.PriorityCounts | src/harmonization/language_suggester.py:197-198 | four high, three medium, no low |
| Suggester.AudienceIgnoresCase | src/harmonization/language_suggester.py:200-201 | the audience filter ignores the case of its argument |
| Suggester.EveryRecommendationForEurope | src/harmonization/language_suggester.py:200-201 | every recommendation applies to "EU AI Office", and the empty audience matches all |
| Prebuilt.PrebuiltIsDict | src/extraction/llm_extractor.py:296-724 | the prebuilt extractions are keyed by anthropic, openai, deepmind and meta, once each |
| Prebuilt.GetPrebuiltExtraction | src/extraction/llm_extractor.py:727-736 | a lab name finds a prebuilt extraction exactly when its lower case is a prebuilt lab, and then finds that lab's record |
| Prebuilt.PrebuiltIgnoresCase | src/extraction/llm_extractor.py:736 | the lookup ignores case |
| Prebuilt.PrebuiltLookups | src/extraction/llm_extractor.py:727-736 | "Anthropic" and "DeepMind" find their records; "xai" finds none |
| Prebuilt.DomainsInPlain | src/comparison/gap_analyzer.py:343-352 | a record whose domain names are non-empty and lower case contributes exactly those names |
| Prebuilt.RecordDomainNamesUnion | src/extraction/llm_extractor.py:296-724 | the prebuilt domain set is the union of the four records' domain lists |
| Prebuilt.PrebuiltDomainsPlain | src/extraction/llm_extractor.py:296-724 | every prebuilt domain name is non-empty and lower case |
| Prebuilt.RecordDomains | src/extraction/llm_extractor.py:296-724 | each prebuilt record names exactly its listed domains |
| Prebuilt.RecordDomainsOf | src/extraction/llm_extractor.py:296-724 | a record equal to a prebuilt one names exactly that lab's listed domains |
| Records.LabsOrDefault | src/comparison/matrix_builder.py:75 | the extraction labs in order, or the four default labs when there are none |
| Records.DomainsIn | src/comparison/gap_analyzer.py:348-350 | exactly the lower-cased non-empty domain names of the risk domains |
| Records.DomainsOf | src/comparison/gap_analyzer.py:343-352 | exactly the lower-cased non-empty domain names of all extractions |
| Records.DomainsOfListed | src/comparison/gap_analyzer.py:343-352 | when each record names known domains, the extractions' domains are their union |
| Records.DomainsAreLower | src/comparison/gap_analyzer.py:350 | every collected domain is lower case |
| Records.CollectDomains | src/comparison/gap_analyzer.py:343-352 | the loop returns exactly the domains of all extractions |
| Records.AddDomainsIn | src/comparison/gap_analyzer.py:348-350 | the inner loop returns the domains seen so far plus exactly one record's domains |
| Records.DomainsOfStep | src/comparison/gap_analyzer.py:347-350 | the outer loop adds one extraction's domains per step |
| Records.DomainsInStep | src/comparison/gap_analyzer.py:348-350 | the inner loop adds a risk domain's name when it has one |
| Scenarios.PrebuiltDomainSet | src/extraction/llm_extractor.py:296-724 | the prebuilt extractions name exactly the prebuilt domains |
| Scenarios.DomainCodes | src/comparison/gap_analyzer.py:320 | the three-letter codes of the six standard domains, "AI_" for ai_rd |
| Scenarios.CoveredEverywhere | src/comparison/gap_analyzer.py:301-319 | cbrn, cyber and autonomy are covered by all four labs and give no dynamic gap |
| Scenarios.CuratedDomainsSuppressed | src/comparison/gap_analyzer.py:319-323 | persuasion and deception give no dynamic gap, because a curated id has their COV prefix |
| Scenarios.AiRdCoveredBy | src/extraction/llm_extractor.py:383-385 | only Anthropic covers ai_rd |
| Scenarios.OnlyFirstNamesAiRd | src/extraction/llm_extractor.py:296-724 | no prebuilt record but Anthropic's names ai_rd |
| Scenarios.NotCoveredUnlessNamed | src/comparison/gap_analyzer.py:305-311 | a record that does not name a domain does not cover it |
| Scenarios.AiRdLabs | src/comparison/gap_analyzer.py:301-316 | on the prebuilt extractions ai_rd is covered by anthropic and missed by openai, deepmind and meta |
| Scenarios.NoAiRdPrefix | src/comparison/gap_analyzer.py:323 | no curated id starts with "COV-AI_" |
| Scenarios.AiRdGap | src/comparison/gap_analyzer.py:319-333 | ai_rd yields the dynamic gap "COV-AI_-DYN" listing openai, deepmind and meta |
| Scenarios.KnownHighGaps | src/comparison/gap_analyzer.py:71-220 | the high-severity curated gaps are, in order, the autonomy, AI R&D and CBRN threshold gaps, the terminology gap and the pause-definition gap |
| Scenarios.OnlyAiRdGap | src/comparison/gap_analyzer.py:319-333 | every other prebuilt domain yields no dynamic gap |
| Scenarios.PrebuiltCoverageGaps | src/comparison/gap_analyzer.py:295-335 | on the prebuilt extractions the coverage analysis finds only the ai_rd gap |
| Scenarios.PrebuiltAnalysis | src/comparison/gap_analyzer.py:235-261 | analysing the prebuilt extractions gives the ten curated gaps followed by the ai_rd gap |
| Scenarios.PrebuiltGapCounts | create_submission.py:325-326 | eleven gaps, five of them high severity |
| Scenarios.PrebuiltReport | create_submission.py:325-326 | the report counts eleven gaps and five high-severity ones |
| Scenarios.ReportCounts | create_submission.py:325-326 | the analysis of the prebuilt extractions and its high-severity filter have eleven and five gaps |
| Seqs.DedupKeys | src/comparison/gap_analyzer.py:252-260 | a seen-set deduplication keeps every key at most once, never a key already seen, and exactly the keys of the input not seen before |
| Seqs.DedupKeepsFirst | src/comparison/gap_analyzer.py:255-258 | the first item with an unseen key is kept |
| Seqs.DedupOnlyFirst | src/comparison/gap_analyzer.py:255-258 | every kept item is the first of its key in the input |
| Seqs.DedupSubsequence | src/comparison/gap_analyzer.py:252-260 | deduplication keeps the input order |
| Seqs.DedupIdempotent | src/extraction/llm_extractor.py:257-274 | deduplicating twice is deduplicating once |
| Seqs.DedupIdentity | src/extraction/llm_extractor.py:257-274 | an input with distinct unseen keys is left unchanged |
| Seqs.DedupAppend | src/extraction/llm_extractor.py:257-274 | deduplicating a concatenation dedups the second part against the keys of the first |

## Left out

- LLM extraction itself (the Anthropic client, the prompt, stripping code fences, parsing the JSON reply, the datetime metadata) and the command-line `main` of `src/extraction/llm_extractor.py`: network, clock and file I/O. The prebuilt records are used only as fixed input data.
- `src/extraction/pdf_parser.py` is not part of this model: PDF file I/O, regular-expression clean-up and floating-point token estimates.
- Pydantic validation (`RSPExtractionModel`, `RSPValidator.validate`, `validate_extraction`, `validate_and_fix`): a foreign library; only the repair and the two warning checks are modelled.
- All `print_*` console output (including the display sort in `print_gap_report`) and all `export_*` file writes; pandas data frames are modelled as rows of string maps, so their column order is not modelled.
- `Recommendation.to_dict` and the recommendations' prose (current state, proposed language, rationale, implementation notes): no filter reads them, so the catalogue keeps only ids, topics, categories, priorities, confidences and audiences.
- `src/harmonization/regulator_output.py`, `visualization/`, `config/settings.py`, `create_submission.py` and `main.py` are not part of this model; the figures `create_submission.py` prints serve only as expected values for `Scenarios`.
- `ensure_dir`, `load_json`, `save_json` and `format_date` in `src/utils/helpers.py`: file system and clock.
- Floating point: `confidence_score` and other JSON numbers are modelled as integers; no modelled code computes with them.
- Case mapping is ASCII only (`lower`, `upper`, `title`, `strip` white space); Unicode case folding is not modelled.
- `str()` and `repr()` of nested values, used as the last-resort key in `_deduplicate_list` and in warnings, are modelled by `Json.Show` and `Json.Repr`, which do not reproduce Python's exact spacing and quoting.
- Records: the comparison engine reads extraction records through a typed view in which a field is either absent or a string, so a JSON `null` (or another non-string value) in such a field is not represented. For a null risk-domain `domain`, safeguard `type` or `name`, or commitment `type` the source raises where it calls `.lower()` or slices, so only the raise is lost. A null `coverage` does not raise. In the gap analysis and the summary statistics it behaves like an absent coverage (not covering; neither full nor partial), which the model has. The coverage matrix, however, shows "?" for a null coverage and the partial symbol for an absent one, and the model captures only the absent case. A null `level_name` or `level_id` of an uncurated lab's threshold is stored as `None` by the inference and shown as "None ?" in the comparison matrix, raising only later at `.lower()` in `get_unified_level`; the model does not capture this either.
- Gaps.GapAnalyzer.FindThresholdGaps: always returns no gaps, as the source does, but does not model its raise: when two or more labs name a domain, the source iterates each matching risk domain's `thresholds` and calls `.get` on every item, so a `null` or non-list `thresholds`, or a non-dict item, raises out of `analyze_all`; the typed record view has no `thresholds` field of risk domains, so the model cannot express this.
- Gaps.CoverageGaps: Python iterates the domain set in an unspecified order; the model iterates it in sorted order, and the properties are stated per domain, not by position.
- Extractor.MergeExtractions: chunks are modelled as JSON objects only. A model reply that parses to another JSON value (a list, a number, a string) is not modelled: as first chunk the source raises at `merged[key] = []`, as a later chunk it is skipped or raises at `key in ext`. The method also requires the first chunk's list fields to be distinct list objects, not shared with the other chunks, as they are when every chunk comes from its own `json.loads`.
- The state a method leaves behind after raising part-way (a partly extended list) is not modelled; a raise is a result value.
- `_fix_threshold`, `_fix_domain` and the loop of `fix_common_issues` are modelled on values: the source copies each dictionary before changing it, so no aliasing is lost.
- Confidence is an enumeration in the model, so the empty fallback marker of the confidence lookup in `build_comparison_matrix`, which only an unknown confidence string could reach, is not modelled.
- The terminology table printed by `create_submission.py` abbreviates Meta's tier names ("Tier 1"); the model uses the full names of the curated table in `src/comparison/terminology_mapper.py`.
