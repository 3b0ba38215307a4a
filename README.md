# Analytical instrument recommender — a Dafny model

The system gives advice about analytical chemistry. Given a description of a sample, it recommends a laboratory instrument such as
LC-MS/MS, HPLC-UV/DAD, GC-MS, SEC/CEX-HPLC, ICP-MS or CE. It draws on two sources:

- a literature sheet of prior studies, where each row has a matrix, a purpose, a molecule type and the
  instrument category it used;
- a fixed set of expert rules.

The recommender exists in three variants. This project models each one and proves properties of it.

- **Physicochemical scorer** (`2_fizikokimyasal_analiz.py`, the decision block of
  `main`). This variant is imperative and changes state step by step.
  - Loading fills every empty cell with `Belirtilmemiş`.
  - Four dropdowns narrow the sheet with equality conditions. `Filtreleme Yok` and `Belirtilmemiş` mean no
    constraint.
  - A six-entry score table starts at zero. Five fixed-weight rules then change it in place, based on solubility,
    volatility, molecular weight, optics and expected concentration.
  - The most frequent instrument of the narrowed sheet gets one point of literature bonus.
  - The first best-scoring instrument wins. The result is `Belirsiz` when nothing at all supports a choice.
  - A note about derivatization is appended when GC-MS wins for a large molecule.

  The model keeps the score table as an `array<int>` updated in place by one method per rule. A loop builds the
  query, another runs it, and a one-pass maximum finds the winner. Each method is proved equal to a specification
  function (`RuleScores`, `RuleReasons`, `Where`, `BestSlot`, `Conclude`, `Decide`). The lemmas are stated about
  those functions.
- **Evidence-first recommender** (`arayuz_sistemi.py`, `analitik_oner`). This variant is pure.
  - It selects the rows whose matrix and purpose contain the inputs. Characters are compared ignoring case, the
    way a regular expression with IGNORECASE compares them, so `I`, `i`, `ı` and `İ` all match one another.
    A missing cell in a column that holds text never matches.
  - With two or more such rows it answers with their most frequent instrument and its share of the rows.
  - Otherwise it tries six keyword rules on the lowercased inputs. The first rule that fires gives the answer.
  - When no rule fires, it asks the user to clarify the input.
- **Older evidence-first recommender** (`analiz_sistemi.py`, `analitik_oner`). It is pure and has the same shape,
  with three differences:
  - its filter has no handling of missing cells, so the model requires every matrix and purpose cell to be
    present;
  - its rule 4 does not know `izomer`;
  - its rule 5 fires on `ekstrakt` in the matrix or `izomer` in the purpose, and has no `bitki`.

The rules, unlike the filter, look at the inputs after Python's `str.lower`. It is modelled character by character,
including the one letter that lowers to two characters: `İ` becomes `i` followed by U+0307. One consequence is
proved below. The filter selects an `İzomer Ayrımı` purpose for the query `izomer`, but after lowering that
purpose contains no `izomer`. So the rule-4 keyword `izomer` misses a title-case isomer purpose. The matrix
keywords of rules 1, 2 and 5 can still fire.

Some facts about the code that the model keeps:

- the rule keywords are Turkish and are kept verbatim (arayuz_sistemi.py:51-77, analiz_sistemi.py:43-69);
- the rule-4 and rule-5 keyword sets differ between the two evidence-first variants (arayuz_sistemi.py:67-72,
  analiz_sistemi.py:59-64);
- the instrument dropdown is one more equality condition on the sheet; no branch of the scorer treats it
  differently (2_fizikokimyasal_analiz.py:105-108);
- the evidence-first filter reads only the matrix and purpose columns (arayuz_sistemi.py:27-30);
- below two selected rows the answer text is the same for zero and for one row, apart from the count
  (arayuz_sistemi.py:83 and 91).

Modules, in dependency order:

- `Wrappers` holds the `Option` and `Result` types.
- `Text` models lowering and substring containment.
- `Sheet` holds the records, counting, the mode and the percentage.
- `IchRules` holds the six fallback rules and their suggestions.
- `Physicochemical` and `PhysicochemicalFacts` model the scorer.
- `EvidenceFirst` and `EvidenceFirstFacts` model the interactive page's recommender.
- `LegacyEvidenceFirst` and `LegacyEvidenceFirstFacts` model the script's recommender.

## Model

| member | source | states |
|---|---|---|
| Physicochemical.FillMissing | 2_fizikokimyasal_analiz.py:17-18 | after loading every cell is present; present cells are kept and empty ones become 'Belirtilmemiş' |
| Physicochemical.ActiveConditions | 2_fizikokimyasal_analiz.py:105-108 | the loop collects, in dropdown order, one equality condition per dropdown whose value is neither 'Filtreleme Yok' nor 'Belirtilmemiş' |
| Physicochemical.ConditionsOfSelection | 2_fizikokimyasal_analiz.py:105-111 | the query is the conjunction of the four optional conditions, in the order matrix, purpose, molecule type, instrument |
| Physicochemical.Conditions | 2_fizikokimyasal_analiz.py:105-108 | the equality conditions of the dropdowns whose value is neither 'Filtreleme Yok' nor 'Belirtilmemiş', in dropdown order |
| Physicochemical.Where | 2_fizikokimyasal_analiz.py:110-113 | the rows that satisfy every condition, in sheet order; never more rows than the sheet has |
| Physicochemical.Query | 2_fizikokimyasal_analiz.py:110-118 | the row loop returns exactly the rows that satisfy every condition, in sheet order |
| Physicochemical.WhereMembership | 2_fizikokimyasal_analiz.py:113 | a row is in the query result iff it is in the sheet and satisfies every condition |
| Physicochemical.SubsetSoundAndComplete | 2_fizikokimyasal_analiz.py:105-113 | a row is kept iff it equals the selected value on every constraining dropdown's column |
| Physicochemical.NoConstraintKeepsSheet | 2_fizikokimyasal_analiz.py:105-118 | with every dropdown on a no-constraint value there is no condition and the narrowed sheet is the whole sheet, unchanged |
| Physicochemical.RuleScore | 2_fizikokimyasal_analiz.py:133-162 | an instrument's rule score is the sum of the deltas of the rules that look at it: volatility for GC-MS, the two weight bands, low concentration, and the UV and fluorescence detectors; ICP-MS gets none |
| Physicochemical.RuleScores | 2_fizikokimyasal_analiz.py:123-162 | the zero table with rules 1 to 4 applied in turn; it always has one entry per instrument |
| Physicochemical.RuleReasons | 2_fizikokimyasal_analiz.py:130-166 | the reasons rules 1 to 5 append, in evaluation order; the small-molecule branch appends none |
| Physicochemical.Slot | 2_fizikokimyasal_analiz.py:126 | each of the six instruments has its own position in the table's key order |
| Physicochemical.KeyLookup | 2_fizikokimyasal_analiz.py:126-128 | a sheet value finds a score entry iff it is one of the six keys |
| Physicochemical.VolatilityRule | 2_fizikokimyasal_analiz.py:133-136 | rule 1 on a table: GC-MS gains 3 for a volatile analyte; the table keeps its six entries |
| Physicochemical.WeightRule | 2_fizikokimyasal_analiz.py:138-147 | rule 2 on a table: +1 to HPLC-UV/DAD and LC-MS/MS for a small molecule, +3 to SEC/CEX-HPLC and +2 to CE for a large one, no change for the medium band |
| Physicochemical.ConcentrationRule | 2_fizikokimyasal_analiz.py:149-154 | rule 3 on a table: +3 to LC-MS/MS and -1 to HPLC-UV/DAD for either low band |
| Physicochemical.OpticsRule | 2_fizikokimyasal_analiz.py:156-162 | rule 4 on a table: +2 to HPLC-UV/DAD for UV without fluorescence, then +3 for fluorescence |
| Physicochemical.ApplyVolatility | 2_fizikokimyasal_analiz.py:133-136 | a volatile analyte adds 3 to GC-MS and the GC reason; nothing else changes |
| Physicochemical.ApplyWeight | 2_fizikokimyasal_analiz.py:138-147 | small molecules add 1 to HPLC-UV/DAD and 1 to LC-MS/MS with no reason; large ones add 3 to SEC/CEX-HPLC and 2 to CE with the SEC/CEX/CE reason; the medium band changes nothing |
| Physicochemical.ApplyConcentration | 2_fizikokimyasal_analiz.py:149-154 | a very low or low concentration adds 3 to LC-MS/MS, subtracts 1 from HPLC-UV/DAD and appends the MS reason |
| Physicochemical.ApplyOptics | 2_fizikokimyasal_analiz.py:156-162 | UV without fluorescence adds 2 to HPLC-UV/DAD; fluorescence adds 3; each appends its detector reason |
| Physicochemical.TheoreticalScores | 2_fizikokimyasal_analiz.py:123-166 | the zero-seeded table after rules 1 to 5 equals the rule score function, and the reasons equal the rule reason function |
| Physicochemical.RuleScoresClosedForm | 2_fizikokimyasal_analiz.py:125-162 | each instrument's final score is exactly the sum of the deltas of the rules that fired for it |
| Physicochemical.RuleScoreSigns | 2_fizikokimyasal_analiz.py:126-162 | ICP-MS is never scored; every other instrument except HPLC-UV/DAD is at least 0; HPLC-UV/DAD falls below 0 iff the concentration is low and no small-weight, UV or fluorescence point offsets it |
| Physicochemical.SolubilityLeavesScores | 2_fizikokimyasal_analiz.py:164-166 | the solubility choice changes no score |
| Physicochemical.SolubilityExplains | 2_fizikokimyasal_analiz.py:164-166 | the sample-preparation reason is present iff the solubility is very low, and it comes last among the rule reasons |
| Physicochemical.SmallWeightIsSilent | 2_fizikokimyasal_analiz.py:139-142 | the small-weight branch raises HPLC-UV/DAD and LC-MS/MS by one each, changes no other score and appends no reason |
| Physicochemical.RuleReasonsInOrder | 2_fizikokimyasal_analiz.py:130-166 | the rule reasons come out in rule order, each at most once |
| Physicochemical.WithBonus | 2_fizikokimyasal_analiz.py:180 | the literature point added to the modal instrument's entry, if there is one; the table keeps its six entries |
| Physicochemical.BestSlot | 2_fizikokimyasal_analiz.py:187 | the chosen position holds a maximal score and every earlier position scores strictly less (max keeps the first of equal keys) |
| Physicochemical.BestSlotUnique | 2_fizikokimyasal_analiz.py:187 | those two properties determine the position uniquely |
| Physicochemical.ArgMax | 2_fizikokimyasal_analiz.py:186-188 | the one-pass scan over the table returns that first maximal position |
| Physicochemical.Conclude | 2_fizikokimyasal_analiz.py:186-201 | the final choice: 'Belirsiz' when the best score is 0 and no row was selected, otherwise the first best-scoring instrument with the collected reasons and the derivatization note for GC-MS with a large molecule |
| Physicochemical.Decide | 2_fizikokimyasal_analiz.py:171-201 | without rows, the conclusion on the rule scores; with rows, a key error for an unknown modal category, otherwise the conclusion after the one-point bonus and the literature reason |
| Physicochemical.Finish | 2_fizikokimyasal_analiz.py:186-201 | the in-place final step composes the same recommendation as the decision function |
| Physicochemical.CountOf | 2_fizikokimyasal_analiz.py:175 | the counting loop returns the number of rows of the category |
| Physicochemical.MostFrequent | 2_fizikokimyasal_analiz.py:175-179 | the first index of the frequency table is a category of maximal count that occurs in the rows |
| Physicochemical.Recommend | 2_fizikokimyasal_analiz.py:104-201 | a bonus category exists iff rows were selected, and it is a most frequent category of them; the result is the decision for the selected row count and that category |
| Physicochemical.WithLiterature | 2_fizikokimyasal_analiz.py:173-182 | with rows selected, the result is exactly the decision for that row count and modal category; the table in place gains one point at the modal category's slot when it is a key and is unchanged otherwise, and on success it is the table the result reports |
| PhysicochemicalFacts.FailsOnlyOnUnknownKey | 2_fizikokimyasal_analiz.py:179-180 | the decision fails iff rows were selected and their most frequent category is none of the six keys |
| PhysicochemicalFacts.LiteratureBonus | 2_fizikokimyasal_analiz.py:173-182 | with rows selected and a known key, that instrument gets exactly one more point, every other score is the rule score, the source becomes database-reinforced, and the literature reason follows the rule reasons |
| PhysicochemicalFacts.NoRowsNoBonus | 2_fizikokimyasal_analiz.py:171-173 | with no row selected the scores are the rule scores, the source is never database-reinforced and no literature reason appears |
| PhysicochemicalFacts.ConcludeWinner | 2_fizikokimyasal_analiz.py:186-197 | a chosen instrument scores maximally, strictly above every instrument before it in the table, and at least as high as ICP-MS |
| PhysicochemicalFacts.WinnerIsFirstBest | 2_fizikokimyasal_analiz.py:186-197 | the recommended instrument is the first best-scoring one and its score is never negative |
| PhysicochemicalFacts.RuleScoresZero | 2_fizikokimyasal_analiz.py:126-162 | no instrument scores above 0 iff the analyte is non-volatile, of medium weight, not at low concentration, and neither UV-absorbing nor fluorescent |
| PhysicochemicalFacts.UndeterminedExactly | 2_fizikokimyasal_analiz.py:190-193 | 'Belirsiz' comes out iff no row was selected and no scoring rule fired; then the source is 'Yetersiz Veri ve Özellik' and the only reason is the request for more properties |
| PhysicochemicalFacts.DerivatizationNote | 2_fizikokimyasal_analiz.py:199-201 | the derivatization note appears iff GC-MS wins for a large molecule, and then it is the last reason |
| PhysicochemicalFacts.ReasonsInEvaluationOrder | 2_fizikokimyasal_analiz.py:130-201 | the reasons come out in evaluation order, each at most once: rules, then literature, then the note |
| PhysicochemicalFacts.VolatileLargeMoleculeTie | 2_fizikokimyasal_analiz.py:133-201 | a volatile large molecule at high concentration scores [0,0,3,3,0,2]; GC-MS wins the tie with SEC/CEX-HPLC by table order, and the derivatization note is appended |
| Text.Lower | arayuz_sistemi.py:47-48 | lowering never shortens a text and keeps its length when there is no dotted capital I |
| Text.LowerPlain | arayuz_sistemi.py:47-48 | without a dotted capital I, lowering maps each character on its own |
| Text.LowerPlainIs | arayuz_sistemi.py:47-48 | a text without a dotted capital I lowers to the text of its lowered characters |
| Text.LowerFixes | arayuz_sistemi.py:47-48 | a text already in lower case is its own lowering |
| Text.LowerDottedHead | arayuz_sistemi.py:47-48 | a leading dotted capital I lowers to `i` and U+0307 |
| Text.LowerAppend | arayuz_sistemi.py:47-48 | lowering distributes over concatenation |
| Text.LowerIdempotent | arayuz_sistemi.py:47-48 | lowering twice gives what lowering once gives |
| Text.Contains | arayuz_sistemi.py:51-77 | Python's `k in s`: `k` occurs in `s` as a contiguous block at some position |
| Text.FoldChar | arayuz_sistemi.py:28-29 | the case-insensitive equivalence of one character: its one-character lowercase, with `I`, `i`, `ı` and `İ` all one letter |
| Text.ContainsIgnoringCase | arayuz_sistemi.py:28-29 | `str.contains(k, case=False)` on a present cell: `k` occurs once both are folded |
| Text.ContainsIgnoringCaseAt | arayuz_sistemi.py:28-29 | matching ignoring case holds iff, at some offset, every query character agrees with the text's character up to case |
| Text.EmptyContainedIgnoringCase | arayuz_sistemi.py:28-29 | the empty query matches every present cell |
| Text.DotlessMatch | arayuz_sistemi.py:28-29 | the query 'SIVI' matches a 'Sıvı' cell, although the lowered query does not occur in the lowered cell |
| Text.Absent | arayuz_sistemi.py:51-52 | a keyword with a character that the text lacks does not occur in it |
| Text.AbsentPastHead | arayuz_sistemi.py:51-52 | a keyword whose first character occurs only at the text's start, followed by a different second character, does not occur in it |
| Text.Found | arayuz_sistemi.py:51-52 | a keyword found at some position occurs in the text |
| Text.EmptyContained | arayuz_sistemi.py:28-29 | the empty query is contained in every text |
| Sheet.Count | arayuz_sistemi.py:37 | the number of rows naming a category is at most the number of rows |
| Sheet.CountPositive | arayuz_sistemi.py:37 | a category with a positive count is named by some row |
| Sheet.ModalFrom | arayuz_sistemi.py:36 | the scan returns a category of maximal count, or nothing exactly when every category is missing |
| Sheet.Modal | arayuz_sistemi.py:36 | the mode is absent iff every category is missing, and otherwise it occurs and no category occurs more often |
| Sheet.PercentBounds | arayuz_sistemi.py:38 | a share between 1 and n of n rows is above 0 and at most 100 percent |
| Sheet.Percent | arayuz_sistemi.py:38 | the share of `count` among `n` rows, in percent |
| Sheet.LiteratureSupport | arayuz_sistemi.py:35-38 | the modal category, its count (between 1 and the number of rows) and its percentage of the rows |
| EvidenceFirst.CellContains | arayuz_sistemi.py:28-29 | the filter on one cell: a missing cell never matches, a present one matches when it contains the query ignoring case |
| EvidenceFirst.SimilarRecords | arayuz_sistemi.py:27-30 | the selected rows, in sheet order; there are never more of them than rows in the sheet |
| EvidenceFirst.SimilarMembership | arayuz_sistemi.py:27-30 | a row is selected iff both its matrix and purpose are present and contain the inputs, ignoring case as the regular expression does |
| EvidenceFirst.Fires | arayuz_sistemi.py:51-77 | the keywords of the page's six rules and the input they are looked for in: matrix for 'aşı', rule 2 and rule 5, purpose for the rest; rule 4 includes 'izomer' and rule 5 includes 'bitki' |
| IchRules.FirstRule | arayuz_sistemi.py:50-84 | for any keyword test: the chosen rule fires, no earlier rule fires, and there is no rule iff none fires |
| IchRules.Suggestion | arayuz_sistemi.py:53-78 | the instrument text each of the six rules recommends, verbatim |
| EvidenceFirst.RuleAnswer | arayuz_sistemi.py:81-92 | the rule-set answer reports the record count; it names the suggestion of the first rule that fires, and the clarification text exactly when no rule fires |
| EvidenceFirst.Recommend | arayuz_sistemi.py:24-92 | it fails iff two or more rows are selected and none names an instrument; the literature answer is given iff two or more rows are selected, and then it is a most frequent category, with count and percentage; otherwise it is the rule chain's answer on the lowercased inputs; the reported record count is always the selection size |
| EvidenceFirstFacts.EmptyQuerySelectsPresent | arayuz_sistemi.py:27-30 | empty inputs select every row whose matrix and purpose are present |
| EvidenceFirstFacts.FewRecords | arayuz_sistemi.py:44-48 | with fewer than two selected rows the answer is the rule chain's on the lowercased inputs |
| EvidenceFirstFacts.Rule1Silent | arayuz_sistemi.py:51-52 | rule 1 does not fire when the lowered inputs lack a letter of each of its keywords |
| EvidenceFirstFacts.Rule2Silent | arayuz_sistemi.py:57 | the same for rule 2 |
| EvidenceFirstFacts.Rule3Silent | arayuz_sistemi.py:62 | the same for rule 3 |
| EvidenceFirstFacts.Rule4Silent | arayuz_sistemi.py:67 | the same for rule 4 |
| EvidenceFirstFacts.Rule5Silent | arayuz_sistemi.py:72 | the same for rule 5 |
| EvidenceFirstFacts.Rule6Silent | arayuz_sistemi.py:77 | the same for rule 6 |
| EvidenceFirstFacts.ProteinInPlasma | arayuz_sistemi.py:50-59 | 'Plazma'/'Protein' with fewer than two rows goes to rule 1, because it is tried before rule 2 |
| EvidenceFirstFacts.DefaultQueryWithoutEvidence | arayuz_sistemi.py:110-111 | the page's default 'Plazma'/'Farmakokinetik' with fewer than two rows goes to LC-MS/MS by rule 2 |
| EvidenceFirstFacts.IsomerIsStructureQuestion | arayuz_sistemi.py:66-69 | 'Tablet'/'izomer ayrımı' with fewer than two rows goes to LC-MS or GC-MS by rule 4 |
| EvidenceFirstFacts.PlantMatrixIsPhytochemical | arayuz_sistemi.py:71-74 | 'bitki yaprağı'/'analiz' with fewer than two rows goes to UPLC-MS or HPLC-DAD by rule 5 |
| EvidenceFirstFacts.UnknownInputAsksToClarify | arayuz_sistemi.py:81-88 | 'Tablet'/'analiz' with fewer than two rows fires no rule and asks to clarify the input |
| EvidenceFirstFacts.IsomerLowered | arayuz_sistemi.py:48 | 'İzomer Ayrımı' lowers to `i`, U+0307, 'zomer ayrımı' |
| EvidenceFirstFacts.TitleCaseIsomerCellMatches | arayuz_sistemi.py:28-29 | the query 'izomer' matches an 'İzomer Ayrımı' cell, although 'izomer' does not occur in that cell lowered |
| EvidenceFirstFacts.TitleCaseIsomerIsNotRecognised | arayuz_sistemi.py:47-88 | 'Tablet'/'İzomer Ayrımı' with fewer than two rows fires no rule and asks to clarify the input |
| LegacyEvidenceFirst.Fires | analiz_sistemi.py:43-64 | the older chain's keywords: rules 1, 2, 3 and 6 as on the page; rule 4 without 'izomer'; rule 5 on 'ekstrakt' in the matrix or 'izomer' in the purpose, without 'bitki' |
| LegacyEvidenceFirst.Recommend | analiz_sistemi.py:15-80 | given present matrix and purpose cells: the same failure, threshold, mode, count and percentage statements as the newer variant; below the threshold, the older chain's answer on the lowercased inputs |
| LegacyEvidenceFirstFacts.LiteratureAgrees | analiz_sistemi.py:18-34 | on such a sheet, whenever two or more rows are selected both variants give the same answer |
| LegacyEvidenceFirstFacts.RuleChainsAgree | analiz_sistemi.py:59-64 | without 'izomer' in the purpose and 'bitki' in the matrix both chains pick the same rule |
| LegacyEvidenceFirstFacts.IsomerChangesRule | analiz_sistemi.py:59-64 | an isomer question that reaches rule 4 is a structure question for the newer chain but a phytochemical one for the older |
| LegacyEvidenceFirstFacts.PlantMatrixFallsThrough | analiz_sistemi.py:64-75 | a plant matrix without 'ekstrakt' that reaches rule 5 of the newer chain goes to rule 6 or to no rule in the older |
| LegacyEvidenceFirstFacts.FewRecords | analiz_sistemi.py:37-40 | with fewer than two selected rows the answer is the older chain's on the lowercased inputs |
| LegacyEvidenceFirstFacts.Rule4Silent | analiz_sistemi.py:59 | rule 4 of the older chain does not fire when the lowered purpose lacks 's' and 't' |
| LegacyEvidenceFirstFacts.ChargeVariantQuery | analiz_sistemi.py:97-99 | 'Enjeksiyon Sıvısı'/'Yük Varyantı Analizi' with fewer than two rows goes to the CEX/SEC/CE family by rule 1 |
| LegacyEvidenceFirstFacts.ClinicalIonQuery | analiz_sistemi.py:103-105 | 'Biyolojik Sıvı'/'Klinik Kantitasyon' with fewer than two rows goes to ISE or ICP-MS by rule 3 |
| LegacyEvidenceFirstFacts.RootExtractQuery | analiz_sistemi.py:91-93 | 'Kök Ekstraktı'/'İzomer Ayrımı' with fewer than two rows goes to UPLC-MS or HPLC-DAD by rule 5, through 'ekstrakt' |
| LegacyEvidenceFirstFacts.PharmacokineticQuery | analiz_sistemi.py:85-87 | 'Plazma'/'Farmakokinetik' with fewer than two rows goes to LC-MS/MS by rule 2 |

## Left out

- The Streamlit page is not modelled: widgets, the result display, the sidebar layout and the data preview. The
  dropdown values, radio options and check boxes are the method's parameters instead.
- Reading the Excel file and stripping the column names are not modelled. This includes the missing-file and
  missing-dependency messages, and the module-level load and `exit` of the older script. The sheet is given as a
  sequence of records.
- The print harness of the older script is not modelled. Its four calls appear only as the worked-case lemmas.
- The dropdown options are not modelled: they are the sorted unique cells, and the model takes any string.
  Non-string cells, which Python turns into text with `str`, are not modelled either.
- Physicochemical.Query: the conditions are modelled as column equalities. The model does not render them as
  `df.query` text. A value containing a quote makes the query text malformed, and the page then shows an error; that
  path is not modelled.
- Physicochemical.MostFrequent and Sheet.Modal: the model does not fix which of several tied categories is chosen.
  It proves only that the chosen category has maximal count.
- Percentages are exact rationals, not Python floats. The one-decimal formatting of the answer texts is not
  modelled.
- The answer texts are not modelled as text. The prose of the reasons and rationales, and the `**` bold markers, are
  represented by datatype constructors. Only the suggested instrument texts, the fallback messages and the score
  keys are kept verbatim.
- Text.Lower: only the capitals of ASCII and of the Turkish alphabet are lowered, plus the two-character lowering of
  `İ`. Other Unicode case mappings are left out, since no keyword and no worked input uses them.
- Text.ContainsIgnoringCase: `str.contains` treats its input as a regular expression. The model treats it as plain
  text, so metacharacters in an input are not modelled.
- Text.FoldChar: only the case-insensitive equivalences of ASCII and the Turkish alphabet are modelled, including the
  one that joins `I`, `i`, `ı` and `İ`. Other Unicode equivalences, such as the long s or the Kelvin sign, are left out.
- EvidenceFirst.CellContains: the page reads the sheet without filling empty cells. A matrix or purpose column that
  is blank in every row is then read as a float column, and `.str.contains` on it raises an `AttributeError`, so the
  page fails. The model treats those cells like any other missing cell: it selects no row and gives the rule answer.
  SimilarMembership and Recommend inherit this, and Recommend's failure case does not include that error.
- EvidenceFirst.Recommend and LegacyEvidenceFirst.Recommend: taking the first mode when every selected row lacks an
  instrument raises an `IndexError` in Python. The model returns an error value for this case.
- Physicochemical.Recommend: adding the bonus to a category that is not a score key raises a `KeyError` in Python.
  The model returns an error value for this case.
- LegacyEvidenceFirst.Recommend requires every matrix and purpose cell to be present. The model does not decide
  what pandas does when such a cell is missing.
