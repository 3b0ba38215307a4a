/**
  The evidence-first recommender of the interactive page: select the
  records whose matrix and purpose contain the inputs; with at least two of
  them answer with their most frequent instrument, otherwise walk the six
  fallback rules on the lowercased inputs and take the first that fires.
*/
module EvidenceFirst {
  import opened Wrappers
  import opened Text
  import opened Sheet
  import opened IchRules

  /** `str.contains(query, case=False, na=False)` on a cell: a
      containment test that ignores case; a missing cell never matches. */
  predicate CellContains(c: Cell, query: string)
  {
    match c
    case Missing => false
    case Text(s) => ContainsIgnoringCase(s, query)
  }

  predicate Similar(r: Record, matrixQuery: string, purposeQuery: string)
  {
    CellContains(r.matrix, matrixQuery) && CellContains(r.purpose, purposeQuery)
  }

  /** The records similar to the query, in sheet order. */
  function SimilarRecords(db: seq<Record>, matrixQuery: string, purposeQuery: string): (sub: seq<Record>)
    ensures |sub| <= |db|
  {
    if db == [] then []
    else
      var last := db[|db| - 1];
      SimilarRecords(db[..|db| - 1], matrixQuery, purposeQuery)
      + (if Similar(last, matrixQuery, purposeQuery) then [last] else [])
  }

  /** A record is selected exactly when both its matrix and its purpose are
      present and contain the respective input, ignoring case. */
  lemma {:induction false} SimilarMembership(db: seq<Record>, matrixQuery: string, purposeQuery: string, r: Record)
    ensures r in SimilarRecords(db, matrixQuery, purposeQuery) <==>
      && r in db
      && r.matrix.Text? && ContainsIgnoringCase(r.matrix.value, matrixQuery)
      && r.purpose.Text? && ContainsIgnoringCase(r.purpose.value, purposeQuery)
  {
    if db != [] {
      SimilarMembership(db[..|db| - 1], matrixQuery, purposeQuery, r);
      assert db == db[..|db| - 1] + [db[|db| - 1]];
    }
  }

  /** Whether a rule's keywords occur in the lowercased matrix `m` and
      purpose `p`. */
  predicate Fires(rule: Rule, m: string, p: string)
  {
    match rule
    case BiologicIntegrity =>
      Contains(p, "protein") || Contains(p, "peptit") || Contains(m, "aşı")
      || Contains(p, "yük varyantı") || Contains(p, "agregat") || Contains(p, "bütünlük")
    case BioanalyticalMatrix =>
      Contains(m, "plazma") || Contains(m, "serum") || Contains(m, "idrar")
    case InorganicIon =>
      Contains(p, "iyon") || Contains(p, "metal") || Contains(p, "kantitasyon")
    case StructureElucidation =>
      Contains(p, "safsızlık") || Contains(p, "tanımlama") || Contains(p, "metabolit") || Contains(p, "izomer")
    case Phytochemical =>
      Contains(m, "ekstrakt") || Contains(m, "bitki")
    case RoutineAssay =>
      Contains(p, "miktar tayini") || Contains(p, "çözünme") || Contains(p, "assay")
  }

  /** The text shown when no rule fires. */
  const ClarifyInput: string := "Analiz amacınızı veya matriksinizi netleştirin."

  /** Where the answer comes from, with the figures its text reports. */
  datatype Provenance =
    | LiteratureFocused(records: nat, percent: real)
    | RuleSetFocused(records: nat)

  /** The three texts the function returns: the instrument (without the
      bold markers), the source and the justification. */
  datatype Answer = Answer(instrument: string, provenance: Provenance, rationale: Rationale)

  /** With two or more records but no instrument category among them, the
      mode is empty and taking its first element fails. */
  datatype Failure = NoInstrumentCategory

  /** The answer of a rule chain, whose rules fire as `fires` says, for
      lowercased inputs: the suggestion of the first rule that fires, or the
      text `clarify` when none does. Both variants answer this way. */
  function RuleAnswer(fires: (Rule, string, string) -> bool, clarify: string, m: string, p: string, n: nat): (a: Answer)
    ensures a.provenance == RuleSetFocused(n)
    ensures a.rationale.NoRuleApplied? <==> forall q :: !fires(q, m, p)
    ensures a.rationale.NoRuleApplied? ==> a.instrument == clarify
    ensures a.rationale.RuleRationale? ==>
      && fires(a.rationale.rule, m, p)
      && (forall q :: Rank(q) < Rank(a.rationale.rule) ==> !fires(q, m, p))
      && a.instrument == Suggestion(a.rationale.rule)
    ensures !a.rationale.LiteratureSufficient?
  {
    match FirstRule(fires, m, p)
    case Some(rule) => Answer(Suggestion(rule), RuleSetFocused(n), RuleRationale(rule))
    case None => Answer(clarify, RuleSetFocused(n), NoRuleApplied)
  }

  /** The recommendation for a matrix and a purpose over the sheet `db`. */
  function Recommend(matrixQuery: string, purposeQuery: string, db: seq<Record>): (r: Result<Answer, Failure>)
    ensures var sub := SimilarRecords(db, matrixQuery, purposeQuery);
      r.Err? <==> |sub| >= 2 && forall x <- sub :: x.instrument.Missing?
    ensures var sub := SimilarRecords(db, matrixQuery, purposeQuery);
      r.Ok? ==> (r.value.provenance.LiteratureFocused? <==> |sub| >= 2)
    ensures var sub := SimilarRecords(db, matrixQuery, purposeQuery);
      r.Ok? ==> r.value.provenance.records == |sub|
    ensures var sub := SimilarRecords(db, matrixQuery, purposeQuery);
      r.Ok? && |sub| >= 2 ==>
        && IsModal(sub, r.value.instrument)
        && 1 <= Count(sub, r.value.instrument) <= |sub|
        && r.value.provenance.percent == Percent(Count(sub, r.value.instrument), |sub|)
        && 0.0 < r.value.provenance.percent <= 100.0
        && r.value.rationale == LiteratureSufficient
    ensures var sub := SimilarRecords(db, matrixQuery, purposeQuery);
      |sub| < 2 ==> r == Ok(RuleAnswer(Fires, ClarifyInput, Lower(matrixQuery), Lower(purposeQuery), |sub|))
  {
    var sub := SimilarRecords(db, matrixQuery, purposeQuery);
    var n := |sub|;
    if n >= 2 then
      match LiteratureSupport(sub)
      case None => Err(NoInstrumentCategory)
      case Some(s) => Ok(Answer(s.instrument, LiteratureFocused(n, s.percent), LiteratureSufficient))
    else
      Ok(RuleAnswer(Fires, ClarifyInput, Lower(matrixQuery), Lower(purposeQuery), n))
  }
}

/** Properties and worked cases of the evidence-first recommender. */
module EvidenceFirstFacts {
  import opened Wrappers
  import opened Text
  import opened Sheet
  import opened IchRules
  import opened EvidenceFirst

  /** Empty inputs select every record whose matrix and purpose are present. */
  lemma EmptyQuerySelectsPresent(db: seq<Record>, r: Record)
    ensures r in SimilarRecords(db, "", "") <==> r in db && r.matrix.Text? && r.purpose.Text?
  {
    SimilarMembership(db, "", "", r);
    if r.matrix.Text? && r.purpose.Text? {
      EmptyContainedIgnoringCase(r.matrix.value);
      EmptyContainedIgnoringCase(r.purpose.value);
    }
  }

  /** With fewer than two similar records the answer is the rule chain's on
      the lowercased inputs `m` and `p`. */
  lemma FewRecords(matrixQuery: string, purposeQuery: string, m: string, p: string, db: seq<Record>)
    requires Lower(matrixQuery) == m && Lower(purposeQuery) == p
    requires |SimilarRecords(db, matrixQuery, purposeQuery)| < 2
    ensures Recommend(matrixQuery, purposeQuery, db) ==
      Ok(RuleAnswer(Fires, ClarifyInput, m, p, |SimilarRecords(db, matrixQuery, purposeQuery)|))
  {
  }

  /** The lowercased inputs of the worked cases below. */
  lemma PlasmaLowered(plasma: string)
    requires plasma == "Plazma"
    ensures Lower(plasma) == "plazma"
  {
    LowerPlainIs(plasma, "plazma");
  }

  lemma TabletLowered(tablet: string)
    requires tablet == "Tablet"
    ensures Lower(tablet) == "tablet"
  {
    LowerPlainIs(tablet, "tablet");
  }

  lemma ProteinLowered(protein: string)
    requires protein == "Protein"
    ensures Lower(protein) == "protein"
  {
    LowerPlainIs(protein, "protein");
  }

  lemma PharmacokineticLowered(pharmacokinetic: string)
    requires pharmacokinetic == "Farmakokinetik"
    ensures Lower(pharmacokinetic) == "farmakokinetik"
  {
    LowerPlainIs(pharmacokinetic, "farmakokinetik");
  }

  /** Inputs already in lower case. */
  lemma LeafLowered(leaf: string)
    requires leaf == "bitki yaprağı"
    ensures Lower(leaf) == leaf
  {
    LowerFixes(leaf);
  }

  lemma IsomerPurposeLowered(isomer: string)
    requires isomer == "izomer ayrımı"
    ensures Lower(isomer) == isomer
  {
    LowerFixes(isomer);
  }

  lemma AnalysisLowered(analysis: string)
    requires analysis == "analiz"
    ensures Lower(analysis) == analysis
  {
    LowerFixes(analysis);
  }

  /** Each rule stays silent when its keywords miss a letter that the
      lowercased input lacks. */
  lemma Rule1Silent(m: string, p: string)
    requires 'p' !in p && 'ü' !in p && 'g' !in p && 'ş' !in m
    ensures !Fires(BiologicIntegrity, m, p)
  {
    Absent(p, "protein", 'p');
    Absent(p, "peptit", 'p');
    Absent(m, "aşı", 'ş');
    Absent(p, "yük varyantı", 'ü');
    Absent(p, "agregat", 'g');
    Absent(p, "bütünlük", 'ü');
  }

  lemma Rule2Silent(m: string, p: string)
    requires 'z' !in m && 'd' !in m && ('s' !in m || 'u' !in m)
    ensures !Fires(BioanalyticalMatrix, m, p)
  {
    Absent(m, "plazma", 'z');
    Absent(m, "idrar", 'd');
    if 's' !in m {
      Absent(m, "serum", 's');
    } else {
      Absent(m, "serum", 'u');
    }
  }

  lemma Rule3Silent(m: string, p: string)
    requires 't' !in p && ('y' !in p || 'n' !in p)
    ensures !Fires(InorganicIon, m, p)
  {
    Absent(p, "metal", 't');
    Absent(p, "kantitasyon", 't');
    if 'y' !in p {
      Absent(p, "iyon", 'y');
    } else {
      Absent(p, "iyon", 'n');
    }
  }

  lemma Rule4Silent(m: string, p: string)
    requires 's' !in p && 't' !in p && 'e' !in p
    ensures !Fires(StructureElucidation, m, p)
  {
    Absent(p, "safsızlık", 's');
    Absent(p, "tanımlama", 't');
    Absent(p, "metabolit", 't');
    Absent(p, "izomer", 'e');
  }

  lemma Rule5Silent(m: string, p: string)
    requires 'k' !in m
    ensures !Fires(Phytochemical, m, p)
  {
    Absent(m, "ekstrakt", 'k');
    Absent(m, "bitki", 'k');
  }

  lemma Rule6Silent(m: string, p: string)
    requires 'k' !in p && 'ç' !in p && 's' !in p
    ensures !Fires(RoutineAssay, m, p)
  {
    Absent(p, "miktar tayini", 'k');
    Absent(p, "çözünme", 'ç');
    Absent(p, "assay", 's');
  }

  lemma ProteinPlasmaRule(n: nat)
    ensures RuleAnswer(Fires, ClarifyInput, "plazma", "protein", n) ==
      Answer("CEX-HPLC, SEC-HPLC veya Kılcal Elektroforez (CE)", RuleSetFocused(n), RuleRationale(BiologicIntegrity))
  {
    Found("protein", "protein", 0);
  }

  /** Rule 1 is tried before rule 2: a protein purpose in a plasma matrix
      goes to the CEX/SEC/CE family, not to LC-MS/MS. */
  lemma ProteinInPlasma(db: seq<Record>)
    requires |SimilarRecords(db, "Plazma", "Protein")| < 2
    ensures Recommend("Plazma", "Protein", db) ==
      Ok(Answer("CEX-HPLC, SEC-HPLC veya Kılcal Elektroforez (CE)",
                RuleSetFocused(|SimilarRecords(db, "Plazma", "Protein")|),
                RuleRationale(BiologicIntegrity)))
  {
    PlasmaLowered("Plazma");
    ProteinLowered("Protein");
    FewRecords("Plazma", "Protein", "plazma", "protein", db);
    ProteinPlasmaRule(|SimilarRecords(db, "Plazma", "Protein")|);
  }

  /** The letters the lowered worked cases lack, one position at a time. */
  lemma PlasmaLetters(m: string, p: string)
    requires m == "plazma" && p == "farmakokinetik"
    ensures 'p' !in p && 'ü' !in p && 'g' !in p && 'ş' !in m
  {
    assert forall i :: 0 <= i < |m| ==> m[i] != 'ş';
    assert forall i :: 0 <= i < |p| ==> p[i] != 'p' && p[i] != 'ü' && p[i] != 'g';
  }

  lemma PharmacokineticPlasmaRule(m: string, p: string, n: nat)
    requires m == "plazma" && p == "farmakokinetik"
    ensures RuleAnswer(Fires, ClarifyInput, m, p, n) == Answer("LC-MS/MS", RuleSetFocused(n), RuleRationale(BioanalyticalMatrix))
  {
    PlasmaLetters(m, p);
    Rule1Silent(m, p);
    Found(m, "plazma", 0);
  }

  /** The page's default query, plasma pharmacokinetics, with fewer than two
      similar records falls to rule 2 and recommends LC-MS/MS. */
  lemma DefaultQueryWithoutEvidence(db: seq<Record>)
    requires |SimilarRecords(db, "Plazma", "Farmakokinetik")| < 2
    ensures Recommend("Plazma", "Farmakokinetik", db) ==
      Ok(Answer("LC-MS/MS",
                RuleSetFocused(|SimilarRecords(db, "Plazma", "Farmakokinetik")|),
                RuleRationale(BioanalyticalMatrix)))
  {
    PlasmaLowered("Plazma");
    PharmacokineticLowered("Farmakokinetik");
    FewRecords("Plazma", "Farmakokinetik", "plazma", "farmakokinetik", db);
    PharmacokineticPlasmaRule("plazma", "farmakokinetik", |SimilarRecords(db, "Plazma", "Farmakokinetik")|);
  }

  lemma IsomerTabletLetters(m: string, p: string)
    requires m == "tablet" && p == "izomer ayrımı"
    ensures 'p' !in p && 'ü' !in p && 'g' !in p && 't' !in p && 'n' !in p
    ensures 'ş' !in m && 'z' !in m && 'd' !in m && 's' !in m
  {
    assert forall i :: 0 <= i < |m| ==> m[i] != 'ş' && m[i] != 'z' && m[i] != 'd' && m[i] != 's';
    assert forall i :: 0 <= i < |p| ==> p[i] != 'p' && p[i] != 'ü' && p[i] != 'g' && p[i] != 't' && p[i] != 'n';
  }

  lemma IsomerTabletRule(m: string, p: string, n: nat)
    requires m == "tablet" && p == "izomer ayrımı"
    ensures RuleAnswer(Fires, ClarifyInput, m, p, n) ==
      Answer("LC-MS veya GC-MS", RuleSetFocused(n), RuleRationale(StructureElucidation))
  {
    IsomerTabletLetters(m, p);
    Rule1Silent(m, p);
    Rule2Silent(m, p);
    Rule3Silent(m, p);
    Found(p, "izomer", 0);
  }

  /** A chemical isomer question goes to rule 4 (LC-MS or GC-MS). */
  lemma IsomerIsStructureQuestion(db: seq<Record>)
    requires |SimilarRecords(db, "Tablet", "izomer ayrımı")| < 2
    ensures Recommend("Tablet", "izomer ayrımı", db) ==
      Ok(Answer("LC-MS veya GC-MS",
                RuleSetFocused(|SimilarRecords(db, "Tablet", "izomer ayrımı")|),
                RuleRationale(StructureElucidation)))
  {
    TabletLowered("Tablet");
    IsomerPurposeLowered("izomer ayrımı");
    FewRecords("Tablet", "izomer ayrımı", "tablet", "izomer ayrımı", db);
    IsomerTabletRule("tablet", "izomer ayrımı", |SimilarRecords(db, "Tablet", "izomer ayrımı")|);
  }

  lemma PlantLeafLetters(m: string, p: string)
    requires m == "bitki yaprağı" && p == "analiz"
    ensures 'p' !in p && 'ü' !in p && 'g' !in p && 't' !in p && 's' !in p && 'e' !in p
    ensures 'ş' !in m && 'z' !in m && 'd' !in m && 's' !in m
  {
    assert forall i :: 0 <= i < |m| ==> m[i] != 'ş' && m[i] != 'z' && m[i] != 'd' && m[i] != 's';
    assert forall i :: 0 <= i < |p| ==> p[i] != 'p' && p[i] != 'ü' && p[i] != 'g' && p[i] != 't' && p[i] != 's' && p[i] != 'e';
  }

  lemma PlantLeafRule(m: string, p: string, n: nat)
    requires m == "bitki yaprağı" && p == "analiz"
    ensures RuleAnswer(Fires, ClarifyInput, m, p, n) ==
      Answer("UPLC-MS veya HPLC-DAD", RuleSetFocused(n), RuleRationale(Phytochemical))
  {
    PlantLeafLetters(m, p);
    Rule1Silent(m, p);
    Rule2Silent(m, p);
    Rule3Silent(m, p);
    Rule4Silent(m, p);
    Found(m, "bitki", 0);
  }

  /** A plant matrix triggers rule 5 by itself. */
  lemma PlantMatrixIsPhytochemical(db: seq<Record>)
    requires |SimilarRecords(db, "bitki yaprağı", "analiz")| < 2
    ensures Recommend("bitki yaprağı", "analiz", db) ==
      Ok(Answer("UPLC-MS veya HPLC-DAD",
                RuleSetFocused(|SimilarRecords(db, "bitki yaprağı", "analiz")|),
                RuleRationale(Phytochemical)))
  {
    LeafLowered("bitki yaprağı");
    AnalysisLowered("analiz");
    FewRecords("bitki yaprağı", "analiz", "bitki yaprağı", "analiz", db);
    PlantLeafRule("bitki yaprağı", "analiz", |SimilarRecords(db, "bitki yaprağı", "analiz")|);
  }

  lemma UnknownTabletLetters(m: string, p: string)
    requires m == "tablet" && p == "analiz"
    ensures 'p' !in p && 'ü' !in p && 'g' !in p && 't' !in p && 'y' !in p
    ensures 's' !in p && 'e' !in p && 'k' !in p && 'ç' !in p
    ensures 'ş' !in m && 'z' !in m && 'd' !in m && 's' !in m && 'k' !in m
  {
    assert forall i :: 0 <= i < |m| ==> m[i] != 'ş' && m[i] != 'z' && m[i] != 'd' && m[i] != 's' && m[i] != 'k';
    assert forall i :: 0 <= i < |p| ==> p[i] != 'p' && p[i] != 'ü' && p[i] != 'g' && p[i] != 't' && p[i] != 'y';
    assert forall i :: 0 <= i < |p| ==> p[i] != 's' && p[i] != 'e' && p[i] != 'k' && p[i] != 'ç';
  }

  lemma UnknownTabletRule(m: string, p: string, n: nat)
    requires m == "tablet" && p == "analiz"
    ensures RuleAnswer(Fires, ClarifyInput, m, p, n) == Answer(ClarifyInput, RuleSetFocused(n), NoRuleApplied)
  {
    UnknownTabletLetters(m, p);
    Rule1Silent(m, p);
    Rule2Silent(m, p);
    Rule3Silent(m, p);
    Rule4Silent(m, p);
    Rule5Silent(m, p);
    Rule6Silent(m, p);
  }

  /** Inputs no rule knows give the request to clarify the input. */
  lemma UnknownInputAsksToClarify(db: seq<Record>)
    requires |SimilarRecords(db, "Tablet", "analiz")| < 2
    ensures Recommend("Tablet", "analiz", db) ==
      Ok(Answer(ClarifyInput, RuleSetFocused(|SimilarRecords(db, "Tablet", "analiz")|), NoRuleApplied))
  {
    TabletLowered("Tablet");
    AnalysisLowered("analiz");
    FewRecords("Tablet", "analiz", "tablet", "analiz", db);
    UnknownTabletRule("tablet", "analiz", |SimilarRecords(db, "Tablet", "analiz")|);
  }

  /** The capital dotted I of "İzomer" lowers to `i` and U+0307. */
  lemma IsomerLowered(isomer: string, lowered: string)
    requires isomer == "İzomer Ayrımı" && lowered == "i\U{0307}zomer ayrımı"
    ensures Lower(isomer) == lowered
  {
    var head, word := isomer[..7], isomer[7..];
    IsomerSplits(isomer);
    HeadLowered(head);
    WordLowered(word);
    LoweredIsomerJoins("i\U{0307}zomer ", "ayrımı");
    LowerJoin(isomer, head, word, "i\U{0307}zomer ", "ayrımı");
  }

  lemma IsomerSplits(isomer: string)
    requires isomer == "İzomer Ayrımı"
    ensures isomer[..7] == "İzomer " && isomer[7..] == "Ayrımı" && isomer == isomer[..7] + isomer[7..]
  {
  }

  lemma LoweredIsomerJoins(a: string, b: string)
    requires a == "i\U{0307}zomer " && b == "ayrımı"
    ensures a + b == "i\U{0307}zomer ayrımı"
  {
  }

  lemma HeadLowered(head: string)
    requires head == "İzomer "
    ensures Lower(head) == "i\U{0307}zomer "
  {
    assert head == ['İ'] + head[1..];
    LowerFixes(head[1..]);
  }

  lemma WordLowered(word: string)
    requires word == "Ayrımı"
    ensures Lower(word) == "ayrımı"
  {
    LowerPlainIs(word, "ayrımı");
  }

  lemma DottedIsomerLetters(m: string, p: string)
    requires m == "tablet" && p == "i\U{0307}zomer ayrımı"
    ensures 'p' !in p && 'ü' !in p && 'g' !in p && 't' !in p && 'n' !in p
    ensures 's' !in p && 'k' !in p && 'ç' !in p
    ensures 'ş' !in m && 'z' !in m && 'd' !in m && 's' !in m && 'k' !in m
  {
    assert forall i :: 0 <= i < |m| ==> m[i] != 'ş' && m[i] != 'z' && m[i] != 'd' && m[i] != 's' && m[i] != 'k';
    assert forall i :: 0 <= i < |p| ==> p[i] != 'p' && p[i] != 'ü' && p[i] != 'g' && p[i] != 't' && p[i] != 'n';
    assert forall i :: 0 <= i < |p| ==> p[i] != 's' && p[i] != 'k' && p[i] != 'ç';
  }

  /** Past its first character the lowered dotted isomer has no plain `i`. */
  lemma DottedIsomerHead(p: string)
    requires p == "i\U{0307}zomer ayrımı"
    ensures p[0] == 'i' && p[1] == '\U{0307}' && 'i' !in p[1..]
  {
    assert forall i :: 0 <= i < |p[1..]| ==> p[1..][i] != 'i';
  }

  lemma DottedIsomerSilent(m: string, p: string)
    requires m == "tablet" && p == "i\U{0307}zomer ayrımı"
    ensures !Fires(StructureElucidation, m, p) && !Fires(Phytochemical, m, p) && !Fires(RoutineAssay, m, p)
  {
    DottedIsomerLetters(m, p);
    DottedIsomerHead(p);
    Absent(p, "safsızlık", 's');
    Absent(p, "tanımlama", 't');
    Absent(p, "metabolit", 't');
    AbsentPastHead(p, "izomer");
    Rule5Silent(m, p);
    Rule6Silent(m, p);
  }

  lemma DottedIsomerRule(m: string, p: string, n: nat)
    requires m == "tablet" && p == "i\U{0307}zomer ayrımı"
    ensures RuleAnswer(Fires, ClarifyInput, m, p, n) == Answer(ClarifyInput, RuleSetFocused(n), NoRuleApplied)
  {
    DottedIsomerLetters(m, p);
    Rule1Silent(m, p);
    Rule2Silent(m, p);
    Rule3Silent(m, p);
    DottedIsomerSilent(m, p);
  }

  /** The filter ignores case the way a regular expression does, so the
      query "izomer" selects an "İzomer Ayrımı" cell, although "izomer" does
      not occur in that cell lowered. */
  lemma TitleCaseIsomerCellMatches(cell: string, query: string)
    requires cell == "İzomer Ayrımı" && query == "izomer"
    ensures ContainsIgnoringCase(cell, query)
    ensures !Contains(Lower(cell), Lower(query))
  {
    FoldIs(cell, "izomer ayrimi");
    FoldIs(query, query);
    Found("izomer ayrimi", query, 0);
    IsomerLowered(cell, "i\U{0307}zomer ayrımı");
    LowerFixes(query);
    DottedIsomerHead("i\U{0307}zomer ayrımı");
    AbsentPastHead("i\U{0307}zomer ayrımı", query);
  }

  /** Python lowers "İzomer" to `i`, U+0307, "zomer", which does not contain
      "izomer": a title-case isomer question matches no rule at all. */
  lemma TitleCaseIsomerIsNotRecognised(db: seq<Record>)
    requires |SimilarRecords(db, "Tablet", "İzomer Ayrımı")| < 2
    ensures Recommend("Tablet", "İzomer Ayrımı", db) ==
      Ok(Answer(ClarifyInput, RuleSetFocused(|SimilarRecords(db, "Tablet", "İzomer Ayrımı")|), NoRuleApplied))
  {
    TabletLowered("Tablet");
    IsomerLowered("İzomer Ayrımı", "i\U{0307}zomer ayrımı");
    FewRecords("Tablet", "İzomer Ayrımı", "tablet", "i\U{0307}zomer ayrımı", db);
    DottedIsomerRule("tablet", "i\U{0307}zomer ayrımı", |SimilarRecords(db, "Tablet", "İzomer Ayrımı")|);
  }
}
