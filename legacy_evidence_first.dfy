/**
  The older evidence-first recommender of the command-line script. It
  selects and counts as the interactive page does, but its filter has no
  handling of missing cells, and two of its fallback rules match other
  keywords: rule 4 does not know "izomer", and rule 5 fires on an extract
  matrix or an isomer purpose (with no "bitki").
*/
module LegacyEvidenceFirst {
  import opened Wrappers
  import opened Text
  import opened Sheet
  import opened IchRules
  import EF = EvidenceFirst

  /** The script's filter applies the substring test to every matrix and
      purpose cell and cannot mask with a missing one, so every such cell
      must be present. */
  predicate Readable(db: seq<Record>)
  {
    forall r <- db :: r.matrix.Text? && r.purpose.Text?
  }

  /** Whether a rule of this chain fires on the lowercased matrix `m` and
      purpose `p`; rules 1, 2, 3 and 6 are those of the interactive page. */
  predicate Fires(rule: Rule, m: string, p: string)
  {
    match rule
    case StructureElucidation =>
      Contains(p, "safsızlık") || Contains(p, "tanımlama") || Contains(p, "metabolit")
    case Phytochemical =>
      Contains(m, "ekstrakt") || Contains(p, "izomer")
    case _ => EF.Fires(rule, m, p)
  }

  /** The text shown when no rule fires. */
  const BeMoreSpecific: string := "Analiz amacınızı veya matriksinizi daha spesifik belirtin."

  /** The report for a matrix and a purpose over the sheet `db`, as its
      parts: the instrument, the figures and which justification. */
  function Recommend(matrixQuery: string, purposeQuery: string, db: seq<Record>): (r: Result<EF.Answer, EF.Failure>)
    requires Readable(db)
    ensures var sub := EF.SimilarRecords(db, matrixQuery, purposeQuery);
      r.Err? <==> |sub| >= 2 && forall x <- sub :: x.instrument.Missing?
    ensures var sub := EF.SimilarRecords(db, matrixQuery, purposeQuery);
      r.Ok? ==> (r.value.provenance.LiteratureFocused? <==> |sub| >= 2)
    ensures var sub := EF.SimilarRecords(db, matrixQuery, purposeQuery);
      r.Ok? ==> r.value.provenance.records == |sub|
    ensures var sub := EF.SimilarRecords(db, matrixQuery, purposeQuery);
      r.Ok? && |sub| >= 2 ==>
        && IsModal(sub, r.value.instrument)
        && 1 <= Count(sub, r.value.instrument) <= |sub|
        && r.value.provenance.percent == Percent(Count(sub, r.value.instrument), |sub|)
        && 0.0 < r.value.provenance.percent <= 100.0
        && r.value.rationale == LiteratureSufficient
    ensures var sub := EF.SimilarRecords(db, matrixQuery, purposeQuery);
      |sub| < 2 ==> r == Ok(EF.RuleAnswer(Fires, BeMoreSpecific, Lower(matrixQuery), Lower(purposeQuery), |sub|))
  {
    var sub := EF.SimilarRecords(db, matrixQuery, purposeQuery);
    var n := |sub|;
    if n >= 2 then
      match LiteratureSupport(sub)
      case None => Err(EF.NoInstrumentCategory)
      case Some(s) => Ok(EF.Answer(s.instrument, EF.LiteratureFocused(n, s.percent), LiteratureSufficient))
    else
      Ok(EF.RuleAnswer(Fires, BeMoreSpecific, Lower(matrixQuery), Lower(purposeQuery), n))
  }
}

/** How the older recommender relates to the newer one, and the routings its
    own script expects. */
module LegacyEvidenceFirstFacts {
  import opened Wrappers
  import opened Text
  import opened Sheet
  import opened IchRules
  import EF = EvidenceFirst
  import EFF = EvidenceFirstFacts
  import opened LegacyEvidenceFirst

  /** On a sheet without missing matrix or purpose cells both variants select
      the same records, so whenever the literature suffices they give the
      same answer. */
  lemma LiteratureAgrees(matrixQuery: string, purposeQuery: string, db: seq<Record>)
    requires Readable(db)
    requires |EF.SimilarRecords(db, matrixQuery, purposeQuery)| >= 2
    ensures Recommend(matrixQuery, purposeQuery, db) == EF.Recommend(matrixQuery, purposeQuery, db)
  {
  }

  /** Without "izomer" in the purpose and "bitki" in the matrix the two rule
      chains pick the same rule. */
  lemma RuleChainsAgree(m: string, p: string)
    requires !Contains(p, "izomer") && !Contains(m, "bitki")
    ensures FirstRule(Fires, m, p) == FirstRule(EF.Fires, m, p)
  {
    assert Fires(StructureElucidation, m, p) == EF.Fires(StructureElucidation, m, p);
    assert Fires(Phytochemical, m, p) == EF.Fires(Phytochemical, m, p);
  }

  /** An isomer question that no earlier rule catches is a structure question
      for the newer chain but a phytochemical one for this chain. */
  lemma IsomerChangesRule(m: string, p: string)
    requires Contains(p, "izomer")
    requires forall q :: Rank(q) < 4 ==> !EF.Fires(q, m, p)
    requires !Fires(StructureElucidation, m, p)
    ensures FirstRule(EF.Fires, m, p) == Some(StructureElucidation)
    ensures FirstRule(Fires, m, p) == Some(Phytochemical)
  {
    assert !EF.Fires(BiologicIntegrity, m, p) && Rank(BiologicIntegrity) < 4;
    assert !EF.Fires(BioanalyticalMatrix, m, p) && Rank(BioanalyticalMatrix) < 4;
    assert !EF.Fires(InorganicIon, m, p) && Rank(InorganicIon) < 4;
  }

  /** A plant matrix without "ekstrakt" that reaches rule 5 of the newer
      chain skips rule 5 of this one and goes on to rule 6 or to no rule. */
  lemma PlantMatrixFallsThrough(m: string, p: string)
    requires Contains(m, "bitki") && !Contains(m, "ekstrakt") && !Contains(p, "izomer")
    requires forall q :: Rank(q) < 5 ==> !EF.Fires(q, m, p)
    ensures FirstRule(EF.Fires, m, p) == Some(Phytochemical)
    ensures FirstRule(Fires, m, p) == if EF.Fires(RoutineAssay, m, p) then Some(RoutineAssay) else None
  {
    assert !EF.Fires(BiologicIntegrity, m, p) && Rank(BiologicIntegrity) < 5;
    assert !EF.Fires(BioanalyticalMatrix, m, p) && Rank(BioanalyticalMatrix) < 5;
    assert !EF.Fires(InorganicIon, m, p) && Rank(InorganicIon) < 5;
    assert !EF.Fires(StructureElucidation, m, p) && Rank(StructureElucidation) < 5;
  }

  /** With fewer than two similar records the answer is the rule chain's on
      the lowercased inputs `m` and `p`. */
  lemma FewRecords(matrixQuery: string, purposeQuery: string, m: string, p: string, db: seq<Record>)
    requires Readable(db)
    requires Lower(matrixQuery) == m && Lower(purposeQuery) == p
    requires |EF.SimilarRecords(db, matrixQuery, purposeQuery)| < 2
    ensures Recommend(matrixQuery, purposeQuery, db) ==
      Ok(EF.RuleAnswer(Fires, BeMoreSpecific, m, p, |EF.SimilarRecords(db, matrixQuery, purposeQuery)|))
  {
  }

  /** Rule 4 of this chain stays silent when its keywords miss a letter that
      the lowercased purpose lacks. */
  lemma Rule4Silent(m: string, p: string)
    requires 's' !in p && 't' !in p
    ensures !Fires(StructureElucidation, m, p)
  {
    Absent(p, "safsızlık", 's');
    Absent(p, "tanımlama", 't');
    Absent(p, "metabolit", 't');
  }

  /** The lowercased inputs of the script's test calls. */
  lemma InjectionLowered(injection: string)
    requires injection == "Enjeksiyon Sıvısı"
    ensures Lower(injection) == "enjeksiyon sıvısı"
  {
    LowerPlainIs(injection, "enjeksiyon sıvısı");
  }

  lemma ChargeVariantLowered(chargeVariant: string)
    requires chargeVariant == "Yük Varyantı Analizi"
    ensures Lower(chargeVariant) == "yük varyantı analizi"
  {
    LowerPlainIs(chargeVariant, "yük varyantı analizi");
  }

  lemma FluidLowered(fluid: string)
    requires fluid == "Biyolojik Sıvı"
    ensures Lower(fluid) == "biyolojik sıvı"
  {
    LowerPlainIs(fluid, "biyolojik sıvı");
  }

  lemma QuantitationLowered(quantitation: string)
    requires quantitation == "Klinik Kantitasyon"
    ensures Lower(quantitation) == "klinik kantitasyon"
  {
    LowerPlainIs(quantitation, "klinik kantitasyon");
  }

  lemma ExtractLowered(extract: string)
    requires extract == "Kök Ekstraktı"
    ensures Lower(extract) == "kök ekstraktı"
  {
    LowerPlainIs(extract, "kök ekstraktı");
  }

  lemma ChargeVariantRule(n: nat)
    ensures EF.RuleAnswer(Fires, BeMoreSpecific, "enjeksiyon sıvısı", "yük varyantı analizi", n) ==
      EF.Answer("CEX-HPLC, SEC-HPLC veya Kılcal Elektroforez (CE)", EF.RuleSetFocused(n), RuleRationale(BiologicIntegrity))
  {
    Found("yük varyantı analizi", "yük varyantı", 0);
  }

  /** The charge-variant query of a monoclonal antibody without enough
      literature goes to the CEX/SEC/CE family by rule 1. */
  lemma ChargeVariantQuery(db: seq<Record>)
    requires Readable(db)
    requires |EF.SimilarRecords(db, "Enjeksiyon Sıvısı", "Yük Varyantı Analizi")| < 2
    ensures Recommend("Enjeksiyon Sıvısı", "Yük Varyantı Analizi", db) ==
      Ok(EF.Answer("CEX-HPLC, SEC-HPLC veya Kılcal Elektroforez (CE)",
                   EF.RuleSetFocused(|EF.SimilarRecords(db, "Enjeksiyon Sıvısı", "Yük Varyantı Analizi")|),
                   RuleRationale(BiologicIntegrity)))
  {
    InjectionLowered("Enjeksiyon Sıvısı");
    ChargeVariantLowered("Yük Varyantı Analizi");
    FewRecords("Enjeksiyon Sıvısı", "Yük Varyantı Analizi", "enjeksiyon sıvısı", "yük varyantı analizi", db);
    ChargeVariantRule(|EF.SimilarRecords(db, "Enjeksiyon Sıvısı", "Yük Varyantı Analizi")|);
  }

  /** The letters the lowered worked cases lack, one position at a time. */
  lemma ClinicalLetters(m: string, p: string)
    requires m == "biyolojik sıvı" && p == "klinik kantitasyon"
    ensures 'p' !in p && 'ü' !in p && 'g' !in p
    ensures 'ş' !in m && 'z' !in m && 'd' !in m && 'u' !in m
  {
    assert forall i :: 0 <= i < |m| ==> m[i] != 'ş' && m[i] != 'z' && m[i] != 'd' && m[i] != 'u';
    assert forall i :: 0 <= i < |p| ==> p[i] != 'p' && p[i] != 'ü' && p[i] != 'g';
  }

  lemma ClinicalRule(m: string, p: string, n: nat)
    requires m == "biyolojik sıvı" && p == "klinik kantitasyon"
    ensures EF.RuleAnswer(Fires, BeMoreSpecific, m, p, n) ==
      EF.Answer("İyon Seçici Elektrot (ISE) veya ICP-MS", EF.RuleSetFocused(n), RuleRationale(InorganicIon))
  {
    ClinicalLetters(m, p);
    EFF.Rule1Silent(m, p);
    EFF.Rule2Silent(m, p);
    Found(p, "kantitasyon", 7);
  }

  /** The clinical quantitation in a biological fluid without enough
      literature goes to ISE or ICP-MS by rule 3. */
  lemma ClinicalIonQuery(db: seq<Record>)
    requires Readable(db)
    requires |EF.SimilarRecords(db, "Biyolojik Sıvı", "Klinik Kantitasyon")| < 2
    ensures Recommend("Biyolojik Sıvı", "Klinik Kantitasyon", db) ==
      Ok(EF.Answer("İyon Seçici Elektrot (ISE) veya ICP-MS",
                   EF.RuleSetFocused(|EF.SimilarRecords(db, "Biyolojik Sıvı", "Klinik Kantitasyon")|),
                   RuleRationale(InorganicIon)))
  {
    FluidLowered("Biyolojik Sıvı");
    QuantitationLowered("Klinik Kantitasyon");
    FewRecords("Biyolojik Sıvı", "Klinik Kantitasyon", "biyolojik sıvı", "klinik kantitasyon", db);
    ClinicalRule("biyolojik sıvı", "klinik kantitasyon", |EF.SimilarRecords(db, "Biyolojik Sıvı", "Klinik Kantitasyon")|);
  }

  lemma RootExtractLetters(m: string, p: string)
    requires m == "kök ekstraktı" && p == "i\U{0307}zomer ayrımı"
    ensures 'p' !in p && 'ü' !in p && 'g' !in p && 't' !in p && 'n' !in p && 's' !in p
    ensures 'ş' !in m && 'z' !in m && 'd' !in m && 'u' !in m
  {
    assert forall i :: 0 <= i < |m| ==> m[i] != 'ş' && m[i] != 'z' && m[i] != 'd' && m[i] != 'u';
    assert forall i :: 0 <= i < |p| ==> p[i] != 'p' && p[i] != 'ü' && p[i] != 'g' && p[i] != 't' && p[i] != 'n' && p[i] != 's';
  }

  lemma NoEarlyRuleForRootExtract(m: string, p: string)
    requires m == "kök ekstraktı" && p == "i\U{0307}zomer ayrımı"
    ensures !Fires(BiologicIntegrity, m, p) && !Fires(BioanalyticalMatrix, m, p) && !Fires(InorganicIon, m, p)
  {
    RootExtractLetters(m, p);
    EFF.Rule1Silent(m, p);
    EFF.Rule2Silent(m, p);
    EFF.Rule3Silent(m, p);
  }

  lemma RootExtractRule(m: string, p: string, n: nat)
    requires m == "kök ekstraktı" && p == "i\U{0307}zomer ayrımı"
    ensures EF.RuleAnswer(Fires, BeMoreSpecific, m, p, n) ==
      EF.Answer("UPLC-MS veya HPLC-DAD", EF.RuleSetFocused(n), RuleRationale(Phytochemical))
  {
    NoEarlyRuleForRootExtract(m, p);
    RootExtractLetters(m, p);
    Rule4Silent(m, p);
    Found(m, "ekstrakt", 4);
  }

  /** The isomer separation in a root extract without enough literature goes
      to UPLC-MS or HPLC-DAD by rule 5, through the extract matrix: the
      lowered purpose carries U+0307 after its `i` and so does not contain
      "izomer". */
  lemma RootExtractQuery(db: seq<Record>)
    requires Readable(db)
    requires |EF.SimilarRecords(db, "Kök Ekstraktı", "İzomer Ayrımı")| < 2
    ensures Recommend("Kök Ekstraktı", "İzomer Ayrımı", db) ==
      Ok(EF.Answer("UPLC-MS veya HPLC-DAD",
                   EF.RuleSetFocused(|EF.SimilarRecords(db, "Kök Ekstraktı", "İzomer Ayrımı")|),
                   RuleRationale(Phytochemical)))
  {
    ExtractLowered("Kök Ekstraktı");
    EFF.IsomerLowered("İzomer Ayrımı", "i\U{0307}zomer ayrımı");
    FewRecords("Kök Ekstraktı", "İzomer Ayrımı", "kök ekstraktı", "i\U{0307}zomer ayrımı", db);
    RootExtractRule("kök ekstraktı", "i\U{0307}zomer ayrımı", |EF.SimilarRecords(db, "Kök Ekstraktı", "İzomer Ayrımı")|);
  }

  lemma PharmacokineticRule(m: string, p: string, n: nat)
    requires m == "plazma" && p == "farmakokinetik"
    ensures EF.RuleAnswer(Fires, BeMoreSpecific, m, p, n) ==
      EF.Answer("LC-MS/MS", EF.RuleSetFocused(n), RuleRationale(BioanalyticalMatrix))
  {
    EFF.PlasmaLetters(m, p);
    EFF.Rule1Silent(m, p);
    Found(m, "plazma", 0);
  }

  /** Plasma pharmacokinetics without enough literature goes to LC-MS/MS by
      rule 2. */
  lemma PharmacokineticQuery(db: seq<Record>)
    requires Readable(db)
    requires |EF.SimilarRecords(db, "Plazma", "Farmakokinetik")| < 2
    ensures Recommend("Plazma", "Farmakokinetik", db) ==
      Ok(EF.Answer("LC-MS/MS",
                   EF.RuleSetFocused(|EF.SimilarRecords(db, "Plazma", "Farmakokinetik")|),
                   RuleRationale(BioanalyticalMatrix)))
  {
    EFF.PlasmaLowered("Plazma");
    EFF.PharmacokineticLowered("Farmakokinetik");
    FewRecords("Plazma", "Farmakokinetik", "plazma", "farmakokinetik", db);
    PharmacokineticRule("plazma", "farmakokinetik", |EF.SimilarRecords(db, "Plazma", "Farmakokinetik")|);
  }
}
