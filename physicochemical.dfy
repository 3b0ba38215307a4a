/**
  The physicochemical recommender: the page narrows the literature sheet
  with four dropdown filters, scores six instruments with five fixed-weight
  rules over the analyte's properties, gives the most frequent instrument of
  the narrowed sheet a one-point literature bonus, and reports the best
  scoring instrument with the reasons that fired.
*/
module Physicochemical {
  import opened Wrappers
  import opened Sheet

  /** The dropdown option that switches a filter off. */
  const NoFilter: string := "Filtreleme Yok"
  /** The filler that loading writes into every empty cell; as a filter
      value it also switches the filter off. */
  const Unspecified: string := "Belirtilmemiş"

  // ----- Loading and filtering -----------------------------------------

  function FillCell(c: Cell): (f: Cell)
    ensures f.Text?
    ensures c.Text? ==> f == c
    ensures c.Missing? ==> f == Text(Unspecified)
  {
    match c
    case Missing => Text(Unspecified)
    case Text(_) => c
  }

  /** Loading replaces every empty cell by the 'Belirtilmemiş' filler. */
  function FillMissing(r: Record): (f: Record)
    ensures IsFilled(f)
    ensures forall col :: CellOf(r, col).Text? ==> CellOf(f, col) == CellOf(r, col)
    ensures forall col :: CellOf(r, col).Missing? ==> CellOf(f, col) == Text(Unspecified)
  {
    Record(FillCell(r.matrix), FillCell(r.purpose), FillCell(r.moleculeType), FillCell(r.instrument))
  }

  datatype Column = Matrix | Purpose | MoleculeType | InstrumentCategory

  function CellOf(r: Record, col: Column): Cell
  {
    match col
    case Matrix => r.matrix
    case Purpose => r.purpose
    case MoleculeType => r.moleculeType
    case InstrumentCategory => r.instrument
  }

  /** The option chosen in each of the four filter dropdowns. */
  datatype Selection = Selection(matrix: string, purpose: string, moleculeType: string, instrument: string)

  /** The dropdowns in the order the page builds them. */
  function Entries(sel: Selection): seq<(Column, string)>
  {
    [(Matrix, sel.matrix), (Purpose, sel.purpose), (MoleculeType, sel.moleculeType), (InstrumentCategory, sel.instrument)]
  }

  /** Whether a dropdown value constrains its column. */
  predicate Constrains(v: string)
  {
    v != NoFilter && v != Unspecified
  }

  /** One equality condition `column == value` of the sheet query. */
  datatype Condition = Condition(column: Column, value: string)

  /** The conditions of the constraining entries, in entry order. */
  function Conditions(es: seq<(Column, string)>): seq<Condition>
  {
    if es == [] then []
    else
      var last := es[|es| - 1];
      Conditions(es[..|es| - 1]) + (if Constrains(last.1) then [Condition(last.0, last.1)] else [])
  }

  lemma {:induction false} ConditionsMembership(es: seq<(Column, string)>, c: Condition)
    ensures c in Conditions(es) <==> Constrains(c.value) && (c.column, c.value) in es
  {
    if es != [] {
      ConditionsMembership(es[..|es| - 1], c);
      assert es == es[..|es| - 1] + [es[|es| - 1]];
    }
  }

  /** Collects the conditions of the active dropdowns, one step per dropdown. */
  method ActiveConditions(sel: Selection) returns (conds: seq<Condition>)
    ensures conds == Conditions(Entries(sel))
  {
    var es := Entries(sel);
    conds := [];
    for i := 0 to |es|
      invariant conds == Conditions(es[..i])
    {
      var (col, v) := es[i];
      if v != NoFilter && v != Unspecified {
        conds := conds + [Condition(col, v)];
      }
      assert es[..i + 1][..i] == es[..i];
    }
    assert es[..|es|] == es;
  }

  predicate Satisfies(r: Record, conds: seq<Condition>)
  {
    forall c <- conds :: CellOf(r, c.column) == Text(c.value)
  }

  /** The rows that satisfy every condition, in sheet order. */
  function Where(rows: seq<Record>, conds: seq<Condition>): (sub: seq<Record>)
    ensures |sub| <= |rows|
  {
    if rows == [] then []
    else
      var last := rows[|rows| - 1];
      Where(rows[..|rows| - 1], conds) + (if Satisfies(last, conds) then [last] else [])
  }

  lemma {:induction false} WhereMembership(rows: seq<Record>, conds: seq<Condition>, r: Record)
    ensures r in Where(rows, conds) <==> r in rows && Satisfies(r, conds)
  {
    if rows != [] {
      WhereMembership(rows[..|rows| - 1], conds, r);
      assert rows == rows[..|rows| - 1] + [rows[|rows| - 1]];
    }
  }

  /** A query that every row satisfies returns the sheet unchanged. */
  lemma {:induction false} WhereKeepsAll(rows: seq<Record>, conds: seq<Condition>)
    requires forall r <- rows :: Satisfies(r, conds)
    ensures Where(rows, conds) == rows
  {
    if rows != [] {
      var init, last := rows[..|rows| - 1], rows[|rows| - 1];
      assert rows == init + [last];
      WhereKeepsAll(init, conds);
    }
  }

  /** Runs the query over the sheet, one row at a time. */
  method Query(rows: seq<Record>, conds: seq<Condition>) returns (subset: seq<Record>)
    ensures subset == Where(rows, conds)
  {
    subset := [];
    for i := 0 to |rows|
      invariant subset == Where(rows[..i], conds)
    {
      if Satisfies(rows[i], conds) {
        subset := subset + [rows[i]];
      }
      assert rows[..i + 1][..i] == rows[..i];
    }
    assert rows[..|rows|] == rows;
  }

  /** A row agrees with every dropdown that constrains its column. */
  predicate Selected(r: Record, sel: Selection)
  {
    && (Constrains(sel.matrix) ==> r.matrix == Text(sel.matrix))
    && (Constrains(sel.purpose) ==> r.purpose == Text(sel.purpose))
    && (Constrains(sel.moleculeType) ==> r.moleculeType == Text(sel.moleculeType))
    && (Constrains(sel.instrument) ==> r.instrument == Text(sel.instrument))
  }

  /** The query the four dropdowns produce, written out. */
  lemma ConditionsOfSelection(sel: Selection)
    ensures Conditions(Entries(sel)) ==
      (if Constrains(sel.matrix) then [Condition(Matrix, sel.matrix)] else [])
      + (if Constrains(sel.purpose) then [Condition(Purpose, sel.purpose)] else [])
      + (if Constrains(sel.moleculeType) then [Condition(MoleculeType, sel.moleculeType)] else [])
      + (if Constrains(sel.instrument) then [Condition(InstrumentCategory, sel.instrument)] else [])
  {
    var es := Entries(sel);
    var c1 := if Constrains(sel.matrix) then [Condition(Matrix, sel.matrix)] else [];
    var c2 := if Constrains(sel.purpose) then [Condition(Purpose, sel.purpose)] else [];
    var c3 := if Constrains(sel.moleculeType) then [Condition(MoleculeType, sel.moleculeType)] else [];
    assert es[..1][..0] == [];
    assert Conditions(es[..1]) == c1;
    assert es[..2][..1] == es[..1];
    assert Conditions(es[..2]) == c1 + c2;
    assert es[..3][..2] == es[..2];
    assert Conditions(es[..3]) == c1 + c2 + c3;
    assert es[..|es| - 1] == es[..3];
  }

  /** The narrowed sheet holds exactly the rows of the sheet that agree
      with every active dropdown. */
  lemma SubsetSoundAndComplete(rows: seq<Record>, sel: Selection, r: Record)
    ensures r in Where(rows, Conditions(Entries(sel))) <==> r in rows && Selected(r, sel)
  {
    SatisfiesSelection(r, sel);
    WhereMembership(rows, Conditions(Entries(sel)), r);
  }

  /** A row meets the dropdowns' query exactly when it agrees with every
      constraining dropdown. */
  lemma SatisfiesSelection(r: Record, sel: Selection)
    ensures Satisfies(r, Conditions(Entries(sel))) <==> Selected(r, sel)
  {
    var conds := Conditions(Entries(sel));
    forall c | c in conds
      ensures Constrains(c.value) && (c.column, c.value) in Entries(sel)
    {
      ConditionsMembership(Entries(sel), c);
    }
    if Satisfies(r, conds) {
      var cs := [Condition(Matrix, sel.matrix), Condition(Purpose, sel.purpose),
                 Condition(MoleculeType, sel.moleculeType), Condition(InstrumentCategory, sel.instrument)];
      forall k | 0 <= k < 4 && Constrains(cs[k].value)
        ensures CellOf(r, cs[k].column) == Text(cs[k].value)
      {
        ConditionsMembership(Entries(sel), cs[k]);
      }
      assert Constrains(sel.matrix) ==> CellOf(r, cs[0].column) == Text(cs[0].value);
      assert Constrains(sel.purpose) ==> CellOf(r, cs[1].column) == Text(cs[1].value);
      assert Constrains(sel.moleculeType) ==> CellOf(r, cs[2].column) == Text(cs[2].value);
      assert Constrains(sel.instrument) ==> CellOf(r, cs[3].column) == Text(cs[3].value);
    }
  }

  /** With every dropdown on 'Filtreleme Yok' or 'Belirtilmemiş' the
      narrowed sheet is the whole sheet, unchanged. */
  lemma NoConstraintKeepsSheet(rows: seq<Record>, sel: Selection)
    requires !Constrains(sel.matrix) && !Constrains(sel.purpose)
    requires !Constrains(sel.moleculeType) && !Constrains(sel.instrument)
    ensures Conditions(Entries(sel)) == []
    ensures Where(rows, Conditions(Entries(sel))) == rows
  {
    ConditionsOfSelection(sel);
    WhereKeepsAll(rows, []);
  }

  // ----- Properties and instruments ------------------------------------

  /** The four solubility options. */
  datatype Solubility = InWater | InOrganicSolvents | InBoth | VeryLowSolubility
  /** The two volatility options. */
  datatype Volatility = Evaporates | NonVolatile
  /** The three molecular-weight bands: below 500 Da, 500 to 5000 Da, above 5000 Da. */
  datatype MolecularWeight = Small | Medium | Large
  /** The three expected-concentration bands: below 1 ng/mL, 1 to 100 ng/mL, above 100 ng/mL. */
  datatype Concentration = VeryLow | Low | High

  /** The analyte's properties as entered on the page. */
  datatype Properties = Properties(
    solubility: Solubility,
    volatility: Volatility,
    weight: MolecularWeight,
    uvAbsorbing: bool,
    fluorescent: bool,
    concentration: Concentration)

  predicate LowConcentration(p: Properties)
  {
    p.concentration == VeryLow || p.concentration == Low
  }

  datatype Instrument = LcMsMs | HplcUvDad | GcMs | SecCexHplc | IcpMs | Ce

  /** The score table's keys in insertion order, which is also the order in
      which ties are broken. */
  const Instruments: seq<Instrument> := [LcMsMs, HplcUvDad, GcMs, SecCexHplc, IcpMs, Ce]

  /** Position of an instrument in the score table. */
  function Slot(i: Instrument): (k: nat)
    ensures k < |Instruments| && Instruments[k] == i
  {
    match i
    case LcMsMs => 0
    case HplcUvDad => 1
    case GcMs => 2
    case SecCexHplc => 3
    case IcpMs => 4
    case Ce => 5
  }

  /** The key under which the score table stores an instrument. */
  function Key(i: Instrument): string
  {
    match i
    case LcMsMs => "LC-MS/MS"
    case HplcUvDad => "HPLC-UV/DAD"
    case GcMs => "GC-MS"
    case SecCexHplc => "SEC/CEX-HPLC"
    case IcpMs => "ICP-MS"
    case Ce => "CE"
  }

  /** Looks a sheet value up among the score table's keys. */
  function InstrumentOfKey(key: string): Option<Instrument>
  {
    if key == "LC-MS/MS" then Some(LcMsMs)
    else if key == "HPLC-UV/DAD" then Some(HplcUvDad)
    else if key == "GC-MS" then Some(GcMs)
    else if key == "SEC/CEX-HPLC" then Some(SecCexHplc)
    else if key == "ICP-MS" then Some(IcpMs)
    else if key == "CE" then Some(Ce)
    else None
  }

  /** A sheet value is found in the table exactly when it is an
      instrument's key. */
  lemma KeyLookup(key: string, i: Instrument)
    ensures InstrumentOfKey(key) == Some(i) <==> Key(i) == key
  {
  }

  // ----- Rules -----------------------------------------------------------

  /** What rules 1 to 5 leave in the score table for each instrument:
      the sum of the deltas of the rules that fire. */
  function RuleScore(p: Properties, i: Instrument): int
  {
    match i
    case LcMsMs =>
      (if p.weight == Small then 1 else 0) + (if LowConcentration(p) then 3 else 0)
    case HplcUvDad =>
      (if p.weight == Small then 1 else 0) - (if LowConcentration(p) then 1 else 0)
      + (if p.uvAbsorbing && !p.fluorescent then 2 else 0) + (if p.fluorescent then 3 else 0)
    case GcMs => if p.volatility == Evaporates then 3 else 0
    case SecCexHplc => if p.weight == Large then 3 else 0
    case IcpMs => 0
    case Ce => if p.weight == Large then 2 else 0
  }

  /** A score table with `d` added to instrument `i`. */
  function Bump(s: seq<int>, i: Instrument, d: int): (t: seq<int>)
    requires |s| == |Instruments|
    ensures |t| == |s|
  {
    s[Slot(i) := s[Slot(i)] + d]
  }

  /** Rule 1: a volatile analyte points to gas chromatography. */
  function VolatilityRule(s: seq<int>, p: Properties): (t: seq<int>)
    requires |s| == |Instruments|
    ensures |t| == |s|
  {
    if p.volatility == Evaporates then Bump(s, GcMs, 3) else s
  }

  /** Rule 2: small molecules suit HPLC-UV/DAD and LC-MS/MS, large ones
      SEC/CEX-HPLC and CE. */
  function WeightRule(s: seq<int>, p: Properties): (t: seq<int>)
    requires |s| == |Instruments|
    ensures |t| == |s|
  {
    if p.weight == Small then Bump(Bump(s, HplcUvDad, 1), LcMsMs, 1)
    else if p.weight == Large then Bump(Bump(s, SecCexHplc, 3), Ce, 2)
    else s
  }

  /** Rule 3: a low expected concentration favours mass spectrometry. */
  function ConcentrationRule(s: seq<int>, p: Properties): (t: seq<int>)
    requires |s| == |Instruments|
    ensures |t| == |s|
  {
    if LowConcentration(p) then Bump(Bump(s, LcMsMs, 3), HplcUvDad, -1) else s
  }

  /** Rule 4: the optical properties choose the HPLC detector. */
  function OpticsRule(s: seq<int>, p: Properties): (t: seq<int>)
    requires |s| == |Instruments|
    ensures |t| == |s|
  {
    var s1 := if p.uvAbsorbing && !p.fluorescent then Bump(s, HplcUvDad, 2) else s;
    if p.fluorescent then Bump(s1, HplcUvDad, 3) else s1
  }

  const ZeroScores: seq<int> := [0, 0, 0, 0, 0, 0]

  /** The score table after rules 1 to 4, applied in turn to the zero
      table (rule 5 scores nothing). */
  function RuleScores(p: Properties): (s: seq<int>)
    ensures |s| == |Instruments|
  {
    OpticsRule(ConcentrationRule(WeightRule(VolatilityRule(ZeroScores, p), p), p), p)
  }

  /** Each instrument ends with exactly the deltas of the rules that fired
      for it, and nothing else. */
  lemma RuleScoresClosedForm(p: Properties, i: Instrument)
    ensures RuleScores(p)[Slot(i)] == RuleScore(p, i)
  {
  }

  /** One entry of the justification list. */
  datatype Reason =
    | VolatileToGc
    | LargeMoleculeToSecCexCe
    | LowConcentrationToMs
    | UvDetector
    | FluorescenceDetector
    | SamplePreparation
    | LiteratureEvidence(records: nat)
    | VolatilityOverridesWeight
    | SpecifyMoreProperties

  /** The reasons rules 1 to 5 append, in the order they are evaluated.
      The small-molecule branch of rule 2 appends none. */
  function RuleReasons(p: Properties): seq<Reason>
  {
    (if p.volatility == Evaporates then [VolatileToGc] else [])
    + (if p.weight == Large then [LargeMoleculeToSecCexCe] else [])
    + (if LowConcentration(p) then [LowConcentrationToMs] else [])
    + ((if p.uvAbsorbing && !p.fluorescent then [UvDetector] else [])
       + (if p.fluorescent then [FluorescenceDetector] else []))
    + (if p.solubility == VeryLowSolubility then [SamplePreparation] else [])
  }

  /** The position at which a reason can be appended. */
  function Rank(r: Reason): nat
  {
    match r
    case VolatileToGc => 0
    case LargeMoleculeToSecCexCe => 1
    case LowConcentrationToMs => 2
    case UvDetector => 3
    case FluorescenceDetector => 4
    case SamplePreparation => 5
    case LiteratureEvidence(_) => 6
    case VolatilityOverridesWeight => 7
    case SpecifyMoreProperties => 8
  }

  /** Rule 1 on the score table in place. */
  method ApplyVolatility(score: array<int>, p: Properties) returns (added: seq<Reason>)
    requires score.Length == |Instruments|
    modifies score
    ensures score[..] == VolatilityRule(old(score[..]), p)
    ensures added == if p.volatility == Evaporates then [VolatileToGc] else []
  {
    added := [];
    if p.volatility == Evaporates {
      score[Slot(GcMs)] := score[Slot(GcMs)] + 3;
      added := [VolatileToGc];
    }
  }

  /** Rule 2 on the score table in place. */
  method ApplyWeight(score: array<int>, p: Properties) returns (added: seq<Reason>)
    requires score.Length == |Instruments|
    modifies score
    ensures score[..] == WeightRule(old(score[..]), p)
    ensures added == if p.weight == Large then [LargeMoleculeToSecCexCe] else []
  {
    added := [];
    if p.weight == Small {
      score[Slot(HplcUvDad)] := score[Slot(HplcUvDad)] + 1;
      score[Slot(LcMsMs)] := score[Slot(LcMsMs)] + 1;
    } else if p.weight == Large {
      score[Slot(SecCexHplc)] := score[Slot(SecCexHplc)] + 3;
      score[Slot(Ce)] := score[Slot(Ce)] + 2;
      added := [LargeMoleculeToSecCexCe];
    }
  }

  /** Rule 3 on the score table in place. */
  method ApplyConcentration(score: array<int>, p: Properties) returns (added: seq<Reason>)
    requires score.Length == |Instruments|
    modifies score
    ensures score[..] == ConcentrationRule(old(score[..]), p)
    ensures added == if LowConcentration(p) then [LowConcentrationToMs] else []
  {
    added := [];
    if p.concentration == VeryLow || p.concentration == Low {
      score[Slot(LcMsMs)] := score[Slot(LcMsMs)] + 3;
      score[Slot(HplcUvDad)] := score[Slot(HplcUvDad)] - 1;
      added := [LowConcentrationToMs];
    }
  }

  /** Rule 4 on the score table in place. */
  method ApplyOptics(score: array<int>, p: Properties) returns (added: seq<Reason>)
    requires score.Length == |Instruments|
    modifies score
    ensures score[..] == OpticsRule(old(score[..]), p)
    ensures added == (if p.uvAbsorbing && !p.fluorescent then [UvDetector] else [])
      + (if p.fluorescent then [FluorescenceDetector] else [])
  {
    added := [];
    if p.uvAbsorbing && !p.fluorescent {
      score[Slot(HplcUvDad)] := score[Slot(HplcUvDad)] + 2;
      added := added + [UvDetector];
    }
    if p.fluorescent {
      score[Slot(HplcUvDad)] := score[Slot(HplcUvDad)] + 3;
      added := added + [FluorescenceDetector];
    }
  }

  /** Seeds the score table with zeros and applies rules 1 to 5 in place,
      appending a reason for each rule that explains itself. */
  method TheoreticalScores(p: Properties) returns (score: array<int>, reasons: seq<Reason>)
    ensures fresh(score)
    ensures score[..] == RuleScores(p)
    ensures reasons == RuleReasons(p)
  {
    score := new int[|Instruments|];
    for k := 0 to |Instruments|
      invariant forall j :: 0 <= j < k ==> score[j] == 0
    {
      score[k] := 0;
    }
    assert score[..] == ZeroScores;
    var r1 := ApplyVolatility(score, p);
    var r2 := ApplyWeight(score, p);
    var r3 := ApplyConcentration(score, p);
    var r4 := ApplyOptics(score, p);
    // Rule 5: solubility only explains.
    var r5 := if p.solubility == VeryLowSolubility then [SamplePreparation] else [];
    reasons := r1 + r2 + r3 + r4 + r5;
  }

  /** ICP-MS is never scored by a rule; HPLC-UV/DAD is the only instrument
      a rule can push below zero, and only the low-concentration rule does. */
  lemma RuleScoreSigns(p: Properties, i: Instrument)
    ensures RuleScores(p)[Slot(IcpMs)] == 0
    ensures i != HplcUvDad ==> RuleScores(p)[Slot(i)] >= 0
    ensures RuleScores(p)[Slot(HplcUvDad)] < 0 <==>
      LowConcentration(p) && p.weight != Small && !p.uvAbsorbing && !p.fluorescent
  {
    RuleScoresClosedForm(p, IcpMs);
    RuleScoresClosedForm(p, i);
    RuleScoresClosedForm(p, HplcUvDad);
  }

  /** The solubility choice changes no score. */
  lemma SolubilityLeavesScores(p: Properties, s: Solubility)
    ensures RuleScores(p.(solubility := s)) == RuleScores(p)
  {
    var q := p.(solubility := s);
    forall k | 0 <= k < |Instruments| ensures RuleScores(q)[k] == RuleScores(p)[k] {
      var i := Instruments[k];
      assert Slot(i) == k;
      RuleScoresClosedForm(q, i);
      RuleScoresClosedForm(p, i);
    }
  }

  /** A very low solubility appends the sample-preparation reason, last
      among the rule reasons, and no other solubility adds one. */
  lemma SolubilityExplains(p: Properties)
    ensures SamplePreparation in RuleReasons(p) <==> p.solubility == VeryLowSolubility
    ensures RuleReasons(p.(solubility := VeryLowSolubility)) == RuleReasons(p.(solubility := InWater)) + [SamplePreparation]
  {
  }

  /** A small molecular weight changes the scores of HPLC-UV/DAD and
      LC-MS/MS by one each but appends no reason. */
  lemma SmallWeightIsSilent(p: Properties)
    requires p.weight == Medium
    ensures RuleReasons(p.(weight := Small)) == RuleReasons(p)
    ensures RuleScores(p.(weight := Small))[Slot(HplcUvDad)] == RuleScores(p)[Slot(HplcUvDad)] + 1
    ensures RuleScores(p.(weight := Small))[Slot(LcMsMs)] == RuleScores(p)[Slot(LcMsMs)] + 1
    ensures forall i :: i != HplcUvDad && i != LcMsMs ==>
      RuleScores(p.(weight := Small))[Slot(i)] == RuleScores(p)[Slot(i)]
  {
    var q := p.(weight := Small);
    forall i ensures RuleScores(q)[Slot(i)] == RuleScore(q, i) && RuleScores(p)[Slot(i)] == RuleScore(p, i) {
      RuleScoresClosedForm(q, i);
      RuleScoresClosedForm(p, i);
    }
  }

  /** Reasons listed with strictly increasing positions: in evaluation
      order, and none twice. */
  predicate InRankOrder(rs: seq<Reason>)
  {
    forall a, b :: 0 <= a < b < |rs| ==> Rank(rs[a]) < Rank(rs[b])
  }

  lemma AppendInRankOrder(rs: seq<Reason>, x: Reason)
    requires InRankOrder(rs)
    requires forall r <- rs :: Rank(r) < Rank(x)
    ensures InRankOrder(rs + [x])
  {
    var t := rs + [x];
    forall a, b | 0 <= a < b < |t| ensures Rank(t[a]) < Rank(t[b]) {
      if b == |rs| {
        assert t[a] in rs;
      }
    }
  }

  /** Two ordered lists, the first wholly below `mid` and the second wholly
      at or above it, make an ordered list. */
  lemma ConcatInRankOrder(xs: seq<Reason>, ys: seq<Reason>, mid: nat)
    requires InRankOrder(xs) && InRankOrder(ys)
    requires forall r <- xs :: Rank(r) < mid
    requires forall r <- ys :: mid <= Rank(r)
    ensures InRankOrder(xs + ys)
  {
    var t := xs + ys;
    forall a, b | 0 <= a < b < |t| ensures Rank(t[a]) < Rank(t[b]) {
      if b < |xs| {
        assert t[a] == xs[a] && t[b] == xs[b];
      } else if a >= |xs| {
        assert t[a] == ys[a - |xs|] && t[b] == ys[b - |xs|];
      } else {
        assert t[a] in xs && t[b] in ys;
      }
    }
  }

  /** The rule reasons come out in rule order, each at most once. */
  lemma RuleReasonsInOrder(p: Properties)
    ensures InRankOrder(RuleReasons(p))
    ensures forall r <- RuleReasons(p) :: Rank(r) <= 5
  {
    var r1, r2, r3, r4, r5 := RuleReasonPieces(p);
    PiecesInRankOrder(r1, r2, r3, r4, r5);
  }

  /** The rule reasons split into what each of rules 1 to 5 appends. */
  lemma RuleReasonPieces(p: Properties) returns (r1: seq<Reason>, r2: seq<Reason>, r3: seq<Reason>, r4: seq<Reason>, r5: seq<Reason>)
    ensures RuleReasons(p) == r1 + r2 + r3 + r4 + r5
    ensures |r1| <= 1 && |r2| <= 1 && |r3| <= 1 && |r5| <= 1 && InRankOrder(r4)
    ensures (forall r <- r1 :: Rank(r) == 0) && (forall r <- r2 :: Rank(r) == 1)
    ensures (forall r <- r3 :: Rank(r) == 2) && (forall r <- r4 :: 3 <= Rank(r) <= 4)
    ensures forall r <- r5 :: Rank(r) == 5
  {
    r1 := if p.volatility == Evaporates then [VolatileToGc] else [];
    r2 := if p.weight == Large then [LargeMoleculeToSecCexCe] else [];
    r3 := if LowConcentration(p) then [LowConcentrationToMs] else [];
    r4 := (if p.uvAbsorbing && !p.fluorescent then [UvDetector] else [])
      + (if p.fluorescent then [FluorescenceDetector] else []);
    r5 := if p.solubility == VeryLowSolubility then [SamplePreparation] else [];
  }

  /** Five ordered pieces in consecutive position bands make an ordered
      list. */
  lemma PiecesInRankOrder(r1: seq<Reason>, r2: seq<Reason>, r3: seq<Reason>, r4: seq<Reason>, r5: seq<Reason>)
    requires |r1| <= 1 && |r2| <= 1 && |r3| <= 1 && |r5| <= 1 && InRankOrder(r4)
    requires (forall r <- r1 :: Rank(r) == 0) && (forall r <- r2 :: Rank(r) == 1)
    requires (forall r <- r3 :: Rank(r) == 2) && (forall r <- r4 :: 3 <= Rank(r) <= 4)
    requires forall r <- r5 :: Rank(r) == 5
    ensures InRankOrder(r1 + r2 + r3 + r4 + r5)
    ensures forall r <- r1 + r2 + r3 + r4 + r5 :: Rank(r) <= 5
  {
    ConcatInRankOrder(r1, r2, 1);
    ConcatInRankOrder(r1 + r2, r3, 2);
    ConcatInRankOrder(r1 + r2 + r3, r4, 3);
    ConcatInRankOrder(r1 + r2 + r3 + r4, r5, 5);
  }

  // ----- Literature bonus and final decision ---------------------------

  /** Adds the literature point to the instrument `b`, if any. */
  function WithBonus(s: seq<int>, b: Option<Instrument>): (t: seq<int>)
    requires |s| == |Instruments|
    ensures |t| == |s|
  {
    match b
    case None => s
    case Some(i) => s[Slot(i) := s[Slot(i)] + 1]
  }

  /** The first position holding the largest score: what `max` over the
      table's keys returns, since it keeps the first of equal scores. */
  function BestSlot(s: seq<int>): (k: nat)
    requires |s| > 0
    ensures k < |s|
    ensures forall j :: 0 <= j < |s| ==> s[j] <= s[k]
    ensures forall j :: 0 <= j < k ==> s[j] < s[k]
  {
    if |s| == 1 then 0
    else
      var k := BestSlot(s[..|s| - 1]);
      if s[|s| - 1] > s[k] then |s| - 1 else k
  }

  /** Being maximal and earlier than every other maximum pins the
      position down. */
  lemma BestSlotUnique(s: seq<int>, k: nat)
    requires k < |s|
    requires forall j :: 0 <= j < |s| ==> s[j] <= s[k]
    requires forall j :: 0 <= j < k ==> s[j] < s[k]
    ensures k == BestSlot(s)
  {
  }

  /** Python's `max(table, key=table.get)` over the score table. */
  method ArgMax(a: array<int>) returns (k: nat)
    requires a.Length > 0
    ensures k == BestSlot(a[..])
  {
    k := 0;
    for i := 1 to a.Length
      invariant k < i
      invariant forall j :: 0 <= j < i ==> a[j] <= a[k]
      invariant forall j :: 0 <= j < k ==> a[j] < a[k]
    {
      if a[i] > a[k] {
        k := i;
      }
    }
    BestSlotUnique(a[..], k);
  }

  datatype Device = Undetermined | Chosen(instrument: Instrument)

  /** The kind of source shown with the recommendation. */
  datatype Basis = Theoretical | DatabaseReinforced | InsufficientDataAndProperties

  /** What the page shows: the device, the kind of source, the reasons in
      order, and (for inspection) the final score table and the number of
      records in the narrowed sheet. */
  datatype Recommendation = Recommendation(
    device: Device,
    basis: Basis,
    reasons: seq<Reason>,
    scores: seq<int>,
    records: nat)

  /** The most frequent instrument of the narrowed sheet is not a key of
      the score table (the page fails with a KeyError). */
  datatype LookupError = UnknownInstrumentKey(key: string)

  /** The final choice from a score table and the reasons collected so far:
      undetermined when the best score is 0 and no row was selected,
      otherwise the first best scoring instrument, with the derivatization
      note appended when gas chromatography wins for a large molecule. */
  function Conclude(p: Properties, n: nat, scores: seq<int>, reasons: seq<Reason>, reinforced: bool): Recommendation
    requires |scores| == |Instruments|
  {
    var k := BestSlot(scores);
    if scores[k] == 0 && n == 0 then
      Recommendation(Undetermined, InsufficientDataAndProperties, [SpecifyMoreProperties], scores, n)
    else
      var winner := Instruments[k];
      var note := if winner == GcMs && p.weight == Large then [VolatilityOverridesWeight] else [];
      Recommendation(Chosen(winner), if reinforced then DatabaseReinforced else Theoretical, reasons + note, scores, n)
  }

  /** The decision once `n` rows were selected and `modal` is their most
      frequent instrument category (None when no row was selected). */
  function Decide(p: Properties, n: nat, modal: Option<string>): Result<Recommendation, LookupError>
    requires modal.Some? <==> n > 0
  {
    if modal.None? then
      Ok(Conclude(p, n, RuleScores(p), RuleReasons(p), false))
    else if InstrumentOfKey(modal.value).None? then
      Err(UnknownInstrumentKey(modal.value))
    else
      Ok(Conclude(p, n, WithBonus(RuleScores(p), InstrumentOfKey(modal.value)),
                  RuleReasons(p) + [LiteratureEvidence(n)], true))
  }

  /** Picks the winner on the score table and composes the recommendation. */
  method Finish(p: Properties, n: nat, score: array<int>, reasons: seq<Reason>, reinforced: bool)
    returns (r: Recommendation)
    requires score.Length == |Instruments|
    ensures r == Conclude(p, n, score[..], reasons, reinforced)
  {
    var k := ArgMax(score);
    if score[k] == 0 && n == 0 {
      r := Recommendation(Undetermined, InsufficientDataAndProperties, [SpecifyMoreProperties], score[..], n);
    } else {
      var winner := Instruments[k];
      var all := reasons;
      if winner == GcMs && p.weight == Large {
        all := all + [VolatilityOverridesWeight];
      }
      r := Recommendation(Chosen(winner), if reinforced then DatabaseReinforced else Theoretical, all, score[..], n);
    }
  }

  /** Counts the rows of instrument category `v` in one pass. */
  method CountOf(rows: seq<Record>, v: string) returns (c: nat)
    ensures c == Count(rows, v)
  {
    c := 0;
    for i := 0 to |rows|
      invariant c == Count(rows[..i], v)
    {
      assert rows[..i + 1][..i] == rows[..i];
      if rows[i].instrument == Text(v) {
        c := c + 1;
      }
    }
    assert rows[..|rows|] == rows;
  }

  /** The first index of the instrument categories' frequency table:
      a category of maximal count. */
  method MostFrequent(rows: seq<Record>) returns (m: string)
    requires |rows| > 0
    requires forall r <- rows :: r.instrument.Text?
    ensures IsModal(rows, m)
  {
    m := rows[0].instrument.value;
    var best := CountOf(rows, m);
    CountOccurrence(rows, 0);
    for i := 1 to |rows|
      invariant best == Count(rows, m) && best >= 1
      invariant forall j :: 0 <= j < i ==> Count(rows, rows[j].instrument.value) <= best
    {
      var c := CountOf(rows, rows[i].instrument.value);
      if c > best {
        m, best := rows[i].instrument.value, c;
      }
    }
    forall x | Count(rows, x) > best ensures false {
      CountPositive(rows, x);
    }
  }

  /** The decision block of the page: narrow the sheet, score the rules,
      add the literature bonus, pick the best instrument and compose the
      justification. `modal` reports the category that got the bonus. */
  method Recommend(table: seq<Record>, sel: Selection, p: Properties)
    returns (modal: Option<string>, result: Result<Recommendation, LookupError>)
    requires forall r <- table :: IsFilled(r)
    ensures modal.Some? <==> |Where(table, Conditions(Entries(sel)))| > 0
    ensures modal.Some? ==> IsModal(Where(table, Conditions(Entries(sel))), modal.value)
    ensures result == Decide(p, |Where(table, Conditions(Entries(sel)))|, modal)
  {
    var conds := ActiveConditions(sel);
    var subset := Query(table, conds);
    var n := |subset|;
    var score, reasons := TheoreticalScores(p);
    if n == 0 {
      modal := None;
      var r := Finish(p, n, score, reasons, false);
      result := Ok(r);
    } else {
      forall r | r in subset ensures r.instrument.Text? {
        WhereMembership(table, conds, r);
      }
      var m := MostFrequent(subset);
      modal := Some(m);
      result := WithLiterature(p, n, m, score, reasons);
    }
  }

  /** The literature branch: the modal category's instrument gains a point
      and the literature reason follows the rule reasons. */
  method WithLiterature(p: Properties, n: nat, m: string, score: array<int>, reasons: seq<Reason>)
    returns (result: Result<Recommendation, LookupError>)
    requires n > 0 && score.Length == |Instruments|
    requires score[..] == RuleScores(p) && reasons == RuleReasons(p)
    modifies score
    ensures result == Decide(p, n, Some(m))
    ensures score[..] == WithBonus(old(score[..]), InstrumentOfKey(m))
    ensures result.Ok? ==> score[..] == result.value.scores
    ensures result.Err? ==> score[..] == old(score[..])
  {
    var key := InstrumentOfKey(m);
    if key.None? {
      result := Err(UnknownInstrumentKey(m));
    } else {
      score[Slot(key.value)] := score[Slot(key.value)] + 1;
      assert score[..] == WithBonus(RuleScores(p), key);
      var r := Finish(p, n, score, reasons + [LiteratureEvidence(n)], true);
      result := Ok(r);
    }
  }
}

/** Properties of the physicochemical decision. */
module PhysicochemicalFacts {
  import opened Wrappers
  import opened Sheet
  import opened Physicochemical

  /** The decision fails exactly when the narrowed sheet's most frequent
      category is not one of the six score keys. */
  lemma FailsOnlyOnUnknownKey(p: Properties, n: nat, modal: Option<string>)
    requires modal.Some? <==> n > 0
    ensures Decide(p, n, modal).Err? <==> modal.Some? && forall i :: Key(i) != modal.value
  {
    if modal.Some? {
      forall i ensures InstrumentOfKey(modal.value) == Some(i) <==> Key(i) == modal.value {
        KeyLookup(modal.value, i);
      }
    }
  }

  /** With rows selected and a known modal key, that one instrument gains
      exactly one point, every other score is the rules' score, the source
      becomes the database-reinforced one, and the literature reason
      follows the rule reasons. */
  lemma LiteratureBonus(p: Properties, n: nat, i: Instrument)
    requires n > 0
    ensures Decide(p, n, Some(Key(i))).Ok?
    ensures Decide(p, n, Some(Key(i))).value.scores[Slot(i)] == RuleScores(p)[Slot(i)] + 1
    ensures forall j :: j != i ==> Decide(p, n, Some(Key(i))).value.scores[Slot(j)] == RuleScores(p)[Slot(j)]
    ensures Decide(p, n, Some(Key(i))).value.basis == DatabaseReinforced
    ensures Decide(p, n, Some(Key(i))).value.reasons[..|RuleReasons(p)| + 1] == RuleReasons(p) + [LiteratureEvidence(n)]
  {
    KeyLookup(Key(i), i);
    var scores := WithBonus(RuleScores(p), Some(i));
    forall j | j != i ensures scores[Slot(j)] == RuleScores(p)[Slot(j)] {
      assert Slot(j) != Slot(i);
    }
    var base := RuleReasons(p) + [LiteratureEvidence(n)];
    var r := Conclude(p, n, scores, base, true);
    assert r.reasons[..|base|] == base;
  }

  /** What a concluded decision is made of, case by case. */
  lemma ConcludeShape(p: Properties, n: nat, scores: seq<int>, reasons: seq<Reason>, reinforced: bool)
    requires |scores| == |Instruments|
    ensures var r := Conclude(p, n, scores, reasons, reinforced);
      && r.scores == scores
      && (scores[BestSlot(scores)] == 0 && n == 0 ==>
            r.device == Undetermined && r.basis == InsufficientDataAndProperties && r.reasons == [SpecifyMoreProperties])
      && (scores[BestSlot(scores)] != 0 || n != 0 ==>
            && r.device == Chosen(Instruments[BestSlot(scores)])
            && r.basis == (if reinforced then DatabaseReinforced else Theoretical)
            && r.reasons == reasons + (if r.device == Chosen(GcMs) && p.weight == Large then [VolatilityOverridesWeight] else []))
  {
  }

  /** No reason past the rules' positions is among the rule reasons. */
  lemma NotARuleReason(p: Properties, x: Reason)
    requires Rank(x) > 5
    ensures x !in RuleReasons(p)
  {
    RuleReasonsInOrder(p);
  }

  /** A concluded decision adds no reason besides the note and the request
      for more properties. */
  lemma ConcludeAvoids(p: Properties, n: nat, scores: seq<int>, reasons: seq<Reason>, reinforced: bool, x: Reason)
    requires |scores| == |Instruments|
    requires x !in reasons && x != VolatilityOverridesWeight && x != SpecifyMoreProperties
    ensures x !in Conclude(p, n, scores, reasons, reinforced).reasons
  {
  }

  /** With no row selected there is no bonus and the source is never the
      database-reinforced one. */
  lemma NoRowsNoBonus(p: Properties)
    ensures Decide(p, 0, None).Ok?
    ensures Decide(p, 0, None).value.scores == RuleScores(p)
    ensures Decide(p, 0, None).value.basis != DatabaseReinforced
    ensures LiteratureEvidence(0) !in Decide(p, 0, None).value.reasons
  {
    NotARuleReason(p, LiteratureEvidence(0));
    ConcludeAvoids(p, 0, RuleScores(p), RuleReasons(p), false, LiteratureEvidence(0));
  }

  /** The recommended instrument of a concluded decision is the first
      best scoring one. */
  lemma ConcludeWinner(p: Properties, n: nat, scores: seq<int>, reasons: seq<Reason>, reinforced: bool)
    requires |scores| == |Instruments|
    requires Conclude(p, n, scores, reasons, reinforced).device.Chosen?
    ensures var w := Slot(Conclude(p, n, scores, reasons, reinforced).device.instrument);
      && (forall j :: 0 <= j < |scores| ==> scores[j] <= scores[w])
      && (forall j :: 0 <= j < w ==> scores[j] < scores[w])
      && scores[w] >= scores[Slot(IcpMs)]
  {
    var k := BestSlot(scores);
    assert Slot(Instruments[k]) == k;
  }

  /** The winner's score is the largest, every instrument before it in the
      table scores strictly less, and the winning score is never negative
      (ICP-MS scores at least 0). */
  lemma WinnerIsFirstBest(p: Properties, n: nat, modal: Option<string>)
    requires modal.Some? <==> n > 0
    requires Decide(p, n, modal).Ok? && Decide(p, n, modal).value.device.Chosen?
    ensures var r := Decide(p, n, modal).value; var w := Slot(r.device.instrument);
      && (forall j :: 0 <= j < |r.scores| ==> r.scores[j] <= r.scores[w])
      && (forall j :: 0 <= j < w ==> r.scores[j] < r.scores[w])
      && r.scores[w] >= 0
  {
    RuleScoreSigns(p, IcpMs);
    if modal.None? {
      ConcludeWinner(p, n, RuleScores(p), RuleReasons(p), false);
    } else {
      var b := InstrumentOfKey(modal.value);
      var s := WithBonus(RuleScores(p), b);
      assert s[Slot(IcpMs)] >= 0;
      ConcludeWinner(p, n, s, RuleReasons(p) + [LiteratureEvidence(n)], true);
    }
  }

  /** Every rule's score is at most zero exactly when no scoring rule fires. */
  lemma RuleScoresZero(p: Properties)
    ensures (forall k :: 0 <= k < |Instruments| ==> RuleScores(p)[k] <= 0) <==>
      p.volatility == NonVolatile && p.weight == Medium && !LowConcentration(p)
      && !p.uvAbsorbing && !p.fluorescent
  {
    forall k | 0 <= k < |Instruments| ensures RuleScores(p)[k] == RuleScore(p, Instruments[k]) {
      assert Slot(Instruments[k]) == k;
      RuleScoresClosedForm(p, Instruments[k]);
    }
    assert Slot(LcMsMs) == 0 && Slot(HplcUvDad) == 1 && Slot(GcMs) == 2 && Slot(SecCexHplc) == 3;
  }

  /** 'Belirsiz' comes out exactly when no row was selected and no scoring
      rule fired; then the only reason is the request for more properties. */
  lemma UndeterminedExactly(p: Properties, n: nat, modal: Option<string>)
    requires modal.Some? <==> n > 0
    requires Decide(p, n, modal).Ok?
    ensures Decide(p, n, modal).value.device == Undetermined <==>
      n == 0 && p.volatility == NonVolatile && p.weight == Medium && !LowConcentration(p)
      && !p.uvAbsorbing && !p.fluorescent
    ensures Decide(p, n, modal).value.device == Undetermined ==>
      Decide(p, n, modal).value.basis == InsufficientDataAndProperties
      && Decide(p, n, modal).value.reasons == [SpecifyMoreProperties]
  {
    if modal.None? {
      RuleScoresZero(p);
      RuleScoreSigns(p, IcpMs);
      var s := RuleScores(p);
      var k := BestSlot(s);
      if s[k] == 0 {
        assert forall j :: 0 <= j < |Instruments| ==> s[j] <= 0;
      }
    }
  }

  /** On reasons without the note, a concluded decision carries the note
      exactly when gas chromatography wins for a large molecule, and then
      last. */
  lemma ConcludeNote(p: Properties, n: nat, scores: seq<int>, reasons: seq<Reason>, reinforced: bool)
    requires |scores| == |Instruments|
    requires VolatilityOverridesWeight !in reasons
    ensures var r := Conclude(p, n, scores, reasons, reinforced);
      && (VolatilityOverridesWeight in r.reasons <==> r.device == Chosen(GcMs) && p.weight == Large)
      && (r.device == Chosen(GcMs) && p.weight == Large ==> r.reasons[|r.reasons| - 1] == VolatilityOverridesWeight)
  {
  }

  lemma NoteWithoutRows(p: Properties)
    ensures var r := Decide(p, 0, None).value;
      && (VolatilityOverridesWeight in r.reasons <==> r.device == Chosen(GcMs) && p.weight == Large)
      && (r.device == Chosen(GcMs) && p.weight == Large ==> r.reasons[|r.reasons| - 1] == VolatilityOverridesWeight)
  {
    NotARuleReason(p, VolatilityOverridesWeight);
    ConcludeNote(p, 0, RuleScores(p), RuleReasons(p), false);
  }

  lemma NoteWithRows(p: Properties, n: nat, m: string)
    requires n > 0
    requires Decide(p, n, Some(m)).Ok?
    ensures var r := Decide(p, n, Some(m)).value;
      && (VolatilityOverridesWeight in r.reasons <==> r.device == Chosen(GcMs) && p.weight == Large)
      && (r.device == Chosen(GcMs) && p.weight == Large ==> r.reasons[|r.reasons| - 1] == VolatilityOverridesWeight)
  {
    NotARuleReason(p, VolatilityOverridesWeight);
    ConcludeNote(p, n, WithBonus(RuleScores(p), InstrumentOfKey(m)),
                 RuleReasons(p) + [LiteratureEvidence(n)], true);
  }

  /** The derivatization note appears exactly when gas chromatography wins
      for a large molecule, and then it is the last reason. */
  lemma DerivatizationNote(p: Properties, n: nat, modal: Option<string>)
    requires modal.Some? <==> n > 0
    requires Decide(p, n, modal).Ok?
    ensures var r := Decide(p, n, modal).value;
      VolatilityOverridesWeight in r.reasons <==> r.device == Chosen(GcMs) && p.weight == Large
    ensures var r := Decide(p, n, modal).value;
      r.device == Chosen(GcMs) && p.weight == Large ==> r.reasons[|r.reasons| - 1] == VolatilityOverridesWeight
  {
    if modal.None? {
      NoteWithoutRows(p);
    } else {
      NoteWithRows(p, n, modal.value);
    }
  }

  lemma ConcludeInRankOrder(p: Properties, n: nat, scores: seq<int>, reasons: seq<Reason>, reinforced: bool)
    requires |scores| == |Instruments|
    requires InRankOrder(reasons) && forall r <- reasons :: Rank(r) < Rank(VolatilityOverridesWeight)
    ensures InRankOrder(Conclude(p, n, scores, reasons, reinforced).reasons)
  {
    AppendInRankOrder(reasons, VolatilityOverridesWeight);
  }

  /** The literature reason follows the rule reasons in order. */
  lemma EvidenceAfterRules(p: Properties, n: nat)
    ensures InRankOrder(RuleReasons(p) + [LiteratureEvidence(n)])
    ensures forall r <- RuleReasons(p) + [LiteratureEvidence(n)] :: Rank(r) < Rank(VolatilityOverridesWeight)
  {
    RuleReasonsInOrder(p);
    AppendInRankOrder(RuleReasons(p), LiteratureEvidence(n));
  }

  lemma OrderWithoutRows(p: Properties)
    ensures InRankOrder(Decide(p, 0, None).value.reasons)
  {
    RuleReasonsInOrder(p);
    ConcludeInRankOrder(p, 0, RuleScores(p), RuleReasons(p), false);
  }

  lemma OrderWithRows(p: Properties, n: nat, m: string)
    requires n > 0
    requires Decide(p, n, Some(m)).Ok?
    ensures InRankOrder(Decide(p, n, Some(m)).value.reasons)
  {
    EvidenceAfterRules(p, n);
    ConcludeInRankOrder(p, n, WithBonus(RuleScores(p), InstrumentOfKey(m)),
                        RuleReasons(p) + [LiteratureEvidence(n)], true);
  }

  /** The reasons come out in the order the rules are evaluated, each at
      most once: rules 1 to 5, then the literature reason, then the note. */
  lemma ReasonsInEvaluationOrder(p: Properties, n: nat, modal: Option<string>)
    requires modal.Some? <==> n > 0
    requires Decide(p, n, modal).Ok?
    ensures InRankOrder(Decide(p, n, modal).value.reasons)
  {
    if modal.None? {
      OrderWithoutRows(p);
    } else {
      OrderWithRows(p, n, modal.value);
    }
  }

  /** A volatile large molecule scores 3 for both GC-MS and SEC/CEX-HPLC;
      the tie goes to GC-MS, which comes first in the table, and the
      derivatization note is appended. */
  lemma VolatileLargeMoleculeTie(p: Properties)
    requires p.volatility == Evaporates && p.weight == Large
    requires p.concentration == High && !p.uvAbsorbing && !p.fluorescent
    ensures Decide(p, 0, None).Ok?
    ensures Decide(p, 0, None).value.scores[Slot(GcMs)] == 3
    ensures Decide(p, 0, None).value.scores[Slot(SecCexHplc)] == 3
    ensures Decide(p, 0, None).value.device == Chosen(GcMs)
    ensures Decide(p, 0, None).value.basis == Theoretical
    ensures Decide(p, 0, None).value.reasons ==
      [VolatileToGc, LargeMoleculeToSecCexCe]
      + (if p.solubility == VeryLowSolubility then [SamplePreparation] else [])
      + [VolatilityOverridesWeight]
  {
    TieScores(p);
    ConcludeShape(p, 0, RuleScores(p), RuleReasons(p), false);
  }

  /** The score table of a volatile large molecule of high concentration
      without optical properties, and its first best position. */
  lemma TieScores(p: Properties)
    requires p.volatility == Evaporates && p.weight == Large
    requires p.concentration == High && !p.uvAbsorbing && !p.fluorescent
    ensures RuleScores(p) == [0, 0, 3, 3, 0, 2]
    ensures BestSlot(RuleScores(p)) == 2
  {
    var s := RuleScores(p);
    forall i ensures s[Slot(i)] == RuleScore(p, i) {
      RuleScoresClosedForm(p, i);
    }
    assert s == [0, 0, 3, 3, 0, 2];
    BestSlotUnique(s, 2);
  }
}
