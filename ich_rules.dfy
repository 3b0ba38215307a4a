/**
  The fallback rules of the evidence-first recommenders, shared by both
  variants: what each rule recommends, and which guideline its rationale
  names (as a label only).
*/
module IchRules {
  import opened Wrappers

  /** The six fallback rules, in the order they are tried. */
  datatype Rule =
    | BiologicIntegrity      // rule 1, rationale cites ICH Q6B
    | BioanalyticalMatrix    // rule 2, rationale cites ICH Q2
    | InorganicIon           // rule 3
    | StructureElucidation   // rule 4, rationale cites ICH Q3A/B
    | Phytochemical          // rule 5
    | RoutineAssay           // rule 6, rationale cites ICH Q6A

  /** A rule's place in the chain (1 is tried first). */
  function Rank(r: Rule): nat
  {
    match r
    case BiologicIntegrity => 1
    case BioanalyticalMatrix => 2
    case InorganicIon => 3
    case StructureElucidation => 4
    case Phytochemical => 5
    case RoutineAssay => 6
  }

  /** The first rule of the chain that fires, if any, where `fires` says
      whether a rule's keywords occur in the lowercased matrix `m` and
      purpose `p`: both variants try rules 1 to 6 in this order and stop at
      the first that fires. */
  function FirstRule(fires: (Rule, string, string) -> bool, m: string, p: string): (r: Option<Rule>)
    ensures r.Some? ==> fires(r.value, m, p)
    ensures r.Some? ==> forall q :: Rank(q) < Rank(r.value) ==> !fires(q, m, p)
    ensures r.None? <==> forall q :: !fires(q, m, p)
  {
    if fires(BiologicIntegrity, m, p) then Some(BiologicIntegrity)
    else if fires(BioanalyticalMatrix, m, p) then Some(BioanalyticalMatrix)
    else if fires(InorganicIon, m, p) then Some(InorganicIon)
    else if fires(StructureElucidation, m, p) then Some(StructureElucidation)
    else if fires(Phytochemical, m, p) then Some(Phytochemical)
    else if fires(RoutineAssay, m, p) then Some(RoutineAssay)
    else
      NoRuleFires(fires, m, p);
      None
  }

  /** A chain whose six rules each stay silent has no rule that fires. */
  lemma NoRuleFires(fires: (Rule, string, string) -> bool, m: string, p: string)
    requires !fires(BiologicIntegrity, m, p) && !fires(BioanalyticalMatrix, m, p) && !fires(InorganicIon, m, p)
    requires !fires(StructureElucidation, m, p) && !fires(Phytochemical, m, p) && !fires(RoutineAssay, m, p)
    ensures forall q :: !fires(q, m, p)
  {
    forall q ensures !fires(q, m, p) {
      match q
      case BiologicIntegrity =>
      case BioanalyticalMatrix =>
      case InorganicIon =>
      case StructureElucidation =>
      case Phytochemical =>
      case RoutineAssay =>
    }
  }

  /** The instrument text a rule recommends. */
  function Suggestion(r: Rule): string
  {
    match r
    case BiologicIntegrity => "CEX-HPLC, SEC-HPLC veya Kılcal Elektroforez (CE)"
    case BioanalyticalMatrix => "LC-MS/MS"
    case InorganicIon => "İyon Seçici Elektrot (ISE) veya ICP-MS"
    case StructureElucidation => "LC-MS veya GC-MS"
    case Phytochemical => "UPLC-MS veya HPLC-DAD"
    case RoutineAssay => "HPLC-UV / HPLC-DAD"
  }

  /** The justification shown with a recommendation; its prose is not
      modelled, only which justification it is. */
  datatype Rationale =
    | LiteratureSufficient
    | RuleRationale(rule: Rule)
    | NoRuleApplied
}
