/**
 * The hypertension decision rules of `logic.py`: the risk label, the list of
 * contraindicated drug classes, the treatment-group decision tree and the
 * dose table keyed by treatment group. Clinical values are exact reals, so
 * every threshold comparison is the mathematical one.
 */
module Logic {
  import opened Strings

  // ---------------------------------------------------------------------------
  // Risk classification
  // ---------------------------------------------------------------------------

  const PriorCvaRisk := "High Risk: Prior CVA"
  const CadRisk := "High Risk: CAD"
  const HfrefRisk := "High Risk: HFrEF"
  const DiabetesCkdRisk := "High Risk: DM with CKD"
  const CkdRisk := "High Risk: CKD"
  const LowRisk := "Low Risk"

  /**
   * `classify_risk`: the first condition in severity order decides the label.
   * The postconditions give each label as a condition on the inputs alone.
   */
  function ClassifyRisk(cva: bool, cad: bool, ef: real, diabetes: bool, egfr: real): (risk: string)
    ensures risk == PriorCvaRisk <==> cva
    ensures risk == CadRisk <==> !cva && cad
    ensures risk == HfrefRisk <==> !cva && !cad && ef < 40.0
    ensures risk == DiabetesCkdRisk <==> !cva && !cad && ef >= 40.0 && diabetes && egfr < 60.0
    ensures risk == CkdRisk <==> !cva && !cad && ef >= 40.0 && !diabetes && egfr < 60.0
    ensures risk == LowRisk <==> !cva && !cad && ef >= 40.0 && egfr >= 60.0
  {
    if cva then PriorCvaRisk
    else if cad then CadRisk
    else if ef < 40.0 then HfrefRisk
    else if diabetes && egfr < 60.0 then DiabetesCkdRisk
    else if egfr < 60.0 then CkdRisk
    else LowRisk
  }

  // ---------------------------------------------------------------------------
  // Contraindications
  // ---------------------------------------------------------------------------

  /** The drug classes a contraindication can name, with their display names. */
  datatype DrugClass = AceInhibitors | Arbs | Mras | BetaBlockers | Thiazides
  {
    function Name(): string
    {
      match this
      case AceInhibitors => "ACE inhibitors (A1)"
      case Arbs => "ARBs (A2)"
      case Mras => "MRAs (D3)"
      case BetaBlockers => "Beta-blockers (B)"
      case Thiazides => "Thiazides (D1)"
    }
  }

  /** The renal rule: raised creatinine or raised potassium. */
  predicate RenalRule(creatinine: real, potassium: real)
  {
    creatinine > 2.5 || potassium > 5.5
  }

  /** 1 when `b` holds, 0 otherwise. */
  function Count(b: bool): nat
  {
    if b then 1 else 0
  }

  /** The entries the renal rule contributes. */
  function RenalBlock(creatinine: real, potassium: real): seq<DrugClass>
  {
    if RenalRule(creatinine, potassium) then [AceInhibitors, Arbs, Mras] else []
  }

  /** The entry a pulse below 60 contributes. */
  function BradycardiaBlock(pulse: int): seq<DrugClass>
  {
    if pulse < 60 then [BetaBlockers] else []
  }

  /** The entry a dry cough contributes. */
  function CoughBlock(dryCough: bool): seq<DrugClass>
  {
    if dryCough then [AceInhibitors] else []
  }

  /** The entry a uric acid above 9 contributes. */
  function UricAcidBlock(uricAcid: real): seq<DrugClass>
  {
    if uricAcid > 9.0 then [Thiazides] else []
  }

  /**
   * The contraindication list as four independent blocks in their fixed
   * order: renal triple, bradycardia, dry cough, raised uric acid.
   */
  function Contraindications(creatinine: real, potassium: real, pulse: int, dryCough: bool, uricAcid: real): (list: seq<DrugClass>)
    ensures |list| == 3 * Count(RenalRule(creatinine, potassium)) + Count(pulse < 60) + Count(dryCough) + Count(uricAcid > 9.0)
    ensures Arbs in list <==> RenalRule(creatinine, potassium)
    ensures Mras in list <==> RenalRule(creatinine, potassium)
    ensures BetaBlockers in list <==> pulse < 60
    ensures Thiazides in list <==> uricAcid > 9.0
    ensures AceInhibitors in list <==> RenalRule(creatinine, potassium) || dryCough
  {
    RenalBlock(creatinine, potassium) + BradycardiaBlock(pulse) + CoughBlock(dryCough) + UricAcidBlock(uricAcid)
  }

  /** How many times `d` occurs in `list`. */
  function Occurrences(list: seq<DrugClass>, d: DrugClass): nat
  {
    if list == [] then 0 else Count(list[0] == d) + Occurrences(list[1..], d)
  }

  /** Occurrences add up over a concatenation. */
  lemma {:induction false} OccurrencesAppend(a: seq<DrugClass>, b: seq<DrugClass>, d: DrugClass)
    ensures Occurrences(a + b, d) == Occurrences(a, d) + Occurrences(b, d)
  {
    if a == [] {
      assert a + b == b;
    } else {
      assert (a + b)[1..] == a[1..] + b;
      OccurrencesAppend(a[1..], b, d);
    }
  }

  /**
   * The ACE-inhibitor entry occurs once per rule that names it: the renal
   * rule and the dry-cough rule, so twice when both fire.
   */
  lemma AceInhibitorCount(creatinine: real, potassium: real, pulse: int, dryCough: bool, uricAcid: real)
    ensures Occurrences(Contraindications(creatinine, potassium, pulse, dryCough, uricAcid), AceInhibitors)
      == Count(RenalRule(creatinine, potassium)) + Count(dryCough)
  {
    var renal, bradycardia := RenalBlock(creatinine, potassium), BradycardiaBlock(pulse);
    var cough, gout := CoughBlock(dryCough), UricAcidBlock(uricAcid);
    OccurrencesAppend(renal, bradycardia, AceInhibitors);
    OccurrencesAppend(renal + bradycardia, cough, AceInhibitors);
    OccurrencesAppend(renal + bradycardia + cough, gout, AceInhibitors);
    assert Occurrences(renal, AceInhibitors) == Count(RenalRule(creatinine, potassium)) by {
      if RenalRule(creatinine, potassium) {
        assert renal[1..] == [Arbs, Mras] && renal[1..][1..] == [Mras] && renal[1..][1..][1..] == [];
        assert Occurrences([Mras], AceInhibitors) == 0;
        assert Occurrences([Arbs, Mras], AceInhibitors) == 0;
      }
    }
  }

  /** `get_contraindications`: builds the list one rule at a time. */
  method GetContraindications(creatinine: real, potassium: real, pulse: int, dryCough: bool, uricAcid: real)
    returns (list: seq<DrugClass>)
    ensures list == Contraindications(creatinine, potassium, pulse, dryCough, uricAcid)
  {
    list := [];
    if creatinine > 2.5 || potassium > 5.5 {
      list := list + [AceInhibitors, Arbs, Mras];
    }
    assert list == RenalBlock(creatinine, potassium);
    if pulse < 60 {
      list := list + [BetaBlockers];
    }
    assert list == RenalBlock(creatinine, potassium) + BradycardiaBlock(pulse);
    if dryCough {
      list := list + [AceInhibitors];
    }
    assert list == RenalBlock(creatinine, potassium) + BradycardiaBlock(pulse) + CoughBlock(dryCough);
    if uricAcid > 9.0 {
      list := list + [Thiazides];
    }
  }

  /**
   * When the renal rule and the dry-cough rule both fire, the ACE-inhibitor
   * entry appears twice: once in the renal triple and once after it.
   */
  lemma DuplicateAceInhibitorKept(creatinine: real, potassium: real, pulse: int, uricAcid: real)
    requires RenalRule(creatinine, potassium)
    ensures var list := Contraindications(creatinine, potassium, pulse, true, uricAcid);
      list[0] == AceInhibitors && list[3 + Count(pulse < 60)] == AceInhibitors
      && Occurrences(list, AceInhibitors) == 2
  {
    AceInhibitorCount(creatinine, potassium, pulse, true, uricAcid);
  }

  /** Creatinine 3.0, potassium 4.0 and a dry cough, with no other rule firing. */
  lemma RenalAndCoughExample()
    ensures Contraindications(3.0, 4.0, 72, true, 6.0) == [AceInhibitors, Arbs, Mras, AceInhibitors]
  {
  }

  // ---------------------------------------------------------------------------
  // Treatment group
  // ---------------------------------------------------------------------------

  /** A group label: its dose-table key, a colon, a space and a description. */
  function Label(key: string, description: string): string
  {
    key + ": " + description
  }

  /** The descriptions of the ten group labels, in group order. */
  const GroupDescriptions: seq<string> := [
    "HFrEF + CKD", "HFrEF without CKD", "HFpEF with CAD + CKD", "HFpEF without CAD + Normal KFT",
    "CAD with normal KFT", "Prior CVA with normal KFT", "Diabetes with normal KFT", "Pregnancy",
    "Elderly with normal KFT", "Lifestyle first, then C"
  ]

  /** The ten group labels, "Group 1: HFrEF + CKD" to "Group 10: Lifestyle first, then C". */
  const Group1 := Label(GroupKeys[0], GroupDescriptions[0])
  const Group2 := Label(GroupKeys[1], GroupDescriptions[1])
  const Group3 := Label(GroupKeys[2], GroupDescriptions[2])
  const Group4 := Label(GroupKeys[3], GroupDescriptions[3])
  const Group5 := Label(GroupKeys[4], GroupDescriptions[4])
  const Group6 := Label(GroupKeys[5], GroupDescriptions[5])
  const Group7 := Label(GroupKeys[6], GroupDescriptions[6])
  const Group8 := Label(GroupKeys[7], GroupDescriptions[7])
  const Group9 := Label(GroupKeys[8], GroupDescriptions[8])
  const Group10 := Label(GroupKeys[9], GroupDescriptions[9])
  const CustomPlan := "Custom Plan Needed"

  /** The ten group labels, in group order. */
  const GroupLabels: seq<string> :=
    [Group1, Group2, Group3, Group4, Group5, Group6, Group7, Group8, Group9, Group10]

  /** Every label the decision tree can produce. */
  const TreatmentLabels: set<string> :=
    {Group1, Group2, Group3, Group4, Group5, Group6, Group7, Group8, Group9, Group10, CustomPlan}

  /**
   * `decide_treatment_group`: a first-match decision tree. The mid-range EF
   * branch (40..60) ends in "Custom Plan Needed" when neither of its two
   * inner conditions holds; the comorbidity chain is only reached for EF
   * above 60. The postconditions give every label as a condition on the
   * inputs alone.
   */
  function DecideTreatmentGroup(ef: real, egfr: real, cad: bool, cva: bool, diabetes: bool, pregnant: bool, age: int): (group: string)
    ensures group in TreatmentLabels
    ensures group == Group1 <==> ef < 40.0 && egfr < 60.0
    ensures group == Group2 <==> ef < 40.0 && egfr >= 60.0
    ensures group == Group3 <==> 40.0 <= ef <= 60.0 && cad && egfr < 60.0
    ensures group == Group4 <==> 40.0 <= ef <= 60.0 && !cad && egfr > 60.0
    ensures group == Group5 <==> ef > 60.0 && cad && egfr > 60.0
    ensures group == Group6 <==> ef > 60.0 && !cad && cva && egfr > 60.0
    ensures group == Group7 <==> ef > 60.0 && !cad && !cva && diabetes && egfr > 60.0
    ensures group == Group8 <==> ef > 60.0 && pregnant && !(egfr > 60.0 && (cad || cva || diabetes))
    ensures group == Group9 <==> ef > 60.0 && !pregnant && egfr > 60.0 && !cad && !cva && !diabetes && age > 80
    ensures group == Group10 <==> ef > 60.0 && !pregnant && egfr > 60.0 && !cad && !cva && !diabetes && age <= 80
    ensures group == CustomPlan <==>
      (40.0 <= ef <= 60.0 && !(cad && egfr < 60.0) && !(!cad && egfr > 60.0))
      || (ef > 60.0 && !pregnant && egfr <= 60.0)
  {
    LabelKeys();
    if ef < 40.0 then
      if egfr < 60.0 then Group1 else Group2
    else if 40.0 <= ef <= 60.0 then
      if cad && egfr < 60.0 then Group3
      else if !cad && egfr > 60.0 then Group4
      else CustomPlan
    else if cad && egfr > 60.0 then Group5
    else if cva && egfr > 60.0 then Group6
    else if diabetes && egfr > 60.0 then Group7
    else if pregnant then Group8
    else if egfr > 60.0 && age > 80 then Group9
    else if egfr > 60.0 then Group10
    else CustomPlan
  }

  /** Below EF 40 only the eGFR decides, between Groups 1 and 2; EF 40 itself is not in this branch. */
  lemma ReducedEfBranch(ef: real, egfr: real, cad: bool, cva: bool, diabetes: bool, pregnant: bool, age: int)
    ensures var group := DecideTreatmentGroup(ef, egfr, cad, cva, diabetes, pregnant, age);
      (ef < 40.0 ==> (group == Group1 <==> egfr < 60.0) && (group == Group2 <==> egfr >= 60.0))
      && (ef == 40.0 ==> group != Group1 && group != Group2)
  {
  }

  /** For EF in 40..60 the comorbidity chain is never consulted. */
  lemma MidRangeEfBranch(ef: real, egfr: real, cad: bool, cva: bool, diabetes: bool, pregnant: bool, age: int)
    requires 40.0 <= ef <= 60.0
    ensures DecideTreatmentGroup(ef, egfr, cad, cva, diabetes, pregnant, age) in {Group3, Group4, CustomPlan}
  {
  }

  /** A patient with none of the listed conditions and preserved EF gets the lifestyle group. */
  lemma LifestyleGroup(ef: real, egfr: real, age: int)
    requires ef > 60.0 && egfr > 60.0 && age <= 80
    ensures DecideTreatmentGroup(ef, egfr, false, false, false, false, age) == Group10
  {
  }

  /**
   * At eGFR exactly 60 neither "eGFR below 60" nor "eGFR above 60" holds, so
   * only Group 2, Group 8 or the custom plan remain.
   */
  lemma EgfrOfSixty(ef: real, cad: bool, cva: bool, diabetes: bool, pregnant: bool, age: int)
    ensures DecideTreatmentGroup(ef, 60.0, cad, cva, diabetes, pregnant, age) in {Group2, Group8, CustomPlan}
  {
  }

  /**
   * With an eGFR of 0 (the value used when no estimate is requested) the
   * decision can only be Group 1, Group 3, Group 8 or the custom plan.
   */
  lemma ZeroEgfrGroups(ef: real, cad: bool, cva: bool, diabetes: bool, pregnant: bool, age: int)
    ensures DecideTreatmentGroup(ef, 0.0, cad, cva, diabetes, pregnant, age) in {Group1, Group3, Group8, CustomPlan}
  {
  }

  // ---------------------------------------------------------------------------
  // Dose recommendations
  // ---------------------------------------------------------------------------

  const CustomReview := "Custom physician review needed"

  /** The keys of the dose table, in group order. */
  const GroupKeys: seq<string> :=
    ["Group 1", "Group 2", "Group 3", "Group 4", "Group 5", "Group 6", "Group 7", "Group 8", "Group 9", "Group 10"]

  /** The static dosing table of `get_dose_recommendations`. */
  const DoseTable: map<string, seq<string>> := map[
    "Group 1" := [
      "E = Isosorbide 10–20 mg TDS + Hydralazine 25 mg TDS",
      "D2 = Furosemide 20–40 mg OD",
      "B = Metoprolol XL 12.5–25 mg OD (if HR > 60)"
    ],
    "Group 2" := [
      "A3 = Sacubitril/Valsartan 24/26 mg BD",
      "B = Bisoprolol 2.5–5 mg OD",
      "D3 = Spironolactone 25 mg OD",
      "D2 = Furosemide 20 mg OD (if required)"
    ],
    "Group 3" := ["C = Amlodipine 5 mg OD", "D2 = Furosemide 20 mg OD"],
    "Group 4" := ["A1 = Enalapril 2.5 mg BD", "D3 = Spironolactone 25 mg OD"],
    "Group 5" := ["A = Ramipril 2.5 mg OD", "B = Metoprolol XL 25 mg OD"],
    "Group 6" := ["A = Enalapril 2.5 mg BD", "D1 = Chlorthalidone 12.5 mg OD"],
    "Group 7" := ["A = Perindopril 4 mg OD", "D1 = Chlorthalidone 12.5 mg OD"],
    "Group 8" := ["Methyldopa 250 mg BD", "or Labetalol 100 mg BD"],
    "Group 9" := ["C = Amlodipine 2.5–5 mg OD"],
    "Group 10" := ["Lifestyle changes for 3 months", "Then: C = Amlodipine 5 mg OD"]
  ]

  /** The lookup key of a group label: its text before the first colon. */
  function GroupKey(group: string): string
  {
    BeforeFirst(group, ':')
  }

  /**
   * `get_dose_recommendations`: the regimen listed under the group's key,
   * or the single fallback line for any key the table does not list.
   */
  function GetDoseRecommendations(group: string): (doses: seq<string>)
    ensures |doses| > 0
    ensures doses == [CustomReview] <==> GroupKey(group) !in DoseTable
    ensures GroupKey(group) in DoseTable ==> doses == DoseTable[GroupKey(group)]
  {
    var key := GroupKey(group);
    if key in DoseTable then DoseTable[key] else [CustomReview]
  }

  /** The key of a label is the key it was built from. */
  lemma LabelKey(key: string, description: string)
    requires ':' !in key
    ensures GroupKey(Label(key, description)) == key
  {
    BeforeFirstIs(Label(key, description), ':', key);
  }

  /** The custom plan has no colon, so the whole label is its key. */
  lemma CustomPlanKey()
    ensures GroupKey(CustomPlan) == CustomPlan
  {
    BeforeFirstIs(CustomPlan, ':', CustomPlan);
  }

  /**
   * The key of each label is its "Group N" part and the custom plan is its
   * own key; as the keys differ, so do the eleven labels.
   */
  lemma LabelKeys()
    ensures GroupKey(Group1) == "Group 1" && GroupKey(Group2) == "Group 2"
    ensures GroupKey(Group3) == "Group 3" && GroupKey(Group4) == "Group 4"
    ensures GroupKey(Group5) == "Group 5" && GroupKey(Group6) == "Group 6"
    ensures GroupKey(Group7) == "Group 7" && GroupKey(Group8) == "Group 8"
    ensures GroupKey(Group9) == "Group 9" && GroupKey(Group10) == "Group 10"
    ensures GroupKey(CustomPlan) == CustomPlan
  {
    forall n | 0 <= n < 10
      ensures GroupKey(GroupLabels[n]) == GroupKeys[n]
    {
      LabelKey(GroupKeys[n], GroupDescriptions[n]);
    }
    CustomPlanKey();
  }

  /** The label of group n is built from the n-th key and the n-th description. */
  lemma LabelParts(n: nat)
    requires n < 10
    ensures GroupLabels[n] == Label(GroupKeys[n], GroupDescriptions[n])
  {
  }

  /** Every label other than the custom plan is one of the ten group labels. */
  lemma LabelNumber(group: string) returns (n: nat)
    requires group in TreatmentLabels && group != CustomPlan
    ensures 1 <= n <= 10 && GroupLabels[n - 1] == group
  {
    if group == Group1 {
      n := 1;
    } else if group == Group2 {
      n := 2;
    } else if group == Group3 {
      n := 3;
    } else if group == Group4 {
      n := 4;
    } else if group == Group5 {
      n := 5;
    } else if group == Group6 {
      n := 6;
    } else if group == Group7 {
      n := 7;
    } else if group == Group8 {
      n := 8;
    } else if group == Group9 {
      n := 9;
    } else {
      n := 10;
    }
  }

  /** Every "Group N" key has a regimen in the table; the custom plan has none. */
  lemma TableCoversGroupKeys()
    ensures forall key :: key in GroupKeys ==> key in DoseTable
    ensures CustomPlan !in DoseTable
  {
  }

  /** The key of every decided label is a table key, except for the custom plan. */
  lemma DecidedGroupKey(ef: real, egfr: real, cad: bool, cva: bool, diabetes: bool, pregnant: bool, age: int)
    ensures var group := DecideTreatmentGroup(ef, egfr, cad, cva, diabetes, pregnant, age);
      (group == CustomPlan && GroupKey(group) == CustomPlan) || (group != CustomPlan && GroupKey(group) in GroupKeys)
  {
    LabelKeys();
  }

  /**
   * Every group the decision tree assigns has its own regimen in the table;
   * only the custom plan falls back to physician review.
   */
  lemma DosesForEveryDecision(ef: real, egfr: real, cad: bool, cva: bool, diabetes: bool, pregnant: bool, age: int)
    ensures var group := DecideTreatmentGroup(ef, egfr, cad, cva, diabetes, pregnant, age);
      var doses := GetDoseRecommendations(group);
      (group != CustomPlan ==> GroupKey(group) in DoseTable && doses != [CustomReview])
      && (group == CustomPlan ==> doses == [CustomReview])
  {
    TableCoversGroupKeys();
    DecidedGroupKey(ef, egfr, cad, cva, diabetes, pregnant, age);
  }

  /** Any key other than "Group 1".."Group 10" falls back to physician review. */
  lemma UnknownKeyFallback(group: string)
    requires GroupKey(group) !in GroupKeys
    ensures GetDoseRecommendations(group) == [CustomReview]
  {
  }

  /** The regimen of a label whose key is "Group 5". */
  lemma Group5Doses(group: string)
    requires GroupKey(group) == "Group 5"
    ensures GetDoseRecommendations(group) == ["A = Ramipril 2.5 mg OD", "B = Metoprolol XL 25 mg OD"]
  {
  }

  /** The CAD-with-normal-kidney-function regimen. */
  lemma CadRegimenExample()
    ensures GetDoseRecommendations(Group5) == ["A = Ramipril 2.5 mg OD", "B = Metoprolol XL 25 mg OD"]
  {
    LabelKey(GroupKeys[4], GroupDescriptions[4]);
    Group5Doses(Group5);
  }

  /** An unlisted group and the custom plan both get the fallback line. */
  lemma FallbackExamples()
    ensures GetDoseRecommendations(Label("Group 11", "Unlisted")) == [CustomReview]
    ensures GetDoseRecommendations(CustomPlan) == [CustomReview]
  {
    LabelKey("Group 11", "Unlisted");
    UnknownKeyFallback(Label("Group 11", "Unlisted"));
    CustomPlanKey();
    UnknownKeyFallback(CustomPlan);
  }
}
