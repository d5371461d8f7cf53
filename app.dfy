/**
 * The decision logic written inline in the page script `app.py`: the
 * ejection-fraction type, the Cockcroft-Gault estimate, the risk flags and
 * risk level, the inline contraindication list, the run behind the
 * "Generate Treatment Recommendation" button, and the dispatch from the
 * treatment-group label to the recommendation text. Widget values become
 * explicit inputs.
 */
module App {
  import opened Strings
  import opened Logic

  /** The "Gender" select box. */
  datatype Gender = Male | Female | Other

  /** The "Coronary Artery Disease (Echo)" radio button. */
  datatype EchoFinding = Absent | Present

  // ---------------------------------------------------------------------------
  // Ejection-fraction type
  // ---------------------------------------------------------------------------

  const HfrefType := "HFrEF"
  const HfpefType := "HFpEF"
  const CadType := "CAD"
  const NormalEfType := "Normal EF"

  /**
   * `efType` is the interpretation of the EF and the echo finding: each of
   * the four types as a condition on the inputs alone. An EF of exactly 40
   * with CAD on echo is "Normal EF" (the CAD arm needs EF above 40), and so
   * is an EF above 60 without CAD on echo.
   */
  predicate IsEfType(ejectionFraction: real, cadEcho: EchoFinding, efType: string)
  {
    && efType in {HfrefType, HfpefType, CadType, NormalEfType}
    && (efType == HfrefType <==> ejectionFraction < 40.0)
    && (efType == HfpefType <==> 40.0 <= ejectionFraction <= 60.0 && cadEcho == Absent)
    && (efType == CadType <==> ejectionFraction > 40.0 && cadEcho == Present)
    && (efType == NormalEfType <==>
         (ejectionFraction > 60.0 && cadEcho == Absent) || (ejectionFraction == 40.0 && cadEcho == Present))
  }

  /** The EF interpretation chain. */
  method ClassifyEjectionFraction(ejectionFraction: real, cadEcho: EchoFinding) returns (efType: string)
    ensures IsEfType(ejectionFraction, cadEcho, efType)
  {
    if ejectionFraction < 40.0 {
      efType := HfrefType;
    } else if 40.0 <= ejectionFraction <= 60.0 && cadEcho == Absent {
      efType := HfpefType;
    } else if ejectionFraction > 40.0 && cadEcho == Present {
      efType := CadType;
    } else {
      efType := NormalEfType;
    }
  }

  // ---------------------------------------------------------------------------
  // eGFR (Cockcroft-Gault)
  // ---------------------------------------------------------------------------

  /** The outcome of the eGFR step: a value, or Python's ZeroDivisionError. */
  datatype EgfrOutcome = Estimated(egfr: real) | DivisionByZero

  /** The female correction of the estimate. */
  function SexFactor(gender: Gender): real
  {
    if gender == Female then 0.85 else 1.0
  }

  /** The Cockcroft-Gault creatinine clearance, in mL/min. */
  function CockcroftGault(age: int, weight: real, creatinine: real, gender: Gender): real
    requires creatinine != 0.0
  {
    ((140 - age) as real * weight) / (72.0 * creatinine) * SexFactor(gender)
  }

  /**
   * The eGFR step of the recommendation run: the Cockcroft-Gault estimate
   * when it is requested, 0 when it is not. A zero creatinine (the input
   * has no lower bound) makes the division fail.
   */
  method EstimateEgfr(egfrCalc: bool, age: int, weight: real, creatinine: real, gender: Gender)
    returns (outcome: EgfrOutcome)
    ensures !egfrCalc ==> outcome == Estimated(0.0)
    ensures outcome == DivisionByZero <==> egfrCalc && creatinine == 0.0
    ensures egfrCalc && creatinine != 0.0 ==> outcome == Estimated(CockcroftGault(age, weight, creatinine, gender))
  {
    if egfrCalc {
      if 72.0 * creatinine == 0.0 {
        return DivisionByZero;
      }
      var egfr := ((140 - age) as real * weight) / (72.0 * creatinine);
      if gender == Female {
        egfr := egfr * 0.85;
      }
      outcome := Estimated(egfr);
    } else {
      outcome := Estimated(0.0);
    }
  }

  /** For the same age, weight and creatinine, a female estimate is 85% of any other. */
  lemma FemaleEstimate(age: int, weight: real, creatinine: real, gender: Gender)
    requires creatinine != 0.0 && gender != Female
    ensures CockcroftGault(age, weight, creatinine, Female) == 0.85 * CockcroftGault(age, weight, creatinine, gender)
  {
  }

  /** Age 60, weight 70 kg, creatinine 1.0, female: 5600 / 72 * 0.85 = 595/9, about 66.11. */
  lemma EstimateExample()
    ensures CockcroftGault(60, 70.0, 1.0, Female) == 595.0 / 9.0
    ensures 66.11 < CockcroftGault(60, 70.0, 1.0, Female) < 66.12
  {
  }

  /** Below age 140, with positive weight and creatinine, the estimate is positive. */
  lemma EstimatePositive(age: int, weight: real, creatinine: real, gender: Gender)
    requires age < 140 && weight > 0.0 && creatinine > 0.0
    ensures CockcroftGault(age, weight, creatinine, gender) > 0.0
  {
    var numerator := (140 - age) as real * weight;
    assert numerator > 0.0 by {
      assert (140 - age) as real >= 1.0;
    }
    assert numerator / (72.0 * creatinine) > 0.0;
  }

  /** A higher creatinine never raises the estimate (up to age 140, non-negative weight). */
  lemma EstimateFallsWithCreatinine(age: int, weight: real, low: real, high: real, gender: Gender)
    requires age <= 140 && weight >= 0.0 && 0.0 < low <= high
    ensures CockcroftGault(age, weight, high, gender) <= CockcroftGault(age, weight, low, gender)
  {
    var numerator := (140 - age) as real * weight;
    assert numerator >= 0.0;
    assert numerator / (72.0 * high) <= numerator / (72.0 * low) by {
      var q := numerator / (72.0 * low);
      assert numerator == q * (72.0 * low);
      assert q * (72.0 * low) <= q * (72.0 * high);
    }
  }

  // ---------------------------------------------------------------------------
  // Risk flags and risk level
  // ---------------------------------------------------------------------------

  /** The high-risk flags, with their display names. */
  datatype RiskFlag = PriorCva | Cad | HeartFailure | Ckd
  {
    function Name(): string
    {
      match this
      case PriorCva => "Prior CVA"
      case Cad => "CAD"
      case HeartFailure => "Heart Failure"
      case Ckd => "CKD"
    }
  }

  const HighRiskLevel := "High Risk"
  const LowRiskLevel := "Low Risk"

  /**
   * The flag list as four independent blocks in their fixed order: prior
   * CVA, CAD (history or echo), heart failure (history or HFrEF), CKD.
   */
  function RiskFlags(cva: bool, cad: bool, cadEcho: EchoFinding, hf: bool, efType: string, egfr: real): (flags: seq<RiskFlag>)
    ensures |flags| <= 4
    ensures PriorCva in flags <==> cva
    ensures Cad in flags <==> cad || cadEcho == Present
    ensures HeartFailure in flags <==> hf || efType == HfrefType
    ensures Ckd in flags <==> egfr < 60.0
  {
    (if cva then [PriorCva] else [])
    + (if cad || cadEcho == Present then [Cad] else [])
    + (if hf || efType == HfrefType then [HeartFailure] else [])
    + (if egfr < 60.0 then [Ckd] else [])
  }

  /**
   * The risk summary of the recommendation run: the flags collected one at a
   * time, and "High Risk" exactly when at least one flag is raised.
   */
  method AssessRisk(cva: bool, cad: bool, cadEcho: EchoFinding, hf: bool, efType: string, egfr: real)
    returns (flags: seq<RiskFlag>, riskLevel: string)
    ensures flags == RiskFlags(cva, cad, cadEcho, hf, efType, egfr)
    ensures riskLevel in {HighRiskLevel, LowRiskLevel}
    ensures riskLevel == HighRiskLevel <==> cva || cad || cadEcho == Present || hf || efType == HfrefType || egfr < 60.0
  {
    flags := [];
    if cva {
      flags := flags + [PriorCva];
    }
    assert flags == (if cva then [PriorCva] else []);
    if cad || cadEcho == Present {
      flags := flags + [Cad];
    }
    assert flags == (if cva then [PriorCva] else []) + (if cad || cadEcho == Present then [Cad] else []);
    if hf || efType == HfrefType {
      flags := flags + [HeartFailure];
    }
    assert flags == (if cva then [PriorCva] else []) + (if cad || cadEcho == Present then [Cad] else [])
      + (if hf || efType == HfrefType then [HeartFailure] else []);
    if egfr < 60.0 {
      flags := flags + [Ckd];
    }
    riskLevel := if flags != [] then HighRiskLevel else LowRiskLevel;
  }

  // ---------------------------------------------------------------------------
  // Inline contraindications
  // ---------------------------------------------------------------------------

  /**
   * The contraindication block written inline in the page: it is the same
   * list that `get_contraindications` builds from the first heart-rate
   * reading.
   */
  method InlineContraindications(creatinine: real, potassium: real, hr1: int, dryCough: bool, uricAcid: real)
    returns (list: seq<DrugClass>)
    ensures list == Contraindications(creatinine, potassium, hr1, dryCough, uricAcid)
  {
    list := [];
    if creatinine > 2.5 || potassium > 5.5 {
      list := list + [AceInhibitors, Arbs, Mras];
    }
    assert list == RenalBlock(creatinine, potassium);
    if hr1 < 60 {
      list := list + [BetaBlockers];
    }
    assert list == RenalBlock(creatinine, potassium) + BradycardiaBlock(hr1);
    if dryCough {
      list := list + [AceInhibitors];
    }
    assert list == RenalBlock(creatinine, potassium) + BradycardiaBlock(hr1) + CoughBlock(dryCough);
    if uricAcid > 9.0 {
      list := list + [Thiazides];
    }
  }

  // ---------------------------------------------------------------------------
  // The recommendation run
  // ---------------------------------------------------------------------------

  /** The widget values the recommendation run reads. */
  datatype Patient = Patient(
    age: int, gender: Gender, weight: real, hr1: int,
    cva: bool, cad: bool, hf: bool, diabetes: bool, pregnancy: bool, dryCough: bool,
    creatinine: real, potassium: real, uricAcid: real, egfrCalc: bool,
    cadEcho: EchoFinding, ejectionFraction: real)

  /** The values the run computes and then displays. */
  datatype Summary = Summary(
    efType: string, egfr: real, riskFlags: seq<RiskFlag>, riskLevel: string,
    contraindications: seq<DrugClass>, treatmentGroup: string, drugDoses: seq<string>, advice: seq<string>)

  /** A run either completes or stops at the eGFR division. */
  datatype Run = Completed(summary: Summary) | ZeroDivisionError

  /** The eGFR the run uses: the estimate when requested, 0 otherwise. */
  function RunEgfr(p: Patient): real
    requires !p.egfrCalc || p.creatinine != 0.0
  {
    if p.egfrCalc then CockcroftGault(p.age, p.weight, p.creatinine, p.gender) else 0.0
  }

  /**
   * What the run displays for a patient, given the eGFR it computed: the
   * EF type, the risk flags and level, the contraindications, the treatment
   * group (with CAD taken from the history or the echo), its doses and the
   * treatment advice the page's dispatch writes.
   */
  predicate SummaryOf(p: Patient, egfr: real, s: Summary)
  {
    && IsEfType(p.ejectionFraction, p.cadEcho, s.efType)
    && s.egfr == egfr
    && s.riskFlags == RiskFlags(p.cva, p.cad, p.cadEcho, p.hf, s.efType, egfr)
    && s.riskLevel == (if s.riskFlags != [] then HighRiskLevel else LowRiskLevel)
    && s.contraindications == Contraindications(p.creatinine, p.potassium, p.hr1, p.dryCough, p.uricAcid)
    && s.treatmentGroup == DecideTreatmentGroup(p.ejectionFraction, egfr, p.cad || p.cadEcho == Present,
                                                p.cva, p.diabetes, p.pregnancy, p.age)
    && s.drugDoses == GetDoseRecommendations(s.treatmentGroup)
    && (s.drugDoses == [CustomReview] <==> s.treatmentGroup == CustomPlan)
    && s.advice == ArmText(RecommendationArm(s.treatmentGroup))
  }

  /**
   * The script after the eGFR step: EF type, risk flags and level,
   * contraindications, treatment group, doses and advice. Without an
   * estimate the eGFR is 0, which always raises the CKD flag and restricts
   * the groups. Every group but the lifestyle group gets the advice of its
   * own group; the lifestyle group gets the Group 1 advice.
   */
  method Summarize(p: Patient, egfr: real) returns (s: Summary)
    ensures SummaryOf(p, egfr, s)
    ensures egfr == 0.0 ==>
      && Ckd in s.riskFlags && s.riskLevel == HighRiskLevel
      && s.treatmentGroup in {Group1, Group3, Group8, CustomPlan}
    ensures s.treatmentGroup != Group10 ==> s.advice == ArmText(CorrectedRecommendationArm(s.treatmentGroup))
    ensures s.treatmentGroup == Group10 ==> s.advice == ArmText(1)
  {
    var efType := ClassifyEjectionFraction(p.ejectionFraction, p.cadEcho);
    var flags, riskLevel := AssessRisk(p.cva, p.cad, p.cadEcho, p.hf, efType, egfr);
    var contraindications := InlineContraindications(p.creatinine, p.potassium, p.hr1, p.dryCough, p.uricAcid);
    var cad := p.cad || p.cadEcho == Present;
    var treatmentGroup := DecideTreatmentGroup(p.ejectionFraction, egfr, cad, p.cva, p.diabetes, p.pregnancy, p.age);
    var drugDoses := GetDoseRecommendations(treatmentGroup);
    DosesForEveryDecision(p.ejectionFraction, egfr, cad, p.cva, p.diabetes, p.pregnancy, p.age);
    if egfr == 0.0 {
      ZeroEgfrGroups(p.ejectionFraction, cad, p.cva, p.diabetes, p.pregnancy, p.age);
    }
    var advice := WriteAdvice(treatmentGroup);
    s := Summary(efType, egfr, flags, riskLevel, contraindications, treatmentGroup, drugDoses, advice);
  }

  /**
   * The "Generate Treatment Recommendation" run: it stops with a division
   * error exactly when an estimate is requested with a zero creatinine, and
   * otherwise displays the summary for the eGFR it used.
   */
  method GenerateRecommendation(p: Patient) returns (run: Run)
    ensures run == ZeroDivisionError <==> p.egfrCalc && p.creatinine == 0.0
    ensures run.Completed? ==> SummaryOf(p, RunEgfr(p), run.summary)
    ensures !p.egfrCalc ==>
      && run.Completed?
      && Ckd in run.summary.riskFlags && run.summary.riskLevel == HighRiskLevel
      && run.summary.treatmentGroup in {Group1, Group3, Group8, CustomPlan}
    ensures run.Completed? && run.summary.treatmentGroup == Group10 ==> run.summary.advice == ArmText(1)
  {
    var outcome := EstimateEgfr(p.egfrCalc, p.age, p.weight, p.creatinine, p.gender);
    if outcome == DivisionByZero {
      return ZeroDivisionError;
    }
    var summary := Summarize(p, outcome.egfr);
    run := Completed(summary);
  }

  // ---------------------------------------------------------------------------
  // Treatment recommendation text
  // ---------------------------------------------------------------------------

  /**
   * The recommendation dispatch as written: arm n (1..10) is taken by the
   * first "Group n" that occurs anywhere in the label, arm 0 is the final
   * `else`.
   */
  function RecommendationArm(group: string): (arm: nat)
    ensures arm <= 10
    ensures arm != 0 ==> Contains(group, GroupKeys[arm - 1])
    ensures forall k :: 0 <= k < |GroupKeys| && (arm == 0 || k < arm - 1) ==> !Contains(group, GroupKeys[k])
  {
    if Contains(group, "Group 1") then 1
    else if Contains(group, "Group 2") then 2
    else if Contains(group, "Group 3") then 3
    else if Contains(group, "Group 4") then 4
    else if Contains(group, "Group 5") then 5
    else if Contains(group, "Group 6") then 6
    else if Contains(group, "Group 7") then 7
    else if Contains(group, "Group 8") then 8
    else if Contains(group, "Group 9") then 9
    else if Contains(group, "Group 10") then 10
    else 0
  }

  const CustomAdvice := "Custom physician review required"

  /** The lines each arm writes; the final `else` writes only the review line. */
  function ArmText(arm: nat): (lines: seq<string>)
    ensures arm == 0 || arm > 10 ==> lines == [CustomAdvice]
  {
    match arm
    case 1 => ["Start: E (Isosorbide + Hydralazine) + D2 (Furosemide)", "Add: B (Beta-blocker) cautiously"]
    case 2 => ["Start: A3 (Sacubitril + Valsartan) + B (Beta-blocker)",
               "Add: D3 (Spironolactone), D2 (Furosemide) if volume overloaded"]
    case 3 => ["Start: C + D2 or B + D2"]
    case 4 => ["Start: A1 (ACE Inhibitor) + D3 (Spironolactone)"]
    case 5 => ["Start: A + B (ACE Inhibitor + Beta-blocker)"]
    case 6 => ["Start: A + D1 (ACE Inhibitor + Thiazide)"]
    case 7 => ["Start: A + D1 (ACE Inhibitor + Thiazide)"]
    case 8 => ["Start: Alpha-methyldopa or Labetalol", "Avoid: ACE inhibitors, ARBs, MRAs, Thiazides"]
    case 9 => ["Start: C (Calcium Channel Blocker)"]
    case 10 => ["Lifestyle modification", "Review after 3 months",
                "If BP >140/90 → Start C (Calcium Channel Blocker)"]
    case _ => [CustomAdvice]
  }

  /**
   * The "Treatment Recommendation" section: the lines of the arm the
   * dispatch as written takes. For the labels the decision tree produces,
   * these are the lines of the label's own group, except for the lifestyle
   * group, which is given the Group 1 lines.
   */
  method WriteAdvice(group: string) returns (advice: seq<string>)
    ensures advice == ArmText(RecommendationArm(group))
    ensures group in TreatmentLabels && group != Group10 ==> advice == ArmText(CorrectedRecommendationArm(group))
    ensures group == Group10 ==> advice == ArmText(1)
  {
    advice := ArmText(RecommendationArm(group));
    if group in TreatmentLabels {
      AsWrittenArmOfLabel(group);
    }
  }

  /** The prior-CVA and the diabetes groups are given the same advice. */
  lemma SameAdviceForCvaAndDiabetes()
    ensures ArmText(6) == ArmText(7)
  {
  }

  /** The "Group 10" arm is dead for every label: "Group 10" always contains "Group 1". */
  lemma GroupTenArmUnreachable(group: string)
    ensures RecommendationArm(group) != 10
  {
    if Contains(group, "Group 10") {
      ContainsPrefixOf(group, "Group 10", "Group 1");
    }
  }

  /** The lifestyle group is sent to the Group 1 (HFrEF with CKD) advice. */
  lemma LifestyleLabelTakesGroupOneArm()
    ensures RecommendationArm(Group10) == 1
    ensures ArmText(RecommendationArm(Group10)) != ArmText(10)
  {
    assert IsPrefix("Group 1", Group10);
  }

  /** A label without the letter G matches no "Group N" and reaches the final `else`. */
  lemma NoGroupKeyWithoutG(group: string)
    requires 'G' !in group
    ensures RecommendationArm(group) == 0
  {
    forall k | 0 <= k < |GroupKeys|
      ensures !Contains(group, GroupKeys[k])
    {
      if Contains(group, GroupKeys[k]) {
        ContainsFirstChar(group, GroupKeys[k]);
      }
    }
  }

  /** "Custom Plan Needed" reaches the final `else`. */
  lemma CustomPlanTakesElseArm()
    ensures RecommendationArm(CustomPlan) == 0
  {
    NoGroupKeyWithoutG(CustomPlan);
  }

  /**
   * A label that starts with "Group n" for n in 1..9, and has no other
   * letter G, takes arm n.
   */
  lemma ArmOfLabel(group: string, n: nat)
    requires 1 <= n <= 9 && |group| >= 7
    requires group[..7] == GroupKeys[n - 1] && 'G' !in group[1..]
    ensures RecommendationArm(group) == n
  {
    forall k | 0 <= k < n - 1
      ensures !Contains(group, GroupKeys[k])
    {
      ContainsOnlyAsPrefix(group, GroupKeys[k]);
      assert GroupKeys[k][6] != GroupKeys[n - 1][6];
    }
    assert IsPrefix(GroupKeys[n - 1], group);
  }

  /**
   * A label "Group n: description", n in 1..9, with no G in the description
   * takes arm n, in the dispatch as written and in the corrected one.
   */
  lemma LabelArm(n: nat, description: string)
    requires 1 <= n <= 9 && 'G' !in description
    ensures RecommendationArm(Label(GroupKeys[n - 1], description)) == n
    ensures CorrectedRecommendationArm(Label(GroupKeys[n - 1], description)) == n
  {
    var group := Label(GroupKeys[n - 1], description);
    LabelKey(GroupKeys[n - 1], description);
    assert group[1..] == GroupKeys[n - 1][1..] + ": " + description;
    ArmOfLabel(group, n);
  }

  /** No description of Groups 1 to 9 contains the letter G. */
  lemma DescriptionsWithoutG(n: nat)
    requires n < 9
    ensures 'G' !in GroupDescriptions[n]
  {
    var d := GroupDescriptions[n];
    forall i | 0 <= i < |d|
      ensures d[i] != 'G'
    {
    }
  }

  /** The label of group n, n in 1..9, takes arm n as written and when corrected. */
  lemma AsWrittenArmOfGroup(n: nat)
    requires 1 <= n <= 9
    ensures RecommendationArm(GroupLabels[n - 1]) == n
    ensures CorrectedRecommendationArm(GroupLabels[n - 1]) == n
  {
    LabelParts(n - 1);
    DescriptionsWithoutG(n - 1);
    LabelArm(n, GroupDescriptions[n - 1]);
  }

  /**
   * Every label the decision tree can produce takes, in the dispatch as
   * written, the arm of its own group, except the lifestyle group, which
   * takes the Group 1 arm; the custom plan reaches the final `else`.
   */
  lemma AsWrittenArmOfLabel(group: string)
    requires group in TreatmentLabels
    ensures var arm := RecommendationArm(group);
      && (group != Group10 && group != CustomPlan ==> arm == CorrectedRecommendationArm(group))
      && (group == Group10 ==> arm == 1)
      && (group == CustomPlan ==> arm == 0)
  {
    if group == Group10 {
      LifestyleLabelTakesGroupOneArm();
    } else if group == CustomPlan {
      CustomPlanTakesElseArm();
    } else {
      var n := LabelNumber(group);
      AsWrittenArmOfGroup(n);
    }
  }

  /**
   * For every decided label other than the lifestyle group, the dispatch as
   * written takes the arm of the label's own group.
   */
  lemma AsWrittenArmForEveryDecision(ef: real, egfr: real, cad: bool, cva: bool, diabetes: bool, pregnant: bool, age: int)
    ensures var group := DecideTreatmentGroup(ef, egfr, cad, cva, diabetes, pregnant, age);
      var arm := RecommendationArm(group);
      && (group != Group10 && group != CustomPlan ==> arm == CorrectedRecommendationArm(group))
      && (group == Group10 ==> arm == 1)
      && (group == CustomPlan ==> arm == 0)
  {
    AsWrittenArmOfLabel(DecideTreatmentGroup(ef, egfr, cad, cva, diabetes, pregnant, age));
  }

  /**
   * The dispatch as evidently intended: keyed on the label's text before
   * the first colon, the same key the dose table uses.
   */
  function CorrectedRecommendationArm(group: string): (arm: nat)
    ensures arm <= 10
    ensures arm != 0 ==> GroupKey(group) == GroupKeys[arm - 1]
    ensures arm == 0 <==> GroupKey(group) !in GroupKeys
  {
    var key := GroupKey(group);
    if key == "Group 1" then 1
    else if key == "Group 2" then 2
    else if key == "Group 3" then 3
    else if key == "Group 4" then 4
    else if key == "Group 5" then 5
    else if key == "Group 6" then 6
    else if key == "Group 7" then 7
    else if key == "Group 8" then 8
    else if key == "Group 9" then 9
    else if key == "Group 10" then 10
    else 0
  }

  /**
   * With the corrected dispatch every decided group gets the advice of its
   * own key, the lifestyle group included, and the custom plan gets the
   * final `else`.
   */
  lemma CorrectedArmForEveryDecision(ef: real, egfr: real, cad: bool, cva: bool, diabetes: bool, pregnant: bool, age: int)
    ensures var group := DecideTreatmentGroup(ef, egfr, cad, cva, diabetes, pregnant, age);
      var arm := CorrectedRecommendationArm(group);
      && (group != CustomPlan ==> arm != 0 && GroupKeys[arm - 1] == GroupKey(group))
      && (group == CustomPlan ==> arm == 0)
  {
    DecidedGroupKey(ef, egfr, cad, cva, diabetes, pregnant, age);
  }

  /** The corrected dispatch sends the lifestyle group to the lifestyle advice. */
  lemma CorrectedLifestyleArm()
    ensures CorrectedRecommendationArm(Group10) == 10
  {
    LabelKey(GroupKeys[9], GroupDescriptions[9]);
  }
}
