# HyperCare decision rules in Dafny

HyperCare is a Streamlit page that helps a clinician manage hypertension.
The page collects a patient profile, then:

- interprets the ejection fraction (EF);
- estimates kidney function (eGFR, Cockcroft-Gault);
- raises high-risk flags;
- lists contraindicated drug classes;
- assigns one of ten treatment groups, or "Custom Plan Needed";
- looks up the doses for that group;
- writes the treatment advice for that group.

This project models that decision core and proves properties about it.
It has three modules:

- `Strings` (`strings.dfy`) models the two Python string operations the rules rely on:
  - `s.split(":")[0]`, modelled by `BeforeFirst`;
  - the substring test `t in s`, modelled by `Contains`.

  It also proves the facts about them that the rules need.
- `Logic` (`logic.dfy`) models the four functions of `logic.py`:
  - `classify_risk`;
  - `get_contraindications`;
  - `decide_treatment_group`;
  - `get_dose_recommendations`.
- `App` (`app.dfy`) models the logic written inline in `app.py`:
  - the EF-type chain;
  - the eGFR step, which stops with Python's ZeroDivisionError when an estimate is requested and creatinine is 0;
  - the risk flags and risk level;
  - the inline contraindication list;
  - the whole "Generate Treatment Recommendation" run;
  - the dispatch from the group label to the advice text.

How the model represents values:

- Clinical measurements are exact `real`s, so every threshold comparison is the mathematical one.
- Age and heart rate are `int`s.
- Drug classes and risk flags are datatypes. Their `Name()` gives the exact text the page shows.
- Treatment-group labels stay strings. The dose lookup cuts the label at its colon, and the advice dispatch searches the label for substrings, so the text itself matters.
- Each label is built by `Label(key, description)`, for example `Label("Group 5", "CAD with normal KFT")`, which is "Group 5: CAD with normal KFT". This matches the labels in `logic.py` character for character.

Behaviour the model keeps exactly as the code has it:

- A zero creatinine aborts the whole run when an estimate is requested, as Python does. The model has no "not computed" outcome. Without a requested estimate the eGFR is 0 and the run completes, whatever the creatinine.
- A negative creatinine gives a negative estimate, not an error.
- The contraindication list keeps the duplicate ACE-inhibitor entry.
- Group labels stay free text matched by substring, not a closed enumeration.
- The run records the advice the page writes, the Group 1 advice for the lifestyle group included (see Findings).

## Model

| member | source | states |
|---|---|---|
| Strings.BeforeFirst | logic.py:75 | `split(":")[0]`: the result is a prefix of the label with no colon in it. It ends where the label ends or at a colon. |
| Strings.BeforeFirstIs | logic.py:75 | Those three properties determine the head uniquely: any colon-free prefix that ends at a colon or at the end is the head. |
| Strings.ContainsAt | app.py:176-197 | Python's `t in s`, as modelled by `Contains`, holds exactly when `t` occurs as a contiguous block at some position of `s` (both directions). |
| Strings.ContainsPrefixOf | app.py:176-197 | A string that contains `t` contains every prefix of `t`. Hence any label containing "Group 10" contains "Group 1". |
| Logic.ClassifyRisk | logic.py:3-14 | Each of the six risk labels is stated as an if-and-only-if condition on the inputs. Together they encode the severity order: prior CVA, CAD, HFrEF, DM with CKD, CKD, low. |
| Logic.Contraindications | logic.py:16-26 | The list length is 3·[renal rule] + [pulse < 60] + [dry cough] + [uric acid > 9]. ARBs and MRAs appear iff creatinine > 2.5 or potassium > 5.5. Beta-blockers appear iff pulse < 60. Thiazides appear iff uric acid > 9. ACE inhibitors appear iff the renal rule fires or there is a dry cough. |
| Logic.GetContraindications | logic.py:16-26 | The method appends rule by rule and returns exactly the specified list. |
| Logic.AceInhibitorCount | logic.py:18-23 | ACE inhibitors occur once per rule that names them: renal rule plus dry cough. |
| Logic.DuplicateAceInhibitorKept | logic.py:18-23 | When the renal rule and the dry cough both fire, ACE inhibitors appear at position 0 and again after the renal triple (and the beta-blocker entry, if any). They occur exactly twice. |
| Logic.RenalAndCoughExample | logic.py:16-26 | Creatinine 3.0, potassium 4.0 and a dry cough give [ACE inhibitors, ARBs, MRAs, ACE inhibitors]. |
| Logic.DecideTreatmentGroup | logic.py:28-51 | The result is one of the eleven labels. Each label is stated as an if-and-only-if condition on the inputs alone. The custom plan arises in two ways: from the 40..60 EF branch when neither inner test holds, or for EF > 60 without pregnancy and eGFR ≤ 60. |
| Logic.ReducedEfBranch | logic.py:29-33 | Below EF 40, Group 1 iff eGFR < 60 and Group 2 iff eGFR ≥ 60. EF exactly 40 gets neither group. |
| Logic.MidRangeEfBranch | logic.py:34-38 | For 40 ≤ EF ≤ 60 only Group 3, Group 4 or the custom plan is possible. |
| Logic.LifestyleGroup | logic.py:49-50 | EF > 60, eGFR > 60, age ≤ 80 and no condition give Group 10. |
| Logic.EgfrOfSixty | logic.py:28-51 | At eGFR exactly 60 only Group 2, Group 8 or the custom plan is possible. |
| Logic.ZeroEgfrGroups | logic.py:28-51 | With eGFR 0, the value used when no estimate is requested, only Group 1, Group 3, Group 8 or the custom plan is possible. |
| Logic.GetDoseRecommendations | logic.py:53-75 | The result is never empty. It is the table entry for the label's key when the key is listed. It is the single fallback line exactly when the key is not listed. |
| Logic.LabelKey | logic.py:75 | The lookup key of "key: description" is the key, for any colon-free key. |
| Logic.CustomPlanKey | logic.py:51 | "Custom Plan Needed" has no colon, so its key is the whole label. |
| Logic.LabelKeys | logic.py:28-51 | The key of each of the ten labels is its "Group N" part. The custom plan is its own key. |
| Logic.LabelParts | logic.py:31-50 | The label of group n is the n-th key followed by the n-th description. |
| Logic.TableCoversGroupKeys | logic.py:54-74 | Each of "Group 1".."Group 10" has a table entry. "Custom Plan Needed" has none. |
| Logic.DecidedGroupKey | logic.py:28-75 | The key of every decided label is a "Group N" key, except for the custom plan, whose key is itself. |
| Logic.DosesForEveryDecision | logic.py:28-75 | Every decided group other than the custom plan gets its own regimen. Only the custom plan gets the fallback. |
| Logic.UnknownKeyFallback | logic.py:75 | Any label whose key is not "Group 1".."Group 10" gets the fallback line. |
| Logic.Group5Doses | logic.py:68 | Any label keyed "Group 5" gets Ramipril 2.5 mg OD and Metoprolol XL 25 mg OD. |
| Logic.CadRegimenExample | logic.py:68-75 | "Group 5: CAD with normal KFT" gets the Group 5 regimen. |
| Logic.FallbackExamples | logic.py:75 | An unlisted "Group 11" label and "Custom Plan Needed" both get "Custom physician review needed". |
| App.ClassifyEjectionFraction | app.py:97-104 | The result satisfies `IsEfType`: it is one of the four EF types, each stated as an if-and-only-if condition on the inputs. In particular, EF exactly 40 with CAD on echo, and EF above 60 without it, both give "Normal EF". |
| App.EstimateEgfr | app.py:110-116 | Without the checkbox the eGFR is 0. The outcome is a division error iff an estimate is requested with creatinine 0. Otherwise it is the Cockcroft-Gault value ((140 − age)·weight)/(72·creatinine), times 0.85 for women. |
| App.FemaleEstimate | app.py:112-114 | For the same age, weight and creatinine, the female estimate is 0.85 times any other. |
| App.EstimateExample | app.py:112-114 | Age 60, weight 70 kg, creatinine 1.0, female gives 595/9, between 66.11 and 66.12. |
| App.EstimatePositive | app.py:112 | Below age 140, with positive weight and creatinine, the estimate is positive. |
| App.EstimateFallsWithCreatinine | app.py:112 | For age ≤ 140 and non-negative weight, a higher creatinine never raises the estimate. |
| App.RiskFlags | app.py:119-127 | At most four flags. Prior CVA iff a prior CVA. CAD iff CAD in the history or on echo. Heart Failure iff heart failure or HFrEF. CKD iff eGFR < 60. |
| App.AssessRisk | app.py:119-129 | The method builds exactly the specified flags. The level is "High Risk" iff any of the six triggering conditions holds, and "Low Risk" otherwise. |
| App.InlineContraindications | app.py:132-140 | The inline block builds the same list as `get_contraindications`, with the first heart-rate reading as the pulse. |
| App.Summarize | app.py:118-202 | The summary records exactly what the page computes. The EF type satisfies the four EF-type conditions. The flags are `RiskFlags`, and the level is "High Risk" if any flag is raised, else "Low Risk". The contraindications, the decided group (CAD from history or echo), its doses and the as-written advice are recorded. Doses fall back iff the group is the custom plan. An eGFR of 0 always raises CKD and High Risk and restricts the groups. Every group other than Group 10 gets its own group's advice. Group 10 gets the Group 1 advice. |
| App.GenerateRecommendation | app.py:108-202 | The run fails iff an estimate is requested with creatinine 0. Otherwise it displays the summary above for the eGFR it used. Without an estimate it always completes with the CKD flag, High Risk, and group 1, 3, 8 or the custom plan. A completed Group 10 run displays the Group 1 advice. |
| App.RecommendationArm | app.py:176-202 | The advice dispatch as written. The arm taken is the first "Group n" contained in the label, and no earlier "Group k" is contained. Arm 0, the `else`, means no "Group n" is contained. |
| App.ArmText | app.py:176-202 | Any arm outside 1..10 (the final `else`) writes only "Custom physician review required". |
| App.WriteAdvice | app.py:174-202 | The lines written are those of the arm the dispatch as written takes. For every label other than Group 10 that the decision tree can produce, these are the lines of the corrected dispatch. Group 10 gets the Group 1 lines. |
| App.SameAdviceForCvaAndDiabetes | app.py:188-191 | The prior-CVA group and the diabetes group get the same advice. |
| App.GroupTenArmUnreachable | app.py:176-200 | The "Group 10" arm is never taken, for any label. |
| App.LifestyleLabelTakesGroupOneArm | app.py:176-200 | "Group 10: Lifestyle first, then C" takes the Group 1 (HFrEF with CKD) arm. Its text differs from the lifestyle advice. |
| App.NoGroupKeyWithoutG | app.py:176-202 | A label without the letter G takes the `else` arm. |
| App.CustomPlanTakesElseArm | app.py:201-202 | "Custom Plan Needed" gets "Custom physician review required". |
| App.ArmOfLabel | app.py:176-196 | A label that starts with "Group n" (n in 1..9) and has no other G takes arm n. |
| App.LabelArm | app.py:176-196 | "Group n: description" (n in 1..9, no G in the description) takes arm n, both as written and when corrected. |
| App.DescriptionsWithoutG | logic.py:31-48 | None of the descriptions of Groups 1 to 9 contains the letter G. |
| App.AsWrittenArmOfGroup | app.py:176-196 | The label of group n, n in 1..9, takes arm n as written and when corrected. |
| App.AsWrittenArmOfLabel | app.py:176-202 | Of the eleven labels, the dispatch as written agrees with the corrected one on all but Group 10, which goes to arm 1. The custom plan goes to the `else` arm. |
| App.AsWrittenArmForEveryDecision | app.py:176-202 | For every decided group, the dispatch as written picks the group's own arm, except for Group 10 (arm 1). The custom plan gets the `else` arm. |
| App.CorrectedRecommendationArm | app.py:176-202 | The corrected dispatch keys on the text before the colon, like the dose table. A non-zero arm n means the key is "Group n". Arm 0 iff the key is not a group key. |
| App.CorrectedArmForEveryDecision | app.py:176-202 | With the corrected dispatch, every decided group gets the advice of its own key, and only the custom plan gets the `else` arm. |
| App.CorrectedLifestyleArm | app.py:197-200 | The corrected dispatch sends Group 10 to the lifestyle advice. |

## Left out

- The Streamlit page is outside the model: widgets, headers, markdown rendering, and the order in which results are written (app.py:6-94, 157-172). Widget values are inputs of the model.
- The inputs no rule reads are not modelled: name, height, alcohol, smoking, activity, systolic and diastolic BP of the first recording, the whole second BP recording, lung disease, chest pain, breathlessness and NYHA, leg swelling, HbA1c, lipids, albumin, ACR, sodium, TSH, renal Doppler.
- The first eGFR estimate, under the "Run HyperCare Logic" button (app.py:83-86), is not modelled. Its value never reaches the recommendation run, which computes its own eGFR (app.py:110-116). Unlike that run, it divides with no checkbox guard, so clicking this button with creatinine 0 raises ZeroDivisionError whatever the checkbox says. The model does not capture that failure.
- `classify_risk` is imported by the page but never called there. It is modelled on its own.
- Number formatting is not modelled: the `:.1f` eGFR display and "Not calculated" for a non-positive eGFR (app.py:165).
- Floating point is not modelled: reals are exact.
- Logic.Contraindications: the pulse is an `int`, because the page passes the integer heart-rate widget hr1 (app.py:25). `get_contraindications` itself accepts any number, for example a pulse of 59.5, which lists beta-blockers. The model does not cover fractional pulses.
- App.ClassifyEjectionFraction: the EF widget only yields integers from 10 to 80. The model accepts any real EF.
- App.ArmText: drops the markdown bullet prefix "- " of each advice line.

## Findings

| source | as written | input that shows it | evidently intended | confidence | as-written member | corrected member |
|---|---|---|---|---|---|---|
| app.py:176-200 | The advice dispatch tests `"Group 1" in treatment_group` first. Every label containing "Group 10" also contains "Group 1", so the "Group 10" arm is dead. | Group 10, with `treatment_group` = "Group 10: Lifestyle first, then C", gets the Group 1 advice (isosorbide, hydralazine, furosemide) instead of the lifestyle advice. | Dispatch on the label's own key, the text before the colon, as the dose table does. Group 10 then gets lifestyle modification. | not executed | App.LifestyleLabelTakesGroupOneArm | App.CorrectedArmForEveryDecision |
