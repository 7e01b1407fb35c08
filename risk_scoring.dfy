/**
 * Biosecurity risk scoring and recommendations of the main dashboard
 * (`calculate_risk_score` and `get_recommendations` in app.py).
 *
 * Every questionnaire answer is a display string. Each answer adds a fixed
 * weight from a lookup table, with a per-table default for answers the table
 * does not list, and the total is capped at 100.
 */
module RiskScoring {

  /** The eight answers the scorer reads (the form's dictionary keys). */
  datatype Answers = Answers(
    farmSize: string,
    hygienePractices: string,
    vaccinationRecords: string,
    wasteManagement: string,
    visitorControl: string,
    feedStorage: string,
    waterQuality: string,
    diseaseHistory: string)

  // ---------------------------------------------------------------------
  // Weight tables and selectbox options (best answer first)

  const LargeFarm := "Large (> 500 animals)"
  const MediumFarm := "Medium (100-500 animals)"
  const SmallFarm := "Small (< 100 animals)"

  const HygieneScores: map<string, int> :=
    map["Poor" := 20, "Average" := 15, "Good" := 8, "Excellent" := 0]
  const VaccinationScores: map<string, int> :=
    map["Outdated" := 15, "Partially updated" := 10, "Up to date" := 0]
  const WasteScores: map<string, int> :=
    map["No proper system" := 15, "Minimal disposal" := 12, "Basic disposal" := 8, "Proper disposal system" := 0]
  const VisitorScores: map<string, int> :=
    map["No controls" := 10, "Minimal controls" := 8, "Basic controls" := 5, "Strict protocols" := 0]
  const FeedScores: map<string, int> :=
    map["Poor storage" := 8, "Basic storage" := 6, "Adequate storage" := 3, "Proper storage" := 0]
  const WaterScores: map<string, int> :=
    map["Never tested" := 8, "Rarely tested" := 6, "Tested occasionally" := 3, "Tested regularly" := 0]
  const DiseaseScores: map<string, int> :=
    map["Multiple outbreaks" := 15, "Major outbreak" := 10, "Minor issues" := 5, "No diseases" := 0]

  const HygieneDefault := 15
  const VaccinationDefault := 10
  const WasteDefault := 10
  const VisitorDefault := 8
  const FeedDefault := 6
  const WaterDefault := 6
  const DiseaseDefault := 5

  /** The options the assessment form offers, from best to worst. */
  const FarmSizeOptions := [SmallFarm, MediumFarm, LargeFarm]
  const HygieneOptions := ["Excellent", "Good", "Average", "Poor"]
  const VaccinationOptions := ["Up to date", "Partially updated", "Outdated"]
  const WasteOptions := ["Proper disposal system", "Basic disposal", "Minimal disposal", "No proper system"]
  const VisitorOptions := ["Strict protocols", "Basic controls", "Minimal controls", "No controls"]
  const FeedOptions := ["Proper storage", "Adequate storage", "Basic storage", "Poor storage"]
  const WaterOptions := ["Tested regularly", "Tested occasionally", "Rarely tested", "Never tested"]
  const DiseaseOptions := ["No diseases", "Minor issues", "Major outbreak", "Multiple outbreaks"]

  /** `table.get(answer, default)`. */
  function Weight(table: map<string, int>, default: int, answer: string): int {
    if answer in table then table[answer] else default
  }

  function HygieneWeight(s: string): int { Weight(HygieneScores, HygieneDefault, s) }
  function VaccinationWeight(s: string): int { Weight(VaccinationScores, VaccinationDefault, s) }
  function WasteWeight(s: string): int { Weight(WasteScores, WasteDefault, s) }
  function VisitorWeight(s: string): int { Weight(VisitorScores, VisitorDefault, s) }
  function FeedWeight(s: string): int { Weight(FeedScores, FeedDefault, s) }
  function WaterWeight(s: string): int { Weight(WaterScores, WaterDefault, s) }
  function DiseaseWeight(s: string): int { Weight(DiseaseScores, DiseaseDefault, s) }

  /** Large adds 20, Medium 10, anything else 5. */
  function FarmSizeWeight(size: string): int {
    if size == LargeFarm then 20 else if size == MediumFarm then 10 else 5
  }

  /** The uncapped sum of the eight contributions. */
  function RawScore(a: Answers): int {
    FarmSizeWeight(a.farmSize) + HygieneWeight(a.hygienePractices)
    + VaccinationWeight(a.vaccinationRecords) + WasteWeight(a.wasteManagement)
    + VisitorWeight(a.visitorControl) + FeedWeight(a.feedStorage)
    + WaterWeight(a.waterQuality) + DiseaseWeight(a.diseaseHistory)
  }

  function Min(x: int, y: int): int {
    if x <= y then x else y
  }

  /** The score `calculate_risk_score` reports: the raw sum capped at 100. */
  function RiskScore(a: Answers): int {
    Min(RawScore(a), 100)
  }

  /** `calculate_risk_score`: accumulates the contributions one by one. */
  method CalculateRiskScore(a: Answers) returns (score: int)
    ensures score == RiskScore(a)
    ensures 5 <= score <= 100
  {
    score := 0;
    if a.farmSize == LargeFarm {
      score := score + 20;
    } else if a.farmSize == MediumFarm {
      score := score + 10;
    } else {
      score := score + 5;
    }
    score := score + Weight(HygieneScores, HygieneDefault, a.hygienePractices);
    score := score + Weight(VaccinationScores, VaccinationDefault, a.vaccinationRecords);
    score := score + Weight(WasteScores, WasteDefault, a.wasteManagement);
    score := score + Weight(VisitorScores, VisitorDefault, a.visitorControl);
    score := score + Weight(FeedScores, FeedDefault, a.feedStorage);
    score := score + Weight(WaterScores, WaterDefault, a.waterQuality);
    score := score + Weight(DiseaseScores, DiseaseDefault, a.diseaseHistory);
    RiskScoreBounds(a);
    if score > 100 {
      score := 100;
    }
  }

  // ---------------------------------------------------------------------
  // Properties of the score

  /** Along `options`, each option weighs at least as much as the one before it. */
  predicate StepsAscending(options: seq<string>, weight: string -> int) {
    forall i :: 0 < i < |options| ==> weight(options[i - 1]) <= weight(options[i])
  }

  /** Step-wise ascent gives ascent between any two positions. */
  lemma {:induction false} AscendingBetween(options: seq<string>, weight: string -> int, i: nat, j: nat)
    requires StepsAscending(options, weight)
    requires i <= j < |options|
    ensures weight(options[i]) <= weight(options[j])
    decreases j - i
  {
    if i < j {
      AscendingBetween(options, weight, i, j - 1);
    }
  }

  lemma HygieneRange(s: string) ensures 0 <= HygieneWeight(s) <= 20 {}
  lemma VaccinationRange(s: string) ensures 0 <= VaccinationWeight(s) <= 15 {}
  lemma WasteRange(s: string) ensures 0 <= WasteWeight(s) <= 15 {}
  lemma VisitorRange(s: string) ensures 0 <= VisitorWeight(s) <= 10 {}
  lemma FeedRange(s: string) ensures 0 <= FeedWeight(s) <= 8 {}
  lemma WaterRange(s: string) ensures 0 <= WaterWeight(s) <= 8 {}
  lemma DiseaseRange(s: string) ensures 0 <= DiseaseWeight(s) <= 15 {}

  /** The raw sum lies in [5, 111], so the reported score lies in [5, 100]. */
  lemma RiskScoreBounds(a: Answers)
    ensures 5 <= RawScore(a) <= 111
    ensures 5 <= RiskScore(a) <= 100
  {
    HygieneRange(a.hygienePractices);
    VaccinationRange(a.vaccinationRecords);
    WasteRange(a.wasteManagement);
    VisitorRange(a.visitorControl);
    FeedRange(a.feedStorage);
    WaterRange(a.waterQuality);
    DiseaseRange(a.diseaseHistory);
  }

  const BestAnswers := Answers(SmallFarm, "Excellent", "Up to date", "Proper disposal system",
    "Strict protocols", "Proper storage", "Tested regularly", "No diseases")
  const WorstAnswers := Answers(LargeFarm, "Poor", "Outdated", "No proper system",
    "No controls", "Poor storage", "Never tested", "Multiple outbreaks")

  /** The best answers on a small farm reach the floor of 5. */
  lemma BestAnswersScoreFive()
    ensures RiskScore(BestAnswers) == 5
  {
  }

  /** The worst answers on a large farm sum to 111, which the cap cuts to 100. */
  lemma WorstAnswersCapped()
    ensures RawScore(WorstAnswers) == 111
    ensures RiskScore(WorstAnswers) == 100
  {
  }

  /** An answer the table does not list contributes the table's default. */
  lemma UnlistedAnswersUseDefaults(a: Answers)
    requires a.farmSize != LargeFarm && a.farmSize != MediumFarm
    requires a.hygienePractices !in HygieneScores && a.vaccinationRecords !in VaccinationScores
    requires a.wasteManagement !in WasteScores && a.visitorControl !in VisitorScores
    requires a.feedStorage !in FeedScores && a.waterQuality !in WaterScores
    requires a.diseaseHistory !in DiseaseScores
    ensures RawScore(a) == 5 + 15 + 10 + 10 + 8 + 6 + 6 + 5
  {
  }

  /** `y` is the same answer as `x`, or an option listed at or after `x` (no better). */
  predicate NoBetter(options: seq<string>, x: string, y: string) {
    x == y || exists i, j :: 0 <= i <= j < |options| && options[i] == x && options[j] == y
  }

  lemma NoBetterWeight(options: seq<string>, weight: string -> int, x: string, y: string)
    requires StepsAscending(options, weight)
    requires NoBetter(options, x, y)
    ensures weight(x) <= weight(y)
  {
    if x != y {
      var i, j :| 0 <= i <= j < |options| && options[i] == x && options[j] == y;
      AscendingBetween(options, weight, i, j);
    }
  }

  lemma FarmSizeAscending() ensures StepsAscending(FarmSizeOptions, FarmSizeWeight) {}
  lemma HygieneAscending() ensures StepsAscending(HygieneOptions, HygieneWeight) {}
  lemma VaccinationAscending() ensures StepsAscending(VaccinationOptions, VaccinationWeight) {}
  lemma WasteAscending() ensures StepsAscending(WasteOptions, WasteWeight) {}
  lemma VisitorAscending() ensures StepsAscending(VisitorOptions, VisitorWeight) {}
  lemma FeedAscending() ensures StepsAscending(FeedOptions, FeedWeight) {}
  lemma WaterAscending() ensures StepsAscending(WaterOptions, WaterWeight) {}
  lemma DiseaseAscending() ensures StepsAscending(DiseaseOptions, DiseaseWeight) {}

  /** Every answer of `b` is the same as, or no better than, the one in `a`. */
  predicate WorseOrEqual(a: Answers, b: Answers) {
    && NoBetter(FarmSizeOptions, a.farmSize, b.farmSize)
    && NoBetter(HygieneOptions, a.hygienePractices, b.hygienePractices)
    && NoBetter(VaccinationOptions, a.vaccinationRecords, b.vaccinationRecords)
    && NoBetter(WasteOptions, a.wasteManagement, b.wasteManagement)
    && NoBetter(VisitorOptions, a.visitorControl, b.visitorControl)
    && NoBetter(FeedOptions, a.feedStorage, b.feedStorage)
    && NoBetter(WaterOptions, a.waterQuality, b.waterQuality)
    && NoBetter(DiseaseOptions, a.diseaseHistory, b.diseaseHistory)
  }

  /** Replacing answers by worse-ranked options never lowers the score. */
  lemma RiskScoreMonotone(a: Answers, b: Answers)
    requires WorseOrEqual(a, b)
    ensures RawScore(a) <= RawScore(b)
    ensures RiskScore(a) <= RiskScore(b)
  {
    FarmSizeAscending();
    HygieneAscending();
    VaccinationAscending();
    WasteAscending();
    VisitorAscending();
    FeedAscending();
    WaterAscending();
    DiseaseAscending();
    NoBetterWeight(FarmSizeOptions, FarmSizeWeight, a.farmSize, b.farmSize);
    NoBetterWeight(HygieneOptions, HygieneWeight, a.hygienePractices, b.hygienePractices);
    NoBetterWeight(VaccinationOptions, VaccinationWeight, a.vaccinationRecords, b.vaccinationRecords);
    NoBetterWeight(WasteOptions, WasteWeight, a.wasteManagement, b.wasteManagement);
    NoBetterWeight(VisitorOptions, VisitorWeight, a.visitorControl, b.visitorControl);
    NoBetterWeight(FeedOptions, FeedWeight, a.feedStorage, b.feedStorage);
    NoBetterWeight(WaterOptions, WaterWeight, a.waterQuality, b.waterQuality);
    NoBetterWeight(DiseaseOptions, DiseaseWeight, a.diseaseHistory, b.diseaseHistory);
  }

  // ---------------------------------------------------------------------
  // Recommendations

  /** The advice lines `get_recommendations` can emit; `Message` gives each one's exact text. */
  datatype Advice =
    | EmergencyAction | EmergencyVet
    | HygieneAdvice | VaccinationAdvice | WasteAdvice | VisitorAdvice | WaterAdvice
    | MonitorAdvice | GoodPractice | AdvancedMonitoring

  function Message(x: Advice): string {
    match x
    case EmergencyAction => "🚨 Immediate action required - Implement strict biosecurity measures"
    case EmergencyVet => "📞 Contact veterinarian for emergency consultation"
    case HygieneAdvice => "🧼 Improve daily cleaning and disinfection protocols"
    case VaccinationAdvice => "💉 Update vaccination schedules immediately"
    case WasteAdvice => "🗑️ Implement proper waste disposal and treatment system"
    case VisitorAdvice => "🚪 Establish strict visitor entry protocols"
    case WaterAdvice => "💧 Implement regular water quality testing"
    case MonitorAdvice => "⚠️ Monitor closely and improve identified weak areas"
    case GoodPractice => "✅ Good practices! Continue current protocols"
    case AdvancedMonitoring => "📈 Consider advanced monitoring systems for optimization"
  }

  /** The per-answer advice lines in the order they are considered. */
  const FactorAdvice := [HygieneAdvice, VaccinationAdvice, WasteAdvice, VisitorAdvice, WaterAdvice]

  predicate PoorHygiene(a: Answers) {
    a.hygienePractices in ["Poor", "Average"]
  }
  predicate VaccinationBehind(a: Answers) {
    a.vaccinationRecords in ["Outdated", "Partially updated"]
  }
  predicate PoorWaste(a: Answers) {
    a.wasteManagement in ["No proper system", "Minimal disposal"]
  }
  predicate WeakVisitorControl(a: Answers) {
    a.visitorControl in ["No controls", "Minimal controls"]
  }
  predicate WaterUntested(a: Answers) {
    a.waterQuality in ["Never tested", "Rarely tested"]
  }

  /** Which of the five checked answers call for advice, in the order of `FactorAdvice`. */
  function FactorFlags(a: Answers): (f: seq<bool>)
    ensures |f| == |FactorAdvice|
  {
    [PoorHygiene(a), VaccinationBehind(a), PoorWaste(a), WeakVisitorControl(a), WaterUntested(a)]
  }

  function HygieneLines(a: Answers): seq<Advice> { if PoorHygiene(a) then [HygieneAdvice] else [] }
  function VaccinationLines(a: Answers): seq<Advice> { if VaccinationBehind(a) then [VaccinationAdvice] else [] }
  function WasteLines(a: Answers): seq<Advice> { if PoorWaste(a) then [WasteAdvice] else [] }
  function VisitorLines(a: Answers): seq<Advice> { if WeakVisitorControl(a) then [VisitorAdvice] else [] }
  function WaterLines(a: Answers): seq<Advice> { if WaterUntested(a) then [WaterAdvice] else [] }

  /** The lines of `lines` whose flag is set, order kept (built from the end, as appending does). */
  function Select(lines: seq<Advice>, flags: seq<bool>): (r: seq<Advice>)
    requires |lines| == |flags|
    ensures |r| <= |lines|
  {
    if lines == [] then []
    else
      var n := |lines| - 1;
      Select(lines[..n], flags[..n]) + (if flags[n] then [lines[n]] else [])
  }

  /** Taking one more flagged line appends it at the end. */
  lemma SelectExtend(lines: seq<Advice>, flags: seq<bool>, k: nat)
    requires |lines| == |flags| && k < |lines|
    ensures Select(lines[..k + 1], flags[..k + 1])
      == Select(lines[..k], flags[..k]) + (if flags[k] then [lines[k]] else [])
  {
    assert lines[..k + 1][..k] == lines[..k] && flags[..k + 1][..k] == flags[..k];
  }

  /** The five per-answer segments are the flagged lines of `FactorAdvice`, in order. */
  lemma FactorSegmentsAreSelected(a: Answers)
    ensures HygieneLines(a) + VaccinationLines(a) + WasteLines(a) + VisitorLines(a) + WaterLines(a)
      == Select(FactorAdvice, FactorFlags(a))
  {
    var f := FactorFlags(a);
    var h, v, w, vi, wa := HygieneLines(a), VaccinationLines(a), WasteLines(a), VisitorLines(a), WaterLines(a);
    assert FactorAdvice[..0] == [] && f[..0] == [];
    SelectExtend(FactorAdvice, f, 0);
    assert Select(FactorAdvice[..1], f[..1]) == h;
    SelectExtend(FactorAdvice, f, 1);
    assert Select(FactorAdvice[..2], f[..2]) == h + v;
    SelectExtend(FactorAdvice, f, 2);
    assert Select(FactorAdvice[..3], f[..3]) == h + v + w;
    SelectExtend(FactorAdvice, f, 3);
    assert Select(FactorAdvice[..4], f[..4]) == h + v + w + vi;
    SelectExtend(FactorAdvice, f, 4);
    assert FactorAdvice[..5] == FactorAdvice && f[..5] == f;
  }

  function OpeningLines(level: string): seq<Advice> {
    if level == "High" then [EmergencyAction, EmergencyVet] else []
  }

  function ClosingLines(level: string): seq<Advice> {
    (if level == "Medium" then [MonitorAdvice] else [])
    + (if level == "Low" then [GoodPractice, AdvancedMonitoring] else [])
  }

  /** What `get_recommendations` returns: openers, then each flagged factor's line, then closers. */
  function Recommendations(level: string, a: Answers): seq<Advice> {
    OpeningLines(level) + HygieneLines(a) + VaccinationLines(a) + WasteLines(a)
    + VisitorLines(a) + WaterLines(a) + ClosingLines(level)
  }

  /** The recommendations are the openers, the flagged advice lines in their fixed order, and the closers. */
  lemma RecommendationsShape(level: string, a: Answers)
    ensures Recommendations(level, a)
      == OpeningLines(level) + Select(FactorAdvice, FactorFlags(a)) + ClosingLines(level)
  {
    FactorSegmentsAreSelected(a);
    var o, c := OpeningLines(level), ClosingLines(level);
    var h, v, w, vi, wa := HygieneLines(a), VaccinationLines(a), WasteLines(a), VisitorLines(a), WaterLines(a);
    var mid := h + v + w + vi + wa;
    assert o + h + v + w + vi + wa == o + mid;
  }

  /** `get_recommendations`: appends the lines one by one. */
  method GetRecommendations(level: string, a: Answers) returns (recs: seq<Advice>)
    ensures recs == Recommendations(level, a)
  {
    recs := [];
    if level == "High" {
      recs := recs + [EmergencyAction];
      recs := recs + [EmergencyVet];
    }
    ghost var done := recs;
    assert done == OpeningLines(level);
    if PoorHygiene(a) {
      recs := recs + [HygieneAdvice];
    }
    assert recs == done + HygieneLines(a);
    done := recs;
    if VaccinationBehind(a) {
      recs := recs + [VaccinationAdvice];
    }
    assert recs == done + VaccinationLines(a);
    done := recs;
    if PoorWaste(a) {
      recs := recs + [WasteAdvice];
    }
    assert recs == done + WasteLines(a);
    done := recs;
    if WeakVisitorControl(a) {
      recs := recs + [VisitorAdvice];
    }
    assert recs == done + VisitorLines(a);
    done := recs;
    if WaterUntested(a) {
      recs := recs + [WaterAdvice];
    }
    assert recs == done + WaterLines(a);
    done := recs;
    if level == "Medium" {
      recs := recs + [MonitorAdvice];
    }
    if level == "Low" {
      recs := recs + [GoodPractice];
      recs := recs + [AdvancedMonitoring];
    }
    assert recs == done + ClosingLines(level);
  }

  // ---------------------------------------------------------------------
  // Properties of the recommendations

  /** `xs` can be obtained from `ys` by deleting elements. */
  predicate IsSubsequence(xs: seq<Advice>, ys: seq<Advice>)
    decreases |ys|
  {
    if ys == [] then xs == []
    else
      var n := |ys| - 1;
      (xs != [] && xs[|xs| - 1] == ys[n] && IsSubsequence(xs[..|xs| - 1], ys[..n]))
      || IsSubsequence(xs, ys[..n])
  }

  lemma {:induction false} SelectIsSubsequence(lines: seq<Advice>, flags: seq<bool>)
    requires |lines| == |flags|
    ensures IsSubsequence(Select(lines, flags), lines)
  {
    if lines != [] {
      var n := |lines| - 1;
      SelectIsSubsequence(lines[..n], flags[..n]);
      var rest := Select(lines[..n], flags[..n]);
      if flags[n] {
        var r := rest + [lines[n]];
        assert r[..|r| - 1] == rest;
      } else {
        assert Select(lines, flags) == rest;
      }
    }
  }

  /**
   * The per-answer lines keep the fixed order hygiene, vaccination, waste,
   * visitor, water: between the openers and the closers they form a
   * subsequence of `FactorAdvice`.
   */
  lemma FactorLinesInFixedOrder(level: string, a: Answers)
    ensures var r, o, c := Recommendations(level, a), OpeningLines(level), ClosingLines(level);
      && |o| + |c| <= |r|
      && IsSubsequence(r[|o|..|r| - |c|], FactorAdvice)
  {
    RecommendationsShape(level, a);
    var r, o, c := Recommendations(level, a), OpeningLines(level), ClosingLines(level);
    var mid := Select(FactorAdvice, FactorFlags(a));
    assert r[|o|..|r| - |c|] == mid;
    SelectIsSubsequence(FactorAdvice, FactorFlags(a));
  }

  lemma {:induction false} SelectMember(lines: seq<Advice>, flags: seq<bool>, k: nat)
    requires |lines| == |flags| && k < |lines|
    requires forall i :: 0 <= i < |lines| && i != k ==> lines[i] != lines[k]
    ensures lines[k] in Select(lines, flags) <==> flags[k]
  {
    var n := |lines| - 1;
    if k == n {
      SelectOnlyFrom(lines[..n], flags[..n], lines[n]);
    } else {
      assert lines[n] != lines[k];
      SelectMember(lines[..n], flags[..n], k);
    }
  }

  /** Every selected line is a flagged line of the list; in particular nothing outside the list is selected. */
  lemma {:induction false} SelectOnlyFrom(lines: seq<Advice>, flags: seq<bool>, x: Advice)
    requires |lines| == |flags|
    ensures x in Select(lines, flags) ==> exists i :: 0 <= i < |lines| && lines[i] == x && flags[i]
    ensures x !in lines ==> x !in Select(lines, flags)
  {
    if lines != [] {
      var n := |lines| - 1;
      SelectOnlyFrom(lines[..n], flags[..n], x);
      if x in Select(lines, flags) {
        if x in Select(lines[..n], flags[..n]) {
          var i :| 0 <= i < n && lines[..n][i] == x && flags[..n][i];
          assert lines[i] == x && flags[i];
        } else {
          assert lines[n] == x && flags[n];
        }
      }
    }
  }

  /** Each per-answer line is given exactly when its answer is flagged. */
  lemma FactorLineIffFlagged(level: string, a: Answers, k: nat)
    requires k < |FactorAdvice|
    ensures FactorAdvice[k] in Recommendations(level, a) <==> FactorFlags(a)[k]
  {
    RecommendationsShape(level, a);
    SelectMember(FactorAdvice, FactorFlags(a), k);
  }

  /** "High" opens with the two emergency lines. */
  lemma HighStartsWithEmergency(a: Answers)
    ensures |Recommendations("High", a)| >= 2
    ensures Recommendations("High", a)[..2] == [EmergencyAction, EmergencyVet]
  {
  }

  /** "Medium" closes with the single monitoring line and has neither emergency line. */
  lemma MediumEndsWithMonitor(a: Answers)
    ensures |Recommendations("Medium", a)| >= 1
    ensures Recommendations("Medium", a)[|Recommendations("Medium", a)| - 1] == MonitorAdvice
    ensures EmergencyAction !in Recommendations("Medium", a)
    ensures EmergencyVet !in Recommendations("Medium", a)
  {
    RecommendationsShape("Medium", a);
    SelectOnlyFrom(FactorAdvice, FactorFlags(a), EmergencyAction);
    SelectOnlyFrom(FactorAdvice, FactorFlags(a), EmergencyVet);
  }

  /** "Low" closes with the two good-practice lines. */
  lemma LowEndsWithGoodPractice(a: Answers)
    ensures |Recommendations("Low", a)| >= 2
    ensures var r := Recommendations("Low", a);
      r[|r| - 2..] == [GoodPractice, AdvancedMonitoring]
  {
  }

  /** The feed-storage and disease-history answers never change the advice. */
  lemma IgnoresFeedAndDisease(level: string, a: Answers, feed: string, disease: string)
    ensures Recommendations(level, a)
      == Recommendations(level, a.(feedStorage := feed, diseaseHistory := disease))
  {
  }

  /** At most seven lines; none for an unrecognised level when every checked answer is good. */
  lemma RecommendationsLength(level: string, a: Answers)
    ensures |Recommendations(level, a)| <= 7
    ensures level !in ["High", "Medium", "Low"] && !PoorHygiene(a) && !VaccinationBehind(a)
      && !PoorWaste(a) && !WeakVisitorControl(a) && !WaterUntested(a)
      ==> Recommendations(level, a) == []
  {
  }
}
