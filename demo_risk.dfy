/**
 * The risk assessment of the demo dashboard (`risk_assessment_page` in
 * app_demo.py): a mock score from the hygiene and vaccination selections,
 * the Low/Medium/High band with its colour, and the top four of the fixed
 * recommendations, labelled by priority.
 */
module DemoRisk {

  import opened Text

  const BaseScore: int := 45

  /** `s and keyword in s`: a non-empty selection that contains the keyword. */
  predicate Mentions(selection: string, keyword: string) {
    selection != "" && Contains(selection, keyword)
  }

  /** What the hygiene selection adds to the score. */
  function HygieneAdjustment(hygiene: string): (d: int)
    ensures d == -10 <==> Mentions(hygiene, "Advanced")
    ensures d == 15 <==> !Mentions(hygiene, "Advanced") && Mentions(hygiene, "Poor")
    ensures d in {-10, 0, 15}
  {
    if Mentions(hygiene, "Advanced") then -10
    else if Mentions(hygiene, "Poor") then 15
    else 0
  }

  /** What the vaccination selection adds to the score. */
  function VaccinationAdjustment(vaccination: string): (d: int)
    ensures d == -8 <==> Mentions(vaccination, "Comprehensive")
    ensures d == 12 <==> !Mentions(vaccination, "Comprehensive") && Mentions(vaccination, "Irregular")
    ensures d in {-8, 0, 12}
  {
    if Mentions(vaccination, "Comprehensive") then -8
    else if Mentions(vaccination, "Irregular") then 12
    else 0
  }

  /** The mock score: the base adjusted by both selections. */
  function MockScore(hygiene: string, vaccination: string): int {
    BaseScore + HygieneAdjustment(hygiene) + VaccinationAdjustment(vaccination)
  }

  /** The page's computation, adjusting a local score step by step. */
  method MockRiskScore(hygiene: string, vaccination: string) returns (score: int)
    ensures score == MockScore(hygiene, vaccination)
    ensures 27 <= score <= 72
  {
    score := BaseScore;
    if hygiene != "" && Contains(hygiene, "Advanced") {
      score := score - 10;
    } else if hygiene != "" && Contains(hygiene, "Poor") {
      score := score + 15;
    }
    if vaccination != "" && Contains(vaccination, "Comprehensive") {
      score := score - 8;
    } else if vaccination != "" && Contains(vaccination, "Irregular") {
      score := score + 12;
    }
    MockScoreBounds(hygiene, vaccination);
  }

  /** The best selections give 27 and the worst 72; nothing falls outside. */
  lemma MockScoreBounds(hygiene: string, vaccination: string)
    ensures 27 <= MockScore(hygiene, vaccination) <= 72
  {
    var h, v := HygieneAdjustment(hygiene), VaccinationAdjustment(vaccination);
    assert h in {-10, 0, 15} && v in {-8, 0, 12};
  }

  // ---------------------------------------------------------------------
  // Risk band

  datatype Level = Low | Medium | High

  const Green: string := "#4CAF50"
  const Orange: string := "#FF9800"
  const Red: string := "#F44336"

  datatype Band = Band(level: Level, colour: string)

  /** The band shown for a score: up to 30 Low, up to 60 Medium, above High. */
  function RiskBand(score: int): (b: Band)
    ensures b.level == Low <==> score <= 30
    ensures b.level == Medium <==> 30 < score <= 60
    ensures b.level == High <==> score > 60
    ensures b.colour == (match b.level case Low => Green case Medium => Orange case High => Red)
  {
    if score <= 30 then Band(Low, Green)
    else if score <= 60 then Band(Medium, Orange)
    else Band(High, Red)
  }

  /** A higher score never gets a lower band. */
  lemma RiskBandMonotone(a: int, b: int)
    requires a <= b
    ensures RiskBand(a).level == High ==> RiskBand(b).level == High
    ensures RiskBand(b).level == Low ==> RiskBand(a).level == Low
  {
  }

  /** The mock score is Low exactly for advanced hygiene with comprehensive vaccination. */
  lemma LowIffBestSelections(hygiene: string, vaccination: string)
    ensures RiskBand(MockScore(hygiene, vaccination)).level == Low
        <==> Mentions(hygiene, "Advanced") && Mentions(vaccination, "Comprehensive")
  {
    var h, v := HygieneAdjustment(hygiene), VaccinationAdjustment(vaccination);
    assert h in {-10, 0, 15} && v in {-8, 0, 12};
  }

  /** The mock score is High exactly for poor hygiene with irregular vaccination. */
  lemma HighIffWorstSelections(hygiene: string, vaccination: string)
    ensures RiskBand(MockScore(hygiene, vaccination)).level == High
        <==> (&& !Mentions(hygiene, "Advanced") && Mentions(hygiene, "Poor")
              && !Mentions(vaccination, "Comprehensive") && Mentions(vaccination, "Irregular"))
  {
    var h, v := HygieneAdjustment(hygiene), VaccinationAdjustment(vaccination);
    assert h in {-10, 0, 15} && v in {-8, 0, 12};
  }

  /** The "Advanced" hygiene option takes 10 off the score. */
  lemma AdvancedHygieneAdjustment()
    ensures HygieneAdjustment("Advanced (Multi-level disinfection)") == -10
  {
    var h := "Advanced (Multi-level disinfection)";
    assert h[..|"Advanced"|] == "Advanced";
    assert Mentions(h, "Advanced");
  }

  /** The "Standard" vaccination option leaves the score alone. */
  lemma StandardVaccinationAdjustment()
    ensures VaccinationAdjustment("Standard (Vet-managed)") == 0
  {
    var v := "Standard (Vet-managed)";
    assert forall i :: 0 <= i < |v| ==> v[i] != 'C' && v[i] != 'I';
    AbsentFirstChar(v, "Comprehensive");
    AbsentFirstChar(v, "Irregular");
  }

  /** Advanced hygiene alone, without comprehensive vaccination, still scores Medium. */
  lemma OneGoodSelectionIsMedium()
    ensures MockScore("Advanced (Multi-level disinfection)", "Standard (Vet-managed)") == 35
    ensures RiskBand(35).level == Medium
  {
    AdvancedHygieneAdjustment();
    StandardVaccinationAdjustment();
  }

  // ---------------------------------------------------------------------
  // Recommendations

  /** The six recommendations the page always offers, most urgent first. */
  const Recommendations: seq<string> := [
    "🧼 Implement advanced disinfection protocols at entry points",
    "💉 Upgrade to AI-scheduled vaccination management system",
    "🔬 Install real-time pathogen detection sensors",
    "👥 Conduct monthly staff biosecurity training sessions",
    "📱 Deploy IoT monitoring for early warning systems",
    "🛰️ Consider satellite surveillance for perimeter security"
  ]

  const ShownRecommendations: nat := 4

  datatype Ranked = Ranked(priority: nat, text: string)

  /** `enumerate(recs[:4])` with priorities counted from 1. */
  method Prioritise(recs: seq<string>) returns (shown: seq<Ranked>)
    ensures |shown| == if |recs| < ShownRecommendations then |recs| else ShownRecommendations
    ensures forall i :: 0 <= i < |shown| ==> shown[i] == Ranked(i + 1, recs[i])
  {
    var top := if |recs| < ShownRecommendations then recs else recs[..ShownRecommendations];
    shown := [];
    var i := 0;
    while i < |top|
      invariant 0 <= i <= |top|
      invariant |shown| == i
      invariant forall j :: 0 <= j < i ==> shown[j] == Ranked(j + 1, recs[j])
    {
      shown := shown + [Ranked(i + 1, top[i])];
      i := i + 1;
    }
  }
}
