/**
 * Navigation and presentation rules of the demo dashboard (app_demo.py):
 * the regional colour thresholds, the sidebar's page choice, `main`'s routing
 * and the name of an exported CSV file.
 */
module DemoDashboard {

  import opened Text
  import DemoRisk

  // ---------------------------------------------------------------------
  // Regional colours

  /** How alarming a colour is: green 0, orange 1, red 2. */
  function Severity(colour: string): nat {
    if colour == DemoRisk.Green then 0 else if colour == DemoRisk.Orange then 1 else 2
  }

  /** Colour of a region's risk score on the geographic view: below 30 green, below 35 orange. */
  function RegionRiskColour(riskScore: int): (c: string)
    ensures c == DemoRisk.Green <==> riskScore < 30
    ensures c == DemoRisk.Orange <==> 30 <= riskScore < 35
    ensures c == DemoRisk.Red <==> riskScore >= 35
  {
    if riskScore < 30 then DemoRisk.Green
    else if riskScore < 35 then DemoRisk.Orange
    else DemoRisk.Red
  }

  /** Colour of a region's average biosecurity score: above 90 green, above 85 orange. */
  function RegionScoreColour(avgScore: real): (c: string)
    ensures c == DemoRisk.Green <==> avgScore > 90.0
    ensures c == DemoRisk.Orange <==> 85.0 < avgScore <= 90.0
    ensures c == DemoRisk.Red <==> avgScore <= 85.0
  {
    if avgScore > 90.0 then DemoRisk.Green
    else if avgScore > 85.0 then DemoRisk.Orange
    else DemoRisk.Red
  }

  /** A higher risk score is never shown in a calmer colour. */
  lemma RegionRiskColourMonotone(a: int, b: int)
    requires a <= b
    ensures Severity(RegionRiskColour(a)) <= Severity(RegionRiskColour(b))
  {
  }

  /** A higher average score is never shown in a more alarming colour. */
  lemma RegionScoreColourAntitone(a: real, b: real)
    requires a <= b
    ensures Severity(RegionScoreColour(a)) >= Severity(RegionScoreColour(b))
  {
  }

  /**
   * The regional thresholds are stricter than the assessment's bands: a
   * score of 30 is a Low band in green but an orange region.
   */
  lemma RegionAndBandDisagreeAt30()
    ensures DemoRisk.RiskBand(30).colour == DemoRisk.Green
    ensures RegionRiskColour(30) == DemoRisk.Orange
  {
  }

  // ---------------------------------------------------------------------
  // Sidebar and routing

  /** The sidebar's navigation buttons, in order. */
  const SidebarPages: seq<string> := ["Home", "Risk Assessment", "Analytics", "Protection Hub"]

  const HomeName: string := "Home"

  /** Index of the last pressed button, if any. */
  function LastPressed(pressed: seq<bool>): (r: int)
    ensures -1 <= r < |pressed|
    ensures r == -1 <==> forall i :: 0 <= i < |pressed| ==> !pressed[i]
    ensures r >= 0 ==> pressed[r] && forall j :: r < j < |pressed| ==> !pressed[j]
    decreases |pressed|
  {
    if pressed == [] then -1
    else if pressed[|pressed| - 1] then |pressed| - 1
    else LastPressed(pressed[..|pressed| - 1])
  }

  /**
   * `create_sidebar`'s page choice: each pressed button overwrites the
   * selection, and "Home" is the default when none was pressed.
   */
  method PickPage(pressed: seq<bool>) returns (page: string)
    requires |pressed| == |SidebarPages|
    ensures (forall i :: 0 <= i < |pressed| ==> !pressed[i]) ==> page == HomeName
    ensures LastPressed(pressed) >= 0 ==> page == SidebarPages[LastPressed(pressed)]
  {
    var selected := -1;
    var i := 0;
    while i < |SidebarPages|
      invariant 0 <= i <= |SidebarPages|
      invariant selected == LastPressed(pressed[..i])
    {
      assert pressed[..i + 1][..i] == pressed[..i];
      if pressed[i] {
        selected := i;
      }
      i := i + 1;
    }
    assert pressed[..i] == pressed;
    if selected == -1 {
      page := HomeName;
    } else {
      page := SidebarPages[selected];
    }
  }

  /** The page functions `main` can dispatch to. */
  datatype Page =
    | HomePage
    | RiskAssessmentPage
    | AnalyticsDashboardPage
    | ProtectionHubPage
    | TrainingComingSoon
    | ComplianceComingSoon
    | AlertsPage
    | MonitoringPage
    | FarmerNetworkPage
    | DataExportPage

  /** The names `main` tests, each with the page it dispatches to. */
  const Routes: seq<(string, Page)> := [
    ("Home", HomePage),
    ("Risk Assessment", RiskAssessmentPage),
    ("Analytics Dashboard", AnalyticsDashboardPage),
    ("Protection Hub", ProtectionHubPage),
    ("Training Modules", TrainingComingSoon),
    ("Compliance Tracking", ComplianceComingSoon),
    ("Alerts & Notifications", AlertsPage),
    ("Monitoring Dashboard", MonitoringPage),
    ("Farmer Network", FarmerNetworkPage),
    ("Data Export", DataExportPage)
  ]

  /** Entry `k` is the first entry of `routes` named `name`. */
  predicate FirstNamed(routes: seq<(string, Page)>, name: string, k: int) {
    0 <= k < |routes| && routes[k].0 == name && forall j :: 0 <= j < k ==> routes[j].0 != name
  }

  /** Looks `name` up in a route table; the first matching name wins, anything else is Home. */
  function RouteIn(routes: seq<(string, Page)>, name: string): (p: Page)
    ensures (forall i :: 0 <= i < |routes| ==> routes[i].0 != name) ==> p == HomePage
    ensures forall k :: FirstNamed(routes, name, k) ==> p == routes[k].1
  {
    if routes == [] then HomePage
    else if routes[0].0 == name then
      assert forall k :: FirstNamed(routes, name, k) ==> k == 0;
      routes[0].1
    else
      var p := RouteIn(routes[1..], name);
      assert forall i :: 1 <= i < |routes| ==> routes[i] == routes[1..][i - 1];
      assert forall k :: FirstNamed(routes, name, k) ==> p == routes[k].1 by {
        forall k | FirstNamed(routes, name, k) ensures p == routes[k].1 {
          assert k > 0;
          assert FirstNamed(routes[1..], name, k - 1);
        }
      }
      p
  }

  /** No two names `main` tests are equal. */
  lemma RouteNamesDistinct()
    ensures forall i, j :: 0 <= i < j < |Routes| ==> Routes[i].0 != Routes[j].0
  {
    assert forall i, j :: 0 <= i < j < |Routes| ==>
      |Routes[i].0| != |Routes[j].0| || Routes[i].0[0] != Routes[j].0[0];
  }

  /**
   * `main`'s if/elif chain: every name it tests reaches that branch's page,
   * and any other name falls through to Home.
   */
  function Route(name: string): (p: Page)
    ensures forall k :: 0 <= k < |Routes| && Routes[k].0 == name ==> p == Routes[k].1
    ensures (forall i :: 0 <= i < |Routes| ==> Routes[i].0 != name) ==> p == HomePage
  {
    RouteNamesDistinct();
    assert forall k :: 0 <= k < |Routes| && Routes[k].0 == name ==> FirstNamed(Routes, name, k);
    RouteIn(Routes, name)
  }

  /** A name `main` does not test, such as the sidebar's "Analytics", falls through to Home. */
  lemma UnroutedNameIsHome(name: string)
    requires forall i :: 0 <= i < |Routes| ==> Routes[i].0 != name
    ensures Route(name) == HomePage
  {
  }

  /** The sidebar's "Analytics" button leads to the home page, not to the analytics dashboard. */
  lemma AnalyticsButtonShowsHome()
    ensures SidebarPages[2] == "Analytics"
    ensures Route(SidebarPages[2]) == HomePage
  {
    assert forall i :: 0 <= i < |Routes| ==> |Routes[i].0| != 9 || Routes[i].0[0] != 'A';
  }

  /** The other three sidebar buttons reach their own pages. */
  lemma OtherButtonsRouted()
    ensures Route(SidebarPages[0]) == HomePage
    ensures Route(SidebarPages[1]) == RiskAssessmentPage
    ensures Route(SidebarPages[3]) == ProtectionHubPage
  {
  }

  // ---------------------------------------------------------------------
  // Export file name

  datatype Date = Date(year: nat, month: nat, day: nat)

  /** A calendar date `strftime('%Y%m%d')` prints as eight digits. */
  predicate ValidDate(d: Date) {
    1000 <= d.year <= 9999 && 1 <= d.month <= 12 && 1 <= d.day <= 31
  }

  /** `strftime('%Y%m%d')`. */
  function DateStamp(d: Date): (s: string)
    requires ValidDate(d)
    ensures |s| == 8
    ensures forall i :: 0 <= i < |s| ==> IsDigit(s[i])
  {
    assert Pow10(4) == 10000 && Pow10(2) == 100;
    ZeroPadExactWidth(d.year, 4);
    ZeroPadExactWidth(d.month, 2);
    ZeroPadExactWidth(d.day, 2);
    ZeroPad(d.year, 4) + ZeroPad(d.month, 2) + ZeroPad(d.day, 2)
  }

  /** The stamp reads back as the date it was made from. */
  lemma DateStampRoundTrip(d: Date)
    requires ValidDate(d)
    ensures var s := DateStamp(d);
      ParseDecimal(s[..4]) == d.year && ParseDecimal(s[4..6]) == d.month && ParseDecimal(s[6..]) == d.day
  {
    var s := DateStamp(d);
    assert Pow10(4) == 10000 && Pow10(2) == 100;
    ZeroPadExactWidth(d.year, 4);
    ZeroPadExactWidth(d.month, 2);
    ZeroPadExactWidth(d.day, 2);
    assert s[..4] == ZeroPad(d.year, 4);
    assert s[4..6] == ZeroPad(d.month, 2);
    assert s[6..] == ZeroPad(d.day, 2);
    ZeroPadRoundTrip(d.year, 4);
    ZeroPadRoundTrip(d.month, 2);
    ZeroPadRoundTrip(d.day, 2);
  }

  /** `s.replace(' ', '_')`. */
  function ReplaceSpaces(s: string): (r: string)
    ensures |r| == |s|
    ensures forall i :: 0 <= i < |s| ==> r[i] == (if s[i] == ' ' then '_' else s[i])
  {
    seq(|s|, i requires 0 <= i < |s| => if s[i] == ' ' then '_' else s[i])
  }

  /** `f"{selected.lower().replace(' ', '_')}_{stamp}.csv"`. */
  function ExportFileName(selected: string, today: Date): (f: string)
    requires ValidDate(today)
    ensures |f| == |selected| + 13
    ensures forall i :: 0 <= i < |selected| ==>
      f[i] == (if selected[i] == ' ' then '_' else LowerChar(selected[i]))
    ensures f[|selected|..] == "_" + DateStamp(today) + ".csv"
  {
    var head := ReplaceSpaces(Lower(selected));
    var f := head + "_" + DateStamp(today) + ".csv";
    assert f[|selected|..] == "_" + DateStamp(today) + ".csv";
    f
  }

  /**
   * The file name has no spaces and no capitals A-Z; it is the selection in
   * that form, an underscore, the eight-digit date and ".csv".
   */
  lemma ExportFileNameShape(selected: string, today: Date)
    requires ValidDate(today)
    ensures var f := ExportFileName(selected, today);
      && |f| == |selected| + 13
      && f[|f| - 4..] == ".csv"
      && f[|selected|] == '_'
      && f[|selected| + 1..|selected| + 9] == DateStamp(today)
      && forall i :: 0 <= i < |f| ==> f[i] != ' ' && !('A' <= f[i] <= 'Z')
  {
    var f := ExportFileName(selected, today);
    var n := |selected|;
    var head := ReplaceSpaces(Lower(selected));
    assert f == head + "_" + DateStamp(today) + ".csv";
    assert f[n + 1..n + 9] == DateStamp(today);
    forall i | 0 <= i < |f| ensures f[i] != ' ' && !('A' <= f[i] <= 'Z') {
      if i < n {
        assert f[i] == head[i];
      } else if n < i < n + 9 {
        assert f[i] == DateStamp(today)[i - n - 1];
      } else if i >= n + 9 {
        assert f[i] == ".csv"[i - n - 9];
      }
    }
  }

  /** The export date can be read back from the file name. */
  lemma ExportFileNameRecordsDate(selected: string, today: Date)
    requires ValidDate(today)
    ensures var f := ExportFileName(selected, today); var n := |selected|;
      ParseDecimal(f[n + 1..n + 5]) == today.year
      && ParseDecimal(f[n + 5..n + 7]) == today.month
      && ParseDecimal(f[n + 7..n + 9]) == today.day
  {
    ExportFileNameShape(selected, today);
    var f := ExportFileName(selected, today);
    var n := |selected|;
    var s := DateStamp(today);
    assert f[n + 1..n + 5] == s[..4];
    assert f[n + 5..n + 7] == s[4..6];
    assert f[n + 7..n + 9] == s[6..];
    DateStampRoundTrip(today);
  }

  /** The export menu's choices. */
  const ExportOptions: seq<string> :=
    ["Risk Assessment Data", "Training Progress", "Compliance Records", "Farmer Directory", "Summary Report"]

  /** The date stamp of 1 September 2025. */
  lemma September2025Stamp()
    ensures DateStamp(Date(2025, 9, 1)) == "20250901"
  {
    assert Digits(2025) == "2025";
    assert ZeroPad(9, 2) == "09" && ZeroPad(1, 2) == "01";
  }

  /** The first export option in file-name form. */
  lemma RiskAssessmentHead()
    ensures ReplaceSpaces(Lower(ExportOptions[0])) == "risk_assessment_data"
  {
    assert Lower(ExportOptions[0]) == "risk assessment data";
  }

  /** One concrete name: the first option exported on 1 September 2025. */
  lemma RiskAssessmentExportName()
    ensures ExportFileName(ExportOptions[0], Date(2025, 9, 1)) == "risk_assessment_data_20250901.csv"
  {
    var d := Date(2025, 9, 1);
    September2025Stamp();
    RiskAssessmentHead();
    assert ExportFileName(ExportOptions[0], d)
        == ReplaceSpaces(Lower(ExportOptions[0])) + "_" + DateStamp(d) + ".csv";
  }
}
