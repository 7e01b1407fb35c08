# Farm biosecurity dashboards — Dafny model

This project models the rules behind two Streamlit dashboards for pig and
poultry farmers. The main portal is `app.py` and the demo dashboard is
`app_demo.py`. Widgets, charts and storage are not modelled. What is
modelled is the logic they present:

- the risk-score questionnaire and its recommendations;
- display-string lookup for English and Hindi;
- training progress per user;
- the compliance checklist of a farm;
- farmer registration and the directory filter;
- the administrator flag;
- the demo's mock risk score, risk band and priority list;
- the demo's regional colours, sidebar choice, page routing and export file name.

Modules, one per component:

| module | file | form |
|---|---|---|
| `Wrappers` | wrappers.dfy | `Option` |
| `Text` | text.dfy | pure: ASCII lower-casing, substring test, decimal zero padding and its parse-back |
| `Translation` | translation.dfy | pure: `LANGUAGES` tables and `get_text` |
| `RiskScoring` | risk_scoring.dfy | methods `CalculateRiskScore`, `GetRecommendations` (step-by-step, as the source) proved equal to spec functions `RiskScore`, `Recommendations` |
| `Training` | training.dfy | class `UserProgress` (the list the page appends to and removes from) |
| `Compliance` | compliance.dfy | class `ComplianceRecord` (the checklist dictionary the page writes) |
| `Directory` | directory.dfy | pure: registration and the three-stage dict-comprehension filter |
| `Admin` | admin.dfy | class `AdminSession` (the `admin_logged_in` session flag, shared by both apps) |
| `DemoRisk` | demo_risk.dfy | method `MockRiskScore` (a local adjusted with `-=`/`+=`), band function, `Prioritise` loop |
| `DemoDashboard` | demo_dashboard.dfy | colour thresholds, method `PickPage` (the sidebar loop), routing, export file name |

External inputs become parameters:

- the selected language;
- the pressed sidebar buttons;
- the entered password;
- the form fields;
- today's date, used in the export file name.

Recommendation texts are a datatype `Advice`. `Message` gives each value's
exact display string.

## Model

| member | source | states |
|---|---|---|
| Translation.GetText | app.py:95-98 | the current language's entry when it has the key; an unknown language reads the English table; a key the table lacks comes back as itself, so the result is always a string |
| Translation.UnknownLanguageIsEnglish | app.py:97 | any language not in `LANGUAGES` gives exactly the English result |
| Translation.TablesShareKeys | app.py:26-87 | the English and Hindi tables define the same keys |
| Translation.TranslatedIffEnglishHasKey | app.py:26-98 | with the shipped tables a key is translated (in Hindi for Hindi, English otherwise) exactly when English has it, else the key is returned |
| RiskScoring.CalculateRiskScore | app.py:248-288 | the step-by-step accumulation equals `RiskScore` (sum of the eight weights, capped at 100) and lies in [5, 100] |
| RiskScoring.RiskScoreBounds | app.py:250-288 | the uncapped sum lies in [5, 111] and the capped score in [5, 100] |
| RiskScoring.BestAnswersScoreFive | app.py:253-286 | the best answer to every question on a small farm scores exactly 5 |
| RiskScoring.WorstAnswersCapped | app.py:253-288 | the worst answers on a large farm sum to 111 and are capped to 100 |
| RiskScoring.UnlistedAnswersUseDefaults | app.py:257-286 | answers outside every table and a farm size other than Large or Medium contribute 5+15+10+10+8+6+6+5 |
| RiskScoring.HygieneRange | app.py:261-262 | the hygiene weight lies in [0, 20] |
| RiskScoring.VaccinationRange | app.py:265-266 | the vaccination weight lies in [0, 15] |
| RiskScoring.WasteRange | app.py:269-270 | the waste weight lies in [0, 15] |
| RiskScoring.VisitorRange | app.py:273-274 | the visitor weight lies in [0, 10] |
| RiskScoring.FeedRange | app.py:277-278 | the feed weight lies in [0, 8] |
| RiskScoring.WaterRange | app.py:281-282 | the water weight lies in [0, 8] |
| RiskScoring.DiseaseRange | app.py:285-286 | the disease weight lies in [0, 15] |
| RiskScoring.FarmSizeAscending | app.py:253-258 | farm sizes ordered small to large never decrease in weight |
| RiskScoring.HygieneAscending | app.py:261 | hygiene options ordered best to worst never decrease in weight |
| RiskScoring.VaccinationAscending | app.py:265 | vaccination options ordered best to worst never decrease in weight |
| RiskScoring.WasteAscending | app.py:269 | waste options ordered best to worst never decrease in weight |
| RiskScoring.VisitorAscending | app.py:273 | visitor options ordered best to worst never decrease in weight |
| RiskScoring.FeedAscending | app.py:277 | feed options ordered best to worst never decrease in weight |
| RiskScoring.WaterAscending | app.py:281 | water options ordered best to worst never decrease in weight |
| RiskScoring.DiseaseAscending | app.py:285 | disease options ordered best to worst never decrease in weight |
| RiskScoring.AscendingBetween | app.py:253-286 | in an option list whose neighbouring weights ascend, a later option never weighs less than an earlier one |
| RiskScoring.NoBetterWeight | app.py:253-286 | replacing an answer by one ranked no better never lowers that question's weight |
| RiskScoring.RiskScoreMonotone | app.py:253-288 | answers each no better than another set's never give a lower score |
| RiskScoring.GetRecommendations | app.py:290-320 | the appending method produces exactly `Recommendations(level, a)`: opening lines, the five factor lines, closing lines |
| RiskScoring.RecommendationsShape | app.py:292-320 | the result is the level's opening lines, then the factor advice selected by the five answer tests in fixed order, then the level's closing lines |
| RiskScoring.FactorFlags | app.py:298-311 | the five flags are the hygiene, vaccination, waste, visitor and water tests, in that order |
| RiskScoring.Select | app.py:298-311 | selecting lines by flags keeps at most as many lines as there are |
| RiskScoring.SelectExtend | app.py:298-311 | selecting one more line extends the selection only by that line, when flagged |
| RiskScoring.FactorSegmentsAreSelected | app.py:298-311 | the five conditional appends equal the selection of the factor advice by the five flags |
| RiskScoring.SelectIsSubsequence | app.py:298-311 | the selected lines are a subsequence of the advice list |
| RiskScoring.FactorLinesInFixedOrder | app.py:294-318 | between the openers and the closers the output is a subsequence of hygiene, vaccination, waste, visitor, water advice, in that order |
| RiskScoring.SelectMember | app.py:298-311 | a flagged line is in the selection |
| RiskScoring.SelectOnlyFrom | app.py:298-311 | a selected line is a flagged line of the list; a line outside the list is never selected |
| RiskScoring.FactorLineIffFlagged | app.py:298-311 | a factor line is in the output exactly when its answer test holds |
| RiskScoring.HighStartsWithEmergency | app.py:294-296 | level "High" starts with the two emergency lines |
| RiskScoring.MediumEndsWithMonitor | app.py:294-314 | level "Medium" ends with the monitor line and contains neither emergency line |
| RiskScoring.LowEndsWithGoodPractice | app.py:316-318 | level "Low" ends with the two good-practice lines |
| RiskScoring.IgnoresFeedAndDisease | app.py:290-320 | changing feed storage or disease history never changes the output |
| RiskScoring.RecommendationsLength | app.py:290-320 | at most 7 lines; none for an unknown level when all five tests fail |
| Training.Remove | app.py:448 | `list.remove` shortens the list by one |
| Training.RemoveKeepsOthers | app.py:448 | removal keeps every other id and, in a duplicate-free list, removes the id entirely |
| Training.MarkThenResetRestores | app.py:440-448 | marking a module and then resetting it restores the list |
| Training.DistinctCount | app.py:410-412 | a duplicate-free list has as many distinct ids as entries |
| Training.CompletedBounded | app.py:410-412 | a duplicate-free list of module ids has at most five entries and a rate in [0, 100] |
| Training.UserProgress.New | app.py:331-336 | a new user starts with no modules and rate 0 |
| Training.UserProgress.DisplayedRate | app.py:410-416 | the shown rate lies in [0, 100] |
| Training.UserProgress.MarkCompleted | app.py:437-445 | appends the id once, keeps the list duplicate-free, rate = len/5*100, other modules unchanged |
| Training.UserProgress.Reset | app.py:446-453 | removes the id, rate = len/5*100, other modules unchanged |
| Compliance.StatusIn | app.py:492 | an item without an entry reads as Pending |
| Compliance.IdForTitle | app.py:535 | the id of the first item with the title; none when no item has it |
| Compliance.CountStatus | app.py:504-508 | a count over the items never exceeds their number |
| Compliance.VerifiedAndSubmittedBounded | app.py:504-508 | verified + submitted never exceeds the number of items |
| Compliance.CountIgnoresOtherIds | app.py:541-575 | setting the status of an id no item has changes no count |
| Compliance.CountAfterUpdate | app.py:541-575 | setting one item's status moves exactly that item between the counts |
| Compliance.ItemsHaveDistinctIds | app.py:477-486 | eight items, no two with the same id |
| Compliance.VerifyAddsOne | app.py:567-568 | verifying an unverified item adds one to the verified count |
| Compliance.RejectRemovesOne | app.py:574-575 | rejecting a verified item takes one from the verified count |
| Compliance.ComplianceRecord.New | app.py:465-470 | an unknown farm starts with no documents and an empty checklist |
| Compliance.ComplianceRecord.Upload | app.py:535-541 | records the document and sets that item, and only it, to Submitted whatever it was |
| Compliance.ComplianceRecord.Verify | app.py:551-570 | for a logged-in admin and an uploaded item sets it, and only it, to Verified; otherwise nothing changes |
| Compliance.ComplianceRecord.Reject | app.py:551-577 | for a logged-in admin and an uploaded item sets it, and only it, to Pending; otherwise nothing changes |
| Compliance.ComplianceRecord.Summary | app.py:503-508 | the loop's counts are the verified and submitted counts over the eight items, together at most 8 |
| Directory.FarmerId | app.py:965 | `farmer_` followed by at least three digits |
| Directory.FarmerIdInjective | app.py:965 | different numbers give different ids |
| Directory.FarmerIdLength | app.py:965 | below 1000 the id has exactly ten characters |
| Directory.NewEntry | app.py:967-979 | the stored entry is not verified |
| Directory.Register | app.py:964-979 | only an accepted form (submitted, name, farm name, location all non-empty) adds `farmer_` + zero-padded (count+1) holding the form's fields with verified false; every other entry is unchanged |
| Directory.IdsUpToExcludesLater | app.py:965 | no id beyond the n-th is among the first n |
| Directory.RegisterKeepsNumberingDense | app.py:964-979 | in a directory numbered `farmer_001`..count the new id is fresh, the directory grows by one and stays densely numbered |
| Directory.StubDirectoryNextId | app.py:113-117 | the stub directory is densely numbered and the next registration is `farmer_003` |
| Directory.ByLocation | app.py:1010-1011 | "All" keeps every farmer; otherwise exactly the farmers at that location, entries unchanged |
| Directory.ByFarmType | app.py:1013-1014 | "All" keeps every farmer; otherwise exactly the farms of that type, entries unchanged |
| Directory.BySearch | app.py:1016-1023 | an empty term keeps every farmer; otherwise exactly those whose name, farm name or some specialization, lower-cased, contains the lower-cased term, entries unchanged |
| Directory.FilterDirectory | app.py:1008-1023 | the three stages in page order; the listing never adds a key or alters an entry |
| Directory.FilterIsSubset | app.py:1008-1023 | the listing is a sub-directory of the directory |
| Directory.FilterIff | app.py:1008-1023 | a farmer is listed exactly when it matches the location (unless "All"), the farm type (unless "All") and, for a non-empty term, contains the lower-cased term in name, farm name or a specialization |
| Directory.NoFilterListsAll | app.py:1008-1023 | "All"/"All"/"" lists the whole directory |
| Directory.SearchIgnoresCase | app.py:1016-1017 | lower-casing the term first does not change the listing |
| Directory.NameSearchFinds | app.py:1016-1020 | a term found in a farmer's lower-cased name lists that farmer |
| Text.Lower | app.py:1017-1022 | lower-casing keeps the length and maps each character |
| Text.LowerIdempotent | app.py:1017-1022 | lower-casing twice is lower-casing once |
| Text.Contains | app.py:1020-1022 | a hit needs the needle no longer than the string; a prefix is a hit; a hit of a non-empty needle means its first character occurs in the string |
| Text.ContainsIff | app.py:1020-1022 | the substring test holds exactly when the needle occurs at some index |
| Text.AbsentFirstChar | app_demo.py:519-526 | a needle whose first character is absent does not occur |
| Text.ContainsEmpty | app.py:1020-1022 | the empty string occurs everywhere |
| Text.Digits | app.py:965 | the decimal form has at least one digit and only digits |
| Text.Zeros | app.py:965 | k zero characters |
| Text.ZeroPad | app.py:965 | at least `width` characters, all digits |
| Text.DigitValue | app.py:965 | a digit's value reproduces that digit |
| Text.ParseDigits | app.py:965 | the decimal form reads back as the number |
| Text.ParseZeros | app.py:965 | a run of zeros reads as 0 |
| Text.ParseLeadingZeros | app.py:965 | leading zeros do not change the value read |
| Text.ZeroPadRoundTrip | app.py:965 | the padded form reads back as the number |
| Text.ZeroPadInjective | app.py:965 | different numbers pad to different strings |
| Text.Pow10 | app_demo.py:1646 | powers of ten are positive |
| Text.DigitsLength | app_demo.py:1646 | a number below 10^k has at most k digits |
| Text.ZeroPadExactWidth | app_demo.py:1646 | a number below 10^width pads to exactly `width` characters |
| Admin.AdminSession.New | app.py:92-93 | a session starts logged out |
| Admin.AdminSession.Login | app_demo.py:1597-1607 | the new flag is `AfterLogin` of the old flag and the password (same as app.py:1064-1074) |
| Admin.AfterLogin | app_demo.py:1597-1604 | a logged-in session stays logged in; from logged out exactly "admin123" logs in, any other password leaves the flag false |
| Admin.AdminSession.Logout | app_demo.py:1652-1654 | the flag is false afterwards (same as app.py:1265-1266) |
| Admin.LoggedInIffSomeAttemptCorrect | app.py:1064-1074 | after a run of login attempts the session is logged in exactly when it was or some attempt used "admin123" |
| DemoRisk.HygieneAdjustment | app_demo.py:519-522 | -10 exactly when the answer mentions "Advanced", else +15 exactly when it mentions "Poor", else 0 |
| DemoRisk.VaccinationAdjustment | app_demo.py:524-527 | -8 exactly when the answer mentions "Comprehensive", else +12 exactly when it mentions "Irregular", else 0 |
| DemoRisk.MockRiskScore | app_demo.py:516-527 | the step-by-step score equals 45 plus both adjustments and lies in [27, 72] |
| DemoRisk.MockScoreBounds | app_demo.py:516-527 | every mock score lies in [27, 72] |
| DemoRisk.RiskBand | app_demo.py:530-541 | Low exactly up to 30, Medium exactly in (30, 60], High exactly above 60, with colours #4CAF50, #FF9800, #F44336 |
| DemoRisk.RiskBandMonotone | app_demo.py:530-541 | a higher score never gets a lower band |
| DemoRisk.LowIffBestSelections | app_demo.py:516-541 | the band is Low exactly when hygiene mentions "Advanced" and vaccination "Comprehensive" |
| DemoRisk.HighIffWorstSelections | app_demo.py:516-541 | the band is High exactly when hygiene takes the "Poor" branch and vaccination the "Irregular" branch |
| DemoRisk.OneGoodSelectionIsMedium | app_demo.py:400-410 | advanced hygiene with standard vaccination scores 35, a Medium band |
| DemoRisk.Prioritise | app_demo.py:566-586 | the first min(4, n) recommendations, the i-th labelled priority i+1 |
| DemoDashboard.RegionRiskColour | app_demo.py:867 | green exactly below 30, orange exactly in [30, 35), red from 35 |
| DemoDashboard.RegionScoreColour | app_demo.py:983 | green exactly above 90, orange exactly in (85, 90], red up to 85 |
| DemoDashboard.RegionRiskColourMonotone | app_demo.py:867 | a higher risk score is never calmer in colour |
| DemoDashboard.RegionScoreColourAntitone | app_demo.py:983 | a higher average score is never more alarming in colour |
| DemoDashboard.RegionAndBandDisagreeAt30 | app_demo.py:530-541 | a score of 30 is a green Low band but an orange region (compare line 867) |
| DemoDashboard.LastPressed | app_demo.py:115-123 | the index of the last pressed button, or -1 exactly when none was pressed |
| DemoDashboard.PickPage | app_demo.py:115-127 | "Home" when no button was pressed, otherwise the last pressed button's page |
| DemoDashboard.RouteIn | app_demo.py:1662-1683 | the first entry named `name` decides the page; a name no entry has goes to Home |
| DemoDashboard.RouteNamesDistinct | app_demo.py:1662-1681 | the ten names `main` tests are pairwise different |
| DemoDashboard.Route | app_demo.py:1658-1683 | every name `main` tests reaches that branch's page; any other name reaches the home page |
| DemoDashboard.UnroutedNameIsHome | app_demo.py:1682-1683 | any name `main` does not test falls through to the home page |
| DemoDashboard.AnalyticsButtonShowsHome | app_demo.py:111 | the sidebar's "Analytics" is routed to the home page (only "Analytics Dashboard" is tested at line 1666) |
| DemoDashboard.OtherButtonsRouted | app_demo.py:1662-1669 | "Home", "Risk Assessment" and "Protection Hub" reach their own pages |
| DemoDashboard.DateStamp | app_demo.py:1646 | `%Y%m%d` is eight digits |
| DemoDashboard.DateStampRoundTrip | app_demo.py:1646 | the stamp's three fields read back as year, month and day |
| DemoDashboard.ReplaceSpaces | app_demo.py:1646 | each space becomes `_`, everything else is kept |
| DemoDashboard.ExportFileName | app_demo.py:1646 | the selection lower-cased with spaces as `_`, then `_`, the date stamp and ".csv"; length n+13 |
| DemoDashboard.ExportFileNameShape | app_demo.py:1646 | length n+13, no spaces and no A-Z, `_` after the selection, then the date stamp, then ".csv" |
| DemoDashboard.ExportFileNameRecordsDate | app_demo.py:1646 | year, month and day can be read back from the file name |
| DemoDashboard.RiskAssessmentExportName | app_demo.py:1630-1646 | "Risk Assessment Data" exported on 2025-09-01 is `risk_assessment_data_20250901.csv` |

## Left out

- Streamlit widgets, layout, HTML/CSS, charts and `st.rerun`: presentation only. Button presses, form fields, the chosen language and the chosen farm or user become parameters.
- `load_data`/`save_data`, file uploads and CSV downloads: I/O. `save_data` does nothing and `load_data` always returns the same stub data, so nothing persists between reruns. The model follows one record through the page's updates.
- The upload handler builds its path from `UPLOADS_DIR` (app.py:530), which `app.py` never defines. `Compliance.ComplianceRecord.Upload` models the record update as if the file write had succeeded.
- The stub store's compliance records have no `documents` key, and its training records have no `modules_completed` key. The source would raise `KeyError` on them. The model starts from the record the page creates for an unknown farm or user (app.py:331-336, 465-470).
- Timestamps (`last_updated`, `upload_date`, `registration_date`) come from the clock and are not modelled. The export date is a parameter, as `DemoDashboard.Date`.
- Uploaded documents are kept only as their file name; the upload date and file path are dropped.
- Directory.FilterDirectory: the listing is a `map`, so the display order is not modelled. The source lists the kept farmers in dictionary insertion order, which is registration order (app.py:1028).
- Training.CompletionRate: computed in exact `real` arithmetic, not IEEE floating point, so rounding is not modelled.
- Text.Lower: ASCII-only stand-in for Python's full Unicode `str.lower`. Only 'A'-'Z' change.
- DemoDashboard.DateStamp: requires a year from 1000 to 9999. How `strftime('%Y')` pads earlier years depends on the platform.
- Compliance.ComplianceRecord.Upload: requires the title to be a checklist title, which the selectbox guarantees. A title outside the list would make `next` raise StopIteration.
- Compliance statuses are a datatype. The source stores strings, and the stub's checklists only use the three modelled values.
- The main portal's own `create_sidebar`/`main` navigation, the alerts, monitoring and home pages, and the system-analytics and summary-report percentages and averages are not modelled. They are presentation or float averages.
- The demo dashboard's random series (`np.random`, `np.sin`), the `time.sleep` progress animation and its fixed metric values are nondeterministic or constant display, and are not modelled.
- The demo's `analytics_page` function is unreachable from `main` and is not modelled.
- The app.py risk-assessment page shows a fixed demo result (app.py:241-245). It does not call `calculate_risk_score`, and that page text is not modelled.
