# Carbon logistics dashboard: the calculations behind seven panels

This project models the computational core of a carbon-emissions dashboard for
freight logistics, a React application backed by a hosted database. Each panel
holds a small piece of logic. The model states each piece exactly and proves
what it promises.

- **Scenario simulator** (`scenario_simulator.dfy`): `calculateImpacts`
  derives three base quantities (carbon, cost, time) from distance and weight.
  Three modifier tables then scale them by route, freight and supplier rating,
  and an unknown key scales by 1. Two threshold classifiers give each impact
  its colour and trend icon. The component state (scenario list, form, the
  `loading` and `showCreateForm` flags) is the class `Simulator`.
- **Emission calculator** (`emission_calculator.dfy`): the calculator guards
  its inputs and looks up the mode and fuel factors. It then computes the
  emissions, a fixed 65% "optimized" figure and the savings percentage, and
  stores them as the component's result. The disabled-button condition and
  the reset are modelled as well.
- **Password strength meter** (`password_strength.dfy`): an additive score over
  five checks plus a length bonus, the feedback messages of the failed checks,
  and a four-way grade. The method `Strength` follows the component
  step by step (`score +=`, `feedback.push`, the grade reassigned through an
  if-chain). It is proved equal to the declarative `StrengthOf`, which runs
  over the list of checks.
- **Offset marketplace** (`offset_marketplace.dfy`): three optional filters
  (type, certification, price range) applied one after the other. The price
  range `"min-max"` or `"min"` is parsed with `split` and `Number`. The tons
  badge is a sum. The sample offers stay unless the backend returns rows. The
  class `Marketplace` keeps the shown list equal to the one-pass filter of the
  offers, which is the effect that re-applies the filters after every change.
- **Supplier scoring** (`supplier_scoring.dfy`): the score colour and badge
  bands, and the verified count, the two rounded averages and the certification
  total over the supplier list.
- **Audit reports** (`audit_reports.dfy`):
  - the mock report generator, with its two random draws as parameters, and
    its breakdown shares;
  - the CSV the download produces (rows joined with "," and lines with "\n");
  - the download file name, whose whitespace runs become "_";
  - the report-type badge;
  - the panel state.
- **API integrations** (`api_integrations.dfy`): the by-id list updates that
  enable, disable or sync an integration, the type-to-icon and type-to-colour
  lookups with their defaults, and the panel state.

Shared modules:

- `seqs.dfy` models `filter`, `reduce` sums and subsequences.
- `text.dfy` models `join`, `split` on one character, and the `\s` class.
- `js_numbers.dfy` models `parseFloat`, `Number`, truthiness, `x || 0`,
  `Math.round` and integer `toString`, over decimal strings. A JavaScript
  number is `Num`, either a finite `real` or `NaN`.
- `backend.dfy` holds the outcome of a backend call (signed in or not, write
  succeeded or failed, rows read or a failed read).
- `wrappers.dfy` holds `Option`.

Arithmetic is over `real`. Claims such as "the saving is exactly 35%" hold
for real numbers, not for IEEE doubles.

## Model

| member | source | states |
|---|---|---|
| ScenarioSimulator.LookupPositive | src/components/ScenarioSimulator.tsx:69-94 | every modifier in the three tables, and the neutral default for a missing key, is positive in all three components |
| ScenarioSimulator.EstimateNonNegative | src/components/ScenarioSimulator.tsx:59-101 | with non-negative distance and weight, carbon, cost and time are all non-negative whatever the three keys |
| ScenarioSimulator.UnknownKeysGiveBase | src/components/ScenarioSimulator.tsx:92-100 | keys no table knows leave the three base quantities unscaled |
| ScenarioSimulator.EmptyFormIsZero | src/components/ScenarioSimulator.tsx:59-101 | the initial empty form estimates all three impacts as exactly 0 |
| ScenarioSimulator.TimeIgnoresWeight | src/components/ScenarioSimulator.tsx:64-100 | the time impact is the same for any two weights |
| ScenarioSimulator.CarbonZeroWithoutLoad | src/components/ScenarioSimulator.tsx:64-100 | a zero distance or a zero weight gives zero carbon |
| ScenarioSimulator.CostWithoutWeight | src/components/ScenarioSimulator.tsx:64-100 | with zero weight the cost is the distance term alone, scaled by the three cost modifiers |
| ScenarioSimulator.UnparsableFieldIsZero | src/components/ScenarioSimulator.tsx:60-61 | a distance or weight field with no digit counts as 0 (`parseFloat` gives NaN, which the fallback replaces by 0) |
| ScenarioSimulator.WorkedExample | src/components/ScenarioSimulator.tsx:59-101 | the form with distance "1000", weight "10" and optimized/rail/good estimates carbon 252, cost 361.44 and time 25.5 |
| ScenarioSimulator.EstimateWorkedExample | src/components/ScenarioSimulator.tsx:64-100 | the same figures from the numbers 1000 and 10 |
| ScenarioSimulator.IconAgreesWithColor | src/components/ScenarioSimulator.tsx:162-172 | the icon is the downward trend exactly when the colour is the success colour, for each kind of impact |
| ScenarioSimulator.ColorMonotone | src/components/ScenarioSimulator.tsx:162-167 | a larger impact never gets a better colour |
| ScenarioSimulator.InsertFor | src/components/ScenarioSimulator.tsx:113-131 | the inserted row carries the user id, the raw form strings and exactly the three impacts `calculateImpacts` gives for the form |
| ScenarioSimulator.Simulator.constructor | src/components/ScenarioSimulator.tsx:24-35 | no scenarios, the form closed, not loading, every form field empty |
| ScenarioSimulator.Simulator.FetchScenarios | src/components/ScenarioSimulator.tsx:41-57 | the rows read replace the list; a failed read keeps it |
| ScenarioSimulator.Simulator.HandleSubmit | src/components/ScenarioSimulator.tsx:103-160 | `loading` ends false; the row is inserted only for a signed-in user and is `InsertFor` of the old form; a successful insert empties the form and closes it, any failure keeps both |
| EmissionCalculator.Find | src/components/EmissionCalculator.tsx:57-58 | `find` gives None exactly when no entry has the value, else an entry of the list with that value |
| EmissionCalculator.FoundFactorPositive | src/components/EmissionCalculator.tsx:35-47 | every factor `find` can return from either table is positive |
| EmissionCalculator.FiguresFixedSaving | src/components/EmissionCalculator.tsx:63-69 | the optimized figure is 0.65 times the emissions, no larger when the emissions are not negative, and the saving is exactly 35 |
| EmissionCalculator.EvaluateDefinedWhen | src/components/EmissionCalculator.tsx:49-60 | a result is produced exactly when distance and weight are truthy numbers and both selections name a listed entry |
| EmissionCalculator.EvaluateFigures | src/components/EmissionCalculator.tsx:49-76 | a produced result is distance × weight × mode factor × fuel factor, is non-zero, keeps 65% as optimized and saves exactly 35 |
| EmissionCalculator.EvaluateIsShipment | src/components/EmissionCalculator.tsx:57-63 | past the guards, the result is the shipment figures for the two found factors, both positive |
| EmissionCalculator.ShipmentFigures | src/components/EmissionCalculator.tsx:63-69 | the shipment's emissions are the product of the four inputs, non-zero, with the fixed 65% optimized figure and 35 saving |
| EmissionCalculator.EvaluateWorkedExample | src/components/EmissionCalculator.tsx:49-76 | 2500 km and 25 t by diesel truck give 14625 kg, 9506.25 kg optimized and a 35% saving |
| EmissionCalculator.ComputableIsEnabled | src/components/EmissionCalculator.tsx:202 | whenever a result can be computed, the calculate button is enabled |
| EmissionCalculator.EnabledButNotComputable | src/components/EmissionCalculator.tsx:202 | the button only tests emptiness: distance "abc" leaves it enabled, yet pressing it computes nothing |
| EmissionCalculator.NoNumberNoResult | src/components/EmissionCalculator.tsx:50-55 | a distance `parseFloat` reads as NaN gives no result |
| EmissionCalculator.Calculator.constructor | src/components/EmissionCalculator.tsx:20-33 | every form field empty and no result |
| EmissionCalculator.Calculator.CalculateEmissions | src/components/EmissionCalculator.tsx:49-76 | the form is never written; the result becomes the evaluated one, or the previous result is kept when a guard returns early |
| EmissionCalculator.Calculator.ResetCalculator | src/components/EmissionCalculator.tsx:78-88 | every form field back to "" and no result |
| PasswordStrength.SpecialNotAlphanumeric | src/components/PasswordStrength.tsx:55 | no letter or digit is a special character |
| PasswordStrength.SpecialLeavesOut | src/components/PasswordStrength.tsx:55 | the special class has twenty characters and excludes the space, '-', '_', '~' and the apostrophe |
| PasswordStrength.Strength | src/components/PasswordStrength.tsx:18-84 | the step-by-step computation (accumulated score, pushed feedback, reassigned grade) equals `StrengthOf`, the meter stated over the list of checks |
| PasswordStrength.GradeFor | src/components/PasswordStrength.tsx:69-81 | the default-then-overwrite if-chain gives the bar colour and word of the score's band |
| PasswordStrength.EarnedWrittenOut | src/components/PasswordStrength.tsx:27-59 | the points summed over the list of checks are the five checks' points written out |
| PasswordStrength.FeedbackWrittenOut | src/components/PasswordStrength.tsx:27-59 | the messages of the failed checks, in list order, are the five conditional pushes written out |
| PasswordStrength.StrengthWrittenOut | src/components/PasswordStrength.tsx:23-83 | for a non-empty password, the score is the capped sum of the check points and the length bonus, and the feedback, colour and word follow |
| PasswordStrength.EmptyPassword | src/components/PasswordStrength.tsx:19-21 | an empty password gives score 0, no feedback, "bg-muted" and "Enter password" |
| PasswordStrength.ScoreRange | src/components/PasswordStrength.tsx:23-83 | the raw score is at most 100 and a multiple of 5, so the cap at 100 never changes it |
| PasswordStrength.FeedbackIsFailedChecks | src/components/PasswordStrength.tsx:26-59 | one message per failed check: a check's message is present exactly when the check fails, in the checks' order, and the bonus adds none |
| PasswordStrength.MessageIn | src/components/PasswordStrength.tsx:26-59 | distinct checks have distinct messages, so a message is listed exactly when its check is |
| PasswordStrength.MessagesSubsequence | src/components/PasswordStrength.tsx:26-59 | the messages of an order-preserving selection of checks keep that order |
| PasswordStrength.BandThresholds | src/components/PasswordStrength.tsx:72-81 | Strong from 80, Fair from 60, Moderate from 40, Weak below, each as an if-and-only-if |
| PasswordStrength.TextColorMatchesBar | src/components/PasswordStrength.tsx:92-96 | the word's colour, chosen from the capped score, names the same band as the bar's colour, chosen from the raw score |
| PasswordStrength.SameHue | src/components/PasswordStrength.tsx:92-96 | for every grade, the word's colour is "text-" and the bar's colour "bg-" before one and the same theme colour |
| PasswordStrength.NoFeedbackIsStrong | src/components/PasswordStrength.tsx:23-81 | a password with no feedback scores at least 85 and is "Strong" |
| PasswordStrength.StrongestPasswords | src/components/PasswordStrength.tsx:27-83 | 12 characters or more with all four character classes score 100, "Strong", with no feedback |
| PasswordStrength.OccursAppend | src/components/PasswordStrength.tsx:34-55 | a character class found in a password is still found once text is appended |
| PasswordStrength.ChecksKept | src/components/PasswordStrength.tsx:27-55 | appending text never fails a check that passed |
| PasswordStrength.AppendNeverWeakens | src/components/PasswordStrength.tsx:27-66 | appending text never lowers the score and never fails a passed check |
| OffsetMarketplace.ParsePriceRange | src/components/CarbonOffsetMarketplace.tsx:151 | the range has a maximum exactly when it contains "-" |
| OffsetMarketplace.SplitPieces | src/components/CarbonOffsetMarketplace.tsx:151 | splitting on "-" yields two pieces or more exactly when the string contains "-" |
| OffsetMarketplace.FilteredIsSubsequence | src/components/CarbonOffsetMarketplace.tsx:139-162 | the shown list is an order-preserving subsequence of the offers |
| OffsetMarketplace.FilteredExactly | src/components/CarbonOffsetMarketplace.tsx:139-162 | an offer is shown as often as it is listed when it matches all set filters, and never otherwise |
| OffsetMarketplace.ShownOffersMatch | src/components/CarbonOffsetMarketplace.tsx:142-158 | every shown offer is listed, has the selected type and certification when set, and is in the selected price range |
| OffsetMarketplace.NoFiltersShowAll | src/components/CarbonOffsetMarketplace.tsx:142-150 | with all three filters empty the shown list is the offers themselves |
| OffsetMarketplace.PriceBetween | src/components/CarbonOffsetMarketplace.tsx:150-158 | a range "a-b" of digit strings with b not zero keeps exactly the prices from a to b inclusive |
| OffsetMarketplace.BothBounds | src/components/CarbonOffsetMarketplace.tsx:152-157 | finite bounds with a truthy maximum keep exactly the prices between them |
| OffsetMarketplace.PriceZeroMaximum | src/components/CarbonOffsetMarketplace.tsx:150-158 | a range "a-0" has a falsy maximum and keeps every price from a up |
| OffsetMarketplace.RangeParts | src/components/CarbonOffsetMarketplace.tsx:151 | "a-b" of digit strings parses to the two digit values |
| OffsetMarketplace.PriceFrom | src/components/CarbonOffsetMarketplace.tsx:150-158 | a single value "a" parses with no maximum and keeps every price from a up |
| OffsetMarketplace.OfferedRanges | src/components/CarbonOffsetMarketplace.tsx:150-158 | the offered "0-20" keeps prices in [0, 20] and "100" keeps prices of 100 and more |
| OffsetMarketplace.FilteredTonsAtMost | src/components/CarbonOffsetMarketplace.tsx:187 | with non-negative tons, filtering never raises the tons badge |
| OffsetMarketplace.SampleTons | src/components/CarbonOffsetMarketplace.tsx:46-98 | the five sample offers hold 4850 tons |
| OffsetMarketplace.Marketplace.constructor | src/components/CarbonOffsetMarketplace.tsx:24-31 | no offers, nothing shown, loading, no filter set |
| OffsetMarketplace.Marketplace.ApplyFilters | src/components/CarbonOffsetMarketplace.tsx:139-162 | narrowing a copy by each set filter in turn gives the one-pass filter by all three |
| OffsetMarketplace.Marketplace.FetchOffsets | src/components/CarbonOffsetMarketplace.tsx:111-136 | the rows replace the offers only when the read succeeded with at least one row; the shown list is re-filtered |
| OffsetMarketplace.Marketplace.InitializeData | src/components/CarbonOffsetMarketplace.tsx:42-109 | loading ends false and the offers are the backend rows if any were read, else the samples |
| OffsetMarketplace.Marketplace.SetFilters | src/components/CarbonOffsetMarketplace.tsx:38-40 | new filters are stored and the shown list is re-filtered |
| OffsetMarketplace.Marketplace.ClearFilters | src/components/CarbonOffsetMarketplace.tsx:213 | clearing the filters shows every offer again and keeps the shown list equal to the filtered offers |
| OffsetMarketplace.Marketplace.TonsAvailable | src/components/CarbonOffsetMarketplace.tsx:187 | the badge is the sum of tons over the offers passing the current filters |
| SupplierScoring.ScoreColorBands | src/components/SupplierScoring.tsx:64-68 | success from 90, warning from 80, destructive below, each as an if-and-only-if |
| SupplierScoring.BadgeAgreesWithColor | src/components/SupplierScoring.tsx:64-74 | default ⇔ success, secondary ⇔ warning, outline ⇔ destructive |
| SupplierScoring.VerifiedCountBound | src/components/SupplierScoring.tsx:92 | the verified count is at most the number of suppliers, and equal exactly when all are verified |
| SupplierScoring.RoundedAverageBetween | src/components/SupplierScoring.tsx:98-105 | the rounded average of scores in [lo, hi] is in [lo, hi]; only an empty list has none |
| SupplierScoring.RoundedAverageWithinScores | src/components/SupplierScoring.tsx:98-105 | the rounded average lies between the lowest and the highest score |
| SupplierScoring.MinScore | src/components/SupplierScoring.tsx:98-105 | a score of the list that no score is below |
| SupplierScoring.MaxScore | src/components/SupplierScoring.tsx:98-105 | a score of the list that no score exceeds |
| SupplierScoring.CertificationTotalAppend | src/components/SupplierScoring.tsx:112 | the certification total over two lists is the sum of their totals |
| SupplierScoring.Overview | src/components/SupplierScoring.tsx:17-112 | the listed suppliers show 3 verified, average carbon 88, average reliability 91 (90.5 rounded up) and 6 certifications |
| AuditReports.MockFigures | src/components/AuditReports.tsx:56-70 | 100 to 1099 shipments; the per-shipment average is r2·2+0.5, in [0.5, 2.5), and equals the carbon intensity; the summary repeats the totals |
| AuditReports.EmissionSharesSum | src/components/AuditReports.tsx:71-83 | the transport-mode shares and the distance-band shares each sum to the total emissions |
| AuditReports.ShipmentSharesSum | src/components/AuditReports.tsx:71-83 | the rounded-down shipment counts of each breakdown sum to at most the total and lose at most 3 |
| AuditReports.MockBreakdowns | src/components/AuditReports.tsx:56-93 | the generated report's breakdowns satisfy both sums against its own totals |
| AuditReports.AverageKgMeaning | src/components/AuditReports.tsx:150 | the average column is defined exactly when there are shipments, and then times the shipments gives the emissions in kg |
| AuditReports.JoinRows | src/components/AuditReports.tsx:153 | one line per row, each the row joined with "," |
| AuditReports.IntToStringSingleLine | src/components/AuditReports.tsx:148 | an integer's text holds no comma and no line break |
| AuditReports.CsvLayout | src/components/AuditReports.tsx:144-153 | with single-line fields the file splits back into its 8 lines, caption and value joined by a comma, the seventh empty |
| AuditReports.CsvShipmentsRoundTrip | src/components/AuditReports.tsx:144-153 | the fourth line splits into "Total Shipments" and the count's text, which `Number` reads back as the count |
| AuditReports.ReplaceRunsNoneLeft | src/components/AuditReports.tsx:159 | the run replacement leaves no whitespace and never lengthens the name |
| AuditReports.ReplaceRunsIdentity | src/components/AuditReports.tsx:159 | a name without whitespace is kept as it is |
| AuditReports.ReplaceRunsOneRun | src/components/AuditReports.tsx:159 | one whole run of whitespace becomes a single "_" (or nothing, when it continues a run) |
| AuditReports.ReplaceRunsConcat | src/components/AuditReports.tsx:159 | the rewrite of a concatenation is the rewrite of each part, the second continuing the first's run state |
| AuditReports.DownloadNameShape | src/components/AuditReports.tsx:159 | the file name has no whitespace and ends in "_audit_report.csv"; a name without whitespace is kept before the suffix |
| AuditReports.DownloadNameTwoWords | src/components/AuditReports.tsx:159 | two words around any whitespace run give the words joined by one "_" and the suffix |
| AuditReports.TwoWords | src/components/AuditReports.tsx:159 | the same, for any character class, before the suffix |
| AuditReports.BadgeDefault | src/components/AuditReports.tsx:171-179 | the badge is gray exactly for types other than annual, quarterly, monthly and scope3; the offered "compliance" is gray |
| AuditReports.BadgesDistinct | src/components/AuditReports.tsx:171-179 | the four coloured types have four different colours |
| AuditReports.InsertCarriesForm | src/components/AuditReports.tsx:103-114 | the inserted row carries the form's four fields and the user id, and its totals agree with the generated summary |
| AuditReports.ReportsPanel.constructor | src/components/AuditReports.tsx:24-31 | no reports, the form closed, not loading, every form field empty |
| AuditReports.ReportsPanel.FetchReports | src/components/AuditReports.tsx:38-54 | the rows read replace the list; a failed read keeps it |
| AuditReports.ReportsPanel.HandleSubmit | src/components/AuditReports.tsx:95-140 | `loading` ends false; a signed-in user's submit inserts the form with the generated report; success empties and closes the form, any failure keeps both |
| ApiIntegrations.SetActiveChangesOnlyMatches | src/components/APIIntegrations.tsx:109-115 | toggling keeps length and order; records with the id get the new flag and keep every other field; other records are unchanged |
| ApiIntegrations.SetLastSyncChangesOnlyMatches | src/components/APIIntegrations.tsx:142-148 | syncing keeps length and order; records with the id get the sync time and keep every other field; other records are unchanged |
| ApiIntegrations.UpdatesKeepOtherFields | src/components/APIIntegrations.tsx:109-148 | toggling never touches a sync time and syncing never touches a flag; no id changes |
| ApiIntegrations.SetActiveLastWins | src/components/APIIntegrations.tsx:109-115 | two toggles of the same id equal the last one alone |
| ApiIntegrations.SetActiveUnchanged | src/components/APIIntegrations.tsx:109-115 | toggling to the flag the id's records already have changes nothing |
| ApiIntegrations.UpdatesCommute | src/components/APIIntegrations.tsx:109-148 | a sync and a toggle give the same list in either order |
| ApiIntegrations.ToggleGovernsSync | src/components/APIIntegrations.tsx:109-115 | after a toggle, the id's records can be synced exactly when the new flag is true |
| ApiIntegrations.IconAndColorDefaults | src/components/APIIntegrations.tsx:163-179 | the plug icon goes exactly to types other than tms, erp and gps, exactly those get gray, and the offered "wms" and "other" get the plug |
| ApiIntegrations.IconsAndColorsDistinct | src/components/APIIntegrations.tsx:163-179 | tms, erp and gps have three different icons and three different colours |
| ApiIntegrations.IntegrationsPanel.constructor | src/components/APIIntegrations.tsx:24-31 | no integrations, the form closed, not loading, every form field empty |
| ApiIntegrations.IntegrationsPanel.FetchIntegrations | src/components/APIIntegrations.tsx:38-54 | the rows read replace the list; a failed read keeps it |
| ApiIntegrations.IntegrationsPanel.HandleSubmit | src/components/APIIntegrations.tsx:56-98 | a row is inserted exactly when the user is signed in and the key encodes; it carries the form, the encoded key and `is_active` true; success empties all four fields and closes the form, any failure keeps both |
| ApiIntegrations.IntegrationsPanel.ToggleIntegration | src/components/APIIntegrations.tsx:100-128 | after an accepted update the list is `SetActive` of the old list; on an error it is kept |
| ApiIntegrations.IntegrationsPanel.SyncIntegration | src/components/APIIntegrations.tsx:130-161 | after an accepted update the list is `SetLastSync` of the old list at the sync time; on an error it is kept |
| Seqs.Filter | src/components/CarbonOffsetMarketplace.tsx:143 | `filter` never lengthens and keeps only elements of the list that pass |
| Seqs.FilterIsSubsequence | src/components/CarbonOffsetMarketplace.tsx:143 | `filter` keeps the order of what it keeps |
| Seqs.FilterMultiplicity | src/components/CarbonOffsetMarketplace.tsx:143 | a passing value is kept as often as it occurs, a failing one never |
| Seqs.FilterAll | src/components/CarbonOffsetMarketplace.tsx:140-148 | a predicate true of every element keeps the whole list |
| Seqs.FilterKeepsAll | src/components/SupplierScoring.tsx:92 | the filter keeps every element exactly when all pass |
| Seqs.FilterSame | src/components/CarbonOffsetMarketplace.tsx:142-148 | predicates that agree everywhere filter alike |
| Seqs.FilterFilter | src/components/CarbonOffsetMarketplace.tsx:142-158 | filtering twice is filtering once by the conjunction |
| Seqs.SumFilterAtMost | src/components/CarbonOffsetMarketplace.tsx:187 | dropping non-negative terms never raises a sum |
| Seqs.SumIntBetween | src/components/SupplierScoring.tsx:98 | terms in [lo, hi] sum to between count·lo and count·hi |
| Seqs.SumIntAppend | src/components/SupplierScoring.tsx:112 | the sum over a concatenation is the sum of the two sums |
| Text.Split | src/components/CarbonOffsetMarketplace.tsx:151 | `split` always yields at least one piece |
| Text.SplitWithoutSeparator | src/components/CarbonOffsetMarketplace.tsx:151 | splitting on an absent separator yields the string itself |
| Text.SplitAfterPrefix | src/components/CarbonOffsetMarketplace.tsx:151 | a separator-free prefix joins the first piece of what follows |
| Text.SplitJoin | src/components/AuditReports.tsx:153 | `split` undoes `join` when no piece holds the separator |
| Text.JoinSplit | src/components/AuditReports.tsx:153 | `join` undoes `split` |
| Text.SplitPiecesFree | src/components/CarbonOffsetMarketplace.tsx:151 | no piece of a split contains the separator |
| JsNumbers.FractionValue | src/components/ScenarioSimulator.tsx:60-61 | the digits after a decimal point are worth less than 1 and not negative |
| JsNumbers.DigitsValueFront | src/components/ScenarioSimulator.tsx:60-61 | read from the front, a digit string's first digit is worth its place value, ten to the number of digits after it |
| JsNumbers.FractionScaled | src/components/ScenarioSimulator.tsx:60-61 | n fraction digits are worth exactly their integer value over ten to the n, so ".25" is 25/100 |
| JsNumbers.DigitRun | src/components/ScenarioSimulator.tsx:60-61 | the run counted from a position is all digits and is ended by the string's end or a non-digit |
| JsNumbers.DigitRunStop | src/components/ScenarioSimulator.tsx:60-61 | a digit run ended by the string's end or a non-digit is exactly what the count finds |
| JsNumbers.RunOf | src/components/ScenarioSimulator.tsx:60-61 | a digit string placed at a position and followed by no digit is the run counted there |
| JsNumbers.TrimStartSuffix | src/components/CarbonOffsetMarketplace.tsx:151 | trimming the start leaves a suffix that starts with no whitespace, and every character removed was whitespace |
| JsNumbers.TrimEndPrefix | src/components/CarbonOffsetMarketplace.tsx:151 | trimming the end leaves a prefix that ends with no whitespace, and every character removed was whitespace |
| JsNumbers.LexAt | src/components/ScenarioSimulator.tsx:60-61 | a numeral found has digit-only whole and fraction parts, at least one digit, and fits in what is left of the string |
| JsNumbers.Magnitude | src/components/ScenarioSimulator.tsx:60-61 | the fraction adds less than 1 to the whole part's value |
| JsNumbers.ScanDecimal | src/components/ScenarioSimulator.tsx:60-61 | a numeral found covers at least one and at most all characters |
| JsNumbers.ScanFromLexeme | src/components/ScenarioSimulator.tsx:60-61 | after a sign the scan gives the numeral found there, negated exactly when the sign is '-', and its length with the sign |
| JsNumbers.LexPointed | src/components/ScenarioSimulator.tsx:60-61 | digits, a point and digits followed by no digit are read as that whole part and that fraction |
| JsNumbers.LexWhole | src/components/ScenarioSimulator.tsx:60-61 | digits followed by neither a digit nor a point are read as a whole part with no fraction |
| JsNumbers.ScanPointed | src/components/ScenarioSimulator.tsx:60-61 | sign, digits, ".", digits, then a non-digit: the scan stops after the fraction and gives the signed whole value plus the fraction value |
| JsNumbers.ScanWhole | src/components/ScenarioSimulator.tsx:60-61 | sign and digits followed by neither a digit nor a point: the scan gives the signed value of the digits and stops after them |
| JsNumbers.ParseWithUnit | src/components/ScenarioSimulator.tsx:60-61 | `parseFloat("12.5kg")` is 12.5 while `Number("12.5kg")` is NaN |
| JsNumbers.ParseNegative | src/components/ScenarioSimulator.tsx:60-61 | `parseFloat("-3 t")` is -3 |
| JsNumbers.DigitChar | src/components/AuditReports.tsx:148 | the digit character whose code is '0' plus the value |
| JsNumbers.NatToString | src/components/AuditReports.tsx:148 | `toString` of a non-negative integer is a non-empty digit string |
| JsNumbers.NatToStringValue | src/components/AuditReports.tsx:148 | the digits `toString` writes have the integer's value |
| JsNumbers.NatToStringRoundTrip | src/components/AuditReports.tsx:148 | `Number` reads back what `toString` writes |
| JsNumbers.DigitsTrim | src/components/CarbonOffsetMarketplace.tsx:151 | trimming a digit string changes nothing |
| JsNumbers.ScanDigits | src/components/ScenarioSimulator.tsx:60-61 | the scan reads a whole digit string as one numeral of its value |
| JsNumbers.DigitsParse | src/components/ScenarioSimulator.tsx:60-61 | `parseFloat` and `Number` read a non-empty digit string as its value |
| JsNumbers.ToNumberEmpty | src/components/CarbonOffsetMarketplace.tsx:151 | `Number("")` is 0 |
| JsNumbers.ScanWithoutDigits | src/components/ScenarioSimulator.tsx:60-61 | a string with no digit holds no numeral |
| JsNumbers.NoDigitIsNaN | src/components/EmissionCalculator.tsx:50-51 | `parseFloat` of a string with no digit is NaN |
| JsNumbers.RoundNear | src/components/SupplierScoring.tsx:98 | `Math.round` lands within half a unit, halves going up |

## Left out

- Backend calls (`select`, `insert`, `update`, `auth.getUser`), toasts and console logging are not modelled as I/O. Their outcome is a parameter: `Session`, `Write` or `Read`.
- The refresh after a successful insert (`fetchScenarios`, `fetchReports`, `fetchIntegrations`) is its own method, `FetchScenarios`, `FetchReports` or `FetchIntegrations`. It is not chained inside `HandleSubmit`. Server-side ordering of the rows read is the backend's, and the model takes the rows as given.
- Async scheduling (`useEffect` timing, re-render order, the 2-second delay in `syncIntegration`) is left out. The marketplace effect that re-applies the filters is folded into each method that changes the offers or the filters.
- Numbers are `real`, not IEEE doubles. Rounding error, overflow to Infinity, `toFixed(1)`, `toFixed(2)`, `toLocaleString` and `Date` formatting are left out. In the CSV, `toFixed(2)` and the locale date are function parameters.
- `parseFloat` and `Number` are modelled on plain decimal numerals only: an optional sign, digits and an optional fraction, after trimming whitespace. Exponents, "Infinity", hexadecimal and binary or octal prefixes are not modelled. A string outside this grammar reads as NaN, or, for `parseFloat`, as its longest numeral prefix.
- `Math.random`, `btoa` and the current time are parameters: the two draws `r1` and `r2` in [0, 1), a partial `btoa` function, and `now`.
- SyncIntegration: the component calls `new Date()` twice, once for the database update and once for the local list. The model uses one time `now` for both.
- The Blob, object URL and anchor click that save the CSV are left out. The model produces the CSV text and the file name only.
- The password length is the number of characters. UTF-16 code units (a surrogate pair counting as two) are not modelled.
- `purchaseOffset` in the marketplace only shows a toast and is left out.
- Lookups that hit inherited object keys such as "constructor" are left out. The modifier tables are maps over their listed keys with the neutral default.
- CsvShipmentsRoundTrip: states the read-back for a non-negative shipment count only. The generator never stores a negative count (100 to 1099).
- CsvRows: the nullable columns `period_start`, `period_end`, `total_shipments` and `total_emissions` (src/integrations/supabase/types.ts:57-63) are always present here. With a null period the component writes "null to null", and with a null total `toString` or `toFixed` throws; neither is modelled.
- CsvRows: with zero shipments the component's division gives Infinity, NaN or -Infinity, and `toFixed(2)` writes "Infinity", "NaN" or "-Infinity". The model writes `fixed2(None)` and does not fix that text.
- CsvLayout: assumes that no field (name, type, period, the two `toFixed` texts, the locale date) contains a line break, because a line break inside a field splits the line.
- The navigation, hero section, index page, educational section, filter controls, offer card, route optimizer and emissions dashboard are markup or fixed constants, and are not part of this model. Nor are the generated database types.
