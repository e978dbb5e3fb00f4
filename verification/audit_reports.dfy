/** The emission audit reports panel: the mock report a submit generates, the
    CSV a download writes and its file name, the badge colour of a report type,
    and the panel's state (the report list and the creation form). */
module AuditReports {
  import opened Wrappers
  import opened Backend
  import opened JsNumbers
  import Seqs
  import Text

  /** A row of the `audit_reports` table as the panel lists it. */
  datatype AuditReport = AuditReport(
    id: string, reportName: string, reportType: string, periodStart: string, periodEnd: string,
    totalEmissions: real, totalShipments: int, generatedAt: string)

  // ---------------------------------------------------------------------------
  // The mock report

  /** One entry of a breakdown: a transport mode or a distance band, with its
      share of the shipments and of the emissions. */
  datatype Share = Share(key: string, shipments: int, emissions: real)

  datatype Summary = Summary(
    totalShipments: int, totalEmissions: real,
    averageEmissionsPerShipment: real, carbonIntensity: real)

  datatype ReportData = ReportData(
    summary: Summary, byTransportMode: seq<Share>, byDistance: seq<Share>,
    recommendations: seq<string>)

  datatype MockReport = MockReport(totalShipments: int, totalEmissions: real, reportData: ReportData)

  /** The breakdown by transport mode: 60/20/15/5 per cent of the shipments
      (rounded down) carry 65/15/12/8 per cent of the emissions. */
  function ByTransportMode(shipments: int, emissions: real): seq<Share>
  {
    [ Share("truck", (shipments as real * 0.6).Floor, emissions * 0.65),
      Share("rail", (shipments as real * 0.2).Floor, emissions * 0.15),
      Share("ship", (shipments as real * 0.15).Floor, emissions * 0.12),
      Share("air", (shipments as real * 0.05).Floor, emissions * 0.08) ]
  }

  /** The breakdown by distance: 30/40/20/10 per cent of the shipments
      (rounded down) carry 15/35/30/20 per cent of the emissions. */
  function ByDistance(shipments: int, emissions: real): seq<Share>
  {
    [ Share("0-100km", (shipments as real * 0.3).Floor, emissions * 0.15),
      Share("100-500km", (shipments as real * 0.4).Floor, emissions * 0.35),
      Share("500-1000km", (shipments as real * 0.2).Floor, emissions * 0.3),
      Share("1000km+", (shipments as real * 0.1).Floor, emissions * 0.2) ]
  }

  const Recommendations: seq<string> := [
    "Consider rail transport for long-distance shipments to reduce emissions",
    "Optimize route planning to reduce total distance traveled",
    "Evaluate supplier locations for shorter transport distances",
    "Investigate electric vehicle options for short-distance deliveries"
  ]

  /** `generateMockReportData`, given the two values `Math.random()` returned:
      `r1` picks the shipment count, `r2` the emissions per shipment. */
  function GenerateMockReportData(r1: real, r2: real): MockReport
    requires 0.0 <= r1 < 1.0 && 0.0 <= r2 < 1.0
  {
    var shipments := (r1 * 1000.0).Floor + 100;
    var emissions := shipments as real * (r2 * 2.0 + 0.5);
    MockReport(shipments, emissions, ReportData(
      Summary(shipments, emissions, emissions / shipments as real, emissions / shipments as real),
      ByTransportMode(shipments, emissions),
      ByDistance(shipments, emissions),
      Recommendations))
  }

  /** The generated figures: 100 to 1099 shipments, 0.5 up to (not including)
      2.5 tons per shipment, an average and a carbon intensity that are the
      same per-shipment figure, and totals that the summary repeats. */
  lemma MockFigures(r1: real, r2: real)
    requires 0.0 <= r1 < 1.0 && 0.0 <= r2 < 1.0
    ensures var m := GenerateMockReportData(r1, r2);
      && 100 <= m.totalShipments <= 1099
      && m.reportData.summary.averageEmissionsPerShipment == r2 * 2.0 + 0.5
      && 0.5 <= m.reportData.summary.averageEmissionsPerShipment < 2.5
      && m.reportData.summary.carbonIntensity == m.reportData.summary.averageEmissionsPerShipment
      && m.totalEmissions == m.totalShipments as real * m.reportData.summary.averageEmissionsPerShipment
      && m.reportData.summary.totalShipments == m.totalShipments
      && m.reportData.summary.totalEmissions == m.totalEmissions
  {
    var s := (r1 * 1000.0).Floor + 100;
    var k := r2 * 2.0 + 0.5;
    var m := GenerateMockReportData(r1, r2);
    assert m.totalShipments == s && m.totalEmissions == s as real * k;
    DivideOut(s as real, k);
    assert m.reportData.summary.averageEmissionsPerShipment == (s as real * k) / s as real;
    assert m.reportData.summary.averageEmissionsPerShipment == k;
  }

  lemma DivideOut(s: real, k: real)
    requires s != 0.0
    ensures (s * k) / s == k
  {
  }

  function ShareShipments(s: Share): int { s.shipments }

  function ShareEmissions(s: Share): real { s.emissions }

  lemma SumOfFour(s: seq<Share>)
    requires |s| == 4
    ensures Seqs.Sum(s, ShareEmissions) == s[0].emissions + s[1].emissions + s[2].emissions + s[3].emissions
    ensures Seqs.SumInt(s, ShareShipments) == s[0].shipments + s[1].shipments + s[2].shipments + s[3].shipments
  {
    var t1, t2, t3 := s[1..], s[2..], s[3..];
    assert t1[1..] == t2 && t2[1..] == t3 && t3[1..] == [];
    assert Seqs.Sum(t3, ShareEmissions) == s[3].emissions;
    assert Seqs.Sum(t2, ShareEmissions) == s[2].emissions + s[3].emissions;
    assert Seqs.Sum(t1, ShareEmissions) == s[1].emissions + s[2].emissions + s[3].emissions;
    assert Seqs.SumInt(t3, ShareShipments) == s[3].shipments;
    assert Seqs.SumInt(t2, ShareShipments) == s[2].shipments + s[3].shipments;
    assert Seqs.SumInt(t1, ShareShipments) == s[1].shipments + s[2].shipments + s[3].shipments;
  }

  /** Each breakdown hands out exactly the total emissions. */
  lemma EmissionSharesSum(shipments: int, emissions: real)
    ensures Seqs.Sum(ByTransportMode(shipments, emissions), ShareEmissions) == emissions
    ensures Seqs.Sum(ByDistance(shipments, emissions), ShareEmissions) == emissions
  {
    SumOfFour(ByTransportMode(shipments, emissions));
    SumOfFour(ByDistance(shipments, emissions));
  }

  /** Each breakdown's shipment counts, being rounded down, add up to at most
      the total, and lose fewer than four shipments. */
  lemma ShipmentSharesSum(shipments: int, emissions: real)
    ensures shipments - 3 <= Seqs.SumInt(ByTransportMode(shipments, emissions), ShareShipments) <= shipments
    ensures shipments - 3 <= Seqs.SumInt(ByDistance(shipments, emissions), ShareShipments) <= shipments
  {
    SumOfFour(ByTransportMode(shipments, emissions));
    SumOfFour(ByDistance(shipments, emissions));
  }

  /** The breakdowns the generator stores satisfy both sums. */
  lemma MockBreakdowns(r1: real, r2: real)
    requires 0.0 <= r1 < 1.0 && 0.0 <= r2 < 1.0
    ensures var m := GenerateMockReportData(r1, r2);
      && Seqs.Sum(m.reportData.byTransportMode, ShareEmissions) == m.totalEmissions
      && Seqs.Sum(m.reportData.byDistance, ShareEmissions) == m.totalEmissions
      && Seqs.SumInt(m.reportData.byTransportMode, ShareShipments) <= m.totalShipments
      && Seqs.SumInt(m.reportData.byDistance, ShareShipments) <= m.totalShipments
  {
    var m := GenerateMockReportData(r1, r2);
    EmissionSharesSum(m.totalShipments, m.totalEmissions);
    ShipmentSharesSum(m.totalShipments, m.totalEmissions);
  }

  // ---------------------------------------------------------------------------
  // The CSV download

  /** `n.toString()` for an integer. */
  function IntToString(n: int): string
  {
    if n < 0 then "-" + NatToString(-n) else NatToString(n)
  }

  /** `total_emissions * 1000 / total_shipments`, kilograms per shipment; None
      for no shipments, where the division gives Infinity or NaN. */
  function AverageKg(report: AuditReport): Option<real>
  {
    if report.totalShipments == 0 then None
    else Some(report.totalEmissions * 1000.0 / report.totalShipments as real)
  }

  /** The average is defined exactly when there are shipments, and then it
      times the shipments gives the emissions in kilograms. */
  lemma AverageKgMeaning(report: AuditReport)
    ensures AverageKg(report).Some? <==> report.totalShipments != 0
    ensures AverageKg(report).Some? ==>
              AverageKg(report).value * report.totalShipments as real == report.totalEmissions * 1000.0
  {
  }

  /** The rows of the CSV. `fixed2` is `toFixed(2)` (None standing for the
      non-finite quotient) and `localeString` is the locale rendering of the
      generation date; both belong to the runtime. */
  function CsvRows(report: AuditReport, fixed2: Option<real> -> string, localeString: string -> string): seq<seq<string>>
  {
    [ ["Report Name", report.reportName],
      ["Report Type", report.reportType],
      ["Period", report.periodStart + " to " + report.periodEnd],
      ["Total Shipments", IntToString(report.totalShipments)],
      ["Total Emissions (tons CO₂)", fixed2(Some(report.totalEmissions))],
      ["Average Emissions per Shipment (kg CO₂)", fixed2(AverageKg(report))],
      [""],
      ["Generated on", localeString(report.generatedAt)] ]
  }

  /** `rows.map(row => row.join(","))` */
  function JoinRows(rows: seq<seq<string>>): (lines: seq<string>)
    ensures |lines| == |rows|
    ensures forall i :: 0 <= i < |rows| ==> lines[i] == Text.Join(rows[i], ',')
  {
    if rows == [] then [] else [Text.Join(rows[0], ',')] + JoinRows(rows[1..])
  }

  /** The text of the downloaded file. */
  function CsvContent(report: AuditReport, fixed2: Option<real> -> string, localeString: string -> string): string
  {
    Text.Join(JoinRows(CsvRows(report, fixed2, localeString)), '\n')
  }

  /** No line break in any field the CSV shows. */
  predicate SingleLineFields(report: AuditReport, fixed2: Option<real> -> string, localeString: string -> string)
  {
    && '\n' !in report.reportName && '\n' !in report.reportType
    && '\n' !in report.periodStart && '\n' !in report.periodEnd
    && '\n' !in fixed2(Some(report.totalEmissions)) && '\n' !in fixed2(AverageKg(report))
    && '\n' !in localeString(report.generatedAt)
  }

  lemma IntToStringSingleLine(n: int)
    ensures '\n' !in IntToString(n) && ',' !in IntToString(n)
  {
    var d := NatToString(if n < 0 then -n else n);
    assert forall i :: 0 <= i < |d| ==> IsDigit(d[i]);
    assert '\n' !in d && ',' !in d;
  }

  /** When no field holds a line break, the file reads back as eight lines:
      each a label, a comma and its value, the seventh empty. */
  lemma CsvLayout(report: AuditReport, fixed2: Option<real> -> string, localeString: string -> string)
    requires SingleLineFields(report, fixed2, localeString)
    ensures var lines := Text.Split(CsvContent(report, fixed2, localeString), '\n');
      && lines == CsvLines(report, fixed2, localeString)
      && |lines| == 8 && lines[6] == ""
  {
    RowsJoined(report, fixed2, localeString);
    CsvLinesSingle(report, fixed2, localeString);
    Text.SplitJoin(CsvLines(report, fixed2, localeString), '\n');
  }

  lemma CsvLinesSingle(report: AuditReport, fixed2: Option<real> -> string, localeString: string -> string)
    requires SingleLineFields(report, fixed2, localeString)
    ensures forall i :: 0 <= i < |CsvLines(report, fixed2, localeString)| ==>
              '\n' !in CsvLines(report, fixed2, localeString)[i]
  {
    var lines := CsvLines(report, fixed2, localeString);
    CaptionsSingleLine();
    IntToStringSingleLine(report.totalShipments);
    var period := report.periodStart + " to " + report.periodEnd;
    assert '\n' !in period;
    NoLineBreak("Report Name", report.reportName);
    NoLineBreak("Report Type", report.reportType);
    NoLineBreak("Period", period);
    NoLineBreak("Total Shipments", IntToString(report.totalShipments));
    NoLineBreak("Total Emissions (tons CO₂)", fixed2(Some(report.totalEmissions)));
    NoLineBreak("Average Emissions per Shipment (kg CO₂)", fixed2(AverageKg(report)));
    NoLineBreak("Generated on", localeString(report.generatedAt));
  }

  lemma CaptionsSingleLine()
    ensures '\n' !in "Report Name" && '\n' !in "Report Type" && '\n' !in "Period"
    ensures '\n' !in "Total Shipments" && '\n' !in "Total Emissions (tons CO₂)"
    ensures '\n' !in "Average Emissions per Shipment (kg CO₂)" && '\n' !in "Generated on"
  {
  }

  /** The eight lines of the file: each a label, a comma and its value, the
      seventh empty. */
  function CsvLines(report: AuditReport, fixed2: Option<real> -> string, localeString: string -> string): seq<string>
  {
    [ Line("Report Name", report.reportName),
      Line("Report Type", report.reportType),
      Line("Period", report.periodStart + " to " + report.periodEnd),
      Line("Total Shipments", IntToString(report.totalShipments)),
      Line("Total Emissions (tons CO₂)", fixed2(Some(report.totalEmissions))),
      Line("Average Emissions per Shipment (kg CO₂)", fixed2(AverageKg(report))),
      "",
      Line("Generated on", localeString(report.generatedAt)) ]
  }

  /** A label and its value as one line of the file. */
  function Line(caption: string, value: string): string
  {
    caption + "," + value
  }

  /** Joining each row with commas gives those lines. */
  lemma RowsJoined(report: AuditReport, fixed2: Option<real> -> string, localeString: string -> string)
    ensures JoinRows(CsvRows(report, fixed2, localeString)) == CsvLines(report, fixed2, localeString)
  {
    var rows := CsvRows(report, fixed2, localeString);
    var lines := JoinRows(rows);
    var expected := CsvLines(report, fixed2, localeString);
    forall i | 0 <= i < 8 ensures lines[i] == expected[i] {
      if i != 6 {
        JoinPair(rows[i][0], rows[i][1]);
        assert rows[i] == [rows[i][0], rows[i][1]];
      }
    }
  }

  lemma NoLineBreak(a: string, b: string)
    requires '\n' !in a && '\n' !in b
    ensures '\n' !in Line(a, b)
  {
  }

  /** A two-cell row is its cells around one comma; it has a line break only
      where a cell does. */
  lemma JoinPair(a: string, b: string)
    ensures Text.Join([a, b], ',') == Line(a, b)
  {
    assert [a, b][1..] == [b];
  }

  /** The shipment count in the file reads back as the count. */
  lemma CsvShipmentsRoundTrip(report: AuditReport, fixed2: Option<real> -> string, localeString: string -> string)
    requires SingleLineFields(report, fixed2, localeString)
    requires report.totalShipments >= 0
    ensures var lines := Text.Split(CsvContent(report, fixed2, localeString), '\n');
      && |lines| == 8
      && Text.Split(lines[3], ',') == ["Total Shipments", IntToString(report.totalShipments)]
      && ToNumber(IntToString(report.totalShipments)) == Finite(report.totalShipments as real)
  {
    CsvLayout(report, fixed2, localeString);
    var count := IntToString(report.totalShipments);
    assert CsvLines(report, fixed2, localeString)[3] == Line("Total Shipments", count);
    IntToStringSingleLine(report.totalShipments);
    SplitPair("Total Shipments", count);
    NatToStringRoundTrip(report.totalShipments);
  }

  /** A label, a comma and a value split back into the two. */
  lemma SplitPair(a: string, b: string)
    requires ',' !in a && ',' !in b
    ensures Text.Split(Line(a, b), ',') == [a, b]
  {
    JoinPair(a, b);
    Text.SplitJoin([a, b], ',');
  }

  // ---------------------------------------------------------------------------
  // The file name

  /** No character of `s` is in the class. */
  predicate NoneIn(s: string, inClass: char -> bool)
  {
    forall i :: 0 <= i < |s| ==> !inClass(s[i])
  }

  /** Every character of `s` is in the class. */
  predicate AllIn(s: string, inClass: char -> bool)
  {
    forall i :: 0 <= i < |s| ==> inClass(s[i])
  }

  /** `s.replace(/[class]+/g, "_")` read left to right: a character of the
      class writes an underscore unless it continues a run (`inRun`), any
      other character is copied. */
  function ReplaceRuns(s: string, inClass: char -> bool, inRun: bool): string
  {
    if s == "" then ""
    else RunHead(s[0], inClass, inRun) + ReplaceRuns(s[1..], inClass, inClass(s[0]))
  }

  /** Whether a run is still open after reading `s`, starting in state `inRun`. */
  function InRunAfter(s: string, inClass: char -> bool, inRun: bool): bool
  {
    if s == "" then inRun else inClass(s[|s| - 1])
  }

  /** The name the download is saved under: `\s+` runs become underscores. */
  function DownloadName(reportName: string): string
  {
    ReplaceRuns(reportName, Text.IsWhitespace, false) + "_audit_report.csv"
  }

  /** The rewrite leaves no character of the class and never lengthens. */
  lemma {:induction false} ReplaceRunsNoneLeft(s: string, inClass: char -> bool, inRun: bool)
    requires !inClass('_')
    ensures NoneIn(ReplaceRuns(s, inClass, inRun), inClass)
    ensures |ReplaceRuns(s, inClass, inRun)| <= |s|
  {
    if s != "" {
      ReplaceRunsNoneLeft(s[1..], inClass, inClass(s[0]));
      var rest := ReplaceRuns(s[1..], inClass, inClass(s[0]));
      var head := if !inClass(s[0]) then [s[0]] else if inRun then "" else "_";
      assert ReplaceRuns(s, inClass, inRun) == head + rest;
      assert NoneIn(head, inClass);
      forall i | 0 <= i < |head + rest| ensures !inClass((head + rest)[i]) {
        if i >= |head| { assert (head + rest)[i] == rest[i - |head|]; }
      }
    }
  }

  /** A string with no character of the class is kept as it is. */
  lemma {:induction false} ReplaceRunsIdentity(s: string, inClass: char -> bool, inRun: bool)
    requires NoneIn(s, inClass)
    ensures ReplaceRuns(s, inClass, inRun) == s
  {
    if s != "" {
      assert !inClass(s[0]);
      assert NoneIn(s[1..], inClass) by {
        forall i | 0 <= i < |s| - 1 ensures !inClass(s[1..][i]) {
          assert s[1..][i] == s[i + 1];
        }
      }
      ReplaceRunsIdentity(s[1..], inClass, false);
      assert [s[0]] + s[1..] == s;
    }
  }

  /** A whole run becomes a single underscore, or nothing when it continues
      a run. */
  lemma {:induction false} ReplaceRunsOneRun(w: string, inClass: char -> bool, inRun: bool)
    requires w != "" && AllIn(w, inClass)
    ensures ReplaceRuns(w, inClass, inRun) == if inRun then "" else "_"
  {
    assert inClass(w[0]);
    if |w| > 1 {
      assert AllIn(w[1..], inClass) by {
        forall i | 0 <= i < |w| - 1 ensures inClass(w[1..][i]) {
          assert w[1..][i] == w[i + 1];
        }
      }
      ReplaceRunsOneRun(w[1..], inClass, true);
    }
  }

  /** Rewriting a concatenation rewrites the first part, then the second in
      the state the first left: with the single-run lemma this pins the
      rewrite down. */
  lemma {:induction false} ReplaceRunsConcat(a: string, b: string, inClass: char -> bool, inRun: bool)
    ensures ReplaceRuns(a + b, inClass, inRun)
         == ReplaceRuns(a, inClass, inRun) + ReplaceRuns(b, inClass, InRunAfter(a, inClass, inRun))
  {
    if a == "" {
      assert a + b == b;
    } else {
      var next := inClass(a[0]);
      var head := RunHead(a[0], inClass, inRun);
      var ra := ReplaceRuns(a[1..], inClass, next);
      var rb := ReplaceRuns(b, inClass, InRunAfter(a, inClass, inRun));
      assert ReplaceRuns(a + b, inClass, inRun) == head + ReplaceRuns(a[1..] + b, inClass, next) by {
        assert (a + b)[0] == a[0] && (a + b)[1..] == a[1..] + b;
        ReplaceRunsStep(a + b, inClass, inRun);
      }
      assert ReplaceRuns(a[1..] + b, inClass, next) == ra + rb by {
        ReplaceRunsConcat(a[1..], b, inClass, next);
        assert InRunAfter(a[1..], inClass, next) == InRunAfter(a, inClass, inRun) by {
          if a[1..] != "" { assert a[1..][|a[1..]| - 1] == a[|a| - 1]; }
        }
      }
      assert ReplaceRuns(a, inClass, inRun) == head + ra by {
        ReplaceRunsStep(a, inClass, inRun);
      }
      assert head + (ra + rb) == (head + ra) + rb;
    }
  }

  /** What the first character of a non-empty string writes. */
  function RunHead(c: char, inClass: char -> bool, inRun: bool): string
  {
    if !inClass(c) then [c] else if inRun then "" else "_"
  }

  lemma ReplaceRunsStep(s: string, inClass: char -> bool, inRun: bool)
    requires s != ""
    ensures ReplaceRuns(s, inClass, inRun) == RunHead(s[0], inClass, inRun) + ReplaceRuns(s[1..], inClass, inClass(s[0]))
  {
  }

  /** The download name carries no whitespace, ends in the fixed suffix, and
      is the report name plus that suffix when the name has no whitespace. */
  lemma DownloadNameShape(reportName: string)
    ensures var n := DownloadName(reportName);
      && NoneIn(n, Text.IsWhitespace)
      && |n| >= 17 && n[|n| - 17..] == "_audit_report.csv"
    ensures NoneIn(reportName, Text.IsWhitespace) ==> DownloadName(reportName) == reportName + "_audit_report.csv"
  {
    var u := ReplaceRuns(reportName, Text.IsWhitespace, false);
    ReplaceRunsNoneLeft(reportName, Text.IsWhitespace, false);
    var suffix := "_audit_report.csv";
    assert NoneIn(suffix, Text.IsWhitespace);
    NoneInAppend(u, suffix, Text.IsWhitespace);
    if NoneIn(reportName, Text.IsWhitespace) {
      ReplaceRunsIdentity(reportName, Text.IsWhitespace, false);
    }
  }

  lemma NoneInAppend(a: string, b: string, inClass: char -> bool)
    requires NoneIn(a, inClass) && NoneIn(b, inClass)
    ensures NoneIn(a + b, inClass)
  {
    forall i | 0 <= i < |a + b| ensures !inClass((a + b)[i]) {
      if i >= |a| { assert (a + b)[i] == b[i - |a|]; }
    }
  }

  /** Two words with any run of whitespace between them are saved as the
      words joined by one underscore. */
  lemma DownloadNameTwoWords(first: string, gap: string, second: string)
    requires NoneIn(first, Text.IsWhitespace) && NoneIn(second, Text.IsWhitespace)
    requires gap != "" && AllIn(gap, Text.IsWhitespace)
    ensures DownloadName(first + gap + second) == first + "_" + second + "_audit_report.csv"
  {
    TwoWords(first, gap, second, Text.IsWhitespace);
  }

  lemma TwoWords(first: string, gap: string, second: string, inClass: char -> bool)
    requires NoneIn(first, inClass) && NoneIn(second, inClass)
    requires gap != "" && AllIn(gap, inClass)
    ensures ReplaceRuns(first + gap + second, inClass, false) == first + "_" + second
  {
    var rest := gap + second;
    assert first + gap + second == first + rest;
    assert first != "" ==> !inClass(first[|first| - 1]);
    assert !InRunAfter(first, inClass, false);
    ReplaceRunsConcat(first, rest, inClass, false);
    ReplaceRunsIdentity(first, inClass, false);
    assert InRunAfter(gap, inClass, false);
    ReplaceRunsConcat(gap, second, inClass, false);
    ReplaceRunsOneRun(gap, inClass, false);
    ReplaceRunsIdentity(second, inClass, true);
    assert ReplaceRuns(first + rest, inClass, false) == first + ("_" + second);
  }

  // ---------------------------------------------------------------------------
  // The type badge

  /** `getReportTypeBadgeColor` */
  function ReportTypeBadgeColor(reportType: string): string
  {
    match reportType
    case "annual" => "bg-blue-100 text-blue-800"
    case "quarterly" => "bg-green-100 text-green-800"
    case "monthly" => "bg-purple-100 text-purple-800"
    case "scope3" => "bg-orange-100 text-orange-800"
    case _ => "bg-gray-100 text-gray-800"
  }

  /** The report types the form offers. */
  const ReportTypes: seq<string> := ["annual", "quarterly", "monthly", "scope3", "compliance"]

  /** Four types have a colour of their own; every other type, the offered
      "compliance" among them, is gray. */
  lemma BadgeDefault(reportType: string)
    ensures (ReportTypeBadgeColor(reportType) == "bg-gray-100 text-gray-800") == (reportType !in ReportTypes[..4])
    ensures ReportTypeBadgeColor("compliance") == "bg-gray-100 text-gray-800"
  {
    assert ReportTypes[..4] == ["annual", "quarterly", "monthly", "scope3"];
  }

  /** The four coloured types have four different colours. */
  lemma BadgesDistinct()
    ensures forall i, j :: 0 <= i < j < 4 ==>
              ReportTypeBadgeColor(ReportTypes[i]) != ReportTypeBadgeColor(ReportTypes[j])
  {
  }

  // ---------------------------------------------------------------------------
  // The panel's state

  datatype ReportForm = ReportForm(reportName: string, reportType: string, periodStart: string, periodEnd: string)

  const EmptyForm := ReportForm("", "", "", "")

  /** The row `handleSubmit` inserts. */
  datatype ReportInsert = ReportInsert(
    userId: string, reportName: string, reportType: string, periodStart: string, periodEnd: string,
    totalEmissions: real, totalShipments: int, reportData: ReportData)

  function InsertFor(userId: string, form: ReportForm, r1: real, r2: real): ReportInsert
    requires 0.0 <= r1 < 1.0 && 0.0 <= r2 < 1.0
  {
    var m := GenerateMockReportData(r1, r2);
    ReportInsert(userId, form.reportName, form.reportType, form.periodStart, form.periodEnd,
                 m.totalEmissions, m.totalShipments, m.reportData)
  }

  /** The inserted row carries the form's fields and a generated report whose
      top-level totals agree with its own summary. */
  lemma InsertCarriesForm(userId: string, form: ReportForm, r1: real, r2: real)
    requires 0.0 <= r1 < 1.0 && 0.0 <= r2 < 1.0
    ensures var row := InsertFor(userId, form, r1, r2);
      && ReportForm(row.reportName, row.reportType, row.periodStart, row.periodEnd) == form
      && row.userId == userId
      && row.totalShipments == row.reportData.summary.totalShipments
      && row.totalEmissions == row.reportData.summary.totalEmissions
      && 100 <= row.totalShipments <= 1099
  {
    MockFigures(r1, r2);
  }

  class ReportsPanel {
    var reports: seq<AuditReport>
    var showCreateForm: bool
    var loading: bool
    var formData: ReportForm

    constructor ()
      ensures reports == [] && !showCreateForm && !loading && formData == EmptyForm
    {
      reports := [];
      showCreateForm := false;
      loading := false;
      formData := EmptyForm;
    }

    /** `fetchReports`: the rows replace the list; a failed read keeps it. */
    method FetchReports(result: Read<AuditReport>)
      modifies this`reports
      ensures reports == if result.Rows? then result.rows else old(reports)
    {
      if result.Rows? {
        reports := result.rows;
      }
    }

    /** `handleSubmit`: asks for the user, then generates the mock report from
        the draws `r1` and `r2` and inserts it. `inserted` is the row sent to
        the backend, if the call was reached; the refresh that follows a
        success is `FetchReports`. */
    method HandleSubmit(session: Session, r1: real, r2: real, write: Write) returns (inserted: Option<ReportInsert>)
      requires 0.0 <= r1 < 1.0 && 0.0 <= r2 < 1.0
      modifies this`loading, this`formData, this`showCreateForm
      ensures !loading
      ensures inserted == if session.SignedIn? then Some(InsertFor(session.userId, old(formData), r1, r2)) else None
      ensures session.SignedIn? && write.Written? ==> formData == EmptyForm && !showCreateForm
      ensures !(session.SignedIn? && write.Written?) ==>
                formData == old(formData) && showCreateForm == old(showCreateForm)
    {
      loading := true;
      inserted := None;
      if session.SignedIn? {
        inserted := Some(InsertFor(session.userId, formData, r1, r2));
        if write.Written? {
          formData := EmptyForm;
          showCreateForm := false;
        }
      }
      loading := false;
    }
  }
}
