/**
 * `generateConditionMonitorPDF(data, millName)`: the condition-monitoring report. Below the header
 * it draws a 68-high "General Information" box at y = 42, a 130-high "Vibration Diagnosis and
 * Recommendation" box at y = 116 and the signature line at y = 252. The field defaults (a "Caution"
 * status, a "Medium" risk, "—" for a missing value) and the cursor arithmetic are modelled exactly.
 * The decorative grid lines, trend polyline and spectrum spikes inside the two chart panels are not.
 */
module ConditionMonitorReport {
  import opened Canvas
  import opened FormData
  import opened PdfGenerator
  import Text

  // ---------------------------------------------------------------------------
  // Field texts
  // ---------------------------------------------------------------------------

  /** The status shown on the badge: `data.statusCondition || 'Caution'`. */
  function StatusText(data: Record): (r: string)
    ensures r != ""
    ensures !Truthy(Get(data, "statusCondition")) ==> r == "Caution"
  {
    Field(data, "statusCondition", "Caution")
  }

  /** The risk badge's text: `(data.risk || 'Medium') + ' Risk'`. */
  function RiskText(data: Record): (r: string)
    ensures !Truthy(Get(data, "risk")) ==> r == "Medium Risk"
  {
    Field(data, "risk", "Medium") + " Risk"
  }

  /** The risk badge's colour: `getRiskColor(data.risk)`, taken from the raw field, not from the badge text. */
  function RiskBadgeColor(data: Record): Rgb {
    RiskColor(Field(data, "risk", ""))
  }

  /** `(data.assetName || '—') + (data.assetId ? '  —  ' + data.assetId : '')`. */
  function AssetText(data: Record): (r: string)
    ensures r != ""
    ensures !Truthy(Get(data, "assetId")) ==> r == Field(data, "assetName", DASH)
    ensures Truthy(Get(data, "assetId")) ==> r == Field(data, "assetName", DASH) + "  " + DASH + "  " + Show(Get(data, "assetId"))
  {
    Field(data, "assetName", DASH) + (if Truthy(Get(data, "assetId")) then "  " + DASH + "  " + Show(Get(data, "assetId")) else "")
  }

  /** The unit suffix of the temperature row. */
  const FAHRENHEIT := " °F"

  /** `data.temperature ? data.temperature + ' °F' : '—'`. */
  function TemperatureText(data: Record): (r: string)
    ensures r != ""
    ensures Truthy(Get(data, "temperature")) ==> r == Show(Get(data, "temperature")) + FAHRENHEIT
    ensures !Truthy(Get(data, "temperature")) ==> r == DASH
  {
    if Truthy(Get(data, "temperature")) then Show(Get(data, "temperature")) + FAHRENHEIT else DASH
  }

  /** `data.geLevel || data.vibrationLevel || '—'`: the overall level wins over the plain vibration level. */
  function VibrationText(data: Record): (r: string)
    ensures r != ""
  {
    FirstOf(Get(data, "geLevel"), Get(data, "vibrationLevel"), DASH)
  }

  /**
   * The badges' defaults: a missing status shows "CAUTION" in orange, but a missing risk shows
   * "MEDIUM RISK" in dark grey, because the colour is looked up from the empty field and not from
   * the "Medium" default the text falls back to.
   */
  lemma {:induction false} MissingBadgeDefaults(data: Record)
    requires !Truthy(Get(data, "statusCondition")) && !Truthy(Get(data, "risk"))
    ensures Text.ToUpper(StatusText(data)) == "CAUTION" && StatusColor(StatusText(data)) == ORANGE
    ensures Text.ToUpper(RiskText(data)) == "MEDIUM RISK" && RiskBadgeColor(data) == DARK_GRAY
    ensures RiskColor("Medium") == ORANGE
  {
    assert Text.ToLower("Caution") == "caution";
    assert Text.ToLower("Medium") == "medium";
    assert Text.ToLower("") == "";
    assert Text.ToUpper("Caution") == "CAUTION";
    assert Text.ToUpper("Medium Risk") == "MEDIUM RISK";
  }

  /** When both levels are present the overall level is the one shown; otherwise whichever is present, or the placeholder. */
  lemma VibrationPrecedence(data: Record)
    ensures Truthy(Get(data, "geLevel")) ==> VibrationText(data) == Show(Get(data, "geLevel"))
    ensures !Truthy(Get(data, "geLevel")) && Truthy(Get(data, "vibrationLevel")) ==> VibrationText(data) == Show(Get(data, "vibrationLevel"))
    ensures !Truthy(Get(data, "geLevel")) && !Truthy(Get(data, "vibrationLevel")) ==> VibrationText(data) == DASH
  {
  }

  // ---------------------------------------------------------------------------
  // Layout
  // ---------------------------------------------------------------------------

  /** The cursor at the top of each part of the page. */
  const GENERAL_TOP := 42.0
  const GENERAL_HEIGHT := 68.0
  const DIAGNOSIS_TOP := 116.0
  const DIAGNOSIS_HEIGHT := 130.0
  const SIGNATURE_RULE := 252.0
  /** The box width, `W - 20`. */
  const BOX_WIDTH := 190.0
  /** The chart panels' width and the wrapping width of the description, `chartW - 8`. */
  const PANEL_WIDTH := 83.0

  /** The grey tab at the left edge of a section and its caption, turned 90 degrees. */
  function SideTabCommands(caption: string, y: real, h: real, captionY: real): seq<Command> {
    [Rect(0.0, y, 8.0, h, LIGHT_GRAY), Text(caption, 5.5, captionY, Pen(Bold, 7.0, DARK_BLUE), Left, 90)]
  }

  /** The tab and the box of the general section. */
  function GeneralFrameCommands(y: real): (cmds: seq<Command>)
    ensures |cmds| == 3
  {
    SideTabCommands("General Information", y, GENERAL_HEIGHT, y + 64.0) + [BoxCommand(10.0, y, BOX_WIDTH, GENERAL_HEIGHT, LIGHT_GRAY)]
  }

  /** The status row: an empty value, then the badge after the label. */
  function StatusRowCommands(metrics: Metrics, data: Record, y: real): (cmds: seq<Command>)
    ensures |cmds| == 5
  {
    InfoRowCommands(metrics, "Status Condition", "", 110.0, y + 8.0, BLACK) + StatusBadgeCommands(metrics, data, y)
  }

  /** The left half of the general section: the tab, the box, location, asset, and the status row with its badge. */
  function GeneralLeftCommands(metrics: Metrics, data: Record, y: real): (cmds: seq<Command>)
    ensures |cmds| == 14
  {
    GeneralFrameCommands(y)
    + InfoRowCommands(metrics, "Location", Field(data, "area", DASH), 16.0, y + 8.0, BLUE)
    + InfoRowCommands(metrics, "Asset & ID", AssetText(data), 16.0, y + 17.0, BLUE)
    + StatusRowCommands(metrics, data, y)
  }

  /** The status badge, placed after the row's label measured in the row's value font (normal 9-point). */
  function StatusBadgeCommands(metrics: Metrics, data: Record, y: real): seq<Command> {
    BadgeCommands(metrics, Pen(Normal, 9.0, BLACK), StatusText(data),
                  110.0 + metrics.textWidth(Normal, 9.0, "Status Condition: ") + 5.0, y + 9.0, StatusColor(StatusText(data)))
  }

  /** The risk badge, placed after the "Risk: " label measured in normal 9-point type. */
  function RiskBadgeCommands(metrics: Metrics, data: Record, y: real): seq<Command> {
    BadgeCommands(metrics, Pen(Normal, 9.0, BLACK), RiskText(data),
                  16.0 + metrics.textWidth(Normal, 9.0, "Risk: ") + 5.0, y + 36.0, RiskBadgeColor(data))
  }

  /** Diagnosis, temperature, and the risk row with its badge. */
  function GeneralMiddleCommands(metrics: Metrics, data: Record, y: real): (cmds: seq<Command>)
    ensures |cmds| == 11
  {
    InfoRowCommands(metrics, "Vibration Diagnosis", Field(data, "diagnosis", DASH), 16.0, y + 26.0, BLUE)
    + InfoRowCommands(metrics, "Temperature", TemperatureText(data), 110.0, y + 17.0, ORANGE)
    + InfoRowCommands(metrics, "Risk", "", 16.0, y + 35.0, BLACK)
    + RiskBadgeCommands(metrics, data, y)
  }

  /** The report id and the vibration level, in the right column. */
  function GeneralRightCommands(metrics: Metrics, data: Record, formId: string, y: real): (cmds: seq<Command>)
    ensures |cmds| == 6
  {
    InfoRowCommands(metrics, "CMR", formId, 110.0, y + 26.0, DARK_BLUE)
    + InfoRowCommands(metrics, "Vibration Level", VibrationText(data), 110.0, y + 35.0, ORANGE)
  }

  /** The general-information section whose box starts at `y`: six field rows and two badges, in the source's order. */
  function GeneralCommands(metrics: Metrics, data: Record, formId: string, y: real): seq<Command> {
    GeneralLeftCommands(metrics, data, y) + GeneralMiddleCommands(metrics, data, y) + GeneralRightCommands(metrics, data, formId, y)
  }

  /** A chart panel's box and its caption: the bold label, then the value in normal type after the label's width. */
  function PanelCommands(metrics: Metrics, x: real, y: real, caption: string, value: string): seq<Command> {
    [BoxCommand(x, y + 4.0, PANEL_WIDTH, 42.0, WHITE),
     Text(caption, x + 4.0, y + 12.0, Pen(Bold, 8.0, DARK_BLUE), Left, 0),
     Text(value, x + 4.0 + metrics.textWidth(Normal, 8.0, caption), y + 12.0, Pen(Normal, 8.0, BLUE), Left, 0)]
  }

  /** The recommendation text wrapped to `W - 36`: every line is drawn, none is clipped. */
  function RecommendationLines(metrics: Metrics, data: Record): seq<string> {
    metrics.splitText(Normal, 8.5, Field(data, "recommendation", "No recommendation provided."), 174.0)
  }

  /** The observations wrapped to the panel's inner width and clipped to five lines. */
  function DescriptionLines(metrics: Metrics, data: Record): (lines: seq<string>)
    ensures |lines| <= 5
  {
    Take(metrics.splitText(Normal, 8.0, Field(data, "observations", "No observations recorded."), PANEL_WIDTH - 8.0), 5)
  }

  /** The machine-photo placeholder at `dy`: a white panel holding a grey frame and a caption. */
  function ImagePanelCommands(dy: real): (cmds: seq<Command>)
    ensures |cmds| == 4
  {
    [BoxCommand(14.0, dy, PANEL_WIDTH, 44.0, WHITE),
     Text("Machine Image", 18.0, dy + 8.0, Pen(Bold, 8.0, DARK_BLUE), Left, 0),
     Rect(18.0, dy + 12.0, PANEL_WIDTH - 8.0, 26.0, MID_GRAY),
     Text("[ Photo Attachment ]", 18.0 + (PANEL_WIDTH - 8.0) / 2.0, dy + 27.0, Pen(Italic, 7.0, DARK_GRAY), Center, 0)]
  }

  /** The description panel at `dy`: a white panel, a dotted heading and the observations clipped to five lines. */
  function DescriptionPanelCommands(metrics: Metrics, data: Record, dy: real): (cmds: seq<Command>)
    ensures |cmds| == 4
  {
    [BoxCommand(103.0, dy, PANEL_WIDTH, 44.0, WHITE),
     Circle(107.0, dy + 8.0, 1.5, RED),
     Text("Description", 111.0, dy + 8.0, Pen(Bold, 8.0, DARK_BLUE), Left, 0),
     TextLines(DescriptionLines(metrics, data), 107.0, dy + 16.0, Pen(Normal, 8.0, BLACK))]
  }

  /** The recommendation heading at `dy` and every wrapped line of the recommendation, 6 apart from `dy + 7`. */
  function RecommendationCommands(metrics: Metrics, data: Record, dy: real): seq<Command> {
    [Circle(16.0, dy + 1.0, 1.5, RED),
     Text("Recommendation", 21.0, dy + 1.5, Pen(Bold, 9.0, DARK_BLUE), Left, 0)]
    + Bullets(RecommendationLines(metrics, data), 17.0, 22.0, dy + 7.0, Pen(Normal, 8.5, BLACK))
  }

  /** The tab and the box of the diagnosis section. */
  function DiagnosisFrameCommands(y: real): (cmds: seq<Command>)
    ensures |cmds| == 3
  {
    SideTabCommands("Vibration Diagnosis and Recommendation", y, DIAGNOSIS_HEIGHT, y + 128.0)
    + [BoxCommand(10.0, y, BOX_WIDTH, DIAGNOSIS_HEIGHT, LIGHT_GRAY)]
  }

  /** The tab, the box and the two chart panels (box and caption only) of the diagnosis section. */
  function ChartsCommands(metrics: Metrics, data: Record, y: real): (cmds: seq<Command>)
    ensures |cmds| == 9
  {
    DiagnosisFrameCommands(y)
    + PanelCommands(metrics, 14.0, y, "Trend: ", Field(data, "trendLabel", "Vibration Trend"))
    + PanelCommands(metrics, 103.0, y, "Spectrum: ", "Frequency Spectrum")
  }

  /** The photo placeholder and the description panel, side by side at `dy`. */
  function PhotoRowCommands(metrics: Metrics, data: Record, dy: real): (cmds: seq<Command>)
    ensures |cmds| == 8
  {
    ImagePanelCommands(dy) + DescriptionPanelCommands(metrics, data, dy)
  }

  /** The diagnosis section whose box starts at `y`: the chart panels, the photo placeholder, the description and the recommendation. */
  function DiagnosisCommands(metrics: Metrics, data: Record, y: real): seq<Command> {
    ChartsCommands(metrics, data, y) + PhotoRowCommands(metrics, data, y + 52.0) + RecommendationCommands(metrics, data, y + 102.0)
  }

  /** The signature block under the rule at `y`: who emitted the note and its date (today's when none was entered). */
  function SignatureRowsCommands(metrics: Metrics, data: Record, today: string, y: real): (cmds: seq<Command>)
    ensures |cmds| == 7
  {
    SignatureBlockCommands(metrics, "Emitted by ", Field(data, "technicianName", BLANK_NAME), "Note Date ", Field(data, "date", today), y, 8.5)
  }

  /** Everything the report draws between the header and the footer. */
  function Body(metrics: Metrics, data: Record, formId: string, today: string): seq<Command> {
    GeneralCommands(metrics, data, formId, GENERAL_TOP)
    + DiagnosisCommands(metrics, data, DIAGNOSIS_TOP)
    + SignatureRowsCommands(metrics, data, today, SIGNATURE_RULE)
  }

  // ---------------------------------------------------------------------------
  // Properties of the layout
  // ---------------------------------------------------------------------------

  /**
   * The section boxes stack without overlapping: the general box ends 6 above the diagnosis box,
   * which ends 6 above the signature rule, and the signature line 6 below that rule stays above the footer rule.
   */
  lemma {:induction false} SectionsStack(metrics: Metrics, data: Record, today: string)
    ensures var g := GeneralFrameCommands(GENERAL_TOP)[2];
      var d := DiagnosisFrameCommands(DIAGNOSIS_TOP)[2];
      var r := SignatureRowsCommands(metrics, data, today, SIGNATURE_RULE)[0];
      && g.RoundedRect? && d.RoundedRect? && r.Line?
      && g.y + g.h < d.y && d.y + d.h < r.y1
      && r.y1 + 6.0 < PAGE_HEIGHT - 14.0
  {
    var g := GeneralFrameCommands(GENERAL_TOP);
    assert g[2] == BoxCommand(10.0, GENERAL_TOP, BOX_WIDTH, GENERAL_HEIGHT, LIGHT_GRAY);
    var d := DiagnosisFrameCommands(DIAGNOSIS_TOP);
    assert d[2] == BoxCommand(10.0, DIAGNOSIS_TOP, BOX_WIDTH, DIAGNOSIS_HEIGHT, LIGHT_GRAY);
  }

  /** The status badge is filled with the status map's colour and shows the status (or "Caution") upper-cased. */
  lemma {:induction false} StatusBadgeShown(metrics: Metrics, data: Record, y: real)
    ensures var g := GeneralLeftCommands(metrics, data, y);
      && g[12].RoundedRect? && g[12].fill == StatusColor(StatusText(data))
      && g[13] == Text(Text.ToUpper(StatusText(data)), g[12].x + 3.0, y + 9.0, Pen(Bold, 8.0, WHITE), Left, 0)
  {
    var g := GeneralLeftCommands(metrics, data, y);
    var b := StatusBadgeCommands(metrics, data, y);
    assert g[12..] == b;
    assert g[12] == b[0] && g[13] == b[1];
  }

  /** The risk badge is filled with the risk map's colour of the raw field and shows the risk (or "Medium") with " Risk". */
  lemma {:induction false} RiskBadgeShown(metrics: Metrics, data: Record, y: real)
    ensures var g := GeneralMiddleCommands(metrics, data, y);
      && g[9].RoundedRect? && g[9].fill == RiskBadgeColor(data)
      && g[10] == Text(Text.ToUpper(RiskText(data)), g[9].x + 3.0, y + 36.0, Pen(Bold, 8.0, WHITE), Left, 0)
  {
    var g := GeneralMiddleCommands(metrics, data, y);
    var b := RiskBadgeCommands(metrics, data, y);
    assert g[9..] == b;
    assert g[9] == b[0] && g[10] == b[1];
  }

  /** The id row shows the same id the header, footer and file name carry. */
  lemma IdRowShown(metrics: Metrics, data: Record, formId: string, y: real)
    requires formId != ""
    ensures var r := GeneralRightCommands(metrics, data, formId, y);
      r[2].Text? && r[2].content == formId && r[1].content == "CMR:"
  {
  }

  /**
   * The recommendation is not clipped: its first line is drawn 225 down the page, so a fifth wrapped
   * line falls below the diagnosis box (which ends at 246) and a sixth below the signature rule at 252.
   */
  lemma {:induction false} RecommendationOverflows(metrics: Metrics, data: Record)
    requires |RecommendationLines(metrics, data)| >= 6
    ensures var b := Bullets(RecommendationLines(metrics, data), 17.0, 22.0, DIAGNOSIS_TOP + 109.0, Pen(Normal, 8.5, BLACK));
      && RecommendationCommands(metrics, data, DIAGNOSIS_TOP + 102.0)[2..] == b
      && |b| >= 12
      && b[9].Text? && b[9].y > DIAGNOSIS_TOP + DIAGNOSIS_HEIGHT
      && b[11].Text? && b[11].y > SIGNATURE_RULE
  {
    var lines := RecommendationLines(metrics, data);
    var pen := Pen(Normal, 8.5, BLACK);
    BulletsAt(lines, 17.0, 22.0, DIAGNOSIS_TOP + 109.0, pen, 4);
    BulletsAt(lines, 17.0, 22.0, DIAGNOSIS_TOP + 109.0, pen, 5);
  }

  /** The description, unlike the recommendation, keeps to its five-line budget inside its panel. */
  lemma DescriptionClipped(metrics: Metrics, data: Record, dy: real)
    ensures var d := DescriptionPanelCommands(metrics, data, dy)[3];
      d.TextLines? && |d.lines| <= 5 && d.lines <= metrics.splitText(Normal, 8.0, Field(data, "observations", "No observations recorded."), PANEL_WIDTH - 8.0)
  {
  }

  // ---------------------------------------------------------------------------
  // Drawing
  // ---------------------------------------------------------------------------

  method SideTab(doc: Doc, caption: string, y: real, h: real, captionY: real)
    modifies doc`fill, doc`pen, doc`log
    ensures doc.log == old(doc.log) + SideTabCommands(caption, y, h, captionY)
    ensures doc.pen == Pen(Bold, 7.0, DARK_BLUE)
  {
    doc.SetFillColor(LIGHT_GRAY);
    doc.FillRect(0.0, y, 8.0, h);
    doc.SetFont(Bold);
    doc.SetFontSize(7.0);
    doc.SetTextColor(DARK_BLUE);
    doc.DrawText(caption, 5.5, captionY, Left, 90);
  }

  method GeneralFrame(doc: Doc, y: real)
    modifies doc`fill, doc`stroke, doc`pen, doc`log
    ensures doc.log == old(doc.log) + GeneralFrameCommands(y)
  {
    SideTab(doc, "General Information", y, GENERAL_HEIGHT, y + 64.0);
    RoundedBox(doc, 10.0, y, BOX_WIDTH, GENERAL_HEIGHT, LIGHT_GRAY);
  }

  /** The status row and its badge, placed after the label measured in the row's value font. */
  method StatusRow(doc: Doc, data: Record, y: real)
    modifies doc`fill, doc`pen, doc`log
    ensures doc.log == old(doc.log) + StatusRowCommands(doc.metrics, data, y)
  {
    InfoRow(doc, "Status Condition", "", 110.0, y + 8.0, BLACK);
    var sc := StatusText(data);
    var _ := StatusBadge(doc, sc, 110.0 + doc.TextWidth("Status Condition: ") + 5.0, y + 9.0, StatusColor(sc));
  }

  /** The left half of the general section and the status badge. */
  method GeneralLeft(doc: Doc, data: Record, y: real)
    modifies doc`fill, doc`stroke, doc`pen, doc`log
    ensures doc.log == old(doc.log) + GeneralLeftCommands(doc.metrics, data, y)
  {
    ghost var before := doc.log;
    GeneralFrame(doc, y);
    var gx := 16.0;
    var gy := y + 8.0;
    InfoRow(doc, "Location", Field(data, "area", DASH), gx, gy, BLUE);
    gy := gy + 9.0;
    InfoRow(doc, "Asset & ID", AssetText(data), gx, gy, BLUE);
    StatusRow(doc, data, y);
    AppendFour(before, GeneralFrameCommands(y),
      InfoRowCommands(doc.metrics, "Location", Field(data, "area", DASH), 16.0, y + 8.0, BLUE),
      InfoRowCommands(doc.metrics, "Asset & ID", AssetText(data), 16.0, y + 17.0, BLUE),
      StatusRowCommands(doc.metrics, data, y));
  }

  /** Diagnosis, temperature and the risk row with its badge. */
  method GeneralMiddle(doc: Doc, data: Record, y: real)
    modifies doc`fill, doc`pen, doc`log
    ensures doc.log == old(doc.log) + GeneralMiddleCommands(doc.metrics, data, y)
  {
    var gx := 16.0;
    var gy := y + 26.0;
    InfoRow(doc, "Vibration Diagnosis", Field(data, "diagnosis", DASH), gx, gy, BLUE);
    InfoRow(doc, "Temperature", TemperatureText(data), 110.0, y + 17.0, ORANGE);
    gy := gy + 9.0;
    InfoRow(doc, "Risk", "", gx, gy, BLACK);
    var riskColor := RiskBadgeColor(data);
    var _ := StatusBadge(doc, RiskText(data), gx + doc.TextWidth("Risk: ") + 5.0, gy + 1.0, riskColor);
  }

  /** The id row and the vibration level. */
  method GeneralRight(doc: Doc, data: Record, formId: string, y: real)
    modifies doc`fill, doc`pen, doc`log
    ensures doc.log == old(doc.log) + GeneralRightCommands(doc.metrics, data, formId, y)
  {
    InfoRow(doc, "CMR", formId, 110.0, y + 26.0, DARK_BLUE);
    InfoRow(doc, "Vibration Level", VibrationText(data), 110.0, y + 35.0, ORANGE);
  }

  /** The general section; the cursor moves 74 down, 6 past the bottom of its 68-high box. */
  method GeneralSection(doc: Doc, data: Record, formId: string, y: real) returns (next: real)
    modifies doc`fill, doc`stroke, doc`pen, doc`log
    ensures doc.log == old(doc.log) + GeneralCommands(doc.metrics, data, formId, y)
    ensures next == y + 74.0 && next > y + GENERAL_HEIGHT
  {
    ghost var before := doc.log;
    GeneralLeft(doc, data, y);
    GeneralMiddle(doc, data, y);
    GeneralRight(doc, data, formId, y);
    AppendThree(before, GeneralLeftCommands(doc.metrics, data, y), GeneralMiddleCommands(doc.metrics, data, y),
      GeneralRightCommands(doc.metrics, data, formId, y));
    next := y + 74.0;
  }

  /**
   * A chart panel (the source writes it out twice, for the trend and for the spectrum): the box,
   * the bold caption, and the value in normal type after the caption measured in that normal font.
   */
  method Panel(doc: Doc, x: real, y: real, caption: string, value: string)
    modifies doc`fill, doc`stroke, doc`pen, doc`log
    ensures doc.log == old(doc.log) + PanelCommands(doc.metrics, x, y, caption, value)
  {
    RoundedBox(doc, x, y + 4.0, PANEL_WIDTH, 42.0, WHITE);
    doc.SetFont(Bold);
    doc.SetFontSize(8.0);
    doc.SetTextColor(DARK_BLUE);
    doc.DrawText(caption, x + 4.0, y + 12.0, Left, 0);
    doc.SetFont(Normal);
    doc.SetTextColor(BLUE);
    doc.DrawText(value, x + 4.0 + doc.TextWidth(caption), y + 12.0, Left, 0);
  }

  /** The tab, the box and the two chart panels. */
  method Charts(doc: Doc, data: Record, y: real)
    modifies doc`fill, doc`stroke, doc`pen, doc`log
    ensures doc.log == old(doc.log) + ChartsCommands(doc.metrics, data, y)
  {
    ghost var before := doc.log;
    SideTab(doc, "Vibration Diagnosis and Recommendation", y, DIAGNOSIS_HEIGHT, y + 128.0);
    RoundedBox(doc, 10.0, y, BOX_WIDTH, DIAGNOSIS_HEIGHT, LIGHT_GRAY);
    Panel(doc, 14.0, y, "Trend: ", Field(data, "trendLabel", "Vibration Trend"));
    Panel(doc, 103.0, y, "Spectrum: ", "Frequency Spectrum");
    AppendThree(before, DiagnosisFrameCommands(y),
      PanelCommands(doc.metrics, 14.0, y, "Trend: ", Field(data, "trendLabel", "Vibration Trend")),
      PanelCommands(doc.metrics, 103.0, y, "Spectrum: ", "Frequency Spectrum"));
  }

  method ImagePanel(doc: Doc, dy: real)
    modifies doc`fill, doc`stroke, doc`pen, doc`log
    ensures doc.log == old(doc.log) + ImagePanelCommands(dy)
  {
    RoundedBox(doc, 14.0, dy, PANEL_WIDTH, 44.0, WHITE);
    doc.SetFont(Bold);
    doc.SetFontSize(8.0);
    doc.SetTextColor(DARK_BLUE);
    doc.DrawText("Machine Image", 18.0, dy + 8.0, Left, 0);
    doc.SetFillColor(MID_GRAY);
    doc.FillRect(18.0, dy + 12.0, PANEL_WIDTH - 8.0, 26.0);
    doc.SetFont(Italic);
    doc.SetFontSize(7.0);
    doc.SetTextColor(DARK_GRAY);
    doc.DrawText("[ Photo Attachment ]", 18.0 + (PANEL_WIDTH - 8.0) / 2.0, dy + 27.0, Center, 0);
  }

  method DescriptionPanel(doc: Doc, data: Record, dy: real)
    modifies doc`fill, doc`stroke, doc`pen, doc`log
    ensures doc.log == old(doc.log) + DescriptionPanelCommands(doc.metrics, data, dy)
  {
    RoundedBox(doc, 103.0, dy, PANEL_WIDTH, 44.0, WHITE);
    Dot(doc, 107.0, dy + 8.0, RED);
    doc.SetFont(Bold);
    doc.SetFontSize(8.0);
    doc.SetTextColor(DARK_BLUE);
    doc.DrawText("Description", 111.0, dy + 8.0, Left, 0);
    doc.SetFont(Normal);
    doc.SetFontSize(8.0);
    doc.SetTextColor(BLACK);
    var descLines := doc.SplitText(Field(data, "observations", "No observations recorded."), PANEL_WIDTH - 8.0);
    doc.DrawLines(Take(descLines, 5), 107.0, dy + 16.0);
  }

  /** The recommendation heading at `dy` and every wrapped line of the recommendation, 6 apart from `dy + 7`. */
  method Recommendation(doc: Doc, data: Record, dy: real)
    modifies doc`fill, doc`pen, doc`log
    ensures doc.log == old(doc.log) + RecommendationCommands(doc.metrics, data, dy)
  {
    Dot(doc, 16.0, dy + 1.0, RED);
    doc.SetFont(Bold);
    doc.SetFontSize(9.0);
    doc.SetTextColor(DARK_BLUE);
    doc.DrawText("Recommendation", 21.0, dy + 1.5, Left, 0);
    var top := dy + 7.0;
    doc.SetFont(Normal);
    doc.SetFontSize(8.5);
    doc.SetTextColor(BLACK);
    var recLines := doc.SplitText(Field(data, "recommendation", "No recommendation provided."), PAGE_WIDTH - 36.0);
    DrawBullets(doc, recLines, 17.0, 22.0, top);
  }

  /** The photo placeholder and the description, side by side. */
  method PhotoRow(doc: Doc, data: Record, dy: real)
    modifies doc`fill, doc`stroke, doc`pen, doc`log
    ensures doc.log == old(doc.log) + PhotoRowCommands(doc.metrics, data, dy)
  {
    ImagePanel(doc, dy);
    DescriptionPanel(doc, data, dy);
  }

  /** The diagnosis section; the cursor moves 136 down, 6 past the bottom of its 130-high box. */
  method DiagnosisSection(doc: Doc, data: Record, y: real) returns (next: real)
    modifies doc`fill, doc`stroke, doc`pen, doc`log
    ensures doc.log == old(doc.log) + DiagnosisCommands(doc.metrics, data, y)
    ensures next == y + 136.0 && next > y + DIAGNOSIS_HEIGHT
  {
    ghost var before := doc.log;
    Charts(doc, data, y);
    var dy := y + 52.0;
    PhotoRow(doc, data, dy);
    dy := dy + 50.0;
    Recommendation(doc, data, dy);
    AppendThree(before, ChartsCommands(doc.metrics, data, y), PhotoRowCommands(doc.metrics, data, y + 52.0),
      RecommendationCommands(doc.metrics, data, y + 102.0));
    next := y + 136.0;
  }

  /** The report's body: the two sections and the signature block, the cursor going 42, 116, 252. */
  method DrawBody(doc: Doc, data: Record, formId: string, today: string)
    modifies doc`fill, doc`stroke, doc`pen, doc`log
    ensures doc.log == old(doc.log) + Body(doc.metrics, data, formId, today)
  {
    ghost var before := doc.log;
    var y := GENERAL_TOP;
    y := GeneralSection(doc, data, formId, y);
    assert y == DIAGNOSIS_TOP;
    y := DiagnosisSection(doc, data, y);
    assert y == SIGNATURE_RULE;
    SignatureBlock(doc, "Emitted by ", Field(data, "technicianName", BLANK_NAME), "Note Date ", Field(data, "date", today), y, 8.5);
    AppendThree(before, GeneralCommands(doc.metrics, data, formId, GENERAL_TOP), DiagnosisCommands(doc.metrics, data, DIAGNOSIS_TOP),
      SignatureRowsCommands(doc.metrics, data, today, SIGNATURE_RULE));
  }

  /**
   * `generateConditionMonitorPDF(data, millName)`, with `Math.random()` as `rand`, the current year as
   * `year`, and the locale timestamp and date as `stamp` and `today`. Returns the id it drew and saved under.
   */
  method Generate(data: Record, millName: string, metrics: Metrics, rand: real, year: nat, stamp: string, today: string)
    returns (formId: string, doc: Doc)
    requires 0.0 <= rand < 1.0
    ensures formId == DocId(ConditionMonitor, rand, year)
    ensures fresh(doc) && doc.metrics == metrics
    ensures doc.log == PageCommands(metrics, ConditionMonitor, millName, formId, stamp, Body(metrics, data, formId, today))
  {
    doc := new Doc(metrics);
    formId := ConditionMonitor.Prefix() + "-" + Serial3(Serial(rand)) + "-" + Text.Decimal(year);
    BeginPage(doc, ConditionMonitor, millName, formId);
    DrawBody(doc, data, formId, today);
    EndPage(doc, ConditionMonitor, millName, formId, stamp, Body(metrics, data, formId, today));
  }
}
