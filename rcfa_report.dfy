/**
 * `generateRCFAPDF(data, millName)`: the root-cause failure analysis. Below the header it draws a
 * 52-high box of event fields at y = 44, the "5 Whys Analysis" bar at y = 102 over five 16-high
 * answer rows 18 apart from y = 104, the root cause at y = 198, up to five lines of corrective actions
 * in a box at y = 222, and the signature line at y = 264.
 */
module RcfaReport {
  import opened Canvas
  import opened FormData
  import opened PdfGenerator
  import Text

  const INFO_TOP := 44.0
  const INFO_HEIGHT := 52.0
  const WHYS_BAR := 102.0
  const WHYS_TOP := 104.0
  /** Height of one answer row, and the distance from one row to the next. */
  const WHY_HEIGHT := 16.0
  const WHY_STEP := 18.0
  const ROOT_CAUSE_BAR := 198.0
  const ACTIONS_TOP := 222.0
  const ACTIONS_HEIGHT := 36.0
  const SIGNATURE_RULE := 264.0

  /** The fields answering "why?", in order. */
  const WHY_KEYS: seq<string> := ["why1", "why2", "why3", "why4", "why5"]

  /** `[data.why1, ..., data.why5]`, each as text or a dash. */
  function WhyAnswers(data: Record): (answers: seq<string>)
    ensures |answers| == |WHY_KEYS|
    ensures forall i | 0 <= i < |answers| :: answers[i] == Field(data, WHY_KEYS[i], DASH)
  {
    seq(|WHY_KEYS|, i requires 0 <= i < |WHY_KEYS| => Field(data, WHY_KEYS[i], DASH))
  }

  /** `` `WHY ${i + 1}` `` */
  function WhyLabel(i: nat): string {
    "WHY " + Text.Decimal(i + 1)
  }

  /** The five rows are labelled "WHY 1" to "WHY 5", each with a different label. */
  lemma WhyLabels()
    ensures [WhyLabel(0), WhyLabel(1), WhyLabel(2), WhyLabel(3), WhyLabel(4)] == ["WHY 1", "WHY 2", "WHY 3", "WHY 4", "WHY 5"]
    ensures forall i, j | 0 <= i < j < 5 :: WhyLabel(i) != WhyLabel(j)
  {
    forall i | 0 <= i < 5 ensures WhyLabel(i) == "WHY " + [Text.DECIMAL_DIGITS[i + 1]] {
      assert |Text.DECIMAL_DIGITS| == 10;
    }
    assert WhyLabel(0) == "WHY 1" && WhyLabel(1) == "WHY 2" && WhyLabel(2) == "WHY 3";
    assert WhyLabel(3) == "WHY 4" && WhyLabel(4) == "WHY 5";
    forall i, j | 0 <= i < j < 5 ensures WhyLabel(i) != WhyLabel(j) {
      assert WhyLabel(i)[4] == Text.DECIMAL_DIGITS[i + 1];
      assert WhyLabel(j)[4] == Text.DECIMAL_DIGITS[j + 1];
    }
  }

  /** Rows alternate: even rows (WHY 1, 3, 5) are shaded light grey, odd rows are white. */
  function Shade(i: nat): Rgb {
    if i % 2 == 0 then LIGHT_GRAY else WHITE
  }

  /** `wLines[0] || '—'`: the first wrapped line of an answer, or a dash when wrapping gave nothing. */
  function FirstLine(lines: seq<string>): (r: string)
    ensures r != ""
    ensures |lines| > 0 && lines[0] != "" ==> r == lines[0]
    ensures (|lines| == 0 || lines[0] == "") ==> r == DASH
  {
    OrDash(if |lines| > 0 then lines[0] else "")
  }

  /**
   * Row i, `18 i` below `top`: the shaded box, the blue tab with the centred white label, and the
   * first line of the answer wrapped to 164.
   */
  function WhyRow(metrics: Metrics, answer: string, i: nat, top: real): seq<Command> {
    var t := top + WHY_STEP * i as real;
    [BoxCommand(10.0, t, PAGE_WIDTH - 20.0, WHY_HEIGHT, Shade(i)),
     RoundedRect(10.0, t, 22.0, WHY_HEIGHT, 1.0, Fill, BLUE),
     Text(WhyLabel(i), 21.0, t + 10.0, Pen(Bold, 9.0, WHITE), Center, 0),
     Text(FirstLine(metrics.splitText(Normal, 9.0, answer, PAGE_WIDTH - 46.0)), 36.0, t + 10.0, Pen(Normal, 9.0, BLACK), Left, 0)]
  }

  /** What `whys.forEach((why, i) => ...)` draws. */
  function Whys(metrics: Metrics, answers: seq<string>, top: real): seq<Command>
    decreases |answers|
  {
    if answers == [] then []
    else Whys(metrics, answers[..|answers| - 1], top) + WhyRow(metrics, answers[|answers| - 1], |answers| - 1, top)
  }

  /** Five answers make twenty commands: four per row. */
  lemma {:induction false} WhysLength(metrics: Metrics, answers: seq<string>, top: real)
    ensures |Whys(metrics, answers, top)| == 4 * |answers|
    decreases |answers|
  {
    if answers != [] {
      WhysLength(metrics, answers[..|answers| - 1], top);
    }
  }

  /** Answer i is drawn as commands 4i to 4i + 3, in its own row. */
  lemma {:induction false} WhysAt(metrics: Metrics, answers: seq<string>, top: real, i: nat)
    requires i < |answers|
    ensures |Whys(metrics, answers, top)| == 4 * |answers|
    ensures Whys(metrics, answers, top)[4 * i .. 4 * i + 4] == WhyRow(metrics, answers[i], i, top)
    decreases |answers|
  {
    WhysLength(metrics, answers, top);
    var n := |answers| - 1;
    var init := answers[..n];
    var front := Whys(metrics, init, top);
    var row := WhyRow(metrics, answers[n], n, top);
    assert Whys(metrics, answers, top) == front + row;
    WhysLength(metrics, init, top);
    RowSlice(front, row, n, i);
    if i < n {
      WhysAt(metrics, init, top, i);
      assert init[i] == answers[i];
    }
  }

  /** The four commands at row i of `front + row`, where `front` holds n rows and `row` one more. */
  lemma RowSlice(front: seq<Command>, row: seq<Command>, n: nat, i: nat)
    requires |front| == 4 * n && |row| == 4 && i <= n
    ensures i < n ==> (front + row)[4 * i .. 4 * i + 4] == front[4 * i .. 4 * i + 4]
    ensures i == n ==> (front + row)[4 * i .. 4 * i + 4] == row
  {
    if i < n {
      SliceOfFront(front, row, 4 * i, 4 * i + 4);
    } else {
      SliceOfBack(front, row);
    }
  }

  /**
   * Each row's box lies 2 below the previous one's bottom, and the label and the answer sit inside
   * their row's box on its baseline `t + 10`. Rows alternate light grey (WHY 1, 3, 5) and white,
   * each with a blue tab carrying its white label.
   */
  lemma WhyRowLayout(metrics: Metrics, answer: string, i: nat, top: real)
    ensures var r := WhyRow(metrics, answer, i, top);
      var t := top + WHY_STEP * i as real;
      && r[0].y == t && r[0].y + r[0].h + 2.0 == top + WHY_STEP * (i + 1) as real
      && r[2].content == WhyLabel(i) && r[2].align == Center
      && t < r[2].y == r[3].y < t + WHY_HEIGHT
      && r[3].content != ""
    ensures var r := WhyRow(metrics, answer, i, top);
      r[0].RoundedRect? && r[0].fill == (if i % 2 == 0 then LIGHT_GRAY else WHITE)
      && r[1].RoundedRect? && r[1].fill == BLUE && r[2].pen.color == WHITE
  {
  }

  // ---------------------------------------------------------------------------
  // Layout
  // ---------------------------------------------------------------------------

  /** The box and the first two lines of fields: event date and work order, analyst and area. */
  function InfoTopCommands(metrics: Metrics, data: Record): seq<Command> {
    [BoxCommand(10.0, INFO_TOP, PAGE_WIDTH - 20.0, INFO_HEIGHT, LIGHT_GRAY)]
    + RowPairCommands(metrics, "Event Date", Field(data, "eventDate", DASH), "Work Order #", Field(data, "woNumber", DASH), 52.0, DARK_BLUE)
    + RowPairCommands(metrics, "Analyst", Field(data, "analystName", DASH), "Area", Field(data, "area", DASH), 61.0, DARK_BLUE)
  }

  /** The failed component and asset id, then the problem description in black. */
  function InfoBottomCommands(metrics: Metrics, data: Record): seq<Command> {
    RowPairCommands(metrics, "Failed Component", Field(data, "failedComponent", DASH), "Asset ID", Field(data, "assetId", DASH), 70.0, BLUE)
    + InfoRowCommands(metrics, "Problem Description", Field(data, "problemDescription", DASH), 16.0, 79.0, BLACK)
  }

  function InfoCommands(metrics: Metrics, data: Record): (cmds: seq<Command>)
    ensures |cmds| == 22
  {
    InfoTopCommands(metrics, data) + InfoBottomCommands(metrics, data)
  }

  /** The "5 Whys Analysis" bar and the five rows. */
  function WhysSectionCommands(metrics: Metrics, data: Record): seq<Command> {
    SectionBarCommands("5 Whys Analysis", 14.0, WHYS_BAR, DARK_BLUE) + Whys(metrics, WhyAnswers(data), WHYS_TOP)
  }

  /** The root cause bar, its 16-high box and the root cause in red on the box's baseline 210. */
  function RootCauseCommands(metrics: Metrics, data: Record): seq<Command> {
    SectionBarCommands("Root Cause & Corrective Actions", 14.0, ROOT_CAUSE_BAR, DARK_BLUE)
    + [BoxCommand(10.0, ROOT_CAUSE_BAR + 2.0, PAGE_WIDTH - 20.0, 16.0, LIGHT_GRAY)]
    + InfoRowCommands(metrics, "Root Cause", Field(data, "rootCause", DASH), 16.0, ROOT_CAUSE_BAR + 12.0, RED)
  }

  /** The pen the root cause row leaves current, in which the corrective actions are wrapped and drawn. */
  const ACTIONS_PEN := Pen(Normal, 9.0, RED)

  /** The corrective actions, wrapped to 178 and clipped to five lines. */
  function ActionLines(metrics: Metrics, data: Record): (lines: seq<string>)
    ensures |lines| <= 5
  {
    Take(metrics.splitText(ACTIONS_PEN.style, ACTIONS_PEN.size, Field(data, "correctiveActions", DASH), TEXT_WIDTH), 5)
  }

  /** The white box at 222 and the bulleted actions from 230. */
  function ActionsCommands(metrics: Metrics, data: Record): seq<Command> {
    [BoxCommand(10.0, ACTIONS_TOP, PAGE_WIDTH - 20.0, ACTIONS_HEIGHT, WHITE)]
    + Bullets(ActionLines(metrics, data), 16.0, 21.0, ACTIONS_TOP + 8.0, ACTIONS_PEN)
  }

  /** The analyst (a blank when unnamed) and the event date. */
  function SignatureRowsCommands(metrics: Metrics, data: Record): (cmds: seq<Command>)
    ensures |cmds| == 7
  {
    SignatureBlockCommands(metrics, "Analyst: ", Field(data, "analystName", BLANK_NAME), "Date: ", Field(data, "eventDate", DASH), SIGNATURE_RULE, 9.0)
  }

  /** Root cause, actions and signatures. */
  function ClosingCommands(metrics: Metrics, data: Record): seq<Command> {
    RootCauseCommands(metrics, data) + ActionsCommands(metrics, data) + SignatureRowsCommands(metrics, data)
  }

  function Body(metrics: Metrics, data: Record): seq<Command> {
    InfoCommands(metrics, data) + WhysSectionCommands(metrics, data) + ClosingCommands(metrics, data)
  }

  // ---------------------------------------------------------------------------
  // Properties
  // ---------------------------------------------------------------------------

  /**
   * The body holds the five answer rows in order, right after the field box and the section bar:
   * answer i (the field `why{i+1}`, or a dash) is commands 24 + 4i to 27 + 4i.
   */
  lemma WhysInBody(metrics: Metrics, data: Record, i: nat)
    requires i < 5
    ensures var b := Body(metrics, data);
      |b| >= 44 && b[24 + 4 * i .. 28 + 4 * i] == WhyRow(metrics, Field(data, WHY_KEYS[i], DASH), i, WHYS_TOP)
  {
    var answers := WhyAnswers(data);
    WhysAt(metrics, answers, WHYS_TOP, i);
    var w := Whys(metrics, answers, WHYS_TOP);
    var info := InfoCommands(metrics, data);
    var bar := SectionBarCommands("5 Whys Analysis", 14.0, WHYS_BAR, DARK_BLUE);
    var b := info + (bar + w) + ClosingCommands(metrics, data);
    assert Body(metrics, data) == b;
    assert b[24 + 4 * i .. 28 + 4 * i] == w[4 * i .. 4 * i + 4];
  }

  /**
   * The sections stack without overlap: the last answer row ends above the root cause bar, the root
   * cause box above the actions box, and the clipped actions stay inside their box above the rule.
   */
  lemma {:induction false} ClosingFits(metrics: Metrics, data: Record)
    ensures WHYS_TOP + WHY_STEP * 4.0 + WHY_HEIGHT < ROOT_CAUSE_BAR
    ensures ROOT_CAUSE_BAR + 2.0 + 16.0 < ACTIONS_TOP
    ensures var a := ActionsCommands(metrics, data);
      InBand(a[1..], ACTIONS_TOP + 8.0, ACTIONS_TOP + ACTIONS_HEIGHT) && ACTIONS_TOP + ACTIONS_HEIGHT < SIGNATURE_RULE
  {
    var all := metrics.splitText(ACTIONS_PEN.style, ACTIONS_PEN.size, Field(data, "correctiveActions", DASH), TEXT_WIDTH);
    ClippedFits(all, 5, 16.0, 21.0, ACTIONS_TOP, ACTIONS_HEIGHT, ACTIONS_PEN);
    var a := ActionsCommands(metrics, data);
    assert a[1..] == Bullets(ActionLines(metrics, data), 16.0, 21.0, ACTIONS_TOP + 8.0, ACTIONS_PEN);
  }

  /** The corrective actions come out in red: line i is drawn in the root cause value's normal red pen. */
  lemma ActionsInRed(metrics: Metrics, data: Record, i: nat)
    requires i < |ActionLines(metrics, data)|
    ensures var a := ActionsCommands(metrics, data);
      |a| == 1 + 2 * |ActionLines(metrics, data)| && a[2 * i + 2] == Text(ActionLines(metrics, data)[i], 21.0, ACTIONS_TOP + 8.0 + 6.0 * i as real, Pen(Normal, 9.0, RED), Left, 0)
  {
    BulletsAt(ActionLines(metrics, data), 16.0, 21.0, ACTIONS_TOP + 8.0, ACTIONS_PEN, i);
  }

  // ---------------------------------------------------------------------------
  // Drawing
  // ---------------------------------------------------------------------------

  /** One answer row; leaves normal 9-point black current. */
  method WhyRowDraw(doc: Doc, answer: string, i: nat, top: real)
    modifies doc`fill, doc`stroke, doc`pen, doc`log
    ensures doc.log == old(doc.log) + WhyRow(doc.metrics, answer, i, top)
  {
    var t := top + WHY_STEP * i as real;
    RoundedBox(doc, 10.0, t, PAGE_WIDTH - 20.0, WHY_HEIGHT, if i % 2 == 0 then LIGHT_GRAY else WHITE);
    doc.SetFillColor(BLUE);
    doc.RoundedRectangle(10.0, t, 22.0, WHY_HEIGHT, 1.0, false);
    doc.SetFont(Bold);
    doc.SetFontSize(9.0);
    doc.SetTextColor(WHITE);
    doc.DrawText(WhyLabel(i), 21.0, t + 10.0, Center, 0);
    doc.SetFont(Normal);
    doc.SetFontSize(9.0);
    doc.SetTextColor(BLACK);
    var lines := doc.SplitText(answer, PAGE_WIDTH - 46.0);
    doc.DrawText(FirstLine(lines), 36.0, t + 10.0, Left, 0);
  }

  /** The `forEach` over the answers; the cursor ends 18 below the top per row. */
  method DrawWhys(doc: Doc, answers: seq<string>, top: real) returns (next: real)
    modifies doc`fill, doc`stroke, doc`pen, doc`log
    ensures doc.log == old(doc.log) + Whys(doc.metrics, answers, top)
    ensures next == top + WHY_STEP * |answers| as real
  {
    var i := 0;
    while i < |answers|
      invariant 0 <= i <= |answers|
      invariant doc.log == old(doc.log) + Whys(doc.metrics, answers[..i], top)
    {
      WhyRowDraw(doc, answers[i], i, top);
      assert answers[..i + 1][..i] == answers[..i];
      i := i + 1;
    }
    assert answers[..i] == answers;
    next := top + WHY_STEP * |answers| as real;
  }

  method Info(doc: Doc, data: Record)
    modifies doc`fill, doc`stroke, doc`pen, doc`log
    ensures doc.log == old(doc.log) + InfoCommands(doc.metrics, data)
  {
    ghost var before := doc.log;
    RoundedBox(doc, 10.0, INFO_TOP, PAGE_WIDTH - 20.0, INFO_HEIGHT, LIGHT_GRAY);
    RowPair(doc, "Event Date", Field(data, "eventDate", DASH), "Work Order #", Field(data, "woNumber", DASH), 52.0, DARK_BLUE);
    RowPair(doc, "Analyst", Field(data, "analystName", DASH), "Area", Field(data, "area", DASH), 61.0, DARK_BLUE);
    assert doc.log == before + InfoTopCommands(doc.metrics, data);
    RowPair(doc, "Failed Component", Field(data, "failedComponent", DASH), "Asset ID", Field(data, "assetId", DASH), 70.0, BLUE);
    InfoRow(doc, "Problem Description", Field(data, "problemDescription", DASH), 16.0, 79.0, BLACK);
    AppendThree(before, InfoTopCommands(doc.metrics, data),
      RowPairCommands(doc.metrics, "Failed Component", Field(data, "failedComponent", DASH), "Asset ID", Field(data, "assetId", DASH), 70.0, BLUE),
      InfoRowCommands(doc.metrics, "Problem Description", Field(data, "problemDescription", DASH), 16.0, 79.0, BLACK));
  }

  /** The whys section; returns the cursor 2 below the last row (194). */
  method WhysSection(doc: Doc, data: Record) returns (next: real)
    modifies doc`fill, doc`stroke, doc`pen, doc`log
    ensures doc.log == old(doc.log) + WhysSectionCommands(doc.metrics, data)
    ensures next == 194.0
  {
    var _ := SectionBar(doc, "5 Whys Analysis", 14.0, WHYS_BAR, DARK_BLUE);
    next := DrawWhys(doc, WhyAnswers(data), WHYS_BAR + 2.0);
  }

  /** The root cause section at `y`; leaves the root cause's normal red pen current. */
  method RootCause(doc: Doc, data: Record, y: real)
    requires y == ROOT_CAUSE_BAR
    modifies doc`fill, doc`stroke, doc`pen, doc`log
    ensures doc.log == old(doc.log) + RootCauseCommands(doc.metrics, data)
    ensures doc.pen == ACTIONS_PEN
  {
    var _ := SectionBar(doc, "Root Cause & Corrective Actions", 14.0, y, DARK_BLUE);
    var top := y + 2.0;
    RoundedBox(doc, 10.0, top, PAGE_WIDTH - 20.0, 16.0, LIGHT_GRAY);
    InfoRow(doc, "Root Cause", Field(data, "rootCause", DASH), 16.0, top + 10.0, RED);
  }

  /** The corrective actions, wrapped and drawn in whatever pen is current (the root cause's). */
  method Actions(doc: Doc, data: Record)
    requires doc.pen == ACTIONS_PEN
    modifies doc`fill, doc`stroke, doc`log
    ensures doc.log == old(doc.log) + ActionsCommands(doc.metrics, data)
  {
    RoundedBox(doc, 10.0, ACTIONS_TOP, PAGE_WIDTH - 20.0, ACTIONS_HEIGHT, WHITE);
    var lines := doc.SplitText(Field(data, "correctiveActions", DASH), TEXT_WIDTH);
    DrawBullets(doc, Take(lines, 5), 16.0, 21.0, ACTIONS_TOP + 8.0);
  }

  method Closing(doc: Doc, data: Record, y: real)
    requires y == ROOT_CAUSE_BAR
    modifies doc`fill, doc`stroke, doc`pen, doc`log
    ensures doc.log == old(doc.log) + ClosingCommands(doc.metrics, data)
  {
    ghost var before := doc.log;
    RootCause(doc, data, y);
    Actions(doc, data);
    SignatureBlock(doc, "Analyst: ", Field(data, "analystName", BLANK_NAME), "Date: ", Field(data, "eventDate", DASH), SIGNATURE_RULE, 9.0);
    AppendThree(before, RootCauseCommands(doc.metrics, data), ActionsCommands(doc.metrics, data), SignatureRowsCommands(doc.metrics, data));
  }

  method DrawBody(doc: Doc, data: Record)
    modifies doc`fill, doc`stroke, doc`pen, doc`log
    ensures doc.log == old(doc.log) + Body(doc.metrics, data)
  {
    ghost var before := doc.log;
    Info(doc, data);
    var y := WhysSection(doc, data);
    y := y + 4.0;
    Closing(doc, data, y);
    AppendThree(before, InfoCommands(doc.metrics, data), WhysSectionCommands(doc.metrics, data), ClosingCommands(doc.metrics, data));
  }

  /**
   * `generateRCFAPDF(data, millName)`, with `Math.random()` as `rand`, the current year as `year` and
   * the footer's timestamp as `stamp`. Returns the id it drew and saved under.
   */
  method Generate(data: Record, millName: string, metrics: Metrics, rand: real, year: nat, stamp: string)
    returns (formId: string, doc: Doc)
    requires 0.0 <= rand < 1.0
    ensures formId == DocId(Rcfa, rand, year)
    ensures fresh(doc) && doc.metrics == metrics
    ensures doc.log == PageCommands(metrics, Rcfa, millName, formId, stamp, Body(metrics, data))
  {
    doc := new Doc(metrics);
    formId := Rcfa.Prefix() + "-" + Serial3(Serial(rand)) + "-" + Text.Decimal(year);
    BeginPage(doc, Rcfa, millName, formId);
    DrawBody(doc, data);
    EndPage(doc, Rcfa, millName, formId, stamp, Body(metrics, data));
  }
}
