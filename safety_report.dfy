/**
 * `generateSafetyPDF(data, millName)`: the job safety analysis. Below the header it draws a 44-high
 * box of job fields at y = 44, the PPE checklist (eight items in a four-column grid) in a box at
 * y = 96, the hazards at y = 146 and the control measures at y = 186 (four lines each), the
 * employee and supervisor sign-off at y = 226 and the dated line at y = 250.
 */
module SafetyReport {
  import opened Canvas
  import opened FormData
  import opened PdfGenerator
  import Text

  const INFO_TOP := 44.0
  const INFO_HEIGHT := 44.0
  const PPE_BAR := 94.0
  const PPE_TOP := 96.0
  const PPE_HEIGHT := 44.0
  const HAZARDS_BAR := 146.0
  const CONTROLS_BAR := 186.0
  const SECTION_HEIGHT := 32.0
  const SIGN_OFF_BAR := 226.0
  const DATE_RULE := 250.0

  // ---------------------------------------------------------------------------
  // PPE checklist
  // ---------------------------------------------------------------------------

  /** A checklist entry: the record field holding the check box and the caption printed beside it. */
  datatype PpeItem = PpeItem(key: string, caption: string)

  /** The checklist, in the order it is drawn (left to right, then the second row). */
  const PPE_ITEMS: seq<PpeItem> := [
    PpeItem("hardHat", "Hard Hat"),
    PpeItem("safetyGlasses", "Safety Glasses"),
    PpeItem("steelToeBoots", "Steel Toe Boots"),
    PpeItem("highVisVest", "High Vis Vest"),
    PpeItem("hearingProtection", "Hearing Protection"),
    PpeItem("gloves", "Gloves"),
    PpeItem("fallProtection", "Fall Protection"),
    PpeItem("faceShield", "Face Shield")]

  const COLUMNS := 4
  const CHECK_MARK := "✓"

  /** `16 + (i % 4) * 47`: the left edge of item i's tick box. */
  function PpeX(i: nat): real {
    16.0 + 47.0 * (i % COLUMNS) as real
  }

  /** `top + 10 + Math.floor(i / 4) * 14`: the baseline of item i's caption. */
  function PpeY(top: real, i: nat): real {
    top + 10.0 + 14.0 * (i / COLUMNS) as real
  }

  /** `!!data[item.key]`. */
  predicate Checked(data: Record, item: PpeItem) {
    Truthy(Get(data, item.key))
  }

  /** The caption's pen: bold green when checked, normal dark grey otherwise. */
  function LabelPen(checked: bool): Pen {
    if checked then Pen(Bold, 8.5, GREEN) else Pen(Normal, 8.5, DARK_GRAY)
  }

  /** Item i: a 5 x 5 tick box (green when checked, grey otherwise), a white tick only when checked, and the caption. */
  function PpeItemCommands(caption: string, i: nat, checked: bool, top: real): seq<Command> {
    var px := PpeX(i);
    var py := PpeY(top, i);
    [RoundedRect(px, py - 4.0, 5.0, 5.0, 1.0, Fill, if checked then GREEN else MID_GRAY)]
    + (if checked then [Text(CHECK_MARK, px + 0.8, py, Pen(Bold, 6.0, WHITE), Left, 0)] else [])
    + [Text(caption, px + 7.0, py, LabelPen(checked), Left, 0)]
  }

  /** What `ppeItems.forEach((item, i) => ...)` draws for the given items. */
  function PpeGrid(data: Record, items: seq<PpeItem>, top: real): seq<Command>
    decreases |items|
  {
    if items == [] then []
    else
      var n := |items| - 1;
      PpeGrid(data, items[..n], top) + PpeItemCommands(items[n].caption, n, Checked(data, items[n]), top)
  }

  /** How many of the items are checked. */
  function CheckedCount(data: Record, items: seq<PpeItem>): (n: nat)
    ensures n <= |items|
    decreases |items|
  {
    if items == [] then 0
    else CheckedCount(data, items[..|items| - 1]) + (if Checked(data, items[|items| - 1]) then 1 else 0)
  }

  /** Is `cmds[k]` a tick? */
  predicate IsTick(cmds: seq<Command>, k: nat) {
    k < |cmds| && cmds[k].Text? && cmds[k].content == CHECK_MARK
  }

  /** An item draws a tick exactly when it is checked (no caption is itself a tick), its box green exactly then. */
  lemma PpeItemMarks(caption: string, i: nat, checked: bool, top: real)
    requires caption != CHECK_MARK
    ensures var c := PpeItemCommands(caption, i, checked, top);
      && |c| == (if checked then 3 else 2)
      && ((exists k :: IsTick(c, k)) <==> checked)
      && (c[0].fill == GREEN <==> checked)
      && c[|c| - 1] == Text(caption, PpeX(i) + 7.0, PpeY(top, i), LabelPen(checked), Left, 0)
  {
    var c := PpeItemCommands(caption, i, checked, top);
    if checked {
      assert IsTick(c, 1);
    } else {
      forall k ensures !IsTick(c, k) {
        if k == 1 {
          assert c[1].content == caption;
        }
      }
    }
  }

  /** The grid draws two commands per item and one more per ticked item. */
  lemma {:induction false} PpeGridLength(data: Record, items: seq<PpeItem>, top: real)
    ensures |PpeGrid(data, items, top)| == 2 * |items| + CheckedCount(data, items)
    decreases |items|
  {
    if items != [] {
      PpeGridLength(data, items[..|items| - 1], top);
    }
  }

  /** Every item's caption is drawn, at its own cell and in the pen that shows whether it is checked. */
  lemma {:induction false} PpeLabelDrawn(data: Record, items: seq<PpeItem>, top: real, i: nat)
    requires i < |items|
    ensures Text(items[i].caption, PpeX(i) + 7.0, PpeY(top, i), LabelPen(Checked(data, items[i])), Left, 0) in PpeGrid(data, items, top)
    decreases |items|
  {
    var n := |items| - 1;
    var front := PpeGrid(data, items[..n], top);
    var item := PpeItemCommands(items[n].caption, n, Checked(data, items[n]), top);
    if i < n {
      PpeLabelDrawn(data, items[..n], top, i);
      assert items[..n][i] == items[i];
      assert forall c :: c in front ==> c in front + item;
    } else {
      assert item[|item| - 1] in front + item;
    }
  }

  /**
   * The eight cells are pairwise distinct and all lie inside the 190 x 44 checklist box that starts
   * at `top`: columns 47 apart from x = 16, rows 14 apart.
   */
  lemma PpeCells(top: real)
    ensures forall i, j | 0 <= i < j < |PPE_ITEMS| :: PpeX(i) != PpeX(j) || PpeY(top, i) != PpeY(top, j)
    ensures forall i | 0 <= i < |PPE_ITEMS| ::
      10.0 < PpeX(i) && PpeX(i) + 5.0 < PAGE_WIDTH - 10.0 && top < PpeY(top, i) - 4.0 && PpeY(top, i) < top + PPE_HEIGHT
  {
    forall i, j | 0 <= i < j < |PPE_ITEMS| ensures PpeX(i) != PpeX(j) || PpeY(top, i) != PpeY(top, j) {
      if i / COLUMNS == j / COLUMNS {
        assert i % COLUMNS != j % COLUMNS;
      }
    }
  }

  // ---------------------------------------------------------------------------
  // Layout
  // ---------------------------------------------------------------------------

  /** The job box: date and area, employee and supervisor, then the job task. */
  function InfoCommands(metrics: Metrics, data: Record): seq<Command> {
    [BoxCommand(10.0, INFO_TOP, PAGE_WIDTH - 20.0, INFO_HEIGHT, LIGHT_GRAY)]
    + RowPairCommands(metrics, "Date", Field(data, "date", DASH), "Area / Location", Field(data, "area", DASH), 52.0, DARK_BLUE)
    + RowPairCommands(metrics, "Employee", Field(data, "employeeName", DASH), "Supervisor", Field(data, "supervisor", DASH), 61.0, DARK_BLUE)
    + InfoRowCommands(metrics, "Task Description", Field(data, "taskDescription", DASH), 16.0, 70.0, BLUE)
  }

  /** The checklist bar, its box and the grid. */
  function PpeCommands(data: Record): seq<Command> {
    SectionBarCommands("PPE Checklist", 14.0, PPE_BAR, DARK_BLUE)
    + [BoxCommand(10.0, PPE_TOP, PAGE_WIDTH - 20.0, PPE_HEIGHT, LIGHT_GRAY)]
    + PpeGrid(data, PPE_ITEMS, PPE_TOP)
  }

  /** "Hazards Identified": "None identified." when empty, in the section bar's pen. */
  function HazardsCommands(metrics: Metrics, data: Record): seq<Command> {
    BulletSectionCommands(metrics, "Hazards Identified", HAZARDS_BAR, SECTION_HEIGHT, Field(data, "hazards", "None identified."), 4, false)
  }

  /** "Control Measures", in the section bar's pen. */
  function ControlsCommands(metrics: Metrics, data: Record): seq<Command> {
    BulletSectionCommands(metrics, "Control Measures", CONTROLS_BAR, SECTION_HEIGHT, Field(data, "controlMeasures", DASH), 4, false)
  }

  /** The two signature rules at 244, under the employee's and the supervisor's halves. */
  const SIGN_OFF_RULES := [Line(16.0, 244.0, 90.0, 244.0, MID_GRAY), Line(110.0, 244.0, 184.0, 244.0, MID_GRAY)]

  /** The two captions at 232, each after a red dot. */
  const SIGN_OFF_CAPTIONS := [
    Circle(16.0, 232.0, 1.5, RED), Text("Employee Signature", 21.0, 232.0, Pen(Bold, 9.0, DARK_GRAY), Left, 0),
    Circle(110.0, 232.0, 1.5, RED), Text("Supervisor Signature", 115.0, 232.0, Pen(Bold, 9.0, DARK_GRAY), Left, 0)]

  /** The names at 241, in bold blue, left blank when missing. */
  function SignOffNamesCommands(data: Record): seq<Command> {
    [Text(Field(data, "employeeName", ""), 16.0, 241.0, Pen(Bold, 8.0, BLUE), Left, 0),
     Text(Field(data, "supervisor", ""), 110.0, 241.0, Pen(Bold, 8.0, BLUE), Left, 0)]
  }

  /** The sign-off section: its bar, the rules, the captions and the names. */
  function SignOffCommands(data: Record): seq<Command> {
    SectionBarCommands("Sign-off", 14.0, SIGN_OFF_BAR, DARK_BLUE) + SIGN_OFF_RULES + SIGN_OFF_CAPTIONS + SignOffNamesCommands(data)
  }

  /** The rule at 250 and the date line under it. */
  function DateLineCommands(metrics: Metrics, data: Record): seq<Command> {
    [Line(14.0, DATE_RULE, PAGE_WIDTH - 14.0, DATE_RULE, MID_GRAY)]
    + SignatureCommands(metrics, "Date: ", Field(data, "date", DASH), 21.0, DATE_RULE + 6.0, 9.0)
  }

  /** Hazards, controls, sign-off and date. */
  function LowerCommands(metrics: Metrics, data: Record): seq<Command> {
    HazardsCommands(metrics, data) + ControlsCommands(metrics, data) + SignOffCommands(data) + DateLineCommands(metrics, data)
  }

  function Body(metrics: Metrics, data: Record): seq<Command> {
    InfoCommands(metrics, data) + PpeCommands(data) + LowerCommands(metrics, data)
  }

  // ---------------------------------------------------------------------------
  // Properties
  // ---------------------------------------------------------------------------

  /**
   * The checklist shows one tick per checked item: the body draws 2 commands per item plus one per
   * checked item inside the checklist, between the field box and the hazards section.
   */
  lemma TicksCountChecked(metrics: Metrics, data: Record)
    ensures |PpeCommands(data)| == 3 + 2 * |PPE_ITEMS| + CheckedCount(data, PPE_ITEMS)
  {
    PpeGridLength(data, PPE_ITEMS, PPE_TOP);
  }

  /**
   * The two paragraphs stay inside their boxes, and the boxes end before the next bar: hazards between
   * 156 and 180, controls between 196 and 220, the sign-off bar at 226.
   */
  lemma {:induction false} ParagraphsFit(metrics: Metrics, data: Record)
    ensures var h := HazardsCommands(metrics, data);
      InBand(h[3..], HAZARDS_BAR + 10.0, HAZARDS_BAR + 2.0 + SECTION_HEIGHT) && HAZARDS_BAR + 2.0 + SECTION_HEIGHT < CONTROLS_BAR
    ensures var c := ControlsCommands(metrics, data);
      InBand(c[3..], CONTROLS_BAR + 10.0, CONTROLS_BAR + 2.0 + SECTION_HEIGHT) && CONTROLS_BAR + 2.0 + SECTION_HEIGHT < SIGN_OFF_BAR
  {
    BulletSectionFits(metrics, "Hazards Identified", HAZARDS_BAR, SECTION_HEIGHT, Field(data, "hazards", "None identified."), 4, false);
    BulletSectionFits(metrics, "Control Measures", CONTROLS_BAR, SECTION_HEIGHT, Field(data, "controlMeasures", DASH), 4, false);
  }

  // ---------------------------------------------------------------------------
  // Drawing
  // ---------------------------------------------------------------------------

  /** One checklist item. */
  method DrawPpeItem(doc: Doc, caption: string, i: nat, checked: bool, top: real)
    modifies doc`fill, doc`pen, doc`log
    ensures doc.log == old(doc.log) + PpeItemCommands(caption, i, checked, top)
  {
    ghost var before := doc.log;
    var px := PpeX(i);
    var py := PpeY(top, i);
    doc.SetFillColor(if checked then GREEN else MID_GRAY);
    doc.RoundedRectangle(px, py - 4.0, 5.0, 5.0, 1.0, false);
    if checked {
      doc.SetFont(Bold);
      doc.SetFontSize(6.0);
      doc.SetTextColor(WHITE);
      doc.DrawText(CHECK_MARK, px + 0.8, py, Left, 0);
    }
    doc.SetFont(if checked then Bold else Normal);
    doc.SetFontSize(8.5);
    doc.SetTextColor(if checked then GREEN else DARK_GRAY);
    doc.DrawText(caption, px + 7.0, py, Left, 0);
  }

  /** The `forEach` over the checklist. */
  method DrawPpeGrid(doc: Doc, data: Record, items: seq<PpeItem>, top: real)
    modifies doc`fill, doc`pen, doc`log
    ensures doc.log == old(doc.log) + PpeGrid(data, items, top)
  {
    var i := 0;
    while i < |items|
      invariant 0 <= i <= |items|
      invariant doc.log == old(doc.log) + PpeGrid(data, items[..i], top)
    {
      var item := items[i];
      DrawPpeItem(doc, item.caption, i, Truthy(Get(data, item.key)), top);
      assert items[..i + 1][..i] == items[..i];
      assert PpeGrid(data, items[..i + 1], top) == PpeGrid(data, items[..i], top) + PpeItemCommands(item.caption, i, Checked(data, item), top);
      i := i + 1;
    }
    assert items[..i] == items;
  }

  method Info(doc: Doc, data: Record)
    modifies doc`fill, doc`stroke, doc`pen, doc`log
    ensures doc.log == old(doc.log) + InfoCommands(doc.metrics, data)
  {
    ghost var before := doc.log;
    RoundedBox(doc, 10.0, INFO_TOP, PAGE_WIDTH - 20.0, INFO_HEIGHT, LIGHT_GRAY);
    RowPair(doc, "Date", Field(data, "date", DASH), "Area / Location", Field(data, "area", DASH), 52.0, DARK_BLUE);
    RowPair(doc, "Employee", Field(data, "employeeName", DASH), "Supervisor", Field(data, "supervisor", DASH), 61.0, DARK_BLUE);
    InfoRow(doc, "Task Description", Field(data, "taskDescription", DASH), 16.0, 70.0, BLUE);
    AppendFour(before, [BoxCommand(10.0, INFO_TOP, PAGE_WIDTH - 20.0, INFO_HEIGHT, LIGHT_GRAY)],
      RowPairCommands(doc.metrics, "Date", Field(data, "date", DASH), "Area / Location", Field(data, "area", DASH), 52.0, DARK_BLUE),
      RowPairCommands(doc.metrics, "Employee", Field(data, "employeeName", DASH), "Supervisor", Field(data, "supervisor", DASH), 61.0, DARK_BLUE),
      InfoRowCommands(doc.metrics, "Task Description", Field(data, "taskDescription", DASH), 16.0, 70.0, BLUE));
  }

  method Ppe(doc: Doc, data: Record)
    modifies doc`fill, doc`stroke, doc`pen, doc`log
    ensures doc.log == old(doc.log) + PpeCommands(data)
  {
    ghost var before := doc.log;
    var _ := SectionBar(doc, "PPE Checklist", 14.0, PPE_BAR, DARK_BLUE);
    RoundedBox(doc, 10.0, PPE_TOP, PAGE_WIDTH - 20.0, PPE_HEIGHT, LIGHT_GRAY);
    DrawPpeGrid(doc, data, PPE_ITEMS, PPE_TOP);
    AppendThree(before, SectionBarCommands("PPE Checklist", 14.0, PPE_BAR, DARK_BLUE),
      [BoxCommand(10.0, PPE_TOP, PAGE_WIDTH - 20.0, PPE_HEIGHT, LIGHT_GRAY)], PpeGrid(data, PPE_ITEMS, PPE_TOP));
  }

  method SignOffCaptions(doc: Doc, y: real)
    requires y == SIGN_OFF_BAR + 4.0
    modifies doc`fill, doc`pen, doc`log
    ensures doc.log == old(doc.log) + SIGN_OFF_CAPTIONS
  {
    Dot(doc, 16.0, y + 2.0, RED);
    BoldLabel(doc, "Employee Signature", 21.0, y + 2.0, DARK_GRAY);
    Dot(doc, 110.0, y + 2.0, RED);
    BoldLabel(doc, "Supervisor Signature", 115.0, y + 2.0, DARK_GRAY);
  }

  method SignOffNames(doc: Doc, data: Record, y: real)
    requires y == SIGN_OFF_BAR + 4.0
    modifies doc`pen, doc`log
    ensures doc.log == old(doc.log) + SignOffNamesCommands(data)
  {
    doc.SetFont(Bold);
    doc.SetFontSize(8.0);
    doc.SetTextColor(BLUE);
    doc.DrawText(Field(data, "employeeName", ""), 16.0, y + 11.0, Left, 0);
    doc.DrawText(Field(data, "supervisor", ""), 110.0, y + 11.0, Left, 0);
  }

  method SignOff(doc: Doc, data: Record)
    modifies doc`fill, doc`stroke, doc`pen, doc`log
    ensures doc.log == old(doc.log) + SignOffCommands(data)
  {
    ghost var before := doc.log;
    var _ := SectionBar(doc, "Sign-off", 14.0, SIGN_OFF_BAR, DARK_BLUE);
    var y := SIGN_OFF_BAR + 4.0;
    doc.SetDrawColor(MID_GRAY);
    doc.DrawLine(16.0, y + 14.0, 90.0, y + 14.0);
    doc.DrawLine(110.0, y + 14.0, 184.0, y + 14.0);
    assert doc.log == before + SectionBarCommands("Sign-off", 14.0, SIGN_OFF_BAR, DARK_BLUE) + SIGN_OFF_RULES;
    SignOffCaptions(doc, y);
    SignOffNames(doc, data, y);
  }

  method DateLine(doc: Doc, data: Record)
    modifies doc`fill, doc`stroke, doc`pen, doc`log
    ensures doc.log == old(doc.log) + DateLineCommands(doc.metrics, data)
  {
    doc.SetDrawColor(MID_GRAY);
    doc.DrawLine(14.0, DATE_RULE, PAGE_WIDTH - 14.0, DATE_RULE);
    Signature(doc, "Date: ", Field(data, "date", DASH), 21.0, DATE_RULE + 6.0, 9.0);
  }

  method Lower(doc: Doc, data: Record)
    modifies doc`fill, doc`stroke, doc`pen, doc`log
    ensures doc.log == old(doc.log) + LowerCommands(doc.metrics, data)
  {
    ghost var before := doc.log;
    BulletSection(doc, "Hazards Identified", HAZARDS_BAR, SECTION_HEIGHT, Field(data, "hazards", "None identified."), 4, false);
    BulletSection(doc, "Control Measures", CONTROLS_BAR, SECTION_HEIGHT, Field(data, "controlMeasures", DASH), 4, false);
    SignOff(doc, data);
    DateLine(doc, data);
    AppendFour(before, HazardsCommands(doc.metrics, data), ControlsCommands(doc.metrics, data), SignOffCommands(data),
      DateLineCommands(doc.metrics, data));
  }

  method DrawBody(doc: Doc, data: Record)
    modifies doc`fill, doc`stroke, doc`pen, doc`log
    ensures doc.log == old(doc.log) + Body(doc.metrics, data)
  {
    ghost var before := doc.log;
    Info(doc, data);
    Ppe(doc, data);
    Lower(doc, data);
    AppendThree(before, InfoCommands(doc.metrics, data), PpeCommands(data), LowerCommands(doc.metrics, data));
  }

  /**
   * `generateSafetyPDF(data, millName)`, with `Math.random()` as `rand`, the current year as `year` and
   * the footer's timestamp as `stamp`. Returns the id it drew and saved under.
   */
  method Generate(data: Record, millName: string, metrics: Metrics, rand: real, year: nat, stamp: string)
    returns (formId: string, doc: Doc)
    requires 0.0 <= rand < 1.0
    ensures formId == DocId(Safety, rand, year)
    ensures fresh(doc) && doc.metrics == metrics
    ensures doc.log == PageCommands(metrics, Safety, millName, formId, stamp, Body(metrics, data))
  {
    doc := new Doc(metrics);
    formId := Safety.Prefix() + "-" + Serial3(Serial(rand)) + "-" + Text.Decimal(year);
    BeginPage(doc, Safety, millName, formId);
    DrawBody(doc, data);
    EndPage(doc, Safety, millName, formId, stamp, Body(metrics, data));
  }
}
