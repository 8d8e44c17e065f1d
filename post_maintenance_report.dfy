/**
 * `generatePostMaintenancePDF(data, millName)`: the post-maintenance form. Below the header it draws
 * a 60-high box of work-order fields at y = 44, the "Pre / Post Readings" bar at y = 110 over a
 * before/after table, then three titled sections and the signature line. Every section after the
 * table is placed relative to the table's bottom edge, which the table plug-in computes
 * (`Metrics.tableEnd`): the model keeps that dependence symbolic.
 */
module PostMaintenanceReport {
  import opened Canvas
  import opened FormData
  import opened PdfGenerator
  import Text

  const INFO_TOP := 44.0
  const INFO_HEIGHT := 60.0
  const READINGS_TOP := 110.0
  const READINGS_HEIGHT := 28.0
  /** `startY: y + 2`, two below the top of the readings box. */
  const TABLE_TOP := 114.0

  /** The table's column headings. */
  const READINGS_HEAD: seq<string> := ["", "Vibration (in/s)", "Temperature (°F)"]

  /** The table's two rows, each reading shown as entered or as a dash. */
  function ReadingsRows(data: Record): (rows: seq<seq<string>>)
    ensures |rows| == 2 && |rows[0]| == 3 && |rows[1]| == 3
    ensures rows[0][0] == "Before Maintenance" && rows[1][0] == "After Maintenance"
    ensures forall r, c | 0 <= r < 2 && 1 <= c < 3 :: rows[r][c] != ""
  {
    [["Before Maintenance", Field(data, "vibrationBefore", DASH), Field(data, "tempBefore", DASH)],
     ["After Maintenance", Field(data, "vibrationAfter", DASH), Field(data, "tempAfter", DASH)]]
  }

  /** A form with no readings entered shows a dash in each of the four reading cells. */
  lemma NoReadingsShowDashes(data: Record)
    requires forall k | k in ["vibrationBefore", "tempBefore", "vibrationAfter", "tempAfter"] :: !Truthy(Get(data, k))
    ensures ReadingsRows(data) == [["Before Maintenance", DASH, DASH], ["After Maintenance", DASH, DASH]]
  {
    assert !Truthy(Get(data, "vibrationBefore")) && !Truthy(Get(data, "tempBefore"));
    assert !Truthy(Get(data, "vibrationAfter")) && !Truthy(Get(data, "tempAfter"));
  }

  /** A reading that was entered appears in its cell unchanged: before in row 0, after in row 1. */
  lemma EnteredReadingsShown(data: Record)
    ensures Truthy(Get(data, "vibrationBefore")) ==> ReadingsRows(data)[0][1] == Show(Get(data, "vibrationBefore"))
    ensures Truthy(Get(data, "tempBefore")) ==> ReadingsRows(data)[0][2] == Show(Get(data, "tempBefore"))
    ensures Truthy(Get(data, "vibrationAfter")) ==> ReadingsRows(data)[1][1] == Show(Get(data, "vibrationAfter"))
    ensures Truthy(Get(data, "tempAfter")) ==> ReadingsRows(data)[1][2] == Show(Get(data, "tempAfter"))
  {
  }

  // ---------------------------------------------------------------------------
  // Layout
  // ---------------------------------------------------------------------------

  /** The two rows naming the asset, each on a line of its own. */
  function AssetRowsCommands(metrics: Metrics, data: Record): seq<Command> {
    InfoRowCommands(metrics, "Asset Name", Field(data, "assetName", DASH), 16.0, 70.0, BLUE)
    + InfoRowCommands(metrics, "Area / Location", Field(data, "area", DASH), 16.0, 79.0, BLUE)
  }

  /** The work-order box: date and work order, technician and asset id, then asset name and area. */
  function InfoCommands(metrics: Metrics, data: Record): seq<Command> {
    [BoxCommand(10.0, INFO_TOP, PAGE_WIDTH - 20.0, INFO_HEIGHT, LIGHT_GRAY)]
    + RowPairCommands(metrics, "Maintenance Date", Field(data, "maintenanceDate", DASH), "Work Order #", Field(data, "woNumber", DASH), 52.0, DARK_BLUE)
    + RowPairCommands(metrics, "Technician", Field(data, "technicianName", DASH), "Asset ID", Field(data, "assetId", DASH), 61.0, DARK_BLUE)
    + AssetRowsCommands(metrics, data)
  }

  /** The readings bar, its box and the table. */
  function ReadingsCommands(data: Record): seq<Command> {
    SectionBarCommands("Pre / Post Readings", 14.0, READINGS_TOP, DARK_BLUE)
    + [BoxCommand(10.0, READINGS_TOP + 2.0, PAGE_WIDTH - 20.0, READINGS_HEIGHT, LIGHT_GRAY),
       Table(TABLE_TOP, [READINGS_HEAD], ReadingsRows(data))]
  }

  /** `doc.lastAutoTable.finalY` after the readings table. */
  function ReadingsEnd(metrics: Metrics, data: Record): real {
    metrics.tableEnd(TABLE_TOP, [READINGS_HEAD], ReadingsRows(data))
  }

  /** "Maintenance Performed": six lines of normal black text in a 40-high box. */
  function MaintenanceCommands(metrics: Metrics, data: Record, y: real): seq<Command> {
    BulletSectionCommands(metrics, "Maintenance Performed", y, 40.0, Field(data, "maintenancePerformed", DASH), 6, true)
  }

  /** "Parts / Components Replaced": four lines in a 28-high box, in the section bar's pen; "None" when empty. */
  function PartsCommands(metrics: Metrics, data: Record, y: real): seq<Command> {
    BulletSectionCommands(metrics, "Parts / Components Replaced", y, 28.0, Field(data, "partsReplaced", "None"), 4, false)
  }

  /** The notes, wrapped in normal 9-point type and clipped to four lines. */
  function NotesLines(metrics: Metrics, data: Record): (lines: seq<string>)
    ensures |lines| <= 4
  {
    Take(metrics.splitText(Normal, 9.0, Field(data, "notes", DASH), TEXT_WIDTH), 4)
  }

  /** "Result & Notes": the notes as one block of lines, without bullets, in a 28-high box. */
  function NotesCommands(metrics: Metrics, data: Record, y: real): seq<Command> {
    SectionBarCommands("Result & Notes", 14.0, y, DARK_BLUE)
    + [BoxCommand(10.0, y + 2.0, PAGE_WIDTH - 20.0, 28.0, WHITE),
       TextLines(NotesLines(metrics, data), 16.0, y + 10.0, Pen(Normal, 9.0, BLACK))]
  }

  /** Who completed the work (a blank when unnamed) and the maintenance date. */
  function SignatureRowsCommands(metrics: Metrics, data: Record, y: real): (cmds: seq<Command>)
    ensures |cmds| == 7
  {
    SignatureBlockCommands(metrics, "Completed by: ", Field(data, "technicianName", BLANK_NAME), "Date: ", Field(data, "maintenanceDate", DASH), y, 9.0)
  }

  /** Everything below the table, from the cursor `y` 8 below it: sections at y, y + 48, y + 84, the rule at y + 120. */
  function LowerCommands(metrics: Metrics, data: Record, y: real): (cmds: seq<Command>)
  {
    MaintenanceCommands(metrics, data, y) + PartsCommands(metrics, data, y + 48.0)
    + NotesCommands(metrics, data, y + 84.0) + SignatureRowsCommands(metrics, data, y + 120.0)
  }

  /** Everything the form draws between the header and the footer. */
  function Body(metrics: Metrics, data: Record): seq<Command> {
    InfoCommands(metrics, data) + ReadingsCommands(data) + LowerCommands(metrics, data, ReadingsEnd(metrics, data) + 8.0)
  }

  // ---------------------------------------------------------------------------
  // Properties
  // ---------------------------------------------------------------------------

  /**
   * Below the table, each paragraph stays inside its box and each box ends before the next section's
   * bar: maintenance text between y + 10 and y + 42, parts text between y + 58 and y + 78.
   */
  lemma {:induction false} LowerSectionsFit(metrics: Metrics, data: Record, y: real)
    ensures var m := MaintenanceCommands(metrics, data, y);
      m[2] == BoxCommand(10.0, y + 2.0, PAGE_WIDTH - 20.0, 40.0, WHITE) && InBand(m[3..], y + 10.0, y + 42.0)
    ensures var p := PartsCommands(metrics, data, y + 48.0);
      p[2] == BoxCommand(10.0, y + 50.0, PAGE_WIDTH - 20.0, 28.0, WHITE) && InBand(p[3..], y + 58.0, y + 78.0)
    ensures NotesCommands(metrics, data, y + 84.0)[3].y == y + 94.0 < y + 114.0 < y + 120.0
  {
    BulletSectionFits(metrics, "Maintenance Performed", y, 40.0, Field(data, "maintenancePerformed", DASH), 6, true);
    BulletSectionFits(metrics, "Parts / Components Replaced", y + 48.0, 28.0, Field(data, "partsReplaced", "None"), 4, false);
  }

  /**
   * The parts list is wrapped and drawn in the bold dark-blue pen the section bar leaves behind, not in
   * the normal black of the other paragraphs: line i is text 2i + 4 of the section.
   */
  lemma PartsInBarPen(metrics: Metrics, data: Record, y: real, i: nat)
    requires i < |SectionLines(metrics, Field(data, "partsReplaced", "None"), 4, false)|
    ensures var p := PartsCommands(metrics, data, y);
      |p| == 3 + 2 * |SectionLines(metrics, Field(data, "partsReplaced", "None"), 4, false)|
      && p[2 * i + 4].Text? && p[2 * i + 4].pen == Pen(Bold, 9.0, DARK_BLUE) && p[2 * i + 4].y == y + 10.0 + 6.0 * i as real
  {
    var lines := SectionLines(metrics, Field(data, "partsReplaced", "None"), 4, false);
    BulletsAt(lines, 16.0, 21.0, y + 10.0, Pen(Bold, 9.0, DARK_BLUE), i);
  }

  /**
   * Everything after the table moves with its bottom edge: the closing rule is always 128 below it and
   * the signature line 134 below it, however tall the table came out.
   */
  lemma SignatureFollowsTable(metrics: Metrics, data: Record)
    ensures var b := Body(metrics, data);
      var f := ReadingsEnd(metrics, data);
      |b| >= 7 && b[|b| - 7] == Line(14.0, f + 128.0, PAGE_WIDTH - 14.0, f + 128.0, MID_GRAY)
      && b[|b| - 6].Circle? && b[|b| - 6].y == f + 134.0
  {
    var y := ReadingsEnd(metrics, data) + 8.0;
    var lower := LowerCommands(metrics, data, y);
    var sig := SignatureRowsCommands(metrics, data, y + 120.0);
    var upper := MaintenanceCommands(metrics, data, y) + PartsCommands(metrics, data, y + 48.0) + NotesCommands(metrics, data, y + 84.0);
    assert lower == upper + sig;
    assert lower[|lower| - 7] == sig[0] && lower[|lower| - 6] == sig[1];
    var b := InfoCommands(metrics, data) + ReadingsCommands(data) + lower;
    assert b[|b| - 7] == lower[|lower| - 7] && b[|b| - 6] == lower[|lower| - 6];
  }

  // ---------------------------------------------------------------------------
  // Drawing
  // ---------------------------------------------------------------------------

  method AssetRows(doc: Doc, data: Record)
    modifies doc`fill, doc`pen, doc`log
    ensures doc.log == old(doc.log) + AssetRowsCommands(doc.metrics, data)
  {
    InfoRow(doc, "Asset Name", Field(data, "assetName", DASH), 16.0, 70.0, BLUE);
    InfoRow(doc, "Area / Location", Field(data, "area", DASH), 16.0, 79.0, BLUE);
  }

  method Info(doc: Doc, data: Record)
    modifies doc`fill, doc`stroke, doc`pen, doc`log
    ensures doc.log == old(doc.log) + InfoCommands(doc.metrics, data)
  {
    ghost var before := doc.log;
    RoundedBox(doc, 10.0, INFO_TOP, PAGE_WIDTH - 20.0, INFO_HEIGHT, LIGHT_GRAY);
    RowPair(doc, "Maintenance Date", Field(data, "maintenanceDate", DASH), "Work Order #", Field(data, "woNumber", DASH), 52.0, DARK_BLUE);
    RowPair(doc, "Technician", Field(data, "technicianName", DASH), "Asset ID", Field(data, "assetId", DASH), 61.0, DARK_BLUE);
    AssetRows(doc, data);
    AppendFour(before, [BoxCommand(10.0, INFO_TOP, PAGE_WIDTH - 20.0, INFO_HEIGHT, LIGHT_GRAY)],
      RowPairCommands(doc.metrics, "Maintenance Date", Field(data, "maintenanceDate", DASH), "Work Order #", Field(data, "woNumber", DASH), 52.0, DARK_BLUE),
      RowPairCommands(doc.metrics, "Technician", Field(data, "technicianName", DASH), "Asset ID", Field(data, "assetId", DASH), 61.0, DARK_BLUE),
      AssetRowsCommands(doc.metrics, data));
  }

  /** The readings section; returns the cursor 8 below the table. */
  method Readings(doc: Doc, data: Record) returns (next: real)
    modifies doc`fill, doc`stroke, doc`pen, doc`log
    ensures doc.log == old(doc.log) + ReadingsCommands(data)
    ensures next == ReadingsEnd(doc.metrics, data) + 8.0
  {
    var _ := SectionBar(doc, "Pre / Post Readings", 14.0, READINGS_TOP, DARK_BLUE);
    var y := READINGS_TOP + 2.0;
    RoundedBox(doc, 10.0, y, PAGE_WIDTH - 20.0, READINGS_HEIGHT, LIGHT_GRAY);
    var finalY := doc.AutoTable(y + 2.0, [READINGS_HEAD], ReadingsRows(data));
    next := finalY + 8.0;
  }

  method Notes(doc: Doc, data: Record, y: real)
    modifies doc`fill, doc`stroke, doc`pen, doc`log
    ensures doc.log == old(doc.log) + NotesCommands(doc.metrics, data, y)
  {
    var _ := SectionBar(doc, "Result & Notes", 14.0, y, DARK_BLUE);
    var top := y + 2.0;
    RoundedBox(doc, 10.0, top, PAGE_WIDTH - 20.0, 28.0, WHITE);
    doc.SetFont(Normal);
    doc.SetFontSize(9.0);
    doc.SetTextColor(BLACK);
    var lines := doc.SplitText(Field(data, "notes", DASH), TEXT_WIDTH);
    doc.DrawLines(Take(lines, 4), 16.0, top + 8.0);
  }

  method Lower(doc: Doc, data: Record, y: real)
    modifies doc`fill, doc`stroke, doc`pen, doc`log
    ensures doc.log == old(doc.log) + LowerCommands(doc.metrics, data, y)
  {
    ghost var before := doc.log;
    BulletSection(doc, "Maintenance Performed", y, 40.0, Field(data, "maintenancePerformed", DASH), 6, true);
    BulletSection(doc, "Parts / Components Replaced", y + 48.0, 28.0, Field(data, "partsReplaced", "None"), 4, false);
    Notes(doc, data, y + 84.0);
    SignatureBlock(doc, "Completed by: ", Field(data, "technicianName", BLANK_NAME), "Date: ", Field(data, "maintenanceDate", DASH), y + 120.0, 9.0);
    AppendFour(before, MaintenanceCommands(doc.metrics, data, y), PartsCommands(doc.metrics, data, y + 48.0),
      NotesCommands(doc.metrics, data, y + 84.0), SignatureRowsCommands(doc.metrics, data, y + 120.0));
  }

  method DrawBody(doc: Doc, data: Record)
    modifies doc`fill, doc`stroke, doc`pen, doc`log
    ensures doc.log == old(doc.log) + Body(doc.metrics, data)
  {
    ghost var before := doc.log;
    Info(doc, data);
    var y := Readings(doc, data);
    Lower(doc, data, y);
    AppendThree(before, InfoCommands(doc.metrics, data), ReadingsCommands(data), LowerCommands(doc.metrics, data, y));
  }

  /**
   * `generatePostMaintenancePDF(data, millName)`, with `Math.random()` as `rand`, the current year as
   * `year` and the footer's timestamp as `stamp`. Returns the id it drew and saved under.
   */
  method Generate(data: Record, millName: string, metrics: Metrics, rand: real, year: nat, stamp: string)
    returns (formId: string, doc: Doc)
    requires 0.0 <= rand < 1.0
    ensures formId == DocId(PostMaintenance, rand, year)
    ensures fresh(doc) && doc.metrics == metrics
    ensures doc.log == PageCommands(metrics, PostMaintenance, millName, formId, stamp, Body(metrics, data))
  {
    doc := new Doc(metrics);
    formId := PostMaintenance.Prefix() + "-" + Serial3(Serial(rand)) + "-" + Text.Decimal(year);
    BeginPage(doc, PostMaintenance, millName, formId);
    DrawBody(doc, data);
    EndPage(doc, PostMaintenance, millName, formId, stamp, Body(metrics, data));
  }
}
