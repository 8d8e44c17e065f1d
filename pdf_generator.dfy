/**
 * The shared part of the report layout engine: the brand palette, the status and risk colour
 * maps, the document identifier, the drawing helpers every report uses (bullet dot, bold label,
 * labelled field row, section bar, rounded box, status badge) and the page header and footer.
 * Each helper takes the canvas and issues the same calls in the same order as the source, so its
 * contract states the commands it appends and the drawing state it leaves behind.
 */
module PdfGenerator {
  import opened Canvas
  import Text

  // ---------------------------------------------------------------------------
  // Palette
  // ---------------------------------------------------------------------------

  const BLUE := Rgb(0, 117, 190)
  const DARK_BLUE := Rgb(0, 58, 112)
  const RED := Rgb(228, 0, 43)
  const WHITE := Rgb(255, 255, 255)
  const LIGHT_GRAY := Rgb(245, 247, 250)
  const MID_GRAY := Rgb(200, 210, 220)
  const DARK_GRAY := Rgb(80, 90, 100)
  const BLACK := Rgb(30, 35, 40)
  const ORANGE := Rgb(230, 120, 0)
  /** The green the source writes out as a literal wherever something is good, low-risk or checked. */
  const GREEN := Rgb(46, 139, 87)

  /** The placeholder drawn for a missing value. */
  const DASH := "\U{2014}"

  /** `value || '—'`: a string that is never drawn as empty text. */
  function OrDash(s: string): (r: string)
    ensures r != ""
    ensures s != "" ==> r == s
    ensures s == "" ==> r == DASH
  {
    if s != "" then s else DASH
  }

  // ---------------------------------------------------------------------------
  // Colour maps
  // ---------------------------------------------------------------------------

  /** `getStatusColor(status)`, where a missing status arrives as "" (the source's `status || ''`). */
  function StatusColor(status: string): (c: Rgb)
    ensures c == GREEN || c == ORANGE || c == RED || c == DARK_BLUE
  {
    var s := Text.ToLower(status);
    if s == "good" || s == "normal" then GREEN
    else if s == "caution" || s == "warning" then ORANGE
    else if s == "alert" || s == "critical" then RED
    else DARK_BLUE
  }

  /** `getRiskColor(risk)`, where a missing risk arrives as "". */
  function RiskColor(risk: string): (c: Rgb)
    ensures c == GREEN || c == ORANGE || c == RED || c == DARK_GRAY
  {
    var r := Text.ToLower(risk);
    if r == "low" then GREEN
    else if r == "medium" then ORANGE
    else if r == "high" || r == "critical" then RED
    else DARK_GRAY
  }

  /** Which status words select which colour; every other word, the empty one included, gives dark blue. */
  lemma StatusColorClasses(status: string)
    ensures var s := Text.ToLower(status);
      && (StatusColor(status) == GREEN <==> s == "good" || s == "normal")
      && (StatusColor(status) == ORANGE <==> s == "caution" || s == "warning")
      && (StatusColor(status) == RED <==> s == "alert" || s == "critical")
      && (StatusColor(status) == DARK_BLUE <==> s !in {"good", "normal", "caution", "warning", "alert", "critical"})
  {
  }

  /** Which risk words select which colour; every other word, the empty one included, gives dark grey. */
  lemma RiskColorClasses(risk: string)
    ensures var r := Text.ToLower(risk);
      && (RiskColor(risk) == GREEN <==> r == "low")
      && (RiskColor(risk) == ORANGE <==> r == "medium")
      && (RiskColor(risk) == RED <==> r == "high" || r == "critical")
      && (RiskColor(risk) == DARK_GRAY <==> r !in {"low", "medium", "high", "critical"})
  {
  }

  /** Both maps ignore letter case. */
  lemma {:induction false} ColorsIgnoreCase(s: string)
    ensures StatusColor(Text.ToUpper(s)) == StatusColor(s) == StatusColor(Text.ToLower(s))
    ensures RiskColor(Text.ToUpper(s)) == RiskColor(s) == RiskColor(Text.ToLower(s))
  {
    Text.LowerForgetsCase(s);
  }

  /** The status values the condition-monitoring form offers: only "caution" and "alert" have a colour of their own. */
  lemma {:induction false} FormStatusColors()
    ensures StatusColor("acceptable") == DARK_BLUE
    ensures StatusColor("caution") == ORANGE
    ensures StatusColor("alert") == RED
    ensures StatusColor("") == DARK_BLUE && RiskColor("") == DARK_GRAY
  {
    assert Text.ToLower("acceptable") == "acceptable";
    assert Text.ToLower("caution") == "caution";
    assert Text.ToLower("alert") == "alert";
    assert Text.ToLower("") == "";
  }

  // ---------------------------------------------------------------------------
  // Report kinds and the document identifier
  // ---------------------------------------------------------------------------

  datatype ReportKind = ConditionMonitor | PostMaintenance | Rcfa | Safety {

    function Prefix(): string {
      match this
      case ConditionMonitor => "CMR"
      case PostMaintenance => "PMF"
      case Rcfa => "RCFA"
      case Safety => "SF"
    }

    /** The title `addHeader` draws. */
    function Title(): string {
      match this
      case ConditionMonitor => "Condition Monitoring Report"
      case PostMaintenance => "Post Maintenance Form"
      case Rcfa => "Root Cause Failure Analysis"
      case Safety => "Safety Form"
    }

    function Subtitle(): string {
      match this
      case ConditionMonitor => "Vibration Diagnosis and Recommendation"
      case PostMaintenance => "Maintenance Record & Post-Check Readings"
      case Rcfa => "5-Whys Methodology & Corrective Actions"
      case Safety => "Job Safety Analysis & PPE Checklist"
    }

    /** The `<Kind>` part of the saved file name. */
    function FileKind(): string {
      match this
      case ConditionMonitor => "Condition_Monitor"
      case PostMaintenance => "Post_Maintenance"
      case Rcfa => "RCFA"
      case Safety => "Safety_Form"
    }
  }

  /** `Math.floor(rand * 999)` for `rand = Math.random()`. */
  function Serial(rand: real): (n: nat)
    requires 0.0 <= rand < 1.0
    ensures n <= 998
  {
    (rand * 999.0).Floor
  }

  /** The three-digit field: `String(n).padStart(3, '0')`. */
  function Serial3(n: nat): string {
    Text.PadStart(Text.Decimal(n), 3, '0')
  }

  /** `${PREFIX}-${serial}-${year}`. */
  function DocId(kind: ReportKind, rand: real, year: nat): string
    requires 0.0 <= rand < 1.0
  {
    kind.Prefix() + "-" + Serial3(Serial(rand)) + "-" + Text.Decimal(year)
  }

  /** `${formId}_<Kind>.pdf` */
  function FileName(id: string, kind: ReportKind): string {
    id + "_" + kind.FileKind() + ".pdf"
  }

  /** Padding a numeral of at most three digits puts 3 - |d| zeros in front of it. */
  lemma PadShape(d: string)
    requires |d| <= 3
    ensures Text.PadStart(d, 3, '0') == seq(3 - |d|, _ => '0') + d
  {
    var pad := Text.PadStart(d, 3, '0');
    var z := seq(3 - |d|, _ => '0');
    assert |pad| == |z + d|;
    forall i | 0 <= i < 3 ensures pad[i] == (z + d)[i] {
      if i >= 3 - |d| {
        assert pad[i] == pad[3 - |d|..][i - (3 - |d|)];
      }
    }
  }

  /** A serial below 1000 always pads to exactly three decimal digits. */
  lemma Serial3Digits(n: nat)
    requires n <= 998
    ensures |Serial3(n)| == 3
    ensures forall i :: 0 <= i < 3 ==> Text.IsDecimalDigit(Serial3(n)[i])
  {
    var d := Text.Decimal(n);
    Text.DecimalLength(n);
    var z := seq(3 - |d|, _ => '0');
    PadShape(d);
    forall i | 0 <= i < 3 ensures Text.IsDecimalDigit((z + d)[i]) {
      if i >= |z| {
        assert (z + d)[i] == d[i - |z|];
      }
    }
  }

  /** The three padded digits read back as the serial. */
  lemma Serial3Value(n: nat)
    requires n <= 998
    ensures Text.FromRadix(Serial3(n), Text.DECIMAL_DIGITS) == n
  {
    var d := Text.Decimal(n);
    Text.DecimalLength(n);
    PadShape(d);
    LeadingZeros(d, 3 - |d|);
    Text.FromRadixToRadix(n, Text.DECIMAL_DIGITS);
  }

  /** Leading zeros do not change the value of a decimal numeral. */
  lemma {:induction false} LeadingZeros(d: string, k: nat)
    ensures Text.FromRadix(seq(k, _ => '0') + d, Text.DECIMAL_DIGITS) == Text.FromRadix(d, Text.DECIMAL_DIGITS)
    decreases |d|
  {
    var z := seq(k, _ => '0');
    var digits := Text.DECIMAL_DIGITS;
    if d == [] {
      assert z + d == z;
      ZerosValue(k);
    } else {
      var s := z + d;
      assert s[..|s| - 1] == z + d[..|d| - 1];
      assert s[|s| - 1] == d[|d| - 1];
      LeadingZeros(d[..|d| - 1], k);
    }
  }

  lemma {:induction false} ZerosValue(k: nat)
    ensures Text.FromRadix(seq(k, _ => '0'), Text.DECIMAL_DIGITS) == 0
  {
    if k > 0 {
      var z := seq(k, _ => '0');
      assert z[..k - 1] == seq(k - 1, _ => '0');
      ZerosValue(k - 1);
    }
  }

  /** Where the three parts of `prefix-serial-year` sit in the joined string. */
  lemma Parts(prefix: string, serial: string, year: string)
    requires |serial| == 3
    ensures var id, p := prefix + "-" + serial + "-" + year, |prefix|;
      && |id| == p + 5 + |year|
      && id[..p] == prefix && id[p] == '-' && id[p + 1..p + 4] == serial && id[p + 4] == '-'
      && id[p + 5..] == year
  {
    var id, p := prefix + "-" + serial + "-" + year, |prefix|;
    assert id == prefix + ("-" + serial + "-" + year);
    assert id[p..] == "-" + serial + "-" + year;
    assert id[p + 1..p + 4] == id[p..][1..4];
    assert id[p + 5..] == id[p..][5..];
  }

  /**
   * The identifier is PREFIX-NNN-YYYY: the prefix of its kind, a dash, three digits that read back as
   * `floor(rand * 999)`, a dash and the year's digits (four of them for the years 1000 to 9999).
   */
  lemma {:induction false} DocIdFormat(kind: ReportKind, rand: real, year: nat)
    requires 0.0 <= rand < 1.0
    ensures var id, p := DocId(kind, rand, year), |kind.Prefix()|;
      && |id| == p + 5 + |Text.Decimal(year)|
      && id[..p] == kind.Prefix() && id[p] == '-' && id[p + 4] == '-'
      && (forall i :: p + 1 <= i < p + 4 ==> Text.IsDecimalDigit(id[i]))
      && Text.FromRadix(id[p + 1..p + 4], Text.DECIMAL_DIGITS) == Serial(rand)
      && id[p + 5..] == Text.Decimal(year)
      && (1000 <= year < 10000 ==> |id| == p + 9)
  {
    var p := |kind.Prefix()|;
    var s := Serial3(Serial(rand));
    Serial3Digits(Serial(rand));
    Serial3Value(Serial(rand));
    Text.DecimalLength(year);
    Parts(kind.Prefix(), s, Text.Decimal(year));
    var id := DocId(kind, rand, year);
    forall i | p + 1 <= i < p + 4 ensures Text.IsDecimalDigit(id[i]) {
      assert id[i] == id[p + 1..p + 4][i - p - 1];
    }
  }

  // ---------------------------------------------------------------------------
  // Drawing helpers
  // ---------------------------------------------------------------------------

  /** `dot(doc, x, y, color)`: a filled bullet of radius 1.5. */
  method Dot(doc: Doc, x: real, y: real, color: Rgb)
    modifies doc`fill, doc`log
    ensures doc.fill == color
    ensures doc.log == old(doc.log) + [Circle(x, y, 1.5, color)]
  {
    doc.SetFillColor(color);
    doc.FillCircle(x, y, 1.5);
  }

  /** `boldLabel(doc, text, x, y, color)`: bold 9-point text. */
  method BoldLabel(doc: Doc, text: string, x: real, y: real, color: Rgb)
    modifies doc`pen, doc`log
    ensures doc.pen == Pen(Bold, 9.0, color)
    ensures doc.log == old(doc.log) + [Text(text, x, y, Pen(Bold, 9.0, color), Left, 0)]
  {
    doc.SetFont(Bold);
    doc.SetFontSize(9.0);
    doc.SetTextColor(color);
    doc.DrawText(text, x, y, Left, 0);
  }

  /** `normalText(doc, text, x, y, color, size)`: a missing text is drawn as the placeholder, never as "". */
  method NormalText(doc: Doc, text: string, x: real, y: real, color: Rgb, size: real)
    modifies doc`pen, doc`log
    ensures doc.pen == Pen(Normal, size, color)
    ensures doc.log == old(doc.log) + [Text(OrDash(text), x, y, Pen(Normal, size, color), Left, 0)]
    ensures doc.log[|doc.log| - 1].content != ""
  {
    doc.SetFont(Normal);
    doc.SetFontSize(size);
    doc.SetTextColor(color);
    doc.DrawText(OrDash(text), x, y, Left, 0);
  }

  /** The x at which `infoRow` starts the value: after the dot gap and the bold label "label: ". */
  function ValueX(metrics: Metrics, caption: string, x: real): (vx: real)
    ensures vx >= x + 5.0
  {
    x + 5.0 + metrics.textWidth(Bold, 9.0, caption + ": ")
  }

  /**
   * What `infoRow(doc, label, value, x, y, valueColor)` draws: a red dot, the bold label with a colon,
   * and the value (or the placeholder) in normal 9-point type on the same baseline, starting after
   * the label's measured width.
   */
  function InfoRowCommands(metrics: Metrics, caption: string, value: string, x: real, y: real, valueColor: Rgb): (cmds: seq<Command>)
    ensures |cmds| == 3 && cmds[1].Text? && cmds[2].Text?
    ensures cmds[2].content != "" && (value != "" ==> cmds[2].content == value)
    ensures cmds[1].y == cmds[2].y == y && cmds[2].x >= cmds[1].x
  {
    [Circle(x, y - 1.0, 1.5, RED),
     Text(caption + ":", x + 5.0, y, Pen(Bold, 9.0, BLUE), Left, 0),
     Text(OrDash(value), ValueX(metrics, caption, x), y, Pen(Normal, 9.0, valueColor), Left, 0)]
  }

  /** `infoRow(...)`: appends `InfoRowCommands` and leaves the value's pen current. */
  method InfoRow(doc: Doc, caption: string, value: string, x: real, y: real, valueColor: Rgb)
    modifies doc`fill, doc`pen, doc`log
    ensures doc.fill == RED && doc.pen == Pen(Normal, 9.0, valueColor)
    ensures doc.log == old(doc.log) + InfoRowCommands(doc.metrics, caption, value, x, y, valueColor)
  {
    Dot(doc, x, y - 1.0, RED);
    BoldLabel(doc, caption + ":", x + 5.0, y, BLUE);
    var labelWidth := doc.TextWidth(caption + ": ");
    doc.SetFont(Normal);
    doc.SetFontSize(9.0);
    doc.SetTextColor(valueColor);
    doc.DrawText(OrDash(value), x + 5.0 + labelWidth, y, Left, 0);
  }

  /** Two field rows on one line, in the left (x = 16) and the right (x = 110) column. */
  function RowPairCommands(metrics: Metrics, left: string, leftValue: string, right: string, rightValue: string, y: real, color: Rgb): (cmds: seq<Command>)
    ensures |cmds| == 6
  {
    InfoRowCommands(metrics, left, leftValue, 16.0, y, color) + InfoRowCommands(metrics, right, rightValue, 110.0, y, color)
  }

  method RowPair(doc: Doc, left: string, leftValue: string, right: string, rightValue: string, y: real, color: Rgb)
    modifies doc`fill, doc`pen, doc`log
    ensures doc.log == old(doc.log) + RowPairCommands(doc.metrics, left, leftValue, right, rightValue, y, color)
    ensures doc.pen == Pen(Normal, 9.0, color)
  {
    InfoRow(doc, left, leftValue, 16.0, y, color);
    InfoRow(doc, right, rightValue, 110.0, y, color);
  }

  /** What `sectionBar(doc, text, x, y, w, color)` draws: a 3 x 7 accent bar and the bold label beside it. */
  function SectionBarCommands(text: string, x: real, y: real, color: Rgb): seq<Command> {
    [Rect(x, y, 3.0, 7.0, color), Text(text, x + 6.0, y + 5.5, Pen(Bold, 9.0, color), Left, 0)]
  }

  /**
   * `sectionBar(...)`: the cursor it returns is 11 below its top, clear of the 7-high bar (every
   * generator ignores it and moves on by 2 instead). The label's pen stays current.
   */
  method SectionBar(doc: Doc, text: string, x: real, y: real, color: Rgb) returns (next: real)
    modifies doc`fill, doc`pen, doc`log
    ensures next == y + 11.0 && next > y + 7.0
    ensures doc.fill == color && doc.pen == Pen(Bold, 9.0, color)
    ensures doc.log == old(doc.log) + SectionBarCommands(text, x, y, color)
  {
    doc.SetFillColor(color);
    doc.FillRect(x, y, 3.0, 7.0);
    doc.SetFont(Bold);
    doc.SetFontSize(9.0);
    doc.SetTextColor(color);
    doc.DrawText(text, x + 6.0, y + 5.5, Left, 0);
    next := y + 11.0;
  }

  /** What `roundedBox(doc, x, y, w, h, color)` draws: filled, mid-grey outline, corner radius 2. */
  function BoxCommand(x: real, y: real, w: real, h: real, color: Rgb): Command {
    RoundedRect(x, y, w, h, 2.0, FillStroke(MID_GRAY), color)
  }

  method RoundedBox(doc: Doc, x: real, y: real, w: real, h: real, color: Rgb)
    modifies doc`fill, doc`stroke, doc`log
    ensures doc.fill == color && doc.stroke == MID_GRAY
    ensures doc.log == old(doc.log) + [BoxCommand(x, y, w, h, color)]
  {
    doc.SetFillColor(color);
    doc.SetDrawColor(MID_GRAY);
    doc.RoundedRectangle(x, y, w, h, 2.0, true);
  }

  /** A badge is as wide as its text, measured in the pen current when the badge is drawn, plus 6. */
  function BadgeWidth(metrics: Metrics, pen: Pen, text: string): (w: real)
    ensures w >= 6.0
  {
    metrics.textWidth(pen.style, pen.size, text) + 6.0
  }

  /** What `statusBadge(doc, text, x, y, color)` draws: a filled pill and the text upper-cased in white bold 8-point type. */
  function BadgeCommands(metrics: Metrics, pen: Pen, text: string, x: real, y: real, color: Rgb): seq<Command> {
    [RoundedRect(x, y - 4.0, BadgeWidth(metrics, pen, text), 6.0, 1.0, Fill, color),
     Text(Text.ToUpper(text), x + 3.0, y, Pen(Bold, 8.0, WHITE), Left, 0)]
  }

  /**
   * `statusBadge(doc, text, x, y, color)`: appends `BadgeCommands` and returns the x 4 past the
   * badge's right edge, so whatever is drawn next starts strictly right of the badge.
   */
  method StatusBadge(doc: Doc, text: string, x: real, y: real, color: Rgb) returns (next: real)
    modifies doc`fill, doc`pen, doc`log
    ensures doc.log == old(doc.log) + BadgeCommands(doc.metrics, old(doc.pen), text, x, y, color)
    ensures next == x + BadgeWidth(doc.metrics, old(doc.pen), text) + 4.0
    ensures next > x + BadgeWidth(doc.metrics, old(doc.pen), text) >= x + 6.0
    ensures doc.fill == color && doc.pen == Pen(Bold, 8.0, WHITE)
  {
    var w := doc.TextWidth(text) + 6.0;
    doc.SetFillColor(color);
    doc.RoundedRectangle(x, y - 4.0, w, 6.0, 1.0, false);
    doc.SetFont(Bold);
    doc.SetFontSize(8.0);
    doc.SetTextColor(WHITE);
    doc.DrawText(Text.ToUpper(text), x + 3.0, y, Left, 0);
    next := x + w + 4.0;
  }

  /** The blank drawn for a missing signatory name. */
  const BLANK_NAME := "________________"

  /**
   * What the signature lines draw: a red dot 5 left of `x`, the caption in bold dark grey, and the
   * value in bold blue right after the caption's width measured in that bold font.
   */
  function SignatureCommands(metrics: Metrics, caption: string, value: string, x: real, y: real, size: real): (cmds: seq<Command>)
    ensures |cmds| == 3 && cmds[2].Text? && cmds[2].x == x + metrics.textWidth(Bold, size, caption) >= x
  {
    [Circle(x - 5.0, y, 1.5, RED),
     Text(caption, x, y, Pen(Bold, size, DARK_GRAY), Left, 0),
     Text(value, x + metrics.textWidth(Bold, size, caption), y, Pen(Bold, size, BLUE), Left, 0)]
  }

  /**
   * A signature line: `redDot(x - 5, y)`, the caption in bold dark grey (through `boldLabel` at 9 points,
   * or set by hand at 8.5 in the condition report), then bold blue for the value.
   */
  method Signature(doc: Doc, caption: string, value: string, x: real, y: real, size: real)
    modifies doc`fill, doc`pen, doc`log
    ensures doc.log == old(doc.log) + SignatureCommands(doc.metrics, caption, value, x, y, size)
    ensures doc.fill == RED && doc.pen == Pen(Bold, size, BLUE)
  {
    Dot(doc, x - 5.0, y, RED);
    doc.SetFont(Bold);
    doc.SetFontSize(size);
    doc.SetTextColor(DARK_GRAY);
    doc.DrawText(caption, x, y, Left, 0);
    doc.SetFont(Bold);
    doc.SetTextColor(BLUE);
    var w := doc.TextWidth(caption);
    doc.DrawText(value, x + w, y, Left, 0);
  }

  /** Appending three command lists one after another appends their concatenation. */
  lemma AppendThree(log: seq<Command>, a: seq<Command>, b: seq<Command>, c: seq<Command>)
    ensures log + a + b + c == log + (a + b + c)
  {
  }

  /** The same for four lists. */
  lemma AppendFour(log: seq<Command>, a: seq<Command>, b: seq<Command>, c: seq<Command>, d: seq<Command>)
    ensures log + a + b + c + d == log + (a + b + c + d)
  {
  }

  /** A slice inside the first of two appended lists is a slice of that list. */
  lemma SliceOfFront(a: seq<Command>, b: seq<Command>, lo: nat, hi: nat)
    requires lo <= hi <= |a|
    ensures (a + b)[lo..hi] == a[lo..hi]
  {
  }

  /** The second of two appended lists is the slice after the first. */
  lemma SliceOfBack(a: seq<Command>, b: seq<Command>)
    ensures (a + b)[|a|..|a| + |b|] == b
  {
  }

  /** The closing block of three reports: a rule across the page at `y` and two signature fields 6 below it. */
  function SignatureBlockCommands(metrics: Metrics, left: string, leftValue: string, right: string, rightValue: string, y: real, size: real): (cmds: seq<Command>)
    ensures |cmds| == 7 && cmds[0].Line? && cmds[0].y1 == y && cmds[1].Circle? && cmds[1].y == y + 6.0
  {
    [Line(14.0, y, PAGE_WIDTH - 14.0, y, MID_GRAY)]
    + SignatureCommands(metrics, left, leftValue, 21.0, y + 6.0, size)
    + SignatureCommands(metrics, right, rightValue, 121.0, y + 6.0, size)
  }

  method SignatureBlock(doc: Doc, left: string, leftValue: string, right: string, rightValue: string, y: real, size: real)
    modifies doc`fill, doc`stroke, doc`pen, doc`log
    ensures doc.log == old(doc.log) + SignatureBlockCommands(doc.metrics, left, leftValue, right, rightValue, y, size)
  {
    doc.SetDrawColor(MID_GRAY);
    doc.DrawLine(14.0, y, PAGE_WIDTH - 14.0, y);
    Signature(doc, left, leftValue, 21.0, y + 6.0, size);
    Signature(doc, right, rightValue, 121.0, y + 6.0, size);
  }

  // ---------------------------------------------------------------------------
  // Wrapped paragraphs
  // ---------------------------------------------------------------------------

  /** `lines.slice(0, k)`: at most the first k lines. */
  function Take(lines: seq<string>, k: nat): (r: seq<string>)
    ensures |r| <= k && r <= lines
    ensures |lines| <= k ==> r == lines
    ensures |lines| >= k ==> |r| == k
  {
    if |lines| <= k then lines else lines[..k]
  }

  /** The baseline of line i of a paragraph whose first line sits at `top`: six millimetres per line. */
  function LineY(top: real, i: nat): real {
    top + 6.0 * i as real
  }

  /** One bulleted line: a red dot and the text on the same baseline. */
  function BulletRow(line: string, i: nat, dotX: real, textX: real, top: real, pen: Pen): seq<Command> {
    [Circle(dotX, LineY(top, i), 1.5, RED), Text(line, textX, LineY(top, i), pen, Left, 0)]
  }

  /** What the `lines.forEach((l, i) => { redDot(...); doc.text(l, ...) })` loops draw, in the pen current before the loop. */
  function Bullets(lines: seq<string>, dotX: real, textX: real, top: real, pen: Pen): seq<Command>
    decreases |lines|
  {
    if lines == [] then []
    else Bullets(lines[..|lines| - 1], dotX, textX, top, pen) + BulletRow(lines[|lines| - 1], |lines| - 1, dotX, textX, top, pen)
  }

  /** Line i is drawn as commands 2i (its dot) and 2i + 1 (its text), 6i below the first. */
  lemma {:induction false} BulletsAt(lines: seq<string>, dotX: real, textX: real, top: real, pen: Pen, i: nat)
    requires i < |lines|
    ensures |Bullets(lines, dotX, textX, top, pen)| == 2 * |lines|
    ensures Bullets(lines, dotX, textX, top, pen)[2 * i] == Circle(dotX, LineY(top, i), 1.5, RED)
    ensures Bullets(lines, dotX, textX, top, pen)[2 * i + 1] == Text(lines[i], textX, LineY(top, i), pen, Left, 0)
    decreases |lines|
  {
    var n := |lines| - 1;
    var init := lines[..n];
    if i < n {
      BulletsAt(init, dotX, textX, top, pen, i);
      assert init[i] == lines[i];
    } else if n > 0 {
      BulletsAt(init, dotX, textX, top, pen, n - 1);
    }
  }

  /** Every command is a dot or a text whose baseline lies between `lo` and `hi`. */
  predicate InBand(cmds: seq<Command>, lo: real, hi: real) {
    forall j | 0 <= j < |cmds| :: (cmds[j].Circle? || cmds[j].Text?) && lo <= cmds[j].y <= hi
  }

  /** A bulleted paragraph lies between the baselines of its first and its last line. */
  lemma {:induction false} BulletsBand(lines: seq<string>, dotX: real, textX: real, top: real, pen: Pen)
    ensures InBand(Bullets(lines, dotX, textX, top, pen), top, top + 6.0 * (|lines| - 1) as real)
    decreases |lines|
  {
    if lines != [] {
      var n := |lines| - 1;
      var init := Bullets(lines[..n], dotX, textX, top, pen);
      var row := BulletRow(lines[n], n, dotX, textX, top, pen);
      BulletsBand(lines[..n], dotX, textX, top, pen);
      var b := init + row;
      forall j | 0 <= j < |b| ensures (b[j].Circle? || b[j].Text?) && top <= b[j].y <= top + 6.0 * n as real {
        if j >= |init| {
          assert b[j] == row[j - |init|];
        } else {
          assert b[j] == init[j];
        }
      }
    }
  }

  /**
   * A paragraph clipped to `budget` lines, its first line 8 below the top of a box of height `boxH`,
   * stays strictly inside the box whenever the budget's last line does: 8 + 6 (budget - 1) < boxH.
   */
  lemma {:induction false} ClippedFits(lines: seq<string>, budget: nat, dotX: real, textX: real, boxTop: real, boxH: real, pen: Pen)
    requires 1 <= budget && 8.0 + 6.0 * (budget - 1) as real < boxH
    ensures InBand(Bullets(Take(lines, budget), dotX, textX, boxTop + 8.0, pen), boxTop + 8.0, boxTop + boxH)
  {
    BulletsBand(Take(lines, budget), dotX, textX, boxTop + 8.0, pen);
  }

  /** Draws `Bullets(lines, ...)` one line at a time; the text pen is left as it was. */
  method DrawBullets(doc: Doc, lines: seq<string>, dotX: real, textX: real, top: real)
    modifies doc`fill, doc`log
    ensures doc.log == old(doc.log) + Bullets(lines, dotX, textX, top, doc.pen)
    ensures doc.fill == if lines == [] then old(doc.fill) else RED
  {
    var i := 0;
    while i < |lines|
      invariant 0 <= i <= |lines|
      invariant doc.log == old(doc.log) + Bullets(lines[..i], dotX, textX, top, doc.pen)
      invariant doc.fill == if i == 0 then old(doc.fill) else RED
    {
      Dot(doc, dotX, LineY(top, i), RED);
      doc.DrawText(lines[i], textX, LineY(top, i), Left, 0);
      assert lines[..i + 1][..i] == lines[..i];
      i := i + 1;
    }
    assert lines[..i] == lines;
  }

  /** The width every full-width paragraph is wrapped to, `W - 32`. */
  const TEXT_WIDTH := 178.0

  /**
   * The pen a section's paragraph is wrapped and drawn in: normal 9-point black where the source sets
   * it (`plain`), otherwise the bold dark-blue pen the section bar left behind.
   */
  function ParagraphPen(plain: bool): Pen {
    if plain then Pen(Normal, 9.0, BLACK) else Pen(Bold, 9.0, DARK_BLUE)
  }

  /** The lines of a section's paragraph: the text wrapped in the paragraph's pen, clipped to the budget. */
  function SectionLines(metrics: Metrics, text: string, budget: nat, plain: bool): (lines: seq<string>)
    ensures |lines| <= budget
  {
    var pen := ParagraphPen(plain);
    Take(metrics.splitText(pen.style, pen.size, text, TEXT_WIDTH), budget)
  }

  /**
   * A titled section: the bar at `y`, a white box from `y + 2` of height `boxH`, and the paragraph
   * clipped to `budget` lines as bullets from `y + 10`.
   */
  function BulletSectionCommands(metrics: Metrics, title: string, y: real, boxH: real, text: string, budget: nat, plain: bool): seq<Command> {
    SectionBarCommands(title, 14.0, y, DARK_BLUE)
    + [BoxCommand(10.0, y + 2.0, PAGE_WIDTH - 20.0, boxH, WHITE)]
    + Bullets(SectionLines(metrics, text, budget, plain), 16.0, 21.0, y + 10.0, ParagraphPen(plain))
  }

  /** The paragraph of a titled section stays inside its box when the box has room for the whole budget. */
  lemma {:induction false} BulletSectionFits(metrics: Metrics, title: string, y: real, boxH: real, text: string, budget: nat, plain: bool)
    requires 1 <= budget && 8.0 + 6.0 * (budget - 1) as real < boxH
    ensures var s := BulletSectionCommands(metrics, title, y, boxH, text, budget, plain);
      && s[2] == BoxCommand(10.0, y + 2.0, PAGE_WIDTH - 20.0, boxH, WHITE)
      && InBand(s[3..], y + 10.0, y + 2.0 + boxH)
  {
    var pen := ParagraphPen(plain);
    var all := metrics.splitText(pen.style, pen.size, text, TEXT_WIDTH);
    ClippedFits(all, budget, 16.0, 21.0, y + 2.0, boxH, pen);
    var s := BulletSectionCommands(metrics, title, y, boxH, text, budget, plain);
    assert s[3..] == Bullets(SectionLines(metrics, text, budget, plain), 16.0, 21.0, y + 10.0, pen);
  }

  /**
   * A titled section (`sectionBar`, `y += 2`, `roundedBox`, `splitTextToSize`, then the bulleted
   * `slice(0, budget).forEach`); `plain` says whether the source sets normal 9-point black first.
   */
  method BulletSection(doc: Doc, title: string, y: real, boxH: real, text: string, budget: nat, plain: bool)
    modifies doc`fill, doc`stroke, doc`pen, doc`log
    ensures doc.log == old(doc.log) + BulletSectionCommands(doc.metrics, title, y, boxH, text, budget, plain)
    ensures doc.pen == ParagraphPen(plain)
  {
    ghost var before := doc.log;
    var _ := SectionBar(doc, title, 14.0, y, DARK_BLUE);
    var top := y + 2.0;
    RoundedBox(doc, 10.0, top, PAGE_WIDTH - 20.0, boxH, WHITE);
    if plain {
      doc.SetFont(Normal);
      doc.SetFontSize(9.0);
      doc.SetTextColor(BLACK);
    }
    var lines := doc.SplitText(text, TEXT_WIDTH);
    DrawBullets(doc, Take(lines, budget), 16.0, 21.0, top + 8.0);
    AppendThree(before, SectionBarCommands(title, 14.0, y, DARK_BLUE), [BoxCommand(10.0, y + 2.0, PAGE_WIDTH - 20.0, boxH, WHITE)],
      Bullets(SectionLines(doc.metrics, text, budget, plain), 16.0, 21.0, y + 10.0, ParagraphPen(plain)));
  }

  // ---------------------------------------------------------------------------
  // Page frame
  // ---------------------------------------------------------------------------

  /** The document id as the header draws it: bold 8-point dark grey, right-aligned at (196, 8). */
  function IdText(id: string): Command {
    Text(id, PAGE_WIDTH - 14.0, 8.0, Pen(Bold, 8.0, DARK_GRAY), Right, 0)
  }

  /** The footer's left-hand line; `stamp` is the locale timestamp taken when the page is generated. */
  function FooterLine(id: string, stamp: string): string {
    "ANDRITZ Condition Monitoring  |  " + id + "  |  Generated: " + stamp
  }

  function FooterText(id: string, stamp: string): Command {
    Text(FooterLine(id, stamp), 14.0, PAGE_HEIGHT - 8.0, Pen(Normal, 7.0, DARK_GRAY), Left, 0)
  }

  /** The footer line carries the document id, and so does the saved file name. */
  lemma {:induction false} IdInFooterAndFileName(id: string, stamp: string, kind: ReportKind)
    ensures Text.Includes(FooterLine(id, stamp), id)
    ensures id <= FileName(id, kind)
  {
    var pre := "ANDRITZ Condition Monitoring  |  ";
    var line := FooterLine(id, stamp);
    assert line == pre + id + ("  |  Generated: " + stamp);
    assert line[|pre|..|pre| + |id|] == id;
    assert Text.OccursAt(line, id, |pre|);
  }

  /** The white page background every generator fills first. */
  const BACKGROUND := Rect(0.0, 0.0, PAGE_WIDTH, PAGE_HEIGHT, WHITE)

  /** What `addHeader(doc, title, subtitle, millName, id)` draws: the logo block, the titles, and the id last. */
  function HeaderCommands(metrics: Metrics, title: string, subtitle: string, millName: string, id: string): (cmds: seq<Command>)
    ensures |cmds| == 10 && cmds[9] == IdText(id)
  {
    [Rect(0.0, 0.0, PAGE_WIDTH, 36.0, WHITE),
     Line(0.0, 36.0, PAGE_WIDTH, 36.0, MID_GRAY),
     Rect(0.0, 0.0, 42.0, 36.0, BLUE),
     Text("ANDRITZ", 4.0, 14.0, Pen(Bold, 16.0, WHITE), Left, 0),
     Rect(4.0, 16.0, 34.0, 1.5, RED),
     TextLines(metrics.splitText(Normal, 7.0, Text.ToUpper(millName), 34.0), 4.0, 22.0, Pen(Normal, 7.0, WHITE)),
     Line(44.0, 4.0, 44.0, 32.0, MID_GRAY),
     Text(title, 48.0, 14.0, Pen(Bold, 15.0, DARK_BLUE), Left, 0),
     Text(subtitle, 48.0, 22.0, Pen(Normal, 10.0, BLUE), Left, 0),
     IdText(id)]
  }

  /** What `addFooter(doc, id)` draws: a rule 14 above the page bottom, the id line and the confidentiality mark. */
  function FooterCommands(id: string, stamp: string): (cmds: seq<Command>)
    ensures |cmds| == 3 && cmds[1] == FooterText(id, stamp)
  {
    [Line(14.0, PAGE_HEIGHT - 14.0, 196.0, PAGE_HEIGHT - 14.0, MID_GRAY),
     FooterText(id, stamp),
     Text("CONFIDENTIAL", 196.0, PAGE_HEIGHT - 8.0, Pen(Normal, 7.0, DARK_GRAY), Right, 0)]
  }

  /** A whole generated document: background, header, the report's own body, footer, and the save. */
  function PageCommands(metrics: Metrics, kind: ReportKind, millName: string, id: string, stamp: string, body: seq<Command>): seq<Command> {
    [BACKGROUND] + HeaderCommands(metrics, kind.Title(), kind.Subtitle(), millName, id) + body
      + FooterCommands(id, stamp) + [Save(FileName(id, kind))]
  }

  /**
   * What every generated document shares: the background first, the header's id at index 10, the
   * footer's id line third from the end, and the save under `<id>_<Kind>.pdf` last.
   */
  predicate Framed(log: seq<Command>, id: string, stamp: string, kind: ReportKind) {
    && |log| >= 15
    && log[0] == BACKGROUND
    && log[10] == IdText(id)
    && log[|log| - 3] == FooterText(id, stamp)
    && log[|log| - 1] == Save(FileName(id, kind))
  }

  /** Every page is framed, the same id appearing in the header, the footer and the file name, and the body sits between them. */
  lemma PageFramed(metrics: Metrics, kind: ReportKind, millName: string, id: string, stamp: string, body: seq<Command>)
    ensures var page := PageCommands(metrics, kind, millName, id, stamp, body);
      && Framed(page, id, stamp, kind)
      && |page| == |body| + 15
      && page[11..|page| - 4] == body
  {
    var header := HeaderCommands(metrics, kind.Title(), kind.Subtitle(), millName, id);
    var page := PageCommands(metrics, kind, millName, id, stamp, body);
    assert page[10] == header[9];
    assert page[11..|page| - 4] == body;
  }

  /** The start of `addHeader`: the white band with its bottom rule and the blue logo block. */
  method HeaderBand(doc: Doc)
    modifies doc`fill, doc`stroke, doc`log
    ensures doc.log == old(doc.log) + HeaderCommands(doc.metrics, "", "", "", "")[..3]
    ensures doc.fill == BLUE && doc.stroke == MID_GRAY
  {
    doc.SetFillColor(WHITE);
    doc.FillRect(0.0, 0.0, PAGE_WIDTH, 36.0);
    doc.SetDrawColor(MID_GRAY);
    doc.DrawLine(0.0, 36.0, PAGE_WIDTH, 36.0);

    doc.SetFillColor(BLUE);
    doc.FillRect(0.0, 0.0, 42.0, 36.0);
  }

  /** The logo text, its red rule, and the mill name wrapped under it. */
  method HeaderBrand(doc: Doc, millName: string)
    modifies doc`fill, doc`pen, doc`log
    ensures doc.log == old(doc.log) + HeaderCommands(doc.metrics, "", "", millName, "")[3..6]
    ensures doc.pen == Pen(Normal, 7.0, WHITE) && doc.fill == RED
  {
    doc.SetFont(Bold);
    doc.SetFontSize(16.0);
    doc.SetTextColor(WHITE);
    doc.DrawText("ANDRITZ", 4.0, 14.0, Left, 0);

    doc.SetFillColor(RED);
    doc.FillRect(4.0, 16.0, 34.0, 1.5);

    doc.SetFont(Normal);
    doc.SetFontSize(7.0);
    doc.SetTextColor(WHITE);
    var millLines := doc.SplitText(Text.ToUpper(millName), 34.0);
    doc.DrawLines(millLines, 4.0, 22.0);
  }

  /** The second half of `addHeader`: the divider, the title, the subtitle and the id at the top right. */
  method HeaderTitle(doc: Doc, title: string, subtitle: string, id: string)
    modifies doc`stroke, doc`pen, doc`log
    ensures doc.log == old(doc.log) + HeaderCommands(doc.metrics, title, subtitle, "", id)[6..]
    ensures doc.pen == Pen(Bold, 8.0, DARK_GRAY) && doc.stroke == MID_GRAY
  {
    doc.SetDrawColor(MID_GRAY);
    doc.DrawLine(44.0, 4.0, 44.0, 32.0);

    doc.SetFont(Bold);
    doc.SetFontSize(15.0);
    doc.SetTextColor(DARK_BLUE);
    doc.DrawText(title, 48.0, 14.0, Left, 0);

    doc.SetFont(Normal);
    doc.SetFontSize(10.0);
    doc.SetTextColor(BLUE);
    doc.DrawText(subtitle, 48.0, 22.0, Left, 0);

    doc.SetFont(Bold);
    doc.SetFontSize(8.0);
    doc.SetTextColor(DARK_GRAY);
    doc.DrawText(id, PAGE_WIDTH - 14.0, 8.0, Right, 0);
  }

  /** `addHeader(doc, title, subtitle, millName, id)`. */
  method AddHeader(doc: Doc, title: string, subtitle: string, millName: string, id: string)
    modifies doc`fill, doc`stroke, doc`pen, doc`log
    ensures doc.log == old(doc.log) + HeaderCommands(doc.metrics, title, subtitle, millName, id)
    ensures doc.pen == Pen(Bold, 8.0, DARK_GRAY) && doc.fill == RED && doc.stroke == MID_GRAY
  {
    ghost var before := doc.log;
    HeaderBand(doc);
    HeaderBrand(doc, millName);
    HeaderTitle(doc, title, subtitle, id);
    var h := HeaderCommands(doc.metrics, title, subtitle, millName, id);
    assert h == h[..3] + h[3..6] + h[6..];
    AppendThree(before, h[..3], h[3..6], h[6..]);
  }

  /** `addFooter(doc, id)`, with the locale timestamp passed in as `stamp`. */
  method AddFooter(doc: Doc, id: string, stamp: string)
    modifies doc`stroke, doc`pen, doc`log
    ensures doc.log == old(doc.log) + FooterCommands(id, stamp)
    ensures doc.pen == Pen(Normal, 7.0, DARK_GRAY) && doc.stroke == MID_GRAY
  {
    doc.SetDrawColor(MID_GRAY);
    doc.DrawLine(14.0, PAGE_HEIGHT - 14.0, 196.0, PAGE_HEIGHT - 14.0);
    doc.SetFont(Normal);
    doc.SetFontSize(7.0);
    doc.SetTextColor(DARK_GRAY);
    doc.DrawText(FooterLine(id, stamp), 14.0, PAGE_HEIGHT - 8.0, Left, 0);
    doc.DrawText("CONFIDENTIAL", 196.0, PAGE_HEIGHT - 8.0, Right, 0);
  }

  /** The page background and the header, drawn first by every generator on a new document. */
  method BeginPage(doc: Doc, kind: ReportKind, millName: string, id: string)
    requires doc.log == []
    modifies doc`fill, doc`stroke, doc`pen, doc`log
    ensures doc.log == [BACKGROUND] + HeaderCommands(doc.metrics, kind.Title(), kind.Subtitle(), millName, id)
    ensures doc.pen == Pen(Bold, 8.0, DARK_GRAY) && doc.fill == RED && doc.stroke == MID_GRAY
  {
    doc.SetFillColor(WHITE);
    doc.FillRect(0.0, 0.0, PAGE_WIDTH, PAGE_HEIGHT);
    AddHeader(doc, kind.Title(), kind.Subtitle(), millName, id);
  }

  /** The footer and the save, done last by every generator: the finished log is the whole page. */
  method EndPage(doc: Doc, kind: ReportKind, millName: string, id: string, stamp: string, body: seq<Command>)
    requires doc.log == [BACKGROUND] + HeaderCommands(doc.metrics, kind.Title(), kind.Subtitle(), millName, id) + body
    modifies doc`stroke, doc`pen, doc`log
    ensures doc.log == PageCommands(doc.metrics, kind, millName, id, stamp, body)
    ensures doc.pen == Pen(Normal, 7.0, DARK_GRAY) && doc.stroke == MID_GRAY
  {
    AddFooter(doc, id, stamp);
    doc.SaveAs(FileName(id, kind));
  }
}
