/**
 * The page canvas the report generators draw on (the jsPDF document object), modelled as the
 * drawing state jsPDF keeps between calls (current font, font size, text, fill and stroke
 * colour) and an append-only log of the drawing commands issued, each command carrying the
 * state it was drawn with. Font metrics, line wrapping and the table plug-in's layout are
 * not modelled: they are function values supplied in `Metrics`; text widths are non-negative, and
 * nothing else is assumed about them.
 * Units are millimetres on an A4 page (210 x 297).
 */
module Canvas {

  const PAGE_WIDTH: real := 210.0
  const PAGE_HEIGHT: real := 297.0

  /** A non-negative length in millimetres. */
  type Mm = x: real | 0.0 <= x

  datatype Rgb = Rgb(r: int, g: int, b: int)

  datatype FontStyle = Normal | Bold | Italic

  /** The text state a string is drawn with. */
  datatype Pen = Pen(style: FontStyle, size: real, color: Rgb)

  datatype Align = Left | Center | Right

  /** jsPDF's 'F' (fill only) and 'FD' (fill, then stroke the outline in the given colour) paint styles. */
  datatype Paint = Fill | FillStroke(outline: Rgb)

  datatype Command =
    | Text(content: string, x: real, y: real, pen: Pen, align: Align, angle: int)
    | TextLines(lines: seq<string>, x: real, y: real, pen: Pen)
    | Rect(x: real, y: real, w: real, h: real, fill: Rgb)
    | RoundedRect(x: real, y: real, w: real, h: real, radius: real, paint: Paint, fill: Rgb)
    | Circle(x: real, y: real, radius: real, fill: Rgb)
    | Line(x1: real, y1: real, x2: real, y2: real, stroke: Rgb)
    | Table(startY: real, head: seq<seq<string>>, body: seq<seq<string>>)
    | Save(fileName: string)

  /**
   * What the foreign library computes and the model leaves uninterpreted: `getTextWidth` (in the
   * current font and size), `splitTextToSize` (wrapping to a width, in the current font and size)
   * and the bottom edge `lastAutoTable.finalY` of a table started at a given height.
   */
  datatype Metrics = Metrics(
    textWidth: (FontStyle, real, string) -> Mm,
    splitText: (FontStyle, real, string, real) -> seq<string>,
    tableEnd: (real, seq<seq<string>>, seq<seq<string>>) -> real)

  /** `after` is `before` with commands appended. */
  ghost predicate Extends(before: seq<Command>, after: seq<Command>) {
    |before| <= |after| && after[..|before|] == before
  }

  lemma ExtendsKeeps(a: seq<Command>, b: seq<Command>, i: nat)
    requires Extends(a, b) && i < |a|
    ensures b[i] == a[i]
  {
    assert b[..|a|][i] == b[i];
  }

  class Doc {
    const metrics: Metrics
    var pen: Pen
    var fill: Rgb
    var stroke: Rgb
    var log: seq<Command>

    /** `new jsPDF({ unit: 'mm', format: 'a4' })`: an empty page with jsPDF's initial state. */
    constructor (metrics: Metrics)
      ensures this.metrics == metrics
      ensures pen == Pen(Normal, 16.0, Rgb(0, 0, 0)) && fill == Rgb(0, 0, 0) && stroke == Rgb(0, 0, 0)
      ensures log == []
    {
      this.metrics := metrics;
      pen := Pen(Normal, 16.0, Rgb(0, 0, 0));
      fill := Rgb(0, 0, 0);
      stroke := Rgb(0, 0, 0);
      log := [];
    }

    /** `doc.getTextWidth(s)`, measured in the current font and size. */
    function TextWidth(s: string): Mm
      reads this
    {
      metrics.textWidth(pen.style, pen.size, s)
    }

    /** `doc.splitTextToSize(s, width)`, wrapped in the current font and size. */
    function SplitText(s: string, width: real): seq<string>
      reads this
    {
      metrics.splitText(pen.style, pen.size, s, width)
    }

    method SetFont(style: FontStyle)
      modifies this`pen
      ensures pen == old(pen).(style := style)
    {
      pen := pen.(style := style);
    }

    method SetFontSize(size: real)
      modifies this`pen
      ensures pen == old(pen).(size := size)
    {
      pen := pen.(size := size);
    }

    method SetTextColor(color: Rgb)
      modifies this`pen
      ensures pen == old(pen).(color := color)
    {
      pen := pen.(color := color);
    }

    method SetFillColor(color: Rgb)
      modifies this`fill
      ensures fill == color
    {
      fill := color;
    }

    method SetDrawColor(color: Rgb)
      modifies this`stroke
      ensures stroke == color
    {
      stroke := color;
    }

    /** `doc.text(s, x, y, { align, angle })` with the current pen. */
    method DrawText(s: string, x: real, y: real, align: Align, angle: int)
      modifies this`log
      ensures log == old(log) + [Text(s, x, y, pen, align, angle)]
    {
      log := log + [Text(s, x, y, pen, align, angle)];
    }

    /** `doc.text(lines, x, y)`: several lines stacked by the library from one baseline. */
    method DrawLines(lines: seq<string>, x: real, y: real)
      modifies this`log
      ensures log == old(log) + [TextLines(lines, x, y, pen)]
    {
      log := log + [TextLines(lines, x, y, pen)];
    }

    /** `doc.rect(x, y, w, h, 'F')` in the current fill colour. */
    method FillRect(x: real, y: real, w: real, h: real)
      modifies this`log
      ensures log == old(log) + [Rect(x, y, w, h, fill)]
    {
      log := log + [Rect(x, y, w, h, fill)];
    }

    /** `doc.roundedRect(x, y, w, h, radius, radius, stroked ? 'FD' : 'F')` in the current fill (and stroke) colour. */
    method RoundedRectangle(x: real, y: real, w: real, h: real, radius: real, stroked: bool)
      modifies this`log
      ensures log == old(log) + [RoundedRect(x, y, w, h, radius, if stroked then FillStroke(stroke) else Fill, fill)]
    {
      log := log + [RoundedRect(x, y, w, h, radius, if stroked then FillStroke(stroke) else Fill, fill)];
    }

    /** `doc.circle(x, y, radius, 'F')` in the current fill colour. */
    method FillCircle(x: real, y: real, radius: real)
      modifies this`log
      ensures log == old(log) + [Circle(x, y, radius, fill)]
    {
      log := log + [Circle(x, y, radius, fill)];
    }

    /** `doc.line(x1, y1, x2, y2)` in the current stroke colour. */
    method DrawLine(x1: real, y1: real, x2: real, y2: real)
      modifies this`log
      ensures log == old(log) + [Line(x1, y1, x2, y2, stroke)]
    {
      log := log + [Line(x1, y1, x2, y2, stroke)];
    }

    /** `doc.autoTable({ startY, head, body, ... })` followed by reading `doc.lastAutoTable.finalY`. */
    method AutoTable(startY: real, head: seq<seq<string>>, body: seq<seq<string>>) returns (finalY: real)
      modifies this`log
      ensures log == old(log) + [Table(startY, head, body)]
      ensures finalY == metrics.tableEnd(startY, head, body)
    {
      log := log + [Table(startY, head, body)];
      finalY := metrics.tableEnd(startY, head, body);
    }

    /** `doc.save(fileName)`. */
    method SaveAs(fileName: string)
      modifies this`log
      ensures log == old(log) + [Save(fileName)]
    {
      log := log + [Save(fileName)];
    }
  }
}
