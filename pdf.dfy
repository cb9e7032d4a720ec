/** The PDF writer as the export code uses it: one page object that keeps
    the current drawing state (fill colour, text colour, font, line width)
    and an append-only log of what has been drawn. Each drawing call records
    the state it was drawn with. Text measurement is the library's and is a
    parameter of the page. */
module Pdf {

  datatype Color = Rgb(r: int, g: int, b: int)

  const White: Color := Rgb(255, 255, 255)
  const Black: Color := Rgb(0, 0, 0)
  const Grey: Color := Rgb(200, 200, 200)

  datatype Font = Font(name: string, style: string, size: real)

  /** The text alignment the page uses: centred on the given x. */
  datatype Align = Center

  /** What a drawing call leaves on the page, or the final save. */
  datatype Op =
    | Rect(x: real, y: real, w: real, h: real, style: string, fill: Color)
    | Image(data: string, format: string, x: real, y: real, w: real, h: real)
    | Text(text: string, x: real, y: real, align: Align, font: Font, color: Color)
    | Line(x1: real, y1: real, x2: real, y2: real, width: real)
    | Save(fileName: string)

  /** The library's text-width measurement for a string in a font. */
  type Measure = (string, Font) -> real

  /** The drawing state of a new page: black fill and text, 16-point
      Helvetica, the library's default line width. */
  const InitialFont: Font := Font("helvetica", "normal", 16.0)
  const InitialLineWidth: real := 0.200025

  class Document {
    const pageWidth: real
    const pageHeight: real
    const measure: Measure

    var ops: seq<Op>
    var fillColor: Color
    var textColor: Color
    var font: Font
    var lineWidth: real

    constructor (pageWidth: real, pageHeight: real, measure: Measure)
      ensures this.pageWidth == pageWidth && this.pageHeight == pageHeight
      ensures this.measure == measure
      ensures ops == []
      ensures fillColor == Black && textColor == Black
      ensures font == InitialFont && lineWidth == InitialLineWidth
    {
      this.pageWidth := pageWidth;
      this.pageHeight := pageHeight;
      this.measure := measure;
      ops := [];
      fillColor := Black;
      textColor := Black;
      font := InitialFont;
      lineWidth := InitialLineWidth;
    }

    method SetFillColor(r: int, g: int, b: int)
      modifies this`fillColor
      ensures fillColor == Rgb(r, g, b)
    {
      fillColor := Rgb(r, g, b);
    }

    method SetTextColor(r: int, g: int, b: int)
      modifies this`textColor
      ensures textColor == Rgb(r, g, b)
    {
      textColor := Rgb(r, g, b);
    }

    /** Changes the size and keeps the face. */
    method SetFontSize(size: real)
      modifies this`font
      ensures font == old(font).(size := size)
    {
      font := font.(size := size);
    }

    /** Changes the face and keeps the size. */
    method SetFont(name: string, style: string)
      modifies this`font
      ensures font == Font(name, style, old(font).size)
    {
      font := Font(name, style, font.size);
    }

    method SetLineWidth(w: real)
      modifies this`lineWidth
      ensures lineWidth == w
    {
      lineWidth := w;
    }

    /** A rectangle, filled with the current fill colour. */
    method DrawRect(x: real, y: real, w: real, h: real, style: string)
      modifies this`ops
      ensures ops == old(ops) + [Rect(x, y, w, h, style, fillColor)]
    {
      ops := ops + [Rect(x, y, w, h, style, fillColor)];
    }

    method AddImage(data: string, format: string, x: real, y: real, w: real, h: real)
      modifies this`ops
      ensures ops == old(ops) + [Image(data, format, x, y, w, h)]
    {
      ops := ops + [Image(data, format, x, y, w, h)];
    }

    /** A string, set in the current font and text colour. */
    method DrawText(text: string, x: real, y: real, align: Align)
      modifies this`ops
      ensures ops == old(ops) + [Text(text, x, y, align, font, textColor)]
    {
      ops := ops + [Text(text, x, y, align, font, textColor)];
    }

    /** A straight line, stroked with the current line width. */
    method DrawLine(x1: real, y1: real, x2: real, y2: real)
      modifies this`ops
      ensures ops == old(ops) + [Line(x1, y1, x2, y2, lineWidth)]
    {
      ops := ops + [Line(x1, y1, x2, y2, lineWidth)];
    }

    /** Hands the finished document to the browser under a file name. */
    method Save(fileName: string)
      modifies this`ops
      ensures ops == old(ops) + [Op.Save(fileName)]
    {
      ops := ops + [Op.Save(fileName)];
    }

    /** The width of a string in the current font. */
    function TextWidth(text: string): real
      reads this
    {
      measure(text, font)
    }
  }
}
