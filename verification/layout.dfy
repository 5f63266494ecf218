/**
 The field-width layout arithmetic of `draw_text`: from the measured size of
 the text at the supersampled font size, the size of the canvas it is drawn
 on, where on that canvas the text starts, and the size it is shrunk to.
 */
module Layout {
  import opened Basics

  /** The text is drawn this many times too large ... */
  const ScaleUp: int := 5
  /** ... and shrunk by this factor afterwards. */
  const ScaleDown: int := 5

  /** Where and how big the text image is made: the canvas the text is drawn
      on, the horizontal start of the text on it, and the final shrunk size. */
  datatype Plan = Plan(canvas: Size, startX: int, final: Size)

  /** Python's `a // b` for a positive `b`: Dafny's Euclidean division rounds
      down whenever the divisor is positive, as floor division does. */
  predicate IsFloorDiv(q: int, a: int, b: int)
    requires b > 0
  {
    q * b <= a < (q + 1) * b
  }

  /**
   Lays out text that measures `measured` at the supersampled size, inside an
   optional field `width` (0 means no field) aligned by `align`. As written,
   a field width with any alignment other than "center" keeps the measured
   canvas and shrinks it to `width / 5`, not to `width`.
   */
  function PlanImage(measured: Size, width: int, align: string): (r: Plan)
    ensures IsFloorDiv(r.final.h, measured.h, ScaleDown)
    ensures width == 0 ==>
              && r.canvas == measured
              && r.startX == 0
              && IsFloorDiv(r.final.w, measured.w, ScaleDown)
    ensures width != 0 && align == "center" ==>
              && r.canvas == Size(width * ScaleUp, measured.h)
              && r.final.w == width
              // the left margin and the right margin differ by at most one pixel
              && 0 <= (r.canvas.w - measured.w - r.startX) - r.startX <= 1
    ensures width != 0 && align != "center" ==>
              && r.canvas == measured
              && r.startX == 0
              && IsFloorDiv(r.final.w, width, ScaleDown)
  {
    var textWidth := measured.w;
    var textHeight := measured.h;
    if width == 0 then
      Plan(measured, 0, Size(textWidth / ScaleDown, textHeight / ScaleDown))
    else if align == "center" then
      var fieldWidth := width * ScaleUp;
      Plan(Size(fieldWidth, textHeight), (fieldWidth - textWidth) / 2,
           Size(fieldWidth / ScaleDown, textHeight / ScaleDown))
    else
      Plan(measured, 0, Size(width / ScaleDown, textHeight / ScaleDown))
  }
}
