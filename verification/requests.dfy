/**
 The arguments of one `draw_text` call and the cache key built from them.
 The key is an f-string: the fields' string forms concatenated with nothing
 between them. Text, an alignment string and a string font name appear
 verbatim, the width as Python's `str(int)`, the flags as "True"/"False".
 The forms of a colour, of the float font size and of a tuple or list of
 font names come from the `Formatter` oracle, which is told whether a
 colour or a group of names is a tuple or a list.
 */
module Requests {
  import opened Basics
  import opened Fonts
  import Layout

  datatype Request = Request(
    text: string,
    startX: real, startY: real,
    color: Color,
    fontSize: real,
    width: int,
    align: string,
    fontName: FontSpec,
    bold: bool, italic: bool,
    anchorX: string, anchorY: string,
    rotation: real)

  /** A call that passes only the four required arguments. */
  function WithDefaults(text: string, x: real, y: real, color: Color): Request {
    Request(text, x, y, color, 12.0, 0, "left", DefaultFontName, false, false,
            "left", "baseline", 0.0)
  }

  /** Python's `str` of the values whose form the model leaves abstract. */
  datatype Formatter = Formatter(color: Color -> string,
                                 number: real -> string,
                                 names: (seq<string>, Container) -> string)

  /** The pyglet calibration factor applied to every font size. */
  const Calibration: real := 1.25
  /** The supersampling factor `scale_up`, as a real multiplier of the font size. */
  const Supersample: real := Layout.ScaleUp as real

  /** The font size after `font_size *= 1.25` and `font_size *= scale_up`. */
  function ScaledFontSize(fontSize: real): real {
    fontSize * Calibration * Supersample
  }

  /** Python's `int` of a float: truncation toward zero. */
  function Truncate(x: real): (n: int)
    ensures x >= 0.0 ==> n as real <= x < n as real + 1.0
    ensures x < 0.0 ==> n as real - 1.0 < x <= n as real
  {
    if x >= 0.0 then x.Floor else -((-x).Floor)
  }

  /** The point size every font is loaded at: `int(font_size)` after both
      scalings. */
  function PointSize(fontSize: real): int {
    Truncate(ScaledFontSize(fontSize))
  }

  function Digit(d: int): char
    requires 0 <= d < 10
  {
    "0123456789"[d]
  }

  function NatText(n: nat): string
    decreases n
  {
    if n < 10 then [Digit(n)] else NatText(n / 10) + [Digit(n % 10)]
  }

  /** Python's `str` of an integer. */
  function IntText(n: int): string {
    if n < 0 then "-" + NatText(-n) else NatText(n)
  }

  function BoolText(b: bool): string {
    if b then "True" else "False"
  }

  function FontText(fmt: Formatter, spec: FontSpec): string {
    match spec
    case Name(n) => n
    case Names(ns, container) => fmt.names(ns, container)
  }

  /**
   The cache key: the string forms of text, colour, scaled font size, the
   width the caller passed (before the layout reassigns it), alignment, font
   name, bold and italic, concatenated in that order. It starts with the text
   and ends with the bold and italic flags.
   */
  function Key(fmt: Formatter, req: Request): (k: string)
    ensures req.text <= k
    ensures var flags := BoolText(req.bold) + BoolText(req.italic);
            |k| >= |flags| && k[|k| - |flags|..] == flags
  {
    req.text + fmt.color(req.color) + fmt.number(ScaledFontSize(req.fontSize))
    + IntText(req.width) + req.align + FontText(fmt, req.fontName)
    + BoolText(req.bold) + BoolText(req.italic)
  }

  /** Two calls have the same style when every field the key is built from
      is equal. */
  predicate SameStyle(a: Request, b: Request) {
    && a.text == b.text && a.color == b.color && a.fontSize == b.fontSize
    && a.width == b.width && a.align == b.align && a.fontName == b.fontName
    && a.bold == b.bold && a.italic == b.italic
  }

  /** Position, anchors and rotation never reach the key. */
  lemma KeyIgnoresPlacement(fmt: Formatter, a: Request, b: Request)
    requires SameStyle(a, b)
    ensures Key(fmt, a) == Key(fmt, b)
  {
  }

  /**
   The key is not injective: width 1 with alignment "0left" and width 10 with
   alignment "left" both contribute "10left", so two different styles share
   one key.
   */
  lemma KeyAliases(fmt: Formatter, base: Request)
    ensures var a := base.(width := 1, align := "0left");
            var b := base.(width := 10, align := "left");
            !SameStyle(a, b) && Key(fmt, a) == Key(fmt, b)
  {
    assert IntText(1) == "1";
    assert NatText(10) == NatText(1) + [Digit(0)];
    assert IntText(10) == "10";
    var p := base.text + fmt.color(base.color) + fmt.number(ScaledFontSize(base.fontSize));
    assert p + "1" + "0left" == p + "10" + "left";
  }
}
