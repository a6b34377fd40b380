/**
 * The operator table `pdf_operator`: for every operator symbol, the rule that
 * checks its parameters and renders its line of content stream text.
 *
 * A formatter in pdfrwExtended is a Python lambda; calling it with the wrong
 * number of arguments, or with a value of the wrong type, raises inside
 * Python (TypeError, ValueError, IndexError): such calls yield
 * `ArgumentError`. Values outside an operator's domain yield the
 * `raiseValueError` / `raiseNotImplementedError` errors of `_misc.py`.
 */
module Operators {
  import opened Common
  import opened Decimal
  import opened Symbols

  // ---------------------------------------------------------------------
  // Rendering of single values

  /** The format spec `.4f` applied to `p`. */
  function Num4(p: Param): Result<string> {
    if IsNumber(p) then Ok(Fmt4(NumValue(p))) else Err(ArgumentError)
  }

  /** The format spec `.2f` applied to `p`. */
  function Num2(p: Param): Result<string> {
    if IsNumber(p) then Ok(Fmt2(NumValue(p))) else Err(ArgumentError)
  }

  /** The format spec `d` applied to `p`: only an int is accepted. */
  function IntD(p: Param): Result<string> {
    if p.PInt? then Ok(IntText(p.i)) else Err(ArgumentError)
  }

  /** The operand of `p + '...'`: only a string is accepted. */
  function Text(p: Param): Result<string> {
    if p.PStr? then Ok(p.s) else Err(ArgumentError)
  }

  /** The elements a `for` loop visits: list and tuple items, or the
      one-character strings of a string. */
  function Iterate(p: Param): Result<seq<Param>> {
    match p
    case PList(items) => Ok(items)
    case PTuple(es) => Ok(es)
    case PStr(s) => Ok(seq(|s|, k requires 0 <= k < |s| => PStr([s[k]])))
    case _ => Err(ArgumentError)
  }

  /** Every element of `ps` with the format spec `.4f`, in order. */
  function Nums4(ps: seq<Param>): (r: Result<seq<string>>)
    ensures r.Ok? <==> forall k :: 0 <= k < |ps| ==> IsNumber(ps[k])
    ensures r.Ok? ==> |r.value| == |ps|
    ensures r.Ok? ==> forall k :: 0 <= k < |ps| ==> r.value[k] == Fmt4(NumValue(ps[k]))
  {
    if |ps| == 0 then Ok([])
    else
      var head :- Num4(ps[0]);
      var tail :- Nums4(ps[1..]);
      Ok([head] + tail)
  }

  /** The elements of a `TJ` array: strings in parentheses, numbers with two
      decimals. */
  function KerningParts(ps: seq<Param>): Result<seq<string>> {
    if |ps| == 0 then Ok([])
    else
      var head :- (if ps[0].PStr? then Ok("(" + ps[0].s + ")") else Num2(ps[0]));
      var tail :- KerningParts(ps[1..]);
      Ok([head] + tail)
  }

  /** Parameters as 4-decimal numbers separated by spaces, then the symbol. */
  function NumbersThen(ps: seq<Param>, symbol: string): Result<string> {
    var nums :- Nums4(ps);
    Ok(Spaced(Join(" ", nums), symbol))
  }

  /** `str(p)` for the `properties` operand of DP and BDC. */
  function PyStr(p: Param): string
    decreases p, 1
  {
    match p
    case PStr(s) => s
    case PInt(i) => IntText(i)
    case PReal(r) => Fmt4(r)
    case PList(items) => "[" + Join(", ", ReprAll(items)) + "]"
    case PTuple(es) => "(" + Join(", ", ReprAll(es)) + (if |es| == 1 then ",)" else ")")
  }

  /** `repr(p)` of a list or tuple element: strings are quoted and escaped. */
  function PyRepr(p: Param): string
    decreases p, 2
  {
    if p.PStr? then StrRepr(p.s) else PyStr(p)
  }

  /** `repr(s)` of a string: the text between quotes reads back as `s`. */
  function StrRepr(s: string): (r: string)
    ensures |r| >= 2 && r[0] == QuoteFor(s) && r[|r| - 1] == QuoteFor(s)
    ensures Unescape(r[1..|r| - 1]) == s
  {
    var q := QuoteFor(s);
    var r := [q] + Escaped(s, q) + [q];
    assert r[1..|r| - 1] == Escaped(s, q);
    EscapedReadsBack(s, q);
    r
  }

  /** The quote `repr` chooses: a double quote only for a string that holds
      a single quote and no double quote. */
  function QuoteFor(s: string): char {
    if '\'' in s && '"' !in s then '"' else '\''
  }

  /** The characters up to U+00FF that `repr` does not print as they are:
      the C0 controls, DEL, the C1 controls, the no-break space and the soft
      hyphen. */
  predicate Unprintable(c: char) {
    c as int < 0x20 || 0x7F <= c as int <= 0xA0 || c as int == 0xAD
  }

  /** One character of a string inside quote `q`, as `repr` writes it. */
  function EscapeChar(c: char, q: char): string {
    if c == '\\' || c == q then ['\\', c]
    else if c == '\t' then "\\t"
    else if c == '\n' then "\\n"
    else if c == '\r' then "\\r"
    else if Unprintable(c) then "\\x" + [HexDigit(c as int / 16), HexDigit(c as int % 16)]
    else [c]
  }

  function Escaped(s: string, q: char): string {
    if |s| == 0 then "" else EscapeChar(s[0], q) + Escaped(s[1..], q)
  }

  /** A lower-case hexadecimal digit. */
  function HexDigit(v: int): char
    requires 0 <= v < 16
  {
    "0123456789abcdef"[v]
  }

  function HexValue(c: char): (v: nat)
    ensures v < 16
  {
    if '0' <= c <= '9' then c as int - '0' as int
    else if 'a' <= c <= 'f' then c as int - 'a' as int + 10
    else 0
  }

  predicate IsHex(c: char) {
    '0' <= c <= '9' || 'a' <= c <= 'f'
  }

  /** How Python reads the text of a string literal back: the escapes
      `repr` writes stand for the characters they name. */
  function Unescape(t: string): string
    decreases |t|
  {
    if |t| == 0 then ""
    else if t[0] == '\\' && |t| >= 4 && t[1] == 'x' && IsHex(t[2]) && IsHex(t[3]) then
      [(16 * HexValue(t[2]) + HexValue(t[3])) as char] + Unescape(t[4..])
    else if t[0] == '\\' && |t| >= 2 then [Unescaped(t[1])] + Unescape(t[2..])
    else [t[0]] + Unescape(t[1..])
  }

  function Unescaped(c: char): char {
    if c == 't' then '\t' else if c == 'n' then '\n' else if c == 'r' then '\r' else c
  }

  /** The escaped text reads back as the string, one character at a time. */
  lemma {:induction false} EscapedReadsBack(s: string, q: char)
    requires q == '\'' || q == '"'
    ensures Unescape(Escaped(s, q)) == s
  {
    if |s| > 0 {
      EscapedReadsBack(s[1..], q);
      EscapeCharReadsBack(s[0], q, Escaped(s[1..], q));
    }
  }

  lemma EscapeCharReadsBack(c: char, q: char, rest: string)
    requires q == '\'' || q == '"'
    ensures Unescape(EscapeChar(c, q) + rest) == [c] + Unescape(rest)
  {
    if c == '\\' || c == q {
      UnescapePair(c, rest);
    } else if c == '\t' {
      UnescapePair('t', rest);
    } else if c == '\n' {
      UnescapePair('n', rest);
    } else if c == '\r' {
      UnescapePair('r', rest);
    } else if Unprintable(c) {
      var v := c as int;
      HexDigitReadsBack(v / 16);
      HexDigitReadsBack(v % 16);
      UnescapeHex(HexDigit(v / 16), HexDigit(v % 16), rest);
    } else {
      assert ([c] + rest)[1..] == rest;
    }
  }

  /** A backslash and a character other than `x`. */
  lemma UnescapePair(e: char, rest: string)
    requires e != 'x'
    ensures Unescape(['\\', e] + rest) == [Unescaped(e)] + Unescape(rest)
  {
    assert (['\\', e] + rest)[2..] == rest;
  }

  /** A backslash, `x` and two hexadecimal digits. */
  lemma UnescapeHex(h1: char, h2: char, rest: string)
    requires IsHex(h1) && IsHex(h2)
    ensures Unescape(['\\', 'x', h1, h2] + rest) == [(16 * HexValue(h1) + HexValue(h2)) as char] + Unescape(rest)
  {
    assert (['\\', 'x', h1, h2] + rest)[4..] == rest;
  }

  lemma HexDigitReadsBack(d: int)
    requires 0 <= d < 16
    ensures IsHex(HexDigit(d)) && HexValue(HexDigit(d)) == d
  {
  }


  function ReprAll(ps: seq<Param>): seq<string>
    decreases ps
  {
    if |ps| == 0 then [] else [PyRepr(ps[0])] + ReprAll(ps[1..])
  }

  predicate AllNumbers(ps: seq<Param>) {
    forall k :: 0 <= k < |ps| ==> IsNumber(ps[k])
  }

  // ---------------------------------------------------------------------
  // isWithinLimits as the colour operators call it

  /** The list `isWithinLimits` scans: a list argument, or a one-element list. */
  function LimitValues(p: Param): seq<Param> {
    if p.PList? then p.items else [p]
  }

  /** `isWithinLimits(values)` with the default limits [0, 1], over Python
      values: it stops at the first value below 0 or above 1 and answers
      false; comparing a non-number raises before that. */
  function ScanUnitLimits(vs: seq<Param>): Result<bool> {
    if |vs| == 0 then Ok(true)
    else if !IsNumber(vs[0]) then Err(ArgumentError)
    else if NumValue(vs[0]) < 0.0 || NumValue(vs[0]) > 1.0 then Ok(false)
    else ScanUnitLimits(vs[1..])
  }

  // ---------------------------------------------------------------------
  // The formatters

  /** Operators checked against a set of integers, as `J`, `j`, `i` and `Tr`
      are: membership is Python's `in`, so 1.0 passes it, and then
      the format spec `d` refuses a float. */
  function IntegerChoice(ps: seq<Param>, lo: int, hi: int, item: string, symbol: string): Result<string> {
    if |ps| != 1 then Err(ArgumentError)
    else if exists k :: lo <= k <= hi && NumEquals(ps[0], k) then
      var t :- IntD(ps[0]);
      Ok(Spaced(t, symbol))
    else Err(InvalidValue(item, ps[0]))
  }

  const Intents: seq<string> := ["AbsoluteColorimetric", "RelativeColorimetric", "Saturation", "Perceptual"]
  const ColorSpaces: seq<string> := ["/DeviceGray", "/DeviceRGB", "/DeviceCMYK", "/Pattern"]

  /** Exactly `n` numbers, then the symbol. */
  function Numbers(ps: seq<Param>, n: nat, symbol: string): Result<string> {
    if |ps| != n then Err(ArgumentError) else NumbersThen(ps, symbol)
  }

  /** No parameter, and the symbol alone. */
  function Bare(ps: seq<Param>, symbol: string): Result<string> {
    if |ps| != 0 then Err(ArgumentError) else Ok(symbol)
  }

  /** One string operand, then the symbol. */
  function Named(ps: seq<Param>, symbol: string): Result<string> {
    if |ps| != 1 then Err(ArgumentError)
    else var t :- Text(ps[0]); Ok(Spaced(t, symbol))
  }

  /** A tag, the `str()` of a properties operand, then the symbol. */
  function TaggedProperties(ps: seq<Param>, symbol: string): Result<string> {
    if |ps| != 2 then Err(ArgumentError)
    else var t :- Text(ps[0]); Ok(Spaced(t + " " + PyStr(ps[1]), symbol))
  }

  /** `_setColorNamedToString(x)`: the numbers, then the trailing name if the
      last element is a string, with the number of colour components. */
  function SetColorNamedToString(x: seq<Param>): Result<(string, nat)> {
    if |x| == 0 then Err(ArgumentError)
    else if x[|x| - 1].PStr? then
      var nums :- Nums4(x[..|x| - 1]);
      Ok((Join(" ", nums) + " " + x[|x| - 1].s, |x| - 1))
    else
      var nums :- Nums4(x);
      Ok((Join(" ", nums), |x|))
  }

  /** Gray, RGB and CMYK components checked against [0, 1] and rendered. */
  function UnitComponents(ps: seq<Param>, n: nat, item: string, symbol: string): Result<string> {
    if |ps| != n then Err(ArgumentError)
    else
      var within :- ScanUnitLimits(if n == 1 then LimitValues(ps[0]) else ps);
      if within then NumbersThen(ps, symbol)
      else Err(InvalidValue(item, if n == 1 then ps[0] else PList(ps)))
  }

  function ColorSpace(ps: seq<Param>, symbol: string): Result<string> {
    if |ps| != 1 then Err(ArgumentError)
    else if ps[0].PStr? && ps[0].s in ColorSpaces then Ok(Spaced(ps[0].s, symbol))
    else if ps[0].PStr? then
      Err(NotImplemented("color space: " + ps[0].s + " in \"" + symbol + "\""))
    else Err(ArgumentError)
  }

  function Components(ps: seq<Param>, symbol: string): Result<string> {
    if |ps| in {1, 3, 4} then NumbersThen(ps, symbol)
    else Err(InvalidValue("\"" + symbol + "\"", PTuple(ps)))
  }

  function NamedComponents(ps: seq<Param>, symbol: string): Result<string> {
    var (text, count) :- SetColorNamedToString(ps);
    if count in {1, 3, 4} then Ok(Spaced(text, symbol))
    else Err(InvalidValue("\"" + symbol + "\"", PTuple(ps)))
  }

  /** `d`: a dash array, then the dash phase. */
  function DashLine(ps: seq<Param>, symbol: string): Result<string> {
    if |ps| != 2 then Err(ArgumentError)
    else
      var dashes :- Iterate(ps[0]);
      var nums :- Nums4(dashes);
      var phase :- Num4(ps[1]);
      Ok(Spaced("[" + Join(" ", nums) + "] " + phase, symbol))
  }

  /** `ri`: one of the four rendering intents. */
  function IntentLine(ps: seq<Param>, symbol: string): Result<string> {
    if |ps| != 1 then Err(ArgumentError)
    else if ps[0].PStr? && ps[0].s in Intents then Ok(Spaced(ps[0].s, symbol))
    else Err(InvalidValue("\"rendering intent\"", ps[0]))
  }

  /** `Tf`: a font name, then a size. */
  function FontLine(ps: seq<Param>, symbol: string): Result<string> {
    if |ps| != 2 then Err(ArgumentError)
    else
      var size :- Num4(ps[1]);
      var font :- Text(ps[0]);
      Ok(Spaced(font + " " + size, symbol))
  }

  /** `Tj`: a string in parentheses. */
  function ShowLine(ps: seq<Param>, symbol: string): Result<string> {
    if |ps| != 1 then Err(ArgumentError)
    else var s :- Text(ps[0]); Ok(Spaced("(" + s + ")", symbol))
  }

  /** `TJ`: an array of strings and kerning numbers. */
  function KerningLine(ps: seq<Param>, symbol: string): Result<string> {
    if |ps| != 1 then Err(ArgumentError)
    else
      var items :- Iterate(ps[0]);
      var parts :- KerningParts(items);
      Ok(Spaced("[" + Join(" ", parts) + "]", symbol))
  }

  /** `"`: word spacing, character spacing, then the string. */
  function SpacedShowLine(ps: seq<Param>, symbol: string): Result<string> {
    if |ps| != 3 then Err(ArgumentError)
    else
      var ws :- Num4(ps[0]);
      var cs :- Num4(ps[1]);
      var s :- Text(ps[2]);
      Ok(Spaced(ws + " " + cs + " " + s, symbol))
  }

  /** `d0`: the horizontal glyph width, and a vertical width of 0. */
  function GlyphWidthLine(ps: seq<Param>, symbol: string): Result<string> {
    if |ps| != 1 then Err(ArgumentError)
    else var wx :- Num4(ps[0]); Ok(Spaced(wx + " 0", symbol))
  }

  /** `d1`: the format string has four fields, so the fifth argument is
      unused, and the line ends in `d0`. */
  function GlyphBoxLine(ps: seq<Param>): Result<string> {
    if |ps| != 5 then Err(ArgumentError)
    else
      var nums :- Nums4(ps[..4]);
      Ok(Spaced(nums[0] + " 0 " + nums[1] + " " + nums[2] + " " + nums[3], Symbol(GlyphWidth)))
  }

  // ---------------------------------------------------------------------
  // The table

  /** The number of parameters of a numeric operator: at least one. */
  type Arity = n: nat | n >= 1 witness 1

  /** The formatters of the table, one per shape of lambda; the operators
      that share a lambda shape differ only in their symbol and, for the
      validating ones, in the range and the item named in the error. */
  datatype Rule =
    | NumbersRule(n: Arity)
    | BareRule
    | IntegerRule(lo: int, hi: int, item: string)
    | DashRule
    | IntentRule
    | NamedRule
    | FontRule
    | ShowRule
    | KerningRule
    | SpacedShowRule
    | GlyphWidthRule
    | GlyphBoxRule
    | ColorSpaceRule
    | ComponentsRule
    | NamedComponentsRule
    | UnitComponentsRule(count: nat, item: string)
    | TaggedRule

  /** The formatter `pdf_operator` holds for each operator. */
  function RuleOf(o: Op): Rule {
    match o
    // General graphics state
    case LineWidth | MiterLimit => NumbersRule(1)
    case LineCap => IntegerRule(0, 2, "\"line cap\"")
    case LineJoin => IntegerRule(0, 2, "\"line join\"")
    case DashPattern => DashRule
    case RenderingIntent => IntentRule
    case Flatness => IntegerRule(0, 100, "\"flatness\"")
    case ExtGState => NamedRule
    // Special graphics state, path construction, text state and positioning
    case ConcatMatrix | CurveTo | TextMatrix => NumbersRule(6)
    case MoveTo | LineTo | MoveText | MoveTextSetLeading => NumbersRule(2)
    case CurveToV | CurveToY | Rectangle => NumbersRule(4)
    case CharSpacing | WordSpacing | HorizontalScaling | Leading | Rise => NumbersRule(1)
    // Operators without operands
    case Save | Restore | ClosePath | Stroke | CloseStroke | Fill | FillCompat | FillEvenOdd
       | FillStroke | FillStrokeEvenOdd | CloseFillStroke | CloseFillStrokeEvenOdd | EndPath
       | Clip | ClipEvenOdd | BeginText | EndText | NextLine | BeginInlineImage | InlineImageData
       | EndInlineImage | EndMarkedContent | BeginCompatibility | EndCompatibility => BareRule
    // Text state and text showing
    case FontAndSize => FontRule
    case RenderMode => IntegerRule(0, 7, "\"text rendering mode\"")
    case ShowText => ShowRule
    case ShowTextArray => KerningRule
    case NextLineShowText => NamedRule
    case NextLineSpacedShowText => SpacedShowRule
    // Type 3 fonts
    case GlyphWidth => GlyphWidthRule
    case GlyphWidthAndBox => GlyphBoxRule
    // Colour
    case StrokeColorSpace | FillColorSpace => ColorSpaceRule
    case StrokeColor | FillColor => ComponentsRule
    case StrokeColorNamed | FillColorNamed => NamedComponentsRule
    case StrokeGray | FillGray => UnitComponentsRule(1, "gray")
    case StrokeRGB | FillRGB => UnitComponentsRule(3, "RGB")
    case StrokeCMYK | FillCMYK => UnitComponentsRule(4, "CMYK")
    // Shading patterns, XObjects and marked content
    case PaintShading | PaintXObject | MarkPoint | BeginMarkedContent => NamedRule
    case MarkPointProperties | BeginMarkedContentProperties => TaggedRule
  }

  /** The line a formatter renders for the parameters, or the error it
      raises. */
  function Render(rule: Rule, ps: seq<Param>, symbol: string): Result<string> {
    match rule
    case NumbersRule(n) => Numbers(ps, n, symbol)
    case BareRule => Bare(ps, symbol)
    case IntegerRule(lo, hi, item) => IntegerChoice(ps, lo, hi, item, symbol)
    case DashRule => DashLine(ps, symbol)
    case IntentRule => IntentLine(ps, symbol)
    case NamedRule => Named(ps, symbol)
    case FontRule => FontLine(ps, symbol)
    case ShowRule => ShowLine(ps, symbol)
    case KerningRule => KerningLine(ps, symbol)
    case SpacedShowRule => SpacedShowLine(ps, symbol)
    case GlyphWidthRule => GlyphWidthLine(ps, symbol)
    case GlyphBoxRule => GlyphBoxLine(ps)
    case ColorSpaceRule => ColorSpace(ps, symbol)
    case ComponentsRule => Components(ps, symbol)
    case NamedComponentsRule => NamedComponents(ps, symbol)
    case UnitComponentsRule(count, item) => UnitComponents(ps, count, item, symbol)
    case TaggedRule => TaggedProperties(ps, symbol)
  }

  /** `pdf_operator[o](*ps)`: the line for `o`, or the error its formatter
      raises. */
  function Format(o: Op, ps: seq<Param>): Result<string> {
    Render(RuleOf(o), ps, Symbol(o))
  }

  /** Operators whose line is their parameters as 4-decimal numbers followed
      by the symbol, with the number of parameters they take. */
  function NumericArity(o: Op): Option<nat> {
    if RuleOf(o).NumbersRule? then Some(RuleOf(o).n) else None
  }

  /** Operators that take no parameter and whose line is the symbol alone. */
  predicate IsBare(o: Op) {
    RuleOf(o) == BareRule
  }
}
