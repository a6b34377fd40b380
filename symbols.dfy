/**
 * The operator symbols of a PDF content stream that the operator table knows
 * (the operators of section 8 and 9 of ISO 32000-1 it lists), and the lookup
 * of a symbol: a string either names one of them or is not an operator.
 */
module Symbols {
  import opened Common

  /** The keys of `pdf_operator`, in the order of the Python dictionary. */
  datatype Op =
    | LineWidth                    // w
    | LineCap                      // J
    | LineJoin                     // j
    | MiterLimit                   // M
    | DashPattern                  // d
    | RenderingIntent              // ri
    | Flatness                     // i
    | ExtGState                    // gs
    | Save                         // q
    | Restore                      // Q
    | ConcatMatrix                 // cm
    | MoveTo                       // m
    | LineTo                       // l
    | CurveTo                      // c
    | CurveToV                     // v
    | CurveToY                     // y
    | ClosePath                    // h
    | Rectangle                    // re
    | Stroke                       // S
    | CloseStroke                  // s
    | Fill                         // f
    | FillCompat                   // F
    | FillEvenOdd                  // f*
    | FillStroke                   // B
    | FillStrokeEvenOdd            // B*
    | CloseFillStroke              // b
    | CloseFillStrokeEvenOdd       // b*
    | EndPath                      // n
    | Clip                         // W
    | ClipEvenOdd                  // W*
    | BeginText                    // BT
    | EndText                      // ET
    | CharSpacing                  // Tc
    | WordSpacing                  // Tw
    | HorizontalScaling            // Tz
    | Leading                      // TL
    | FontAndSize                  // Tf
    | RenderMode                   // Tr
    | Rise                         // Ts
    | MoveText                     // Td
    | MoveTextSetLeading           // TD
    | TextMatrix                   // Tm
    | NextLine                     // T*
    | ShowText                     // Tj
    | ShowTextArray                // TJ
    | NextLineShowText             // '
    | NextLineSpacedShowText       // "
    | GlyphWidth                   // d0
    | GlyphWidthAndBox             // d1
    | StrokeColorSpace             // CS
    | FillColorSpace               // cs
    | StrokeColor                  // SC
    | StrokeColorNamed             // SCN
    | FillColor                    // sc
    | FillColorNamed               // scn
    | StrokeGray                   // G
    | FillGray                     // g
    | StrokeRGB                    // RG
    | FillRGB                      // rg
    | StrokeCMYK                   // K
    | FillCMYK                     // k
    | PaintShading                 // sh
    | BeginInlineImage             // BI
    | InlineImageData              // ID
    | EndInlineImage               // EI
    | PaintXObject                 // Do
    | MarkPoint                    // MP
    | MarkPointProperties          // DP
    | BeginMarkedContent           // BMC
    | BeginMarkedContentProperties // BDC
    | EndMarkedContent             // EMC
    | BeginCompatibility           // BX
    | EndCompatibility             // EX

  /** The symbol written in the content stream. */
  function Symbol(o: Op): string {
    match o
    case LineWidth => "w"
    case LineCap => "J"
    case LineJoin => "j"
    case MiterLimit => "M"
    case DashPattern => "d"
    case RenderingIntent => "ri"
    case Flatness => "i"
    case ExtGState => "gs"
    case Save => "q"
    case Restore => "Q"
    case ConcatMatrix => "cm"
    case MoveTo => "m"
    case LineTo => "l"
    case CurveTo => "c"
    case CurveToV => "v"
    case CurveToY => "y"
    case ClosePath => "h"
    case Rectangle => "re"
    case Stroke => "S"
    case CloseStroke => "s"
    case Fill => "f"
    case FillCompat => "F"
    case FillEvenOdd => "f*"
    case FillStroke => "B"
    case FillStrokeEvenOdd => "B*"
    case CloseFillStroke => "b"
    case CloseFillStrokeEvenOdd => "b*"
    case EndPath => "n"
    case Clip => "W"
    case ClipEvenOdd => "W*"
    case BeginText => "BT"
    case EndText => "ET"
    case CharSpacing => "Tc"
    case WordSpacing => "Tw"
    case HorizontalScaling => "Tz"
    case Leading => "TL"
    case FontAndSize => "Tf"
    case RenderMode => "Tr"
    case Rise => "Ts"
    case MoveText => "Td"
    case MoveTextSetLeading => "TD"
    case TextMatrix => "Tm"
    case NextLine => "T*"
    case ShowText => "Tj"
    case ShowTextArray => "TJ"
    case NextLineShowText => "'"
    case NextLineSpacedShowText => "\""
    case GlyphWidth => "d0"
    case GlyphWidthAndBox => "d1"
    case StrokeColorSpace => "CS"
    case FillColorSpace => "cs"
    case StrokeColor => "SC"
    case StrokeColorNamed => "SCN"
    case FillColor => "sc"
    case FillColorNamed => "scn"
    case StrokeGray => "G"
    case FillGray => "g"
    case StrokeRGB => "RG"
    case FillRGB => "rg"
    case StrokeCMYK => "K"
    case FillCMYK => "k"
    case PaintShading => "sh"
    case BeginInlineImage => "BI"
    case InlineImageData => "ID"
    case EndInlineImage => "EI"
    case PaintXObject => "Do"
    case MarkPoint => "MP"
    case MarkPointProperties => "DP"
    case BeginMarkedContent => "BMC"
    case BeginMarkedContentProperties => "BDC"
    case EndMarkedContent => "EMC"
    case BeginCompatibility => "BX"
    case EndCompatibility => "EX"
  }

  /** The operator whose symbol has one character, if any. */
  function Lookup1(c0: char): Option<Op> {
    if c0 == 'w' then Some(LineWidth) else
    if c0 == 'J' then Some(LineCap) else
    if c0 == 'j' then Some(LineJoin) else
    if c0 == 'M' then Some(MiterLimit) else
    if c0 == 'd' then Some(DashPattern) else
    if c0 == 'i' then Some(Flatness) else
    if c0 == 'q' then Some(Save) else
    if c0 == 'Q' then Some(Restore) else
    if c0 == 'm' then Some(MoveTo) else
    if c0 == 'l' then Some(LineTo) else
    if c0 == 'c' then Some(CurveTo) else
    if c0 == 'v' then Some(CurveToV) else
    if c0 == 'y' then Some(CurveToY) else
    if c0 == 'h' then Some(ClosePath) else
    if c0 == 'S' then Some(Stroke) else
    if c0 == 's' then Some(CloseStroke) else
    if c0 == 'f' then Some(Fill) else
    if c0 == 'F' then Some(FillCompat) else
    if c0 == 'B' then Some(FillStroke) else
    if c0 == 'b' then Some(CloseFillStroke) else
    if c0 == 'n' then Some(EndPath) else
    if c0 == 'W' then Some(Clip) else
    if c0 == '\'' then Some(NextLineShowText) else
    if c0 == '\"' then Some(NextLineSpacedShowText) else
    if c0 == 'G' then Some(StrokeGray) else
    if c0 == 'g' then Some(FillGray) else
    if c0 == 'K' then Some(StrokeCMYK) else
    if c0 == 'k' then Some(FillCMYK) else
    None
  }

  /** The operator whose symbol has two characters, if any. */
  function Lookup2(c0: char, c1: char): Option<Op> {
    if c0 == 'T' then LookupText(c1)
    else if c0 == 'B' || c0 == 'E' || c0 == 'W' then LookupBeginEnd(c0, c1)
    else if 'A' <= c0 <= 'Z' then Lookup2Upper(c0, c1)
    else Lookup2Lower(c0, c1)
  }

  /** Two-character symbols that start with 'T': the text operators. */
  function LookupText(c: char): Option<Op> {
    if c == 'c' then Some(CharSpacing) else
    if c == 'w' then Some(WordSpacing) else
    if c == 'z' then Some(HorizontalScaling) else
    if c == 'L' then Some(Leading) else
    if c == 'f' then Some(FontAndSize) else
    if c == 'r' then Some(RenderMode) else
    if c == 's' then Some(Rise) else
    if c == 'd' then Some(MoveText) else
    if c == 'D' then Some(MoveTextSetLeading) else
    if c == 'm' then Some(TextMatrix) else
    if c == '*' then Some(NextLine) else
    if c == 'j' then Some(ShowText) else
    if c == 'J' then Some(ShowTextArray) else
    None
  }

  /** Two-character symbols that begin or end an object: B., E. and W*. */
  function LookupBeginEnd(c0: char, c1: char): Option<Op> {
    if c0 == 'B' then
      if c1 == '*' then Some(FillStrokeEvenOdd) else if c1 == 'T' then Some(BeginText)
      else if c1 == 'I' then Some(BeginInlineImage) else if c1 == 'X' then Some(BeginCompatibility) else None
    else if c0 == 'E' then
      if c1 == 'T' then Some(EndText) else if c1 == 'I' then Some(EndInlineImage)
      else if c1 == 'X' then Some(EndCompatibility) else None
    else if c0 == 'W' && c1 == '*' then Some(ClipEvenOdd)
    else None
  }

  /** The remaining two-character symbols that start with a capital letter. */
  function Lookup2Upper(c0: char, c1: char): Option<Op> {
    if c0 == 'C' && c1 == 'S' then Some(StrokeColorSpace)
    else if c0 == 'S' && c1 == 'C' then Some(StrokeColor)
    else if c0 == 'R' && c1 == 'G' then Some(StrokeRGB)
    else if c0 == 'I' && c1 == 'D' then Some(InlineImageData)
    else if c0 == 'D' && c1 == 'o' then Some(PaintXObject)
    else if c0 == 'D' && c1 == 'P' then Some(MarkPointProperties)
    else if c0 == 'M' && c1 == 'P' then Some(MarkPoint)
    else None
  }

  /** Two-character symbols that start with a small letter. */
  function Lookup2Lower(c0: char, c1: char): Option<Op> {
    if c0 == 'r' then
      if c1 == 'i' then Some(RenderingIntent) else if c1 == 'e' then Some(Rectangle) else if c1 == 'g' then Some(FillRGB) else None
    else
    if c0 == 'g' then
      if c1 == 's' then Some(ExtGState) else None
    else
    if c0 == 'c' then
      if c1 == 'm' then Some(ConcatMatrix) else if c1 == 's' then Some(FillColorSpace) else None
    else
    if c0 == 'f' then
      if c1 == '*' then Some(FillEvenOdd) else None
    else
    if c0 == 'b' then
      if c1 == '*' then Some(CloseFillStrokeEvenOdd) else None
    else
    if c0 == 'd' then
      if c1 == '0' then Some(GlyphWidth) else if c1 == '1' then Some(GlyphWidthAndBox) else None
    else
    if c0 == 's' then
      if c1 == 'c' then Some(FillColor) else if c1 == 'h' then Some(PaintShading) else None
    else
    None
  }

  /** The operator whose symbol has three characters, if any. */
  function Lookup3(c0: char, c1: char, c2: char): Option<Op> {
    if c0 == 'S' && c1 == 'C' && c2 == 'N' then Some(StrokeColorNamed) else
    if c0 == 's' && c1 == 'c' && c2 == 'n' then Some(FillColorNamed) else
    if c0 == 'B' && c1 == 'M' && c2 == 'C' then Some(BeginMarkedContent) else
    if c0 == 'B' && c1 == 'D' && c2 == 'C' then Some(BeginMarkedContentProperties) else
    if c0 == 'E' && c1 == 'M' && c2 == 'C' then Some(EndMarkedContent) else
    None
  }

  /** The operator `s` may name, found from its characters. */
  function Candidate(s: string): Option<Op> {
    if |s| == 1 then Lookup1(s[0])
    else if |s| == 2 then Lookup2(s[0], s[1])
    else if |s| == 3 then Lookup3(s[0], s[1], s[2])
    else None
  }

  /** `op in pdf_operator.keys()`, answering which operator `s` names: the
      candidate found from its characters, confirmed by its symbol. */
  function Parse(s: string): (r: Option<Op>)
    ensures r.Some? ==> Symbol(r.value) == s
  {
    var c := Candidate(s);
    if c.Some? && Symbol(c.value) == s then c else None
  }

  predicate IsKnownOperator(s: string) {
    Parse(s).Some?
  }

  /** Looking up an operator's symbol finds that operator. */
  lemma ParseSymbol(o: Op)
    ensures Parse(Symbol(o)) == Some(o)
  {
    CandidateSymbol(o);
  }

  /** The character lookup inverts `Symbol`; it is checked a few operators
      at a time, in the order of the Python operator groups. */
  lemma CandidateSymbol(o: Op)
    ensures Candidate(Symbol(o)) == Some(o)
  {
    if o == LineWidth || o == LineCap || o == LineJoin || o == MiterLimit {
      LookupLineStyle(o);
    } else if o == DashPattern || o == RenderingIntent || o == Flatness || o == ExtGState {
      LookupStateParameters(o);
    } else if o == Save || o == Restore || o == ConcatMatrix {
      LookupSpecialGraphicsState(o);
    } else if o == MoveTo || o == LineTo || o == CurveTo || o == CurveToV || o == CurveToY {
      LookupPathSegments(o);
    } else if o == ClosePath || o == Rectangle {
      LookupPathClosing(o);
    } else if o == Stroke || o == CloseStroke || o == Fill || o == FillCompat || o == FillEvenOdd {
      LookupStrokeAndFill(o);
    } else if o == FillStroke || o == FillStrokeEvenOdd || o == CloseFillStroke || o == CloseFillStrokeEvenOdd || o == EndPath {
      LookupFillAndStroke(o);
    } else if o == Clip || o == ClipEvenOdd || o == BeginText || o == EndText {
      LookupClipAndTextObjects(o);
    } else if o == CharSpacing || o == WordSpacing || o == HorizontalScaling || o == Leading {
      LookupTextSpacing(o);
    } else if o == FontAndSize || o == RenderMode || o == Rise {
      LookupTextFontAndRise(o);
    } else if o == MoveText || o == MoveTextSetLeading || o == TextMatrix || o == NextLine {
      LookupTextPositioning(o);
    } else if o == ShowText || o == ShowTextArray || o == NextLineShowText || o == NextLineSpacedShowText {
      LookupTextShowing(o);
    } else if o == GlyphWidth || o == GlyphWidthAndBox {
      LookupType3Fonts(o);
    } else if o == StrokeColorSpace || o == FillColorSpace || o == StrokeColor || o == StrokeColorNamed {
      LookupColorSpacesAndStrokeColor(o);
    } else if o == FillColor || o == FillColorNamed || o == StrokeGray || o == FillGray {
      LookupFillColorAndGray(o);
    } else if o == StrokeRGB || o == FillRGB || o == StrokeCMYK || o == FillCMYK {
      LookupRGBAndCMYK(o);
    } else if o == PaintShading || o == BeginInlineImage || o == InlineImageData || o == EndInlineImage || o == PaintXObject {
      LookupShadingImagesAndXObjects(o);
    } else if o == MarkPoint || o == MarkPointProperties || o == BeginMarkedContent || o == BeginMarkedContentProperties || o == EndMarkedContent {
      LookupMarkedContent(o);
    } else {
      LookupCompatibility(o);
    }
  }

  /** The lookup finds `w`, `J`, `j` and `M`. */
  lemma LookupLineStyle(o: Op)
    requires o == LineWidth || o == LineCap || o == LineJoin || o == MiterLimit
    ensures Candidate(Symbol(o)) == Some(o)
  {
  }

  /** The lookup finds `d`, `ri`, `i` and `gs`. */
  lemma LookupStateParameters(o: Op)
    requires o == DashPattern || o == RenderingIntent || o == Flatness || o == ExtGState
    ensures Candidate(Symbol(o)) == Some(o)
  {
  }

  /** The lookup finds `q`, `Q` and `cm`. */
  lemma LookupSpecialGraphicsState(o: Op)
    requires o == Save || o == Restore || o == ConcatMatrix
    ensures Candidate(Symbol(o)) == Some(o)
  {
  }

  /** The lookup finds `m`, `l`, `c`, `v` and `y`. */
  lemma LookupPathSegments(o: Op)
    requires o == MoveTo || o == LineTo || o == CurveTo || o == CurveToV || o == CurveToY
    ensures Candidate(Symbol(o)) == Some(o)
  {
  }

  /** The lookup finds `h` and `re`. */
  lemma LookupPathClosing(o: Op)
    requires o == ClosePath || o == Rectangle
    ensures Candidate(Symbol(o)) == Some(o)
  {
  }

  /** The lookup finds `S`, `s`, `f`, `F` and `f*`. */
  lemma LookupStrokeAndFill(o: Op)
    requires o == Stroke || o == CloseStroke || o == Fill || o == FillCompat || o == FillEvenOdd
    ensures Candidate(Symbol(o)) == Some(o)
  {
  }

  /** The lookup finds `B`, `B*`, `b`, `b*` and `n`. */
  lemma LookupFillAndStroke(o: Op)
    requires o == FillStroke || o == FillStrokeEvenOdd || o == CloseFillStroke || o == CloseFillStrokeEvenOdd || o == EndPath
    ensures Candidate(Symbol(o)) == Some(o)
  {
  }

  /** The lookup finds `W`, `W*`, `BT` and `ET`. */
  lemma LookupClipAndTextObjects(o: Op)
    requires o == Clip || o == ClipEvenOdd || o == BeginText || o == EndText
    ensures Candidate(Symbol(o)) == Some(o)
  {
  }

  /** The lookup finds `Tc`, `Tw`, `Tz` and `TL`. */
  lemma LookupTextSpacing(o: Op)
    requires o == CharSpacing || o == WordSpacing || o == HorizontalScaling || o == Leading
    ensures Candidate(Symbol(o)) == Some(o)
  {
  }

  /** The lookup finds `Tf`, `Tr` and `Ts`. */
  lemma LookupTextFontAndRise(o: Op)
    requires o == FontAndSize || o == RenderMode || o == Rise
    ensures Candidate(Symbol(o)) == Some(o)
  {
  }

  /** The lookup finds `Td`, `TD`, `Tm` and `T*`. */
  lemma LookupTextPositioning(o: Op)
    requires o == MoveText || o == MoveTextSetLeading || o == TextMatrix || o == NextLine
    ensures Candidate(Symbol(o)) == Some(o)
  {
  }

  /** The lookup finds `Tj`, `TJ`, `'` and `"`. */
  lemma LookupTextShowing(o: Op)
    requires o == ShowText || o == ShowTextArray || o == NextLineShowText || o == NextLineSpacedShowText
    ensures Candidate(Symbol(o)) == Some(o)
  {
  }

  /** The lookup finds `d0` and `d1`. */
  lemma LookupType3Fonts(o: Op)
    requires o == GlyphWidth || o == GlyphWidthAndBox
    ensures Candidate(Symbol(o)) == Some(o)
  {
  }

  /** The lookup finds `CS`, `cs`, `SC` and `SCN`. */
  lemma LookupColorSpacesAndStrokeColor(o: Op)
    requires o == StrokeColorSpace || o == FillColorSpace || o == StrokeColor || o == StrokeColorNamed
    ensures Candidate(Symbol(o)) == Some(o)
  {
  }

  /** The lookup finds `sc`, `scn`, `G` and `g`. */
  lemma LookupFillColorAndGray(o: Op)
    requires o == FillColor || o == FillColorNamed || o == StrokeGray || o == FillGray
    ensures Candidate(Symbol(o)) == Some(o)
  {
  }

  /** The lookup finds `RG`, `rg`, `K` and `k`. */
  lemma LookupRGBAndCMYK(o: Op)
    requires o == StrokeRGB || o == FillRGB || o == StrokeCMYK || o == FillCMYK
    ensures Candidate(Symbol(o)) == Some(o)
  {
  }

  /** The lookup finds `sh`, `BI`, `ID`, `EI` and `Do`. */
  lemma LookupShadingImagesAndXObjects(o: Op)
    requires o == PaintShading || o == BeginInlineImage || o == InlineImageData || o == EndInlineImage || o == PaintXObject
    ensures Candidate(Symbol(o)) == Some(o)
  {
  }

  /** The lookup finds `MP`, `DP`, `BMC`, `BDC` and `EMC`. */
  lemma LookupMarkedContent(o: Op)
    requires o == MarkPoint || o == MarkPointProperties || o == BeginMarkedContent || o == BeginMarkedContentProperties || o == EndMarkedContent
    ensures Candidate(Symbol(o)) == Some(o)
  {
  }

  /** The lookup finds `BX` and `EX`. */
  lemma LookupCompatibility(o: Op)
    requires o == BeginCompatibility || o == EndCompatibility
    ensures Candidate(Symbol(o)) == Some(o)
  {
  }

  /** Symbols tell operators apart. */
  lemma SymbolInjective(o: Op, p: Op)
    ensures Symbol(o) == Symbol(p) ==> o == p
  {
    ParseSymbol(o);
    ParseSymbol(p);
  }

  /** A string is an operator exactly when it is one of the symbols. */
  lemma KnownIffSymbol(s: string)
    ensures IsKnownOperator(s) <==> exists o: Op :: Symbol(o) == s
  {
    if exists o: Op :: Symbol(o) == s {
      var o: Op :| Symbol(o) == s;
      ParseSymbol(o);
    }
  }

  /** No symbol contains a space or a newline, so each is one token of a
      line and a line never spans two. */
  lemma SymbolIsToken(o: Op)
    ensures 1 <= |Symbol(o)| <= 3
    ensures ' ' !in Symbol(o) && '\n' !in Symbol(o)
  {
    ParseSymbol(o);
    CandidateIsToken(Symbol(o));
  }

  /** A string the lookup recognises has one to three characters, none of
      them a space or a newline. */
  lemma CandidateIsToken(s: string)
    requires Candidate(s).Some?
    ensures 1 <= |s| <= 3
    ensures forall k :: 0 <= k < |s| ==> s[k] != ' ' && s[k] != '\n'
  {
  }
}
