/**
 * The graphics-mode table `pdf_operator_state`: for each mode, the operators
 * that may appear in it and the operators that end it, with the mode they
 * lead to. It follows the graphics-objects diagram of section 8.2 of
 * ISO 32000-1 (figure 9), as pdfrwExtended transcribes it.
 *
 * The Python code builds each mode's `allowed` list by concatenating its operator
 * groups; every operator is in exactly one group, so a group is written here
 * as the value of `GroupOf`. Each `end` dictionary is written as its lookup,
 * `End(m, key)`.
 */
module OperatorStates {
  import opened Common
  import opened Symbols

  datatype Mode =
    | PageDescriptionLevel
    | TextObject
    | ShadingObject
    | ExternalObject
    | InLineImageObject
    | PathObject
    | ClippingPathObject

  /** The operator groups of pdfrwExtended, in its order. */
  datatype Group =
    | GeneralGraphicsState
    | SpecialGraphicsState
    | PathConstruction
    | PathPainting
    | ClippingPaths
    | TextObjects
    | TextState
    | TextPositioning
    | TextShowing
    | Type3Fonts
    | Color
    | ShadingPatterns
    | InlineImages
    | XObjects
    | MarkedContent
    | Compatibility

  /** The group lists: `general_graphics_state_operators` and the others. */
  function GroupOf(op: Op): Group {
    match op
    case LineWidth | LineCap | LineJoin | MiterLimit | DashPattern | RenderingIntent | Flatness
       | ExtGState => GeneralGraphicsState
    case Save | Restore | ConcatMatrix => SpecialGraphicsState
    case MoveTo | LineTo | CurveTo | CurveToV | CurveToY | ClosePath | Rectangle => PathConstruction
    case Stroke | CloseStroke | Fill | FillCompat | FillEvenOdd | FillStroke | FillStrokeEvenOdd
       | CloseFillStroke | CloseFillStrokeEvenOdd | EndPath => PathPainting
    case Clip | ClipEvenOdd => ClippingPaths
    case BeginText | EndText => TextObjects
    case CharSpacing | WordSpacing | HorizontalScaling | Leading | FontAndSize | RenderMode
       | Rise => TextState
    case MoveText | MoveTextSetLeading | TextMatrix | NextLine => TextPositioning
    case ShowText | ShowTextArray | NextLineShowText | NextLineSpacedShowText => TextShowing
    case GlyphWidth | GlyphWidthAndBox => Type3Fonts
    case StrokeColorSpace | FillColorSpace | StrokeColor | StrokeColorNamed | FillColor
       | FillColorNamed | StrokeGray | FillGray | StrokeRGB | FillRGB | StrokeCMYK
       | FillCMYK => Color
    case PaintShading => ShadingPatterns
    case BeginInlineImage | InlineImageData | EndInlineImage => InlineImages
    case PaintXObject => XObjects
    case MarkPoint | MarkPointProperties | BeginMarkedContent | BeginMarkedContentProperties
       | EndMarkedContent => MarkedContent
    case BeginCompatibility | EndCompatibility => Compatibility
  }

  /** A key of a mode's `end` dictionary: an operator, or Python's `None`. */
  datatype EndKey = OnOperator(op: Op) | NoneKey

  /** A value of an `end` dictionary: a mode, a name that is not a key of
      the table (the Python code's 'clipping_paths_operators'), or `None`. */
  datatype EndTarget = EnterMode(mode: Mode) | EnterName(name: string) | NoneTarget

  /** The `start` lists. */
  function Start(m: Mode): set<Op> {
    match m
    case PageDescriptionLevel => {}
    case TextObject => {BeginText}
    case ShadingObject => {PaintShading}
    case ExternalObject => {PaintXObject}
    case InLineImageObject => {BeginInlineImage}
    case PathObject => {MoveTo, Rectangle}
    case ClippingPathObject => {Clip, ClipEvenOdd}
  }

  /** `op in pdf_operator_state[m]['allowed']`. */
  predicate InAllowedList(m: Mode, op: Op) {
    var g := GroupOf(op);
    match m
    case PageDescriptionLevel =>
      g == GeneralGraphicsState || g == SpecialGraphicsState || g == Color || g == TextState
      || g == MarkedContent || g == XObjects
    case TextObject =>
      g == GeneralGraphicsState || g == Color || g == TextState || g == TextShowing
      || g == TextPositioning || g == MarkedContent
    case ShadingObject => false
    case ExternalObject => false
    case InLineImageObject => op == InlineImageData
    case PathObject => g == PathConstruction
    case ClippingPathObject => false
  }

  /** `pdf_operator_state[m]['end'].get(key)`: the target of `key` if it is a
      key of the mode's `end` dictionary. */
  function End(m: Mode, key: EndKey): Option<EndTarget> {
    match m
    case PageDescriptionLevel =>
      if key == OnOperator(BeginText) then Some(EnterMode(TextObject))
      else if key == OnOperator(PaintShading) then Some(EnterMode(ShadingObject))
      else if key == OnOperator(PaintXObject) then Some(EnterMode(ExternalObject))
      else if key == OnOperator(BeginInlineImage) then Some(EnterMode(InLineImageObject))
      else if key == OnOperator(MoveTo) || key == OnOperator(Rectangle) then Some(EnterMode(PathObject))
      else None
    case TextObject =>
      if key == OnOperator(EndText) then Some(EnterMode(PageDescriptionLevel)) else None
    case ShadingObject => if key == NoneKey then Some(NoneTarget) else None
    case ExternalObject => if key == NoneKey then Some(NoneTarget) else None
    case InLineImageObject =>
      if key == OnOperator(EndInlineImage) then Some(EnterMode(PageDescriptionLevel)) else None
    case PathObject =>
      if key.OnOperator? && GroupOf(key.op) == PathPainting then Some(EnterMode(PageDescriptionLevel))
      else if key == OnOperator(Clip) || key == OnOperator(ClipEvenOdd) then
        Some(EnterName("clipping_paths_operators"))
      else None
    case ClippingPathObject =>
      if key.OnOperator? && GroupOf(key.op) == PathPainting then Some(EnterMode(PageDescriptionLevel))
      else None
  }

  predicate IsEndOperator(m: Mode, op: Op) {
    End(m, OnOperator(op)).Some?
  }

  /** `isOperatorAllowed`: listed in the mode's `allowed` list or a key of
      its `end` dictionary. */
  predicate IsOperatorAllowed(m: Mode, op: Op) {
    InAllowedList(m, op) || IsEndOperator(m, op)
  }

  /** A mode whose `end` dictionary has the key `None`: entering it falls
      straight back to the mode one came from. */
  predicate IsDegenerate(m: Mode) {
    End(m, NoneKey).Some?
  }

  /** The mode after an allowed operator: a non-ending operator keeps the
      mode; an ending one leads to its target, unless the target is
      degenerate; a target that is not a mode of the table raises KeyError. */
  function NextMode(m: Mode, op: Op): Result<Mode> {
    match End(m, OnOperator(op))
    case None => Ok(m)
    case Some(EnterMode(t)) => if IsDegenerate(t) then Ok(m) else Ok(t)
    case Some(EnterName(n)) => Err(UndeclaredMode(n))
    case Some(NoneTarget) => Err(UndeclaredMode("None"))
  }
}
