/**
 * What the graphics-mode table promises: which modes fall straight back,
 * which operators change the mode and to what, and which modes a stream can
 * ever be in.
 */
module StateProperties {
  import opened Common
  import opened Symbols
  import opened OperatorStates

  /** The modes whose `end` dictionary has the key `None` are exactly the
      shading and external-object modes. */
  lemma DegenerateModes(m: Mode)
    ensures IsDegenerate(m) <==> m == ShadingObject || m == ExternalObject
  {
  }

  /** Only an operator of the mode's `end` dictionary changes the mode, and
      it changes it to the mode the dictionary names. */
  lemma OnlyEndOperatorsChangeMode(m: Mode, op: Op)
    ensures !IsEndOperator(m, op) ==> NextMode(m, op) == Ok(m)
    ensures NextMode(m, op).Ok? && NextMode(m, op).value != m ==>
      End(m, OnOperator(op)) == Some(EnterMode(NextMode(m, op).value))
  {
  }

  /** The transitions of the page-description level and back. */
  lemma Transitions()
    ensures NextMode(PageDescriptionLevel, BeginText) == Ok(TextObject)
    ensures NextMode(TextObject, EndText) == Ok(PageDescriptionLevel)
    ensures NextMode(PageDescriptionLevel, BeginInlineImage) == Ok(InLineImageObject)
    ensures NextMode(InLineImageObject, EndInlineImage) == Ok(PageDescriptionLevel)
    ensures NextMode(PageDescriptionLevel, MoveTo) == Ok(PathObject)
    ensures NextMode(PageDescriptionLevel, Rectangle) == Ok(PathObject)
    ensures NextMode(PageDescriptionLevel, PaintShading) == Ok(PageDescriptionLevel)
    ensures NextMode(PageDescriptionLevel, PaintXObject) == Ok(PageDescriptionLevel)
  {
  }

  /** A painting operator ends a path and returns to the page level. */
  lemma PaintingEndsPath(op: Op)
    requires GroupOf(op) == PathPainting
    ensures NextMode(PathObject, op) == Ok(PageDescriptionLevel)
    ensures NextMode(ClippingPathObject, op) == Ok(PageDescriptionLevel)
  {
  }

  /** `W` and `W*` are allowed in a path, but the mode they name is not a
      key of the table. */
  lemma ClippingOperatorsNameNoMode(op: Op)
    requires GroupOf(op) == ClippingPaths
    ensures IsOperatorAllowed(PathObject, op)
    ensures NextMode(PathObject, op) == Err(UndeclaredMode("clipping_paths_operators"))
  {
  }

  /** The Type 3 font and compatibility operators are allowed in no mode. */
  lemma NeverAllowed(m: Mode, op: Op)
    requires GroupOf(op) == Type3Fonts || GroupOf(op) == Compatibility
    ensures !IsOperatorAllowed(m, op)
  {
    NeverListed(m, op);
    NeverEnding(m, op);
  }

  /** No `allowed` list holds a Type 3 font or compatibility operator. */
  lemma NeverListed(m: Mode, op: Op)
    requires GroupOf(op) == Type3Fonts || GroupOf(op) == Compatibility
    ensures !InAllowedList(m, op)
  {
    if m == InLineImageObject {
      assert GroupOf(InlineImageData) == InlineImages;
    }
  }

  /** No `end` dictionary has a Type 3 font or compatibility operator as a
      key. */
  lemma NeverEnding(m: Mode, op: Op)
    requires GroupOf(op) == Type3Fonts || GroupOf(op) == Compatibility
    ensures !IsEndOperator(m, op)
  {
    match m
    case PageDescriptionLevel =>
    case TextObject =>
    case ShadingObject =>
    case ExternalObject =>
    case InLineImageObject =>
    case PathObject =>
    case ClippingPathObject =>
  }

  /** The two groups allowed nowhere hold the operators `d0`, `d1`, `BX`
      and `EX`. */
  lemma NeverAllowedOps(op: Op)
    ensures GroupOf(op) == Type3Fonts || GroupOf(op) == Compatibility <==>
      op == GlyphWidth || op == GlyphWidthAndBox || op == BeginCompatibility || op == EndCompatibility
  {
  }

  /** Path construction other than `m` and `re` needs an open path. */
  lemma PathConstructionNeedsPath(m: Mode, op: Op)
    requires GroupOf(op) == PathConstruction && op != MoveTo && op != Rectangle
    ensures IsOperatorAllowed(m, op) <==> m == PathObject
  {
    PathConstructionListedInPath(m, op);
    if m != PathObject {
      PathConstructionEndsNothing(m, op);
    }
  }

  /** Path construction is listed in the path mode's `allowed` list and in
      no other. */
  lemma PathConstructionListedInPath(m: Mode, op: Op)
    requires GroupOf(op) == PathConstruction
    ensures InAllowedList(m, op) <==> m == PathObject
  {
    if m == InLineImageObject {
      assert GroupOf(InlineImageData) == InlineImages;
    }
  }

  /** Outside a path, only `m` and `re` of the path construction operators
      end a mode. */
  lemma PathConstructionEndsNothing(m: Mode, op: Op)
    requires GroupOf(op) == PathConstruction && op != MoveTo && op != Rectangle
    requires m != PathObject
    ensures !IsEndOperator(m, op)
  {
    match m
    case PageDescriptionLevel =>
    case TextObject =>
    case ShadingObject =>
    case ExternalObject =>
    case InLineImageObject =>
    case ClippingPathObject =>
  }

  /** `BT` is allowed only at the page level and `ET` only in a text object,
      so text objects do not nest. */
  lemma TextObjectsDoNotNest(m: Mode)
    ensures IsOperatorAllowed(m, BeginText) <==> m == PageDescriptionLevel
    ensures IsOperatorAllowed(m, EndText) <==> m == TextObject
  {
  }

  /** Each mode reached from the page level is reached by exactly its
      `start` operators. */
  lemma StartOperatorsEnter(m: Mode, op: Op)
    requires m != PageDescriptionLevel && m != ClippingPathObject
    ensures End(PageDescriptionLevel, OnOperator(op)) == Some(EnterMode(m)) <==> op in Start(m)
  {
  }

  /** The modes a stream can be in. */
  predicate Reachable(m: Mode) {
    m == PageDescriptionLevel || m == TextObject || m == InLineImageObject || m == PathObject
  }

  /** No transition leaves the reachable modes: the degenerate modes fall
      back at once and nothing leads to the clipping-path mode. */
  lemma ReachableClosed(m: Mode, op: Op)
    requires Reachable(m)
    ensures NextMode(m, op).Ok? ==> Reachable(NextMode(m, op).value)
  {
  }

  /** Nothing leads to the clipping-path mode. */
  lemma ClippingPathModeNeverEntered(m: Mode, op: Op)
    requires m != ClippingPathObject
    ensures NextMode(m, op) != Ok(ClippingPathObject)
  {
    match m
    case PageDescriptionLevel =>
    case TextObject =>
    case ShadingObject =>
    case ExternalObject =>
    case InLineImageObject =>
    case PathObject =>
  }
}
