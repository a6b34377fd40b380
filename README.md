# pdfrwExtended content streams, transformation matrices and arc splitting, in Dafny

This project models the core of pdfrwExtended, a Python helper library for
writing PDF page content. It has three parts.

**The content-stream builder (`pdfstream.py`).**
- `pdf_operator_state` is the table of graphics modes. It follows the
  graphics-objects diagram of section 8.2 of ISO 32000-1. Each mode has its
  allowed operators and its `end` operators, each `end` operator naming the
  mode it leads to.
- `pdf_operator` is the table of operator formatters. Each formatter checks
  its parameters and renders one line of content-stream text.
- `PdfStream` is the builder. It keeps the current mode, the rendered lines
  (`content`), a log (`commands`) and the last point of the open path. It
  appends single operators, custom paths made of cubic segments, and lists
  of operations in any of their accepted forms.

**The helper arithmetic (`pdfrwExtended/_misc.py`).**
- `isWithinLimits`, the range test the colour operators use.
- The conversions between millimetres and points.
- `PdfTM`, the PDF transformation matrix of sections 8.3.3 and 8.3.4 of
  ISO 32000-1, in the row-vector convention, with its product and its
  in-place `translate`, `scale` and `rotate`.

**The arc conversions (`pdfrwExtended/arc2cubic.py`).** These follow
appendix F.6.4 to F.6.6 of the SVG 1.1 implementation notes.
- Between the endpoint and centre forms of an elliptical arc.
- The split of an arc, an ellipse or a circle into cubic Bezier segments of
  at most a quarter turn each.

**How the model is built.**
- Python values passed as operator parameters are the datatype
  `Common.Param`.
- Every exception the code raises is a value of `Common.Error`, returned in
  a `Result` or a `Status`.
- The operator and mode tables are total functions over the datatypes
  `Symbols.Op` and `OperatorStates.Mode`. `Symbols.Parse` maps a string to
  the operator it names, if any.
- Many formatters of `pdf_operator` are the same lambda with another
  symbol. Each shape of lambda is one `Operators.Rule`, `Operators.RuleOf`
  gives every operator its rule, and `Operators.Format` renders the rule
  with the operator's symbol.
- `PdfStream` and `PdfTM` are classes whose methods update their fields as
  pdfrwExtended does. Each `PdfStream` method is proved equal to a function
  from the old state (a `Stream.Snapshot`) to the new state and its outcome.
  The properties are lemmas about those functions.
- The loops of `isWithinLimits` and `arcCenterToCubic` are methods with
  loops, proved against specification functions. So are the loops of
  `appendCustomPath` and `append_multiple_operations`.
- Arithmetic is over exact reals. The trigonometric functions and the
  square root are the fields of a `ArcToCubic.MathLib` value. They are
  known only through the laws in `ArcToCubic.ValidMath`, and, where a
  split must be shown to succeed, the sine laws of `ArcToCubic.SineLaws`.
- Default arguments of the Python functions are Dafny default parameter
  values: `newTM`, `isWithinLimits`, and the rotation, `large_arc` and
  `sweep` of the arc conversions.

**Where the code was followed.**
- `PdfTM().translate(10, 20).scale(2, 2)` composes the translation first,
  so it yields (2, 0, 0, 2, 20, 40). The model follows the code.
- `W` and `W*` in a path name `'clipping_paths_operators'`, which is not a
  mode of the table. The model does what the code does: the line is pushed
  to `content`, then the mode lookup raises `KeyError`. The mode, the log
  and the last point stay as they were.

## Model

| member | source | states |
|---|---|---|
| Decimal.NatTextRoundTrip | pdfstream.py:99-100 | `'{:d}'` renders a natural number as digits that read back to the same number |
| Decimal.FixedPointIsToken | pdfstream.py:98 | `'{:.Nf}'` renders any number as one non-empty token of digits, sign and point, with no space or newline |
| Decimal.FixedPointDecimals | pdfstream.py:98 | with N > 0 places the rendering has a point followed by exactly N digits |
| Decimal.RoundHalfEvenNearest | pdfstream.py:98 | the rounding used by the fixed-point rendering stays within half a unit of the exact value |
| Misc.PtToMmInvertsMmToPt | pdfrwExtended/_misc.py:10-14 | `pt2mm(mm2pt(x)) == x` over the reals |
| Misc.MmToPtInvertsPtToMm | pdfrwExtended/_misc.py:10-14 | `mm2pt(pt2mm(x)) == x` over the reals |
| Misc.InchIsSeventyTwoPoints | pdfrwExtended/_misc.py:10-11 | 25.4 mm is 72 points |
| Misc.MmToPtMonotonic | pdfrwExtended/_misc.py:10-11 | the conversion to points is strictly increasing |
| Misc.AsList | pdfrwExtended/_misc.py:24-25 | a list argument is scanned as given; any other value is a one-element list |
| Misc.IsWithinLimits | pdfrwExtended/_misc.py:22-39 | the scan with early returns answers true exactly when every value respects both limits, each bound inclusive or strict as its flag says |
| Misc.DefaultLimitsAreUnitInterval | pdfrwExtended/_misc.py:22-23 | with the default arguments the test is "every value is in [0, 1]", both ends included |
| Misc.ExcludedLimitsAreStrict | pdfrwExtended/_misc.py:30-38 | with a limit excluded, a value equal to that limit fails |
| Misc.NewTM | pdfrwExtended/_misc.py:43-44 | the matrix sends the origin to (e, f) and the unit points (1, 0) and (0, 1) to (a + e, b + f) and (c + e, d + f), which fixes all six entries |
| Misc.NewTMDefaults | pdfrwExtended/_misc.py:43-44 | without arguments `newTM` is the identity and moves no point; with only e and f it translates by them, with only a and d it scales by them |
| Misc.ProductIsAffine | pdfrwExtended/_misc.py:82-93 | the 3x3 product of two embedded matrices is the embedding of their composition, so its third column is (0, 0, 1) and the assertion of `__mul__` cannot fail |
| Misc.ApplyCompose | pdfrwExtended/_misc.py:82-93 | applying `mL * mR` to a point applies `mL` first, then `mR` |
| Misc.ComposeAssociative | pdfrwExtended/_misc.py:82-93 | the product is associative |
| Misc.IdentityNeutral | pdfrwExtended/_misc.py:53 | the identity (1, 0, 0, 1, 0, 0) is neutral on both sides of the product |
| Misc.TMTextFields | pdfrwExtended/_misc.py:80-81 | the text of a matrix splits at its spaces into exactly its six entries with four decimals, in order |
| Misc.PdfTM.constructor | pdfrwExtended/_misc.py:49-57 | the new object holds the given matrix |
| Misc.PdfTM.New | pdfrwExtended/_misc.py:49-57 | no arguments give the identity, six are stored as given, and any other count fails the assertion |
| Misc.PdfTM.ToString | pdfrwExtended/_misc.py:78-81 | the string form splits into the six 4-decimal entries |
| Misc.PdfTM.Mul | pdfrwExtended/_misc.py:82-93 | a fresh object holding the composition, with the entries a = La·Ra+Lb·Rc through f = Le·Rb+Lf·Rd+Rf |
| Misc.PdfTM.Translate | pdfrwExtended/_misc.py:58-61 | the matrix becomes its product with the translation; only `e` and `f` change, by `tx` and `ty`; the object itself is returned |
| Misc.PdfTM.Scale | pdfrwExtended/_misc.py:62-65 | the matrix becomes its product with the scaling: `a`, `c`, `e` are multiplied by `sx` and `b`, `d`, `f` by `sy`; the object itself is returned |
| Misc.PdfTM.Rotate | pdfrwExtended/_misc.py:66-72 | translate to the pivot, rotate by the given cosine and sine, translate back |
| Misc.TranslateThenScaleExample | pdfrwExtended/_misc.py:58-65 | `PdfTM().translate(10, 20).scale(2, 2)` is (2, 0, 0, 2, 20, 40) |
| Symbols.Parse | pdfstream.py:257 | a string recognised as an operator is that operator's symbol |
| Symbols.ParseSymbol | pdfstream.py:96-239 | every operator's symbol is recognised as that operator |
| Symbols.SymbolInjective | pdfstream.py:96-239 | no two operators share a symbol |
| Symbols.KnownIffSymbol | pdfstream.py:257 | a string is a key of `pdf_operator` exactly when it is the symbol of an operator |
| Symbols.SymbolIsToken | pdfstream.py:96-239 | every symbol has one to three characters, with no space or newline |
| Symbols.CandidateSymbol | pdfstream.py:96-239 | looking up the characters of any operator's symbol finds that operator |
| Symbols.CandidateIsToken | pdfstream.py:96-239 | a string the lookup recognises has one to three characters, none a space or a newline |
| Operators.Nums4 | pdfstream.py:14 | the list of 4-decimal renderings exists exactly when every element is a number, and holds each element's rendering in order |
| Operators.RuleOf | pdfstream.py:96-239 | the lambda shape of every operator; `UnitColorRule` and `OnlyGlyphBoxRule` state what it gives the colour operators and `d0`/`d1` |
| Operators.Render | pdfstream.py:96-239 | one formatter per lambda shape; `RenderEndsWithSymbol` states the shape of every line it renders |
| Operators.Format | pdfstream.py:96-239 | `pdf_operator[op](*params)`; `FormattedLineEndsWithSymbol`, `NumericOperatorTokens` and the `...Domain` lemmas state what it accepts and renders |
| Operators.TaggedProperties | pdfstream.py:232-234 | the `DP`/`BDC` lambda; `TaggedPropertiesLine` states it |
| Operators.PyStr | pdfstream.py:232 | `str(properties)`; `ListElementsRepr` states how lists write their elements |
| Operators.StrRepr | pdfstream.py:232 | `repr` of a string element: between the quote Python chooses, the escaped text reads back as the string |
| Operators.EscapedReadsBack | pdfstream.py:232 | the escapes `repr` writes read back as the characters they stand for |
| OperatorProperties.FormattedLineEndsWithSymbol | pdfstream.py:96-239 | every rendered line is the symbol alone or ends with a space and the symbol; the `d1` line ends with `d0` |
| OperatorProperties.RenderEndsWithSymbol | pdfstream.py:96-239 | every formatter's line is the symbol it is given, alone or after a space, except the `d1` formatter's, which ends with `d0` |
| OperatorProperties.OnlyGlyphBoxRule | pdfstream.py:177-182 | `d1` is the only operator whose formatter writes `d0` |
| OperatorProperties.NumericOperatorTokens | pdfstream.py:98-165 | a numeric operator accepts exactly its number of numbers, and its line splits into their 4-decimal renderings followed by the symbol |
| OperatorProperties.NumbersTokens | pdfstream.py:98-165 | the numeric formatter accepts exactly its number of numbers, and for a symbol without spaces its line splits into the renderings and the symbol |
| OperatorProperties.PointOperatorLine | pdfstream.py:124-125 | `m`, `l`, `Td` and `TD` given two numbers render both with four decimals, then the symbol |
| OperatorProperties.NumbersSplit | pdfstream.py:121-132 | rendered numbers joined by spaces, then a symbol, split back into the numbers and the symbol |
| OperatorProperties.BareOperatorLine | pdfstream.py:119-149 | an operator without operands takes no parameter and its line is its symbol |
| OperatorProperties.IntegerChoiceDomain | pdfstream.py:99-115 | an integer choice succeeds exactly on one int in its range, rendered with `'{:d}'`; a float equal to such an int passes the membership test and is then refused by `'{:d}'`; any other value raises `raiseValueError` |
| OperatorProperties.LineCapAndJoinDomain | pdfstream.py:99-104 | `J` and `j` accept 0, 1 and 2 only |
| OperatorProperties.FlatnessDomain | pdfstream.py:113-115 | `i` accepts 0 to 100 |
| OperatorProperties.TextRenderingModeDomain | pdfstream.py:156-159 | `Tr` accepts 0 to 7 |
| OperatorProperties.RenderingIntentDomain | pdfstream.py:109-112 | `ri` accepts the four intent names, renders them followed by ` ri`, and raises `raiseValueError` on anything else |
| OperatorProperties.ColorSpaceDomain | pdfstream.py:184-193 | `CS` and `cs` accept the four colour spaces; another name raises `raiseNotImplementedError` |
| OperatorProperties.ScanIsWithinLimits | pdfstream.py:204-221 | over numbers, the colour operators' scan is `isWithinLimits` with its default limits |
| OperatorProperties.ScanAcceptsUnitInterval | pdfstream.py:204-221 | the scan accepts exactly lists of numbers in [0, 1] |
| OperatorProperties.UnitComponentsDomain | pdfstream.py:204-221 | `G`, `g`, `RG`, `rg`, `K`, `k` accept exactly their number of components, each a number in [0, 1] with both ends included; numbers outside it raise `raiseValueError` |
| OperatorProperties.UnitColorRule | pdfstream.py:204-221 | the six gray, RGB and CMYK operators share one formatter, differing in component count (1, 3, 4) and in the item named by the error |
| OperatorProperties.UnitComponentsCases | pdfstream.py:204-221 | the shared check of those six operators, with the same two statements |
| OperatorProperties.ComponentsDomain | pdfstream.py:194-200 | `SC` and `sc` accept 1, 3 or 4 numbers; other counts raise `raiseValueError` |
| OperatorProperties.NamedComponentsDomain | pdfstream.py:12-19 | `SCN` and `scn` accept 1, 3 or 4 numbers, optionally followed by a name, which is then rendered before the symbol |
| OperatorProperties.NamedComponentsCases | pdfstream.py:196-203 | the shared body of `SCN` and `scn`, with the same two statements |
| OperatorProperties.NamedComponentsWithPattern | pdfstream.py:13-15 | with a trailing name, the numbers before it must be 1, 3 or 4 in count, and the line ends with the name and the symbol |
| OperatorProperties.NamedComponentsWithoutPattern | pdfstream.py:16-18 | without a trailing name, all parameters must be numbers, 1, 3 or 4 of them |
| OperatorProperties.GlyphBoxIgnoresUpperRightY | pdfstream.py:177-182 | `d1` never reads its fifth parameter, and succeeds exactly when the first four are numbers |
| OperatorProperties.TaggedPropertiesLine | pdfstream.py:232-234 | `DP` and `BDC` succeed exactly on a string tag and one properties operand, and write the tag, `str()` of the properties and the symbol |
| OperatorProperties.PlainStringRepr | pdfstream.py:232 | printable ASCII without backslash or single quote is written between single quotes unchanged |
| OperatorProperties.ListElementsRepr | pdfstream.py:232 | `str()` of a list is its elements' `repr`s between brackets: quoted and escaped strings, other values as `str` writes them |
| StateProperties.DegenerateModes | pdfstream.py:65-74 | the modes whose `end` dictionary has the key `None` are exactly the shading and external-object modes |
| OperatorStates.IsOperatorAllowed | pdfstream.py:249-254 | an operator is allowed when it is in the mode's `allowed` list or a key of its `end` dictionary; `NeverAllowed`, `PathConstructionNeedsPath`, `TextObjectsDoNotNest` and `MoveToAllowed` state what that gives |
| OperatorStates.NextMode | pdfstream.py:261-266 | the mode after an allowed operator; `OnlyEndOperatorsChangeMode`, `Transitions` and `ReachableClosed` state it |
| StateProperties.OnlyEndOperatorsChangeMode | pdfstream.py:262-266 | an operator outside the mode's `end` dictionary keeps the mode; a change of mode goes to the mode the dictionary names |
| StateProperties.Transitions | pdfstream.py:39-94 | BT enters a text object and ET leaves it; BI and EI do the same for an inline image; `m` and `re` open a path; `sh` and `Do` stay at the page level |
| StateProperties.PaintingEndsPath | pdfstream.py:80-93 | every painting operator returns a path to the page level |
| StateProperties.ClippingOperatorsNameNoMode | pdfstream.py:84-85 | `W` and `W*` are allowed in a path, but the mode they name is not a key of the table |
| StateProperties.NeverAllowed | pdfstream.py:39-94 | `d0`, `d1`, `BX` and `EX` are allowed in no mode |
| StateProperties.NeverListed | pdfstream.py:39-94 | no `allowed` list holds `d0`, `d1`, `BX` or `EX` |
| StateProperties.NeverEnding | pdfstream.py:39-94 | no `end` dictionary has `d0`, `d1`, `BX` or `EX` as a key |
| StateProperties.NeverAllowedOps | pdfstream.py:30-37 | those two groups hold exactly the operators `d0`, `d1`, `BX` and `EX` |
| StateProperties.PathConstructionNeedsPath | pdfstream.py:80-87 | path construction other than `m` and `re` is allowed only in a path |
| StateProperties.PathConstructionListedInPath | pdfstream.py:79-87 | path construction is in the path mode's `allowed` list and in no other |
| StateProperties.PathConstructionEndsNothing | pdfstream.py:39-94 | outside a path, no path construction operator other than `m` and `re` ends a mode |
| StateProperties.TextObjectsDoNotNest | pdfstream.py:40-64 | `BT` is allowed only at the page level and `ET` only in a text object |
| StateProperties.StartOperatorsEnter | pdfstream.py:39-94 | each mode other than the page level and the clipping mode is entered from the page level by exactly its `start` operators |
| StateProperties.ReachableClosed | pdfstream.py:39-94 | from the page level, a text object, an inline image or a path, every transition stays among those four modes |
| StateProperties.ClippingPathModeNeverEntered | pdfstream.py:88-93 | no transition enters the clipping-path mode |
| Stream.LastTwo | pdfstream.py:268 | `operator_parameters[-2:]`: the last two parameters, or all of them when there are fewer |
| Stream.AppendStep | pdfstream.py:256-274 | what `append` does to a snapshot; `AppendSucceedsIff`, `SuccessfulAppend`, `RejectedOperator` and `AppendKeepsConsistent` state it |
| Stream.EmitStep | pdfstream.py:260-274 | the push of the line and the mode update after the formatter; `ClippingInPath` and `ModeChangesOnlyAtEnd` state it |
| Stream.CustomPathStep | pdfstream.py:276-302 | what `appendCustomPath` does to a snapshot; `CustomPathOutcome` and `CustomPathInvariants` state it |
| Stream.DrawPath | pdfstream.py:292-299 | the log markers, move-to and segments of a custom path; `DrawPathOutcome`, `DrawPathWithMove` and `DrawPathWithoutMove` state it |
| Stream.Normalise | pdfstream.py:315-326 | the unpacking of one entry of `operations`; `NormaliseRoundTrip` and `NormaliseRejects` state it |
| Stream.OperationStep | pdfstream.py:315-330 | one entry of `operations`, normalised and dispatched; `OperationIsAppend` and `OperationInvariants` state it |
| Stream.PdfStream.constructor | pdfstream.py:243-247 | a new stream is at the page level, with no lines, no log and no last point |
| Stream.PdfStream.Append | pdfstream.py:256-274 | the new state and the outcome are those of `AppendStep`, whose properties follow in `StreamProperties` |
| Stream.PdfStream.Emit | pdfstream.py:260-274 | the line is pushed first; then either the mode lookup raises, or the mode, the last point and the log are updated |
| Stream.PdfStream.AppendCustomPath | pdfstream.py:276-302 | the new state and the outcome are those of `CustomPathStep` |
| Stream.PdfStream.DrawCubic | pdfstream.py:294-299 | the optional move-to, the segments and the `:End` marker, as `DrawPath` says |
| Stream.PdfStream.AppendCurves | pdfstream.py:296-298 | the loop over the segments, stopping at the first that raises, as `AppendSegments` says |
| Stream.PdfStream.AppendOperation | pdfstream.py:314-330 | one entry of `operations`, normalised and dispatched, as `OperationStep` says |
| Stream.PdfStream.AppendMultipleOperations | pdfstream.py:312-330 | the loop over `operations`, stopping at the first entry that raises, as `AppendOperations` says |
| StreamProperties.InitialStream | pdfstream.py:243-247 | a new stream satisfies the stream invariant and renders as the empty string |
| StreamProperties.RenderedLines | pdfstream.py:307-310 | the rendering splits at newlines back into the lines, when no line holds one |
| StreamProperties.AllowedSymbol | pdfstream.py:249-254 | checking a symbol is checking its operator against the table; an unknown operator is allowed nowhere |
| StreamProperties.RejectedOperator | pdfstream.py:257-273 | an unknown or disallowed operator changes nothing; an unknown one is reported as unknown whatever the mode |
| StreamProperties.FormatErrorChangesNothing | pdfstream.py:260 | parameters the formatter rejects change nothing and raise the formatter's error |
| StreamProperties.AppendSucceedsIff | pdfstream.py:256-274 | `append` succeeds exactly when the operator is allowed, its parameters are accepted and its target is a mode of the table |
| StreamProperties.SuccessfulAppend | pdfstream.py:260-274 | a successful append adds one line, which is the operator or ends with a space and it, and one log entry `[op, params]`; it moves to the table's mode and keeps the last two parameters exactly when a path is open |
| StreamProperties.ModeChangesOnlyAtEnd | pdfstream.py:261-266 | the mode changes only on an allowed operator of the mode's `end` dictionary |
| StreamProperties.ClippingInPath | pdfstream.py:260-264 | in a path, `W` and `W*` push their line and then raise `KeyError`; the mode, the log and the last point stay |
| StreamProperties.AppendExtends | pdfstream.py:256-274 | `append` keeps the old lines and the old log as prefixes |
| StreamProperties.AppendKeepsConsistent | pdfstream.py:256-274 | `append` keeps the stream invariant: a mode a stream can reach, and a last point exactly while a path is open |
| StreamProperties.CurveCommands | pdfstream.py:296-298 | one `c` log entry per segment |
| StreamProperties.CurveInPath | pdfstream.py:296-298 | in a path, one `c` always succeeds, stays in the path and makes the segment's end the last point |
| StreamProperties.CurveLines | pdfstream.py:296-298 | one `c` line per segment |
| StreamProperties.SegmentsInPathStepwise | pdfstream.py:296-298 | in a path, the segments succeed one `c` at a time |
| StreamProperties.CurvesFromContent | pdfstream.py:296-298 | the segments add one line each, in order |
| StreamProperties.CurvesFromCommands | pdfstream.py:296-298 | the segments add one `c` entry each, in order |
| StreamProperties.CurvesFromLastPoint | pdfstream.py:296-298 | the segments leave the path open with the end of the last segment as the last point |
| StreamProperties.CurvesFromClosedForm | pdfstream.py:296-298 | the state after the segments in closed form |
| StreamProperties.SegmentsInPath | pdfstream.py:296-298 | in a path, the segments always succeed, adding one line and one `c` entry per segment |
| StreamProperties.MoveToAllowed | pdfstream.py:39-87 | `m` is allowed at the page level and in a path, and nowhere else |
| StreamProperties.MoveStep | pdfstream.py:295 | at the page level or in a path, the move-to succeeds and opens a path at its point; elsewhere it is not allowed |
| StreamProperties.CurveOutsidePath | pdfstream.py:296-298 | outside a path `c` is not allowed and changes nothing |
| StreamProperties.DrawPathWithMoveStepwise | pdfstream.py:294-299 | a custom path with a move-to, step by step |
| StreamProperties.DrawPathWithoutMoveStepwise | pdfstream.py:296-299 | a custom path without a move-to, step by step |
| StreamProperties.DrawPathWithMove | pdfstream.py:294-299 | with a move-to, drawing succeeds exactly at the page level or in a path, and logs the move-to, one `c` per segment and `:End` |
| StreamProperties.DrawPathWithoutMove | pdfstream.py:296-299 | without a move-to, drawing succeeds exactly in a path or with nothing to draw |
| StreamProperties.DrawPathOutcome | pdfstream.py:294-299 | after the `:Start` marker a custom path succeeds exactly when its first operator is allowed, and then logs the move-to, one `c` per segment and the `:End` marker |
| StreamProperties.CustomPathOutcome | pdfstream.py:283-302 | an unknown kind raises `NotImplementedError` and a disallowed mode fails the assertion, both changing nothing; a success logs `:Start` with the parameters the conversion received, the last point first when the table says so, then the move-to, one `c` per segment and `:End` |
| StreamProperties.SegmentsExtend | pdfstream.py:296-298 | the segments only append |
| StreamProperties.SegmentsKeepConsistent | pdfstream.py:296-298 | the segments keep the stream invariant |
| StreamProperties.DrawPathInvariants | pdfstream.py:294-299 | drawing only appends and keeps the stream invariant |
| StreamProperties.CustomPathInvariants | pdfstream.py:276-302 | `appendCustomPath` only appends and keeps the stream invariant |
| StreamProperties.NormaliseRoundTrip | pdfstream.py:315-326 | each command form gives back the operator and parameters it was built from |
| StreamProperties.NormaliseRejects | pdfstream.py:313-324 | the entries that cannot be unpacked: numbers, the empty tuple, and lists not of length two |
| StreamProperties.OperationInvariants | pdfstream.py:314-330 | one entry only appends and keeps the stream invariant |
| StreamProperties.AppendAllConcat | pdfstream.py:314-330 | the entries run in order; the first that raises stops the rest, and what earlier ones appended stays |
| StreamProperties.AppendAllInvariants | pdfstream.py:314-330 | a list of entries only appends and keeps the stream invariant |
| StreamProperties.AppendOperationsInvariants | pdfstream.py:312-330 | `append_multiple_operations` only appends and keeps the invariant; anything but a list changes nothing |
| StreamProperties.AppendAllSnoc | pdfstream.py:314-330 | one entry more runs after the others, unless one of them raised |
| StreamProperties.OperationIsAppend | pdfstream.py:327-330 | an entry whose operator is not a custom path is an `append` |
| StreamProperties.KnownStep | pdfstream.py:256-274 | an allowed operator with accepted parameters and a target in the table appends its line and log entry and moves to that target |
| StreamProperties.BareEntry | pdfstream.py:315-330 | a string entry for an operator without operands appends its symbol |
| StreamProperties.PointEntry | pdfstream.py:320-330 | an entry `(op, x, y)` for a two-number operator that opens or continues a path moves to the path mode, appends the line `x y op` with four decimals, logs the call and keeps `[x, y]` as the last point |
| StreamProperties.ConsStep | pdfstream.py:314-330 | a successful first entry followed by successful others is a successful list |
| StreamProperties.SaveEntry | pdfstream.py:48-49 | `q` takes no operand, is allowed at the page level and keeps the mode |
| StreamProperties.MoveToEntry | pdfstream.py:124 | `m` takes two numbers and opens a path from the page level |
| StreamProperties.LineToEntry | pdfstream.py:125 | `l` takes two numbers and continues a path |
| StreamProperties.StrokeEntry | pdfstream.py:134 | `S` takes no operand and ends a path |
| StreamProperties.RestoreEntry | pdfstream.py:120 | `Q` takes no operand, is allowed at the page level and keeps the mode |
| StreamProperties.ExampleStep | pdfstream.py:312-330 | each entry of `['q', ('m', x1, y1), ('l', x2, y2), 'S', 'Q']` takes the stream from one state of the run to the next |
| StreamProperties.ExampleTail | pdfstream.py:312-330 | the entries from the k-th on lead to the final state |
| StreamProperties.ExampleRun | pdfstream.py:312-330 | from the page level the example visits the page level, a path, a path, the page level and the page level, each entry passing; the whole list passes, and the final state is the page level with the lines `q`, `x1 y1 m`, `x2 y2 l`, `S`, `Q` appended, the five calls logged and no last point |
| StreamProperties.ExampleFinal | pdfstream.py:312-330 | the state after the five entries is that closed form: five lines and five log entries appended, the page level, no last point |
| ArcToCubic.Scale | pdfrwExtended/arc2cubic.py:93-94 | each coordinate is multiplied by its factor; the factors 1 leave the point in place, and dividing by non-zero factors gives the point back |
| ArcToCubic.Translate | pdfrwExtended/arc2cubic.py:102-103 | moving back by the same offset gives the original point |
| ArcToCubic.Rotate | pdfrwExtended/arc2cubic.py:96-100 | a rotation keeps the length of the vector it turns |
| ArcToCubic.TranslateComposes | pdfrwExtended/arc2cubic.py:102-103 | two translations are one by the sum of the offsets |
| ArcToCubic.ScaleComposes | pdfrwExtended/arc2cubic.py:93-94 | two scalings are one by the products of the factors |
| ArcToCubic.RotateByZero | pdfrwExtended/arc2cubic.py:96-100 | rotating by angle 0 leaves a point where it is |
| ArcToCubic.UnrotatedMap | pdfrwExtended/arc2cubic.py:114-115 | without axis rotation, a point of the unit circle is only scaled by the radii and moved to the centre |
| ArcToCubic.AngleBetween | pdfrwExtended/arc2cubic.py:13-19 | a zero vector gives NaN; otherwise the angle lies in [-pi, pi] with the sign of the cross product |
| ArcToCubic.CauchySchwarz | pdfrwExtended/arc2cubic.py:19 | over the reals the squared dot and cross products add up to the product of the squared lengths, so the cosine lies in [-1, 1] |
| ArcToCubic.ArcCenterToEndpoint | pdfrwExtended/arc2cubic.py:21-36 | the end points are the ellipse's points at the start and end angles; `rx`, `ry` and `phi` pass through; `large_arc` holds exactly when more than half a turn is swept and `sweep` exactly when the swept angle is positive |
| ArcToCubic.CorrectRadii | pdfrwExtended/arc2cubic.py:48-51 | the corrected radii are at least the absolute inputs and keep their ratio, and unchanged when lambda is at most 1 |
| ArcToCubic.SqrtAboveOne | pdfrwExtended/arc2cubic.py:50-51 | the square root of a lambda above 1 is above 1, so the radii only grow |
| ArcToCubic.Radicand | pdfrwExtended/arc2cubic.py:54-57 | the radicand is never negative (clamped at 0); coinciding end points make its denominator 0, where numpy gives +inf and the centre then becomes NaN from inf·0 at line 62, which is the error `NotANumber` |
| ArcToCubic.CentreSign | pdfrwExtended/arc2cubic.py:58-61 | the sign is -1 exactly when `large_arc == sweep`, otherwise +1 |
| ArcToCubic.NormaliseSweep | pdfrwExtended/arc2cubic.py:72-75 | the angle moves by at most a full turn; from [-pi, pi] the result lies in [0, 2 pi] with `sweep` and in [-2 pi, 0] without |
| ArcToCubic.ArcEndpointToCenter | pdfrwExtended/arc2cubic.py:38-77 | a zero radius fails the assertion; on success the radii are at least the absolute inputs, `phi` passes through, the start angle lies in [-pi, pi] and the swept angle has the sign the sweep flag asks for |
| ArcToCubic.CoincidentEndpoints | pdfrwExtended/arc2cubic.py:43-55 | coinciding end points with non-zero radii give a NaN centre |
| ArcToCubic.HalfChord | pdfrwExtended/arc2cubic.py:40-43 | step 1 of F.6.5; `HalfChordLength` and `CoincidentEndpoints` state it |
| ArcToCubic.HalfChordLength | pdfrwExtended/arc2cubic.py:40-43 | the half chord keeps its length in the frame of the axes |
| ArcToCubic.SweepFlagRoundTrip | pdfrwExtended/arc2cubic.py:72-75 | the sweep flag computed from a swept angle makes the normalisation turn the same way, whatever angle in [-pi, pi] is measured |
| ArcToCubic.SmallArcEnds | pdfrwExtended/arc2cubic.py:79-91 | a small arc runs from the unit-circle point at `theta` to the one at `theta + delta_theta`; it fails only on the square root's domain or on a zero cross product of its end points |
| ArcToCubic.SmallArcTangents | pdfrwExtended/arc2cubic.py:87-90 | the control points lie on the tangents at the end points |
| ArcToCubic.SmallArcDefined | pdfrwExtended/arc2cubic.py:84-86 | over the reals a small arc fails exactly when its end points are parallel, in particular when it sweeps no angle |
| ArcToCubic.SmallArc | pdfrwExtended/arc2cubic.py:79-91 | Riskus's cubic for one small arc; `SmallArcEnds`, `SmallArcTangents`, `SmallArcDefined` and `SmallArcSucceeds` state it |
| ArcToCubic.SmallArcSucceeds | pdfrwExtended/arc2cubic.py:79-91 | with the sine laws, a small arc of a non-zero angle of at most a quarter turn never fails |
| ArcToCubic.SmallArcsSucceed | pdfrwExtended/arc2cubic.py:110-117 | with the sine laws, every small arc of a non-zero step of at most a quarter turn succeeds |
| ArcToCubic.SegmentCount | pdfrwExtended/arc2cubic.py:106-108 | the least n >= 1 with n·pi/2 >= abs(delta_theta) |
| ArcToCubic.CountSegments | pdfrwExtended/arc2cubic.py:106-108 | the `while` loop computes exactly that least count |
| ArcToCubic.LeastCount | pdfrwExtended/arc2cubic.py:107 | a count that covers the arc and does not exceed the least one is the least one |
| ArcToCubic.SmallArcsAtMostQuarterTurn | pdfrwExtended/arc2cubic.py:109 | each small arc sweeps at most a quarter turn |
| ArcToCubic.AtMostFourSegments | pdfrwExtended/arc2cubic.py:106-108 | an arc of at most a full turn takes at most four segments |
| ArcToCubic.FullTurnFourSegments | pdfrwExtended/arc2cubic.py:130 | the full turn takes exactly four segments |
| ArcToCubic.AngleClosedForm | pdfrwExtended/arc2cubic.py:111-117 | over the reals, j steps of `small_arc_delta_theta` from `theta_1` reach `theta_1 + j·small_arc_delta_theta` |
| ArcToCubic.AngleShift | pdfrwExtended/arc2cubic.py:117 | starting one step later is taking one step more |
| ArcToCubic.Subarcs | pdfrwExtended/arc2cubic.py:110-118 | the segments of the `for` loop from one angle on; `SubarcsShape`, `SplitArc` and `SmallArcsSucceed` state it |
| ArcToCubic.SubarcsShape | pdfrwExtended/arc2cubic.py:110-118 | the split succeeds exactly when every small arc does, and then holds one placed segment per small arc, in order |
| ArcToCubic.StepsClosedForm | pdfrwExtended/arc2cubic.py:111-117 | the small arcs found by stepping are those at the multiples of the step |
| ArcToCubic.CenterToCubicShape | pdfrwExtended/arc2cubic.py:105-118 | `arcCenterToCubic` returns n segments; segment j is the small arc from `theta_1 + j·delta_theta/n`, scaled, rotated and translated; each sweeps at most a quarter turn |
| ArcToCubic.CenterToCubic | pdfrwExtended/arc2cubic.py:105-118 | what `arcCenterToCubic` returns; `CenterToCubicShape` and `CenterToCubicSucceeds` state it |
| ArcToCubic.CenterToCubicSucceeds | pdfrwExtended/arc2cubic.py:105-118 | with the sine laws, `arcCenterToCubic` succeeds exactly when `delta_theta` is not 0; a zero `delta_theta` raises ZeroDivisionError at line 86 |
| ArcToCubic.ZeroSweepFails | pdfrwExtended/arc2cubic.py:86 | a zero `delta_theta` gives one small arc whose division by zero raises |
| ArcToCubic.NonZeroSweepSucceeds | pdfrwExtended/arc2cubic.py:105-118 | with the sine laws, a non-zero `delta_theta` always gives a split |
| ArcToCubic.ArcCenterToCubic | pdfrwExtended/arc2cubic.py:105-118 | the count, then the split, as `CenterToCubic` says |
| ArcToCubic.SplitArc | pdfrwExtended/arc2cubic.py:110-118 | the `for` loop, advancing the angle by one step per small arc, builds the split `Subarcs` describes |
| ArcToCubic.SubarcsStep | pdfrwExtended/arc2cubic.py:112-117 | one turn of the loop: the first small arc's error, or its placed segment followed by the rest |
| ArcToCubic.SplitStep | pdfrwExtended/arc2cubic.py:112-117 | one turn of the loop keeps its invariant or ends the split with the small arc's error |
| ArcToCubic.EllipseClosed | pdfrwExtended/arc2cubic.py:129-133 | the ellipse succeeds exactly when the split of the full turn does, and is then four segments: the first three are those of the full turn from angle 0, and the last ends exactly where the first starts |
| ArcToCubic.EllipseSucceeds | pdfrwExtended/arc2cubic.py:129-133 | with the sine laws `ellipseToCubic` never fails: the full turn is a non-zero angle |
| ArcToCubic.Ellipse | pdfrwExtended/arc2cubic.py:129-133 | what `ellipseToCubic` returns, with the default rotation 0; its properties are `EllipseClosed` and `EllipseSucceeds` |
| ArcToCubic.EllipseToCubic | pdfrwExtended/arc2cubic.py:129-133 | the full turn from angle 0, with its last point overwritten in place by the first, as `Ellipse` says |
| ArcToCubic.CircleToCubic | pdfrwExtended/arc2cubic.py:135-136 | a circle is the ellipse with equal radii and no axis rotation |
| ArcToCubic.EndpointArcSegments | pdfrwExtended/arc2cubic.py:120-127 | an arc given by its end points fails for a zero radius, and otherwise takes one to four segments |
| ArcToCubic.EndpointToCubic | pdfrwExtended/arc2cubic.py:120-127 | what `arcEndpointToCubic` returns, by default a large arc with positive sweep and no rotation; `EndpointArcSegments` states it |
| ArcToCubic.ArcEndpointToCubic | pdfrwExtended/arc2cubic.py:120-127 | the centre form, then its split, as `EndpointToCubic` says |

## Left out

- Floating point: all arithmetic is exact over `real`. Rounding errors, infinities and the accuracy of the cubic approximation are not modelled.
- Operators.PyStr: a float inside the `DP`/`BDC` properties is written with four decimals, where Python's `str` and `repr` give the shortest text that reads back (`0.5`, `2.0`, `1e-05`). `repr` of a string is exact up to U+00FF; above it, characters Python counts as unprintable are copied where Python escapes them.
- Decimal.FixedPoint: `'{:.4f}'` and `'{:.2f}'` are rendered from the exact rational value, with ties to even. Python renders the binary float nearest to the value, so the last digit may differ. Only the shape of a rendering is relied on: one token, a point, so many decimals.
- ArcToCubic.MathLib: `sin`, `cos`, `acos` and `sqrt` are parameters, known only through the laws of `ValidMath`. No claim is made about their values. The lemmas that a split succeeds (`SmallArcSucceeds`, `CenterToCubicSucceeds`, `EllipseSucceeds`) also assume the sine laws of `SineLaws`: the cross product of two unit points is the sine of their angle, and the sine is positive on (0, π/2] and negative on [-π/2, 0).
- ArcToCubic.Radicand: numpy's division by zero gives +inf rather than raising; the centre offset is then inf·0, a NaN. That NaN centre is modelled as the error `NotANumber`. The values that would come out of it are not modelled.
- ArcToCubic.AngleBetween: a floating-point cosine just outside [-1, 1] makes `acos` raise. This is the error `MathDomain`. Over the reals it cannot happen (`CauchySchwarz`), but the lemma that `angleBetween` always succeeds on non-zero vectors is not stated.
- ArcToCubic.ArcEndpointToCenter: weaker than the geometry. It does not state that both end points lie on the corrected ellipse. Round trips between the two arc forms are not stated.
- ArcToCubic.Subarcs: `theta += small_arc_delta_theta` is exact over the reals. So segment j starts exactly at `theta_1 + j·delta_theta/n`, which a float sum only approximates.
- ArcToCubic.SmallArc: the values of the control points are not checked against the arc. Only their tangency and the end points are stated.
- `custom_path_operator` is imported by `pdfstream.py` but is not defined in `pdfrwExtended/arc2cubic.py`. The table is therefore a parameter of the model (`Stream.PathTable`). Its fields are the allowed modes, whether to send the last point, whether to prepend a move-to, and the conversion to cubic segments.
- Stream.OperationStep: `append_multiple_operations` passes no keyword arguments, so custom paths from a list receive an empty keyword map.
- Common.Param: booleans, dictionaries, `None` and other Python objects are not parameter values of the model. A formatter given them is not modelled. Hashability covers lists and tuples only.
- Common.Error: the messages of `ValueError` and `NotImplementedError` are kept only where the model builds them from the inputs. The text `str(value_)` of `raiseValueError` is recorded as the value itself.
- `PdfTM.skew` raises `NameError` at once (it writes `skew_matrix - ...`). It is not modelled.
- Misc.PdfTM.Rotate: takes the cosine and sine of the angle as parameters instead of computing them.
- `newPdfPage`, every `pdfrw` object and `pdf_special_dicts.py` belong to the pdfrw library. They are not part of this model.
- `PdfStream.__repr__` is the Python representation of the log. It is not modelled.
- numpy's `dot`, `array`, `norm` and `matmul` are written out as real arithmetic on points and 3x3 matrices.
