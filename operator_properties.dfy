/**
 * What the operator table promises: the shape of every rendered line, which
 * symbols are operators at all, and the parameter domain of each validating
 * operator.
 */
module OperatorProperties {
  import opened Common
  import opened Decimal
  import opened Symbols
  import opened Operators
  import Misc

  /** Every line is the bare symbol or ends with a space and the symbol;
      `d1` is the exception, its line ends with `d0`. */
  lemma FormattedLineEndsWithSymbol(o: Op, ps: seq<Param>)
    requires Format(o, ps).Ok?
    ensures var line := Format(o, ps).value;
      line == Symbol(o) || EndsWith(line, " " + Symbol(if o == GlyphWidthAndBox then GlyphWidth else o))
  {
    RenderEndsWithSymbol(RuleOf(o), ps, Symbol(o));
    if o != GlyphWidthAndBox {
      OnlyGlyphBoxRule(o);
    }
  }

  /** A formatter's line is the symbol it is given, alone or after a space,
      except the `d1` formatter's, which ends with `d0`. */
  lemma RenderEndsWithSymbol(rule: Rule, ps: seq<Param>, symbol: string)
    requires Render(rule, ps, symbol).Ok?
    ensures var line := Render(rule, ps, symbol).value;
      line == symbol || EndsWith(line, " " + if rule == GlyphBoxRule then Symbol(GlyphWidth) else symbol)
  {
    match rule
    case NumbersRule(n) =>
    case BareRule =>
    case IntegerRule(lo, hi, item) =>
    case DashRule =>
    case IntentRule =>
    case NamedRule =>
    case FontRule =>
    case ShowRule =>
    case KerningRule =>
    case SpacedShowRule =>
    case GlyphWidthRule =>
    case GlyphBoxRule =>
    case ColorSpaceRule =>
    case ComponentsRule =>
    case NamedComponentsRule =>
    case UnitComponentsRule(count, item) =>
    case TaggedRule =>
  }

  /** `d1` is the only operator with the `d1` formatter. */
  lemma OnlyGlyphBoxRule(o: Op)
    ensures RuleOf(o) == GlyphBoxRule <==> o == GlyphWidthAndBox
  {
  }

  // ---------------------------------------------------------------------
  // Numeric operators

  /** A numeric operator accepts exactly its number of numbers, and its line
      splits at spaces into the rendered numbers followed by the symbol. */
  lemma NumericOperatorTokens(o: Op, ps: seq<Param>)
    requires NumericArity(o).Some?
    ensures Format(o, ps).Ok? <==> |ps| == NumericArity(o).value && AllNumbers(ps)
    ensures Format(o, ps).Ok? ==>
      Split(Format(o, ps).value, ' ') == seq(|ps|, k requires 0 <= k < |ps| && IsNumber(ps[k]) => Fmt4(NumValue(ps[k]))) + [Symbol(o)]
  {
    SymbolIsToken(o);
    NumbersTokens(ps, RuleOf(o).n, Symbol(o));
  }

  /** The numeric formatter accepts exactly `n` numbers, and for a symbol
      without spaces its line splits into their renderings and the symbol. */
  lemma NumbersTokens(ps: seq<Param>, n: Arity, symbol: string)
    requires ' ' !in symbol
    ensures Numbers(ps, n, symbol).Ok? <==> |ps| == n && AllNumbers(ps)
    ensures Numbers(ps, n, symbol).Ok? ==>
      Split(Numbers(ps, n, symbol).value, ' ') == seq(|ps|, k requires 0 <= k < |ps| && IsNumber(ps[k]) => Fmt4(NumValue(ps[k]))) + [symbol]
  {
    if Numbers(ps, n, symbol).Ok? {
      var nums :| Nums4(ps) == Ok(nums);
      var tokens := seq(|ps|, k requires 0 <= k < |ps| && IsNumber(ps[k]) => Fmt4(NumValue(ps[k])));
      assert nums == tokens;
      NumbersSplit(nums, symbol);
    }
  }

  /** The line of a two-number operator: both numbers with four decimals,
      then the symbol. */
  function PointLine(x: real, y: real, symbol: string): string {
    Fmt4(x) + " " + Fmt4(y) + " " + symbol
  }

  /** A two-number operator given two numbers renders them in order, then
      its symbol. */
  lemma PointOperatorLine(o: Op, x: real, y: real)
    requires NumericArity(o) == Some(2)
    ensures Format(o, [PReal(x), PReal(y)]) == Ok(PointLine(x, y, Symbol(o)))
  {
    var ps := [PReal(x), PReal(y)];
    assert Nums4(ps).value == [Fmt4(x), Fmt4(y)];
    assert Join(" ", [Fmt4(x), Fmt4(y)]) == Fmt4(x) + " " + Fmt4(y);
    assert NumbersThen(ps, Symbol(o)) == Ok(PointLine(x, y, Symbol(o)));
    assert Format(o, ps) == Numbers(ps, 2, Symbol(o));
  }

  /** Rendered numbers joined by spaces and followed by a symbol without
      spaces split back into the numbers and the symbol. */
  lemma NumbersSplit(nums: seq<string>, symbol: string)
    requires forall k :: 0 <= k < |nums| ==> exists x: real :: nums[k] == Fmt4(x)
    requires ' ' !in symbol
    ensures |nums| >= 1 ==> Split(Join(" ", nums) + " " + symbol, ' ') == nums + [symbol]
  {
    if |nums| >= 1 {
      forall k | 0 <= k < |nums + [symbol]|
        ensures ' ' !in (nums + [symbol])[k]
      {
        if k < |nums| {
          var x: real :| nums[k] == Fmt4(x);
          FixedPointIsToken(x, 4);
          assert forall j :: 0 <= j < |nums[k]| ==> IsNumeral(nums[k][j]);
        }
      }
      JoinSnoc(" ", nums, symbol);
      SplitJoin(nums + [symbol], ' ');
    }
  }

  /** An operator without operands takes no parameters and renders as its
      symbol alone. */
  lemma BareOperatorLine(o: Op, ps: seq<Param>)
    requires IsBare(o)
    ensures Format(o, ps).Ok? <==> |ps| == 0
    ensures Format(o, ps).Ok? ==> Format(o, ps).value == Symbol(o)
  {
    assert Format(o, ps) == Bare(ps, Symbol(o));
  }

  // ---------------------------------------------------------------------
  // Integer choices: J, j, i, Tr

  /** Accepted exactly when the single parameter is an int in [lo, hi]; a
      parameter that is no number equal to such an int is an invalid value,
      and a float such as 1.0 passes the membership test but not the format spec `d`. */
  lemma IntegerChoiceDomain(ps: seq<Param>, lo: int, hi: int, item: string, symbol: string)
    ensures IntegerChoice(ps, lo, hi, item, symbol).Ok? <==>
      |ps| == 1 && ps[0].PInt? && lo <= ps[0].i <= hi
    ensures IntegerChoice(ps, lo, hi, item, symbol).Ok? ==>
      IntegerChoice(ps, lo, hi, item, symbol).value == IntText(ps[0].i) + " " + symbol
    ensures |ps| == 1 && ps[0].PReal? && lo as real <= ps[0].r <= hi as real && ps[0].r.Floor as real == ps[0].r ==>
      IntegerChoice(ps, lo, hi, item, symbol) == Err(ArgumentError)
    ensures |ps| == 1 && !(IsNumber(ps[0]) && lo as real <= NumValue(ps[0]) <= hi as real && NumValue(ps[0]).Floor as real == NumValue(ps[0])) ==>
      IntegerChoice(ps, lo, hi, item, symbol) == Err(InvalidValue(item, ps[0]))
  {
    if |ps| == 1 {
      if ps[0].PInt? && lo <= ps[0].i <= hi {
        assert NumEquals(ps[0], ps[0].i);
      }
      if ps[0].PReal? && lo as real <= ps[0].r <= hi as real && ps[0].r.Floor as real == ps[0].r {
        assert NumEquals(ps[0], ps[0].r.Floor);
      }
      if exists k :: lo <= k <= hi && NumEquals(ps[0], k) {
        var k :| lo <= k <= hi && NumEquals(ps[0], k);
        assert NumValue(ps[0]).Floor == k;
      }
    }
  }

  /** Line cap and line join accept 0, 1 and 2 only. */
  lemma LineCapAndJoinDomain(ps: seq<Param>)
    ensures Format(LineCap, ps).Ok? <==> |ps| == 1 && ps[0].PInt? && 0 <= ps[0].i <= 2
    ensures Format(LineJoin, ps).Ok? <==> |ps| == 1 && ps[0].PInt? && 0 <= ps[0].i <= 2
  {
    IntegerChoiceDomain(ps, 0, 2, "\"line cap\"", "J");
    IntegerChoiceDomain(ps, 0, 2, "\"line join\"", "j");
  }

  /** Flatness accepts 0 to 100. */
  lemma FlatnessDomain(ps: seq<Param>)
    ensures Format(Flatness, ps).Ok? <==> |ps| == 1 && ps[0].PInt? && 0 <= ps[0].i <= 100
  {
    IntegerChoiceDomain(ps, 0, 100, "\"flatness\"", "i");
  }

  /** The text rendering mode accepts 0 to 7. */
  lemma TextRenderingModeDomain(ps: seq<Param>)
    ensures Format(RenderMode, ps).Ok? <==> |ps| == 1 && ps[0].PInt? && 0 <= ps[0].i <= 7
  {
    IntegerChoiceDomain(ps, 0, 7, "\"text rendering mode\"", "Tr");
  }

  // ---------------------------------------------------------------------
  // Names: ri, CS, cs

  /** The rendering intent accepts the four intent names and nothing else. */
  lemma RenderingIntentDomain(ps: seq<Param>)
    ensures Format(RenderingIntent, ps).Ok? <==> |ps| == 1 && ps[0].PStr? && ps[0].s in Intents
    ensures Format(RenderingIntent, ps).Ok? ==> Format(RenderingIntent, ps).value == ps[0].s + " ri"
    ensures |ps| == 1 && !(ps[0].PStr? && ps[0].s in Intents) ==>
      Format(RenderingIntent, ps) == Err(InvalidValue("\"rendering intent\"", ps[0]))
  {
  }

  /** The colour-space operators accept the four colour spaces; any other
      name is not implemented. */
  lemma ColorSpaceDomain(op: Op, ps: seq<Param>)
    requires op == StrokeColorSpace || op == FillColorSpace
    ensures Format(op, ps).Ok? <==> |ps| == 1 && ps[0].PStr? && ps[0].s in ColorSpaces
    ensures Format(op, ps).Ok? ==> Format(op, ps).value == ps[0].s + " " + Symbol(op)
    ensures |ps| == 1 && ps[0].PStr? && ps[0].s !in ColorSpaces ==>
      Format(op, ps).Err? && Format(op, ps).error.NotImplemented?
  {
  }

  // ---------------------------------------------------------------------
  // Colour components

  /** The reals of a list of numbers. */
  function Reals(vs: seq<Param>): (rs: seq<real>)
    requires AllNumbers(vs)
    ensures |rs| == |vs|
    ensures forall k :: 0 <= k < |vs| ==> rs[k] == NumValue(vs[k])
  {
    seq(|vs|, k requires 0 <= k < |vs| => NumValue(vs[k]))
  }

  /** Every value is a number in [0, 1]. */
  predicate InUnitInterval(vs: seq<Param>) {
    forall k :: 0 <= k < |vs| ==> IsNumber(vs[k]) && 0.0 <= NumValue(vs[k]) <= 1.0
  }

  /** Over numbers the colour operators' scan is `isWithinLimits` with its
      default limits. */
  lemma {:induction false} ScanIsWithinLimits(vs: seq<Param>)
    requires AllNumbers(vs)
    ensures ScanUnitLimits(vs) == Ok(Misc.WithinLimits(Reals(vs), 0.0, 1.0, true, true))
  {
    Misc.DefaultLimitsAreUnitInterval(Reals(vs));
    if |vs| > 0 {
      ScanIsWithinLimits(vs[1..]);
      Misc.DefaultLimitsAreUnitInterval(Reals(vs[1..]));
      assert forall k :: 1 <= k < |vs| ==> NumValue(vs[k]) == NumValue(vs[1..][k - 1]);
    }
  }

  lemma {:induction false} ScanAcceptsUnitInterval(vs: seq<Param>)
    ensures ScanUnitLimits(vs) == Ok(true) <==> InUnitInterval(vs)
  {
    if |vs| > 0 {
      ScanAcceptsUnitInterval(vs[1..]);
      assert forall k :: 1 <= k < |vs| ==> vs[k] == vs[1..][k - 1];
    }
  }

  /** The number of components of the gray, RGB and CMYK operators. */
  function ComponentCount(op: Op): nat {
    match op
    case StrokeGray | FillGray => 1
    case StrokeRGB | FillRGB => 3
    case _ => 4
  }

  predicate IsUnitColor(op: Op) {
    op == StrokeGray || op == FillGray || op == StrokeRGB || op == FillRGB || op == StrokeCMYK || op == FillCMYK
  }

  /** The gray, RGB and CMYK operators accept exactly their number of
      components, each a number in [0, 1] with both ends included; numbers
      outside it are an invalid value. */
  lemma UnitComponentsDomain(op: Op, ps: seq<Param>)
    requires IsUnitColor(op)
    ensures Format(op, ps).Ok? <==> |ps| == ComponentCount(op) && InUnitInterval(ps)
    ensures |ps| == ComponentCount(op) && AllNumbers(ps) && !InUnitInterval(ps) ==>
      Format(op, ps).Err? && Format(op, ps).error.InvalidValue?
  {
    UnitColorRule(op);
    UnitComponentsCases(ps, ComponentCount(op), ComponentItem(op), Symbol(op));
  }

  /** The item the gray, RGB and CMYK operators name in their error. */
  function ComponentItem(op: Op): string {
    match op
    case StrokeGray | FillGray => "gray"
    case StrokeRGB | FillRGB => "RGB"
    case _ => "CMYK"
  }

  /** The gray, RGB and CMYK operators share one formatter, which differs
      only in the number of components and the item named. */
  lemma UnitColorRule(op: Op)
    requires IsUnitColor(op)
    ensures RuleOf(op) == UnitComponentsRule(ComponentCount(op), ComponentItem(op))
  {
  }

  /** The shared body of the gray, RGB and CMYK operators. */
  lemma UnitComponentsCases(ps: seq<Param>, n: nat, item: string, symbol: string)
    ensures UnitComponents(ps, n, item, symbol).Ok? <==> |ps| == n && InUnitInterval(ps)
    ensures |ps| == n && AllNumbers(ps) && !InUnitInterval(ps) ==>
      UnitComponents(ps, n, item, symbol).Err? && UnitComponents(ps, n, item, symbol).error.InvalidValue?
  {
    if |ps| == n {
      var scanned := if n == 1 then LimitValues(ps[0]) else ps;
      ScanAcceptsUnitInterval(scanned);
      if n == 1 && !ps[0].PList? {
        assert scanned == ps;
      }
      if AllNumbers(ps) {
        ScanIsWithinLimits(ps);
      }
    }
  }

  /** `SC` and `sc` accept 1, 3 or 4 numbers. */
  lemma ComponentsDomain(op: Op, ps: seq<Param>)
    requires op == StrokeColor || op == FillColor
    ensures Format(op, ps).Ok? <==> |ps| in {1, 3, 4} && AllNumbers(ps)
    ensures !(|ps| in {1, 3, 4}) ==> Format(op, ps) == Err(InvalidValue("\"" + Symbol(op) + "\"", PTuple(ps)))
  {
  }

  /** `SCN` and `scn` accept 1, 3 or 4 numbers, optionally followed by a
      pattern name, which then ends the numbers. */
  lemma NamedComponentsDomain(op: Op, ps: seq<Param>)
    requires op == StrokeColorNamed || op == FillColorNamed
    ensures Format(op, ps).Ok? <==>
      |ps| >= 1 &&
      var components := if ps[|ps| - 1].PStr? then ps[..|ps| - 1] else ps;
      |components| in {1, 3, 4} && AllNumbers(components)
    ensures Format(op, ps).Ok? && ps[|ps| - 1].PStr? ==>
      EndsWith(Format(op, ps).value, " " + ps[|ps| - 1].s + " " + Symbol(op))
  {
    assert RuleOf(op) == NamedComponentsRule;
    NamedComponentsCases(ps, Symbol(op));
  }

  /** The shared body of `SCN` and `scn`. */
  lemma NamedComponentsCases(ps: seq<Param>, symbol: string)
    ensures NamedComponents(ps, symbol).Ok? <==>
      |ps| >= 1 &&
      var components := if ps[|ps| - 1].PStr? then ps[..|ps| - 1] else ps;
      |components| in {1, 3, 4} && AllNumbers(components)
    ensures NamedComponents(ps, symbol).Ok? && ps[|ps| - 1].PStr? ==>
      EndsWith(NamedComponents(ps, symbol).value, " " + ps[|ps| - 1].s + " " + symbol)
  {
    if |ps| >= 1 {
      if ps[|ps| - 1].PStr? {
        NamedComponentsWithPattern(ps, symbol);
      } else {
        NamedComponentsWithoutPattern(ps, symbol);
      }
    }
  }

  /** With a trailing pattern name, the numbers before it are the
      components, and the line ends with the name and the symbol. */
  lemma NamedComponentsWithPattern(ps: seq<Param>, symbol: string)
    requires |ps| >= 1 && ps[|ps| - 1].PStr?
    ensures NamedComponents(ps, symbol).Ok? <==> |ps| - 1 in {1, 3, 4} && AllNumbers(ps[..|ps| - 1])
    ensures NamedComponents(ps, symbol).Ok? ==>
      EndsWith(NamedComponents(ps, symbol).value, " " + ps[|ps| - 1].s + " " + symbol)
  {
    var name := ps[|ps| - 1].s;
    var r := Nums4(ps[..|ps| - 1]);
    if r.Ok? {
      var text := Join(" ", r.value) + " " + name;
      assert SetColorNamedToString(ps) == Ok((text, |ps| - 1));
      assert Spaced(text, symbol) == Join(" ", r.value) + (" " + name + " " + symbol);
      EndsWithConcat(Join(" ", r.value), " " + name + " " + symbol);
    } else {
      assert SetColorNamedToString(ps).Err?;
    }
  }

  /** Without a pattern name, all the parameters are components. */
  lemma NamedComponentsWithoutPattern(ps: seq<Param>, symbol: string)
    requires |ps| >= 1 && !ps[|ps| - 1].PStr?
    ensures NamedComponents(ps, symbol).Ok? <==> |ps| in {1, 3, 4} && AllNumbers(ps)
  {
    var r := Nums4(ps);
    if r.Ok? {
      assert SetColorNamedToString(ps) == Ok((Join(" ", r.value), |ps|));
    } else {
      assert SetColorNamedToString(ps).Err?;
    }
  }

  // ---------------------------------------------------------------------
  // Marked content with properties: DP, BDC

  /** `DP` and `BDC` take a tag and a properties operand, and write the tag,
      the `str()` of the properties and the symbol. */
  lemma TaggedPropertiesLine(op: Op, ps: seq<Param>)
    requires op == MarkPointProperties || op == BeginMarkedContentProperties
    ensures Format(op, ps).Ok? <==> |ps| == 2 && ps[0].PStr?
    ensures Format(op, ps).Ok? ==> Format(op, ps).value == ps[0].s + " " + PyStr(ps[1]) + " " + Symbol(op)
  {
    assert RuleOf(op) == TaggedRule;
  }

  /** A string of printable ASCII without backslash or single quote is
      written by `repr` between single quotes, unchanged. */
  lemma {:induction false} PlainStringRepr(s: string)
    requires forall k :: 0 <= k < |s| ==> ' ' <= s[k] <= '~' && s[k] != '\\' && s[k] != '\''
    ensures StrRepr(s) == "'" + s + "'"
  {
    PlainEscaped(s);
  }

  lemma {:induction false} PlainEscaped(s: string)
    requires forall k :: 0 <= k < |s| ==> ' ' <= s[k] <= '~' && s[k] != '\\' && s[k] != '\''
    ensures Escaped(s, '\'') == s
  {
    if |s| > 0 {
      PlainEscaped(s[1..]);
      assert [s[0]] + s[1..] == s;
    }
  }

  /** Elements of a list are written with `repr`: strings get their quotes,
      numbers and nested lists and tuples are as `str` writes them. */
  lemma ListElementsRepr(items: seq<Param>)
    ensures PyStr(PList(items)) == "[" + Join(", ", ReprAll(items)) + "]"
    ensures |ReprAll(items)| == |items|
    ensures forall k :: 0 <= k < |items| && items[k].PStr? ==> ReprAll(items)[k] == StrRepr(items[k].s)
    ensures forall k :: 0 <= k < |items| && !items[k].PStr? ==> ReprAll(items)[k] == PyStr(items[k])
  {
    ReprAllElements(items);
  }

  lemma {:induction false} ReprAllElements(items: seq<Param>)
    ensures |ReprAll(items)| == |items|
    ensures forall k :: 0 <= k < |items| ==> ReprAll(items)[k] == PyRepr(items[k])
  {
    if |items| > 0 {
      ReprAllElements(items[1..]);
    }
  }

  // ---------------------------------------------------------------------
  // Type 3 fonts

  /** `d1` renders a `d0` line and never reads its fifth parameter. */
  lemma GlyphBoxIgnoresUpperRightY(ps: seq<Param>, other: Param)
    requires |ps| == 5
    ensures Format(GlyphWidthAndBox, ps) == Format(GlyphWidthAndBox, ps[4 := other])
    ensures Format(GlyphWidthAndBox, ps).Ok? <==> AllNumbers(ps[..4])
  {
    assert ps[..4] == ps[4 := other][..4];
  }
}
