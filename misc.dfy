/**
 * Helper arithmetic of the library: unit conversion, the range test used by
 * the colour operators, and the PDF transformation matrix (sections 8.3.3
 * and 8.3.4 of ISO 32000-1), all over exact reals.
 */
module Misc {
  import opened Common
  import opened Decimal

  /** Millimetres to PostScript points (72 per inch, 25.4 mm per inch). */
  function MmToPt(mm: real): real {
    (mm / 25.4) * 72.0
  }

  /** PostScript points to millimetres. */
  function PtToMm(pt: real): real {
    (pt / 72.0) * 25.4
  }

  lemma PtToMmInvertsMmToPt(x: real)
    ensures PtToMm(MmToPt(x)) == x
  {
  }

  lemma MmToPtInvertsPtToMm(x: real)
    ensures MmToPt(PtToMm(x)) == x
  {
  }

  /** One inch is 72 points. */
  lemma InchIsSeventyTwoPoints()
    ensures MmToPt(25.4) == 72.0
  {
  }

  lemma MmToPtMonotonic(x: real, y: real)
    requires x < y
    ensures MmToPt(x) < MmToPt(y)
  {
  }

  // ---------------------------------------------------------------------
  // isWithinLimits

  /** The `values` argument: a list, or any other single value. */
  datatype Values = Scalar(x: real) | List(xs: seq<real>)

  /** A non-list argument is treated as a one-element list. */
  function AsList(values: Values): (s: seq<real>)
    ensures values.Scalar? ==> s == [values.x]
    ensures values.List? ==> s == values.xs
  {
    match values
    case Scalar(x) => [x]
    case List(xs) => xs
  }

  /** `v` respects the lower bound, inclusively or strictly. */
  predicate AboveLower(v: real, lower: real, includeLower: bool) {
    if includeLower then lower <= v else lower < v
  }

  /** `v` respects the upper bound, inclusively or strictly. */
  predicate BelowUpper(v: real, upper: real, includeUpper: bool) {
    if includeUpper then v <= upper else v < upper
  }

  /** Every value lies within the limits. */
  predicate WithinLimits(values: seq<real>, lower: real, upper: real,
                         includeLower: bool, includeUpper: bool)
  {
    forall k :: 0 <= k < |values| ==>
      AboveLower(values[k], lower, includeLower) && BelowUpper(values[k], upper, includeUpper)
  }

  /** The scan of `isWithinLimits`: returns false at the first value outside
      the limits, true when there is none. */
  method IsWithinLimits(values: Values, lower: real := 0.0, upper: real := 1.0,
                        includeLower: bool := true, includeUpper: bool := true)
    returns (ok: bool)
    ensures ok == WithinLimits(AsList(values), lower, upper, includeLower, includeUpper)
  {
    var vs := AsList(values);
    var k := 0;
    while k < |vs|
      invariant 0 <= k <= |vs|
      invariant WithinLimits(vs[..k], lower, upper, includeLower, includeUpper)
    {
      var value := vs[k];
      if includeLower {
        if value < lower {
          return false;
        }
      } else {
        if value <= lower {
          return false;
        }
      }
      if includeUpper {
        if value > upper {
          return false;
        }
      } else {
        if value >= upper {
          return false;
        }
      }
      assert vs[..k + 1] == vs[..k] + [value];
      k := k + 1;
    }
    assert vs[..k] == vs;
    return true;
  }

  /** With the default limits the test is "every value is in [0, 1]", both
      ends included. */
  lemma DefaultLimitsAreUnitInterval(values: seq<real>)
    ensures WithinLimits(values, 0.0, 1.0, true, true) <==>
            forall k :: 0 <= k < |values| ==> 0.0 <= values[k] <= 1.0
  {
  }

  /** Excluding a limit makes that bound strict: a value equal to it fails. */
  lemma ExcludedLimitsAreStrict(v: real, lower: real, upper: real)
    ensures !WithinLimits([v], v, upper, false, true)
    ensures !WithinLimits([v], lower, v, true, false)
  {
    assert !AboveLower([v][0], v, false);
    assert !BelowUpper([v][0], v, false);
  }

  // ---------------------------------------------------------------------
  // Transformation matrices

  /** The namedtuple `PDFTransformationMatrix(a, b, c, d, e, f)`, standing for
      the 3x3 matrix [[a, b, 0], [c, d, 0], [e, f, 1]]. */
  datatype TM = TM(a: real, b: real, c: real, d: real, e: real, f: real)

  /** `newTM`: the identity unless arguments say otherwise. The matrix is
      fixed by where it sends three points: the origin to (e, f) and the
      two unit points to (a + e, b + f) and (c + e, d + f). */
  function NewTM(a: real := 1.0, b: real := 0.0, c: real := 0.0,
                 d: real := 1.0, e: real := 0.0, f: real := 0.0): (m: TM)
    ensures Apply(m, (0.0, 0.0)) == (e, f)
    ensures Apply(m, (1.0, 0.0)) == (a + e, b + f)
    ensures Apply(m, (0.0, 1.0)) == (c + e, d + f)
  {
    TM(a, b, c, d, e, f)
  }

  /** Without arguments `newTM` is the identity and moves no point; with
      only e and f it translates, with only a and d it scales. */
  lemma NewTMDefaults(p: (real, real), tx: real, ty: real, sx: real, sy: real)
    ensures NewTM() == Identity
    ensures Apply(NewTM(), p) == p
    ensures Apply(NewTM(e := tx, f := ty), p) == (p.0 + tx, p.1 + ty)
    ensures Apply(NewTM(a := sx, d := sy), p) == (sx * p.0, sy * p.1)
  {
    var r := Apply(NewTM(a := sx, d := sy), p);
    assert r.0 == sx * p.0 && r.1 == sy * p.1;
  }

  const Identity: TM := TM(1.0, 0.0, 0.0, 1.0, 0.0, 0.0)

  /** A full 3x3 matrix, row by row, for the product `__mul__` computes. */
  datatype Row = Row(x: real, y: real, z: real)
  datatype Mat3 = Mat3(r0: Row, r1: Row, r2: Row)

  /** The 3x3 array `__mul__` builds from a matrix. */
  function Embed(m: TM): Mat3 {
    Mat3(Row(m.a, m.b, 0.0), Row(m.c, m.d, 0.0), Row(m.e, m.f, 1.0))
  }

  function Dot(u: Row, v0: real, v1: real, v2: real): real {
    u.x * v0 + u.y * v1 + u.z * v2
  }

  /** Ordinary 3x3 matrix product (`numpy.matmul`). */
  function MatMul3(l: Mat3, r: Mat3): Mat3 {
    var c0 := (r.r0.x, r.r1.x, r.r2.x);
    var c1 := (r.r0.y, r.r1.y, r.r2.y);
    var c2 := (r.r0.z, r.r1.z, r.r2.z);
    Mat3(
      Row(Dot(l.r0, c0.0, c0.1, c0.2), Dot(l.r0, c1.0, c1.1, c1.2), Dot(l.r0, c2.0, c2.1, c2.2)),
      Row(Dot(l.r1, c0.0, c0.1, c0.2), Dot(l.r1, c1.0, c1.1, c1.2), Dot(l.r1, c2.0, c2.1, c2.2)),
      Row(Dot(l.r2, c0.0, c0.1, c0.2), Dot(l.r2, c1.0, c1.1, c1.2), Dot(l.r2, c2.0, c2.1, c2.2)))
  }

  /** Composition `mL * mR` with the row-vector convention: first `l`, then `r`. */
  function Compose(l: TM, r: TM): TM {
    TM(l.a * r.a + l.b * r.c, l.a * r.b + l.b * r.d,
       l.c * r.a + l.d * r.c, l.c * r.b + l.d * r.d,
       l.e * r.a + l.f * r.c + r.e, l.e * r.b + l.f * r.d + r.f)
  }

  /** The product of two embedded matrices is again an embedded matrix: its
      third column is (0, 0, 1), so the assertion in `__mul__` never fails,
      and its other entries are those of `Compose`. */
  lemma ProductIsAffine(l: TM, r: TM)
    ensures MatMul3(Embed(l), Embed(r)) == Embed(Compose(l, r))
  {
  }

  /** The map (x, y, 1) -> (x, y, 1) * M on points. */
  function Apply(m: TM, p: (real, real)): (real, real) {
    (m.a * p.0 + m.c * p.1 + m.e, m.b * p.0 + m.d * p.1 + m.f)
  }

  /** Composition applies the left matrix first. */
  lemma ApplyCompose(l: TM, r: TM, p: (real, real))
    ensures Apply(Compose(l, r), p) == Apply(r, Apply(l, p))
  {
    var (x, y) := p;
    var q := Apply(l, p);
    var m := Compose(l, r);
    Scaled(r.a, q.0, l.a * x + l.c * y + l.e);
    Scaled(r.c, q.1, l.b * x + l.d * y + l.f);
    Scaled(r.b, q.0, l.a * x + l.c * y + l.e);
    Scaled(r.d, q.1, l.b * x + l.d * y + l.f);
    Scaled(x, m.a, l.a * r.a + l.b * r.c);
    Scaled(y, m.c, l.c * r.a + l.d * r.c);
    Scaled(x, m.b, l.a * r.b + l.b * r.d);
    Scaled(y, m.d, l.c * r.b + l.d * r.d);
    assert Apply(m, p).0 == Apply(r, q).0;
    assert Apply(m, p).1 == Apply(r, q).1;
  }

  /** Multiplying both sides of an equation by the same factor. */
  lemma Scaled(k: real, v: real, w: real)
    requires v == w
    ensures k * v == k * w && v * k == w * k
  {
  }

  /** Matrix composition is associative (so chained `translate`/`scale`
      calls may be grouped either way). */
  lemma ComposeAssociative(x: TM, y: TM, z: TM)
    ensures Compose(Compose(x, y), z) == Compose(x, Compose(y, z))
  {
    AssociativeLinearTop(x, y, z);
    AssociativeLinearBottom(x, y, z);
    AssociativeTranslation(x, y, z);
  }

  lemma AssociativeLinearTop(x: TM, y: TM, z: TM)
    ensures Compose(Compose(x, y), z).a == Compose(x, Compose(y, z)).a
    ensures Compose(Compose(x, y), z).b == Compose(x, Compose(y, z)).b
  {
    var xy, yz := Compose(x, y), Compose(y, z);
    LinearAssoc(x.a, x.b, xy.a, xy.b, y, z.a, z.c, yz.a, yz.c);
    LinearAssoc(x.a, x.b, xy.a, xy.b, y, z.b, z.d, yz.b, yz.d);
  }

  lemma AssociativeLinearBottom(x: TM, y: TM, z: TM)
    ensures Compose(Compose(x, y), z).c == Compose(x, Compose(y, z)).c
    ensures Compose(Compose(x, y), z).d == Compose(x, Compose(y, z)).d
  {
    var xy, yz := Compose(x, y), Compose(y, z);
    LinearAssoc(x.c, x.d, xy.c, xy.d, y, z.a, z.c, yz.a, yz.c);
    LinearAssoc(x.c, x.d, xy.c, xy.d, y, z.b, z.d, yz.b, yz.d);
  }

  lemma AssociativeTranslation(x: TM, y: TM, z: TM)
    ensures Compose(Compose(x, y), z).e == Compose(x, Compose(y, z)).e
    ensures Compose(Compose(x, y), z).f == Compose(x, Compose(y, z)).f
  {
    var xy, yz := Compose(x, y), Compose(y, z);
    TranslationAssoc(x.e, x.f, xy.e, xy.f, y, z.a, z.c, z.e, yz.a, yz.c, yz.e);
    TranslationAssoc(x.e, x.f, xy.e, xy.f, y, z.b, z.d, z.f, yz.b, yz.d, yz.f);
  }

  /** One entry of the linear part: ((p, q) * Y) * column == (p, q) * (Y * column). */
  lemma LinearAssoc(p: real, q: real, pyA: real, pyB: real, y: TM,
                    u: real, v: real, yu: real, yv: real)
    requires pyA == p * y.a + q * y.c && pyB == p * y.b + q * y.d
    requires yu == y.a * u + y.b * v && yv == y.c * u + y.d * v
    ensures pyA * u + pyB * v == p * yu + q * yv
  {
    Scaled(u, pyA, p * y.a + q * y.c);
    Scaled(v, pyB, p * y.b + q * y.d);
    Scaled(p, yu, y.a * u + y.b * v);
    Scaled(q, yv, y.c * u + y.d * v);
  }

  /** One entry of the translation row of the product. */
  lemma TranslationAssoc(p: real, q: real, pyE: real, pyF: real, y: TM,
                         u: real, v: real, w: real, yu: real, yv: real, yw: real)
    requires pyE == p * y.a + q * y.c + y.e && pyF == p * y.b + q * y.d + y.f
    requires yu == y.a * u + y.b * v && yv == y.c * u + y.d * v
    requires yw == y.e * u + y.f * v + w
    ensures pyE * u + pyF * v + w == p * yu + q * yv + yw
  {
    Scaled(u, pyE, p * y.a + q * y.c + y.e);
    Scaled(v, pyF, p * y.b + q * y.d + y.f);
    Scaled(p, yu, y.a * u + y.b * v);
    Scaled(q, yv, y.c * u + y.d * v);
  }

  /** The identity is neutral on both sides. */
  lemma IdentityNeutral(m: TM)
    ensures Compose(Identity, m) == m
    ensures Compose(m, Identity) == m
  {
  }

  /** The matrix `PdfTM(*newTM(e=tx, f=ty))`. */
  function Translation(tx: real, ty: real): TM {
    NewTM(e := tx, f := ty)
  }

  /** The matrix `PdfTM(*newTM(a=sx, d=sy))`. */
  function Scaling(sx: real, sy: real): TM {
    NewTM(a := sx, d := sy)
  }

  /** The matrix with a = cos, b = sin, c = -sin, d = cos. */
  function Rotation(cosTheta: real, sinTheta: real): TM {
    NewTM(a := cosTheta, b := sinTheta, c := -sinTheta, d := cosTheta)
  }

  /** The six entries in order. */
  function Entries(m: TM): seq<real> {
    [m.a, m.b, m.c, m.d, m.e, m.f]
  }

  /** The entries with four decimals. */
  function Fields(m: TM): (r: seq<string>)
    ensures |r| == 6 && forall k :: 0 <= k < 6 ==> r[k] == Fmt4(Entries(m)[k])
  {
    seq(6, k requires 0 <= k < 6 => Fmt4(Entries(m)[k]))
  }

  /** `__str__`: the six entries with four decimals, separated by spaces. */
  function TMText(m: TM): string {
    Join(" ", Fields(m))
  }

  /** The text of a matrix splits at its spaces into exactly its six
      rendered entries, in order. */
  lemma TMTextFields(m: TM)
    ensures Split(TMText(m), ' ') == Fields(m)
  {
    var parts := Fields(m);
    forall k | 0 <= k < 6
      ensures ' ' !in parts[k]
    {
      FixedPointIsToken(Entries(m)[k], 4);
      assert forall j :: 0 <= j < |parts[k]| ==> IsNumeral(parts[k][j]);
    }
    SplitJoin(parts, ' ');
  }

  /** `PdfTM`: a transformation matrix object whose methods overwrite `tm`. */
  class PdfTM {
    var tm: TM

    constructor (m: TM)
      ensures tm == m
    {
      tm := m;
    }

    /** `__str__` (and `__repr__`). */
    function ToString(): (text: string)
      reads this
      ensures Split(text, ' ') == Fields(tm)
    {
      TMTextFields(tm);
      TMText(tm)
    }

    /** `PdfTM(*args)`: no argument gives the identity, six give the matrix;
        any other count fails the constructor's assertion. */
    static method New(args: seq<real>) returns (r: Result<PdfTM>)
      ensures r.Ok? <==> |args| == 0 || |args| == 6
      ensures r.Ok? ==> fresh(r.value)
      ensures r.Ok? && |args| == 0 ==> r.value.tm == Identity
      ensures r.Ok? && |args| == 6 ==>
        r.value.tm == TM(args[0], args[1], args[2], args[3], args[4], args[5])
      ensures r.Err? ==> r.error.AssertionFailed?
    {
      if |args| == 0 {
        var t := new PdfTM(TM(1.0, 0.0, 0.0, 1.0, 0.0, 0.0));
        return Ok(t);
      }
      if |args| != 6 {
        return Err(AssertionFailed("Transformation Matrix needs six parameters"));
      }
      var t := new PdfTM(TM(args[0], args[1], args[2], args[3], args[4], args[5]));
      return Ok(t);
    }

    /** `__mul__`: a new matrix object holding `this.tm` composed with `right.tm`. */
    method Mul(right: PdfTM) returns (r: PdfTM)
      ensures fresh(r)
      ensures r.tm == Compose(tm, right.tm)
    {
      var p := MatMul3(Embed(tm), Embed(right.tm));
      ProductIsAffine(tm, right.tm);
      // The homogeneous column checked by the assertion in `__mul__`.
      assert p.r0.z == 0.0 && p.r1.z == 0.0 && p.r2.z == 1.0;
      r := new PdfTM(TM(p.r0.x, p.r0.y, p.r1.x, p.r1.y, p.r2.x, p.r2.y));
    }

    /** Moves the origin by (tx, ty): only `e` and `f` change. */
    method Translate(tx: real, ty: real) returns (r: PdfTM)
      modifies this
      ensures r == this
      ensures tm == Compose(old(tm), Translation(tx, ty))
      ensures tm == old(tm).(e := old(tm).e + tx, f := old(tm).f + ty)
    {
      var translateMatrix := new PdfTM(Translation(tx, ty));
      var product := Mul(translateMatrix);
      tm := product.tm;
      return this;
    }

    /** Scales by (sx, sy): `a`, `c`, `e` are multiplied by `sx` and `b`, `d`,
        `f` by `sy`. */
    method Scale(sx: real, sy: real) returns (r: PdfTM)
      modifies this
      ensures r == this
      ensures tm == Compose(old(tm), Scaling(sx, sy))
      ensures tm == TM(old(tm).a * sx, old(tm).b * sy, old(tm).c * sx,
                       old(tm).d * sy, old(tm).e * sx, old(tm).f * sy)
    {
      var scaleMatrix := new PdfTM(Scaling(sx, sy));
      var product := Mul(scaleMatrix);
      tm := product.tm;
      return this;
    }

    /** Rotation about (x0, y0), with cos and sin of the angle given: translate
        to the pivot, rotate, translate back. */
    method Rotate(cosTheta: real, sinTheta: real, x0: real := 0.0, y0: real := 0.0)
      returns (r: PdfTM)
      modifies this
      ensures r == this
      ensures tm == Compose(Compose(Compose(old(tm), Translation(x0, y0)),
                                    Rotation(cosTheta, sinTheta)),
                            Translation(-x0, -y0))
    {
      var _ := Translate(x0, y0);
      var rotateMatrix := new PdfTM(Rotation(cosTheta, sinTheta));
      var product := Mul(rotateMatrix);
      tm := product.tm;
      var _ := Translate(-x0, -y0);
      return this;
    }
  }

  /** `PdfTM().translate(10, 20).scale(2, 2)` is (2, 0, 0, 2, 20, 40): the
      translation is scaled too, because composition applies it first. */
  lemma TranslateThenScaleExample()
    ensures Compose(Compose(Identity, Translation(10.0, 20.0)), Scaling(2.0, 2.0))
         == TM(2.0, 0.0, 0.0, 2.0, 20.0, 40.0)
  {
    IdentityNeutral(Translation(10.0, 20.0));
    assert Translation(10.0, 20.0) == TM(1.0, 0.0, 0.0, 1.0, 10.0, 20.0);
    assert Scaling(2.0, 2.0) == TM(2.0, 0.0, 0.0, 2.0, 0.0, 0.0);
  }
}
