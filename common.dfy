/**
 * The dynamically typed values that the content-stream builder receives as
 * operator parameters, and the errors it raises, written as data.
 *
 * Python's exceptions become values of `Error`; an operation that may raise
 * returns a `Result` (when it computes something) or a `Status` (when it only
 * changes state).
 */
module Common {

  /** A Python value passed as an operator parameter. Booleans, dictionaries
      and other objects are not part of the model. */
  datatype Param =
    | PInt(i: int)
    | PReal(r: real)
    | PStr(s: string)
    | PList(items: seq<Param>)
    | PTuple(elems: seq<Param>)

  /** Python `int` or `float`. */
  predicate IsNumber(p: Param) {
    p.PInt? || p.PReal?
  }

  /** The numeric value of an `int` or `float`. */
  function NumValue(p: Param): real
    requires IsNumber(p)
  {
    if p.PInt? then p.i as real else p.r
  }

  /** Python's `p == k` for an integer constant `k`: `1.0 == 1` holds. */
  predicate NumEquals(p: Param, k: int) {
    IsNumber(p) && NumValue(p) == k as real
  }

  /** Python hashability: lists are unhashable, tuples are when their elements are. */
  predicate Hashable(p: Param) {
    match p
    case PList(_) => false
    case PTuple(es) => forall k :: 0 <= k < |es| ==> Hashable(es[k])
    case _ => true
  }

  /** A point (x, y) of the plane. */
  datatype Point = Point(x: real, y: real)

  /** A cubic Bezier segment: start point, two control points, end point. */
  datatype Segment = Segment(p0: Point, p1: Point, p2: Point, p3: Point)

  /** The exceptions the modelled code raises. */
  datatype Error =
    | UnknownOperator(op: Param)              // ValueError 'Illegal PDF operator'
    | NotAllowedHere(name: string)            // ValueError '... is not allowed here.'
    | InvalidValue(item: string, value: Param)     // raiseValueError
    | NotImplemented(item: string)            // raiseNotImplementedError and custom paths
    | ArgumentError                           // TypeError/ValueError/IndexError raised by Python itself
    | UndeclaredMode(key: string)             // KeyError on the mode table
    | AssertionFailed(what: string)           // a failing `assert`
    | ZeroDivision                            // ZeroDivisionError on floats
    | MathDomain                              // ValueError 'math domain error'
    | NotANumber                              // numpy float division by zero (a NaN result)

  datatype Result<+T> = Ok(value: T) | Err(error: Error) {
    predicate IsFailure() { Err? }
    function PropagateFailure<U>(): Result<U>
      requires Err?
    {
      Err(error)
    }
    function Extract(): T
      requires Ok?
    {
      value
    }
  }

  /** The outcome of a call that returns nothing but may raise. */
  datatype Status = Pass | Fail(error: Error)

  datatype Option<+T> = None | Some(value: T)

  /** Python's `''.join(parts)` over a separator. */
  function Join(sep: string, parts: seq<string>): string
  {
    if |parts| == 0 then ""
    else if |parts| == 1 then parts[0]
    else parts[0] + sep + Join(sep, parts[1..])
  }

  predicate EndsWith(s: string, suffix: string) {
    |suffix| <= |s| && s[|s| - |suffix|..] == suffix
  }

  lemma EndsWithConcat(prefix: string, suffix: string)
    ensures EndsWith(prefix + suffix, suffix)
  {
    assert (prefix + suffix)[|prefix + suffix| - |suffix|..] == suffix;
  }

  /** A line made of a prefix, one space and a symbol. */
  function Spaced(prefix: string, symbol: string): (line: string)
    ensures EndsWith(line, " " + symbol)
  {
    var line := prefix + " " + symbol;
    assert line[|line| - |" " + symbol|..] == " " + symbol;
    line
  }

  /** Python's `s.split(c)`: the pieces between occurrences of `c`. */
  function Split(s: string, c: char): (r: seq<string>)
    ensures |r| >= 1
  {
    if |s| == 0 then [""]
    else
      var rest := Split(s[1..], c);
      if s[0] == c then [""] + rest else [[s[0]] + rest[0]] + rest[1..]
  }

  lemma {:induction false} SplitWithoutSeparator(a: string, c: char)
    requires c !in a
    ensures Split(a, c) == [a]
  {
    if |a| > 0 {
      SplitWithoutSeparator(a[1..], c);
      assert [a[0]] + a[1..] == a;
    }
  }

  lemma {:induction false} SplitAtFirst(a: string, b: string, c: char)
    requires c !in a
    ensures Split(a + [c] + b, c) == [a] + Split(b, c)
  {
    if |a| == 0 {
      assert a + [c] + b == [c] + b;
      assert ([c] + b)[1..] == b;
    } else {
      SplitAtFirst(a[1..], b, c);
      assert (a + [c] + b)[1..] == a[1..] + [c] + b;
      assert [a[0]] + a[1..] == a;
    }
  }

  /** Splitting a join at its separator gives back the parts, when no part
      contains the separator. */
  lemma {:induction false} SplitJoin(parts: seq<string>, c: char)
    requires |parts| >= 1
    requires forall k :: 0 <= k < |parts| ==> c !in parts[k]
    ensures Split(Join([c], parts), c) == parts
  {
    if |parts| == 1 {
      SplitWithoutSeparator(parts[0], c);
    } else {
      SplitJoin(parts[1..], c);
      SplitAtFirst(parts[0], Join([c], parts[1..]), c);
      assert [parts[0]] + parts[1..] == parts;
    }
  }

  lemma {:induction false} JoinSnoc(sep: string, parts: seq<string>, last: string)
    requires |parts| >= 1
    ensures Join(sep, parts + [last]) == Join(sep, parts) + sep + last
  {
    if |parts| > 1 {
      JoinSnoc(sep, parts[1..], last);
      assert (parts + [last])[1..] == parts[1..] + [last];
    } else {
      assert (parts + [last])[1..] == [last];
    }
  }
}
