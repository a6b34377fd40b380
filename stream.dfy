/**
 * The content-stream builder `PdfStream`: it keeps the current graphics
 * mode, the rendered lines (`content`), a log of what was appended
 * (`commands`) and the last point of the current path, and appends operators,
 * custom paths and lists of operations to them.
 *
 * Each operation is specified by a function from the state before it (a
 * `Snapshot`) to the state after it and its outcome; a raised exception is
 * the outcome `Fail`, and whatever the operation had already changed before
 * raising stays changed, as in the Python code.
 */
module Stream {
  import opened Common
  import opened Symbols
  import opened Operators
  import opened OperatorStates

  /** An entry of the `commands` log. */
  datatype Command =
    | Invoked(op: string, params: seq<Param>)                                  // [operator, operator_parameters]
    | PathStart(kind: string, params: seq<Param>, kwargs: map<string, Param>)  // [path_type + ':Start', ...]
    | PathEnd(kind: string)                                                    // [path_type + ':End']

  /** The fields of a stream. */
  datatype Snapshot = Snapshot(mode: Mode, content: seq<string>, commands: seq<Command>,
                               lastPoint: Option<seq<Param>>)

  /** A new stream. */
  const Initial: Snapshot := Snapshot(PageDescriptionLevel, [], [], None)

  /** `operator_parameters[-2:]`. */
  function LastTwo(ps: seq<Param>): (r: seq<Param>)
    ensures |r| <= 2 && |r| <= |ps| && r == ps[|ps| - |r|..]
    ensures |ps| >= 2 ==> |r| == 2
    ensures |ps| < 2 ==> r == ps
  {
    if |ps| <= 2 then ps else ps[|ps| - 2..]
  }

  /** `isOperatorAllowed(operator)` for a string: an unknown symbol is never
      allowed. */
  predicate AllowedIn(m: Mode, op: string) {
    Parse(op).Some? && IsOperatorAllowed(m, Parse(op).value)
  }

  // ---------------------------------------------------------------------
  // append

  /** `append(operator, *operator_parameters)`. */
  function AppendStep(s: Snapshot, op: string, ps: seq<Param>): (Snapshot, Status) {
    match Parse(op)
    case None => (s, Fail(UnknownOperator(PStr(op))))
    case Some(o) =>
      if !IsOperatorAllowed(s.mode, o) then (s, Fail(NotAllowedHere(op)))
      else match Format(o, ps)
        case Err(e) => (s, Fail(e))
        case Ok(line) => EmitStep(s, op, ps, line, NextMode(s.mode, o))
  }

  /** After the line is formatted: it is appended, then the mode changes,
      then the command is logged and the last point kept. */
  function EmitStep(s: Snapshot, op: string, ps: seq<Param>, line: string, next: Result<Mode>): (Snapshot, Status) {
    match next
    case Err(e) => (s.(content := s.content + [line]), Fail(e))
    case Ok(next) =>
      (Snapshot(next, s.content + [line], s.commands + [Invoked(op, ps)],
                if next == PathObject then Some(LastTwo(ps)) else None),
       Pass)
  }

  // ---------------------------------------------------------------------
  // appendCustomPath

  /** An entry of `custom_path_operator`: the modes it may be used in,
      whether the last point is prepended to its parameters, whether a
      move-to the first point is emitted, and its conversion to cubic
      segments. */
  datatype CustomPath = CustomPath(allowed: set<Mode>, sendLastPoint: bool, prependMoveTo: bool,
                                   toCubic: (seq<Param>, map<string, Param>) -> Result<seq<Segment>>)

  type PathTable = map<string, CustomPath>

  function PointParams(p: Point): seq<Param> {
    [PReal(p.x), PReal(p.y)]
  }

  /** The parameters of the `c` operator for a segment: points 1 to 3. */
  function CurveParams(seg: Segment): seq<Param> {
    PointParams(seg.p1) + PointParams(seg.p2) + PointParams(seg.p3)
  }

  /** One `c` per segment, stopping at the first that raises. */
  function AppendSegments(s: Snapshot, cubic: seq<Segment>): (Snapshot, Status)
    decreases |cubic|
  {
    if |cubic| == 0 then (s, Pass)
    else
      var (next, status) := AppendStep(s, "c", CurveParams(cubic[0]));
      if status.Fail? then (next, status) else AppendSegments(next, cubic[1..])
  }

  /** The parameters the conversion receives. */
  function PathParams(s: Snapshot, path: CustomPath, ps: seq<Param>): seq<Param>
    requires path.sendLastPoint ==> s.lastPoint.Some?
  {
    if path.sendLastPoint then s.lastPoint.value + ps else ps
  }

  /** `appendCustomPath(path_type, *path_parameters, **path_kwargs)`. */
  function CustomPathStep(s: Snapshot, table: PathTable, kind: string, ps: seq<Param>,
                          kwargs: map<string, Param>): (Snapshot, Status)
  {
    if kind !in table then
      (s, Fail(NotImplemented("PDF custom path of type: " + kind + " is not implemented")))
    else
      var path := table[kind];
      if s.mode !in path.allowed then
        (s, Fail(AssertionFailed("Custom path of type \"" + kind + "\" is not allowed in the current state")))
      else if path.sendLastPoint && s.lastPoint.None? then
        (s, Fail(ArgumentError))  // unpacking None
      else
        var params := PathParams(s, path, ps);
        match path.toCubic(params, kwargs)
        case Err(e) => (s, Fail(e))
        case Ok(cubic) =>
          DrawPath(s.(commands := s.commands + [PathStart(kind, params, kwargs)]), kind, cubic, path.prependMoveTo)
  }

  /** After the `:Start` marker: the optional move-to the first point, one
      `c` per segment, and the `:End` marker. */
  function DrawPath(s: Snapshot, kind: string, cubic: seq<Segment>, prependMoveTo: bool): (Snapshot, Status) {
    if prependMoveTo && |cubic| == 0 then (s, Fail(ArgumentError))  // cubic[0]
    else
      var (moved, status) :=
        if prependMoveTo then AppendStep(s, "m", PointParams(cubic[0].p0)) else (s, Pass);
      if status.Fail? then (moved, status)
      else
        var (drawn, status') := AppendSegments(moved, cubic);
        if status'.Fail? then (drawn, status')
        else (drawn.(commands := drawn.commands + [PathEnd(kind)]), Pass)
  }

  // ---------------------------------------------------------------------
  // append_multiple_operations

  /** The forms an entry of `operations` may take, brought to an operator and
      a parameter list: a string is an operator without parameters; a tuple
      is an operator followed by its parameters, or by a single list of them;
      a two-element list is an operator and its parameter or parameter list.
      Anything else cannot be unpacked. */
  function Normalise(cmd: Param): Result<(Param, seq<Param>)> {
    match cmd
    case PStr(_) => Ok((cmd, []))
    case PTuple(es) =>
      if |es| == 0 then Err(ArgumentError)
      else if |es| == 1 then Ok((es[0], []))
      else if |es| > 2 then Ok((es[0], es[1..]))
      else if es[1].PList? then Ok((es[0], es[1].items))
      else Ok((es[0], [es[1]]))
    case PList(items) =>
      if |items| != 2 then Err(ArgumentError)
      else if items[1].PList? then Ok((items[0], items[1].items))
      else Ok((items[0], [items[1]]))
    case _ => Err(ArgumentError)
  }

  /** One entry of `operations`: a custom path when its operator is a key of
      the path table, an operator otherwise. An operator that cannot be
      hashed cannot be looked up in the table. */
  function OperationStep(s: Snapshot, table: PathTable, cmd: Param): (Snapshot, Status) {
    match Normalise(cmd)
    case Err(e) => (s, Fail(e))
    case Ok((op, params)) =>
      if !Hashable(op) then (s, Fail(ArgumentError))
      else if op.PStr? && op.s in table then CustomPathStep(s, table, op.s, params, map[])
      else if op.PStr? then AppendStep(s, op.s, params)
      else (s, Fail(UnknownOperator(op)))
  }

  /** The entries in order, stopping at the first that raises. */
  function AppendAll(s: Snapshot, table: PathTable, cmds: seq<Param>): (Snapshot, Status)
    decreases |cmds|
  {
    if |cmds| == 0 then (s, Pass)
    else
      var (next, status) := OperationStep(s, table, cmds[0]);
      if status.Fail? then (next, status) else AppendAll(next, table, cmds[1..])
  }

  /** Taking the first entry off the front of `AppendAll`. */
  lemma AppendAllStep(s: Snapshot, table: PathTable, cmds: seq<Param>)
    requires |cmds| > 0
    ensures var (next, status) := OperationStep(s, table, cmds[0]);
      AppendAll(s, table, cmds) == if status.Fail? then (next, status) else AppendAll(next, table, cmds[1..])
  {
  }

  /** `append_multiple_operations(operations)`. */
  function AppendOperations(s: Snapshot, table: PathTable, operations: Param): (Snapshot, Status) {
    if !operations.PList? then (s, Fail(AssertionFailed("operations is a list")))
    else AppendAll(s, table, operations.items)
  }

  // ---------------------------------------------------------------------
  // The stream object

  class PdfStream {
    var currentState: Mode
    var content: seq<string>
    var commands: seq<Command>
    var lastPoint: Option<seq<Param>>

    function Snap(): Snapshot
      reads this
    {
      Snapshot(currentState, content, commands, lastPoint)
    }

    /** `__init__`. */
    constructor ()
      ensures Snap() == Initial
    {
      currentState := PageDescriptionLevel;
      content := [];
      commands := [];
      lastPoint := None;
    }

    /** `isOperatorAllowed(operator)`: in the current mode's allowed list or
        among its end keys. */
    predicate IsOperatorAllowedHere(op: string)
      reads this
    {
      AllowedIn(currentState, op)
    }

    /** `__str__`: the lines joined by newlines. */
    function ToString(): string
      reads this
    {
      Join("\n", content)
    }

    /** `append(operator, *operator_parameters)`. */
    method Append(op: string, ps: seq<Param>) returns (status: Status)
      modifies this
      ensures (Snap(), status) == AppendStep(old(Snap()), op, ps)
    {
      var known := Parse(op);
      if known.None? {
        return Fail(UnknownOperator(PStr(op)));
      }
      var o := known.value;
      if !IsOperatorAllowed(currentState, o) {
        return Fail(NotAllowedHere(op));
      }
      var line := Format(o, ps);
      if line.Err? {
        return Fail(line.error);
      }
      status := Emit(op, ps, line.value, NextMode(currentState, o));
    }

    /** The end of `append`, once the line is formatted. */
    method Emit(op: string, ps: seq<Param>, line: string, next: Result<Mode>) returns (status: Status)
      modifies this
      ensures (Snap(), status) == EmitStep(old(Snap()), op, ps, line, next)
    {
      content := content + [line];
      if next.Err? {
        return Fail(next.error);
      }
      currentState := next.value;
      lastPoint := if next.value == PathObject then Some(LastTwo(ps)) else None;
      commands := commands + [Invoked(op, ps)];
      return Pass;
    }

    /** `appendCustomPath(path_type, *path_parameters, **path_kwargs)`. */
    method AppendCustomPath(table: PathTable, kind: string, ps: seq<Param>, kwargs: map<string, Param>)
      returns (status: Status)
      modifies this
      ensures (Snap(), status) == CustomPathStep(old(Snap()), table, kind, ps, kwargs)
    {
      if kind !in table {
        return Fail(NotImplemented("PDF custom path of type: " + kind + " is not implemented"));
      }
      var path := table[kind];
      if currentState !in path.allowed {
        return Fail(AssertionFailed("Custom path of type \"" + kind + "\" is not allowed in the current state"));
      }
      if path.sendLastPoint && lastPoint.None? {
        return Fail(ArgumentError);
      }
      var params := PathParams(Snap(), path, ps);
      var converted := path.toCubic(params, kwargs);
      if converted.Err? {
        return Fail(converted.error);
      }
      commands := commands + [PathStart(kind, params, kwargs)];
      status := DrawCubic(kind, converted.value, path.prependMoveTo);
    }

    /** The body of `appendCustomPath` after the `:Start` marker. */
    method DrawCubic(kind: string, cubic: seq<Segment>, prependMoveTo: bool) returns (status: Status)
      modifies this
      ensures (Snap(), status) == DrawPath(old(Snap()), kind, cubic, prependMoveTo)
    {
      if prependMoveTo {
        if |cubic| == 0 {
          return Fail(ArgumentError);
        }
        status := Append("m", PointParams(cubic[0].p0));
        if status.Fail? {
          return;
        }
      }
      status := AppendCurves(cubic);
      if status.Fail? {
        return;
      }
      commands := commands + [PathEnd(kind)];
    }

    /** `for cubic_segment in cubic: self.append('c', ...)`. */
    method AppendCurves(cubic: seq<Segment>) returns (status: Status)
      modifies this
      ensures (Snap(), status) == AppendSegments(old(Snap()), cubic)
    {
      var i := 0;
      while i < |cubic|
        invariant 0 <= i <= |cubic|
        invariant AppendSegments(Snap(), cubic[i..]) == AppendSegments(old(Snap()), cubic)
      {
        status := Append("c", CurveParams(cubic[i]));
        if status.Fail? {
          return;
        }
        i := i + 1;
      }
      return Pass;
    }

    /** The body of the loop of `append_multiple_operations`, for one entry. */
    method AppendOperation(table: PathTable, cmd: Param) returns (status: Status)
      modifies this
      ensures (Snap(), status) == OperationStep(old(Snap()), table, cmd)
    {
      var normal := Normalise(cmd);
      if normal.Err? {
        return Fail(normal.error);
      }
      var (op, params) := normal.value;
      if !Hashable(op) {
        return Fail(ArgumentError);
      }
      if op.PStr? && op.s in table {
        status := AppendCustomPath(table, op.s, params, map[]);
      } else if op.PStr? {
        status := Append(op.s, params);
      } else {
        status := Fail(UnknownOperator(op));
      }
    }

    /** `append_multiple_operations(operations)`. */
    method AppendMultipleOperations(table: PathTable, operations: Param) returns (status: Status)
      modifies this
      ensures (Snap(), status) == AppendOperations(old(Snap()), table, operations)
    {
      if !operations.PList? {
        return Fail(AssertionFailed("operations is a list"));
      }
      var cmds := operations.items;
      var i := 0;
      while i < |cmds|
        invariant 0 <= i <= |cmds|
        invariant AppendAll(Snap(), table, cmds[i..]) == AppendAll(old(Snap()), table, cmds)
      {
        AppendAllStep(Snap(), table, cmds[i..]);
        assert cmds[i..][1..] == cmds[i + 1..];
        status := AppendOperation(table, cmds[i]);
        if status.Fail? {
          return;
        }
        i := i + 1;
      }
      return Pass;
    }
  }
}
