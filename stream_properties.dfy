/**
 * What the content-stream builder promises: what a rejected operator leaves
 * behind, what a successful one adds, the mode it moves to, the quirk of the
 * clipping operators, the shape of a custom path, and an invariant that every
 * operation keeps.
 */
module StreamProperties {
  import opened Common
  import opened Symbols
  import opened Operators
  import opened OperatorStates
  import opened StateProperties
  import opened Stream
  import OperatorProperties

  /** `t` was reached from `s` by appending only: the old lines and the old
      log are prefixes of the new ones. */
  predicate Extends(s: Snapshot, t: Snapshot) {
    s.content <= t.content && s.commands <= t.commands
  }

  /** The invariant of a stream: its mode is one a stream can reach, it has
      a last point exactly while a path is open, and that point has at most
      two coordinates. */
  predicate Consistent(s: Snapshot) {
    Reachable(s.mode)
    && (s.lastPoint.Some? <==> s.mode == PathObject)
    && (s.lastPoint.Some? ==> |s.lastPoint.value| <= 2)
  }

  /** A new stream is consistent and renders as the empty string. */
  lemma InitialStream()
    ensures Consistent(Initial)
    ensures Join("\n", Initial.content) == ""
  {
  }

  /** The rendering of a stream splits back into its lines, when no line
      holds a newline. */
  lemma RenderedLines(s: Snapshot)
    requires |s.content| >= 1
    requires forall k :: 0 <= k < |s.content| ==> '\n' !in s.content[k]
    ensures Split(Join("\n", s.content), '\n') == s.content
  {
    SplitJoin(s.content, '\n');
  }

  /** The string form of `isOperatorAllowed` agrees with the table, and an
      unknown operator is allowed nowhere. */
  lemma AllowedSymbol(m: Mode, o: Op, op: string)
    ensures AllowedIn(m, Symbol(o)) <==> IsOperatorAllowed(m, o)
    ensures !IsKnownOperator(op) ==> !AllowedIn(m, op)
  {
    ParseSymbol(o);
  }

  // ---------------------------------------------------------------------
  // append

  /** An operator that is unknown, or not allowed in the current mode,
      changes nothing; an unknown one is reported as such whatever the
      mode. */
  lemma RejectedOperator(s: Snapshot, op: string, ps: seq<Param>)
    requires !AllowedIn(s.mode, op)
    ensures AppendStep(s, op, ps).0 == s
    ensures AppendStep(s, op, ps).1 ==
      Fail(if IsKnownOperator(op) then NotAllowedHere(op) else UnknownOperator(PStr(op)))
  {
  }

  /** Parameters the formatter rejects change nothing. */
  lemma FormatErrorChangesNothing(s: Snapshot, op: string, ps: seq<Param>)
    requires AllowedIn(s.mode, op)
    requires Format(Parse(op).value, ps).Err?
    ensures AppendStep(s, op, ps) == (s, Fail(Format(Parse(op).value, ps).error))
  {
  }

  /** `append` succeeds exactly when the operator is allowed, its parameters
      are accepted and its target is a mode of the table. */
  lemma AppendSucceedsIff(s: Snapshot, op: string, ps: seq<Param>)
    ensures AppendStep(s, op, ps).1.Pass? <==>
      AllowedIn(s.mode, op) && Format(Parse(op).value, ps).Ok? && NextMode(s.mode, Parse(op).value).Ok?
  {
  }

  /** A successful `append` adds one line, which is the operator or ends
      with a space and the operator, and one log entry `[op, params]`; it
      moves to the mode the table gives and keeps the last two parameters
      as the last point exactly when that mode is a path. */
  lemma SuccessfulAppend(s: Snapshot, op: string, ps: seq<Param>)
    requires AppendStep(s, op, ps).1.Pass?
    ensures var t := AppendStep(s, op, ps).0;
      && |t.content| == |s.content| + 1
      && t.content[..|s.content|] == s.content
      && (t.content[|s.content|] == op || EndsWith(t.content[|s.content|], " " + op))
      && t.commands == s.commands + [Invoked(op, ps)]
      && t.mode == NextMode(s.mode, Parse(op).value).value
      && t.lastPoint == (if t.mode == PathObject then Some(LastTwo(ps)) else None)
  {
    var o := Parse(op).value;
    var line := Format(o, ps).value;
    assert AppendStep(s, op, ps) == EmitStep(s, op, ps, line, NextMode(s.mode, o));
    OperatorProperties.FormattedLineEndsWithSymbol(o, ps);
    NeverAllowed(s.mode, GlyphWidthAndBox);
    EmitStepPass(s, op, ps, line, NextMode(s.mode, o));
  }

  /** What a successful emit leaves: one more line and one more log entry. */
  lemma EmitStepPass(s: Snapshot, op: string, ps: seq<Param>, line: string, next: Result<Mode>)
    requires EmitStep(s, op, ps, line, next).1.Pass?
    ensures var t := EmitStep(s, op, ps, line, next).0;
      && next.Ok?
      && t.content == s.content + [line]
      && t.commands == s.commands + [Invoked(op, ps)]
      && t.mode == next.value
      && t.lastPoint == (if t.mode == PathObject then Some(LastTwo(ps)) else None)
  {
  }

  /** The mode changes only on an operator of the mode's `end` dictionary. */
  lemma ModeChangesOnlyAtEnd(s: Snapshot, op: string, ps: seq<Param>)
    ensures AppendStep(s, op, ps).0.mode != s.mode ==>
      AllowedIn(s.mode, op) && IsEndOperator(s.mode, Parse(op).value)
  {
    if Parse(op).Some? {
      OnlyEndOperatorsChangeMode(s.mode, Parse(op).value);
    }
  }

  /** In a path, `W` and `W*` push their line and then fail on the mode
      lookup: the mode, the log and the last point stay as they were. */
  lemma ClippingInPath(s: Snapshot, op: string)
    requires s.mode == PathObject
    requires op == "W" || op == "W*"
    ensures AppendStep(s, op, []) ==
      (s.(content := s.content + [op]), Fail(UndeclaredMode("clipping_paths_operators")))
  {
    var o := if op == "W" then Clip else ClipEvenOdd;
    ParseSymbol(o);
    ClippingOperatorsNameNoMode(o);
  }

  /** `append` only appends. */
  lemma AppendExtends(s: Snapshot, op: string, ps: seq<Param>)
    ensures Extends(s, AppendStep(s, op, ps).0)
  {
  }

  /** `append` keeps a stream consistent. */
  lemma AppendKeepsConsistent(s: Snapshot, op: string, ps: seq<Param>)
    requires Consistent(s)
    ensures Consistent(AppendStep(s, op, ps).0)
  {
    if Parse(op).Some? {
      ReachableClosed(s.mode, Parse(op).value);
    }
  }

  // ---------------------------------------------------------------------
  // appendCustomPath

  /** The log entries of the `c` operators of a list of segments. */
  function CurveCommands(cubic: seq<Segment>): (r: seq<Command>)
    ensures |r| == |cubic|
  {
    if |cubic| == 0 then [] else [Invoked("c", CurveParams(cubic[0]))] + CurveCommands(cubic[1..])
  }

  /** The log entry of the move-to the first point, when there is one. */
  function MoveCommands(cubic: seq<Segment>, prependMoveTo: bool): seq<Command>
    requires prependMoveTo ==> |cubic| > 0
  {
    if prependMoveTo then [Invoked("m", PointParams(cubic[0].p0))] else []
  }

  /** In a path, one `c` always succeeds, stays in the path and makes the
      segment's end point the last point. */
  lemma CurveInPath(s: Snapshot, seg: Segment)
    requires s.mode == PathObject
    ensures AppendStep(s, "c", CurveParams(seg)).1 == Pass
    ensures AppendStep(s, "c", CurveParams(seg)).0 ==
      Snapshot(PathObject, s.content + [Format(CurveTo, CurveParams(seg)).value],
               s.commands + [Invoked("c", CurveParams(seg))], Some(PointParams(seg.p3)))
  {
    ParseSymbol(CurveTo);
    OperatorProperties.NumericOperatorTokens(CurveTo, CurveParams(seg));
    assert LastTwo(CurveParams(seg)) == PointParams(seg.p3);
  }

  /** The lines of the `c` operators of a list of segments. */
  function CurveLines(cubic: seq<Segment>): (r: seq<string>)
    ensures |r| == |cubic|
  {
    if |cubic| == 0 then [] else [Format(CurveTo, CurveParams(cubic[0])).value] + CurveLines(cubic[1..])
  }

  /** The state after one `c` in a path. */
  function CurveNext(s: Snapshot, seg: Segment): Snapshot {
    Snapshot(PathObject, s.content + [Format(CurveTo, CurveParams(seg)).value],
             s.commands + [Invoked("c", CurveParams(seg))], Some(PointParams(seg.p3)))
  }

  /** The state after the segments in a path, one `c` at a time. */
  function CurvesFrom(s: Snapshot, cubic: seq<Segment>): Snapshot
    decreases |cubic|
  {
    if |cubic| == 0 then s else CurvesFrom(CurveNext(s, cubic[0]), cubic[1..])
  }

  /** In a path, the segments always succeed. */
  lemma {:induction false} SegmentsInPathStepwise(s: Snapshot, cubic: seq<Segment>)
    requires s.mode == PathObject
    ensures AppendSegments(s, cubic) == (CurvesFrom(s, cubic), Pass)
    decreases |cubic|
  {
    if |cubic| > 0 {
      CurveInPath(s, cubic[0]);
      SegmentsInPathStepwise(CurveNext(s, cubic[0]), cubic[1..]);
    }
  }

  /** The segments in a path add one line per segment, in order. */
  lemma {:induction false} CurvesFromContent(s: Snapshot, cubic: seq<Segment>)
    ensures CurvesFrom(s, cubic).content == s.content + CurveLines(cubic)
    decreases |cubic|
  {
    if |cubic| > 0 {
      var next := CurveNext(s, cubic[0]);
      CurvesFromContent(next, cubic[1..]);
      assert next.content + CurveLines(cubic[1..]) == s.content + CurveLines(cubic);
    }
  }

  /** The segments in a path add one `c` entry per segment, in order. */
  lemma {:induction false} CurvesFromCommands(s: Snapshot, cubic: seq<Segment>)
    ensures CurvesFrom(s, cubic).commands == s.commands + CurveCommands(cubic)
    decreases |cubic|
  {
    if |cubic| > 0 {
      var next := CurveNext(s, cubic[0]);
      CurvesFromCommands(next, cubic[1..]);
      assert next.commands + CurveCommands(cubic[1..]) == s.commands + CurveCommands(cubic);
    }
  }

  /** The segments in a path stay in the path and make the end of the last
      segment the last point. */
  lemma {:induction false} CurvesFromLastPoint(s: Snapshot, cubic: seq<Segment>)
    requires s.mode == PathObject
    ensures CurvesFrom(s, cubic).mode == PathObject
    ensures CurvesFrom(s, cubic).lastPoint ==
      if |cubic| == 0 then s.lastPoint else Some(PointParams(cubic[|cubic| - 1].p3))
    decreases |cubic|
  {
    if |cubic| > 0 {
      CurvesFromLastPoint(CurveNext(s, cubic[0]), cubic[1..]);
      if |cubic| > 1 {
        assert cubic[1..][|cubic[1..]| - 1] == cubic[|cubic| - 1];
      }
    }
  }

  /** The segments in a path add one line and one `c` entry per segment,
      in order, and make the end of the last segment the last point. */
  lemma CurvesFromClosedForm(s: Snapshot, cubic: seq<Segment>)
    requires s.mode == PathObject
    ensures CurvesFrom(s, cubic) ==
      Snapshot(PathObject, s.content + CurveLines(cubic), s.commands + CurveCommands(cubic),
               if |cubic| == 0 then s.lastPoint else Some(PointParams(cubic[|cubic| - 1].p3)))
  {
    CurvesFromContent(s, cubic);
    CurvesFromCommands(s, cubic);
    CurvesFromLastPoint(s, cubic);
  }

  /** In a path, the segments always succeed: one line and one `c` entry
      per segment, in order, and the last point is the end of the last
      segment. */
  lemma SegmentsInPath(s: Snapshot, cubic: seq<Segment>)
    requires s.mode == PathObject
    ensures AppendSegments(s, cubic).1 == Pass
    ensures AppendSegments(s, cubic).0 ==
      Snapshot(PathObject, s.content + CurveLines(cubic), s.commands + CurveCommands(cubic),
               if |cubic| == 0 then s.lastPoint else Some(PointParams(cubic[|cubic| - 1].p3)))
  {
    SegmentsInPathStepwise(s, cubic);
    CurvesFromClosedForm(s, cubic);
  }

  /** `m` is allowed at the page level and in a path, and nowhere else. */
  lemma MoveToAllowed(m: Mode)
    ensures IsOperatorAllowed(m, MoveTo) <==> m == PageDescriptionLevel || m == PathObject
  {
  }

  /** At the page level or in a path, `m` always succeeds and opens a path
      at its point; elsewhere it is not allowed. */
  lemma MoveStep(s: Snapshot, p: Point)
    ensures s.mode == PageDescriptionLevel || s.mode == PathObject ==>
      AppendStep(s, "m", PointParams(p)) ==
        (Snapshot(PathObject, s.content + [Format(MoveTo, PointParams(p)).value],
                  s.commands + [Invoked("m", PointParams(p))], Some(PointParams(p))), Pass)
    ensures s.mode != PageDescriptionLevel && s.mode != PathObject ==>
      AppendStep(s, "m", PointParams(p)) == (s, Fail(NotAllowedHere("m")))
  {
    if s.mode == PageDescriptionLevel || s.mode == PathObject {
      MoveStepAllowed(s, p);
    } else {
      ParseSymbol(MoveTo);
      MoveToAllowed(s.mode);
    }
  }

  /** The allowed half of `MoveStep`. */
  lemma MoveStepAllowed(s: Snapshot, p: Point)
    requires s.mode == PageDescriptionLevel || s.mode == PathObject
    ensures AppendStep(s, "m", PointParams(p)) ==
      (Snapshot(PathObject, s.content + [Format(MoveTo, PointParams(p)).value],
                s.commands + [Invoked("m", PointParams(p))], Some(PointParams(p))), Pass)
  {
    var ps := PointParams(p);
    ParseSymbol(MoveTo);
    MoveToAllowed(s.mode);
    OperatorProperties.PointOperatorLine(MoveTo, p.x, p.y);
    assert NextMode(s.mode, MoveTo) == Ok(PathObject);
    assert LastTwo(ps) == ps;
  }

  /** Outside a path, `c` is not allowed. */
  lemma CurveOutsidePath(s: Snapshot, seg: Segment)
    requires s.mode != PathObject
    ensures AppendStep(s, "c", CurveParams(seg)) == (s, Fail(NotAllowedHere("c")))
  {
    ParseSymbol(CurveTo);
    PathConstructionNeedsPath(s.mode, CurveTo);
  }

  /** The state after `m` at the page level or in a path. */
  function MoveNext(s: Snapshot, p: Point): Snapshot {
    Snapshot(PathObject, s.content + [Format(MoveTo, PointParams(p)).value],
             s.commands + [Invoked("m", PointParams(p))], Some(PointParams(p)))
  }

  /** The `:End` marker after the state `t`. */
  function Ended(t: Snapshot, kind: string): Snapshot {
    t.(commands := t.commands + [PathEnd(kind)])
  }

  /** A custom path that starts with a move-to, one step at a time. */
  lemma DrawPathWithMoveStepwise(s: Snapshot, kind: string, cubic: seq<Segment>)
    requires |cubic| > 0
    ensures s.mode == PageDescriptionLevel || s.mode == PathObject ==>
      DrawPath(s, kind, cubic, true) == (Ended(CurvesFrom(MoveNext(s, cubic[0].p0), cubic), kind), Pass)
    ensures s.mode != PageDescriptionLevel && s.mode != PathObject ==>
      DrawPath(s, kind, cubic, true) == (s, Fail(NotAllowedHere("m")))
  {
    MoveStep(s, cubic[0].p0);
    if s.mode == PageDescriptionLevel || s.mode == PathObject {
      SegmentsInPathStepwise(MoveNext(s, cubic[0].p0), cubic);
    }
  }

  /** A custom path without a move-to, one step at a time. */
  lemma DrawPathWithoutMoveStepwise(s: Snapshot, kind: string, cubic: seq<Segment>)
    ensures s.mode == PathObject || |cubic| == 0 ==>
      DrawPath(s, kind, cubic, false) == (Ended(CurvesFrom(s, cubic), kind), Pass)
    ensures s.mode != PathObject && |cubic| > 0 ==>
      DrawPath(s, kind, cubic, false) == (s, Fail(NotAllowedHere("c")))
  {
    if s.mode == PathObject {
      SegmentsInPathStepwise(s, cubic);
    } else if |cubic| > 0 {
      CurveOutsidePath(s, cubic[0]);
    }
  }

  /** A custom path that starts with a move-to. */
  lemma DrawPathWithMove(s: Snapshot, kind: string, cubic: seq<Segment>)
    requires |cubic| > 0
    ensures DrawPath(s, kind, cubic, true).1.Pass? <==> s.mode == PageDescriptionLevel || s.mode == PathObject
    ensures DrawPath(s, kind, cubic, true).1.Pass? ==>
      var t := DrawPath(s, kind, cubic, true).0;
      && t.commands == s.commands + MoveCommands(cubic, true) + CurveCommands(cubic) + [PathEnd(kind)]
      && |t.content| == |s.content| + 1 + |cubic|
      && t.mode == PathObject
  {
    DrawPathWithMoveStepwise(s, kind, cubic);
    if s.mode == PageDescriptionLevel || s.mode == PathObject {
      var moved := MoveNext(s, cubic[0].p0);
      CurvesFromClosedForm(moved, cubic);
      assert s.commands + MoveCommands(cubic, true) == moved.commands;
    }
  }

  /** A custom path without a move-to. */
  lemma DrawPathWithoutMove(s: Snapshot, kind: string, cubic: seq<Segment>)
    ensures DrawPath(s, kind, cubic, false).1.Pass? <==> |cubic| == 0 || s.mode == PathObject
    ensures DrawPath(s, kind, cubic, false).1.Pass? ==>
      var t := DrawPath(s, kind, cubic, false).0;
      && t.commands == s.commands + CurveCommands(cubic) + [PathEnd(kind)]
      && |t.content| == |s.content| + |cubic|
      && t.mode == (if |cubic| > 0 then PathObject else s.mode)
  {
    DrawPathWithoutMoveStepwise(s, kind, cubic);
    if s.mode == PathObject {
      CurvesFromClosedForm(s, cubic);
    }
  }

  /** After the `:Start` marker, a custom path succeeds exactly when its
      first operator is allowed: the move-to at the page level or in a path,
      and otherwise the first `c` in a path. It then logs the move-to, one
      `c` per segment and the `:End` marker, and leaves a path open unless
      there was nothing to draw. */
  lemma DrawPathOutcome(s: Snapshot, kind: string, cubic: seq<Segment>, prependMoveTo: bool)
    ensures var (t, status) := DrawPath(s, kind, cubic, prependMoveTo);
      && (status.Pass? <==>
            if prependMoveTo then |cubic| > 0 && (s.mode == PageDescriptionLevel || s.mode == PathObject)
            else |cubic| == 0 || s.mode == PathObject)
      && (status.Pass? ==>
            && t.commands == s.commands + MoveCommands(cubic, prependMoveTo) + CurveCommands(cubic) + [PathEnd(kind)]
            && |t.content| == |s.content| + |MoveCommands(cubic, prependMoveTo)| + |cubic|
            && t.mode == (if prependMoveTo || |cubic| > 0 then PathObject else s.mode))
  {
    if prependMoveTo && |cubic| > 0 {
      DrawPathWithMove(s, kind, cubic);
    } else if !prependMoveTo {
      DrawPathWithoutMove(s, kind, cubic);
    }
  }

  /** `appendCustomPath`: an unknown kind is not implemented and a mode the
      kind does not allow fails its assertion, both changing nothing; a
      successful one logs the `:Start` marker with the parameters the
      conversion received, the last point first when the table says so,
      then the move-to, one `c` per segment and the `:End` marker. */
  lemma CustomPathOutcome(s: Snapshot, table: PathTable, kind: string, ps: seq<Param>,
                          kwargs: map<string, Param>)
    ensures kind !in table ==>
      CustomPathStep(s, table, kind, ps, kwargs).0 == s
      && CustomPathStep(s, table, kind, ps, kwargs).1.Fail?
      && CustomPathStep(s, table, kind, ps, kwargs).1.error.NotImplemented?
    ensures kind in table && s.mode !in table[kind].allowed ==>
      CustomPathStep(s, table, kind, ps, kwargs).0 == s
      && CustomPathStep(s, table, kind, ps, kwargs).1.Fail?
      && CustomPathStep(s, table, kind, ps, kwargs).1.error.AssertionFailed?
    ensures CustomPathStep(s, table, kind, ps, kwargs).1.Pass? ==>
      var path := table[kind];
      var params := if path.sendLastPoint then s.lastPoint.value + ps else ps;
      var cubic := path.toCubic(params, kwargs).value;
      && s.mode in path.allowed
      && path.toCubic(params, kwargs).Ok?
      && (path.prependMoveTo ==> |cubic| > 0)
      && CustomPathStep(s, table, kind, ps, kwargs).0.commands ==
           s.commands + [PathStart(kind, params, kwargs)] + MoveCommands(cubic, path.prependMoveTo)
           + CurveCommands(cubic) + [PathEnd(kind)]
  {
    if kind in table && s.mode in table[kind].allowed && !(table[kind].sendLastPoint && s.lastPoint.None?) {
      var path := table[kind];
      var params := PathParams(s, path, ps);
      if path.toCubic(params, kwargs).Ok? {
        var cubic := path.toCubic(params, kwargs).value;
        var started := s.(commands := s.commands + [PathStart(kind, params, kwargs)]);
        DrawPathOutcome(started, kind, cubic, path.prependMoveTo);
      }
    }
  }

  /** The segments only append. */
  lemma {:induction false} SegmentsExtend(s: Snapshot, cubic: seq<Segment>)
    ensures Extends(s, AppendSegments(s, cubic).0)
    decreases |cubic|
  {
    if |cubic| > 0 {
      var (next, status) := AppendStep(s, "c", CurveParams(cubic[0]));
      AppendExtends(s, "c", CurveParams(cubic[0]));
      if status.Pass? {
        SegmentsExtend(next, cubic[1..]);
      }
    }
  }

  /** The segments keep a stream consistent. */
  lemma {:induction false} SegmentsKeepConsistent(s: Snapshot, cubic: seq<Segment>)
    requires Consistent(s)
    ensures Consistent(AppendSegments(s, cubic).0)
    decreases |cubic|
  {
    if |cubic| > 0 {
      var (next, status) := AppendStep(s, "c", CurveParams(cubic[0]));
      AppendKeepsConsistent(s, "c", CurveParams(cubic[0]));
      if status.Pass? {
        SegmentsKeepConsistent(next, cubic[1..]);
      }
    }
  }

  /** The part after the `:Start` marker only appends and keeps a stream
      consistent. */
  lemma DrawPathInvariants(s: Snapshot, kind: string, cubic: seq<Segment>, prependMoveTo: bool)
    ensures Extends(s, DrawPath(s, kind, cubic, prependMoveTo).0)
    ensures Consistent(s) ==> Consistent(DrawPath(s, kind, cubic, prependMoveTo).0)
  {
    if !(prependMoveTo && |cubic| == 0) {
      var (moved, status) :=
        if prependMoveTo then AppendStep(s, "m", PointParams(cubic[0].p0)) else (s, Pass);
      if prependMoveTo {
        AppendExtends(s, "m", PointParams(cubic[0].p0));
        if Consistent(s) {
          AppendKeepsConsistent(s, "m", PointParams(cubic[0].p0));
        }
      }
      if status.Pass? {
        SegmentsExtend(moved, cubic);
        if Consistent(moved) {
          SegmentsKeepConsistent(moved, cubic);
        }
      }
    }
  }

  /** `appendCustomPath` only appends and keeps a stream consistent. */
  lemma CustomPathInvariants(s: Snapshot, table: PathTable, kind: string, ps: seq<Param>,
                             kwargs: map<string, Param>)
    ensures Extends(s, CustomPathStep(s, table, kind, ps, kwargs).0)
    ensures Consistent(s) ==> Consistent(CustomPathStep(s, table, kind, ps, kwargs).0)
  {
    if kind in table && s.mode in table[kind].allowed && !(table[kind].sendLastPoint && s.lastPoint.None?) {
      var path := table[kind];
      var params := PathParams(s, path, ps);
      if path.toCubic(params, kwargs).Ok? {
        var started := s.(commands := s.commands + [PathStart(kind, params, kwargs)]);
        DrawPathInvariants(started, kind, path.toCubic(params, kwargs).value, path.prependMoveTo);
      }
    }
  }

  // ---------------------------------------------------------------------
  // append_multiple_operations

  /** The command forms give back the operator and parameters they were
      built from: a bare string has none; an operator with a list of
      parameters, in a tuple or a two-element list; an operator followed by
      its parameters in a tuple, unless it has a single parameter that is a
      list. */
  lemma NormaliseRoundTrip(op: Param, params: seq<Param>, name: string)
    ensures Normalise(PStr(name)) == Ok((PStr(name), []))
    ensures Normalise(PTuple([op, PList(params)])) == Ok((op, params))
    ensures Normalise(PList([op, PList(params)])) == Ok((op, params))
    ensures !(|params| == 1 && params[0].PList?) ==> Normalise(PTuple([op] + params)) == Ok((op, params))
    ensures !op.PList? ==> Normalise(PList([PStr(name), op])) == Ok((PStr(name), [op]))
  {
    var es := [op] + params;
    assert es[0] == op;
    if |params| >= 1 {
      assert es[1..] == params;
      assert es[1] == params[0];
      if |params| == 1 {
        assert [params[0]] == params;
      }
    } else {
      assert params == [];
    }
  }

  /** The forms that cannot be unpacked into an operator and parameters. */
  lemma NormaliseRejects(cmd: Param)
    ensures Normalise(cmd).Err? <==>
      cmd.PInt? || cmd.PReal? || (cmd.PTuple? && |cmd.elems| == 0) || (cmd.PList? && |cmd.items| != 2)
  {
  }

  /** One entry only appends and keeps a stream consistent. */
  lemma OperationInvariants(s: Snapshot, table: PathTable, cmd: Param)
    ensures Extends(s, OperationStep(s, table, cmd).0)
    ensures Consistent(s) ==> Consistent(OperationStep(s, table, cmd).0)
  {
    match Normalise(cmd)
    case Err(_) =>
    case Ok((op, params)) =>
      if Hashable(op) && op.PStr? {
        if op.s in table {
          CustomPathInvariants(s, table, op.s, params, map[]);
        } else {
          AppendExtends(s, op.s, params);
          if Consistent(s) {
            AppendKeepsConsistent(s, op.s, params);
          }
        }
      }
  }

  /** The entries are processed in order and the first that raises stops
      the rest; whatever the earlier ones appended stays. */
  lemma {:induction false} AppendAllConcat(s: Snapshot, table: PathTable, a: seq<Param>, b: seq<Param>)
    ensures AppendAll(s, table, a + b) ==
      var (mid, status) := AppendAll(s, table, a);
      if status.Fail? then (mid, status) else AppendAll(mid, table, b)
    decreases |a|
  {
    if |a| == 0 {
      assert a + b == b;
    } else {
      assert (a + b)[0] == a[0];
      assert (a + b)[1..] == a[1..] + b;
      var (next, status) := OperationStep(s, table, a[0]);
      if status.Pass? {
        AppendAllConcat(next, table, a[1..], b);
      }
    }
  }

  /** A list of operations only appends and keeps a stream consistent. */
  lemma {:induction false} AppendAllInvariants(s: Snapshot, table: PathTable, cmds: seq<Param>)
    ensures Extends(s, AppendAll(s, table, cmds).0)
    ensures Consistent(s) ==> Consistent(AppendAll(s, table, cmds).0)
    decreases |cmds|
  {
    if |cmds| > 0 {
      var (next, status) := OperationStep(s, table, cmds[0]);
      OperationInvariants(s, table, cmds[0]);
      if status.Pass? {
        AppendAllInvariants(next, table, cmds[1..]);
      }
    }
  }

  /** `append_multiple_operations` only appends and keeps a stream
      consistent; anything but a list changes nothing. */
  lemma AppendOperationsInvariants(s: Snapshot, table: PathTable, operations: Param)
    ensures Extends(s, AppendOperations(s, table, operations).0)
    ensures Consistent(s) ==> Consistent(AppendOperations(s, table, operations).0)
    ensures !operations.PList? ==> AppendOperations(s, table, operations).0 == s
  {
    if operations.PList? {
      AppendAllInvariants(s, table, operations.items);
    }
  }

  /** One entry more: it runs after the others, unless one of them raised. */
  lemma AppendAllSnoc(s: Snapshot, table: PathTable, a: seq<Param>, cmd: Param)
    ensures AppendAll(s, table, a + [cmd]) ==
      if AppendAll(s, table, a).1.Fail? then AppendAll(s, table, a)
      else OperationStep(AppendAll(s, table, a).0, table, cmd)
  {
    AppendAllConcat(s, table, a, [cmd]);
    var mid := AppendAll(s, table, a).0;
    assert AppendAll(mid, table, [cmd]) == OperationStep(mid, table, cmd);
  }

  // ---------------------------------------------------------------------
  // An example

  /** `['q', ('m', x1, y1), ('l', x2, y2), 'S', 'Q']`: save the graphics
      state, draw a line and stroke it, restore the graphics state. */
  function ExampleOperations(x1: real, y1: real, x2: real, y2: real): seq<Param> {
    [PStr("q"), PTuple([PStr("m"), PReal(x1), PReal(y1)]), PTuple([PStr("l"), PReal(x2), PReal(y2)]),
     PStr("S"), PStr("Q")]
  }

  /** An entry whose operator is not a custom path is an `append`. */
  lemma OperationIsAppend(s: Snapshot, table: PathTable, cmd: Param, op: string, ps: seq<Param>)
    requires Normalise(cmd) == Ok((PStr(op), ps)) && op !in table
    ensures OperationStep(s, table, cmd) == AppendStep(s, op, ps)
  {
  }

  /** An allowed operator with accepted parameters and a target in the
      table. */
  lemma KnownStep(s: Snapshot, o: Op, ps: seq<Param>)
    requires IsOperatorAllowed(s.mode, o) && Format(o, ps).Ok? && NextMode(s.mode, o).Ok?
    ensures var next := NextMode(s.mode, o).value;
      AppendStep(s, Symbol(o), ps) ==
        (Snapshot(next, s.content + [Format(o, ps).value], s.commands + [Invoked(Symbol(o), ps)],
                  if next == PathObject then Some(LastTwo(ps)) else None), Pass)
  {
    ParseSymbol(o);
  }

  /** An entry that is an operator without parameters, which the table
      allows and whose target is `next`. */
  lemma BareEntry(s: Snapshot, table: PathTable, o: Op, next: Mode)
    requires Symbol(o) !in table && IsBare(o)
    requires IsOperatorAllowed(s.mode, o) && NextMode(s.mode, o) == Ok(next) && next != PathObject
    ensures OperationStep(s, table, PStr(Symbol(o))) ==
      (Snapshot(next, s.content + [Symbol(o)], s.commands + [Invoked(Symbol(o), [])], None), Pass)
  {
    OperationIsAppend(s, table, PStr(Symbol(o)), Symbol(o), []);
    OperatorProperties.BareOperatorLine(o, []);
    KnownStep(s, o, []);
  }

  /** An entry `(op, x, y)`, for a two-number operator the table allows and
      that leaves a path open: its line is the two coordinates with four
      decimals, then the symbol, and the point is kept. */
  lemma PointEntry(s: Snapshot, table: PathTable, o: Op, x: real, y: real)
    requires Symbol(o) !in table && NumericArity(o) == Some(2)
    requires IsOperatorAllowed(s.mode, o) && NextMode(s.mode, o) == Ok(PathObject)
    ensures OperationStep(s, table, PTuple([PStr(Symbol(o)), PReal(x), PReal(y)])) ==
      (Snapshot(PathObject, s.content + [OperatorProperties.PointLine(x, y, Symbol(o))],
                s.commands + [Invoked(Symbol(o), [PReal(x), PReal(y)])], Some([PReal(x), PReal(y)])),
       Pass)
  {
    var ps := [PReal(x), PReal(y)];
    assert [PStr(Symbol(o)), PReal(x), PReal(y)] == [PStr(Symbol(o))] + ps;
    NormaliseRoundTrip(PStr(Symbol(o)), ps, Symbol(o));
    OperationIsAppend(s, table, PTuple([PStr(Symbol(o))] + ps), Symbol(o), ps);
    OperatorProperties.PointOperatorLine(o, x, y);
    KnownStep(s, o, ps);
  }

  /** An entry that succeeds, then the rest run from where it left off. */
  lemma ConsStep(s: Snapshot, table: PathTable, cmds: seq<Param>, mid: Snapshot, t: Snapshot)
    requires |cmds| > 0
    requires OperationStep(s, table, cmds[0]) == (mid, Pass)
    requires AppendAll(mid, table, cmds[1..]) == (t, Pass)
    ensures AppendAll(s, table, cmds) == (t, Pass)
  {
  }

  /** The entries of the operator and mode tables the example goes
      through, one operator at a time. */
  lemma SaveEntry()
    ensures Symbol(Save) == "q" && IsBare(Save)
    ensures IsOperatorAllowed(PageDescriptionLevel, Save) && NextMode(PageDescriptionLevel, Save) == Ok(PageDescriptionLevel)
  {
  }

  lemma MoveToEntry()
    ensures Symbol(MoveTo) == "m" && NumericArity(MoveTo) == Some(2)
    ensures IsOperatorAllowed(PageDescriptionLevel, MoveTo) && NextMode(PageDescriptionLevel, MoveTo) == Ok(PathObject)
  {
  }

  lemma LineToEntry()
    ensures Symbol(LineTo) == "l" && NumericArity(LineTo) == Some(2)
    ensures IsOperatorAllowed(PathObject, LineTo) && NextMode(PathObject, LineTo) == Ok(PathObject)
  {
  }

  lemma StrokeEntry()
    ensures Symbol(Stroke) == "S" && IsBare(Stroke)
    ensures IsOperatorAllowed(PathObject, Stroke) && NextMode(PathObject, Stroke) == Ok(PageDescriptionLevel)
  {
  }

  lemma RestoreEntry()
    ensures Symbol(Restore) == "Q" && IsBare(Restore)
    ensures IsOperatorAllowed(PageDescriptionLevel, Restore) && NextMode(PageDescriptionLevel, Restore) == Ok(PageDescriptionLevel)
  {
  }

  /** The state of the example after its first `k` entries, from `s0`. */
  function ExampleState(s0: Snapshot, k: nat, x1: real, y1: real, x2: real, y2: real): Snapshot
    requires k <= 5
    decreases k
  {
    var p1, p2 := [PReal(x1), PReal(y1)], [PReal(x2), PReal(y2)];
    if k == 0 then s0
    else
      var s := ExampleState(s0, k - 1, x1, y1, x2, y2);
      if k == 1 then Snapshot(PageDescriptionLevel, s.content + ["q"], s.commands + [Invoked("q", [])], None)
      else if k == 2 then Snapshot(PathObject, s.content + [OperatorProperties.PointLine(x1, y1, "m")], s.commands + [Invoked("m", p1)], Some(p1))
      else if k == 3 then Snapshot(PathObject, s.content + [OperatorProperties.PointLine(x2, y2, "l")], s.commands + [Invoked("l", p2)], Some(p2))
      else if k == 4 then Snapshot(PageDescriptionLevel, s.content + ["S"], s.commands + [Invoked("S", [])], None)
      else Snapshot(PageDescriptionLevel, s.content + ["Q"], s.commands + [Invoked("Q", [])], None)
  }

  /** Where the example ends: back at the page level with no last point,
      after the lines `q`, `x1 y1 m`, `x2 y2 l`, `S` and `Q` and one log
      entry per operation. */
  function ExampleResult(s0: Snapshot, x1: real, y1: real, x2: real, y2: real): Snapshot {
    Snapshot(PageDescriptionLevel,
             s0.content + ["q", OperatorProperties.PointLine(x1, y1, "m"), OperatorProperties.PointLine(x2, y2, "l"), "S", "Q"],
             s0.commands + [Invoked("q", []), Invoked("m", [PReal(x1), PReal(y1)]),
                            Invoked("l", [PReal(x2), PReal(y2)]), Invoked("S", []), Invoked("Q", [])],
             None)
  }

  /** The state after all five entries in closed form. */
  lemma ExampleFinal(s0: Snapshot, x1: real, y1: real, x2: real, y2: real)
    ensures ExampleState(s0, 5, x1, y1, x2, y2) == ExampleResult(s0, x1, y1, x2, y2)
  {
    var m, l := OperatorProperties.PointLine(x1, y1, "m"), OperatorProperties.PointLine(x2, y2, "l");
    var p1, p2 := [PReal(x1), PReal(y1)], [PReal(x2), PReal(y2)];
    var s1 := ExampleState(s0, 1, x1, y1, x2, y2);
    var s2 := ExampleState(s0, 2, x1, y1, x2, y2);
    var s3 := ExampleState(s0, 3, x1, y1, x2, y2);
    var s4 := ExampleState(s0, 4, x1, y1, x2, y2);
    assert s1.content == s0.content + ["q"] && s1.commands == s0.commands + [Invoked("q", [])];
    assert s2.content == s0.content + ["q", m] && s2.commands == s0.commands + [Invoked("q", []), Invoked("m", p1)];
    assert s3.content == s0.content + ["q", m, l];
    assert s3.commands == s0.commands + [Invoked("q", []), Invoked("m", p1), Invoked("l", p2)];
    assert s4.content == s0.content + ["q", m, l, "S"];
    assert s4.commands == s0.commands + [Invoked("q", []), Invoked("m", p1), Invoked("l", p2), Invoked("S", [])];
  }

  /** Each entry of the example takes it from one state to the next. */
  lemma ExampleStep(table: PathTable, s0: Snapshot, k: nat, x1: real, y1: real, x2: real, y2: real)
    requires "q" !in table && "m" !in table && "l" !in table && "S" !in table && "Q" !in table
    requires s0.mode == PageDescriptionLevel
    requires k < 5
    ensures OperationStep(ExampleState(s0, k, x1, y1, x2, y2), table, ExampleOperations(x1, y1, x2, y2)[k]) ==
      (ExampleState(s0, k + 1, x1, y1, x2, y2), Pass)
  {
    var ops := ExampleOperations(x1, y1, x2, y2);
    var s := ExampleState(s0, k, x1, y1, x2, y2);
    var p1, p2 := [PReal(x1), PReal(y1)], [PReal(x2), PReal(y2)];
    if k == 0 {
      SaveEntry();
      BareEntry(s, table, Save, PageDescriptionLevel);
    } else if k == 1 {
      MoveToEntry();
      PointEntry(s, table, MoveTo, x1, y1);
    } else if k == 2 {
      LineToEntry();
      PointEntry(s, table, LineTo, x2, y2);
    } else if k == 3 {
      StrokeEntry();
      BareEntry(s, table, Stroke, PageDescriptionLevel);
    } else {
      RestoreEntry();
      BareEntry(s, table, Restore, PageDescriptionLevel);
    }
  }

  /** The entries from the `k`-th on lead to the final state. */
  lemma {:induction false} ExampleTail(table: PathTable, s0: Snapshot, k: nat, x1: real, y1: real, x2: real, y2: real)
    requires "q" !in table && "m" !in table && "l" !in table && "S" !in table && "Q" !in table
    requires s0.mode == PageDescriptionLevel
    requires k <= 5
    ensures AppendAll(ExampleState(s0, k, x1, y1, x2, y2), table, ExampleOperations(x1, y1, x2, y2)[k..]) ==
      (ExampleState(s0, 5, x1, y1, x2, y2), Pass)
    decreases 5 - k
  {
    var ops := ExampleOperations(x1, y1, x2, y2);
    if k < 5 {
      ExampleStep(table, s0, k, x1, y1, x2, y2);
      ExampleTail(table, s0, k + 1, x1, y1, x2, y2);
      assert ops[k..][1..] == ops[k + 1..];
      ConsStep(ExampleState(s0, k, x1, y1, x2, y2), table, ops[k..],
               ExampleState(s0, k + 1, x1, y1, x2, y2), ExampleState(s0, 5, x1, y1, x2, y2));
    }
  }

  /** From the page level, the entries of the example, in turn, lead
      through the modes page level, path, path, page level, page level, and
      together add the lines `q`, `x1 y1 m`, `x2 y2 l`, `S` and `Q` and one
      log entry per operation. */
  lemma ExampleRun(table: PathTable, s0: Snapshot, x1: real, y1: real, x2: real, y2: real)
    requires "q" !in table && "m" !in table && "l" !in table && "S" !in table && "Q" !in table
    requires s0.mode == PageDescriptionLevel
    ensures forall k :: 0 <= k < 5 ==>
      OperationStep(ExampleState(s0, k, x1, y1, x2, y2), table, ExampleOperations(x1, y1, x2, y2)[k]) ==
        (ExampleState(s0, k + 1, x1, y1, x2, y2), Pass)
    ensures ExampleState(s0, 1, x1, y1, x2, y2).mode == PageDescriptionLevel
    ensures ExampleState(s0, 2, x1, y1, x2, y2).mode == PathObject
    ensures ExampleState(s0, 3, x1, y1, x2, y2).mode == PathObject
    ensures ExampleState(s0, 4, x1, y1, x2, y2).mode == PageDescriptionLevel
    ensures AppendOperations(s0, table, PList(ExampleOperations(x1, y1, x2, y2))) ==
      (ExampleState(s0, 5, x1, y1, x2, y2), Pass)
    ensures ExampleState(s0, 5, x1, y1, x2, y2) == ExampleResult(s0, x1, y1, x2, y2)
  {
    forall k | 0 <= k < 5
      ensures OperationStep(ExampleState(s0, k, x1, y1, x2, y2), table, ExampleOperations(x1, y1, x2, y2)[k]) ==
        (ExampleState(s0, k + 1, x1, y1, x2, y2), Pass)
    {
      ExampleStep(table, s0, k, x1, y1, x2, y2);
    }
    ExampleTail(table, s0, 0, x1, y1, x2, y2);
    assert ExampleOperations(x1, y1, x2, y2)[0..] == ExampleOperations(x1, y1, x2, y2);
    ExampleFinal(s0, x1, y1, x2, y2);
  }
}
