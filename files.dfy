/** The loaders and the writer of src/modules/file_handler.py: the G-code
    filter, the SVG `points` and path-data parsers (over input that is
    already split into tokens), SVG emission, the extension dispatch of
    `load_vector` and the DXF group-code reader. Reading files, the regular
    expressions, the XML parser and `float(...)`/`str(float)` are left to
    parameters: lines arrive as a sequence, numbers as reals, and `parse`
    and `repr` stand for the conversions. */
module Files {
  import opened Text
  import opened PathModel
  import Controller

  // ---------------------------------------------------------------------
  // G-code files (`load_gcode`)
  // ---------------------------------------------------------------------

  /** The lines `load_gcode` keeps, in file order. */
  function Kept(lines: seq<string>): seq<string> {
    if lines == [] then []
    else
      var last := lines[|lines| - 1];
      Kept(lines[..|lines| - 1]) + (if Controller.IsCommand(last) then [Strip(last)] else [])
  }

  /** `load_gcode` after the file is read: strip every line and keep the
      ones that are not empty and not `;` comments. */
  method LoadGcode(lines: seq<string>) returns (gcode: seq<string>)
    ensures gcode == Kept(lines)
  {
    gcode := [];
    var i := 0;
    while i < |lines|
      invariant 0 <= i <= |lines|
      invariant gcode == Kept(lines[..i])
    {
      var line := Strip(lines[i]);
      if line != [] && !StartsWith(line, ";") {
        gcode := gcode + [line];
      }
      assert lines[..i + 1][..i] == lines[..i];
      i := i + 1;
    }
    assert lines[..i] == lines;
  }

  /** A kept line is a stripped command, and a line is kept (stripped) iff
      it is a command. */
  lemma KeptSpec(lines: seq<string>)
    ensures |Kept(lines)| <= |lines|
    ensures forall k :: 0 <= k < |Kept(lines)| ==>
      Controller.IsCommand(Kept(lines)[k]) && Strip(Kept(lines)[k]) == Kept(lines)[k]
    ensures forall s :: s in Kept(lines) <==> exists j :: 0 <= j < |lines| && Controller.IsCommand(lines[j]) && s == Strip(lines[j])
  {
    KeptShape(lines);
    KeptHas(lines);
  }

  lemma {:induction false} KeptShape(lines: seq<string>)
    ensures |Kept(lines)| <= |lines|
    ensures forall k :: 0 <= k < |Kept(lines)| ==>
      Controller.IsCommand(Kept(lines)[k]) && Strip(Kept(lines)[k]) == Kept(lines)[k]
    decreases |lines|
  {
    if lines != [] {
      KeptShape(lines[..|lines| - 1]);
      StripIdempotent(lines[|lines| - 1]);
    }
  }

  lemma KeptHas(lines: seq<string>)
    ensures forall s :: s in Kept(lines) <==> exists j :: 0 <= j < |lines| && Controller.IsCommand(lines[j]) && s == Strip(lines[j])
  {
    KeptFrom(lines);
    KeptAll(lines);
  }

  /** Every kept line comes from a command line. */
  lemma {:induction false} KeptFrom(lines: seq<string>)
    ensures forall s :: s in Kept(lines) ==> exists j :: 0 <= j < |lines| && Controller.IsCommand(lines[j]) && s == Strip(lines[j])
    decreases |lines|
  {
    if lines != [] {
      var n := |lines| - 1;
      KeptFrom(lines[..n]);
      forall s | s in Kept(lines)
        ensures exists j :: 0 <= j < |lines| && Controller.IsCommand(lines[j]) && s == Strip(lines[j])
      {
        if s in Kept(lines[..n]) {
          var j :| 0 <= j < n && Controller.IsCommand(lines[..n][j]) && s == Strip(lines[..n][j]);
          assert lines[j] == lines[..n][j];
        } else {
          assert Controller.IsCommand(lines[n]) && s == Strip(lines[n]);
        }
      }
    }
  }

  /** Every command line is kept, stripped. */
  lemma {:induction false} KeptAll(lines: seq<string>)
    ensures forall j :: 0 <= j < |lines| && Controller.IsCommand(lines[j]) ==> Strip(lines[j]) in Kept(lines)
    decreases |lines|
  {
    if lines != [] {
      var n := |lines| - 1;
      KeptAll(lines[..n]);
      forall j | 0 <= j < |lines| && Controller.IsCommand(lines[j])
        ensures Strip(lines[j]) in Kept(lines)
      {
        if j < n {
          assert lines[..n][j] == lines[j];
        }
      }
    }
  }

  /** Filtering a loaded program again changes nothing. */
  lemma {:induction false} KeptIdempotent(lines: seq<string>)
    ensures Kept(Kept(lines)) == Kept(lines)
    decreases |lines|
  {
    if lines != [] {
      var n := |lines| - 1;
      var last := lines[n];
      KeptIdempotent(lines[..n]);
      if Controller.IsCommand(last) {
        var k := Kept(lines[..n]) + [Strip(last)];
        assert k[..|k| - 1] == Kept(lines[..n]);
        StripIdempotent(last);
        assert Controller.IsCommand(Strip(last));
        assert Kept(k) == Kept(Kept(lines[..n])) + [Strip(Strip(last))];
      } else {
        assert Kept(lines) == Kept(lines[..n]);
      }
    }
  }

  /** In a program with no blank or comment line, the dispatches from
      `from` send every line from there on, in order. */
  lemma {:induction false} DrainAll(gcode: seq<string>, from: nat)
    requires from <= |gcode|
    requires forall k :: 0 <= k < |gcode| ==> Controller.IsCommand(gcode[k])
    ensures Controller.Drain(gcode, from) == seq(|gcode| - from, k => from + k)
    decreases |gcode| - from
  {
    if from < |gcode| {
      DrainAll(gcode, from + 1);
    }
  }

  /** A loaded program is streamed whole: one line per acknowledgement,
      every line once, in file order. */
  lemma LoadedProgramStreams(lines: seq<string>)
    ensures Controller.Drain(Kept(lines), 0) == seq(|Kept(lines)|, k => k)
  {
    KeptSpec(lines);
    DrainAll(Kept(lines), 0);
  }

  // ---------------------------------------------------------------------
  // The `points` attribute (`_parse_svg_points`)
  // ---------------------------------------------------------------------

  /** `_parse_svg_points` over the numbers the regular expression found:
      consecutive numbers pair up, and a trailing odd number is dropped. */
  method ParseSvgPoints(nums: seq<real>) returns (points: seq<(real, real)>)
    ensures |points| == |nums| / 2
    ensures forall k :: 0 <= k < |points| ==> points[k] == (nums[2 * k], nums[2 * k + 1])
  {
    points := [];
    var i := 0;
    while i < |nums| - 1
      invariant 0 <= i <= |nums| && i % 2 == 0
      invariant |points| == i / 2
      invariant forall k :: 0 <= k < |points| ==> points[k] == (nums[2 * k], nums[2 * k + 1])
    {
      points := points + [(nums[i], nums[i + 1])];
      i := i + 2;
    }
  }

  // ---------------------------------------------------------------------
  // Format dispatch (`load_vector`)
  // ---------------------------------------------------------------------

  /** Python `s.rfind(c)`: the last index of `c`, or -1. */
  function RFind(s: string, c: char): (k: int)
    ensures -1 <= k < |s|
    ensures k >= 0 ==> s[k] == c
    ensures forall j :: k < j < |s| ==> s[j] != c
  {
    if s == [] then -1
    else if s[|s| - 1] == c then |s| - 1
    else RFind(s[..|s| - 1], c)
  }

  /** `os.path.splitext(path)[1]`: from the last dot of the file name
      on, unless the file name has nothing but dots before it. */
  function Extension(path: string): (ext: string)
    ensures ext == [] || (ext[0] == '.' && '/' !in ext && '.' !in ext[1..])
  {
    var sep := RFind(path, '/');
    var dot := RFind(path, '.');
    if dot > sep && exists k :: sep + 1 <= k < dot && path[k] != '.' then path[dot..] else []
  }

  datatype VectorFormat = Svg | Dxf

  /** `load_vector`: the loader chosen by the lower-cased extension, or
      the ValueError for any other extension. */
  function LoadVector(path: string): (r: Result<VectorFormat>)
  {
    var ext := Lower(Extension(path));
    if ext == ".svg" then Ok(Svg)
    else if ext == ".dxf" then Ok(Dxf)
    else Err("Unsupported vector format: " + ext)
  }

  /** A file name with a stem and a `.svg` or `.dxf` extension, in any
      case, selects that loader; any other extension, of any length, is
      refused with the lower-cased extension in the message, and so is a
      file name without a dot. */
  lemma LoadVectorByName(dir: string, stem: string, ext: string)
    requires '/' !in stem && stem != [] && stem[0] != '.'
    requires ext != [] && ext[0] == '.' && '/' !in ext && '.' !in ext[1..]
    ensures var path := dir + "/" + stem + ext;
      && (Lower(ext) == ".svg" ==> LoadVector(path) == Ok(Svg))
      && (Lower(ext) == ".dxf" ==> LoadVector(path) == Ok(Dxf))
      && (Lower(ext) != ".svg" && Lower(ext) != ".dxf" ==>
            LoadVector(path) == Err("Unsupported vector format: " + Lower(ext)))
      && ('.' !in stem ==> LoadVector(dir + "/" + stem) == Err("Unsupported vector format: "))
  {
    ExtensionAfterStem(dir, stem, ext);
    if '.' !in stem {
      NoExtension(dir, stem);
    }
  }

  /** The extension of `dir/stem.ext` is `.ext`. */
  lemma ExtensionAfterStem(dir: string, stem: string, ext: string)
    requires '/' !in stem && stem != [] && stem[0] != '.'
    requires ext != [] && ext[0] == '.' && '/' !in ext && '.' !in ext[1..]
    ensures Extension(dir + "/" + stem + ext) == ext
  {
    var path := dir + "/" + stem + ext;
    var sep := |dir|;
    var dot := |dir| + 1 + |stem|;
    assert path[sep] == '/' && path[dot] == '.';
    assert forall j :: sep < j < |path| ==> path[j] != '/';
    assert RFind(path, '/') == sep;
    assert forall j :: dot < j < |path| ==> path[j] != '.';
    assert RFind(path, '.') == dot;
    assert path[sep + 1] == stem[0] != '.';
    assert path[dot..] == ext;
  }

  /** A file name without a dot has no extension. */
  lemma NoExtension(dir: string, stem: string)
    requires '/' !in stem && '.' !in stem
    ensures Extension(dir + "/" + stem) == []
  {
    var p2 := dir + "/" + stem;
    assert p2[|dir|] == '/';
    assert forall j :: |dir| < j < |p2| ==> p2[j] != '/' && p2[j] != '.';
    assert RFind(p2, '/') == |dir|;
  }

  // ---------------------------------------------------------------------
  // Path data (`_parse_svg_path`)
  // ---------------------------------------------------------------------

  /** A token of path data, as the regular expression splits it: a
      command letter or a number. */
  datatype Token = Letter(c: char) | Number(value: real)

  /** The pen moves a parse makes, and whether it ends normally (`false`
      when `float()` meets a command letter or a run indexes past the last
      token; the moves made before that stay on the turtle). */
  datatype Outcome = Outcome(ops: seq<PenOp>, ok: bool)

  function Prefixed(ops: seq<PenOp>, o: Outcome): Outcome {
    Outcome(ops + o.ops, o.ok)
  }

  /** SVG's y axis points down: the turtle gets every point with y negated. */
  function Flip(p: Point): Point {
    Point(p.x, -p.y)
  }

  /** A coordinate pair, absolute or added to the current point. */
  function Offset(cur: Point, x: real, y: real, rel: bool): Point {
    if rel then Point(cur.x + x, cur.y + y) else Point(x, y)
  }

  /** The cubic Bezier polynomial in one coordinate. */
  function Bezier(a: real, b: real, c: real, d: real, t: real): real {
    var u := 1.0 - t;
    u * u * u * a + 3.0 * u * u * t * b + 3.0 * u * t * t * c + t * t * t * d
  }

  /** The curve at t = k/10 for k in 1..10, with the polynomial's weights
      worked out per sample (`CurveSampleIsBezier` checks them), so that
      the parser itself needs no non-linear arithmetic. */
  function CurveSample(a: real, b: real, c: real, d: real, k: nat): real {
    if k == 1 then (729.0 * a + 243.0 * b + 27.0 * c + 1.0 * d) / 1000.0
    else if k == 2 then (512.0 * a + 384.0 * b + 96.0 * c + 8.0 * d) / 1000.0
    else if k == 3 then (343.0 * a + 441.0 * b + 189.0 * c + 27.0 * d) / 1000.0
    else if k == 4 then (216.0 * a + 432.0 * b + 288.0 * c + 64.0 * d) / 1000.0
    else if k == 5 then (125.0 * a + 375.0 * b + 375.0 * c + 125.0 * d) / 1000.0
    else if k == 6 then (64.0 * a + 288.0 * b + 432.0 * c + 216.0 * d) / 1000.0
    else if k == 7 then (27.0 * a + 189.0 * b + 441.0 * c + 343.0 * d) / 1000.0
    else if k == 8 then (8.0 * a + 96.0 * b + 384.0 * c + 512.0 * d) / 1000.0
    else if k == 9 then (1.0 * a + 27.0 * b + 243.0 * c + 729.0 * d) / 1000.0
    else (0.0 * a + 0.0 * b + 0.0 * c + 1000.0 * d) / 1000.0
  }

  lemma CurveSampleIsBezier(a: real, b: real, c: real, d: real, k: nat)
    requires 1 <= k <= 10
    ensures CurveSample(a, b, c, d, k) == Bezier(a, b, c, d, k as real / 10.0)
  {
  }

  function CurvePoint(p0: Point, p1: Point, p2: Point, p3: Point, k: nat): Point {
    Point(CurveSample(p0.x, p1.x, p2.x, p3.x, k), CurveSample(p0.y, p1.y, p2.y, p3.y, k))
  }

  /** The `move_to`s that approximate one cubic segment: the curve at
      t = 0.1, 0.2, ..., 1.0, y negated; the last is the end point. */
  function CurveOps(p0: Point, p1: Point, p2: Point, p3: Point): (r: seq<PenOp>)
    ensures |r| == 10
    ensures forall k :: 0 <= k < 10 ==> r[k].Move?
    ensures r[9] == Move(Flip(p3))
  {
    seq(10, k requires 0 <= k < 10 => Move(Flip(CurvePoint(p0, p1, p2, p3, k + 1))))
  }

  function IsLetter(tokens: seq<Token>, k: nat): bool {
    k < |tokens| && tokens[k].Letter?
  }

  // `_parse_svg_path` from token `i`, with current point `cur` and subpath
  // start `start`: between commands (`ParseTop`) or inside the coordinate
  // run of an M, L, H, V or C command (`rel` for the lower-case form).

  function ParseTop(tokens: seq<Token>, i: nat, cur: Point, start: Point): Outcome
    requires i <= |tokens|
    decreases |tokens| - i, 0
  {
    if i == |tokens| then Outcome([], true)
    else if tokens[i].Number? then ParseTop(tokens, i + 1, cur, start)
    else
      var c := tokens[i].c;
      if c == 'M' || c == 'm' then ParseMoves(tokens, i + 1, c == 'm', cur, start)
      else if c == 'L' || c == 'l' then ParseLines(tokens, i + 1, c == 'l', cur, start)
      else if c == 'H' || c == 'h' then ParseH(tokens, i + 1, c == 'h', cur, start)
      else if c == 'V' || c == 'v' then ParseV(tokens, i + 1, c == 'v', cur, start)
      else if c == 'Z' || c == 'z' then Prefixed([Move(Flip(start))], ParseTop(tokens, i + 1, start, start))
      else if c == 'C' || c == 'c' then ParseCurves(tokens, i + 1, c == 'c', cur, start)
      else ParseTop(tokens, i + 1, cur, start)
  }

  function ParseMoves(tokens: seq<Token>, i: nat, rel: bool, cur: Point, start: Point): Outcome
    requires i <= |tokens|
    decreases |tokens| - i, 1
  {
    if i == |tokens| || tokens[i].Letter? then ParseTop(tokens, i, cur, start)
    else if i + 1 == |tokens| || tokens[i + 1].Letter? then Outcome([], false)
    else
      var p := Offset(cur, tokens[i].value, tokens[i + 1].value, rel);
      Prefixed([Jump(Flip(p))], ParseMoves(tokens, i + 2, rel, p, p))
  }

  function ParseLines(tokens: seq<Token>, i: nat, rel: bool, cur: Point, start: Point): Outcome
    requires i <= |tokens|
    decreases |tokens| - i, 1
  {
    if i == |tokens| || tokens[i].Letter? then ParseTop(tokens, i, cur, start)
    else if i + 1 == |tokens| || tokens[i + 1].Letter? then Outcome([], false)
    else
      var p := Offset(cur, tokens[i].value, tokens[i + 1].value, rel);
      Prefixed([Move(Flip(p))], ParseLines(tokens, i + 2, rel, p, start))
  }

  function ParseH(tokens: seq<Token>, i: nat, rel: bool, cur: Point, start: Point): Outcome
    requires i <= |tokens|
    decreases |tokens| - i, 1
  {
    if i == |tokens| || tokens[i].Letter? then ParseTop(tokens, i, cur, start)
    else
      var p := Point(if rel then cur.x + tokens[i].value else tokens[i].value, cur.y);
      Prefixed([Move(Flip(p))], ParseH(tokens, i + 1, rel, p, start))
  }

  function ParseV(tokens: seq<Token>, i: nat, rel: bool, cur: Point, start: Point): Outcome
    requires i <= |tokens|
    decreases |tokens| - i, 1
  {
    if i == |tokens| || tokens[i].Letter? then ParseTop(tokens, i, cur, start)
    else
      var p := Point(cur.x, if rel then cur.y + tokens[i].value else tokens[i].value);
      Prefixed([Move(Flip(p))], ParseV(tokens, i + 1, rel, p, start))
  }

  /** A C/c run goes on only while six more tokens remain; `float()` of a
      letter among the five after the first raises. */
  function ParseCurves(tokens: seq<Token>, i: nat, rel: bool, cur: Point, start: Point): Outcome
    requires i <= |tokens|
    decreases |tokens| - i, 1
  {
    if i + 5 >= |tokens| || tokens[i].Letter? then ParseTop(tokens, i, cur, start)
    else if IsLetter(tokens, i + 1) || IsLetter(tokens, i + 2) || IsLetter(tokens, i + 3)
         || IsLetter(tokens, i + 4) || IsLetter(tokens, i + 5) then Outcome([], false)
    else
      var p1 := Offset(cur, tokens[i].value, tokens[i + 1].value, rel);
      var p2 := Offset(cur, tokens[i + 2].value, tokens[i + 3].value, rel);
      var p3 := Offset(cur, tokens[i + 4].value, tokens[i + 5].value, rel);
      Prefixed(CurveOps(cur, p1, p2, p3), ParseCurves(tokens, i + 6, rel, p3, start))
  }

  const Origin := Point(0.0, 0.0)

  /** What `_parse_svg_path` does to a turtle: the moves of `Parse` from
      the first token, with (0, 0) as current point and subpath start. */
  function PathOutcome(tokens: seq<Token>): Outcome {
    ParseTop(tokens, 0, Origin, Origin)
  }

  /** `_parse_svg_path`: the outer loop over the commands; each command's
      coordinate run is one of the methods below. Returns false where the
      source raises, with the moves made so far kept. */
  method ParseSvgPath(t: Turtle, tokens: seq<Token>) returns (ok: bool)
    requires t.Valid()
    modifies t
    ensures t.Valid() && t.color == old(t.color) && t.diameter == old(t.diameter)
    ensures ok == PathOutcome(tokens).ok
    ensures t.State() == Replay(old(t.State()), PathOutcome(tokens).ops, t.color, t.diameter)
  {
    ghost var s0 := t.State();
    ghost var log: seq<PenOp> := [];
    var i := 0;
    var cur, start := Origin, Origin;
    while i < |tokens|
      invariant i <= |tokens|
      invariant t.Valid() && t.color == old(t.color) && t.diameter == old(t.diameter)
      invariant Replayed(t, s0, log)
      invariant PathOutcome(tokens) == Prefixed(log, ParseTop(tokens, i, cur, start))
      decreases |tokens| - i
    {
      if tokens[i].Number? {
        i := i + 1;
        continue;
      }
      var more: bool;
      ghost var ops: seq<PenOp>;
      ghost var i0, cur0, start0 := i, cur, start;
      i, cur, start, more, ops := Command(t, tokens, i, cur, start, s0, log);
      RunStep(PathOutcome(tokens), log, ParseTop(tokens, i0, cur0, start0), ops,
              if more then ParseTop(tokens, i, cur, start) else Outcome([], false));
      log := log + ops;
      if !more {
        assert log + [] == log;
        return false;
      }
    }
    assert log + [] == log;
    return true;
  }

  /** One command of `_parse_svg_path`: the letter at `i0` and its run of
      coordinates. */
  method Command(t: Turtle, tokens: seq<Token>, i0: nat, cur0: Point, start0: Point,
                 ghost s0: Pen, ghost done: seq<PenOp>)
    returns (i: nat, cur: Point, start: Point, more: bool, ghost ops: seq<PenOp>)
    requires i0 < |tokens| && tokens[i0].Letter?
    requires t.Valid() && Replayed(t, s0, done)
    modifies t
    ensures t.Valid() && t.color == old(t.color) && t.diameter == old(t.diameter)
    ensures Replayed(t, s0, done + ops)
    ensures i0 < i <= |tokens| || !more
    ensures ParseTop(tokens, i0, cur0, start0)
      == Prefixed(ops, if more then ParseTop(tokens, i, cur, start) else Outcome([], false))
  {
    var c := tokens[i0].c;
    more := true;
    start := start0;
    if c == 'M' || c == 'm' {
      i, cur, start, more, ops := MovePairs(t, tokens, i0 + 1, c == 'm', cur0, start0, s0, done);
    } else if c == 'L' || c == 'l' {
      i, cur, more, ops := LinePairs(t, tokens, i0 + 1, c == 'l', cur0, start0, s0, done);
    } else if c == 'H' || c == 'h' {
      i, cur, ops := HorizontalRun(t, tokens, i0 + 1, c == 'h', cur0, start0, s0, done);
    } else if c == 'V' || c == 'v' {
      i, cur, ops := VerticalRun(t, tokens, i0 + 1, c == 'v', cur0, start0, s0, done);
    } else if c == 'Z' || c == 'z' {
      MoveStep(t, Flip(start0), s0, done);
      ops := [Move(Flip(start0))];
      cur := start0;
      i := i0 + 1;
    } else if c == 'C' || c == 'c' {
      i, cur, more, ops := CurveGroups(t, tokens, i0 + 1, c == 'c', cur0, start0, s0, done);
    } else {
      ops := [];
      cur := cur0;
      i := i0 + 1;
      assert done + ops == done;
    }
    Advance(tokens, i0, cur0, start0, i, cur, start, more, ops);
  }

  /** One more step of a run: what is left after `ops` starts with `step`. */
  lemma RunStep(whole: Outcome, ops: seq<PenOp>, rest: Outcome, step: seq<PenOp>, next: Outcome)
    requires whole == Prefixed(ops, rest) && rest == Prefixed(step, next)
    ensures whole == Prefixed(ops + step, next)
  {
    assert ops + (step + next.ops) == (ops + step) + next.ops;
  }

  /** How far a command from a letter at `i0` got: `more` when its run
      ended at a letter or the end of the tokens, with `ops` made and
      `ParseTop` going on from `i`; otherwise the run raised after `ops`. */
  ghost predicate RunDone(whole: Outcome, tokens: seq<Token>, i0: nat,
                          i: nat, cur: Point, start: Point, more: bool, ops: seq<PenOp>)
  {
    && i <= |tokens|
    && (more ==> i0 <= i && whole == Prefixed(ops, ParseTop(tokens, i, cur, start)))
    && (!more ==> whole == Outcome(ops, false))
  }

  /** The step of the outer loop: the command at letter `i0`. */
  lemma Advance(tokens: seq<Token>, i0: nat, cur0: Point, start0: Point,
                i: nat, cur: Point, start: Point, more: bool, ops: seq<PenOp>)
    requires i0 < |tokens| && tokens[i0].Letter?
    requires var c := tokens[i0].c;
      if c == 'M' || c == 'm' then RunDone(ParseMoves(tokens, i0 + 1, c == 'm', cur0, start0), tokens, i0 + 1, i, cur, start, more, ops)
      else if c == 'L' || c == 'l' then start == start0 && RunDone(ParseLines(tokens, i0 + 1, c == 'l', cur0, start0), tokens, i0 + 1, i, cur, start, more, ops)
      else if c == 'H' || c == 'h' then more && start == start0 && RunDone(ParseH(tokens, i0 + 1, c == 'h', cur0, start0), tokens, i0 + 1, i, cur, start, more, ops)
      else if c == 'V' || c == 'v' then more && start == start0 && RunDone(ParseV(tokens, i0 + 1, c == 'v', cur0, start0), tokens, i0 + 1, i, cur, start, more, ops)
      else if c == 'Z' || c == 'z' then more && i == i0 + 1 && cur == start0 && start == start0 && ops == [Move(Flip(start0))]
      else if c == 'C' || c == 'c' then start == start0 && RunDone(ParseCurves(tokens, i0 + 1, c == 'c', cur0, start0), tokens, i0 + 1, i, cur, start, more, ops)
      else more && i == i0 + 1 && cur == cur0 && start == start0 && ops == []
    ensures i0 < i <= |tokens| || !more
    ensures ParseTop(tokens, i0, cur0, start0)
      == Prefixed(ops, if more then ParseTop(tokens, i, cur, start) else Outcome([], false))
  {
    var c := tokens[i0].c;
    if !more {
      assert ops + [] == ops;
    } else if !(c in "MmLlHhVvCcZz") {
      assert ops + ParseTop(tokens, i, cur, start).ops == ParseTop(tokens, i, cur, start).ops;
    }
  }

  /** The coordinate pairs after M/m: each one moves the current point
      and the subpath start and starts a new line there. */
  method MovePairs(t: Turtle, tokens: seq<Token>, i0: nat, rel: bool, cur0: Point, start0: Point,
                   ghost s0: Pen, ghost done: seq<PenOp>)
    returns (i: nat, cur: Point, start: Point, more: bool, ghost ops: seq<PenOp>)
    requires i0 <= |tokens| && t.Valid() && Replayed(t, s0, done)
    modifies t
    ensures t.Valid() && t.color == old(t.color) && t.diameter == old(t.diameter)
    ensures Replayed(t, s0, done + ops)
    ensures RunDone(ParseMoves(tokens, i0, rel, cur0, start0), tokens, i0, i, cur, start, more, ops)
  {
    i, cur, start, ops := i0, cur0, start0, [];
    assert done + ops == done;
    while i < |tokens| && tokens[i].Number?
      invariant i0 <= i <= |tokens|
      invariant t.Valid() && t.color == old(t.color) && t.diameter == old(t.diameter)
      invariant Replayed(t, s0, done + ops)
      invariant ParseMoves(tokens, i0, rel, cur0, start0) == Prefixed(ops, ParseMoves(tokens, i, rel, cur, start))
      decreases |tokens| - i
    {
      if i + 1 == |tokens| || tokens[i + 1].Letter? {
        assert ops + [] == ops;
        return i, cur, start, false, ops;
      }
      ghost var rest := ParseMoves(tokens, i, rel, cur, start);
      cur := Offset(cur, tokens[i].value, tokens[i + 1].value, rel);
      JumpStep(t, Flip(cur), s0, done + ops);
      RunStep(ParseMoves(tokens, i0, rel, cur0, start0), ops, rest, [Jump(Flip(cur))], ParseMoves(tokens, i + 2, rel, cur, cur));
      assert done + ops + [Jump(Flip(cur))] == done + (ops + [Jump(Flip(cur))]);
      ops := ops + [Jump(Flip(cur))];
      start := cur;
      i := i + 2;
    }
    more := true;
  }

  /** The coordinate pairs after L/l: each one moves the current point
      and draws to it. */
  method LinePairs(t: Turtle, tokens: seq<Token>, i0: nat, rel: bool, cur0: Point, start: Point,
                   ghost s0: Pen, ghost done: seq<PenOp>)
    returns (i: nat, cur: Point, more: bool, ghost ops: seq<PenOp>)
    requires i0 <= |tokens| && t.Valid() && Replayed(t, s0, done)
    modifies t
    ensures t.Valid() && t.color == old(t.color) && t.diameter == old(t.diameter)
    ensures Replayed(t, s0, done + ops)
    ensures RunDone(ParseLines(tokens, i0, rel, cur0, start), tokens, i0, i, cur, start, more, ops)
  {
    i, cur, ops := i0, cur0, [];
    assert done + ops == done;
    while i < |tokens| && tokens[i].Number?
      invariant i0 <= i <= |tokens|
      invariant t.Valid() && t.color == old(t.color) && t.diameter == old(t.diameter)
      invariant Replayed(t, s0, done + ops)
      invariant ParseLines(tokens, i0, rel, cur0, start) == Prefixed(ops, ParseLines(tokens, i, rel, cur, start))
      decreases |tokens| - i
    {
      if i + 1 == |tokens| || tokens[i + 1].Letter? {
        assert ops + [] == ops;
        return i, cur, false, ops;
      }
      ghost var rest := ParseLines(tokens, i, rel, cur, start);
      cur := Offset(cur, tokens[i].value, tokens[i + 1].value, rel);
      MoveStep(t, Flip(cur), s0, done + ops);
      RunStep(ParseLines(tokens, i0, rel, cur0, start), ops, rest, [Move(Flip(cur))], ParseLines(tokens, i + 2, rel, cur, start));
      assert done + ops + [Move(Flip(cur))] == done + (ops + [Move(Flip(cur))]);
      ops := ops + [Move(Flip(cur))];
      i := i + 2;
    }
    more := true;
  }

  /** The numbers after H/h: each one sets (or adds to) x only. */
  method HorizontalRun(t: Turtle, tokens: seq<Token>, i0: nat, rel: bool, cur0: Point, start: Point,
                       ghost s0: Pen, ghost done: seq<PenOp>)
    returns (i: nat, cur: Point, ghost ops: seq<PenOp>)
    requires i0 <= |tokens| && t.Valid() && Replayed(t, s0, done)
    modifies t
    ensures t.Valid() && t.color == old(t.color) && t.diameter == old(t.diameter)
    ensures Replayed(t, s0, done + ops)
    ensures RunDone(ParseH(tokens, i0, rel, cur0, start), tokens, i0, i, cur, start, true, ops)
  {
    i, cur, ops := i0, cur0, [];
    assert done + ops == done;
    while i < |tokens| && tokens[i].Number?
      invariant i0 <= i <= |tokens|
      invariant t.Valid() && t.color == old(t.color) && t.diameter == old(t.diameter)
      invariant Replayed(t, s0, done + ops)
      invariant ParseH(tokens, i0, rel, cur0, start) == Prefixed(ops, ParseH(tokens, i, rel, cur, start))
      decreases |tokens| - i
    {
      ghost var rest := ParseH(tokens, i, rel, cur, start);
      var x := tokens[i].value;
      if rel {
        x := cur.x + x;
      }
      cur := Point(x, cur.y);
      MoveStep(t, Flip(cur), s0, done + ops);
      RunStep(ParseH(tokens, i0, rel, cur0, start), ops, rest, [Move(Flip(cur))], ParseH(tokens, i + 1, rel, cur, start));
      assert done + ops + [Move(Flip(cur))] == done + (ops + [Move(Flip(cur))]);
      ops := ops + [Move(Flip(cur))];
      i := i + 1;
    }
  }

  /** The numbers after V/v: each one sets (or adds to) y only. */
  method VerticalRun(t: Turtle, tokens: seq<Token>, i0: nat, rel: bool, cur0: Point, start: Point,
                     ghost s0: Pen, ghost done: seq<PenOp>)
    returns (i: nat, cur: Point, ghost ops: seq<PenOp>)
    requires i0 <= |tokens| && t.Valid() && Replayed(t, s0, done)
    modifies t
    ensures t.Valid() && t.color == old(t.color) && t.diameter == old(t.diameter)
    ensures Replayed(t, s0, done + ops)
    ensures RunDone(ParseV(tokens, i0, rel, cur0, start), tokens, i0, i, cur, start, true, ops)
  {
    i, cur, ops := i0, cur0, [];
    assert done + ops == done;
    while i < |tokens| && tokens[i].Number?
      invariant i0 <= i <= |tokens|
      invariant t.Valid() && t.color == old(t.color) && t.diameter == old(t.diameter)
      invariant Replayed(t, s0, done + ops)
      invariant ParseV(tokens, i0, rel, cur0, start) == Prefixed(ops, ParseV(tokens, i, rel, cur, start))
      decreases |tokens| - i
    {
      ghost var rest := ParseV(tokens, i, rel, cur, start);
      var y := tokens[i].value;
      if rel {
        y := cur.y + y;
      }
      cur := Point(cur.x, y);
      MoveStep(t, Flip(cur), s0, done + ops);
      RunStep(ParseV(tokens, i0, rel, cur0, start), ops, rest, [Move(Flip(cur))], ParseV(tokens, i + 1, rel, cur, start));
      assert done + ops + [Move(Flip(cur))] == done + (ops + [Move(Flip(cur))]);
      ops := ops + [Move(Flip(cur))];
      i := i + 1;
    }
  }

  /** The six-number groups after C/c, while six tokens remain: each
      draws ten samples of the curve and ends at its end point. */
  method CurveGroups(t: Turtle, tokens: seq<Token>, i0: nat, rel: bool, cur0: Point, start: Point,
                     ghost s0: Pen, ghost done: seq<PenOp>)
    returns (i: nat, cur: Point, more: bool, ghost ops: seq<PenOp>)
    requires i0 <= |tokens| && t.Valid() && Replayed(t, s0, done)
    modifies t
    ensures t.Valid() && t.color == old(t.color) && t.diameter == old(t.diameter)
    ensures Replayed(t, s0, done + ops)
    ensures RunDone(ParseCurves(tokens, i0, rel, cur0, start), tokens, i0, i, cur, start, more, ops)
  {
    i, cur, ops := i0, cur0, [];
    assert done + ops == done;
    while i + 5 < |tokens| && tokens[i].Number?
      invariant i0 <= i <= |tokens|
      invariant t.Valid() && t.color == old(t.color) && t.diameter == old(t.diameter)
      invariant Replayed(t, s0, done + ops)
      invariant ParseCurves(tokens, i0, rel, cur0, start) == Prefixed(ops, ParseCurves(tokens, i, rel, cur, start))
      decreases |tokens| - i
    {
      if IsLetter(tokens, i + 1) || IsLetter(tokens, i + 2) || IsLetter(tokens, i + 3)
         || IsLetter(tokens, i + 4) || IsLetter(tokens, i + 5) {
        assert ops + [] == ops;
        return i, cur, false, ops;
      }
      ghost var rest := ParseCurves(tokens, i, rel, cur, start);
      var p1 := Offset(cur, tokens[i].value, tokens[i + 1].value, rel);
      var p2 := Offset(cur, tokens[i + 2].value, tokens[i + 3].value, rel);
      var p3 := Offset(cur, tokens[i + 4].value, tokens[i + 5].value, rel);
      SampleCurve(t, cur, p1, p2, p3, s0, done + ops);
      RunStep(ParseCurves(tokens, i0, rel, cur0, start), ops, rest, CurveOps(cur, p1, p2, p3), ParseCurves(tokens, i + 6, rel, p3, start));
      assert done + ops + CurveOps(cur, p1, p2, p3) == done + (ops + CurveOps(cur, p1, p2, p3));
      ops := ops + CurveOps(cur, p1, p2, p3);
      cur := p3;
      i := i + 6;
    }
    more := true;
  }

  /** The inner `for t in ...` loop of a cubic segment. */
  method SampleCurve(t: Turtle, p0: Point, p1: Point, p2: Point, p3: Point, ghost s0: Pen, ghost done: seq<PenOp>)
    requires t.Valid() && Replayed(t, s0, done)
    modifies t
    ensures t.Valid() && t.color == old(t.color) && t.diameter == old(t.diameter)
    ensures Replayed(t, s0, done + CurveOps(p0, p1, p2, p3))
  {
    var k := 1;
    ghost var ops := done;
    assert done + CurveOps(p0, p1, p2, p3)[..0] == done;
    while k <= 10
      invariant 1 <= k <= 11
      invariant t.Valid() && t.color == old(t.color) && t.diameter == old(t.diameter)
      invariant ops == done + CurveOps(p0, p1, p2, p3)[..k - 1] && Replayed(t, s0, ops)
    {
      ops := CurveStep(t, p0, p1, p2, p3, k, s0, done, ops);
      k := k + 1;
    }
    assert CurveOps(p0, p1, p2, p3)[..10] == CurveOps(p0, p1, p2, p3);
  }

  /** One pass of the sampling loop: `move_to` the `k`-th point. */
  method CurveStep(t: Turtle, p0: Point, p1: Point, p2: Point, p3: Point, k: nat,
                   ghost s0: Pen, ghost done: seq<PenOp>, ghost ops: seq<PenOp>)
      returns (ghost ops': seq<PenOp>)
    requires 1 <= k <= 10 && t.Valid()
    requires ops == done + CurveOps(p0, p1, p2, p3)[..k - 1] && Replayed(t, s0, ops)
    modifies t
    ensures t.Valid() && t.color == old(t.color) && t.diameter == old(t.diameter)
    ensures ops' == done + CurveOps(p0, p1, p2, p3)[..k] && Replayed(t, s0, ops')
  {
    var b := CurvePoint(p0, p1, p2, p3, k);
    MoveStep(t, Flip(b), s0, ops);
    ops' := ops + [Move(Flip(b))];
    assert ops' == done + CurveOps(p0, p1, p2, p3)[..k];
  }

  // ---------------------------------------------------------------------
  // Path-data round trip: the `d` attribute `turtle_to_svg` writes for a
  // line parses back into exactly that line
  // ---------------------------------------------------------------------

  /** The tokens of ` L x -y` for each point. */
  function LineTokens(ps: seq<Point>): (r: seq<Token>)
    ensures |r| == 3 * |ps|
  {
    if ps == [] then [] else [Letter('L'), Number(ps[0].x), Number(-ps[0].y)] + LineTokens(ps[1..])
  }

  /** The tokens of the `d` attribute for the points of one line. */
  function PathTokens(pts: seq<Point>): seq<Token>
    requires |pts| >= 1
  {
    [Letter('M'), Number(pts[0].x), Number(-pts[0].y)] + LineTokens(pts[1..])
  }

  /** Drawing a polyline: a jump to its first point, then a move to each
      of the others. */
  function PolylineOps(pts: seq<Point>): (r: seq<PenOp>)
    requires |pts| >= 1
    ensures |r| == |pts|
  {
    [Jump(pts[0])] + seq(|pts| - 1, k requires 0 <= k < |pts| - 1 => Move(pts[k + 1]))
  }

  lemma {:induction false} LineTokensSnoc(ps: seq<Point>, p: Point)
    ensures LineTokens(ps + [p]) == LineTokens(ps) + [Letter('L'), Number(p.x), Number(-p.y)]
    decreases |ps|
  {
    if ps != [] {
      assert (ps + [p])[1..] == ps[1..] + [p];
      LineTokensSnoc(ps[1..], p);
    } else {
      assert ps + [p] == [p];
    }
  }

  /** Token `i` on, an L command per point parses into one move per point. */
  lemma {:induction false} ParseLineTokens(tokens: seq<Token>, i: nat, ps: seq<Point>, cur: Point, start: Point)
    requires i <= |tokens| && tokens[i..] == LineTokens(ps)
    ensures ParseTop(tokens, i, cur, start) == Outcome(seq(|ps|, k requires 0 <= k < |ps| => Move(ps[k])), true)
    decreases |ps|
  {
    if ps == [] {
      assert i == |tokens|;
    } else {
      assert tokens[i] == Letter('L') && tokens[i + 1] == Number(ps[0].x) && tokens[i + 2] == Number(-ps[0].y);
      assert tokens[i + 3..] == LineTokens(ps[1..]) by {
        assert tokens[i + 3..] == tokens[i..][3..];
      }
      var p := Point(ps[0].x, -ps[0].y);
      assert Flip(p) == ps[0];
      ParseLineTokens(tokens, i + 3, ps[1..], p, start);
      var rest := seq(|ps| - 1, k requires 0 <= k < |ps| - 1 => Move(ps[1..][k]));
      assert ParseLines(tokens, i + 3, false, p, start) == ParseTop(tokens, i + 3, p, start);
      assert ParseTop(tokens, i, cur, start) == Prefixed([Move(ps[0])], Outcome(rest, true));
      assert [Move(ps[0])] + rest == seq(|ps|, k requires 0 <= k < |ps| => Move(ps[k]));
    }
  }

  /** The path data of a line parses, from any current point, into the
      moves that draw that line, without error. */
  lemma PathTokensParse(pts: seq<Point>, cur: Point, start: Point)
    requires |pts| >= 1
    ensures ParseTop(PathTokens(pts), 0, cur, start) == Outcome(PolylineOps(pts), true)
  {
    var tokens := PathTokens(pts);
    var p := Point(pts[0].x, -pts[0].y);
    assert Flip(p) == pts[0];
    assert tokens[3..] == LineTokens(pts[1..]);
    ParseLineTokens(tokens, 3, pts[1..], p, p);
    assert ParseMoves(tokens, 3, false, p, p) == ParseTop(tokens, 3, p, p);
    assert ParseTop(tokens, 0, cur, start) == Prefixed([Jump(pts[0])], ParseTop(tokens, 3, p, p));
  }

  /** Replaying the moves of a polyline adds that polyline as one line. */
  lemma {:induction false} PolylineReplay(s: Pen, pts: seq<Point>, color: string, diameter: real)
    requires |s.layers| >= 1 && |pts| >= 1
    ensures Replay(s, PolylineOps(pts), color, diameter)
      == Pen(AddLine(s.layers, Line(pts, color, diameter)), pts[|pts| - 1], false)
    decreases |pts|
  {
    var n := |pts| - 1;
    if n == 0 {
      assert pts == [pts[0]];
      assert PolylineOps(pts) == [] + [Jump(pts[0])];
      ReplaySnoc(s, [], Jump(pts[0]), color, diameter);
    } else {
      PolylineReplay(s, pts[..n], color, diameter);
      PolylineOpsSnoc(pts);
      ReplaySnoc(s, PolylineOps(pts[..n]), Move(pts[n]), color, diameter);
      AddLineThenPoint(s.layers, Line(pts[..n], color, diameter), pts[n]);
      assert pts[..n] + [pts[n]] == pts;
    }
  }

  /** The moves of a polyline are those of all but its last point, then a
      `move_to` the last. */
  lemma PolylineOpsSnoc(pts: seq<Point>)
    requires |pts| >= 2
    ensures PolylineOps(pts) == PolylineOps(pts[..|pts| - 1]) + [Move(pts[|pts| - 1])]
  {
  }

  /** Parsing the path data written for a line into a turtle adds
      exactly that line, in the turtle's stroke. */
  lemma PathDataRoundTrip(s: Pen, pts: seq<Point>, color: string, diameter: real)
    requires |s.layers| >= 1 && |pts| >= 1
    ensures PathOutcome(PathTokens(pts)).ok
    ensures Replay(s, PathOutcome(PathTokens(pts)).ops, color, diameter).layers
      == AddLine(s.layers, Line(pts, color, diameter))
  {
    PathTokensParse(pts, Origin, Origin);
    PolylineReplay(s, pts, color, diameter);
  }

  // ---------------------------------------------------------------------
  // SVG emission (`turtle_to_svg`)
  // ---------------------------------------------------------------------

  function TokenText(tok: Token, repr: real -> string): string {
    match tok
    case Letter(c) => [c]
    case Number(v) => repr(v)
  }

  function Texts(tokens: seq<Token>, repr: real -> string): (r: seq<string>)
    ensures |r| == |tokens|
  {
    seq(|tokens|, k requires 0 <= k < |tokens| => TokenText(tokens[k], repr))
  }

  /** The `d` attribute as `turtle_to_svg` builds it: "M x -y", then
      " L x -y" for each further point. */
  function PathData(pts: seq<Point>, repr: real -> string): string
    requires |pts| >= 1
  {
    if |pts| == 1 then "M " + repr(pts[0].x) + " " + repr(-pts[0].y)
    else
      var p := pts[|pts| - 1];
      PathData(pts[..|pts| - 1], repr) + " L " + repr(p.x) + " " + repr(-p.y)
  }

  lemma TextsAppend(a: seq<Token>, b: seq<Token>, repr: real -> string)
    ensures Texts(a + b, repr) == Texts(a, repr) + Texts(b, repr)
  {
  }

  /** The `d` attribute is the path tokens written out and separated by
      single spaces. */
  lemma {:induction false} PathDataTokens(pts: seq<Point>, repr: real -> string)
    requires |pts| >= 1
    ensures PathData(pts, repr) == Join(Texts(PathTokens(pts), repr), " ")
    decreases |pts|
  {
    var n := |pts| - 1;
    if n == 0 {
      PathDataFirst(pts, repr);
    } else {
      PathDataTokens(pts[..n], repr);
      PathDataStep(pts, repr);
    }
  }

  /** A further point adds " L x -y" to the data and its three tokens. */
  lemma {:induction false} PathDataStep(pts: seq<Point>, repr: real -> string)
    requires |pts| >= 2
    requires PathData(pts[..|pts| - 1], repr) == Join(Texts(PathTokens(pts[..|pts| - 1]), repr), " ")
    ensures PathData(pts, repr) == Join(Texts(PathTokens(pts), repr), " ")
  {
    var n := |pts| - 1;
    var p := pts[n];
    var a := PathTokens(pts[..n]);
    var tail := [Letter('L'), Number(p.x), Number(-p.y)];
    PathTokensSnoc(pts, n);
    TextsAppend(a, tail, repr);
    assert Texts(tail, repr) == ["L", repr(p.x), repr(-p.y)];
    LineWords(Texts(a, repr), "L", repr(p.x), repr(-p.y));
  }

  lemma PathDataFirst(pts: seq<Point>, repr: real -> string)
    requires |pts| == 1
    ensures PathData(pts, repr) == Join(Texts(PathTokens(pts), repr), " ")
  {
    FirstTokens(pts, repr);
    ThreeWords("M", repr(pts[0].x), repr(-pts[0].y));
  }

  lemma FirstTokens(pts: seq<Point>, repr: real -> string)
    requires |pts| == 1
    ensures Texts(PathTokens(pts), repr) == ["M", repr(pts[0].x), repr(-pts[0].y)]
  {
    assert pts[1..] == [];
    assert PathTokens(pts) == [Letter('M'), Number(pts[0].x), Number(-pts[0].y)];
  }

  lemma ThreeWords(a: string, b: string, c: string)
    ensures Join([a, b, c], " ") == a + " " + b + " " + c
  {
    assert [a] + [b, c] == [a, b, c] && [b] + [c] == [b, c];
    JoinCons(a, [b, c], " ");
    JoinCons(b, [c], " ");
    assert a + " " + (b + " " + c) == a + " " + b + " " + c;
  }

  lemma PathTokensSnoc(pts: seq<Point>, n: nat)
    requires n == |pts| - 1 && n >= 1
    ensures PathTokens(pts) == PathTokens(pts[..n]) + [Letter('L'), Number(pts[n].x), Number(-pts[n].y)]
  {
    assert pts[..n][1..] + [pts[n]] == pts[1..];
    LineTokensSnoc(pts[..n][1..], pts[n]);
  }

  lemma LineWords(words: seq<string>, a: string, b: string, c: string)
    requires words != []
    ensures Join(words + [a, b, c], " ") == Join(words, " ") + " " + a + " " + b + " " + c
  {
    assert words + [a, b, c] == words + [a] + [b] + [c];
    JoinSnoc(words, a, " ");
    JoinSnoc(words + [a], b, " ");
    JoinSnoc(words + [a] + [b], c, " ");
  }

  const XmlHeader := "<?xml version=\"1.0\" encoding=\"UTF-8\"?>"

  /** The `<svg>` element: the bounds with 10 units of padding on every
      side, y flipped. */
  function SvgOpen(b: Bounds, repr: real -> string): string {
    var width := b.width + 20.0;
    var height := b.height + 20.0;
    "<svg xmlns=\"http://www.w3.org/2000/svg\" viewBox=\""
      + repr(b.minX - 10.0) + " " + repr(-b.maxY - 10.0) + " " + repr(width) + " " + repr(height)
      + "\" width=\"" + repr(width) + "mm\" height=\"" + repr(height) + "mm\">"
  }

  function PathElement(p: Path, repr: real -> string): string
    requires |p.points| >= 1
  {
    "<path d=\"" + PathData(p.points, repr) + "\" stroke=\"" + p.color
      + "\" stroke-width=\"" + repr(p.diameter) + "\" fill=\"none\"/>"
  }

  /** Every path `get_paths` reports has at least two points. */
  lemma {:induction false} PathsLong(layers: seq<StrokeLayer>)
    ensures forall k :: 0 <= k < |Paths(layers)| ==> |Paths(layers)[k].points| >= 2
    decreases |layers|
  {
    if layers != [] {
      PathsLong(layers[..|layers| - 1]);
      PathsInLong(Current(layers).lines, Current(layers).color, Current(layers).diameter);
    }
  }

  lemma {:induction false} PathsInLong(lines: seq<Line>, color: string, diameter: real)
    ensures forall k :: 0 <= k < |PathsIn(lines, color, diameter)| ==> |PathsIn(lines, color, diameter)[k].points| >= 2
    decreases |lines|
  {
    if lines != [] {
      PathsInLong(lines[..|lines| - 1], color, diameter);
    }
  }

  function PathElements(paths: seq<Path>, repr: real -> string): (r: seq<string>)
    requires forall k :: 0 <= k < |paths| ==> |paths[k].points| >= 1
    ensures |r| == |paths|
  {
    seq(|paths|, k requires 0 <= k < |paths| => PathElement(paths[k], repr))
  }

  /** The lines of the document `turtle_to_svg` returns, before they are
      joined with newlines. */
  function SvgLines(layers: seq<StrokeLayer>, repr: real -> string): seq<string> {
    PathsLong(layers);
    [XmlHeader, SvgOpen(BoundsOf(layers), repr)] + PathElements(Paths(layers), repr) + ["</svg>"]
  }

  lemma PathElementsSnoc(paths: seq<Path>, p: Path, repr: real -> string)
    requires forall k :: 0 <= k < |paths| ==> |paths[k].points| >= 1
    requires |p.points| >= 1
    ensures PathElements(paths + [p], repr) == PathElements(paths, repr) + [PathElement(p, repr)]
  {
  }

  /** One `<path>` element of `turtle_to_svg`. */
  method LineElement(pts: seq<Point>, color: string, diameter: real, repr: real -> string)
    returns (element: string)
    requires |pts| >= 1
    ensures element == PathElement(Path(pts, color, diameter), repr)
  {
    var d := PathData(pts[..1], repr);
    var k := 1;
    while k < |pts|
      invariant 1 <= k <= |pts|
      invariant d == PathData(pts[..k], repr)
    {
      var p := pts[k];
      assert pts[..k + 1][..k] == pts[..k];
      d := d + " L " + repr(p.x) + " " + repr(-p.y);
      k := k + 1;
    }
    assert pts[..k] == pts;
    element := "<path d=\"" + d + "\" stroke=\"" + color
      + "\" stroke-width=\"" + repr(diameter) + "\" fill=\"none\"/>";
  }

  /** `turtle_to_svg`. */
  method TurtleToSvg(t: Turtle, repr: real -> string) returns (svg: string)
    ensures svg == Join(SvgLines(t.layers, repr), "\n")
  {
    var bounds := t.GetBounds();
    var head := [XmlHeader, SvgOpen(bounds, repr)];
    var parts := head;
    ghost var paths: seq<Path> := [];
    var i := 0;
    while i < |t.layers|
      invariant 0 <= i <= |t.layers|
      invariant paths == Paths(t.layers[..i])
      invariant forall k :: 0 <= k < |paths| ==> |paths[k].points| >= 1
      invariant parts == head + PathElements(paths, repr)
    {
      parts, paths := LayerElements(t.layers[i], repr, head, parts, paths);
      PathsPrefix(t.layers, i);
      i := i + 1;
    }
    assert t.layers[..i] == t.layers;
    assert parts + ["</svg>"] == SvgLines(t.layers, repr);
    svg := Join(parts + ["</svg>"], "\n");
  }

  /** One more layer adds its own paths after those of the layers before. */
  lemma PathsPrefix(layers: seq<StrokeLayer>, i: nat)
    requires i < |layers|
    ensures Paths(layers[..i + 1]) == Paths(layers[..i]) + PathsIn(layers[i].lines, layers[i].color, layers[i].diameter)
  {
    assert layers[..i + 1][..i] == layers[..i];
  }

  /** The inner loop of `turtle_to_svg`: one `<path>` per polyline of the
      layer that has at least two points. */
  method LayerElements(layer: StrokeLayer, repr: real -> string, ghost head: seq<string>,
                       parts0: seq<string>, ghost paths0: seq<Path>)
    returns (parts: seq<string>, ghost paths: seq<Path>)
    requires forall k :: 0 <= k < |paths0| ==> |paths0[k].points| >= 1
    requires parts0 == head + PathElements(paths0, repr)
    ensures paths == paths0 + PathsIn(layer.lines, layer.color, layer.diameter)
    ensures forall k :: 0 <= k < |paths| ==> |paths[k].points| >= 1
    ensures parts == head + PathElements(paths, repr)
  {
    parts, paths := parts0, paths0;
    var j := 0;
    while j < |layer.lines|
      invariant 0 <= j <= |layer.lines|
      invariant paths == paths0 + PathsIn(layer.lines[..j], layer.color, layer.diameter)
      invariant forall k :: 0 <= k < |paths| ==> |paths[k].points| >= 1
      invariant parts == head + PathElements(paths, repr)
    {
      parts, paths := LineElementStep(layer, j, repr, head, paths0, parts, paths);
      j := j + 1;
    }
    assert layer.lines[..j] == layer.lines;
  }

  /** One pass of the inner loop: a `<path>` for the `j`-th line when it
      has at least two points. */
  method LineElementStep(layer: StrokeLayer, j: nat, repr: real -> string, ghost head: seq<string>,
                         ghost paths0: seq<Path>, parts0: seq<string>, ghost pathsBefore: seq<Path>)
    returns (parts: seq<string>, ghost paths: seq<Path>)
    requires j < |layer.lines|
    requires pathsBefore == paths0 + PathsIn(layer.lines[..j], layer.color, layer.diameter)
    requires forall k :: 0 <= k < |pathsBefore| ==> |pathsBefore[k].points| >= 1
    requires parts0 == head + PathElements(pathsBefore, repr)
    ensures paths == paths0 + PathsIn(layer.lines[..j + 1], layer.color, layer.diameter)
    ensures forall k :: 0 <= k < |paths| ==> |paths[k].points| >= 1
    ensures parts == head + PathElements(paths, repr)
  {
    var line := layer.lines[j];
    assert layer.lines[..j + 1][..j] == layer.lines[..j];
    parts, paths := parts0, pathsBefore;
    if |line.points| < 2 {
      return;
    }
    var element := LineElement(line.points, layer.color, layer.diameter, repr);
    ghost var path := Path(line.points, layer.color, layer.diameter);
    PathElementsSnoc(pathsBefore, path, repr);
    parts := parts0 + [element];
    paths := pathsBefore + [path];
  }


  /** The document is the header, the `<svg>` element, one `<path>` per
      line with at least two points, in layer-then-line order and with the
      stroke of its layer, and the closing tag (`PathDataRoundTrip` says
      that each `d` attribute parses back as its line). */
  lemma SvgShape(layers: seq<StrokeLayer>, repr: real -> string)
    ensures var lines := SvgLines(layers, repr);
      && |lines| == |Paths(layers)| + 3
      && lines[0] == XmlHeader
      && lines[1] == SvgOpen(BoundsOf(layers), repr)
      && lines[|lines| - 1] == "</svg>"
      && forall k :: 0 <= k < |Paths(layers)| ==>
           |Paths(layers)[k].points| >= 2 && lines[k + 2] == PathElement(Paths(layers)[k], repr)
  {
    PathsLong(layers);
    var ps := Paths(layers);
    var es := PathElements(ps, repr);
    Framed(XmlHeader, SvgOpen(BoundsOf(layers), repr), es, "</svg>");
  }

  /** Where the lines of a document framed by two opening lines and one
      closing line stand. */
  lemma Framed(a: string, b: string, es: seq<string>, c: string)
    ensures var lines := [a, b] + es + [c];
      && |lines| == |es| + 3
      && lines[0] == a && lines[1] == b && lines[|lines| - 1] == c
      && forall k :: 0 <= k < |es| ==> lines[k + 2] == es[k]
  {
  }

  // ---------------------------------------------------------------------
  // DXF reading (`_load_dxf`)
  // ---------------------------------------------------------------------

  datatype Entity =
    | LineEntity(x1: real, y1: real, x2: real, y2: real)
    | CircleEntity(cx: real, cy: real, radius: real)

  /** The group codes a LINE reads (start x, start y, end x, end y) and
      those a CIRCLE reads (centre x, centre y, radius). */
  const LineCodes: seq<string> := ["10", "20", "11", "21"]
  const CircleCodes: seq<string> := ["10", "20", "40"]

  /** Where `code` stands in `codes`; `|codes|` when it is not there. */
  function FieldOf(codes: seq<string>, code: string): (k: nat)
    ensures k <= |codes|
    ensures k < |codes| ==> codes[k] == code
    ensures k == |codes| <==> code !in codes
  {
    if codes == [] then 0
    else if codes[0] == code then 0
    else 1 + FieldOf(codes[1..], code)
  }

  function Zeros(n: nat): (r: seq<real>)
    ensures |r| == n && forall k :: 0 <= k < n ==> r[k] == 0.0
  {
    seq(n, _ => 0.0)
  }

  /** The group-code loop of one entity, from line `i`: (code, value) line
      pairs are read until a line that strips to "0" or the end of the
      file; a value under `codes[k]` sets field `k`, and one that does not
      parse as a number is an error. A code on the last line ends the loop
      past the end. Yields where the loop stopped and the fields. */
  function ReadGroups(lines: seq<string>, i: nat, codes: seq<string>, fields: seq<real>,
                      parse: string -> Option<real>): (r: Result<(nat, seq<real>)>)
    requires i <= |lines| && |fields| == |codes|
    ensures r.Ok? ==> i <= r.value.0 <= |lines| && |r.value.1| == |codes|
    ensures r.Ok? && r.value.0 < |lines| ==> Strip(lines[r.value.0]) == "0"
    ensures r.Ok? && i < |lines| && Strip(lines[i]) != "0" ==> i < r.value.0
    decreases |lines| - i
  {
    if i == |lines| || Strip(lines[i]) == "0" then Ok((i, fields))
    else if i + 1 == |lines| then Ok((i + 1, fields))
    else
      var k := FieldOf(codes, Strip(lines[i]));
      var value := Strip(lines[i + 1]);
      if k == |codes| then ReadGroups(lines, i + 2, codes, fields, parse)
      else
        match parse(value)
        case None => Err("could not convert string to float: '" + value + "'")
        case Some(v) => ReadGroups(lines, i + 2, codes, fields[k := v], parse)
  }

  function MakeEntity(isLine: bool, f: seq<real>): Entity
    requires |f| == if isLine then 4 else 3
  {
    if isLine then LineEntity(f[0], f[1], f[2], f[3]) else CircleEntity(f[0], f[1], f[2])
  }

  function Prepend(es: seq<Entity>, r: Result<seq<Entity>>): Result<seq<Entity>> {
    match r
    case Ok(rest) => Ok(es + rest)
    case Err(m) => Err(m)
  }

  /** The entities of the file from line `i` on, in order, or the first
      number that does not parse. With `fromName` the group-code loop of an
      entity starts on its LINE or CIRCLE line, as `_load_dxf` is written;
      without, on the line after it. */
  function Entities(lines: seq<string>, i: nat, parse: string -> Option<real>, fromName: bool)
    : Result<seq<Entity>>
    requires i <= |lines|
    decreases |lines| - i
  {
    if i == |lines| then Ok([])
    else
      var name := Strip(lines[i]);
      if name == "LINE" || name == "CIRCLE" then
        var codes := if name == "LINE" then LineCodes else CircleCodes;
        var r := ReadGroups(lines, if fromName then i else i + 1, codes, Zeros(|codes|), parse);
        if r.Err? then Err(r.message)
        else
          var e := MakeEntity(name == "LINE", r.value.1);
          assert i < r.value.0 by {
            if fromName { assert name != "0"; }
          }
          Prepend([e], Entities(lines, r.value.0, parse, fromName))
      else Entities(lines, i + 1, parse, fromName)
  }

  /** The points `draw_circle` visits: 37 steps round the centre, where
      `unit[k]` stands for (cos, sin) of the k-th angle. */
  function CirclePoints(cx: real, cy: real, radius: real, unit: seq<Point>): (r: seq<Point>)
    ensures |r| == |unit|
  {
    seq(|unit|, k requires 0 <= k < |unit| => Point(cx + unit[k].x * radius, cy + unit[k].y * radius))
  }

  /** The line an entity draws. */
  function EntityLine(e: Entity, unit: seq<Point>, color: string, diameter: real): Line {
    match e
    case LineEntity(x1, y1, x2, y2) => Line([Point(x1, y1), Point(x2, y2)], color, diameter)
    case CircleEntity(cx, cy, r) => Line(CirclePoints(cx, cy, r, unit), color, diameter)
  }

  function EntityLines(es: seq<Entity>, unit: seq<Point>, color: string, diameter: real): (r: seq<Line>)
    ensures |r| == |es|
  {
    seq(|es|, k requires 0 <= k < |es| => EntityLine(es[k], unit, color, diameter))
  }

  /** What `_load_dxf` has drawn, before centring, for the entities `es`. */
  function DxfDrawing(es: seq<Entity>, unit: seq<Point>): seq<StrokeLayer> {
    AddLines([StrokeLayer([], DefaultColor, 1.0)], EntityLines(es, unit, DefaultColor, 1.0))
  }

  /** A DXF file draws one line per entity, in file order, in the single
      layer of the default stroke. */
  lemma DxfDrawingShape(es: seq<Entity>, unit: seq<Point>)
    ensures DxfDrawing(es, unit) == [StrokeLayer(EntityLines(es, unit, DefaultColor, 1.0), DefaultColor, 1.0)]
  {
    var ls := EntityLines(es, unit, DefaultColor, 1.0);
    AddLinesSpec([StrokeLayer([], DefaultColor, 1.0)], ls);
    var r := DxfDrawing(es, unit);
    assert r == r[..0] + [Current(r)];
    assert [] + ls == ls;
  }

  /** The inner loop of `_load_dxf` for one entity. */
  method ReadGroupLoop(lines: seq<string>, from: nat, codes: seq<string>, parse: string -> Option<real>)
    returns (r: Result<(nat, seq<real>)>)
    requires from <= |lines|
    ensures r == ReadGroups(lines, from, codes, Zeros(|codes|), parse)
  {
    var fields := Zeros(|codes|);
    var i := from;
    while i < |lines| && Strip(lines[i]) != "0"
      invariant from <= i <= |lines| && |fields| == |codes|
      invariant ReadGroups(lines, from, codes, Zeros(|codes|), parse) == ReadGroups(lines, i, codes, fields, parse)
      decreases |lines| - i
    {
      var code := Strip(lines[i]);
      i := i + 1;
      if i >= |lines| {
        break;
      }
      var value := Strip(lines[i]);
      var k := FieldOf(codes, code);
      if k < |codes| {
        var v := parse(value);
        if v.None? {
          return Err("could not convert string to float: '" + value + "'");
        }
        fields := fields[k := v.value];
      }
      i := i + 1;
    }
    return Ok((i, fields));
  }

  /** `draw_circle`: a jump to the first point and a move to each other. */
  method DrawCircle(t: Turtle, cx: real, cy: real, radius: real, unit: seq<Point>)
    requires t.Valid() && |unit| >= 1
    modifies t
    ensures t.Valid() && t.color == old(t.color) && t.diameter == old(t.diameter)
    ensures t.layers == AddLine(old(t.layers), Line(CirclePoints(cx, cy, radius, unit), t.color, t.diameter))
  {
    var pts := CirclePoints(cx, cy, radius, unit);
    ghost var before := t.layers;
    t.JumpTo(pts[0].x, pts[0].y);
    assert pts[..1] == [pts[0]];
    var k := 1;
    while k < |unit|
      invariant 1 <= k <= |unit|
      invariant t.Valid() && !t.penUp && t.color == old(t.color) && t.diameter == old(t.diameter)
      invariant t.layers == AddLine(before, Line(pts[..k], t.color, t.diameter))
    {
      CirclePoint(t, pts, k, before);
      k := k + 1;
    }
    assert pts[..k] == pts;
  }

  /** One pass of the point loop of `draw_circle`: the line so far gains
      the next point. */
  method CirclePoint(t: Turtle, pts: seq<Point>, k: nat, ghost before: seq<StrokeLayer>)
    requires 1 <= k < |pts| && |before| >= 1
    requires t.Valid() && !t.penUp && t.layers == AddLine(before, Line(pts[..k], t.color, t.diameter))
    modifies t`layers, t`position
    ensures t.Valid() && !t.penUp
    ensures t.layers == AddLine(before, Line(pts[..k + 1], t.color, t.diameter))
  {
    t.MoveTo(pts[k].x, pts[k].y);
    AddLineThenPoint(before, Line(pts[..k], t.color, t.diameter), pts[k]);
    assert pts[..k] + [pts[k]] == pts[..k + 1];
  }

  /** The reading loop of `_load_dxf`, reading each entity's group codes
      from the line after its name (see the findings in the README): a
      fresh turtle with every entity drawn, or the first number that does
      not parse. */
  method DrawDxf(lines: seq<string>, parse: string -> Option<real>, unit: seq<Point>)
    returns (t: Turtle, failure: Option<string>)
    requires |unit| == 37
    ensures fresh(t) && t.Valid()
    ensures failure.None? <==> Entities(lines, 0, parse, false).Ok?
    ensures failure.Some? ==> failure.value == Entities(lines, 0, parse, false).message
    ensures failure.None? ==> t.layers == DxfDrawing(Entities(lines, 0, parse, false).value, unit)
  {
    t := new Turtle(DefaultColor, 1.0);
    ghost var es: seq<Entity> := [];
    var i := 0;
    assert Entities(lines, 0, parse, false) == Prepend(es, Entities(lines, 0, parse, false)) by {
      var whole := Entities(lines, 0, parse, false);
      if whole.Ok? {
        assert [] + whole.value == whole.value;
      }
    }
    DxfDrawingShape([], unit);
    while i < |lines|
      invariant i <= |lines|
      invariant fresh(t) && t.Valid() && t.color == DefaultColor && t.diameter == 1.0
      invariant t.layers == DxfDrawing(es, unit)
      invariant Entities(lines, 0, parse, false) == Prepend(es, Entities(lines, i, parse, false))
      decreases |lines| - i
    {
      var failure: Option<string>;
      i, failure, es := EntityAt(t, lines, i, parse, unit, es);
      if failure.Some? {
        return t, failure;
      }
    }
    assert es + [] == es;
    return t, None;
  }

  /** The entities of a DXF file, read as `_load_dxf` evidently intends. */
  function DxfEntities(content: string, parse: string -> Option<real>): Result<seq<Entity>> {
    Entities(SplitOn(content, '\n'), 0, parse, false)
  }

  /** `center_on(0, 0)`: the drawing moved so its box is centred on the origin. */
  function CentredOnOrigin(layers: seq<StrokeLayer>): seq<StrokeLayer> {
    var b := BoundsOf(layers);
    MapLayers(layers, Shift(0.0 - (b.minX + b.maxX) / 2.0, 0.0 - (b.minY + b.maxY) / 2.0))
  }

  /** After centring, the bounds of a drawing with points have their
      centre at the origin and keep their extents. */
  lemma CentredOnOriginBounds(layers: seq<StrokeLayer>)
    requires PointTotal(layers) > 0
    ensures var b, c := BoundsOf(layers), BoundsOf(CentredOnOrigin(layers));
      c.minX + c.maxX == 0.0 && c.minY + c.maxY == 0.0 && c.width == b.width && c.height == b.height
  {
    CenteredOn(layers, 0.0, 0.0);
  }

  /** One pass of the outer loop of `_load_dxf` from line `i`: a LINE or
      CIRCLE line is read and drawn, any other line skipped. */
  method EntityAt(t: Turtle, lines: seq<string>, i: nat, parse: string -> Option<real>, unit: seq<Point>,
                  ghost es: seq<Entity>)
    returns (next: nat, failure: Option<string>, ghost es': seq<Entity>)
    requires i < |lines| && |unit| == 37
    requires t.Valid() && t.color == DefaultColor && t.diameter == 1.0
    requires t.layers == DxfDrawing(es, unit)
    modifies t
    ensures t.Valid() && t.color == DefaultColor && t.diameter == 1.0
    ensures failure.Some? ==> Prepend(es, Entities(lines, i, parse, false)) == Err(failure.value)
    ensures failure.None? ==> i < next <= |lines| && t.layers == DxfDrawing(es', unit)
    ensures failure.None? ==>
      Prepend(es, Entities(lines, i, parse, false)) == Prepend(es', Entities(lines, next, parse, false))
  {
    var name := Strip(lines[i]);
    if name == "LINE" || name == "CIRCLE" {
      var codes := if name == "LINE" then LineCodes else CircleCodes;
      var read := ReadGroupLoop(lines, i + 1, codes, parse);
      EntityStep(lines, i, parse, read);
      if read.Err? {
        return i, Some(read.message), es;
      }
      var e := MakeEntity(name == "LINE", read.value.1);
      DrawEntity(t, e, unit);
      DxfDrawingSnoc(es, e, unit);
      PrependAssoc(es, e, Entities(lines, read.value.0, parse, false));
      return read.value.0, None, es + [e];
    }
    return i + 1, None, es;
  }

  /** `_load_dxf`: the file split at newlines, read and drawn, then
      centred on the origin. */
  method LoadDxf(content: string, parse: string -> Option<real>, unit: seq<Point>)
    returns (r: Result<Turtle>)
    requires |unit| == 37
    ensures r.Ok? <==> DxfEntities(content, parse).Ok?
    ensures r.Err? ==> r.message == DxfEntities(content, parse).message
    ensures r.Ok? ==> fresh(r.value) && r.value.Valid()
    ensures r.Ok? ==> r.value.layers == CentredOnOrigin(DxfDrawing(DxfEntities(content, parse).value, unit))
  {
    var lines := SplitOn(content, '\n');
    var t, failure := DrawDxf(lines, parse, unit);
    if failure.Some? {
      return Err(failure.value);
    }
    CentreOnOrigin(t);
    return Ok(t);
  }

  /** `center_on(0, 0)`. */
  method CentreOnOrigin(t: Turtle)
    requires t.Valid()
    modifies t
    ensures t.Valid() && t.layers == CentredOnOrigin(old(t.layers))
  {
    t.CenterOn(0.0, 0.0);
  }

  /** The entity at a LINE or CIRCLE line, read from the line after it. */
  lemma EntityStep(lines: seq<string>, i: nat, parse: string -> Option<real>, read: Result<(nat, seq<real>)>)
    requires i < |lines| && (Strip(lines[i]) == "LINE" || Strip(lines[i]) == "CIRCLE")
    requires var codes := if Strip(lines[i]) == "LINE" then LineCodes else CircleCodes;
      read == ReadGroups(lines, i + 1, codes, Zeros(|codes|), parse)
    ensures read.Err? ==> Entities(lines, i, parse, false) == Err(read.message)
    ensures read.Ok? ==> i < read.value.0 <= |lines|
    ensures read.Ok? ==> |read.value.1| == (if Strip(lines[i]) == "LINE" then 4 else 3)
    ensures read.Ok? ==>
      (Entities(lines, i, parse, false)
         == Prepend([MakeEntity(Strip(lines[i]) == "LINE", read.value.1)], Entities(lines, read.value.0, parse, false)))
  {
  }

  /** `draw_line` for a LINE, `draw_circle` for a CIRCLE. */
  method DrawEntity(t: Turtle, e: Entity, unit: seq<Point>)
    requires t.Valid() && |unit| >= 1
    modifies t
    ensures t.Valid() && t.color == old(t.color) && t.diameter == old(t.diameter)
    ensures t.layers == AddLine(old(t.layers), EntityLine(e, unit, t.color, t.diameter))
  {
    if e.LineEntity? {
      t.DrawLine(e.x1, e.y1, e.x2, e.y2);
    } else {
      DrawCircle(t, e.cx, e.cy, e.radius, unit);
    }
  }

  lemma DxfDrawingSnoc(es: seq<Entity>, e: Entity, unit: seq<Point>)
    ensures DxfDrawing(es + [e], unit)
      == AddLine(DxfDrawing(es, unit), EntityLine(e, unit, DefaultColor, 1.0))
  {
    var ls := EntityLines(es + [e], unit, DefaultColor, 1.0);
    assert ls[..|ls| - 1] == EntityLines(es, unit, DefaultColor, 1.0);
  }

  lemma PrependAssoc(es: seq<Entity>, e: Entity, r: Result<seq<Entity>>)
    ensures Prepend(es, Prepend([e], r)) == Prepend(es + [e], r)
  {
    if r.Ok? {
      assert es + ([e] + r.value) == (es + [e]) + r.value;
    }
  }

  /** The twelve lines of a LINE record for (x1, y1)-(x2, y2), followed
      by the end of the section. */
  function LineRecord(x1: real, y1: real, x2: real, y2: real, repr: real -> string): seq<string> {
    ["0", "LINE", "10", repr(x1), "20", repr(y1), "11", repr(x2), "21", repr(y2), "0", "EOF"]
  }

  /** One (code, value) pair whose code is `codes[k]` and whose value reads as `v`. */
  lemma GroupStep(lines: seq<string>, i: nat, codes: seq<string>, fields: seq<real>,
                  parse: string -> Option<real>, k: nat, v: real)
    requires i + 1 < |lines| && |fields| == |codes|
    requires Strip(lines[i]) != "0" && FieldOf(codes, Strip(lines[i])) == k < |codes|
    requires parse(Strip(lines[i + 1])) == Some(v)
    ensures ReadGroups(lines, i, codes, fields, parse) == ReadGroups(lines, i + 2, codes, fields[k := v], parse)
  {
  }

  lemma LineCodeFields()
    ensures FieldOf(LineCodes, "10") == 0 && FieldOf(LineCodes, "20") == 1
    ensures FieldOf(LineCodes, "11") == 2 && FieldOf(LineCodes, "21") == 3
  {
  }

  /** `repr(v)` has no surrounding whitespace and parses back as `v`. */
  predicate ReadsBack(repr: real -> string, parse: string -> Option<real>, v: real) {
    Strip(repr(v)) == repr(v) && parse(repr(v)) == Some(v)
  }

  /** The fields read so far after `k` pairs of a LINE record. */
  function Partial(vals: seq<real>, k: nat): (f: seq<real>)
    requires k <= |vals| == 4
    ensures |f| == 4
  {
    vals[..k] + Zeros(4 - k)
  }

  /** The `k`-th pair of a LINE record sets field `k`. */
  lemma RecordStep(x1: real, y1: real, x2: real, y2: real,
                   repr: real -> string, parse: string -> Option<real>, k: nat)
    requires k < 4 && ReadsBack(repr, parse, [x1, y1, x2, y2][k])
    ensures var lines := LineRecord(x1, y1, x2, y2, repr);
      var vals := [x1, y1, x2, y2];
      ReadGroups(lines, 2 + 2 * k, LineCodes, Partial(vals, k), parse)
        == ReadGroups(lines, 4 + 2 * k, LineCodes, Partial(vals, k + 1), parse)
  {
    var lines := LineRecord(x1, y1, x2, y2, repr);
    var vals := [x1, y1, x2, y2];
    RecordAt(x1, y1, x2, y2, repr, k);
    StripPlain(LineCodes[k]);
    LineCodeFields();
    GroupStep(lines, 2 + 2 * k, LineCodes, Partial(vals, k), parse, k, vals[k]);
    PartialStep(vals, k);
  }

  /** The code and the value of the `k`-th pair of a LINE record. */
  lemma RecordAt(x1: real, y1: real, x2: real, y2: real, repr: real -> string, k: nat)
    requires k < 4
    ensures var lines := LineRecord(x1, y1, x2, y2, repr);
      |lines| == 12 && lines[2 + 2 * k] == LineCodes[k] && lines[3 + 2 * k] == repr([x1, y1, x2, y2][k])
  {
  }

  lemma PartialStep(vals: seq<real>, k: nat)
    requires k < |vals| == 4
    ensures Partial(vals, k)[k := vals[k]] == Partial(vals, k + 1)
  {
    assert vals[..k + 1] == vals[..k] + [vals[k]];
  }

  lemma RecordGroups(x1: real, y1: real, x2: real, y2: real,
                     repr: real -> string, parse: string -> Option<real>)
    requires ReadsBack(repr, parse, x1) && ReadsBack(repr, parse, y1)
    requires ReadsBack(repr, parse, x2) && ReadsBack(repr, parse, y2)
    ensures ReadGroups(LineRecord(x1, y1, x2, y2, repr), 2, LineCodes, Zeros(4), parse)
      == Ok((10, [x1, y1, x2, y2]))
  {
    var vals := [x1, y1, x2, y2];
    assert vals[0] == x1 && vals[1] == y1 && vals[2] == x2 && vals[3] == y2;
    RecordStep(x1, y1, x2, y2, repr, parse, 0);
    RecordStep(x1, y1, x2, y2, repr, parse, 1);
    RecordStep(x1, y1, x2, y2, repr, parse, 2);
    RecordStep(x1, y1, x2, y2, repr, parse, 3);
    GroupsEnd(x1, y1, x2, y2, repr, parse);
    assert Partial(vals, 0) == Zeros(4);
  }

  /** After its four pairs a LINE record stops at the `0` line. */
  lemma GroupsEnd(x1: real, y1: real, x2: real, y2: real, repr: real -> string, parse: string -> Option<real>)
    ensures ReadGroups(LineRecord(x1, y1, x2, y2, repr), 10, LineCodes, Partial([x1, y1, x2, y2], 4), parse)
      == Ok((10, [x1, y1, x2, y2]))
  {
    assert LineRecord(x1, y1, x2, y2, repr)[10] == "0";
    StripPlain("0");
    assert Partial([x1, y1, x2, y2], 4) == [x1, y1, x2, y2];
  }

  /** Read from the line after its name, a LINE record written with
      numbers that read back reads as exactly that segment. */
  lemma LineRecordRoundTrip(x1: real, y1: real, x2: real, y2: real,
                            repr: real -> string, parse: string -> Option<real>)
    requires forall v :: ReadsBack(repr, parse, v)
    ensures Entities(LineRecord(x1, y1, x2, y2, repr), 0, parse, false) == Ok([LineEntity(x1, y1, x2, y2)])
  {
    var lines := LineRecord(x1, y1, x2, y2, repr);
    var e := LineEntity(x1, y1, x2, y2);
    assert lines[0] == "0" && lines[1] == "LINE";
    StripPlain("0");
    StripPlain("LINE");
    RecordGroups(x1, y1, x2, y2, repr, parse);
    LineEntityAt(lines, 1, parse, false, 10, [x1, y1, x2, y2]);
    RecordEnd(x1, y1, x2, y2, repr, parse);
    NoEntityAt(lines, 0, parse, false);
    assert [e] + [] == [e];
  }

  /** After the record, its closing "0" and "EOF" hold no entity. */
  lemma RecordEnd(x1: real, y1: real, x2: real, y2: real,
                  repr: real -> string, parse: string -> Option<real>)
    ensures Entities(LineRecord(x1, y1, x2, y2, repr), 10, parse, false) == Ok([])
  {
    var lines := LineRecord(x1, y1, x2, y2, repr);
    StripPlain("0");
    StripPlain("EOF");
    assert lines[10] == "0" && lines[11] == "EOF";
    assert Entities(lines, 12, parse, false) == Ok([]);
    assert Entities(lines, 11, parse, false) == Ok([]);
  }

  /** The literal lines of the DXF examples strip to themselves. */
  lemma PlainLiterals()
    ensures Strip("0") == "0" && Strip("LINE") == "LINE" && Strip("EOF") == "EOF"
    ensures Strip("10") == "10" && Strip("20") == "20" && Strip("11") == "11" && Strip("21") == "21"
    ensures Strip("1") == "1" && Strip("2") == "2" && Strip("3") == "3" && Strip("4") == "4"
  {
    StripPlain("0");
    StripPlain("LINE");
    StripPlain("EOF");
    StripPlain("10");
    StripPlain("20");
    StripPlain("11");
    StripPlain("21");
    StripPlain("1");
    StripPlain("2");
    StripPlain("3");
    StripPlain("4");
  }

  /** A LINE record for the segment (1, 2)-(3, 4). */
  const SegmentRecord: seq<string> := ["0", "LINE", "10", "1", "20", "2", "11", "3", "21", "4", "0", "EOF"]

  /** Started on the LINE line, the group-code loop pairs every code with
      the line before its value and so matches none of them. */
  lemma ShiftedGroups(parse: string -> Option<real>)
    ensures ReadGroups(SegmentRecord, 1, LineCodes, Zeros(4), parse) == Ok((12, Zeros(4)))
  {
    SegmentLines();
    ShiftedFrom(SegmentRecord, 1, parse);
  }

  /** The lines of the record in the places the shifted loop reads as codes. */
  lemma SegmentLines()
    ensures |SegmentRecord| == 12 && SegmentRecord[0] == "0"
    ensures SegmentRecord[1] == "LINE" && SegmentRecord[3] == "1" && SegmentRecord[5] == "2"
    ensures SegmentRecord[7] == "3" && SegmentRecord[9] == "4" && SegmentRecord[11] == "EOF"
  {
  }

  /** From line `i` on, every other line of a twelve-line record is neither
      "0" nor a two-character code, and the last one is not "0": the loop
      passes over them all and matches nothing. */
  lemma {:induction false} ShiftedFrom(lines: seq<string>, i: nat, parse: string -> Option<real>)
    requires |lines| == 12 && i <= 11 && i % 2 == 1
    requires lines[1] == "LINE" && lines[3] == "1" && lines[5] == "2"
    requires lines[7] == "3" && lines[9] == "4" && lines[11] == "EOF"
    ensures ReadGroups(lines, i, LineCodes, Zeros(4), parse) == Ok((12, Zeros(4)))
    decreases 12 - i
  {
    var code := lines[i];
    assert code == "LINE" || code == "1" || code == "2" || code == "3" || code == "4" || code == "EOF";
    StripPlain(code);
    assert code != "0";
    if i < 11 {
      NotLineCode(code);
      ShiftedFrom(lines, i + 2, parse);
      SkipGroup(lines, i, LineCodes, Zeros(4), parse);
    }
  }

  /** Every code of a LINE record has two characters. */
  lemma NotLineCode(s: string)
    requires |s| != 2
    ensures s !in LineCodes
  {
  }

  /** A pair whose code is not one of `codes` is passed over. */
  lemma SkipGroup(lines: seq<string>, i: nat, codes: seq<string>, fields: seq<real>, parse: string -> Option<real>)
    requires i + 1 < |lines| && |fields| == |codes|
    requires Strip(lines[i]) != "0" && Strip(lines[i]) !in codes
    ensures ReadGroups(lines, i, codes, fields, parse) == ReadGroups(lines, i + 2, codes, fields, parse)
  {
  }

  /** As written, the group-code loop starts on the LINE line itself, so
      the record of the segment (1, 2)-(3, 4) is read as the segment
      (0, 0)-(0, 0), whatever the number parser. */
  lemma ShiftedRecordMisread(parse: string -> Option<real>)
    ensures Entities(SegmentRecord, 0, parse, true) == Ok([LineEntity(0.0, 0.0, 0.0, 0.0)])
  {
    var lines := SegmentRecord;
    SegmentLines();
    StripPlain("LINE");
    ShiftedGroups(parse);
    LineEntityAt(lines, 1, parse, true, 12, Zeros(4));
    assert MakeEntity(true, Zeros(4)) == LineEntity(0.0, 0.0, 0.0, 0.0);
    assert Entities(lines, 12, parse, true) == Ok([]);
    StripPlain("0");
    NoEntityAt(lines, 0, parse, true);
    assert [LineEntity(0.0, 0.0, 0.0, 0.0)] + [] == [LineEntity(0.0, 0.0, 0.0, 0.0)];
  }

  /** A LINE whose group codes read as `f` up to line `n` is that segment,
      then whatever follows line `n`. */
  lemma LineEntityAt(lines: seq<string>, i: nat, parse: string -> Option<real>, fromName: bool, n: nat, f: seq<real>)
    requires i < |lines| && Strip(lines[i]) == "LINE"
    requires ReadGroups(lines, if fromName then i else i + 1, LineCodes, Zeros(4), parse) == Ok((n, f))
    ensures i < n <= |lines| && |f| == 4
    ensures Entities(lines, i, parse, fromName) == Prepend([MakeEntity(true, f)], Entities(lines, n, parse, fromName))
  {
    assert |LineCodes| == 4;
  }

  /** A line that names no entity is passed over. */
  lemma NoEntityAt(lines: seq<string>, i: nat, parse: string -> Option<real>, fromName: bool)
    requires i < |lines| && Strip(lines[i]) != "LINE" && Strip(lines[i]) != "CIRCLE"
    ensures Entities(lines, i, parse, fromName) == Entities(lines, i + 1, parse, fromName)
  {
  }
}
