/** The path document of src/modules/turtle.py: a drawing is a sequence of
    stroke layers, a layer a sequence of lines, a line a sequence of points.
    `Turtle` keeps the cursor (position, heading, pen flag, colour, width)
    on top of that structure and grows it with the pen commands.
    Coordinates are modelled as `real`. */
module PathModel {
  import opened Text

  datatype Point = Point(x: real, y: real)
  datatype Line = Line(points: seq<Point>, color: string, diameter: real)
  datatype StrokeLayer = StrokeLayer(lines: seq<Line>, color: string, diameter: real)

  /** The dictionary `get_bounds` returns. */
  datatype Bounds = Bounds(minX: real, minY: real, maxX: real, maxY: real, width: real, height: real)

  /** One entry of `get_paths`: the points of a line with its layer's stroke. */
  datatype Path = Path(points: seq<Point>, color: string, diameter: real)

  // ---------------------------------------------------------------------
  // The structure and the edits the pen commands make to it
  // ---------------------------------------------------------------------

  function Current(layers: seq<StrokeLayer>): StrokeLayer
    requires |layers| >= 1
  {
    layers[|layers| - 1]
  }

  /** `_new_line` / `lines.append(...)` on the current layer. */
  function AddLine(layers: seq<StrokeLayer>, line: Line): (r: seq<StrokeLayer>)
    requires |layers| >= 1
    ensures |r| == |layers| && r[..|r| - 1] == layers[..|layers| - 1]
    ensures Current(r).lines == Current(layers).lines + [line]
    ensures Current(r).color == Current(layers).color && Current(r).diameter == Current(layers).diameter
  {
    var cur := Current(layers);
    layers[..|layers| - 1] + [cur.(lines := cur.lines + [line])]
  }

  /** `layer.lines[-1].points.append(p)` on the current layer. */
  function AddPoint(layers: seq<StrokeLayer>, p: Point): (r: seq<StrokeLayer>)
    requires |layers| >= 1 && Current(layers).lines != []
    ensures |r| == |layers| && r[..|r| - 1] == layers[..|layers| - 1]
    ensures var old_lines := Current(layers).lines;
            var n := |old_lines|;
            |Current(r).lines| == n && Current(r).lines[..n - 1] == old_lines[..n - 1] &&
            Current(r).lines[n - 1] == old_lines[n - 1].(points := old_lines[n - 1].points + [p])
    ensures Current(r).color == Current(layers).color && Current(r).diameter == Current(layers).diameter
  {
    var cur := Current(layers);
    var n := |cur.lines|;
    var last := cur.lines[n - 1];
    layers[..|layers| - 1] + [cur.(lines := cur.lines[..n - 1] + [last.(points := last.points + [p])])]
  }

  /** No line of the document is empty. */
  ghost predicate LinesNonEmpty(layers: seq<StrokeLayer>) {
    forall i, j :: 0 <= i < |layers| && 0 <= j < |layers[i].lines| ==> |layers[i].lines[j].points| >= 1
  }

  /** Every line carries the colour and width of the layer that holds it. */
  ghost predicate LinesMatchLayer(layers: seq<StrokeLayer>) {
    forall i, j :: 0 <= i < |layers| && 0 <= j < |layers[i].lines| ==>
      layers[i].lines[j].color == layers[i].color && layers[i].lines[j].diameter == layers[i].diameter
  }

  // ---------------------------------------------------------------------
  // Folds that specify the queries. Each is defined on the last element,
  // so that a loop that extends a prefix by one element extends the fold.
  // ---------------------------------------------------------------------

  function PointsIn(lines: seq<Line>): nat {
    if lines == [] then 0 else PointsIn(lines[..|lines| - 1]) + |lines[|lines| - 1].points|
  }

  /** What `count_points` computes. */
  function PointTotal(layers: seq<StrokeLayer>): nat {
    if layers == [] then 0 else PointTotal(layers[..|layers| - 1]) + PointsIn(Current(layers).lines)
  }

  function SegmentsOf(line: Line): nat {
    if |line.points| >= 1 then |line.points| - 1 else 0
  }

  function SegmentsIn(lines: seq<Line>): nat {
    if lines == [] then 0 else SegmentsIn(lines[..|lines| - 1]) + SegmentsOf(lines[|lines| - 1])
  }

  /** What `count_lines` computes: the number of segments. */
  function SegmentTotal(layers: seq<StrokeLayer>): nat {
    if layers == [] then 0 else SegmentTotal(layers[..|layers| - 1]) + SegmentsIn(Current(layers).lines)
  }

  /** The number of `Line` objects of the document. */
  function LineTotal(layers: seq<StrokeLayer>): nat {
    if layers == [] then 0 else LineTotal(layers[..|layers| - 1]) + |Current(layers).lines|
  }

  function DrawnIn(lines: seq<Line>): seq<Line> {
    if lines == [] then []
    else DrawnIn(lines[..|lines| - 1]) + (if |lines[|lines| - 1].points| >= 2 then [lines[|lines| - 1]] else [])
  }

  /** What `get_lines` returns: the lines with at least two points, layer by layer. */
  function Drawn(layers: seq<StrokeLayer>): seq<Line> {
    if layers == [] then [] else Drawn(layers[..|layers| - 1]) + DrawnIn(Current(layers).lines)
  }

  function PathsIn(lines: seq<Line>, color: string, diameter: real): seq<Path> {
    if lines == [] then []
    else
      var last := lines[|lines| - 1];
      PathsIn(lines[..|lines| - 1], color, diameter)
        + (if |last.points| >= 2 then [Path(last.points, color, diameter)] else [])
  }

  /** What `get_paths` returns. */
  function Paths(layers: seq<StrokeLayer>): seq<Path> {
    if layers == [] then []
    else Paths(layers[..|layers| - 1]) + PathsIn(Current(layers).lines, Current(layers).color, Current(layers).diameter)
  }

  function PointSeqIn(lines: seq<Line>): seq<Point> {
    if lines == [] then [] else PointSeqIn(lines[..|lines| - 1]) + lines[|lines| - 1].points
  }

  /** Every point of the document, in the order `get_bounds` visits them. */
  function AllPoints(layers: seq<StrokeLayer>): seq<Point> {
    if layers == [] then [] else AllPoints(layers[..|layers| - 1]) + PointSeqIn(Current(layers).lines)
  }

  function Min(a: real, b: real): real { if a <= b then a else b }
  function Max(a: real, b: real): real { if a <= b then b else a }

  /** One step of the min/max accumulation; `None` stands for the
      initial +inf/-inf box. */
  function Grow(box: Option<Bounds>, p: Point): Bounds {
    match box
    case None => Bounds(p.x, p.y, p.x, p.y, 0.0, 0.0)
    case Some(b) =>
      var minX, minY, maxX, maxY := Min(b.minX, p.x), Min(b.minY, p.y), Max(b.maxX, p.x), Max(b.maxY, p.y);
      Bounds(minX, minY, maxX, maxY, maxX - minX, maxY - minY)
  }

  function BoxOf(pts: seq<Point>): Option<Bounds> {
    if pts == [] then None else Some(Grow(BoxOf(pts[..|pts| - 1]), pts[|pts| - 1]))
  }

  const NoBounds := Bounds(0.0, 0.0, 0.0, 0.0, 0.0, 0.0)

  /** What `get_bounds` returns. */
  function BoundsOf(layers: seq<StrokeLayer>): Bounds {
    BoxOf(AllPoints(layers)).GetOr(NoBounds)
  }

  // ---------------------------------------------------------------------
  // Transforms
  // ---------------------------------------------------------------------

  function MapLine(line: Line, f: Point -> Point): (r: Line)
    ensures |r.points| == |line.points| && r.color == line.color && r.diameter == line.diameter
  {
    line.(points := seq(|line.points|, k requires 0 <= k < |line.points| => f(line.points[k])))
  }

  function MapLines(lines: seq<Line>, f: Point -> Point): (r: seq<Line>)
    ensures |r| == |lines|
  {
    seq(|lines|, j requires 0 <= j < |lines| => MapLine(lines[j], f))
  }

  function MapLayer(layer: StrokeLayer, f: Point -> Point): (r: StrokeLayer)
    ensures |r.lines| == |layer.lines| && r.color == layer.color && r.diameter == layer.diameter
  {
    layer.(lines := MapLines(layer.lines, f))
  }

  /** Every point of every line of every layer replaced by its image under `f`. */
  function MapLayers(layers: seq<StrokeLayer>, f: Point -> Point): (r: seq<StrokeLayer>)
    ensures |r| == |layers|
  {
    seq(|layers|, i requires 0 <= i < |layers| => MapLayer(layers[i], f))
  }

  function Shift(dx: real, dy: real): Point -> Point {
    (p: Point) => Point(p.x + dx, p.y + dy)
  }

  function Stretch(sx: real, sy: real): Point -> Point {
    (p: Point) => Point(p.x * sx, p.y * sy)
  }

  // ---------------------------------------------------------------------
  // Pen moves as values: what `jump_to` and `move_to` do to the document
  // and the cursor, so that a drawing source can be specified by the
  // sequence of moves it makes.
  // ---------------------------------------------------------------------

  datatype PenOp = Jump(p: Point) | Move(p: Point)

  /** The part of a `Turtle` the pen moves change. */
  datatype Pen = Pen(layers: seq<StrokeLayer>, position: Point, penUp: bool)

  /** `jump_to(p)` starts a new one-point line at `p` and leaves the pen
      down; `move_to(p)` moves the cursor and, with the pen down and a line
      to extend, appends `p` to that line. */
  function ApplyOp(s: Pen, op: PenOp, color: string, diameter: real): (r: Pen)
    requires |s.layers| >= 1
    ensures |r.layers| == |s.layers| && r.position == op.p
  {
    match op
    case Jump(p) => Pen(AddLine(s.layers, Line([p], color, diameter)), p, false)
    case Move(p) =>
      if !s.penUp && Current(s.layers).lines != [] then Pen(AddPoint(s.layers, p), p, false)
      else s.(position := p)
  }

  /** The moves `ops` made one after the other with the active stroke. */
  function Replay(s: Pen, ops: seq<PenOp>, color: string, diameter: real): (r: Pen)
    requires |s.layers| >= 1
    ensures |r.layers| == |s.layers|
  {
    if ops == [] then s else ApplyOp(Replay(s, ops[..|ops| - 1], color, diameter), ops[|ops| - 1], color, diameter)
  }

  lemma {:induction false} ReplaySnoc(s: Pen, ops: seq<PenOp>, op: PenOp, color: string, diameter: real)
    requires |s.layers| >= 1
    ensures Replay(s, ops + [op], color, diameter) == ApplyOp(Replay(s, ops, color, diameter), op, color, diameter)
  {
    assert (ops + [op])[..|ops|] == ops;
  }

  lemma {:induction false} ReplayAppend(s: Pen, a: seq<PenOp>, b: seq<PenOp>, color: string, diameter: real)
    requires |s.layers| >= 1
    ensures Replay(s, a + b, color, diameter) == Replay(Replay(s, a, color, diameter), b, color, diameter)
    decreases |b|
  {
    if b == [] {
      assert a + b == a;
    } else {
      var n := |b| - 1;
      assert a + b == (a + b[..n]) + [b[n]];
      ReplaySnoc(s, a + b[..n], b[n], color, diameter);
      ReplayAppend(s, a, b[..n], color, diameter);
    }
  }

  /** The pen is down on a line it can extend. */
  predicate Drawing(s: Pen) {
    !s.penUp && |s.layers| >= 1 && Current(s.layers).lines != []
  }

  function Jumps(ops: seq<PenOp>): (n: nat)
    ensures n <= |ops|
  {
    if ops == [] then 0 else Jumps(ops[..|ops| - 1]) + (if ops[|ops| - 1].Jump? then 1 else 0)
  }

  lemma {:induction false} AddLineCounts(layers: seq<StrokeLayer>, line: Line)
    requires |layers| >= 1
    ensures LineTotal(AddLine(layers, line)) == LineTotal(layers) + 1
    ensures PointTotal(AddLine(layers, line)) == PointTotal(layers) + |line.points|
  {
    var r := AddLine(layers, line);
    var n := |layers| - 1;
    assert r[..n] == layers[..n];
    assert Current(r).lines[..|Current(r).lines| - 1] == Current(layers).lines;
  }

  lemma {:induction false} PointsInLastGrows(lines: seq<Line>, last: Line, p: Point)
    requires lines != [] && last == lines[|lines| - 1]
    ensures PointsIn(lines[..|lines| - 1] + [last.(points := last.points + [p])]) == PointsIn(lines) + 1
  {
    var m := lines[..|lines| - 1] + [last.(points := last.points + [p])];
    assert m[..|m| - 1] == lines[..|lines| - 1];
  }

  lemma {:induction false} AddPointCounts(layers: seq<StrokeLayer>, p: Point)
    requires |layers| >= 1 && Current(layers).lines != []
    ensures LineTotal(AddPoint(layers, p)) == LineTotal(layers)
    ensures PointTotal(AddPoint(layers, p)) == PointTotal(layers) + 1
  {
    var k := |layers| - 1;
    var cur := Current(layers);
    var n := |cur.lines|;
    var last := cur.lines[n - 1];
    var m := cur.lines[..n - 1] + [last.(points := last.points + [p])];
    var r := layers[..k] + [cur.(lines := m)];
    assert AddPoint(layers, p) == r;
    assert r[..k] == layers[..k];
    PointsInLastGrows(cur.lines, last, p);
  }

  /** Each `jump_to` adds one line and one point; once the pen is down on
      a line (from the start, or after the first jump) each `move_to` adds
      one point to it. */
  lemma {:induction false} ReplayCounts(s: Pen, ops: seq<PenOp>, color: string, diameter: real)
    requires |s.layers| >= 1
    ensures LineTotal(Replay(s, ops, color, diameter).layers) == LineTotal(s.layers) + Jumps(ops)
    ensures Drawing(s) || (ops != [] && ops[0].Jump?) ==>
      Drawing(Replay(s, ops, color, diameter)) &&
      PointTotal(Replay(s, ops, color, diameter).layers) == PointTotal(s.layers) + |ops|
    decreases |ops|
  {
    if ops != [] {
      var n := |ops| - 1;
      var prev := Replay(s, ops[..n], color, diameter);
      ReplayCounts(s, ops[..n], color, diameter);
      assert n > 0 ==> ops[..n][0] == ops[0];
      match ops[n]
      case Jump(p) =>
        AddLineCounts(prev.layers, Line([p], color, diameter));
      case Move(p) =>
        if Drawing(prev) {
          AddPointCounts(prev.layers, p);
        }
    }
  }

  /** The stroke of a `Turtle()` made without arguments. */
  const DefaultColor := "#000000"
  const DefaultDiameter := 1.0

  class Turtle {
    var layers: seq<StrokeLayer>
    var position: Point
    var angle: real
    var penUp: bool
    var color: string
    var diameter: real

    /** What every operation keeps: there is a current layer carrying the
        active stroke, no line is empty, each line has its layer's stroke,
        and with the pen down the current layer has a line to extend. */
    /** The cursor and the document, as a value. */
    function State(): Pen
      reads this
    {
      Pen(layers, position, penUp)
    }

    ghost predicate Valid()
      reads this
    {
      WellFormed() && (!penUp ==> Current(layers).lines != [])
    }

    /** `Valid` without the pen condition: what holds between the steps of
        a command that lowers the pen and then starts its line. */
    ghost predicate WellFormed()
      reads this
    {
      && |layers| >= 1
      && Current(layers).color == color && Current(layers).diameter == diameter
      && LinesNonEmpty(layers)
      && LinesMatchLayer(layers)
    }

    /** While the pen is down, the line being drawn ends at the cursor.
        The pen commands keep this; the transforms move points but not the
        cursor, so they do not. */
    ghost predicate PenAtLineEnd()
      reads this
      requires |layers| >= 1
    {
      !penUp ==>
        var lines := Current(layers).lines;
        lines != [] && |lines[|lines| - 1].points| >= 1 &&
        lines[|lines| - 1].points[|lines[|lines| - 1].points| - 1] == position
    }

    constructor (color: string, diameter: real)
      ensures Valid() && PenAtLineEnd()
      ensures layers == [StrokeLayer([], color, diameter)]
      ensures position == Point(0.0, 0.0) && angle == 0.0 && penUp
      ensures this.color == color && this.diameter == diameter
    {
      layers := [StrokeLayer([], color, diameter)];
      position := Point(0.0, 0.0);
      angle := 0.0;
      penUp := true;
      this.color := color;
      this.diameter := diameter;
    }

    /** `_new_line`: a new line in the current layer whose one point is the cursor. */
    method NewLine()
      requires WellFormed()
      modifies this`layers
      ensures Valid() && PenAtLineEnd()
      ensures layers == AddLine(old(layers), Line([position], color, diameter))
    {
      layers := AddLine(layers, Line([position], color, diameter));
    }

    method SetStroke(c: string, d: real)
      requires Valid()
      modifies this`layers, this`color, this`diameter
      ensures Valid()
      ensures old(PenAtLineEnd()) ==> PenAtLineEnd()
      ensures c == old(color) && d == old(diameter) ==> layers == old(layers)
      ensures color == c && diameter == d
      ensures c != old(color) || d != old(diameter) ==>
        layers == old(layers) + [StrokeLayer(if penUp then [] else [Line([position], c, d)], c, d)]
    {
      if color != c || diameter != d {
        color := c;
        diameter := d;
        layers := layers + [StrokeLayer([], color, diameter)];
        if !penUp {
          ghost var withLayer := layers;
          assert Current(withLayer) == StrokeLayer([], c, d);
          NewLine();
          assert Current(layers).lines == [Line([position], c, d)];
          assert layers == withLayer[..|withLayer| - 1] + [StrokeLayer([Line([position], c, d)], c, d)];
          assert withLayer[..|withLayer| - 1] == old(layers);
        }
      }
    }

    method PenDown()
      requires Valid()
      modifies this`layers, this`penUp
      ensures Valid() && !penUp
      ensures old(penUp) ==> layers == AddLine(old(layers), Line([position], color, diameter)) && PenAtLineEnd()
      ensures !old(penUp) ==> layers == old(layers) && (old(PenAtLineEnd()) ==> PenAtLineEnd())
    {
      if penUp {
        penUp := false;
        NewLine();
      }
    }

    /** `pen_up_cmd`. */
    method PenUpCmd()
      requires Valid()
      modifies this`penUp
      ensures Valid() && PenAtLineEnd() && penUp
    {
      penUp := true;
    }

    method MoveTo(x: real, y: real)
      requires Valid()
      modifies this`layers, this`position
      ensures Valid() && PenAtLineEnd()
      ensures position == Point(x, y)
      ensures penUp ==> layers == old(layers)
      ensures !penUp ==> layers == AddPoint(old(layers), Point(x, y))
    {
      position := Point(x, y);
      if !penUp {
        var cur := Current(layers);
        if cur.lines != [] {
          layers := AddPoint(layers, Point(x, y));
        }
      }
    }

    /** `jump_to`: pen up, move, pen down, so a new one-point line starts at (x, y). */
    method JumpTo(x: real, y: real)
      requires Valid()
      modifies this`layers, this`position, this`penUp
      ensures Valid() && PenAtLineEnd() && !penUp
      ensures position == Point(x, y)
      ensures layers == AddLine(old(layers), Line([Point(x, y)], color, diameter))
    {
      PenUpCmd();
      position := Point(x, y);
      PenDown();
    }

    method DrawLine(x1: real, y1: real, x2: real, y2: real)
      requires Valid()
      modifies this`layers, this`position, this`penUp
      ensures Valid() && PenAtLineEnd() && !penUp
      ensures position == Point(x2, y2)
      ensures layers == AddLine(old(layers), Line([Point(x1, y1), Point(x2, y2)], color, diameter))
    {
      ghost var before := layers;
      JumpTo(x1, y1);
      MoveTo(x2, y2);
      AddLineThenPoint(before, Line([Point(x1, y1)], color, diameter), Point(x2, y2));
      assert [Point(x1, y1)] + [Point(x2, y2)] == [Point(x1, y1), Point(x2, y2)];
    }

    method DrawRect(x: real, y: real, width: real, height: real)
      requires Valid()
      modifies this`layers, this`position, this`penUp
      ensures Valid() && PenAtLineEnd() && !penUp
      ensures position == Point(x, y)
      ensures layers == AddLine(old(layers), Line(RectCorners(x, y, width, height), color, diameter))
    {
      ghost var l0 := layers;
      JumpTo(x, y);
      ghost var l1 := layers;
      MoveOn(x + width, y);
      ghost var l2 := layers;
      MoveOn(x + width, y + height);
      ghost var l3 := layers;
      MoveOn(x, y + height);
      ghost var l4 := layers;
      MoveOn(x, y);
      FivePointPolyline(l0, RectCorners(x, y, width, height), color, diameter, l1, l2, l3, l4, layers);
    }

    /** `move_to` with the pen down: the point extends the current line. */
    method MoveOn(x: real, y: real)
      requires Valid() && !penUp
      modifies this`layers, this`position
      ensures Valid() && PenAtLineEnd() && !penUp
      ensures position == Point(x, y)
      ensures MovedTo(old(layers), Point(x, y), layers)
    {
      MoveTo(x, y);
    }

    /** `forward`: a `move_to` along the heading. `heading(a)` stands for
        `(cos(radians(a)), sin(radians(a)))`, which is not modelled. */
    method Forward(distance: real, heading: real -> Point)
      requires Valid()
      modifies this`layers, this`position
      ensures Valid() && PenAtLineEnd()
      ensures position == Ahead(old(position), heading(angle), distance)
      ensures penUp ==> layers == old(layers)
      ensures !penUp ==> layers == AddPoint(old(layers), position)
    {
      var d := heading(angle);
      MoveTo(position.x + d.x * distance, position.y + d.y * distance);
    }

    method Turn(degrees: real)
      modifies this`angle
      ensures angle == old(angle) + degrees
    {
      angle := angle + degrees;
    }

    method TurnRight(degrees: real)
      modifies this`angle
      ensures angle == old(angle) - degrees
    {
      angle := angle - degrees;
    }

    method TurnLeft(degrees: real)
      modifies this`angle
      ensures angle == old(angle) + degrees
    {
      angle := angle + degrees;
    }

    method SetAngle(degrees: real)
      modifies this`angle
      ensures angle == degrees
    {
      angle := degrees;
    }

    // -------------------------------------------------------------------
    // Queries
    // -------------------------------------------------------------------

    method CountPoints() returns (total: nat)
      ensures total == PointTotal(layers)
    {
      total := 0;
      var i := 0;
      while i < |layers|
        invariant 0 <= i <= |layers|
        invariant total == PointTotal(layers[..i])
      {
        var lines := layers[i].lines;
        var j := 0;
        ghost var before := total;
        while j < |lines|
          invariant 0 <= j <= |lines|
          invariant total == before + PointsIn(lines[..j])
        {
          total := total + |lines[j].points|;
          assert lines[..j + 1][..j] == lines[..j];
          j := j + 1;
        }
        assert lines[..j] == lines;
        assert layers[..i + 1][..i] == layers[..i];
        i := i + 1;
      }
      assert layers[..i] == layers;
    }

    method CountLines() returns (total: nat)
      ensures total == SegmentTotal(layers)
    {
      total := 0;
      var i := 0;
      while i < |layers|
        invariant 0 <= i <= |layers|
        invariant total == SegmentTotal(layers[..i])
      {
        var lines := layers[i].lines;
        var j := 0;
        ghost var before := total;
        while j < |lines|
          invariant 0 <= j <= |lines|
          invariant total == before + SegmentsIn(lines[..j])
        {
          total := total + (if |lines[j].points| - 1 > 0 then |lines[j].points| - 1 else 0);
          assert lines[..j + 1][..j] == lines[..j];
          j := j + 1;
        }
        assert lines[..j] == lines;
        assert layers[..i + 1][..i] == layers[..i];
        i := i + 1;
      }
      assert layers[..i] == layers;
    }

    method GetLines() returns (result: seq<Line>)
      ensures result == Drawn(layers)
    {
      result := [];
      var i := 0;
      while i < |layers|
        invariant 0 <= i <= |layers|
        invariant result == Drawn(layers[..i])
      {
        var lines := layers[i].lines;
        var j := 0;
        ghost var before := result;
        while j < |lines|
          invariant 0 <= j <= |lines|
          invariant result == before + DrawnIn(lines[..j])
        {
          if |lines[j].points| >= 2 {
            result := result + [lines[j]];
          }
          assert lines[..j + 1][..j] == lines[..j];
          j := j + 1;
        }
        assert lines[..j] == lines;
        assert layers[..i + 1][..i] == layers[..i];
        i := i + 1;
      }
      assert layers[..i] == layers;
    }

    method GetPaths() returns (result: seq<Path>)
      ensures result == Paths(layers)
    {
      result := [];
      var i := 0;
      while i < |layers|
        invariant 0 <= i <= |layers|
        invariant result == Paths(layers[..i])
      {
        var layer := layers[i];
        var j := 0;
        ghost var before := result;
        while j < |layer.lines|
          invariant 0 <= j <= |layer.lines|
          invariant result == before + PathsIn(layer.lines[..j], layer.color, layer.diameter)
        {
          if |layer.lines[j].points| >= 2 {
            result := result + [Path(layer.lines[j].points, layer.color, layer.diameter)];
          }
          assert layer.lines[..j + 1][..j] == layer.lines[..j];
          j := j + 1;
        }
        assert layer.lines[..j] == layer.lines;
        assert layers[..i + 1][..i] == layers[..i];
        i := i + 1;
      }
      assert layers[..i] == layers;
    }

    method HasContent() returns (found: bool)
      ensures found <==> Drawn(layers) != []
    {
      var i := 0;
      while i < |layers|
        invariant 0 <= i <= |layers|
        invariant Drawn(layers[..i]) == []
      {
        var lines := layers[i].lines;
        var j := 0;
        while j < |lines|
          invariant 0 <= j <= |lines|
          invariant DrawnIn(lines[..j]) == []
        {
          if |lines[j].points| >= 2 {
            DrawnHas(layers, i, j);
            return true;
          }
          assert lines[..j + 1][..j] == lines[..j];
          j := j + 1;
        }
        assert lines[..j] == lines;
        assert layers[..i + 1][..i] == layers[..i];
        i := i + 1;
      }
      assert layers[..i] == layers;
      return false;
    }

    method GetBounds() returns (b: Bounds)
      ensures b == BoundsOf(layers)
    {
      var box: Option<Bounds> := None;
      var i := 0;
      while i < |layers|
        invariant 0 <= i <= |layers|
        invariant box == BoxOf(AllPoints(layers[..i]))
      {
        var lines := layers[i].lines;
        var j := 0;
        ghost var before := AllPoints(layers[..i]);
        assert lines[..0] == [];
        assert before + PointSeqIn(lines[..0]) == before;
        while j < |lines|
          invariant 0 <= j <= |lines|
          invariant box == BoxOf(before + PointSeqIn(lines[..j]))
        {
          var pts := lines[j].points;
          var k := 0;
          ghost var upto := before + PointSeqIn(lines[..j]);
          assert upto + pts[..0] == upto;
          while k < |pts|
            invariant 0 <= k <= |pts|
            invariant box == BoxOf(upto + pts[..k])
          {
            BoxOfSnoc(upto, pts, k);
            box := Some(Grow(box, pts[k]));
            k := k + 1;
          }
          PointSeqInSnoc(before, lines, j);
          j := j + 1;
        }
        AllPointsSnoc(layers, i);
        i := i + 1;
      }
      assert layers[..i] == layers;
      b := box.GetOr(NoBounds);
    }

    // -------------------------------------------------------------------
    // Transforms
    // -------------------------------------------------------------------

    /** The nested loops of `translate` and `scale`: every point of every
        line of every layer is replaced by its image, in place. */
    method ApplyToPoints(f: Point -> Point)
      requires Valid()
      modifies this`layers
      ensures Valid()
      ensures layers == MapLayers(old(layers), f)
    {
      var i := 0;
      while i < |layers|
        invariant 0 <= i <= |layers| && |layers| == |old(layers)|
        invariant forall k :: 0 <= k < i ==> layers[k] == MapLayer(old(layers)[k], f)
        invariant forall k :: i <= k < |layers| ==> layers[k] == old(layers)[k]
      {
        var lines := layers[i].lines;
        var j := 0;
        while j < |lines|
          invariant 0 <= j <= |lines| && |lines| == |old(layers)[i].lines|
          invariant forall k :: 0 <= k < j ==> lines[k] == MapLine(old(layers)[i].lines[k], f)
          invariant forall k :: j <= k < |lines| ==> lines[k] == old(layers)[i].lines[k]
        {
          var pts := lines[j].points;
          var m := 0;
          while m < |pts|
            invariant 0 <= m <= |pts| && |pts| == |old(layers)[i].lines[j].points|
            invariant forall k :: 0 <= k < m ==> pts[k] == f(old(layers)[i].lines[j].points[k])
            invariant forall k :: m <= k < |pts| ==> pts[k] == old(layers)[i].lines[j].points[k]
          {
            pts := pts[m := f(pts[m])];
            m := m + 1;
          }
          lines := lines[j := lines[j].(points := pts)];
          j := j + 1;
        }
        layers := layers[i := layers[i].(lines := lines)];
        i := i + 1;
      }
    }

    method Translate(dx: real, dy: real)
      requires Valid()
      modifies this`layers
      ensures Valid()
      ensures layers == MapLayers(old(layers), Shift(dx, dy))
    {
      ApplyToPoints(Shift(dx, dy));
    }

    /** `scale(sx, sy=None)`: a missing `sy` scales both axes by `sx`. */
    method Scale(sx: real, sy: Option<real>)
      requires Valid()
      modifies this`layers
      ensures Valid()
      ensures layers == MapLayers(old(layers), Stretch(sx, sy.GetOr(sx)))
    {
      ApplyToPoints(Stretch(sx, sy.GetOr(sx)));
    }

    method CenterOn(cx: real, cy: real)
      requires Valid()
      modifies this`layers
      ensures Valid()
      ensures var b := BoundsOf(old(layers));
              layers == MapLayers(old(layers), Shift(cx - (b.minX + b.maxX) / 2.0, cy - (b.minY + b.maxY) / 2.0))
    {
      var b := GetBounds();
      Translate(cx - (b.minX + b.maxX) / 2.0, cy - (b.minY + b.maxY) / 2.0);
    }

    method FitToBounds(left: real, bottom: real, right: real, top: real, maintainAspect: bool)
      requires Valid()
      modifies this`layers
      ensures Valid()
      ensures layers == Fitted(old(layers), left, bottom, right, top, maintainAspect)
    {
      ghost var l0 := layers;
      var b := GetBounds();
      if b.width == 0.0 || b.height == 0.0 {
        assert Fitted(l0, left, bottom, right, top, maintainAspect) == l0;
        return;
      }
      var sx := (right - left) / b.width;
      var sy := (top - bottom) / b.height;
      if maintainAspect {
        var s := Min(sx, sy);
        sx, sy := s, s;
      }
      assert sx == FitScaleX(b, left, right, bottom, top, maintainAspect);
      assert sy == FitScaleY(b, left, right, bottom, top, maintainAspect);
      var dx, dy := -b.minX - b.width / 2.0, -b.minY - b.height / 2.0;
      var cx, cy := (left + right) / 2.0, (bottom + top) / 2.0;
      assert Fitted(l0, left, bottom, right, top, maintainAspect)
        == MapLayers(MapLayers(MapLayers(l0, Shift(dx, dy)), Stretch(sx, sy)), Shift(cx, cy));
      Refit(dx, dy, sx, sy, cx, cy);
    }

    /** The three steps of `fit_to_bounds`: centre, scale, move. */
    method Refit(dx: real, dy: real, sx: real, sy: real, cx: real, cy: real)
      requires Valid()
      modifies this`layers
      ensures Valid()
      ensures layers == MapLayers(MapLayers(MapLayers(old(layers), Shift(dx, dy)), Stretch(sx, sy)), Shift(cx, cy))
    {
      Translate(dx, dy);
      Scale(sx, Some(sy));
      Translate(cx, cy);
    }
  }

  /** The point `distance` along the unit direction `d` from `p`. */
  function Ahead(p: Point, d: Point, distance: real): Point {
    Point(p.x + d.x * distance, p.y + d.y * distance)
  }

  function RectCorners(x: real, y: real, width: real, height: real): seq<Point> {
    [Point(x, y), Point(x + width, y), Point(x + width, y + height), Point(x, y + height), Point(x, y)]
  }

  /** What `fit_to_bounds` makes of the layers: nothing when the drawing
      is flat in either direction; otherwise centre on the origin, scale,
      and move to the centre of the target box. */
  function Fitted(layers: seq<StrokeLayer>, left: real, bottom: real, right: real, top: real, maintainAspect: bool): seq<StrokeLayer> {
    var b := BoundsOf(layers);
    if b.width == 0.0 || b.height == 0.0 then layers
    else
      var centred := MapLayers(layers, Shift(-b.minX - b.width / 2.0, -b.minY - b.height / 2.0));
      var scaled := MapLayers(centred, Stretch(FitScaleX(b, left, right, bottom, top, maintainAspect),
                                               FitScaleY(b, left, right, bottom, top, maintainAspect)));
      MapLayers(scaled, Shift((left + right) / 2.0, (bottom + top) / 2.0))
  }

  function FitScaleX(b: Bounds, left: real, right: real, bottom: real, top: real, maintainAspect: bool): real
    requires b.width != 0.0 && b.height != 0.0
  {
    if maintainAspect then Min((right - left) / b.width, (top - bottom) / b.height) else (right - left) / b.width
  }

  function FitScaleY(b: Bounds, left: real, right: real, bottom: real, top: real, maintainAspect: bool): real
    requires b.width != 0.0 && b.height != 0.0
  {
    if maintainAspect then Min((right - left) / b.width, (top - bottom) / b.height) else (top - bottom) / b.height
  }

  // ---------------------------------------------------------------------
  // Small prefix facts the query loops use
  // ---------------------------------------------------------------------

  lemma {:induction false} DrawnInHas(lines: seq<Line>, j: nat)
    requires j < |lines| && |lines[j].points| >= 2
    ensures lines[j] in DrawnIn(lines)
    decreases |lines|
  {
    if j < |lines| - 1 {
      DrawnInHas(lines[..|lines| - 1], j);
    }
  }

  /** A line with at least two points is among `get_lines`' result. */
  lemma {:induction false} DrawnHas(layers: seq<StrokeLayer>, i: nat, j: nat)
    requires i < |layers| && j < |layers[i].lines| && |layers[i].lines[j].points| >= 2
    ensures layers[i].lines[j] in Drawn(layers)
    decreases |layers|
  {
    if i < |layers| - 1 {
      DrawnHas(layers[..|layers| - 1], i, j);
    } else {
      DrawnInHas(layers[i].lines, j);
    }
  }

  lemma BoxOfSnoc(upto: seq<Point>, pts: seq<Point>, k: nat)
    requires k < |pts|
    ensures BoxOf(upto + pts[..k + 1]) == Some(Grow(BoxOf(upto + pts[..k]), pts[k]))
  {
    assert (upto + pts[..k + 1])[..|upto + pts[..k + 1]| - 1] == upto + pts[..k];
  }

  lemma PointSeqInSnoc(before: seq<Point>, lines: seq<Line>, j: nat)
    requires j < |lines|
    ensures before + PointSeqIn(lines[..j + 1]) == before + PointSeqIn(lines[..j]) + lines[j].points[..|lines[j].points|]
  {
    assert lines[..j + 1][..j] == lines[..j];
    assert lines[j].points[..|lines[j].points|] == lines[j].points;
  }

  lemma AllPointsSnoc(layers: seq<StrokeLayer>, i: nat)
    requires i < |layers|
    ensures AllPoints(layers[..i + 1]) == AllPoints(layers[..i]) + PointSeqIn(layers[i].lines[..|layers[i].lines|])
  {
    assert layers[..i + 1][..i] == layers[..i];
    assert layers[i].lines[..|layers[i].lines|] == layers[i].lines;
  }

  /** `after` is `before` with `p` appended to the line being drawn. */
  ghost predicate MovedTo(before: seq<StrokeLayer>, p: Point, after: seq<StrokeLayer>) {
    |before| >= 1 && Current(before).lines != [] && after == AddPoint(before, p)
  }

  /** Starting a line at `pts[0]` and moving through the other points one
      by one leaves the same document as adding the whole polyline at once. */
  lemma {:induction false} PolylineByPoints(l0: seq<StrokeLayer>, pts: seq<Point>, color: string, diameter: real,
                                            states: seq<seq<StrokeLayer>>)
    requires |l0| >= 1 && |pts| >= 1 && |states| == |pts|
    requires states[0] == AddLine(l0, Line([pts[0]], color, diameter))
    requires forall k :: 0 <= k < |pts| - 1 ==> MovedTo(states[k], pts[k + 1], states[k + 1])
    ensures states[|pts| - 1] == AddLine(l0, Line(pts, color, diameter))
    decreases |pts|
  {
    if |pts| > 1 {
      var n := |pts| - 1;
      PolylineByPoints(l0, pts[..n], color, diameter, states[..n]);
      AddLineThenPoint(l0, Line(pts[..n], color, diameter), pts[n]);
      assert pts[..n] + [pts[n]] == pts;
    } else {
      assert [pts[0]] == pts;
    }
  }

  /** `PolylineByPoints` for the five corners of a rectangle. */
  lemma FivePointPolyline(l0: seq<StrokeLayer>, pts: seq<Point>, color: string, diameter: real,
                          l1: seq<StrokeLayer>, l2: seq<StrokeLayer>, l3: seq<StrokeLayer>,
                          l4: seq<StrokeLayer>, l5: seq<StrokeLayer>)
    requires |l0| >= 1 && |pts| == 5
    requires l1 == AddLine(l0, Line([pts[0]], color, diameter))
    requires MovedTo(l1, pts[1], l2) && MovedTo(l2, pts[2], l3)
    requires MovedTo(l3, pts[3], l4) && MovedTo(l4, pts[4], l5)
    ensures l5 == AddLine(l0, Line(pts, color, diameter))
  {
    var states := [l1, l2, l3, l4, l5];
    assert forall k :: 0 <= k < 4 ==> MovedTo(states[k], pts[k + 1], states[k + 1]);
    PolylineByPoints(l0, pts, color, diameter, states);
  }

  /** `lines` added one after the other to the current layer. */
  function AddLines(layers: seq<StrokeLayer>, lines: seq<Line>): (r: seq<StrokeLayer>)
    requires |layers| >= 1
    ensures |r| == |layers|
  {
    if lines == [] then layers else AddLine(AddLines(layers, lines[..|lines| - 1]), lines[|lines| - 1])
  }

  /** Adding lines extends the current layer by exactly those lines and
      leaves every other layer as it was. */
  lemma {:induction false} AddLinesSpec(layers: seq<StrokeLayer>, lines: seq<Line>)
    requires |layers| >= 1
    ensures var r := AddLines(layers, lines);
      && r[..|r| - 1] == layers[..|layers| - 1]
      && Current(r) == Current(layers).(lines := Current(layers).lines + lines)
    decreases |lines|
  {
    if lines != [] {
      var n := |lines| - 1;
      AddLinesSpec(layers, lines[..n]);
      assert lines[..n] + [lines[n]] == lines;
    }
  }

  lemma AddLinesSnoc(layers: seq<StrokeLayer>, lines: seq<Line>, line: Line)
    requires |layers| >= 1
    ensures AddLines(layers, lines + [line]) == AddLine(AddLines(layers, lines), line)
  {
    assert (lines + [line])[..|lines|] == lines;
  }

  lemma AddLineThenPoint(layers: seq<StrokeLayer>, line: Line, p: Point)
    requires |layers| >= 1
    ensures AddPoint(AddLine(layers, line), p) == AddLine(layers, line.(points := line.points + [p]))
  {
    var a := AddLine(layers, line);
    var n := |Current(a).lines|;
    assert Current(a).lines[..n - 1] == Current(layers).lines;
  }

  /** The moves of `ops` made by a turtle whose state was `s` (with its
      stroke unchanged), or its state now is `Replay(s, ops)`. */
  ghost predicate Replayed(t: Turtle, s: Pen, ops: seq<PenOp>)
    reads t
  {
    |s.layers| >= 1 && t.State() == Replay(s, ops, t.color, t.diameter)
  }

  /** One `jump_to` or `move_to` on top of earlier moves. */
  lemma StepReplayed(t0: Pen, ops: seq<PenOp>, op: PenOp, before: Pen, after: Pen, color: string, diameter: real)
    requires |t0.layers| >= 1 && before == Replay(t0, ops, color, diameter)
    requires after == ApplyOp(before, op, color, diameter)
    ensures after == Replay(t0, ops + [op], color, diameter)
  {
    ReplaySnoc(t0, ops, op, color, diameter);
  }

  /** `move_to` as a pen move. */
  method MoveStep(t: Turtle, p: Point, ghost s0: Pen, ghost done: seq<PenOp>)
    requires t.Valid() && Replayed(t, s0, done)
    modifies t
    ensures t.Valid() && t.color == old(t.color) && t.diameter == old(t.diameter)
    ensures Replayed(t, s0, done + [Move(p)])
  {
    ghost var before := t.State();
    t.MoveTo(p.x, p.y);
    StepReplayed(s0, done, Move(p), before, t.State(), t.color, t.diameter);
  }

  /** `jump_to` as a pen move. */
  method JumpStep(t: Turtle, p: Point, ghost s0: Pen, ghost done: seq<PenOp>)
    requires t.Valid() && Replayed(t, s0, done)
    modifies t
    ensures t.Valid() && t.color == old(t.color) && t.diameter == old(t.diameter)
    ensures Replayed(t, s0, done + [Jump(p)])
  {
    ghost var before := t.State();
    t.JumpTo(p.x, p.y);
    StepReplayed(s0, done, Jump(p), before, t.State(), t.color, t.diameter);
  }

  // ---------------------------------------------------------------------
  // Properties of the document and its queries
  // ---------------------------------------------------------------------

  lemma {:induction false} SegmentsPlusLinesIn(lines: seq<Line>)
    requires forall j :: 0 <= j < |lines| ==> |lines[j].points| >= 1
    ensures SegmentsIn(lines) + |lines| == PointsIn(lines)
    decreases |lines|
  {
    if lines != [] {
      SegmentsPlusLinesIn(lines[..|lines| - 1]);
    }
  }

  /** With no empty line, `count_lines` + number of lines == `count_points`:
      each line of n points contributes n - 1 segments. */
  lemma {:induction false} SegmentsPlusLines(layers: seq<StrokeLayer>)
    requires LinesNonEmpty(layers)
    ensures SegmentTotal(layers) + LineTotal(layers) == PointTotal(layers)
    decreases |layers|
  {
    if layers != [] {
      var n := |layers| - 1;
      assert forall i :: 0 <= i < n ==> layers[..n][i] == layers[i];
      SegmentsPlusLines(layers[..n]);
      SegmentsPlusLinesIn(layers[n].lines);
    }
  }

  lemma {:induction false} DrawnInIffSegments(lines: seq<Line>)
    ensures DrawnIn(lines) != [] <==> SegmentsIn(lines) > 0
    decreases |lines|
  {
    if lines != [] {
      DrawnInIffSegments(lines[..|lines| - 1]);
    }
  }

  /** `has_content` (a line with two points exists) holds exactly when
      `count_lines` is positive. */
  lemma {:induction false} DrawnIffSegments(layers: seq<StrokeLayer>)
    ensures Drawn(layers) != [] <==> SegmentTotal(layers) > 0
    decreases |layers|
  {
    if layers != [] {
      DrawnIffSegments(layers[..|layers| - 1]);
      DrawnInIffSegments(Current(layers).lines);
    }
  }

  lemma {:induction false} PointSeqInLength(lines: seq<Line>)
    ensures |PointSeqIn(lines)| == PointsIn(lines)
    decreases |lines|
  {
    if lines != [] {
      PointSeqInLength(lines[..|lines| - 1]);
    }
  }

  /** `get_bounds` visits exactly `count_points` points. */
  lemma {:induction false} AllPointsLength(layers: seq<StrokeLayer>)
    ensures |AllPoints(layers)| == PointTotal(layers)
    decreases |layers|
  {
    if layers != [] {
      AllPointsLength(layers[..|layers| - 1]);
      PointSeqInLength(Current(layers).lines);
    }
  }

  ghost predicate Inside(b: Bounds, p: Point) {
    b.minX <= p.x <= b.maxX && b.minY <= p.y <= b.maxY
  }

  /** The min/max accumulation: no box for no points; otherwise a box
      whose sides are attained, that holds every point, and whose width
      and height are the extents. */
  lemma {:induction false} BoxOfCovers(pts: seq<Point>)
    ensures BoxOf(pts).None? <==> pts == []
    ensures BoxOf(pts).Some? ==>
      var b := BoxOf(pts).value;
      && b.width == b.maxX - b.minX && b.height == b.maxY - b.minY
      && (forall k :: 0 <= k < |pts| ==> Inside(b, pts[k]))
      && (exists k :: 0 <= k < |pts| && pts[k].x == b.minX)
      && (exists k :: 0 <= k < |pts| && pts[k].x == b.maxX)
      && (exists k :: 0 <= k < |pts| && pts[k].y == b.minY)
      && (exists k :: 0 <= k < |pts| && pts[k].y == b.maxY)
    decreases |pts|
  {
    if pts != [] {
      var n := |pts| - 1;
      BoxOfCovers(pts[..n]);
      if n > 0 {
        var b0 := BoxOf(pts[..n]).value;
        var b := BoxOf(pts).value;
        assert forall k :: 0 <= k < n ==> pts[..n][k] == pts[k];
        if b.minX != pts[n].x {
          var k :| 0 <= k < n && pts[..n][k].x == b0.minX;
          assert pts[k].x == b.minX;
        }
        if b.maxX != pts[n].x {
          var k :| 0 <= k < n && pts[..n][k].x == b0.maxX;
          assert pts[k].x == b.maxX;
        }
        if b.minY != pts[n].y {
          var k :| 0 <= k < n && pts[..n][k].y == b0.minY;
          assert pts[k].y == b.minY;
        }
        if b.maxY != pts[n].y {
          var k :| 0 <= k < n && pts[..n][k].y == b0.maxY;
          assert pts[k].y == b.maxY;
        }
      }
    }
  }

  lemma {:induction false} PointSeqInHas(lines: seq<Line>, j: nat, k: nat)
    requires j < |lines| && k < |lines[j].points|
    ensures lines[j].points[k] in PointSeqIn(lines)
    decreases |lines|
  {
    if j < |lines| - 1 {
      PointSeqInHas(lines[..|lines| - 1], j, k);
    }
  }

  lemma {:induction false} AllPointsHas(layers: seq<StrokeLayer>, i: nat, j: nat, k: nat)
    requires i < |layers| && j < |layers[i].lines| && k < |layers[i].lines[j].points|
    ensures layers[i].lines[j].points[k] in AllPoints(layers)
    decreases |layers|
  {
    if i < |layers| - 1 {
      AllPointsHas(layers[..|layers| - 1], i, j, k);
    } else {
      PointSeqInHas(layers[i].lines, j, k);
    }
  }

  /** `get_bounds`: the all-zero box when there is no point, otherwise a
      box holding every point of every line. */
  lemma BoundsCover(layers: seq<StrokeLayer>)
    ensures PointTotal(layers) == 0 ==> BoundsOf(layers) == NoBounds
    ensures forall i, j, k :: 0 <= i < |layers| && 0 <= j < |layers[i].lines| && 0 <= k < |layers[i].lines[j].points| ==>
      Inside(BoundsOf(layers), layers[i].lines[j].points[k])
  {
    AllPointsLength(layers);
    BoxOfCovers(AllPoints(layers));
    forall i, j, k | 0 <= i < |layers| && 0 <= j < |layers[i].lines| && 0 <= k < |layers[i].lines[j].points|
      ensures Inside(BoundsOf(layers), layers[i].lines[j].points[k])
    {
      AllPointsHas(layers, i, j, k);
    }
  }

  lemma MapLinesPrefix(lines: seq<Line>, f: Point -> Point, n: nat)
    requires n <= |lines|
    ensures MapLines(lines, f)[..n] == MapLines(lines[..n], f)
  {
  }

  lemma MapLayersPrefix(layers: seq<StrokeLayer>, f: Point -> Point, n: nat)
    requires n <= |layers|
    ensures MapLayers(layers, f)[..n] == MapLayers(layers[..n], f)
  {
  }

  lemma {:induction false} MapLinesCounts(lines: seq<Line>, f: Point -> Point)
    ensures PointsIn(MapLines(lines, f)) == PointsIn(lines)
    ensures SegmentsIn(MapLines(lines, f)) == SegmentsIn(lines)
    decreases |lines|
  {
    if lines != [] {
      var n := |lines| - 1;
      MapLinesPrefix(lines, f, n);
      MapLinesCounts(lines[..n], f);
    }
  }

  /** `translate` and `scale` keep the number of layers, lines, points
      and segments. */
  lemma {:induction false} MapLayersCounts(layers: seq<StrokeLayer>, f: Point -> Point)
    ensures |MapLayers(layers, f)| == |layers|
    ensures LineTotal(MapLayers(layers, f)) == LineTotal(layers)
    ensures PointTotal(MapLayers(layers, f)) == PointTotal(layers)
    ensures SegmentTotal(MapLayers(layers, f)) == SegmentTotal(layers)
    decreases |layers|
  {
    if layers != [] {
      var n := |layers| - 1;
      MapLayersPrefix(layers, f, n);
      MapLayersCounts(layers[..n], f);
      MapLinesCounts(layers[n].lines, f);
    }
  }

  /** A map whose function fixes every point changes nothing. */
  lemma MapLayersIdentity(layers: seq<StrokeLayer>, f: Point -> Point)
    requires forall p: Point :: f(p) == p
    ensures MapLayers(layers, f) == layers
  {
    forall i | 0 <= i < |layers|
      ensures MapLayer(layers[i], f) == layers[i]
    {
      var lines := layers[i].lines;
      forall j | 0 <= j < |lines|
        ensures MapLine(lines[j], f) == lines[j]
      {
        assert MapLine(lines[j], f).points == lines[j].points;
      }
      assert MapLines(lines, f) == lines;
    }
  }

  /** `translate(0, 0)` and `scale(1)` change no point. */
  lemma NeutralTransforms(layers: seq<StrokeLayer>)
    ensures MapLayers(layers, Shift(0.0, 0.0)) == layers
    ensures MapLayers(layers, Stretch(1.0, 1.0)) == layers
  {
    MapLayersIdentity(layers, Shift(0.0, 0.0));
    MapLayersIdentity(layers, Stretch(1.0, 1.0));
  }

  /** Mapping twice is mapping once by the composition. */
  lemma MapLayersCompose(layers: seq<StrokeLayer>, f: Point -> Point, g: Point -> Point, h: Point -> Point)
    requires forall p: Point :: h(p) == g(f(p))
    ensures MapLayers(MapLayers(layers, f), g) == MapLayers(layers, h)
  {
    forall i | 0 <= i < |layers|
      ensures MapLayer(MapLayer(layers[i], f), g) == MapLayer(layers[i], h)
    {
      var lines := layers[i].lines;
      forall j | 0 <= j < |lines|
        ensures MapLine(MapLine(lines[j], f), g) == MapLine(lines[j], h)
      {
      }
      assert MapLines(MapLines(lines, f), g) == MapLines(lines, h);
    }
  }

  /** Two translations add up. */
  lemma TranslateTwice(layers: seq<StrokeLayer>, dx1: real, dy1: real, dx2: real, dy2: real)
    ensures MapLayers(MapLayers(layers, Shift(dx1, dy1)), Shift(dx2, dy2)) == MapLayers(layers, Shift(dx1 + dx2, dy1 + dy2))
  {
    MapLayersCompose(layers, Shift(dx1, dy1), Shift(dx2, dy2), Shift(dx1 + dx2, dy1 + dy2));
  }

  /** `fit_to_bounds` leaves a drawing that is flat in either direction
      alone, and a drawing with no points is flat. */
  lemma FitFlatUnchanged(layers: seq<StrokeLayer>, left: real, bottom: real, right: real, top: real, maintainAspect: bool)
    requires PointTotal(layers) == 0 || BoundsOf(layers).width == 0.0 || BoundsOf(layers).height == 0.0
    ensures Fitted(layers, left, bottom, right, top, maintainAspect) == layers
  {
    BoundsCover(layers);
  }

  // ---------------------------------------------------------------------
  // What centring and fitting do to the bounds
  // ---------------------------------------------------------------------

  function MapPoints(pts: seq<Point>, f: Point -> Point): (r: seq<Point>)
    ensures |r| == |pts|
  {
    seq(|pts|, k requires 0 <= k < |pts| => f(pts[k]))
  }

  /** `b` moved by `(dx, dy)`; its extents do not change. */
  function ShiftBox(b: Bounds, dx: real, dy: real): Bounds {
    Bounds(b.minX + dx, b.minY + dy, b.maxX + dx, b.maxY + dy, b.width, b.height)
  }

  lemma MapPointsAppend(a: seq<Point>, b: seq<Point>, f: Point -> Point)
    ensures MapPoints(a + b, f) == MapPoints(a, f) + MapPoints(b, f)
  {
    assert forall k :: 0 <= k < |a + b| ==> MapPoints(a + b, f)[k] == (MapPoints(a, f) + MapPoints(b, f))[k];
  }

  lemma {:induction false} PointSeqInMap(lines: seq<Line>, f: Point -> Point)
    ensures PointSeqIn(MapLines(lines, f)) == MapPoints(PointSeqIn(lines), f)
    decreases |lines|
  {
    if lines != [] {
      var n := |lines| - 1;
      MapLinesPrefix(lines, f, n);
      PointSeqInMap(lines[..n], f);
      MapPointsAppend(PointSeqIn(lines[..n]), lines[n].points, f);
    }
  }

  /** The points of a mapped drawing are the images of its points, in order. */
  lemma {:induction false} AllPointsMap(layers: seq<StrokeLayer>, f: Point -> Point)
    ensures AllPoints(MapLayers(layers, f)) == MapPoints(AllPoints(layers), f)
    decreases |layers|
  {
    if layers != [] {
      var n := |layers| - 1;
      MapLayersPrefix(layers, f, n);
      AllPointsMap(layers[..n], f);
      PointSeqInMap(layers[n].lines, f);
      MapPointsAppend(AllPoints(layers[..n]), PointSeqIn(layers[n].lines), f);
    }
  }

  lemma {:induction false} BoxOfShift(pts: seq<Point>, dx: real, dy: real)
    requires pts != []
    ensures BoxOf(MapPoints(pts, Shift(dx, dy))) == Some(ShiftBox(BoxOf(pts).value, dx, dy))
    decreases |pts|
  {
    var n := |pts| - 1;
    assert MapPoints(pts, Shift(dx, dy))[..n] == MapPoints(pts[..n], Shift(dx, dy));
    if n > 0 {
      BoxOfShift(pts[..n], dx, dy);
    }
  }

  /** `translate` moves the bounds by the same offset and keeps their
      extents; a drawing with no points keeps the all-zero box. */
  lemma ShiftedBounds(layers: seq<StrokeLayer>, dx: real, dy: real)
    ensures PointTotal(layers) == 0 ==> BoundsOf(MapLayers(layers, Shift(dx, dy))) == NoBounds
    ensures PointTotal(layers) > 0 ==> BoundsOf(MapLayers(layers, Shift(dx, dy))) == ShiftBox(BoundsOf(layers), dx, dy)
  {
    AllPointsMap(layers, Shift(dx, dy));
    AllPointsLength(layers);
    if PointTotal(layers) > 0 {
      BoxOfShift(AllPoints(layers), dx, dy);
    }
  }

  /** `center_on(cx, cy)`: afterwards the centre of the bounds of a drawing
      with points is `(cx, cy)`, and its extents are unchanged. */
  lemma CenteredOn(layers: seq<StrokeLayer>, cx: real, cy: real)
    requires PointTotal(layers) > 0
    ensures var b := BoundsOf(layers);
      var c := BoundsOf(MapLayers(layers, Shift(cx - (b.minX + b.maxX) / 2.0, cy - (b.minY + b.maxY) / 2.0)));
      && (c.minX + c.maxX) / 2.0 == cx && (c.minY + c.maxY) / 2.0 == cy
      && c.width == b.width && c.height == b.height
  {
    var b := BoundsOf(layers);
    ShiftedBounds(layers, cx - (b.minX + b.maxX) / 2.0, cy - (b.minY + b.maxY) / 2.0);
  }

  /** The bounds are well ordered and their width and height are their spans. */
  lemma BoundsShape(layers: seq<StrokeLayer>)
    ensures var b := BoundsOf(layers);
      b.minX <= b.maxX && b.minY <= b.maxY && b.width == b.maxX - b.minX && b.height == b.maxY - b.minY
  {
    BoxOfCovers(AllPoints(layers));
  }

  /** The single map that the three steps of `fit_to_bounds` make up. */
  function FitMap(dx: real, dy: real, sx: real, sy: real, cx: real, cy: real): Point -> Point {
    (p: Point) => Point((p.x + dx) * sx + cx, (p.y + dy) * sy + cy)
  }

  lemma FittedIsOneMap(layers: seq<StrokeLayer>, dx: real, dy: real, sx: real, sy: real, cx: real, cy: real)
    ensures MapLayers(MapLayers(MapLayers(layers, Shift(dx, dy)), Stretch(sx, sy)), Shift(cx, cy))
         == MapLayers(layers, FitMap(dx, dy, sx, sy, cx, cy))
  {
    var g := (p: Point) => Point((p.x + dx) * sx, (p.y + dy) * sy);
    MapLayersCompose(layers, Shift(dx, dy), Stretch(sx, sy), g);
    MapLayersCompose(layers, g, Shift(cx, cy), FitMap(dx, dy, sx, sy, cx, cy));
  }

  /** One coordinate: a value in `[lo, lo + w]`, moved so the span is centred
      on zero, scaled by at most `(c - a) / w` and moved to the middle of
      `[a, c]`, lands in `[a, c]`. */
  lemma AxisFits(x: real, lo: real, w: real, s: real, a: real, c: real)
    requires 0.0 < w && lo <= x <= lo + w
    requires a <= c && 0.0 <= s <= (c - a) / w
    ensures a <= (x + (-lo - w / 2.0)) * s + (a + c) / 2.0 <= c
  {
    var u := x + (-lo - w / 2.0);
    var half := w / 2.0;
    assert 0.0 <= half - u && 0.0 <= half + u;
    MulNonNegative(half - u, s);
    MulNonNegative(half + u, s);
    assert u * s <= half * s && -(half * s) <= u * s;
    MulNonNegative((c - a) / w - s, w);
    assert (c - a) / w * w == c - a;
    assert half * s <= (c - a) / 2.0;
  }

  lemma MulNonNegative(m: real, n: real)
    requires 0.0 <= m && 0.0 <= n
    ensures 0.0 <= m * n
  {
  }

  lemma FitScalesBound(b: Bounds, left: real, right: real, bottom: real, top: real, maintainAspect: bool)
    requires 0.0 < b.width && 0.0 < b.height && left <= right && bottom <= top
    ensures 0.0 <= FitScaleX(b, left, right, bottom, top, maintainAspect) <= (right - left) / b.width
    ensures 0.0 <= FitScaleY(b, left, right, bottom, top, maintainAspect) <= (top - bottom) / b.height
  {
  }

  /** The image of one point under `FitMap` when the target box is well ordered. */
  lemma FitMapInside(b: Bounds, p: Point, sx: real, sy: real, left: real, right: real, bottom: real, top: real)
    requires 0.0 < b.width && 0.0 < b.height && left <= right && bottom <= top
    requires b.maxX == b.minX + b.width && b.maxY == b.minY + b.height && Inside(b, p)
    requires 0.0 <= sx <= (right - left) / b.width && 0.0 <= sy <= (top - bottom) / b.height
    ensures var q := FitMap(-b.minX - b.width / 2.0, -b.minY - b.height / 2.0, sx, sy, (left + right) / 2.0, (bottom + top) / 2.0)(p);
      left <= q.x <= right && bottom <= q.y <= top
  {
    AxisFits(p.x, b.minX, b.width, sx, left, right);
    AxisFits(p.y, b.minY, b.height, sy, bottom, top);
  }

  lemma MapLayersAt(layers: seq<StrokeLayer>, f: Point -> Point, i: nat, j: nat, k: nat)
    requires i < |layers| && j < |layers[i].lines| && k < |layers[i].lines[j].points|
    ensures j < |MapLayers(layers, f)[i].lines| && k < |MapLayers(layers, f)[i].lines[j].points|
    ensures MapLayers(layers, f)[i].lines[j].points[k] == f(layers[i].lines[j].points[k])
  {
  }

  lemma FittedAsMap(layers: seq<StrokeLayer>, left: real, bottom: real, right: real, top: real, maintainAspect: bool)
    requires BoundsOf(layers).width != 0.0 && BoundsOf(layers).height != 0.0
    ensures var b := BoundsOf(layers);
      Fitted(layers, left, bottom, right, top, maintainAspect)
        == MapLayers(layers, FitMap(-b.minX - b.width / 2.0, -b.minY - b.height / 2.0,
                                    FitScaleX(b, left, right, bottom, top, maintainAspect),
                                    FitScaleY(b, left, right, bottom, top, maintainAspect),
                                    (left + right) / 2.0, (bottom + top) / 2.0))
  {
    var b := BoundsOf(layers);
    FittedIsOneMap(layers, -b.minX - b.width / 2.0, -b.minY - b.height / 2.0,
                   FitScaleX(b, left, right, bottom, top, maintainAspect),
                   FitScaleY(b, left, right, bottom, top, maintainAspect),
                   (left + right) / 2.0, (bottom + top) / 2.0);
  }

  /** `fit_to_bounds` with a well-ordered target box puts every point of a
      drawing that is not flat inside that box, whether or not the aspect
      ratio is kept. */
  lemma FittedInside(layers: seq<StrokeLayer>, left: real, bottom: real, right: real, top: real, maintainAspect: bool)
    requires left <= right && bottom <= top
    requires BoundsOf(layers).width != 0.0 && BoundsOf(layers).height != 0.0
    ensures var f := Fitted(layers, left, bottom, right, top, maintainAspect);
      forall i, j, k :: 0 <= i < |f| && 0 <= j < |f[i].lines| && 0 <= k < |f[i].lines[j].points| ==>
        left <= f[i].lines[j].points[k].x <= right && bottom <= f[i].lines[j].points[k].y <= top
  {
    var b := BoundsOf(layers);
    BoundsShape(layers);
    BoundsCover(layers);
    var sx := FitScaleX(b, left, right, bottom, top, maintainAspect);
    var sy := FitScaleY(b, left, right, bottom, top, maintainAspect);
    FitScalesBound(b, left, right, bottom, top, maintainAspect);
    var h := FitMap(-b.minX - b.width / 2.0, -b.minY - b.height / 2.0, sx, sy, (left + right) / 2.0, (bottom + top) / 2.0);
    forall i, j, k | 0 <= i < |layers| && 0 <= j < |layers[i].lines| && 0 <= k < |layers[i].lines[j].points|
      ensures InBox(h(layers[i].lines[j].points[k]), left, bottom, right, top)
    {
      FitMapInside(b, layers[i].lines[j].points[k], sx, sy, left, right, bottom, top);
    }
    MappedInside(layers, h, left, bottom, right, top);
    FittedAsMap(layers, left, bottom, right, top, maintainAspect);
    assert Fitted(layers, left, bottom, right, top, maintainAspect) == MapLayers(layers, h);
  }

  predicate InBox(p: Point, left: real, bottom: real, right: real, top: real) {
    left <= p.x <= right && bottom <= p.y <= top
  }

  /** A map that sends every point of a drawing into a box leaves the
      mapped drawing inside that box. */
  lemma MappedInside(layers: seq<StrokeLayer>, h: Point -> Point, left: real, bottom: real, right: real, top: real)
    requires forall i, j, k :: 0 <= i < |layers| && 0 <= j < |layers[i].lines| && 0 <= k < |layers[i].lines[j].points| ==>
      InBox(h(layers[i].lines[j].points[k]), left, bottom, right, top)
    ensures var f := MapLayers(layers, h);
      forall i, j, k :: 0 <= i < |f| && 0 <= j < |f[i].lines| && 0 <= k < |f[i].lines[j].points| ==>
        InBox(f[i].lines[j].points[k], left, bottom, right, top)
  {
    var f := MapLayers(layers, h);
    forall i, j, k | 0 <= i < |f| && 0 <= j < |f[i].lines| && 0 <= k < |f[i].lines[j].points|
      ensures InBox(f[i].lines[j].points[k], left, bottom, right, top)
    {
      MapLayersAt(layers, h, i, j, k);
    }
  }

  lemma DivSelf(x: real)
    requires x != 0.0
    ensures x / x == 1.0
  {
  }

  /** Fitting a drawing that is not flat to its own bounds changes nothing. */
  lemma FitOwnBoundsUnchanged(layers: seq<StrokeLayer>, maintainAspect: bool)
    requires BoundsOf(layers).width != 0.0 && BoundsOf(layers).height != 0.0
    ensures var b := BoundsOf(layers);
      Fitted(layers, b.minX, b.minY, b.maxX, b.maxY, maintainAspect) == layers
  {
    var b := BoundsOf(layers);
    BoundsShape(layers);
    var sx := FitScaleX(b, b.minX, b.maxX, b.minY, b.maxY, maintainAspect);
    var sy := FitScaleY(b, b.minX, b.maxX, b.minY, b.maxY, maintainAspect);
    assert b.maxX - b.minX == b.width && b.maxY - b.minY == b.height;
    DivSelf(b.width);
    DivSelf(b.height);
    assert sx == 1.0 && sy == 1.0;
    var dx, dy := -b.minX - b.width / 2.0, -b.minY - b.height / 2.0;
    var cx, cy := (b.minX + b.maxX) / 2.0, (b.minY + b.maxY) / 2.0;
    FittedIsOneMap(layers, dx, dy, sx, sy, cx, cy);
    MapLayersIdentity(layers, FitMap(dx, dy, sx, sy, cx, cy));
  }
}
