/** The discrete pattern generators of `turtle_generator.py`: the maze
    (recursive backtracking over a grid, with an explicit stack), the
    dragon curve (L-system rewriting), single-stroke text layout, the
    border, and the name dispatch of `generate`. */
module Generators {
  import opened Text
  import opened PathModel
  import opened Settings

  // ---------------------------------------------------------------------
  // Maze: the grid, its cells and its walls
  // ---------------------------------------------------------------------

  datatype Cell = Cell(row: int, col: int)

  /** `H(r, c)` is `walls['h'][r][c]`, the wall above cell (r, c);
      `V(r, c)` is `walls['v'][r][c]`, the wall left of cell (r, c). */
  datatype Wall = H(row: int, col: int) | V(row: int, col: int)

  /** A candidate move out of a cell: the neighbour and the direction. */
  datatype Step = Step(nr: int, nc: int, dr: int, dc: int)

  /** The directions the maze tries, in the source's order: up, down,
      left, right. */
  const Directions: seq<(int, int)> := [(-1, 0), (1, 0), (0, -1), (0, 1)]

  predicate InGrid(rows: int, cols: int, c: Cell) {
    0 <= c.row < rows && 0 <= c.col < cols
  }

  function Grid(rows: nat, cols: nat): set<Cell> {
    set r, c | 0 <= r < rows && 0 <= c < cols :: Cell(r, c)
  }

  /** The four cells next to `c`, inside the grid or not. */
  function Around(c: Cell, k: nat): Cell
    requires k < 4
  {
    Cell(c.row + Directions[k].0, c.col + Directions[k].1)
  }

  /** The wall the maze removes when it moves from `c` in direction
      (dr, dc). */
  function WallToward(c: Cell, dr: int, dc: int): Wall {
    if dr == -1 then H(c.row, c.col)
    else if dr == 1 then H(c.row + 1, c.col)
    else if dc == -1 then V(c.row, c.col)
    else V(c.row, c.col + 1)
  }

  /** The two cells a wall separates. */
  function Before(w: Wall): Cell {
    match w
    case H(r, c) => Cell(r - 1, c)
    case V(r, c) => Cell(r, c - 1)
  }

  function After(w: Wall): Cell {
    Cell(w.row, w.col)
  }

  /** A wall between two cells of the grid: not on the outer boundary. */
  predicate Interior(rows: int, cols: int, w: Wall) {
    InGrid(rows, cols, Before(w)) && InGrid(rows, cols, After(w))
  }

  /** Every neighbour of a cell inside the grid is in `vis`. */
  ghost predicate Closed(rows: int, cols: int, c: Cell, vis: set<Cell>) {
    forall k :: 0 <= k < 4 && InGrid(rows, cols, Around(c, k)) ==> Around(c, k) in vis
  }

  // ---------------------------------------------------------------------
  // Facts about the grid
  // ---------------------------------------------------------------------

  function RowCells(r: int, cols: nat): set<Cell> {
    set c | 0 <= c < cols :: Cell(r, c)
  }

  lemma {:induction false} RowCard(r: int, cols: nat)
    ensures |RowCells(r, cols)| == cols
    decreases cols
  {
    if cols > 0 {
      RowCard(r, cols - 1);
      assert RowCells(r, cols) == RowCells(r, cols - 1) + {Cell(r, cols - 1)};
    } else {
      assert RowCells(r, cols) == {};
    }
  }

  /** The grid has rows * cols cells. */
  lemma {:induction false} GridCard(rows: nat, cols: nat)
    ensures |Grid(rows, cols)| == rows * cols
    decreases rows
  {
    if rows > 0 {
      GridCard(rows - 1, cols);
      RowCard(rows - 1, cols);
      GridSplit(rows, cols);
      assert (rows - 1) * cols + cols == rows * cols;
    } else {
      assert Grid(rows, cols) == {};
    }
  }

  /** The grid is the grid one row shorter plus its last row. */
  lemma GridSplit(rows: nat, cols: nat)
    requires rows > 0
    ensures Grid(rows, cols) == Grid(rows - 1, cols) + RowCells(rows - 1, cols)
    ensures Grid(rows - 1, cols) !! RowCells(rows - 1, cols)
  {
    forall x | x in Grid(rows, cols)
      ensures x in Grid(rows - 1, cols) + RowCells(rows - 1, cols)
    {
      if x.row < rows - 1 {
        assert x in Grid(rows - 1, cols);
      } else {
        assert x in RowCells(rows - 1, cols);
      }
    }
  }

  /** The grid is connected: a set of cells that holds (0, 0) and every
      in-grid neighbour of each of its cells holds the whole grid. */
  lemma Connected(rows: nat, cols: nat, vis: set<Cell>)
    requires rows >= 1 && cols >= 1 && Cell(0, 0) in vis
    requires forall c :: c in vis && InGrid(rows, cols, c) ==> Closed(rows, cols, c, vis)
    ensures Grid(rows, cols) <= vis
  {
    forall c | c in Grid(rows, cols)
      ensures c in vis
    {
      ReachCell(rows, cols, vis, c.row, c.col);
    }
  }

  lemma {:induction false} ReachCell(rows: nat, cols: nat, vis: set<Cell>, r: int, c: int)
    requires rows >= 1 && cols >= 1 && Cell(0, 0) in vis
    requires forall x :: x in vis && InGrid(rows, cols, x) ==> Closed(rows, cols, x, vis)
    requires 0 <= r < rows && 0 <= c < cols
    ensures Cell(r, c) in vis
    decreases r + c
  {
    if r > 0 {
      ReachCell(rows, cols, vis, r - 1, c);
      assert Around(Cell(r - 1, c), 1) == Cell(r, c);
    } else if c > 0 {
      ReachCell(rows, cols, vis, r, c - 1);
      assert Around(Cell(r, c - 1), 3) == Cell(r, c);
    }
  }

  // ---------------------------------------------------------------------
  // Maze carving (`_generate_maze`, the backtracking loop)
  // ---------------------------------------------------------------------

  /** The in-grid, unvisited neighbours among the first `k` directions,
      in direction order. */
  function NeighboursUpTo(visited: array2<bool>, row: int, col: int, k: nat): seq<Step>
    requires k <= 4
    reads visited
  {
    if k == 0 then []
    else
      var rest := NeighboursUpTo(visited, row, col, k - 1);
      var (dr, dc) := Directions[k - 1];
      var nr, nc := row + dr, col + dc;
      if 0 <= nr < visited.Length0 && 0 <= nc < visited.Length1 && !visited[nr, nc]
      then rest + [Step(nr, nc, dr, dc)]
      else rest
  }

  /** Every candidate is an in-grid, unvisited cell next to (row, col),
      reached by one of the four directions, and every such cell is a
      candidate. */
  lemma {:induction false} NeighboursSpec(visited: array2<bool>, row: int, col: int, k: nat)
    requires k <= 4
    ensures forall s :: s in NeighboursUpTo(visited, row, col, k) ==>
      exists j :: 0 <= j < k && (s.dr, s.dc) == Directions[j] && s.nr == row + s.dr && s.nc == col + s.dc
        && 0 <= s.nr < visited.Length0 && 0 <= s.nc < visited.Length1 && !visited[s.nr, s.nc]
    ensures forall j :: 0 <= j < k ==>
      var c := Around(Cell(row, col), j);
      (0 <= c.row < visited.Length0 && 0 <= c.col < visited.Length1 && !visited[c.row, c.col]) ==>
        Step(c.row, c.col, Directions[j].0, Directions[j].1) in NeighboursUpTo(visited, row, col, k)
    decreases k
  {
    if k > 0 {
      NeighboursSpec(visited, row, col, k - 1);
    }
  }

  /** The loop over the four directions. */
  method Neighbours(visited: array2<bool>, row: int, col: int) returns (ns: seq<Step>)
    ensures ns == NeighboursUpTo(visited, row, col, 4)
  {
    ns := [];
    var k := 0;
    while k < 4
      invariant k <= 4 && ns == NeighboursUpTo(visited, row, col, k)
    {
      var (dr, dc) := Directions[k];
      var nr, nc := row + dr, col + dc;
      if 0 <= nr < visited.Length0 && 0 <= nc < visited.Length1 && !visited[nr, nc] {
        ns := ns + [Step(nr, nc, dr, dc)];
      }
      k := k + 1;
    }
  }

  /** The walls that are down. */
  ghost function OpenWalls(h: array2<bool>, v: array2<bool>): set<Wall>
    reads h, v
  {
    (set r, c | 0 <= r < h.Length0 && 0 <= c < h.Length1 && !h[r, c] :: H(r, c))
      + (set r, c | 0 <= r < v.Length0 && 0 <= c < v.Length1 && !v[r, c] :: V(r, c))
  }

  /** `visited` marks exactly the cells of `vis`. */
  ghost predicate VisitedMirror(rows: nat, cols: nat, visited: array2<bool>, vis: set<Cell>)
    reads visited
  {
    && visited.Length0 == rows && visited.Length1 == cols
    && forall r, c :: 0 <= r < rows && 0 <= c < cols ==> (visited[r, c] <==> Cell(r, c) in vis)
  }

  /** The walls still up are exactly those not in `removed`. */
  ghost predicate WallsMirror(rows: nat, cols: nat, h: array2<bool>, v: array2<bool>, removed: set<Wall>)
    reads h, v
  {
    && h.Length0 == rows + 1 && h.Length1 == cols
    && v.Length0 == rows && v.Length1 == cols + 1
    && (forall r, c :: 0 <= r <= rows && 0 <= c < cols ==> (h[r, c] <==> H(r, c) !in removed))
    && (forall r, c :: 0 <= r < rows && 0 <= c <= cols ==> (v[r, c] <==> V(r, c) !in removed))
  }

  /** Every removed wall lies between two visited cells, and one wall is
      removed per cell visited after (0, 0). */
  ghost predicate Spanning(rows: nat, cols: nat, vis: set<Cell>, removed: set<Wall>) {
    && vis <= Grid(rows, cols) && Cell(0, 0) in vis
    && (forall w :: w in removed ==> Interior(rows, cols, w) && Before(w) in vis && After(w) in vis)
    && |removed| == |vis| - 1
  }

  /** The stack holds visited cells, and a visited cell off the stack has
      no unvisited neighbour. */
  ghost predicate Backtracking(rows: nat, cols: nat, stack: seq<Cell>, vis: set<Cell>) {
    && (forall c :: c in stack ==> c in vis)
    && (forall c :: c in vis && c !in stack ==> Closed(rows, cols, c, vis))
  }

  /** Some wall of `removed` separates `a` from `b`. */
  ghost predicate Joins(removed: set<Wall>, a: Cell, b: Cell) {
    exists w :: w in removed && ((Before(w) == a && After(w) == b) || (Before(w) == b && After(w) == a))
  }

  /** A walk through the maze: each cell is reached from the one before it
      through a removed wall. */
  ghost predicate MazeWalk(removed: set<Wall>, p: seq<Cell>) {
    forall i :: 0 < i < |p| ==> Joins(removed, p[i - 1], p[i])
  }

  /** Some walk through the removed walls leads from (0, 0) to `c`. */
  ghost predicate Reachable(removed: set<Wall>, c: Cell) {
    exists p :: MazeWalk(removed, p) && |p| >= 1 && p[0] == Cell(0, 0) && p[|p| - 1] == c
  }

  /** The stack is a walk from (0, 0), and every visited cell can be
      reached from (0, 0) through the walls removed so far. */
  ghost predicate Linked(stack: seq<Cell>, vis: set<Cell>, removed: set<Wall>) {
    && (stack != [] ==> stack[0] == Cell(0, 0))
    && MazeWalk(removed, stack)
    && (forall c :: c in vis ==> Reachable(removed, c))
  }

  /** Removing more walls keeps every walk a walk. */
  lemma MazeWalkGrows(removed: set<Wall>, more: set<Wall>, p: seq<Cell>)
    requires removed <= more && MazeWalk(removed, p)
    ensures MazeWalk(more, p)
  {
    forall i | 0 < i < |p|
      ensures Joins(more, p[i - 1], p[i])
    {
      assert Joins(removed, p[i - 1], p[i]);
      var w :| w in removed && ((Before(w) == p[i - 1] && After(w) == p[i]) || (Before(w) == p[i] && After(w) == p[i - 1]));
      assert w in more;
    }
  }

  /** A walk extended through one more removed wall. */
  lemma MazeWalkSnoc(removed: set<Wall>, p: seq<Cell>, next: Cell)
    requires p != [] && MazeWalk(removed, p) && Joins(removed, p[|p| - 1], next)
    ensures MazeWalk(removed, p + [next])
  {
    var q := p + [next];
    forall i | 0 < i < |q|
      ensures Joins(removed, q[i - 1], q[i])
    {
      if i < |p| {
        assert q[i - 1] == p[i - 1] && q[i] == p[i];
      }
    }
  }

  /** What the backtracking loop keeps. */
  ghost predicate Carving(rows: nat, cols: nat, visited: array2<bool>, h: array2<bool>, v: array2<bool>,
                          stack: seq<Cell>, vis: set<Cell>, removed: set<Wall>)
    reads visited, h, v
  {
    && VisitedMirror(rows, cols, visited, vis)
    && WallsMirror(rows, cols, h, v, removed)
    && Spanning(rows, cols, vis, removed)
    && Backtracking(rows, cols, stack, vis)
    && Linked(stack, vis, removed)
  }

  /** Backtracking from a cell with no unvisited neighbour. */
  lemma Pop(rows: nat, cols: nat, stack: seq<Cell>, vis: set<Cell>, removed: set<Wall>)
    requires stack != [] && Backtracking(rows, cols, stack, vis) && Linked(stack, vis, removed)
    requires Closed(rows, cols, stack[|stack| - 1], vis)
    ensures Backtracking(rows, cols, stack[..|stack| - 1], vis)
    ensures Linked(stack[..|stack| - 1], vis, removed)
  {
    var top := stack[|stack| - 1];
    var rest := stack[..|stack| - 1];
    forall i | 0 < i < |rest|
      ensures Joins(removed, rest[i - 1], rest[i])
    {
      assert rest[i - 1] == stack[i - 1] && rest[i] == stack[i];
    }
    forall c | c in stack[..|stack| - 1]
      ensures c in vis
    {
      assert c in stack;
    }
    forall c | c in vis && c !in stack[..|stack| - 1]
      ensures Closed(rows, cols, c, vis)
    {
      if c != top {
        assert stack == stack[..|stack| - 1] + [top];
        assert c !in stack;
      }
    }
  }

  /** Moving on to an unvisited neighbour and pushing it. */
  lemma Push(rows: nat, cols: nat, stack: seq<Cell>, vis: set<Cell>, removed: set<Wall>, w: Wall, next: Cell)
    requires Spanning(rows, cols, vis, removed) && Backtracking(rows, cols, stack, vis)
    requires stack != []
    requires InGrid(rows, cols, next) && next !in vis && Interior(rows, cols, w)
    requires var top := stack[|stack| - 1];
      (Before(w) == top && After(w) == next) || (Before(w) == next && After(w) == top)
    ensures Spanning(rows, cols, vis + {next}, removed + {w})
    ensures Backtracking(rows, cols, stack + [next], vis + {next})
  {
    var top := stack[|stack| - 1];
    assert top in stack;
    assert w !in removed;
    forall c | c in vis + {next} && c !in stack + [next]
      ensures Closed(rows, cols, c, vis + {next})
    {
      assert c in vis && c !in stack;
    }
  }

  /** Pushing a neighbour through the wall just removed keeps the stack a
      walk from (0, 0) and every visited cell reachable. */
  lemma PushLinked(stack: seq<Cell>, vis: set<Cell>, removed: set<Wall>, w: Wall, next: Cell)
    requires stack != [] && stack[|stack| - 1] in vis && Linked(stack, vis, removed)
    requires var top := stack[|stack| - 1];
      (Before(w) == top && After(w) == next) || (Before(w) == next && After(w) == top)
    ensures Linked(stack + [next], vis + {next}, removed + {w})
  {
    var top := stack[|stack| - 1];
    var more := removed + {w};
    assert Joins(more, top, next);
    MazeWalkGrows(removed, more, stack);
    MazeWalkSnoc(more, stack, next);
    forall c | c in vis + {next}
      ensures Reachable(more, c)
    {
      var target := if c == next then top else c;
      assert Reachable(removed, target);
      var p :| MazeWalk(removed, p) && |p| >= 1 && p[0] == Cell(0, 0) && p[|p| - 1] == target;
      MazeWalkGrows(removed, more, p);
      if c == next {
        MazeWalkSnoc(more, p, next);
        assert (p + [next])[0] == Cell(0, 0);
      }
    }
  }

  /** `walls[...][...] = False` for the wall toward (dr, dc). */
  method RemoveWall(rows: nat, cols: nat, h: array2<bool>, v: array2<bool>, top: Cell, dr: int, dc: int,
                    ghost removed: set<Wall>)
    requires h != v && WallsMirror(rows, cols, h, v, removed)
    requires InGrid(rows, cols, top) && (dr, dc) in Directions
    requires Interior(rows, cols, WallToward(top, dr, dc))
    modifies h, v
    ensures WallsMirror(rows, cols, h, v, removed + {WallToward(top, dr, dc)})
  {
    if dr == -1 {
      h[top.row, top.col] := false;
    } else if dr == 1 {
      h[top.row + 1, top.col] := false;
    } else if dc == -1 {
      v[top.row, top.col] := false;
    } else {
      v[top.row, top.col + 1] := false;
    }
  }

  method Visit(rows: nat, cols: nat, visited: array2<bool>, c: Cell, ghost vis: set<Cell>)
    requires VisitedMirror(rows, cols, visited, vis) && InGrid(rows, cols, c)
    modifies visited
    ensures VisitedMirror(rows, cols, visited, vis + {c})
  {
    visited[c.row, c.col] := true;
  }

  /** The wall toward a neighbour separates the cell from that neighbour. */
  lemma Toward(rows: nat, cols: nat, top: Cell, k: nat)
    requires k < 4 && InGrid(rows, cols, top) && InGrid(rows, cols, Around(top, k))
    ensures var w := WallToward(top, Directions[k].0, Directions[k].1);
      && Interior(rows, cols, w)
      && ((Before(w) == top && After(w) == Around(top, k)) || (Before(w) == Around(top, k) && After(w) == top))
  {
  }

  /** The branch of the loop that moves on: the wall toward the chosen
      neighbour comes down, the neighbour is marked and pushed. */
  method Advance(rows: nat, cols: nat, visited: array2<bool>, h: array2<bool>, v: array2<bool>,
                 stack: seq<Cell>, top: Cell, n: Step, ghost k: nat, ghost vis: set<Cell>, ghost removed: set<Wall>)
    returns (stack': seq<Cell>, ghost vis': set<Cell>, ghost removed': set<Wall>)
    requires visited != h && visited != v && h != v
    requires Carving(rows, cols, visited, h, v, stack, vis, removed)
    requires stack != [] && top == stack[|stack| - 1] && InGrid(rows, cols, top)
    requires k < 4 && (n.dr, n.dc) == Directions[k] && n.nr == top.row + n.dr && n.nc == top.col + n.dc
    requires InGrid(rows, cols, Cell(n.nr, n.nc)) && Cell(n.nr, n.nc) !in vis
    modifies visited, h, v
    ensures Carving(rows, cols, visited, h, v, stack', vis', removed')
    ensures vis' == vis + {Cell(n.nr, n.nc)} && vis' <= Grid(rows, cols)
  {
    var next := Cell(n.nr, n.nc);
    assert next == Around(top, k);
    Toward(rows, cols, top, k);
    ghost var w := WallToward(top, n.dr, n.dc);
    RemoveWall(rows, cols, h, v, top, n.dr, n.dc, removed);
    Visit(rows, cols, visited, next, vis);
    Push(rows, cols, stack, vis, removed, w, next);
    PushLinked(stack, vis, removed, w, next);
    stack' := stack + [next];
    vis' := vis + {next};
    removed' := removed + {w};
  }

  /** One pass of the backtracking loop: from the cell on top of the
      stack, move to a chosen unvisited neighbour, removing the wall
      between them, or backtrack when there is none. `choice` stands for
      `random.choice`. */
  method CarveStep(rows: nat, cols: nat, visited: array2<bool>, h: array2<bool>, v: array2<bool>,
                   stack: seq<Cell>, choice: nat, ghost vis: set<Cell>, ghost removed: set<Wall>)
    returns (stack': seq<Cell>, ghost vis': set<Cell>, ghost removed': set<Wall>)
    requires stack != [] && visited != h && visited != v && h != v
    requires Carving(rows, cols, visited, h, v, stack, vis, removed)
    modifies visited, h, v
    ensures Carving(rows, cols, visited, h, v, stack', vis', removed')
    ensures vis <= vis' <= Grid(rows, cols)
    ensures vis' == vis ==> stack' == stack[..|stack| - 1]
  {
    var top := stack[|stack| - 1];
    assert top in stack;
    var ns := Neighbours(visited, top.row, top.col);
    NeighboursSpec(visited, top.row, top.col, 4);
    if ns == [] {
      stack' := stack[..|stack| - 1];
      vis', removed' := vis, removed;
      forall k | 0 <= k < 4 && InGrid(rows, cols, Around(top, k))
        ensures Around(top, k) in vis
      {
        var a := Around(top, k);
        assert visited[a.row, a.col];
      }
      Pop(rows, cols, stack, vis, removed);
    } else {
      var n := ns[choice % |ns|];
      assert n in ns;
      ghost var k :| 0 <= k < 4 && (n.dr, n.dc) == Directions[k] && n.nr == top.row + n.dr && n.nc == top.col + n.dc;
      stack', vis', removed' := Advance(rows, cols, visited, h, v, stack, top, n, k, vis, removed);
    }
  }

  /** When the stack runs empty every cell has been visited and the walls
      that are down are exactly the removed ones: rows * cols - 1 of them,
      none on the boundary, through which every cell can be reached from
      (0, 0), so they form a spanning tree of the grid. */
  lemma Carved(rows: nat, cols: nat, visited: array2<bool>, h: array2<bool>, v: array2<bool>,
               vis: set<Cell>, removed: set<Wall>)
    requires rows >= 1 && cols >= 1
    requires Carving(rows, cols, visited, h, v, [], vis, removed)
    ensures forall r, c :: 0 <= r < rows && 0 <= c < cols ==> visited[r, c]
    ensures forall c :: 0 <= c < cols ==> h[0, c] && h[rows, c]
    ensures forall r :: 0 <= r < rows ==> v[r, 0] && v[r, cols]
    ensures OpenWalls(h, v) == removed
    ensures |OpenWalls(h, v)| == rows * cols - 1
    ensures forall r, c :: 0 <= r < rows && 0 <= c < cols ==> Reachable(OpenWalls(h, v), Cell(r, c))
  {
    Connected(rows, cols, vis);
    GridCard(rows, cols);
    assert vis == Grid(rows, cols);
    forall r, c | 0 <= r < rows && 0 <= c < cols
      ensures Reachable(removed, Cell(r, c))
    {
      assert Cell(r, c) in Grid(rows, cols);
    }
    forall w | w in removed
      ensures w in OpenWalls(h, v)
    {
      assert Interior(rows, cols, w);
    }
    forall c | 0 <= c < cols
      ensures h[0, c] && h[rows, c]
    {
      assert !Interior(rows, cols, H(0, c)) && !Interior(rows, cols, H(rows, c));
    }
    forall r | 0 <= r < rows
      ensures v[r, 0] && v[r, cols]
    {
      assert !Interior(rows, cols, V(r, 0)) && !Interior(rows, cols, V(r, cols));
    }
  }

  /** The set-up before the carving loop: every wall up, only (0, 0)
      visited, and (0, 0) alone on the stack. */
  method StartCarving(rows: nat, cols: nat)
    returns (visited: array2<bool>, h: array2<bool>, v: array2<bool>, stack: seq<Cell>,
             ghost vis: set<Cell>, ghost removed: set<Wall>)
    requires rows >= 1 && cols >= 1
    ensures fresh(visited) && fresh(h) && fresh(v)
    ensures stack == [Cell(0, 0)] && vis == {Cell(0, 0)} && removed == {}
    ensures Carving(rows, cols, visited, h, v, stack, vis, removed)
  {
    visited := new bool[rows, cols]((_, _) => false);
    h := new bool[rows + 1, cols]((_, _) => true);
    v := new bool[rows, cols + 1]((_, _) => true);
    stack := [Cell(0, 0)];
    vis, removed := {}, {};
    assert VisitedMirror(rows, cols, visited, vis);
    assert WallsMirror(rows, cols, h, v, removed);
    Visit(rows, cols, visited, Cell(0, 0), vis);
    vis := {Cell(0, 0)};
    assert Spanning(rows, cols, vis, removed);
    assert Backtracking(rows, cols, stack, vis);
    assert MazeWalk(removed, stack);
    assert Reachable(removed, Cell(0, 0));
  }

  /** `_generate_maze`'s carving loop. Needs a grid of at least one cell:
      the source indexes `visited[0][0]` first. `pick(i)` stands for the
      i-th call of `random.choice`. Ends with every cell visited and one
      wall removed per cell after the first, all of them inner walls, and
      every cell reachable from (0, 0) through them. */
  method CarveMaze(rows: nat, cols: nat, pick: nat -> nat)
    returns (visited: array2<bool>, h: array2<bool>, v: array2<bool>)
    requires rows >= 1 && cols >= 1
    ensures fresh(visited) && fresh(h) && fresh(v)
    ensures visited.Length0 == rows && visited.Length1 == cols
    ensures h.Length0 == rows + 1 && h.Length1 == cols && v.Length0 == rows && v.Length1 == cols + 1
    ensures forall r, c :: 0 <= r < rows && 0 <= c < cols ==> visited[r, c]
    ensures forall c :: 0 <= c < cols ==> h[0, c] && h[rows, c]
    ensures forall r :: 0 <= r < rows ==> v[r, 0] && v[r, cols]
    ensures forall w :: w in OpenWalls(h, v) ==> Interior(rows, cols, w)
    ensures |OpenWalls(h, v)| == rows * cols - 1
    ensures forall r, c :: 0 <= r < rows && 0 <= c < cols ==> Reachable(OpenWalls(h, v), Cell(r, c))
  {
    var stack;
    ghost var vis, removed;
    visited, h, v, stack, vis, removed := StartCarving(rows, cols);
    var draws := 0;
    while stack != []
      invariant fresh(visited) && fresh(h) && fresh(v)
      invariant visited != h && visited != v && h != v
      invariant Carving(rows, cols, visited, h, v, stack, vis, removed)
      decreases Grid(rows, cols) - vis, |stack|
    {
      stack, vis, removed := CarveStep(rows, cols, visited, h, v, stack, pick(draws), vis, removed);
      draws := draws + 1;
    }
    Carved(rows, cols, visited, h, v, vis, removed);
  }

  // ---------------------------------------------------------------------
  // Maze drawing (`_generate_maze`, the two wall loops)
  // ---------------------------------------------------------------------

  function WallAt(horizontal: bool, r: int, c: int): Wall {
    if horizontal then H(r, c) else V(r, c)
  }

  /** The walls of row `r` among its first `c` entries of `a` whose flag
      is `up`, left to right. */
  function RowWalls(a: array2<bool>, horizontal: bool, up: bool, r: nat, c: nat): seq<Wall>
    requires r < a.Length0 && c <= a.Length1
    reads a
  {
    if c == 0 then []
    else RowWalls(a, horizontal, up, r, c - 1) + (if a[r, c - 1] == up then [WallAt(horizontal, r, c - 1)] else [])
  }

  /** The same for the first `r` rows, top to bottom. */
  function GridWalls(a: array2<bool>, horizontal: bool, up: bool, r: nat): seq<Wall>
    requires r <= a.Length0
    reads a
  {
    if r == 0 then [] else GridWalls(a, horizontal, up, r - 1) + RowWalls(a, horizontal, up, r - 1, a.Length1)
  }

  /** The walls whose flag is `up`: the horizontal ones row by row, then
      the vertical ones, in the order the drawing loops visit them. */
  function Walls(h: array2<bool>, v: array2<bool>, up: bool): seq<Wall>
    reads h, v
  {
    GridWalls(h, true, up, h.Length0) + GridWalls(v, false, up, v.Length0)
  }

  /** The wall `a[row][col]` of the kind `horizontal`, flagged `up`. */
  predicate Flagged(a: array2<bool>, horizontal: bool, up: bool, w: Wall)
    reads a
  {
    w.H? == horizontal && 0 <= w.row < a.Length0 && 0 <= w.col < a.Length1 && a[w.row, w.col] == up
  }

  predicate Distinct(ws: seq<Wall>) {
    forall i, j :: 0 <= i < j < |ws| ==> ws[i] != ws[j]
  }

  lemma {:induction false} RowWallsHas(a: array2<bool>, horizontal: bool, up: bool, r: nat, c: nat)
    requires r < a.Length0 && c <= a.Length1
    ensures forall w :: w in RowWalls(a, horizontal, up, r, c) <==> Flagged(a, horizontal, up, w) && w.row == r && w.col < c
    decreases c
  {
    if c > 0 {
      RowWallsHas(a, horizontal, up, r, c - 1);
      var before := RowWalls(a, horizontal, up, r, c - 1);
      forall w
        ensures w in RowWalls(a, horizontal, up, r, c) <==> Flagged(a, horizontal, up, w) && w.row == r && w.col < c
      {
        if w == WallAt(horizontal, r, c - 1) {
          assert w in RowWalls(a, horizontal, up, r, c) <==> a[r, c - 1] == up;
        } else {
          assert w in RowWalls(a, horizontal, up, r, c) <==> w in before;
        }
      }
    }
  }

  lemma {:induction false} RowWallsDistinct(a: array2<bool>, horizontal: bool, up: bool, r: nat, c: nat)
    requires r < a.Length0 && c <= a.Length1
    ensures Distinct(RowWalls(a, horizontal, up, r, c))
    decreases c
  {
    if c > 0 {
      RowWallsDistinct(a, horizontal, up, r, c - 1);
      RowWallsHas(a, horizontal, up, r, c - 1);
      assert WallAt(horizontal, r, c - 1) !in RowWalls(a, horizontal, up, r, c - 1);
    }
  }

  lemma {:induction false} RowWallsCount(a: array2<bool>, horizontal: bool, up: bool, r: nat, c: nat)
    requires r < a.Length0 && c <= a.Length1
    ensures |RowWalls(a, horizontal, up, r, c)| + |RowWalls(a, horizontal, !up, r, c)| == c
    decreases c
  {
    if c > 0 {
      RowWallsCount(a, horizontal, up, r, c - 1);
    }
  }

  /** Row by row, the walls flagged `up` are listed once each, and the
      walls flagged one way or the other are all of the first `r` rows. */
  lemma {:induction false} GridWallsHas(a: array2<bool>, horizontal: bool, up: bool, r: nat)
    requires r <= a.Length0
    ensures forall w :: w in GridWalls(a, horizontal, up, r) <==> Flagged(a, horizontal, up, w) && w.row < r
    decreases r
  {
    if r > 0 {
      GridWallsHas(a, horizontal, up, r - 1);
      RowWallsHas(a, horizontal, up, r - 1, a.Length1);
    }
  }

  lemma {:induction false} GridWallsDistinct(a: array2<bool>, horizontal: bool, up: bool, r: nat)
    requires r <= a.Length0
    ensures Distinct(GridWalls(a, horizontal, up, r))
    decreases r
  {
    if r > 0 {
      GridWallsDistinct(a, horizontal, up, r - 1);
      RowWallsDistinct(a, horizontal, up, r - 1, a.Length1);
      GridWallsHas(a, horizontal, up, r - 1);
      RowWallsHas(a, horizontal, up, r - 1, a.Length1);
      var before, row := GridWalls(a, horizontal, up, r - 1), RowWalls(a, horizontal, up, r - 1, a.Length1);
      forall w | w in before
        ensures w !in row
      {
        assert w.row < r - 1;
      }
      DistinctAppend(before, row);
    }
  }

  /** Two lists without repeats and without a common wall join into one
      without repeats. */
  lemma DistinctAppend(s: seq<Wall>, t: seq<Wall>)
    requires Distinct(s) && Distinct(t) && forall w :: w in s ==> w !in t
    ensures Distinct(s + t)
  {
    forall i, j | 0 <= i < j < |s + t|
      ensures (s + t)[i] != (s + t)[j]
    {
      if i < |s| && j >= |s| {
        assert s[i] in s && t[j - |s|] in t;
      }
    }
  }

  lemma {:induction false} GridWallsCount(a: array2<bool>, horizontal: bool, up: bool, r: nat)
    requires r <= a.Length0
    ensures |GridWalls(a, horizontal, up, r)| + |GridWalls(a, horizontal, !up, r)| == r * a.Length1
    decreases r
  {
    if r > 0 {
      GridWallsCount(a, horizontal, up, r - 1);
      RowWallsCount(a, horizontal, up, r - 1, a.Length1);
      assert (r - 1) * a.Length1 + a.Length1 == r * a.Length1;
    }
  }

  /** The wall list names each wall whose flag is `up` exactly once. */
  lemma WallsHas(h: array2<bool>, v: array2<bool>, up: bool)
    ensures forall w :: w in Walls(h, v, up) <==> Flagged(h, true, up, w) || Flagged(v, false, up, w)
    ensures Distinct(Walls(h, v, up))
    ensures |Walls(h, v, up)| + |Walls(h, v, !up)| == h.Length0 * h.Length1 + v.Length0 * v.Length1
  {
    GridWallsHas(h, true, up, h.Length0);
    GridWallsHas(v, false, up, v.Length0);
    GridWallsDistinct(h, true, up, h.Length0);
    GridWallsDistinct(v, false, up, v.Length0);
    GridWallsCount(h, true, up, h.Length0);
    GridWallsCount(v, false, up, v.Length0);
    DistinctAppend(GridWalls(h, true, up, h.Length0), GridWalls(v, false, up, v.Length0));
  }

  lemma {:induction false} DistinctCard(ws: seq<Wall>)
    requires Distinct(ws)
    ensures |set w | w in ws| == |ws|
    decreases |ws|
  {
    if ws != [] {
      var n := |ws| - 1;
      DistinctCard(ws[..n]);
      assert (set w | w in ws) == (set w | w in ws[..n]) + {ws[n]};
      assert ws[n] !in ws[..n];
    }
  }

  /** The walls that are down, listed, are `OpenWalls`. */
  lemma OpenWallsCard(h: array2<bool>, v: array2<bool>)
    ensures |OpenWalls(h, v)| == |Walls(h, v, false)|
  {
    WallsHas(h, v, false);
    DistinctCard(Walls(h, v, false));
    assert OpenWalls(h, v) == set w | w in Walls(h, v, false);
  }

  /** A carved maze leaves rows * cols + rows + cols + 1 walls standing:
      all (rows + 1) * cols + rows * (cols + 1) walls but one per cell after
      the first. */
  lemma StandingCount(rows: nat, cols: nat, h: array2<bool>, v: array2<bool>)
    requires h.Length0 == rows + 1 && h.Length1 == cols && v.Length0 == rows && v.Length1 == cols + 1
    requires |OpenWalls(h, v)| == rows * cols - 1
    ensures |Walls(h, v, true)| == rows * cols + rows + cols + 1
  {
    WallsHas(h, v, true);
    OpenWallsCard(h, v);
    assert (rows + 1) * cols + rows * (cols + 1) == 2 * (rows * cols) + rows + cols;
  }

  /** The segment `draw_line` draws for a wall: one cell long, from the
      wall's top-left corner, on a grid centred on the origin. */
  function WallLine(w: Wall, rows: int, cols: int, cell: real, color: string, diameter: real): (l: Line)
    ensures |l.points| == 2
  {
    var x1 := -(cols as real) * cell / 2.0 + (w.col as real) * cell;
    var y1 := -(rows as real) * cell / 2.0 + (w.row as real) * cell;
    match w
    case H(_, _) => Line([Point(x1, y1), Point(x1 + cell, y1)], color, diameter)
    case V(_, _) => Line([Point(x1, y1), Point(x1, y1 + cell)], color, diameter)
  }

  function WallLines(ws: seq<Wall>, rows: int, cols: int, cell: real, color: string, diameter: real): (r: seq<Line>)
    ensures |r| == |ws|
  {
    if ws == [] then []
    else WallLines(ws[..|ws| - 1], rows, cols, cell, color, diameter) + [WallLine(ws[|ws| - 1], rows, cols, cell, color, diameter)]
  }

  lemma WallLinesSnoc(ws: seq<Wall>, w: Wall, rows: int, cols: int, cell: real, color: string, diameter: real)
    ensures WallLines(ws + [w], rows, cols, cell, color, diameter)
      == WallLines(ws, rows, cols, cell, color, diameter) + [WallLine(w, rows, cols, cell, color, diameter)]
  {
    assert (ws + [w])[..|ws|] == ws;
  }

  /** Each added line adds one to the line count. */
  lemma {:induction false} AddLinesCount(layers: seq<StrokeLayer>, lines: seq<Line>)
    requires |layers| >= 1
    ensures LineTotal(AddLines(layers, lines)) == LineTotal(layers) + |lines|
    decreases |lines|
  {
    if lines != [] {
      AddLinesCount(layers, lines[..|lines| - 1]);
      AddLineCounts(AddLines(layers, lines[..|lines| - 1]), lines[|lines| - 1]);
    }
  }

  /** One `draw_line` for a standing wall. */
  method DrawWall(t: Turtle, w: Wall, rows: int, cols: int, cell: real, ghost l0: seq<StrokeLayer>, ghost ws: seq<Wall>)
    requires t.Valid() && |l0| >= 1
    requires t.layers == AddLines(l0, WallLines(ws, rows, cols, cell, t.color, t.diameter))
    modifies t
    ensures t.Valid() && t.color == old(t.color) && t.diameter == old(t.diameter)
    ensures t.layers == AddLines(l0, WallLines(ws + [w], rows, cols, cell, t.color, t.diameter))
  {
    var line := WallLine(w, rows, cols, cell, t.color, t.diameter);
    t.DrawLine(line.points[0].x, line.points[0].y, line.points[1].x, line.points[1].y);
    assert line.points == [line.points[0], line.points[1]];
    WallLinesSnoc(ws, w, rows, cols, cell, t.color, t.diameter);
    AddLinesSnoc(l0, WallLines(ws, rows, cols, cell, t.color, t.diameter), line);
  }

  /** The body of the inner drawing loop: `draw_line` when the wall at
      (row, col) is up, nothing otherwise. */
  method DrawCell(t: Turtle, a: array2<bool>, horizontal: bool, row: nat, col: nat, rows: int, cols: int, cell: real,
                  ghost l0: seq<StrokeLayer>, ghost done: seq<Wall>)
    returns (ghost done': seq<Wall>)
    requires row < a.Length0 && col < a.Length1
    requires t.Valid() && |l0| >= 1
    requires t.layers == AddLines(l0, WallLines(done, rows, cols, cell, t.color, t.diameter))
    modifies t
    ensures t.Valid() && t.color == old(t.color) && t.diameter == old(t.diameter)
    ensures done' == done + (if a[row, col] then [WallAt(horizontal, row, col)] else [])
    ensures t.layers == AddLines(l0, WallLines(done', rows, cols, cell, t.color, t.diameter))
  {
    if a[row, col] {
      DrawWall(t, WallAt(horizontal, row, col), rows, cols, cell, l0, done);
      done' := done + [WallAt(horizontal, row, col)];
    } else {
      done' := done + [];
      assert done' == done;
    }
  }

  lemma RowWallsStep(a: array2<bool>, horizontal: bool, row: nat, col: nat, ws: seq<Wall>)
    requires row < a.Length0 && col < a.Length1
    ensures ws + RowWalls(a, horizontal, true, row, col + 1)
      == ws + RowWalls(a, horizontal, true, row, col) + (if a[row, col] then [WallAt(horizontal, row, col)] else [])
  {
  }

  /** One pass of the inner drawing loop: the walls of the row scanned so
      far grow by the wall at (row, col) when it is up. */
  method RowCell(t: Turtle, a: array2<bool>, horizontal: bool, row: nat, col: nat, rows: int, cols: int, cell: real,
                 ghost l0: seq<StrokeLayer>, ghost ws: seq<Wall>, ghost done: seq<Wall>)
    returns (ghost done': seq<Wall>)
    requires row < a.Length0 && col < a.Length1
    requires t.Valid() && |l0| >= 1
    requires done == ws + RowWalls(a, horizontal, true, row, col)
    requires t.layers == AddLines(l0, WallLines(done, rows, cols, cell, t.color, t.diameter))
    modifies t
    ensures t.Valid() && t.color == old(t.color) && t.diameter == old(t.diameter)
    ensures done' == ws + RowWalls(a, horizontal, true, row, col + 1)
    ensures t.layers == AddLines(l0, WallLines(done', rows, cols, cell, t.color, t.diameter))
  {
    RowWallsStep(a, horizontal, row, col, ws);
    done' := DrawCell(t, a, horizontal, row, col, rows, cols, cell, l0, done);
  }

  /** The inner drawing loop: the walls of row `row` of `a` still up,
      left to right. */
  method DrawRow(t: Turtle, a: array2<bool>, horizontal: bool, row: nat, rows: int, cols: int, cell: real,
                 ghost l0: seq<StrokeLayer>, ghost ws: seq<Wall>)
    requires row < a.Length0
    requires t.Valid() && |l0| >= 1
    requires t.layers == AddLines(l0, WallLines(ws, rows, cols, cell, t.color, t.diameter))
    modifies t
    ensures t.Valid() && t.color == old(t.color) && t.diameter == old(t.diameter)
    ensures t.layers == AddLines(l0, WallLines(ws + RowWalls(a, horizontal, true, row, a.Length1), rows, cols, cell, t.color, t.diameter))
  {
    var col := 0;
    ghost var done := ws;
    assert ws + RowWalls(a, horizontal, true, row, 0) == ws;
    while col < a.Length1
      invariant col <= a.Length1
      invariant t.Valid() && t.color == old(t.color) && t.diameter == old(t.diameter)
      invariant done == ws + RowWalls(a, horizontal, true, row, col)
      invariant t.layers == AddLines(l0, WallLines(done, rows, cols, cell, t.color, t.diameter))
    {
      done := RowCell(t, a, horizontal, row, col, rows, cols, cell, l0, ws, done);
      col := col + 1;
    }
  }

  /** One of the two drawing loops: every wall of `a` still up, row by row,
      as one `draw_line` each. */
  method DrawGrid(t: Turtle, a: array2<bool>, horizontal: bool, rows: int, cols: int, cell: real,
                  ghost l0: seq<StrokeLayer>, ghost ws: seq<Wall>)
    requires t.Valid() && |l0| >= 1
    requires t.layers == AddLines(l0, WallLines(ws, rows, cols, cell, t.color, t.diameter))
    modifies t
    ensures t.Valid() && t.color == old(t.color) && t.diameter == old(t.diameter)
    ensures t.layers == AddLines(l0, WallLines(ws + GridWalls(a, horizontal, true, a.Length0), rows, cols, cell, t.color, t.diameter))
  {
    var row := 0;
    ghost var done := ws;
    assert ws + GridWalls(a, horizontal, true, 0) == ws;
    while row < a.Length0
      invariant row <= a.Length0
      invariant t.Valid() && t.color == old(t.color) && t.diameter == old(t.diameter)
      invariant done == ws + GridWalls(a, horizontal, true, row)
      invariant t.layers == AddLines(l0, WallLines(done, rows, cols, cell, t.color, t.diameter))
    {
      done := GridRow(t, a, horizontal, row, rows, cols, cell, l0, ws, done);
      row := row + 1;
    }
  }

  /** One pass of a drawing loop: the walls of row `row` still up. */
  method GridRow(t: Turtle, a: array2<bool>, horizontal: bool, row: nat, rows: int, cols: int, cell: real,
                 ghost l0: seq<StrokeLayer>, ghost ws: seq<Wall>, ghost done: seq<Wall>)
      returns (ghost done': seq<Wall>)
    requires row < a.Length0 && t.Valid() && |l0| >= 1
    requires done == ws + GridWalls(a, horizontal, true, row)
    requires t.layers == AddLines(l0, WallLines(done, rows, cols, cell, t.color, t.diameter))
    modifies t
    ensures t.Valid() && t.color == old(t.color) && t.diameter == old(t.diameter)
    ensures done' == ws + GridWalls(a, horizontal, true, row + 1)
    ensures t.layers == AddLines(l0, WallLines(done', rows, cols, cell, t.color, t.diameter))
  {
    GridWallsStep(a, horizontal, row, ws);
    done' := done + RowWalls(a, horizontal, true, row, a.Length1);
    DrawRow(t, a, horizontal, row, rows, cols, cell, l0, done);
  }

  lemma GridWallsStep(a: array2<bool>, horizontal: bool, row: nat, ws: seq<Wall>)
    requires row < a.Length0
    ensures ws + GridWalls(a, horizontal, true, row + 1)
      == ws + GridWalls(a, horizontal, true, row) + RowWalls(a, horizontal, true, row, a.Length1)
  {
  }

  /** The drawing half of `_generate_maze`: one `draw_line` per standing
      wall, horizontal walls first. */
  method DrawWalls(t: Turtle, h: array2<bool>, v: array2<bool>, rows: int, cols: int, cell: real)
    requires t.Valid()
    modifies t
    ensures t.Valid() && t.color == old(t.color) && t.diameter == old(t.diameter)
    ensures t.layers == AddLines(old(t.layers), WallLines(Walls(h, v, true), rows, cols, cell, t.color, t.diameter))
  {
    ghost var l0 := t.layers;
    assert t.layers == AddLines(l0, WallLines([], rows, cols, cell, t.color, t.diameter));
    DrawGrid(t, h, true, rows, cols, cell, l0, []);
    DrawGrid(t, v, false, rows, cols, cell, l0, [] + GridWalls(h, true, true, h.Length0));
    assert [] + GridWalls(h, true, true, h.Length0) + GridWalls(v, false, true, v.Length0) == Walls(h, v, true);
  }

  // ---------------------------------------------------------------------
  // Options and the maze generator
  // ---------------------------------------------------------------------

  /** What a fresh `Turtle()` holds. */
  const Blank := [StrokeLayer([], DefaultColor, DefaultDiameter)]

  const TypeError := "TypeError"
  const IndexError := "IndexError: list index out of range"

  /** `options.get(key, default)` used where Python needs an integer
      (`range(n)`, `[x] * n`); a bool counts as 0 or 1. */
  function IntOption(options: map<string, Value>, key: string, default: int): (r: Result<int>)
    ensures r.Ok? <==> AsNumber(Lookup(options, key, IntVal(default))).Some? && AsNumber(Lookup(options, key, IntVal(default))).value.Int?
    ensures key !in options ==> r == Ok(default)
  {
    match AsNumber(Lookup(options, key, IntVal(default)))
    case Some(Int(i)) => Ok(i)
    case _ => Err(TypeError)
  }

  /** `options.get(key, default)` used in float arithmetic. */
  function RealOption(options: map<string, Value>, key: string, default: real): (r: Result<real>)
    ensures r.Ok? <==> AsNumber(Lookup(options, key, RealVal(default))).Some?
    ensures key !in options ==> r == Ok(default)
  {
    match AsNumber(Lookup(options, key, RealVal(default)))
    case Some(n) => Ok(ToReal(n))
    case None => Err(TypeError)
  }

  /** The maze size as `_generate_maze` meets it: `range(rows)` needs an
      integer; `[False] * cols` is only evaluated when `range(rows + 1)`
      is not empty; a grid without a cell fails at `visited[0][0]`; the
      cell size fails in the first float product. */
  function MazeParams(options: map<string, Value>): (r: Result<(int, int, real)>)
    ensures r.Ok? ==> r.value.0 >= 1 && r.value.1 >= 1
  {
    match IntOption(options, "rows", 20)
    case Err(e) => Err(e)
    case Ok(rows) =>
      if rows < 0 then Err(IndexError)
      else match IntOption(options, "cols", 20)
        case Err(e) => Err(e)
        case Ok(cols) =>
          if rows < 1 || cols < 1 then Err(IndexError)
          else match RealOption(options, "cell_size", 15.0)
            case Err(e) => Err(e)
            case Ok(cell) => Ok((rows, cols, cell))
  }

  /** Without options the maze is 20 by 20 cells of 15 units. */
  lemma MazeDefaults()
    ensures MazeParams(map[]) == Ok((20, 20, 15.0))
  {
  }

  /** The number of segments a carved maze of rows x cols cells draws. */
  function WallCount(rows: int, cols: int): int {
    rows * cols + rows + cols + 1
  }

  /** The standing walls of a carved maze, drawn one line each. */
  lemma StandingDrawn(rows: nat, cols: nat, cell: real, h: array2<bool>, v: array2<bool>)
    requires h.Length0 == rows + 1 && h.Length1 == cols && v.Length0 == rows && v.Length1 == cols + 1
    requires |OpenWalls(h, v)| == rows * cols - 1
    ensures Distinct(Walls(h, v, true)) && |Walls(h, v, true)| == WallCount(rows, cols)
    ensures LineTotal(AddLines(Blank, WallLines(Walls(h, v, true), rows, cols, cell, DefaultColor, DefaultDiameter)))
      == WallCount(rows, cols)
  {
    WallsHas(h, v, true);
    StandingCount(rows, cols, h, v);
    AddLinesCount(Blank, WallLines(Walls(h, v, true), rows, cols, cell, DefaultColor, DefaultDiameter));
  }

  /** The wall arrays of a freshly carved maze, and the one fact about
      them the drawing needs: a spanning tree opens rows * cols - 1 walls. */
  method CarvedWalls(rows: nat, cols: nat, pick: nat -> nat) returns (h: array2<bool>, v: array2<bool>)
    requires rows >= 1 && cols >= 1
    ensures fresh(h) && fresh(v)
    ensures h.Length0 == rows + 1 && h.Length1 == cols && v.Length0 == rows && v.Length1 == cols + 1
    ensures |OpenWalls(h, v)| == rows * cols - 1
  {
    var visited;
    visited, h, v := CarveMaze(rows, cols, pick);
  }

  /** The maze for a size that has passed `MazeParams`. */
  method Maze(rows: int, cols: int, cell: real, pick: nat -> nat) returns (t: Turtle, ghost standing: seq<Wall>)
    requires rows >= 1 && cols >= 1
    ensures fresh(t) && t.Valid()
    ensures t.layers == AddLines(Blank, WallLines(standing, rows, cols, cell, DefaultColor, DefaultDiameter))
    ensures Distinct(standing) && |standing| == WallCount(rows, cols)
    ensures LineTotal(t.layers) == WallCount(rows, cols)
  {
    var h, v := CarvedWalls(rows, cols, pick);
    t, standing := DrawMaze(h, v, rows, cols, cell);
  }

  /** A fresh turtle holding the standing walls of a carved maze. */
  method DrawMaze(h: array2<bool>, v: array2<bool>, rows: nat, cols: nat, cell: real) returns (t: Turtle, ghost standing: seq<Wall>)
    requires h.Length0 == rows + 1 && h.Length1 == cols && v.Length0 == rows && v.Length1 == cols + 1
    requires |OpenWalls(h, v)| == rows * cols - 1
    ensures fresh(t) && t.Valid()
    ensures t.layers == AddLines(Blank, WallLines(standing, rows, cols, cell, DefaultColor, DefaultDiameter))
    ensures Distinct(standing) && |standing| == WallCount(rows, cols)
    ensures LineTotal(t.layers) == WallCount(rows, cols)
  {
    t := new Turtle(DefaultColor, DefaultDiameter);
    DrawWalls(t, h, v, rows, cols, cell);
    assert unchanged(h, v);
    assert OpenWalls(h, v) == old(OpenWalls(h, v));
    assert |OpenWalls(h, v)| == rows * cols - 1;
    standing := Walls(h, v, true);
    StandingDrawn(rows, cols, cell, h, v);
  }

  /** `_generate_maze`: carve, then draw the walls still standing, one
      segment each. `pick` stands for `random.choice`. */
  method GenerateMaze(options: map<string, Value>, pick: nat -> nat) returns (r: Result<Turtle>, ghost standing: seq<Wall>)
    ensures r.Ok? <==> MazeParams(options).Ok?
    ensures r.Err? ==> r.message == MazeParams(options).message
    ensures r.Ok? ==>
      var (rows, cols, cell) := MazeParams(options).value;
      && fresh(r.value) && r.value.Valid()
      && r.value.layers == AddLines(Blank, WallLines(standing, rows, cols, cell, DefaultColor, DefaultDiameter))
      && Distinct(standing) && |standing| == WallCount(rows, cols)
      && LineTotal(r.value.layers) == WallCount(rows, cols)
  {
    var params := MazeParams(options);
    if params.Err? {
      return Err(params.message), [];
    }
    var t;
    t, standing := Maze(params.value.0, params.value.1, params.value.2, pick);
    r := Ok(t);
  }

  // ---------------------------------------------------------------------
  // Dragon curve (`_generate_dragon`)
  // ---------------------------------------------------------------------

  /** The L-system rules: X and Y are rewritten, every other symbol is
      kept. */
  function Rule(c: char): string {
    if c == 'X' then "X+YF+"
    else if c == 'Y' then "-FX-Y"
    else [c]
  }

  /** One generation: every symbol replaced by its rule, in order. */
  function Rewrite(s: string): string {
    if s == [] then [] else Rewrite(s[..|s| - 1]) + Rule(s[|s| - 1])
  }

  /** The string after `n` generations from the axiom "FX". */
  function Dragon(n: nat): string {
    if n == 0 then "FX" else Rewrite(Dragon(n - 1))
  }

  function Count(c: char, s: string): nat {
    if s == [] then 0 else Count(c, s[..|s| - 1]) + (if s[|s| - 1] == c then 1 else 0)
  }

  function Pow2(n: nat): nat {
    if n == 0 then 1 else 2 * Pow2(n - 1)
  }

  /** The inner loop of the rewriting: `ns += rules.get(c, c)`. */
  method RewriteOnce(s: string) returns (ns: string)
    ensures ns == Rewrite(s)
  {
    ns := "";
    var i := 0;
    while i < |s|
      invariant i <= |s| && ns == Rewrite(s[..i])
    {
      assert s[..i + 1][..i] == s[..i];
      ns := ns + Rule(s[i]);
      i := i + 1;
    }
    assert s[..|s|] == s;
  }

  /** The outer loop; `range` of a negative count is empty. */
  method DragonString(iterations: int) returns (s: string)
    ensures s == Dragon(if iterations < 0 then 0 else iterations)
  {
    s := "FX";
    var k := 0;
    while k < iterations
      invariant 0 <= k && (iterations >= 0 ==> k <= iterations) && (iterations < 0 ==> k == 0) && s == Dragon(k)
    {
      s := RewriteOnce(s);
      k := k + 1;
    }
  }

  lemma {:induction false} CountAppend(c: char, a: string, b: string)
    ensures Count(c, a + b) == Count(c, a) + Count(c, b)
    decreases |b|
  {
    if b != [] {
      CountAppend(c, a, b[..|b| - 1]);
      assert (a + b)[..|a + b| - 1] == a + b[..|b| - 1];
    } else {
      assert a + b == a;
    }
  }

  /** What one symbol's rule contributes. */
  lemma RuleCounts(c: char)
    ensures Count('F', Rule(c)) == (if c == 'F' || c == 'X' || c == 'Y' then 1 else 0)
    ensures Count('X', Rule(c)) == (if c == 'X' || c == 'Y' then 1 else 0)
    ensures Count('Y', Rule(c)) == (if c == 'X' || c == 'Y' then 1 else 0)
  {
    if c == 'X' {
      assert "X+YF+"[..4] == "X+YF" && "X+YF"[..3] == "X+Y" && "X+Y"[..2] == "X+" && "X+"[..1] == "X" && "X"[..0] == "";
    } else if c == 'Y' {
      assert "-FX-Y"[..4] == "-FX-" && "-FX-"[..3] == "-FX" && "-FX"[..2] == "-F" && "-F"[..1] == "-" && "-"[..0] == "";
    } else {
      assert [c][..0] == [];
    }
  }

  /** A generation turns every X and every Y into one X, one Y and one
      F; F, + and - are carried over. */
  lemma {:induction false} RewriteCounts(s: string)
    ensures Count('F', Rewrite(s)) == Count('F', s) + Count('X', s) + Count('Y', s)
    ensures Count('X', Rewrite(s)) == Count('X', s) + Count('Y', s)
    ensures Count('Y', Rewrite(s)) == Count('X', s) + Count('Y', s)
    decreases |s|
  {
    if s != [] {
      var n := |s| - 1;
      RewriteCounts(s[..n]);
      CountAppend('F', Rewrite(s[..n]), Rule(s[n]));
      CountAppend('X', Rewrite(s[..n]), Rule(s[n]));
      CountAppend('Y', Rewrite(s[..n]), Rule(s[n]));
      RuleCounts(s[n]);
    }
  }

  /** A string without X or Y is a fixed point of the rewriting. */
  lemma {:induction false} RewriteFixed(s: string)
    requires forall i :: 0 <= i < |s| ==> s[i] != 'X' && s[i] != 'Y'
    ensures Rewrite(s) == s
    decreases |s|
  {
    if s != [] {
      RewriteFixed(s[..|s| - 1]);
      assert s[..|s| - 1] + [s[|s| - 1]] == s;
    }
  }

  /** After n generations there are 2^n F's (so 2^n segments) and 2^n
      symbols X or Y. */
  lemma {:induction false} DragonCounts(n: nat)
    ensures Count('F', Dragon(n)) == Pow2(n)
    ensures Count('X', Dragon(n)) + Count('Y', Dragon(n)) == Pow2(n)
    decreases n
  {
    if n == 0 {
      assert "FX"[..1] == "F" && "F"[..0] == "";
    } else {
      DragonCounts(n - 1);
      RewriteCounts(Dragon(n - 1));
    }
  }

  /** The turtle while it reads the string: its cursor, its heading and
      the pen moves made so far. */
  datatype Walker = Walker(pos: Point, angle: real, ops: seq<PenOp>)

  const Home := Point(0.0, 0.0)

  /** One symbol of the drawing loop: F goes `size` forward along
      `heading(angle)`, + turns right 90 degrees, - turns left 90, and
      every other symbol does nothing. */
  function WalkStep(w: Walker, c: char, size: real, heading: real -> Point): Walker {
    if c == 'F' then
      var p := Ahead(w.pos, heading(w.angle), size);
      Walker(p, w.angle, w.ops + [Move(p)])
    else if c == '+' then w.(angle := w.angle - 90.0)
    else if c == '-' then w.(angle := w.angle + 90.0)
    else w
  }

  /** The drawing of a whole string, after `jump_to(0, 0)` and
      `set_angle(0)`. */
  function Walk(s: string, size: real, heading: real -> Point): Walker {
    if s == [] then Walker(Home, 0.0, [Jump(Home)])
    else WalkStep(Walk(s[..|s| - 1], size, heading), s[|s| - 1], size, heading)
  }

  /** The walk is one `jump_to` followed by one `move_to` per F. */
  lemma {:induction false} WalkShape(s: string, size: real, heading: real -> Point)
    ensures var ops := Walk(s, size, heading).ops;
      |ops| == 1 + Count('F', s) && ops[0] == Jump(Home) && Jumps(ops) == 1
    decreases |s|
  {
    if s != [] {
      WalkShape(s[..|s| - 1], size, heading);
      var ops := Walk(s, size, heading).ops;
      if s[|s| - 1] == 'F' {
        assert ops[..|ops| - 1] == Walk(s[..|s| - 1], size, heading).ops;
      }
    }
  }

  /** `forward(size)` as a pen move. */
  method ForwardStep(t: Turtle, size: real, heading: real -> Point, ghost s0: Pen, ghost done: seq<PenOp>)
    requires t.Valid() && Replayed(t, s0, done)
    modifies t
    ensures t.Valid() && t.color == old(t.color) && t.diameter == old(t.diameter) && t.angle == old(t.angle)
    ensures t.position == Ahead(old(t.position), heading(t.angle), size)
    ensures Replayed(t, s0, done + [Move(t.position)])
  {
    ghost var before := t.State();
    t.Forward(size, heading);
    StepReplayed(s0, done, Move(t.position), before, t.State(), t.color, t.diameter);
  }

  /** One pass of the drawing loop. */
  method DragonSymbol(t: Turtle, c: char, size: real, heading: real -> Point, ghost s0: Pen, ghost w: Walker)
    requires t.Valid() && Replayed(t, s0, w.ops) && t.position == w.pos && t.angle == w.angle
    modifies t
    ensures t.Valid() && t.color == old(t.color) && t.diameter == old(t.diameter)
    ensures var w' := WalkStep(w, c, size, heading);
      Replayed(t, s0, w'.ops) && t.position == w'.pos && t.angle == w'.angle
  {
    if c == 'F' {
      ForwardStep(t, size, heading, s0, w.ops);
    } else if c == '+' {
      t.TurnRight(90.0);
    } else if c == '-' {
      t.TurnLeft(90.0);
    }
  }

  /** The drawing half of `_generate_dragon`. */
  method DrawDragon(s: string, size: real, heading: real -> Point) returns (t: Turtle)
    ensures fresh(t) && t.Valid() && t.color == DefaultColor && t.diameter == DefaultDiameter
    ensures t.State() == Replay(Pen(Blank, Home, true), Walk(s, size, heading).ops, DefaultColor, DefaultDiameter)
    ensures t.angle == Walk(s, size, heading).angle
  {
    ghost var s0;
    t, s0 := DragonStart(s, size, heading);
    var i := 0;
    while i < |s|
      invariant i <= |s|
      invariant t.Valid() && t.color == DefaultColor && t.diameter == DefaultDiameter
      invariant Replayed(t, s0, Walk(s[..i], size, heading).ops)
      invariant t.position == Walk(s[..i], size, heading).pos && t.angle == Walk(s[..i], size, heading).angle
    {
      DragonAt(t, s, i, size, heading, s0);
      i := i + 1;
    }
    assert s[..|s|] == s;
  }

  /** Before the drawing loop: a new turtle jumped to the origin and turned
      to heading 0, which is the walk of no symbols. */
  method DragonStart(s: string, size: real, heading: real -> Point) returns (t: Turtle, ghost s0: Pen)
    ensures fresh(t) && t.Valid() && t.color == DefaultColor && t.diameter == DefaultDiameter
    ensures s0 == Pen(Blank, Home, true)
    ensures Replayed(t, s0, Walk(s[..0], size, heading).ops)
    ensures t.position == Walk(s[..0], size, heading).pos && t.angle == Walk(s[..0], size, heading).angle
  {
    t := new Turtle(DefaultColor, DefaultDiameter);
    s0 := t.State();
    assert Replayed(t, s0, []);
    JumpStep(t, Home, s0, []);
    t.SetAngle(0.0);
    assert [] + [Jump(Home)] == Walk(s[..0], size, heading).ops;
  }

  /** One pass of the drawing loop: symbol `i` extends the walk. */
  method DragonAt(t: Turtle, s: string, i: nat, size: real, heading: real -> Point, ghost s0: Pen)
    requires i < |s| && t.Valid()
    requires Replayed(t, s0, Walk(s[..i], size, heading).ops)
    requires t.position == Walk(s[..i], size, heading).pos && t.angle == Walk(s[..i], size, heading).angle
    modifies t
    ensures t.Valid() && t.color == old(t.color) && t.diameter == old(t.diameter)
    ensures Replayed(t, s0, Walk(s[..i + 1], size, heading).ops)
    ensures t.position == Walk(s[..i + 1], size, heading).pos && t.angle == Walk(s[..i + 1], size, heading).angle
  {
    DragonSymbol(t, s[i], size, heading, s0, Walk(s[..i], size, heading));
    WalkSnoc(s, i, size, heading);
  }

  lemma WalkSnoc(s: string, i: nat, size: real, heading: real -> Point)
    requires i < |s|
    ensures Walk(s[..i + 1], size, heading) == WalkStep(Walk(s[..i], size, heading), s[i], size, heading)
  {
    assert s[..i + 1][..i] == s[..i];
  }

  function DragonParams(options: map<string, Value>): Result<(nat, real)> {
    match IntOption(options, "iterations", 12)
    case Err(e) => Err(e)
    case Ok(n) =>
      match RealOption(options, "size", 3.0)
      case Err(e) => Err(e)
      case Ok(size) => Ok((if n < 0 then 0 else n, size))
  }

  /** The dragon drawing is a single polyline of 2^n + 1 points. */
  lemma DragonLine(n: nat, size: real, heading: real -> Point)
    ensures var d := Replay(Pen(Blank, Home, true), Walk(Dragon(n), size, heading).ops, DefaultColor, DefaultDiameter);
      LineTotal(d.layers) == 1 && PointTotal(d.layers) == Pow2(n) + 1
  {
    WalkShape(Dragon(n), size, heading);
    DragonCounts(n);
    ReplayCounts(Pen(Blank, Home, true), Walk(Dragon(n), size, heading).ops, DefaultColor, DefaultDiameter);
  }

  /** `_generate_dragon`: `heading(a)` stands for the cosine and sine of
      `a` degrees. */
  method GenerateDragon(options: map<string, Value>, heading: real -> Point) returns (r: Result<Turtle>)
    ensures r.Ok? <==> DragonParams(options).Ok?
    ensures r.Err? ==> r.message == DragonParams(options).message
    ensures r.Ok? ==>
      var (n, size) := DragonParams(options).value;
      && fresh(r.value) && r.value.Valid()
      && r.value.State() == Replay(Pen(Blank, Home, true), Walk(Dragon(n), size, heading).ops, DefaultColor, DefaultDiameter)
      && LineTotal(r.value.layers) == 1 && PointTotal(r.value.layers) == Pow2(n) + 1
  {
    var params := DragonParams(options);
    if params.Err? {
      return Err(params.message);
    }
    var s := DragonString(params.value.0);
    var t := DrawDragon(s, params.value.1, heading);
    DragonLine(params.value.0, params.value.1, heading);
    r := Ok(t);
  }

  // ---------------------------------------------------------------------
  // Text (`_generate_text`)
  // ---------------------------------------------------------------------

  /** A glyph is a list of strokes; a stroke is a list of points in a
      unit box, x to the right and y up. */
  type Glyph = seq<seq<(real, real)>>

  /** The single-stroke font of `_generate_text`. */
  const Font: map<char, Glyph> := map[
    'A' := [[(0.0, 0.0), (0.5, 1.0), (1.0, 0.0)], [(0.2, 0.4), (0.8, 0.4)]],
    'B' := [[(0.0, 0.0), (0.0, 1.0), (0.7, 1.0), (0.8, 0.9), (0.8, 0.6), (0.7, 0.5), (0.0, 0.5)], [(0.7, 0.5), (0.9, 0.4), (0.9, 0.1), (0.8, 0.0), (0.0, 0.0)]],
    'C' := [[(1.0, 0.2), (0.8, 0.0), (0.2, 0.0), (0.0, 0.2), (0.0, 0.8), (0.2, 1.0), (0.8, 1.0), (1.0, 0.8)]],
    'D' := [[(0.0, 0.0), (0.0, 1.0), (0.6, 1.0), (0.9, 0.8), (1.0, 0.5), (0.9, 0.2), (0.6, 0.0), (0.0, 0.0)]],
    'E' := [[(1.0, 0.0), (0.0, 0.0), (0.0, 1.0), (1.0, 1.0)], [(0.0, 0.5), (0.7, 0.5)]],
    'F' := [[(0.0, 0.0), (0.0, 1.0), (1.0, 1.0)], [(0.0, 0.5), (0.7, 0.5)]],
    'G' := [[(1.0, 0.8), (0.8, 1.0), (0.2, 1.0), (0.0, 0.8), (0.0, 0.2), (0.2, 0.0), (0.8, 0.0), (1.0, 0.2), (1.0, 0.5), (0.5, 0.5)]],
    'H' := [[(0.0, 0.0), (0.0, 1.0)], [(1.0, 0.0), (1.0, 1.0)], [(0.0, 0.5), (1.0, 0.5)]],
    'I' := [[(0.3, 0.0), (0.7, 0.0)], [(0.5, 0.0), (0.5, 1.0)], [(0.3, 1.0), (0.7, 1.0)]],
    'J' := [[(0.0, 0.2), (0.2, 0.0), (0.6, 0.0), (0.8, 0.2), (0.8, 1.0)]],
    'K' := [[(0.0, 0.0), (0.0, 1.0)], [(1.0, 1.0), (0.0, 0.5), (1.0, 0.0)]],
    'L' := [[(0.0, 1.0), (0.0, 0.0), (1.0, 0.0)]],
    'M' := [[(0.0, 0.0), (0.0, 1.0), (0.5, 0.5), (1.0, 1.0), (1.0, 0.0)]],
    'N' := [[(0.0, 0.0), (0.0, 1.0), (1.0, 0.0), (1.0, 1.0)]],
    'O' := [[(0.2, 0.0), (0.0, 0.2), (0.0, 0.8), (0.2, 1.0), (0.8, 1.0), (1.0, 0.8), (1.0, 0.2), (0.8, 0.0), (0.2, 0.0)]],
    'P' := [[(0.0, 0.0), (0.0, 1.0), (0.8, 1.0), (1.0, 0.8), (1.0, 0.6), (0.8, 0.5), (0.0, 0.5)]],
    'Q' := [[(0.2, 0.0), (0.0, 0.2), (0.0, 0.8), (0.2, 1.0), (0.8, 1.0), (1.0, 0.8), (1.0, 0.2), (0.8, 0.0), (0.2, 0.0)], [(0.6, 0.3), (1.0, 0.0)]],
    'R' := [[(0.0, 0.0), (0.0, 1.0), (0.8, 1.0), (1.0, 0.8), (1.0, 0.6), (0.8, 0.5), (0.0, 0.5)], [(0.5, 0.5), (1.0, 0.0)]],
    'S' := [[(1.0, 0.8), (0.8, 1.0), (0.2, 1.0), (0.0, 0.8), (0.0, 0.6), (0.2, 0.5), (0.8, 0.5), (1.0, 0.4), (1.0, 0.2), (0.8, 0.0), (0.2, 0.0), (0.0, 0.2)]],
    'T' := [[(0.0, 1.0), (1.0, 1.0)], [(0.5, 1.0), (0.5, 0.0)]],
    'U' := [[(0.0, 1.0), (0.0, 0.2), (0.2, 0.0), (0.8, 0.0), (1.0, 0.2), (1.0, 1.0)]],
    'V' := [[(0.0, 1.0), (0.5, 0.0), (1.0, 1.0)]],
    'W' := [[(0.0, 1.0), (0.25, 0.0), (0.5, 0.5), (0.75, 0.0), (1.0, 1.0)]],
    'X' := [[(0.0, 0.0), (1.0, 1.0)], [(0.0, 1.0), (1.0, 0.0)]],
    'Y' := [[(0.0, 1.0), (0.5, 0.5), (1.0, 1.0)], [(0.5, 0.5), (0.5, 0.0)]],
    'Z' := [[(0.0, 1.0), (1.0, 1.0), (0.0, 0.0), (1.0, 0.0)]],
    '0' := [[(0.2, 0.0), (0.0, 0.2), (0.0, 0.8), (0.2, 1.0), (0.8, 1.0), (1.0, 0.8), (1.0, 0.2), (0.8, 0.0), (0.2, 0.0)], [(0.2, 0.2), (0.8, 0.8)]],
    '1' := [[(0.3, 0.8), (0.5, 1.0), (0.5, 0.0)], [(0.2, 0.0), (0.8, 0.0)]],
    '2' := [[(0.0, 0.8), (0.2, 1.0), (0.8, 1.0), (1.0, 0.8), (1.0, 0.6), (0.0, 0.0), (1.0, 0.0)]],
    '3' := [[(0.0, 0.8), (0.2, 1.0), (0.8, 1.0), (1.0, 0.8), (1.0, 0.6), (0.8, 0.5), (0.5, 0.5)], [(0.8, 0.5), (1.0, 0.4), (1.0, 0.2), (0.8, 0.0), (0.2, 0.0), (0.0, 0.2)]],
    '4' := [[(0.8, 0.0), (0.8, 1.0), (0.0, 0.3), (1.0, 0.3)]],
    '5' := [[(1.0, 1.0), (0.0, 1.0), (0.0, 0.5), (0.8, 0.5), (1.0, 0.4), (1.0, 0.2), (0.8, 0.0), (0.2, 0.0), (0.0, 0.2)]],
    '6' := [[(1.0, 0.8), (0.8, 1.0), (0.2, 1.0), (0.0, 0.8), (0.0, 0.2), (0.2, 0.0), (0.8, 0.0), (1.0, 0.2), (1.0, 0.4), (0.8, 0.5), (0.0, 0.5)]],
    '7' := [[(0.0, 1.0), (1.0, 1.0), (0.3, 0.0)]],
    '8' := [[(0.5, 0.5), (0.2, 0.5), (0.0, 0.7), (0.0, 0.8), (0.2, 1.0), (0.8, 1.0), (1.0, 0.8), (1.0, 0.7), (0.8, 0.5), (0.5, 0.5)], [(0.5, 0.5), (0.2, 0.5), (0.0, 0.3), (0.0, 0.2), (0.2, 0.0), (0.8, 0.0), (1.0, 0.2), (1.0, 0.3), (0.8, 0.5)]],
    '9' := [[(0.0, 0.2), (0.2, 0.0), (0.8, 0.0), (1.0, 0.2), (1.0, 0.8), (0.8, 1.0), (0.2, 1.0), (0.0, 0.8), (0.0, 0.6), (0.2, 0.5), (1.0, 0.5)]],
    '.' := [[(0.4, 0.1), (0.6, 0.1), (0.6, 0.0), (0.4, 0.0), (0.4, 0.1)]],
    ',' := [[(0.5, 0.15), (0.5, 0.0), (0.3, -0.15)]],
    '!' := [[(0.5, 1.0), (0.5, 0.3)], [(0.5, 0.1), (0.5, 0.0)]],
    '?' := [[(0.0, 0.8), (0.2, 1.0), (0.8, 1.0), (1.0, 0.8), (1.0, 0.6), (0.5, 0.4), (0.5, 0.2)], [(0.5, 0.1), (0.5, 0.0)]],
    '-' := [[(0.2, 0.5), (0.8, 0.5)]],
    ':' := [[(0.5, 0.7), (0.5, 0.6)], [(0.5, 0.3), (0.5, 0.2)]]
  ]

  /** Where the font points of a letter whose box starts at (x, y) land:
      the unit box is scaled to 0.6 * size wide and size high. */
  function PlaceAt(x: real, y: real, size: real): ((real, real)) -> Point {
    (q: (real, real)) => Point(x + q.0 * size * 0.6, y + q.1 * size)
  }

  /** The first `k` points of a stroke: a `jump_to` to the first, then a
      `move_to` to each of the others. */
  function StrokeUpTo(stroke: seq<(real, real)>, k: nat, place: ((real, real)) -> Point): seq<PenOp>
    requires k <= |stroke|
  {
    if k == 0 then []
    else if k == 1 then [Jump(place(stroke[0]))]
    else StrokeUpTo(stroke, k - 1, place) + [Move(place(stroke[k - 1]))]
  }

  /** A stroke is drawn only when it has at least two points. */
  function StrokeOps(stroke: seq<(real, real)>, place: ((real, real)) -> Point): seq<PenOp> {
    if |stroke| >= 2 then StrokeUpTo(stroke, |stroke|, place) else []
  }

  /** The first `k` strokes of a glyph. */
  function GlyphUpTo(strokes: Glyph, k: nat, place: ((real, real)) -> Point): seq<PenOp>
    requires k <= |strokes|
  {
    if k == 0 then [] else GlyphUpTo(strokes, k - 1, place) + StrokeOps(strokes[k - 1], place)
  }

  /** What one character draws: nothing for a space or a character the
      font does not have. */
  function CharOps(c: char, x: real, y: real, size: real, font: map<char, Glyph>): seq<PenOp> {
    if c == ' ' || c !in font then [] else GlyphUpTo(font[c], |font[c]|, PlaceAt(x, y, size))
  }

  /** How far a character moves the pen: half a letter for a space, a
      whole letter otherwise. */
  function Spacing(c: char, width: real): real {
    if c == ' ' then width * 0.5 else width
  }

  /** Where the next letter starts after `cs`. */
  function XAfter(cs: string, x0: real, width: real): real {
    if cs == [] then x0 else XAfter(cs[..|cs| - 1], x0, width) + Spacing(cs[|cs| - 1], width)
  }

  /** The pen moves for a whole line of text. */
  function Layout(cs: string, x0: real, y: real, size: real, font: map<char, Glyph>): seq<PenOp> {
    if cs == [] then []
    else
      var n := |cs| - 1;
      Layout(cs[..n], x0, y, size, font) + CharOps(cs[n], XAfter(cs[..n], x0, size * 0.7), y, size, font)
  }

  /** The strokes a character draws. */
  function Drawable(c: char, font: map<char, Glyph>): nat {
    if c == ' ' || c !in font then 0 else DrawableIn(font[c], |font[c]|)
  }

  function DrawableIn(strokes: Glyph, k: nat): nat
    requires k <= |strokes|
  {
    if k == 0 then 0 else DrawableIn(strokes, k - 1) + (if |strokes[k - 1]| >= 2 then 1 else 0)
  }

  function StrokeTotal(cs: string, font: map<char, Glyph>): nat {
    if cs == [] then 0 else StrokeTotal(cs[..|cs| - 1], font) + Drawable(cs[|cs| - 1], font)
  }

  lemma {:induction false} JumpsAppend(a: seq<PenOp>, b: seq<PenOp>)
    ensures Jumps(a + b) == Jumps(a) + Jumps(b)
    decreases |b|
  {
    if b == [] {
      assert a + b == a;
    } else {
      JumpsAppend(a, b[..|b| - 1]);
      assert (a + b)[..|a + b| - 1] == a + b[..|b| - 1];
    }
  }

  /** A stroke of n >= 2 points is one jump and n - 1 moves. */
  lemma {:induction false} StrokeJumps(stroke: seq<(real, real)>, k: nat, place: ((real, real)) -> Point)
    requires 1 <= k <= |stroke|
    ensures Jumps(StrokeUpTo(stroke, k, place)) == 1
    ensures |StrokeUpTo(stroke, k, place)| == k
    decreases k
  {
    if k > 1 {
      StrokeJumps(stroke, k - 1, place);
      JumpsAppend(StrokeUpTo(stroke, k - 1, place), [Move(place(stroke[k - 1]))]);
    }
  }

  lemma {:induction false} GlyphJumps(strokes: Glyph, k: nat, place: ((real, real)) -> Point)
    requires k <= |strokes|
    ensures Jumps(GlyphUpTo(strokes, k, place)) == DrawableIn(strokes, k)
    decreases k
  {
    if k > 0 {
      GlyphJumps(strokes, k - 1, place);
      JumpsAppend(GlyphUpTo(strokes, k - 1, place), StrokeOps(strokes[k - 1], place));
      StrokeOpsJumps(strokes[k - 1], place);
    }
  }

  lemma StrokeOpsJumps(stroke: seq<(real, real)>, place: ((real, real)) -> Point)
    ensures Jumps(StrokeOps(stroke, place)) == if |stroke| >= 2 then 1 else 0
  {
    if |stroke| >= 2 {
      StrokeJumps(stroke, |stroke|, place);
    }
  }

  /** Every drawn stroke starts with exactly one `jump_to`, so the text
      makes one line per stroke of at least two points. */
  lemma {:induction false} LayoutJumps(cs: string, x0: real, y: real, size: real, font: map<char, Glyph>)
    ensures Jumps(Layout(cs, x0, y, size, font)) == StrokeTotal(cs, font)
    decreases |cs|
  {
    if cs != [] {
      var n := |cs| - 1;
      var x := XAfter(cs[..n], x0, size * 0.7);
      LayoutJumps(cs[..n], x0, y, size, font);
      JumpsAppend(Layout(cs[..n], x0, y, size, font), CharOps(cs[n], x, y, size, font));
      if cs[n] != ' ' && cs[n] in font {
        GlyphJumps(font[cs[n]], |font[cs[n]]|, PlaceAt(x, y, size));
      }
    }
  }

  /** A space or a character without a glyph draws nothing and only moves
      the pen on. */
  lemma SkipsBlank(cs: string, c: char, x0: real, y: real, size: real, font: map<char, Glyph>)
    requires c == ' ' || c !in font
    ensures Layout(cs + [c], x0, y, size, font) == Layout(cs, x0, y, size, font)
    ensures XAfter(cs + [c], x0, size * 0.7) == XAfter(cs, x0, size * 0.7) + Spacing(c, size * 0.7)
  {
    assert (cs + [c])[..|cs|] == cs;
  }

  /** The pen ends a whole letter per character, less half a letter per
      space, from where it started. */
  lemma {:induction false} XAfterSpan(cs: string, x0: real, width: real)
    ensures XAfter(cs, x0, width) == x0 + width * (|cs| as real) - width * 0.5 * (Count(' ', cs) as real)
    decreases |cs|
  {
    if cs != [] {
      var n := |cs| - 1;
      XAfterSpan(cs[..n], x0, width);
      assert width * ((n + 1) as real) == width * (n as real) + width;
      assert width * 0.5 * ((Count(' ', cs[..n]) + 1) as real) == width * 0.5 * (Count(' ', cs[..n]) as real) + width * 0.5;
    }
  }

  /** Text without spaces is centred: it starts half its width left of the
      origin and ends half its width to the right. */
  lemma Centred(cs: string, size: real)
    requires Count(' ', cs) == 0
    ensures XAfter(cs, -((|cs| as real) * (size * 0.7)) / 2.0, size * 0.7) == (|cs| as real) * (size * 0.7) / 2.0
  {
    XAfterSpan(cs, -((|cs| as real) * (size * 0.7)) / 2.0, size * 0.7);
  }

  /** A stroke of at least two points: `jump_to` its first point, then
      `move_to` each of the others. */
  method DrawStroke(t: Turtle, stroke: seq<(real, real)>, place: ((real, real)) -> Point,
                    ghost s0: Pen, ghost done: seq<PenOp>)
    requires |stroke| >= 2 && t.Valid() && Replayed(t, s0, done)
    modifies t
    ensures t.Valid() && t.color == old(t.color) && t.diameter == old(t.diameter)
    ensures Replayed(t, s0, done + StrokeOps(stroke, place))
  {
    JumpStep(t, place(stroke[0]), s0, done);
    var j := 1;
    ghost var ops := done + StrokeUpTo(stroke, 1, place);
    assert done + [Jump(place(stroke[0]))] == ops;
    while j < |stroke|
      invariant 1 <= j <= |stroke|
      invariant t.Valid() && t.color == old(t.color) && t.diameter == old(t.diameter)
      invariant ops == done + StrokeUpTo(stroke, j, place) && Replayed(t, s0, ops)
    {
      ops := StrokePoint(t, stroke, j, place, s0, done, ops);
      j := j + 1;
    }
    assert ops == done + StrokeOps(stroke, place);
  }

  /** One pass of the point loop: `move_to` the next point of the stroke. */
  method StrokePoint(t: Turtle, stroke: seq<(real, real)>, j: nat, place: ((real, real)) -> Point,
                     ghost s0: Pen, ghost done: seq<PenOp>, ghost ops: seq<PenOp>)
      returns (ghost ops': seq<PenOp>)
    requires 1 <= j < |stroke| && t.Valid()
    requires ops == done + StrokeUpTo(stroke, j, place) && Replayed(t, s0, ops)
    modifies t
    ensures t.Valid() && t.color == old(t.color) && t.diameter == old(t.diameter)
    ensures ops' == done + StrokeUpTo(stroke, j + 1, place) && Replayed(t, s0, ops')
  {
    var p := place(stroke[j]);
    MoveStep(t, p, s0, ops);
    ops' := ops + [Move(p)];
    assert ops' == done + StrokeUpTo(stroke, j + 1, place);
  }

  /** One pass of the stroke loop: strokes of fewer than two points are
      skipped. */
  method DrawStrokeIfLong(t: Turtle, stroke: seq<(real, real)>, place: ((real, real)) -> Point,
                          ghost s0: Pen, ghost done: seq<PenOp>)
    requires t.Valid() && Replayed(t, s0, done)
    modifies t
    ensures t.Valid() && t.color == old(t.color) && t.diameter == old(t.diameter)
    ensures Replayed(t, s0, done + StrokeOps(stroke, place))
  {
    if |stroke| >= 2 {
      DrawStroke(t, stroke, place, s0, done);
    } else {
      assert done + StrokeOps(stroke, place) == done;
    }
  }

  /** The strokes of one glyph. */
  method DrawGlyph(t: Turtle, strokes: Glyph, place: ((real, real)) -> Point, ghost s0: Pen, ghost done: seq<PenOp>)
    requires t.Valid() && Replayed(t, s0, done)
    modifies t
    ensures t.Valid() && t.color == old(t.color) && t.diameter == old(t.diameter)
    ensures Replayed(t, s0, done + GlyphUpTo(strokes, |strokes|, place))
  {
    var k := 0;
    ghost var drawn := done;
    assert done + GlyphUpTo(strokes, 0, place) == done;
    while k < |strokes|
      invariant k <= |strokes|
      invariant t.Valid() && t.color == old(t.color) && t.diameter == old(t.diameter)
      invariant drawn == done + GlyphUpTo(strokes, k, place)
      invariant Replayed(t, s0, drawn)
    {
      DrawStrokeIfLong(t, strokes[k], place, s0, drawn);
      GlyphStep(strokes, k, place, done);
      drawn := drawn + StrokeOps(strokes[k], place);
      k := k + 1;
    }
  }

  lemma GlyphStep(strokes: Glyph, k: nat, place: ((real, real)) -> Point, done: seq<PenOp>)
    requires k < |strokes|
    ensures done + GlyphUpTo(strokes, k + 1, place) == done + GlyphUpTo(strokes, k, place) + StrokeOps(strokes[k], place)
  {
  }

  /** One pass of the character loop: a space only moves the pen on; any
      other character draws its glyph, if the font has one, and moves the
      pen a whole letter. */
  method DrawChar(t: Turtle, c: char, x: real, y: real, size: real, font: map<char, Glyph>,
                  ghost s0: Pen, ghost done: seq<PenOp>)
    returns (x': real)
    requires t.Valid() && Replayed(t, s0, done)
    modifies t
    ensures t.Valid() && t.color == old(t.color) && t.diameter == old(t.diameter)
    ensures Replayed(t, s0, done + CharOps(c, x, y, size, font))
    ensures x' == x + Spacing(c, size * 0.7)
  {
    var width := size * 0.7;
    if c == ' ' {
      assert done + CharOps(c, x, y, size, font) == done;
      return x + width * 0.5;
    }
    if c in font {
      DrawGlyph(t, font[c], PlaceAt(x, y, size), s0, done);
    } else {
      assert done + CharOps(c, x, y, size, font) == done;
    }
    x' := x + width;
  }

  /** The character loop of `_generate_text` over `cs` (the text already
      upper-cased), starting at `x0`. */
  method DrawText(t: Turtle, cs: string, x0: real, y: real, size: real, font: map<char, Glyph>, ghost s0: Pen)
    requires t.Valid() && Replayed(t, s0, [])
    modifies t
    ensures t.Valid() && t.color == old(t.color) && t.diameter == old(t.diameter)
    ensures Replayed(t, s0, Layout(cs, x0, y, size, font))
  {
    var x := x0;
    var i := 0;
    while i < |cs|
      invariant i <= |cs|
      invariant t.Valid() && t.color == old(t.color) && t.diameter == old(t.diameter)
      invariant Replayed(t, s0, Layout(cs[..i], x0, y, size, font))
      invariant x == XAfter(cs[..i], x0, size * 0.7)
    {
      assert cs[..i + 1][..i] == cs[..i];
      x := DrawChar(t, cs[i], x, y, size, font, s0, Layout(cs[..i], x0, y, size, font));
      i := i + 1;
    }
    assert cs[..|cs|] == cs;
  }

  function TextParams(options: map<string, Value>): Result<(string, real)> {
    match RealOption(options, "size", 50.0)
    case Err(e) => Err(e)
    case Ok(size) =>
      match Lookup(options, "text", StrVal("Hello World"))
      case StrVal(s) => Ok((s, size))
      case _ => Err(TypeError)
  }

  /** The pen moves of `_generate_text` for `text` at `size`: the line is
      centred on the origin horizontally, and its baseline is half a
      letter height below it. */
  function TextOps(text: string, size: real, font: map<char, Glyph>): seq<PenOp> {
    Layout(Upper(text), TextStart(|text|, size), -size / 2.0, size, font)
  }

  /** Where a line of `n` letters starts so that it is centred. */
  function TextStart(n: nat, size: real): real {
    -((n as real) * (size * 0.7)) / 2.0
  }

  /** The text drawn with any font. */
  method TextTurtle(text: string, size: real, font: map<char, Glyph>) returns (t: Turtle)
    ensures fresh(t) && t.Valid()
    ensures t.State() == Replay(Pen(Blank, Home, true), TextOps(text, size, font), DefaultColor, DefaultDiameter)
    ensures LineTotal(t.layers) == StrokeTotal(Upper(text), font)
  {
    t := new Turtle(DefaultColor, DefaultDiameter);
    ghost var s0 := t.State();
    assert s0 == Pen(Blank, Home, true);
    assert Replayed(t, s0, []);
    var x0, y := TextStart(|text|, size), -size / 2.0;
    DrawText(t, Upper(text), x0, y, size, font, s0);
    ghost var ops := Layout(Upper(text), x0, y, size, font);
    assert ops == TextOps(text, size, font);
    assert t.State() == Replay(s0, ops, DefaultColor, DefaultDiameter);
    LayoutJumps(Upper(text), x0, y, size, font);
    ReplayCounts(s0, ops, DefaultColor, DefaultDiameter);
  }

  /** `_generate_text`. */
  method GenerateText(options: map<string, Value>) returns (r: Result<Turtle>)
    ensures r.Ok? <==> TextParams(options).Ok?
    ensures r.Err? ==> r.message == TextParams(options).message
    ensures r.Ok? ==>
      var (text, size) := TextParams(options).value;
      && fresh(r.value) && r.value.Valid()
      && r.value.State() == Replay(Pen(Blank, Home, true), TextOps(text, size, Font), DefaultColor, DefaultDiameter)
      && LineTotal(r.value.layers) == StrokeTotal(Upper(text), Font)
  {
    var params := TextParams(options);
    if params.Err? {
      return Err(params.message);
    }
    var t := TextTurtle(params.value.0, params.value.1, Font);
    r := Ok(t);
  }

  // ---------------------------------------------------------------------
  // Border (`_generate_border`)
  // ---------------------------------------------------------------------

  /** A work-area value as a float; `GetWorkArea` only succeeds on
      numbers. */
  function Num(v: Value): real {
    match AsNumber(v)
    case Some(n) => ToReal(n)
    case None => 0.0
  }

  /** The four limits of a work area that `GetWorkArea` returned are
      numbers. */
  lemma WorkAreaNumbers(m: map<string, Value>)
    requires GetWorkArea(m).Ok?
    ensures var a := GetWorkArea(m).value;
      AsNumber(a.left).Some? && AsNumber(a.right).Some? && AsNumber(a.top).Some? && AsNumber(a.bottom).Some?
  {
    var a := GetWorkArea(m).value;
    assert AsNumber(Lookup(m, "limit_left", NoneVal)).Some? by {
      assert "limit_left" in ["limit_left", "limit_right", "limit_top", "limit_bottom"];
    }
    assert AsNumber(Lookup(m, "limit_right", NoneVal)).Some? by {
      assert "limit_right" in ["limit_left", "limit_right", "limit_top", "limit_bottom"];
    }
    assert AsNumber(Lookup(m, "limit_top", NoneVal)).Some? by {
      assert "limit_top" in ["limit_left", "limit_right", "limit_top", "limit_bottom"];
    }
    assert AsNumber(Lookup(m, "limit_bottom", NoneVal)).Some? by {
      assert "limit_bottom" in ["limit_left", "limit_right", "limit_top", "limit_bottom"];
    }
  }

  /** The border box: the work area less `margin` on every side. The work
      area is read first, then `left + margin` needs a number. */
  function BorderBox(options: map<string, Value>, settings: map<string, Value>): Result<(real, real, real, real)> {
    match GetWorkArea(settings)
    case Err(e) => Err(e)
    case Ok(a) =>
      match RealOption(options, "margin", 10.0)
      case Err(e) => Err(e)
      case Ok(m) => Ok((Num(a.left) + m, Num(a.bottom) + m, Num(a.right) - m, Num(a.top) - m))
  }

  /** `draw_rect(x1, y1, x2 - x1, y2 - y1)` visits the four corners of the
      box counter-clockwise from (x1, y1) and closes it. */
  lemma BoxCorners(x1: real, y1: real, x2: real, y2: real)
    ensures RectCorners(x1, y1, x2 - x1, y2 - y1)
      == [Point(x1, y1), Point(x2, y1), Point(x2, y2), Point(x1, y2), Point(x1, y1)]
  {
  }

  /** With the default settings and no options the border is the A0 sheet
      less 10 units on every side. */
  lemma DefaultBorder()
    ensures BorderBox(map[], DefaultSettings) == Ok((-410.5, -584.5, 410.5, 584.5))
  {
    DefaultWorkArea();
  }

  /** `_generate_border`. */
  method GenerateBorder(options: map<string, Value>, settings: PlotterSettings) returns (r: Result<Turtle>)
    ensures r.Ok? <==> BorderBox(options, settings.settings).Ok?
    ensures r.Err? ==> r.message == BorderBox(options, settings.settings).message
    ensures r.Ok? ==>
      && fresh(r.value) && r.value.Valid()
      && r.value.layers == BorderDrawing(BorderBox(options, settings.settings).value)
  {
    var box := BorderBox(options, settings.settings);
    if box.Err? {
      return Err(box.message);
    }
    var t := Border(box.value.0, box.value.1, box.value.2, box.value.3);
    r := Ok(t);
  }

  /** The border drawing for the box (x1, y1, x2, y2): one closed
      rectangle. */
  function BorderDrawing(box: (real, real, real, real)): seq<StrokeLayer> {
    AddLine(Blank, Line(RectCorners(box.0, box.1, box.2 - box.0, box.3 - box.1), DefaultColor, DefaultDiameter))
  }

  method Border(x1: real, y1: real, x2: real, y2: real) returns (t: Turtle)
    ensures fresh(t) && t.Valid()
    ensures t.layers == BorderDrawing((x1, y1, x2, y2))
  {
    t := new Turtle(DefaultColor, DefaultDiameter);
    t.DrawRect(x1, y1, x2 - x1, y2 - y1);
    BorderIsRect(x1, y1, x2, y2);
  }

  /** `BorderDrawing` unfolded at a box given by its corners. */
  lemma BorderIsRect(x1: real, y1: real, x2: real, y2: real)
    ensures BorderDrawing((x1, y1, x2, y2)) == AddLine(Blank, Line(RectCorners(x1, y1, x2 - x1, y2 - y1), DefaultColor, DefaultDiameter))
  {
  }

  // ---------------------------------------------------------------------
  // The catalogue and the dispatch (`list_generators`, `generate`)
  // ---------------------------------------------------------------------

  /** One entry of a generator's option table; `min`/`max` are absent for
      the free-text option. */
  datatype OptionSpec = OptionSpec(key: string, kind: string, default: Value, min: Option<Value>, max: Option<Value>)

  datatype GeneratorSpec = GeneratorSpec(name: string, description: string, options: seq<OptionSpec>)

  /** `GENERATORS`, in its declaration order. */
  const Catalog: seq<(string, GeneratorSpec)> := [
    ("spiral", GeneratorSpec("Spiral", "Archimedean spiral", [
        OptionSpec("turns", "float", IntVal(10), Some(IntVal(1)), Some(IntVal(50))),
        OptionSpec("spacing", "float", IntVal(5), Some(IntVal(1)), Some(IntVal(20)))])),
    ("spirograph", GeneratorSpec("Spirograph", "Classic spirograph patterns", [
        OptionSpec("R", "float", IntVal(100), Some(IntVal(10)), Some(IntVal(300))),
        OptionSpec("r", "float", IntVal(60), Some(IntVal(5)), Some(IntVal(150))),
        OptionSpec("d", "float", IntVal(80), Some(IntVal(5)), Some(IntVal(200))),
        OptionSpec("revolutions", "int", IntVal(10), Some(IntVal(1)), Some(IntVal(100)))])),
    ("lissajous", GeneratorSpec("Lissajous", "Lissajous curves", [
        OptionSpec("a", "int", IntVal(3), Some(IntVal(1)), Some(IntVal(20))),
        OptionSpec("b", "int", IntVal(4), Some(IntVal(1)), Some(IntVal(20))),
        OptionSpec("delta", "float", IntVal(90), Some(IntVal(0)), Some(IntVal(180))),
        OptionSpec("size", "float", IntVal(200), Some(IntVal(50)), Some(IntVal(500)))])),
    ("maze", GeneratorSpec("Maze", "Rectangular maze using recursive backtracking", [
        OptionSpec("rows", "int", IntVal(20), Some(IntVal(5)), Some(IntVal(50))),
        OptionSpec("cols", "int", IntVal(20), Some(IntVal(5)), Some(IntVal(50))),
        OptionSpec("cell_size", "float", IntVal(15), Some(IntVal(5)), Some(IntVal(40)))])),
    ("dragon", GeneratorSpec("Dragon Curve", "Dragon curve fractal", [
        OptionSpec("iterations", "int", IntVal(12), Some(IntVal(1)), Some(IntVal(16))),
        OptionSpec("size", "float", IntVal(3), Some(IntVal(1)), Some(IntVal(10)))])),
    ("hilbert", GeneratorSpec("Hilbert Curve", "Space-filling Hilbert curve", [
        OptionSpec("order", "int", IntVal(5), Some(IntVal(1)), Some(IntVal(7))),
        OptionSpec("size", "float", IntVal(400), Some(IntVal(100)), Some(IntVal(800)))])),
    ("tree", GeneratorSpec("Fractal Tree", "Recursive branching tree", [
        OptionSpec("depth", "int", IntVal(8), Some(IntVal(1)), Some(IntVal(12))),
        OptionSpec("trunk_length", "float", IntVal(100), Some(IntVal(20)), Some(IntVal(200))),
        OptionSpec("angle", "float", IntVal(25), Some(IntVal(10)), Some(IntVal(45))),
        OptionSpec("ratio", "float", RealVal(0.7), Some(RealVal(0.5)), Some(RealVal(0.9)))])),
    ("hexagons", GeneratorSpec("Hexagon Grid", "Tessellating hexagon pattern", [
        OptionSpec("size", "float", IntVal(20), Some(IntVal(5)), Some(IntVal(50))),
        OptionSpec("rows", "int", IntVal(10), Some(IntVal(3)), Some(IntVal(30))),
        OptionSpec("cols", "int", IntVal(10), Some(IntVal(3)), Some(IntVal(30)))])),
    ("voronoi", GeneratorSpec("Voronoi", "Random Voronoi diagram", [
        OptionSpec("points", "int", IntVal(50), Some(IntVal(10)), Some(IntVal(200))),
        OptionSpec("relax", "int", IntVal(2), Some(IntVal(0)), Some(IntVal(10)))])),
    ("flowfield", GeneratorSpec("Flow Field", "Perlin noise flow field", [
        OptionSpec("lines", "int", IntVal(200), Some(IntVal(50)), Some(IntVal(1000))),
        OptionSpec("length", "int", IntVal(50), Some(IntVal(10)), Some(IntVal(200))),
        OptionSpec("scale", "float", RealVal(0.01), Some(RealVal(0.001)), Some(RealVal(0.1)))])),
    ("border", GeneratorSpec("Border", "Simple rectangular border", [
        OptionSpec("margin", "float", IntVal(10), Some(IntVal(0)), Some(IntVal(50)))])),
    ("text", GeneratorSpec("Text", "Single-line text using Hershey font", [
        OptionSpec("text", "string", StrVal("Hello World"), None, None),
        OptionSpec("size", "float", IntVal(50), Some(IntVal(10)), Some(IntVal(200)))]))
  ]

  /** An entry of `list_generators`: the spec with its key as `id`. */
  datatype GeneratorInfo = GeneratorInfo(id: string, name: string, description: string, options: seq<OptionSpec>)

  function Ids(): (r: seq<string>)
    ensures |r| == |Catalog|
  {
    seq(|Catalog|, i requires 0 <= i < |Catalog| => Catalog[i].0)
  }

  /** `list_generators`: one entry per catalogue key, in order, with the
      key as `id` and the rest of the spec unchanged. */
  function ListGenerators(): (r: seq<GeneratorInfo>)
    ensures |r| == |Catalog|
    ensures forall i :: 0 <= i < |r| ==>
      r[i] == GeneratorInfo(Catalog[i].0, Catalog[i].1.name, Catalog[i].1.description, Catalog[i].1.options)
  {
    seq(|Catalog|, i requires 0 <= i < |Catalog| =>
      GeneratorInfo(Catalog[i].0, Catalog[i].1.name, Catalog[i].1.description, Catalog[i].1.options))
  }

  /** The generators the model draws itself; `Other` names one whose
      drawing (trigonometry or random floats) is left to a parameter. */
  datatype Kind = MazeKind | DragonKind | BorderKind | TextKind | Other(id: string)

  /** `getattr(self, f'_generate_{generator}', None)`: the names with a
      `_generate_` method. */
  const Names := ["spiral", "spirograph", "lissajous", "maze", "dragon", "hilbert",
                  "tree", "hexagons", "voronoi", "flowfield", "border", "text"]

  function Dispatch(name: string): (r: Result<Kind>)
    ensures r.Ok? <==> name in Names
    ensures r.Err? ==> r.message == "Unknown generator: " + name
  {
    if name == "maze" then Ok(MazeKind)
    else if name == "dragon" then Ok(DragonKind)
    else if name == "border" then Ok(BorderKind)
    else if name == "text" then Ok(TextKind)
    else if name in Names then Ok(Other(name))
    else Err("Unknown generator: " + name)
  }

  /** The ids `list_generators` reports are distinct, and `generate`
      accepts exactly those names. */
  lemma ListedIffDispatched(name: string)
    ensures (exists i :: 0 <= i < |ListGenerators()| && ListGenerators()[i].id == name) <==> Dispatch(name).Ok?
    ensures forall i, j :: 0 <= i < j < |ListGenerators()| ==> ListGenerators()[i].id != ListGenerators()[j].id
  {
    var r := ListGenerators();
    ListedIds();
    NamesDistinct();
    if name in Names {
      var k :| 0 <= k < |Names| && Names[k] == name;
      assert r[k].id == name;
    }
  }

  lemma ListedIds()
    ensures forall i :: 0 <= i < |ListGenerators()| ==> ListGenerators()[i].id == Names[i]
  {
    assert Ids() == Names;
    forall i | 0 <= i < |ListGenerators()|
      ensures ListGenerators()[i].id == Names[i]
    {
      assert ListGenerators()[i].id == Ids()[i];
    }
  }

  lemma NamesDistinct()
    ensures forall i, j :: 0 <= i < j < |Names| ==> Names[i] != Names[j]
  {
  }

  /** The box `generate` fits every drawing into: the work area less 20
      units on every side. */
  function FitBox(settings: map<string, Value>): (r: Result<(real, real, real, real)>)
    ensures r.Ok? <==> GetWorkArea(settings).Ok?
    ensures r.Ok? ==>
      var a := GetWorkArea(settings).value;
      r.value == (Num(a.left) + 20.0, Num(a.bottom) + 20.0, Num(a.right) - 20.0, Num(a.top) - 20.0)
  {
    match GetWorkArea(settings)
    case Err(e) => Err(e)
    case Ok(a) => Ok((Num(a.left) + 20.0, Num(a.bottom) + 20.0, Num(a.right) - 20.0, Num(a.top) - 20.0))
  }

  /** With the default settings the fit box is the A0 sheet less 20 units
      on every side. */
  lemma DefaultFitBox()
    ensures FitBox(DefaultSettings) == Ok((-400.5, -574.5, 400.5, 574.5))
  {
    DefaultWorkArea();
  }

  /** With the default settings a generated drawing that is not flat ends
      up at least 20 units inside every edge of the sheet. */
  lemma DefaultFitInside(layers: seq<StrokeLayer>)
    requires BoundsOf(layers).width != 0.0 && BoundsOf(layers).height != 0.0
    ensures var f := Fitted(layers, -400.5, -574.5, 400.5, 574.5, true);
      forall i, j, k :: 0 <= i < |f| && 0 <= j < |f[i].lines| && 0 <= k < |f[i].lines[j].points| ==>
        -400.5 <= f[i].lines[j].points[k].x <= 400.5 && -574.5 <= f[i].lines[j].points[k].y <= 574.5
  {
    FittedInside(layers, -400.5, -574.5, 400.5, 574.5, true);
  }

  /** For any work area at least 40 units wide and high, a generated
      drawing that is not flat ends up inside it, at least 20 units from
      every edge. */
  lemma FitInsideArea(settings: map<string, Value>, layers: seq<StrokeLayer>)
    requires GetWorkArea(settings).Ok?
    requires Num(GetWorkArea(settings).value.width) >= 40.0 && Num(GetWorkArea(settings).value.height) >= 40.0
    requires BoundsOf(layers).width != 0.0 && BoundsOf(layers).height != 0.0
    ensures FitBox(settings).Ok?
    ensures var a, box := GetWorkArea(settings).value, FitBox(settings).value;
      var f := Fitted(layers, box.0, box.1, box.2, box.3, true);
      forall i, j, k :: 0 <= i < |f| && 0 <= j < |f[i].lines| && 0 <= k < |f[i].lines[j].points| ==>
        && Num(a.left) + 20.0 <= f[i].lines[j].points[k].x <= Num(a.right) - 20.0
        && Num(a.bottom) + 20.0 <= f[i].lines[j].points[k].y <= Num(a.top) - 20.0
  {
    var a := GetWorkArea(settings).value;
    assert Num(a.width) == Num(a.right) - Num(a.left);
    assert Num(a.height) == Num(a.top) - Num(a.bottom);
    var box := FitBox(settings).value;
    FittedInside(layers, box.0, box.1, box.2, box.3, true);
  }

  /** Fitting a drawing moves its points but keeps every polyline and every
      point of it. */
  lemma FittedCounts(layers: seq<StrokeLayer>, left: real, bottom: real, right: real, top: real, maintainAspect: bool)
    ensures var f := Fitted(layers, left, bottom, right, top, maintainAspect);
      |f| == |layers| && LineTotal(f) == LineTotal(layers) && PointTotal(f) == PointTotal(layers)
  {
    var b := BoundsOf(layers);
    if b.width != 0.0 && b.height != 0.0 {
      var h := FitMap(-b.minX - b.width / 2.0, -b.minY - b.height / 2.0,
                      FitScaleX(b, left, right, bottom, top, maintainAspect),
                      FitScaleY(b, left, right, bottom, top, maintainAspect),
                      (left + right) / 2.0, (bottom + top) / 2.0);
      FittedAsMap(layers, left, bottom, right, top, maintainAspect);
      assert Fitted(layers, left, bottom, right, top, maintainAspect) == MapLayers(layers, h);
      MapLayersCounts(layers, h);
    }
  }

  /** The tail of `generate`: read the work area, then fit the drawing to
      it with a 20-unit margin, keeping its aspect ratio. */
  method FitToWorkArea(t: Turtle, settings: PlotterSettings) returns (r: Result<Turtle>)
    requires t.Valid()
    modifies t`layers
    ensures r.Ok? <==> FitBox(settings.settings).Ok?
    ensures r.Err? ==> r.message == GetWorkArea(settings.settings).message && t.layers == old(t.layers)
    ensures r.Ok? ==>
      var (left, bottom, right, top) := FitBox(settings.settings).value;
      && r.value == t && t.Valid()
      && t.layers == Fitted(old(t.layers), left, bottom, right, top, true)
      && LineTotal(t.layers) == LineTotal(old(t.layers)) && PointTotal(t.layers) == PointTotal(old(t.layers))
  {
    var box := FitBox(settings.settings);
    if box.Err? {
      return Err(box.message);
    }
    var (left, bottom, right, top) := box.value;
    FittedCounts(t.layers, left, bottom, right, top, true);
    t.FitToBounds(left, bottom, right, top, true);
    r := Ok(t);
  }

  /** `r` is `drawn` fitted to the work area of `settings`. */
  ghost predicate FitsWorkArea(r: Result<Turtle>, drawn: seq<StrokeLayer>, settings: map<string, Value>)
    reads if r.Ok? then {r.value} else {}
  {
    r.Ok? ==>
      && FitBox(settings).Ok?
      && var (left, bottom, right, top) := FitBox(settings).value;
      && r.value.Valid()
      && r.value.layers == Fitted(drawn, left, bottom, right, top, true)
      && LineTotal(r.value.layers) == LineTotal(drawn) && PointTotal(r.value.layers) == PointTotal(drawn)
  }

  /** An error the generator raises comes first; the work area is read
      after it has drawn. */
  function FirstError<T>(made: Result<T>, settings: map<string, Value>): string
    requires made.Err? || GetWorkArea(settings).Err?
  {
    if made.Err? then made.message else GetWorkArea(settings).message
  }

  method FittedMaze(options: map<string, Value>, settings: PlotterSettings, pick: nat -> nat)
    returns (r: Result<Turtle>, ghost drawn: seq<StrokeLayer>)
    ensures r.Ok? <==> MazeParams(options).Ok? && FitBox(settings.settings).Ok?
    ensures r.Err? ==> r.message == FirstError(MazeParams(options), settings.settings)
    ensures r.Ok? ==> LineTotal(r.value.layers) == WallCount(MazeParams(options).value.0, MazeParams(options).value.1)
    ensures FitsWorkArea(r, drawn, settings.settings)
  {
    drawn := [];
    var made, standing := GenerateMaze(options, pick);
    if made.Err? {
      return Err(made.message), drawn;
    }
    drawn := made.value.layers;
    r := FitToWorkArea(made.value, settings);
  }

  method FittedDragon(options: map<string, Value>, settings: PlotterSettings, heading: real -> Point)
    returns (r: Result<Turtle>, ghost drawn: seq<StrokeLayer>)
    ensures r.Ok? <==> DragonParams(options).Ok? && FitBox(settings.settings).Ok?
    ensures r.Err? ==> r.message == FirstError(DragonParams(options), settings.settings)
    ensures r.Ok? ==> LineTotal(r.value.layers) == 1 && PointTotal(r.value.layers) == Pow2(DragonParams(options).value.0) + 1
    ensures FitsWorkArea(r, drawn, settings.settings)
  {
    drawn := [];
    var made := GenerateDragon(options, heading);
    if made.Err? {
      return Err(made.message), drawn;
    }
    drawn := made.value.layers;
    r := FitToWorkArea(made.value, settings);
  }

  method FittedBorder(options: map<string, Value>, settings: PlotterSettings)
    returns (r: Result<Turtle>, ghost drawn: seq<StrokeLayer>)
    ensures r.Ok? <==> BorderBox(options, settings.settings).Ok?
    ensures r.Err? ==> r.message == BorderBox(options, settings.settings).message
    ensures r.Ok? ==> drawn == BorderDrawing(BorderBox(options, settings.settings).value)
    ensures FitsWorkArea(r, drawn, settings.settings)
  {
    drawn := [];
    var made := GenerateBorder(options, settings);
    if made.Err? {
      return Err(made.message), drawn;
    }
    drawn := made.value.layers;
    r := FitToWorkArea(made.value, settings);
  }

  method FittedText(options: map<string, Value>, settings: PlotterSettings)
    returns (r: Result<Turtle>, ghost drawn: seq<StrokeLayer>)
    ensures r.Ok? <==> TextParams(options).Ok? && FitBox(settings.settings).Ok?
    ensures r.Err? ==> r.message == FirstError(TextParams(options), settings.settings)
    ensures r.Ok? ==> LineTotal(r.value.layers) == StrokeTotal(Upper(TextParams(options).value.0), Font)
    ensures FitsWorkArea(r, drawn, settings.settings)
  {
    drawn := [];
    var made := GenerateText(options);
    if made.Err? {
      return Err(made.message), drawn;
    }
    drawn := made.value.layers;
    r := FitToWorkArea(made.value, settings);
  }

  method FittedOther(other: Result<Turtle>, settings: PlotterSettings)
    returns (r: Result<Turtle>, ghost drawn: seq<StrokeLayer>)
    requires other.Ok? ==> other.value.Valid()
    modifies if other.Ok? then {other.value} else {}
    ensures r.Ok? <==> other.Ok? && FitBox(settings.settings).Ok?
    ensures r.Err? ==> r.message == FirstError(other, settings.settings)
    ensures r.Ok? ==> r.value == other.value && drawn == old(other.value.layers)
    ensures FitsWorkArea(r, drawn, settings.settings)
  {
    drawn := [];
    if other.Err? {
      return other, drawn;
    }
    drawn := other.value.layers;
    r := FitToWorkArea(other.value, settings);
  }

  /** `generate`: look the generator up by name, run it on the options and
      fit what it draws to the work area. The generators this model does not
      draw are represented by `other`, the turtle (or error) they produce. */
  method Generate(name: string, options: map<string, Value>, settings: PlotterSettings,
                  pick: nat -> nat, heading: real -> Point, other: Result<Turtle>)
    returns (r: Result<Turtle>, ghost drawn: seq<StrokeLayer>)
    requires other.Ok? ==> other.value.Valid()
    modifies if other.Ok? then {other.value} else {}
    ensures Dispatch(name).Err? ==> r == Err("Unknown generator: " + name)
    ensures Dispatch(name) == Ok(MazeKind) ==>
      && (r.Ok? <==> MazeParams(options).Ok? && FitBox(settings.settings).Ok?)
      && (r.Err? ==> r.message == FirstError(MazeParams(options), settings.settings))
      && (r.Ok? ==> LineTotal(r.value.layers) == WallCount(MazeParams(options).value.0, MazeParams(options).value.1))
    ensures Dispatch(name) == Ok(DragonKind) ==>
      && (r.Ok? <==> DragonParams(options).Ok? && FitBox(settings.settings).Ok?)
      && (r.Err? ==> r.message == FirstError(DragonParams(options), settings.settings))
      && (r.Ok? ==> LineTotal(r.value.layers) == 1 && PointTotal(r.value.layers) == Pow2(DragonParams(options).value.0) + 1)
    ensures Dispatch(name) == Ok(BorderKind) ==>
      && (r.Ok? <==> BorderBox(options, settings.settings).Ok?)
      && (r.Err? ==> r.message == BorderBox(options, settings.settings).message)
      && (r.Ok? ==> drawn == BorderDrawing(BorderBox(options, settings.settings).value))
    ensures Dispatch(name) == Ok(TextKind) ==>
      && (r.Ok? <==> TextParams(options).Ok? && FitBox(settings.settings).Ok?)
      && (r.Err? ==> r.message == FirstError(TextParams(options), settings.settings))
      && (r.Ok? ==> LineTotal(r.value.layers) == StrokeTotal(Upper(TextParams(options).value.0), Font))
    ensures Dispatch(name).Ok? && Dispatch(name).value.Other? ==>
      && (r.Ok? <==> other.Ok? && FitBox(settings.settings).Ok?)
      && (r.Err? ==> r.message == FirstError(other, settings.settings))
      && (r.Ok? ==> r.value == other.value && drawn == old(other.value.layers))
    ensures FitsWorkArea(r, drawn, settings.settings)
  {
    var kind := Dispatch(name);
    if kind.Err? {
      return Err(kind.message), [];
    }
    match kind.value {
      case MazeKind =>
        r, drawn := FittedMaze(options, settings, pick);
      case DragonKind =>
        r, drawn := FittedDragon(options, settings, heading);
      case BorderKind =>
        r, drawn := FittedBorder(options, settings);
      case TextKind =>
        r, drawn := FittedText(options, settings);
      case Other(_) =>
        r, drawn := FittedOther(other, settings);
    }
  }

  /** A request that sets every option of an option table to its listed
      default. */
  function Defaults(opts: seq<OptionSpec>): map<string, Value> {
    if opts == [] then map[]
    else Defaults(opts[..|opts| - 1])[opts[|opts| - 1].key := opts[|opts| - 1].default]
  }

  /** The defaults `list_generators` advertises are the ones the drawing
      code falls back to: asking for them explicitly changes nothing. */
  lemma ListedDefaultsAgree(settings: map<string, Value>)
    ensures Catalog[3].0 == "maze" && MazeParams(Defaults(Catalog[3].1.options)) == MazeParams(map[])
    ensures Catalog[4].0 == "dragon" && DragonParams(Defaults(Catalog[4].1.options)) == DragonParams(map[])
    ensures Catalog[10].0 == "border" && BorderBox(Defaults(Catalog[10].1.options), settings) == BorderBox(map[], settings)
    ensures Catalog[11].0 == "text" && TextParams(Defaults(Catalog[11].1.options)) == TextParams(map[])
  {
    MazeDefaultsListed();
    DragonDefaultsListed();
    BorderDefaultsListed(settings);
    TextDefaultsListed();
  }

  lemma MazeDefaultsListed()
    ensures Catalog[3].0 == "maze" && MazeParams(Defaults(Catalog[3].1.options)) == MazeParams(map[])
  {
    var maze := Catalog[3].1.options;
    assert maze[..2][..1][..0] == [];
  }

  lemma DragonDefaultsListed()
    ensures Catalog[4].0 == "dragon" && DragonParams(Defaults(Catalog[4].1.options)) == DragonParams(map[])
  {
    var dragon := Catalog[4].1.options;
    assert dragon[..1][..0] == [];
  }

  lemma BorderDefaultsListed(settings: map<string, Value>)
    ensures Catalog[10].0 == "border" && BorderBox(Defaults(Catalog[10].1.options), settings) == BorderBox(map[], settings)
  {
    var border := Catalog[10].1.options;
    assert border[..0] == [];
  }

  lemma TextDefaultsListed()
    ensures Catalog[11].0 == "text" && TextParams(Defaults(Catalog[11].1.options)) == TextParams(map[])
  {
    var text := Catalog[11].1.options;
    assert text[..1][..0] == [];
  }

}
