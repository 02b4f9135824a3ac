/** The immutable layout of one episode — a mandatory home, optional gold,
    optional wumpus, and sets of pits and walls — its builder, and the
    randomised 4x4 generator. */
module Mazes {
  import opened Wrappers
  import opened Coordinates
  import opened Sequences

  datatype Maze = Maze(
    home: Coordinate,
    gold: Option<Coordinate>,
    wumpus: Option<Coordinate>,
    pits: set<Coordinate>,
    walls: set<Coordinate>)

  /** The gold is at c (never, when the maze has no gold). */
  predicate IsGold(m: Maze, c: Coordinate)
  {
    m.gold == Some(c)
  }

  /** The wumpus is at c (never, when the maze has no wumpus). */
  predicate IsWumpus(m: Maze, c: Coordinate)
  {
    m.wumpus == Some(c)
  }

  predicate IsPit(m: Maze, c: Coordinate)
  {
    c in m.pits
  }

  predicate IsWall(m: Maze, c: Coordinate)
  {
    c in m.walls
  }

  /** Gold and wumpus each occupy at most one cell, and none when absent. */
  lemma SingleGoldAndWumpus(m: Maze, c: Coordinate, d: Coordinate)
    ensures IsGold(m, c) && IsGold(m, d) ==> c == d
    ensures IsWumpus(m, c) && IsWumpus(m, d) ==> c == d
    ensures m.gold.None? ==> !IsGold(m, c)
    ensures m.wumpus.None? ==> !IsWumpus(m, c)
    ensures m.gold.Some? ==> IsGold(m, m.gold.value)
    ensures m.wumpus.Some? ==> IsWumpus(m, m.wumpus.value)
  {
  }

  // ---------------------------------------------------------------------
  // Builder

  /** The accumulating configuration; the home may still be missing. */
  datatype MazeBuilder = MazeBuilder(
    home: Option<Coordinate>,
    gold: Option<Coordinate>,
    wumpus: Option<Coordinate>,
    pits: set<Coordinate>,
    walls: set<Coordinate>)

  /** A fresh builder: nothing set, no pits, no walls. */
  const EmptyBuilder := MazeBuilder(None, None, None, {}, {})

  datatype BuildError = MissingHome

  /** Sets the home, replacing any earlier one; nothing else changes. */
  function WithHome(b: MazeBuilder, c: Coordinate): (r: MazeBuilder)
    ensures r.home == Some(c)
    ensures r.gold == b.gold && r.wumpus == b.wumpus && r.pits == b.pits && r.walls == b.walls
  {
    b.(home := Some(c))
  }

  /** Sets the gold, replacing any earlier one; nothing else changes. */
  function WithGold(b: MazeBuilder, c: Coordinate): (r: MazeBuilder)
    ensures r.gold == Some(c)
    ensures r.home == b.home && r.wumpus == b.wumpus && r.pits == b.pits && r.walls == b.walls
  {
    b.(gold := Some(c))
  }

  /** Sets the wumpus, replacing any earlier one; nothing else changes. */
  function WithWumpus(b: MazeBuilder, c: Coordinate): (r: MazeBuilder)
    ensures r.wumpus == Some(c)
    ensures r.home == b.home && r.gold == b.gold && r.pits == b.pits && r.walls == b.walls
  {
    b.(wumpus := Some(c))
  }

  /** Adds a pit to those already there; nothing else changes. */
  function AddPit(b: MazeBuilder, c: Coordinate): (r: MazeBuilder)
    ensures forall p :: p in r.pits <==> p in b.pits || p == c
    ensures r.home == b.home && r.gold == b.gold && r.wumpus == b.wumpus && r.walls == b.walls
  {
    b.(pits := b.pits + {c})
  }

  /** Adds a wall to those already there; nothing else changes. */
  function AddWall(b: MazeBuilder, c: Coordinate): (r: MazeBuilder)
    ensures forall w :: w in r.walls <==> w in b.walls || w == c
    ensures r.home == b.home && r.gold == b.gold && r.wumpus == b.wumpus && r.pits == b.pits
  {
    b.(walls := b.walls + {c})
  }

  /** For home, gold and wumpus the last write wins. */
  lemma LastWriteWins(b: MazeBuilder, c: Coordinate, d: Coordinate)
    ensures WithHome(WithHome(b, c), d) == WithHome(b, d)
    ensures WithGold(WithGold(b, c), d) == WithGold(b, d)
    ensures WithWumpus(WithWumpus(b, c), d) == WithWumpus(b, d)
  {
  }

  /** Pits and walls accumulate: adding is idempotent and order-insensitive. */
  lemma AddsAccumulate(b: MazeBuilder, c: Coordinate, d: Coordinate)
    ensures AddPit(AddPit(b, c), d) == AddPit(AddPit(b, d), c)
    ensures AddPit(AddPit(b, c), c) == AddPit(b, c)
    ensures AddWall(AddWall(b, c), d) == AddWall(AddWall(b, d), c)
    ensures AddWall(AddWall(b, c), c) == AddWall(b, c)
  {
  }

  /** Builds the maze; fails exactly when no home was set.  Gold and wumpus
      may be absent, and no exclusion between components is imposed. */
  function Build(b: MazeBuilder): (r: Result<Maze, BuildError>)
    ensures r.Failure? <==> b.home.None?
    ensures r.Success? ==> r.value.home == b.home.value
    ensures r.Success? ==> forall c ::
      && (IsGold(r.value, c) <==> b.gold == Some(c))
      && (IsWumpus(r.value, c) <==> b.wumpus == Some(c))
      && (IsPit(r.value, c) <==> c in b.pits)
      && (IsWall(r.value, c) <==> c in b.walls)
  {
    match b.home
    case None => Failure(MissingHome)
    case Some(h) => Success(Maze(h, b.gold, b.wumpus, b.pits, b.walls))
  }

  /** All five components may share one cell. */
  lemma AllComponentsOneCell(c: Coordinate)
    ensures var r := Build(AddWall(AddPit(WithWumpus(WithGold(WithHome(EmptyBuilder, c), c), c), c), c));
      && r.Success? && r.value.home == c
      && IsGold(r.value, c) && IsWumpus(r.value, c) && IsPit(r.value, c) && IsWall(r.value, c)
  {
  }

  /** Each component is reported at the cell it was given and nowhere else,
      so components placed apart are told apart. */
  lemma ComponentsApart(home: Coordinate, gold: Coordinate, wumpus: Coordinate, pit: Coordinate, wall: Coordinate, c: Coordinate)
    ensures var r := Build(AddWall(AddPit(WithWumpus(WithGold(WithHome(EmptyBuilder, home), gold), wumpus), pit), wall));
      && r.Success? && r.value.home == home
      && (IsGold(r.value, c) <==> c == gold)
      && (IsWumpus(r.value, c) <==> c == wumpus)
      && (IsPit(r.value, c) <==> c == pit)
      && (IsWall(r.value, c) <==> c == wall)
  {
  }

  // ---------------------------------------------------------------------
  // Boundary

  /** The one-cell-thick frame strictly outside the rectangle
      [minX, maxX] x [minY, maxY]: the rows just above and below it and the
      columns just left and right of it, without the four corners. */
  predicate InFrame(minX: int, maxX: int, minY: int, maxY: int, c: Coordinate)
  {
    || (minX <= c.x <= maxX && (c.y == minY - 1 || c.y == maxY + 1))
    || (minY <= c.y <= maxY && (c.x == minX - 1 || c.x == maxX + 1))
  }

  /** The walls of the first loop, for columns x..maxX. */
  function RowWalls(x: int, maxX: int, minY: int, maxY: int): (r: set<Coordinate>)
    ensures forall c :: c in r <==> x <= c.x <= maxX && (c.y == minY - 1 || c.y == maxY + 1)
    decreases maxX - x
  {
    if x > maxX then {}
    else {Coordinate(x, minY - 1), Coordinate(x, maxY + 1)} + RowWalls(x + 1, maxX, minY, maxY)
  }

  /** The walls of the second loop, for rows y..maxY. */
  function ColumnWalls(y: int, maxY: int, minX: int, maxX: int): (r: set<Coordinate>)
    ensures forall c :: c in r <==> y <= c.y <= maxY && (c.x == minX - 1 || c.x == maxX + 1)
    decreases maxY - y
  {
    if y > maxY then {}
    else {Coordinate(minX - 1, y), Coordinate(maxX + 1, y)} + ColumnWalls(y + 1, maxY, minX, maxX)
  }

  /** Adds walls around the given rectangle: exactly the frame cells are
      added, and nothing else changes. */
  function Boundary(b: MazeBuilder, minX: int, maxX: int, minY: int, maxY: int): (r: MazeBuilder)
    ensures forall c :: c in r.walls <==> c in b.walls || InFrame(minX, maxX, minY, maxY, c)
    ensures r.home == b.home && r.gold == b.gold && r.wumpus == b.wumpus && r.pits == b.pits
  {
    b.(walls := b.walls + RowWalls(minX, maxX, minY, maxY) + ColumnWalls(minY, maxY, minX, maxX))
  }

  /** The frame lies strictly outside the rectangle and leaves its corners open. */
  lemma FrameOutside(minX: int, maxX: int, minY: int, maxY: int, c: Coordinate)
    requires InFrame(minX, maxX, minY, maxY, c)
    ensures !(minX <= c.x <= maxX && minY <= c.y <= maxY)
    ensures !((c.x == minX - 1 || c.x == maxX + 1) && (c.y == minY - 1 || c.y == maxY + 1))
  {
  }

  /** Around the 4x4 grid the frame is exactly the sixteen cells MazeTest
      enumerates. */
  lemma GridFrame(c: Coordinate)
    ensures InFrame(0, Width - 1, 0, Width - 1, c) <==> c in {
      Coordinate(0, -1), Coordinate(1, -1), Coordinate(2, -1), Coordinate(3, -1),
      Coordinate(-1, 0), Coordinate(-1, 1), Coordinate(-1, 2), Coordinate(-1, 3),
      Coordinate(0, 4), Coordinate(1, 4), Coordinate(2, 4), Coordinate(3, 4),
      Coordinate(4, 0), Coordinate(4, 1), Coordinate(4, 2), Coordinate(4, 3)}
  {
  }

  /** A hand-built 4x4 maze: every component lands where it was put, the
      extra wall stands inside the grid, and the sixteen frame cells are walls. */
  lemma FourByFourExample(c: Coordinate)
    ensures var b := AddWall(AddPit(AddPit(WithWumpus(WithGold(WithHome(
                Boundary(EmptyBuilder, 0, 3, 0, 3), Coordinate(1, 0)), Coordinate(3, 2)),
                Coordinate(0, 2)), Coordinate(3, 1)), Coordinate(2, 3)), Coordinate(0, 3));
      && Build(b).Success?
      && Build(b).value.home == Coordinate(1, 0)
      && (IsGold(Build(b).value, c) <==> c == Coordinate(3, 2))
      && (IsWumpus(Build(b).value, c) <==> c == Coordinate(0, 2))
      && (IsPit(Build(b).value, c) <==> c == Coordinate(3, 1) || c == Coordinate(2, 3))
      && (IsWall(Build(b).value, c) <==> c == Coordinate(0, 3) || InFrame(0, 3, 0, 3, c))
  {
  }

  // ---------------------------------------------------------------------
  // Randomised 4x4 maze

  const Width := 4

  predicate InGrid(c: Coordinate)
  {
    0 <= c.x < Width && 0 <= c.y < Width
  }

  /** The cells of the grid in the order the generator lists them:
      column by column, each column from y = 0 upwards. */
  function GridCells(): (cells: seq<Coordinate>)
    ensures IsShuffle(cells)
  {
    var g := seq(Width * Width, i requires 0 <= i < Width * Width => Coordinate(i / Width, i % Width));
    GridCellsDistinct(g);
    g
  }

  /** A possible outcome of shuffling the grid list: sixteen distinct grid
      cells (ShuffleIsPermutation: exactly the permutations of GridCells()). */
  predicate IsShuffle(s: seq<Coordinate>)
  {
    && |s| == Width * Width
    && (forall i :: 0 <= i < |s| ==> InGrid(s[i]))
    && Distinct(s)
  }

  lemma GridCellsDistinct(g: seq<Coordinate>)
    requires |g| == Width * Width
    requires forall i :: 0 <= i < |g| ==> g[i] == Coordinate(i / Width, i % Width)
    ensures IsShuffle(g)
  {
    forall i, j | 0 <= i < j < |g|
      ensures g[i] != g[j]
    {
      assert i == Width * (i / Width) + i % Width;
      assert j == Width * (j / Width) + j % Width;
    }
  }

  /** The generator's list holds every grid cell and nothing else. */
  lemma GridMembership(c: Coordinate)
    ensures c in GridCells() <==> InGrid(c)
  {
    if InGrid(c) {
      var i := Width * c.x + c.y;
      assert i / Width == c.x && i % Width == c.y;
      assert GridCells()[i] == c;
    }
  }

  /** A subset as large as its superset is the whole superset. */
  lemma SubsetSameSize<T>(a: set<T>, b: set<T>)
    requires a <= b && |a| == |b|
    ensures a == b
  {
    assert b == a + (b - a);
    assert a * (b - a) == {};
  }

  /** The shuffles are exactly the reorderings of the grid list, so taking
      them as inputs covers every outcome of Collections.shuffle. */
  lemma ShuffleIsPermutation(s: seq<Coordinate>)
    ensures IsShuffle(s) <==> multiset(s) == multiset(GridCells())
  {
    var g := GridCells();
    if IsShuffle(s) {
      DistinctCardinality(s);
      DistinctCardinality(g);
      var inS := set x | x in s;
      var inG := set x | x in g;
      assert inS <= inG by {
        forall x | x in inS
          ensures x in inG
        {
          GridMembership(x);
        }
      }
      SubsetSameSize(inS, inG);
      forall x
        ensures multiset(s)[x] == multiset(g)[x]
      {
        DistinctCounts(s, x);
        DistinctCounts(g, x);
        assert x in s <==> x in inS;
      }
    }
    if multiset(s) == multiset(g) {
      assert |s| == |multiset(s)| == |multiset(g)| == |g|;
      forall i | 0 <= i < |s|
        ensures InGrid(s[i])
      {
        assert s[i] in multiset(g);
        GridMembership(s[i]);
      }
      forall x
        ensures multiset(s)[x] <= 1
      {
        DistinctCounts(g, x);
      }
      CountsDistinct(s);
    }
  }

  /** The grid cells satisfying p, as MazeTest searches for them. */
  function Find(p: Coordinate -> bool): (r: set<Coordinate>)
    ensures forall c :: c in r <==> InGrid(c) && p(c)
  {
    set x, y | 0 <= x < Width && 0 <= y < Width && p(Coordinate(x, y)) :: Coordinate(x, y)
  }

  /** Builds a random maze from the results of its two shuffles: gold is the
      first cell of the first shuffle; from the second shuffle, home and
      wumpus are the first two cells, the gold cell is then removed if still
      present, and the next two cells are pits and the one after an extra
      wall.  The grid is framed by boundary walls. */
  function BuildRandom(first: seq<Coordinate>, second: seq<Coordinate>): (m: Maze)
    requires IsShuffle(first) && IsShuffle(second)
    ensures m.home == second[0] && m.gold == Some(first[0]) && m.wumpus == Some(second[1])
    ensures var cells := RemoveFirst(second[2..], first[0]);
      && |cells| >= 3
      && m.pits == {cells[0], cells[1]}
      && (forall c :: IsWall(m, c) <==> InFrame(0, Width - 1, 0, Width - 1, c) || c == cells[2])
  {
    var framed := Boundary(EmptyBuilder, 0, Width - 1, 0, Width - 1);
    var gold := first[0];
    var withGold := WithGold(framed, gold);
    var withHome := WithHome(withGold, second[0]);
    var withWumpus := WithWumpus(withHome, second[1]);
    var cells := RemoveFirst(second[2..], gold);
    var withPits := AddPit(AddPit(withWumpus, cells[0]), cells[1]);
    var b := AddWall(withPits, cells[2]);
    Build(b).value
  }

  /** The components drawn from the second shuffle are distinct grid cells,
      none of them the gold. */
  lemma DrawnCells(first: seq<Coordinate>, second: seq<Coordinate>)
    requires IsShuffle(first) && IsShuffle(second)
    ensures var cells := RemoveFirst(second[2..], first[0]);
      && |cells| >= 3
      && Distinct([second[0], second[1], cells[0], cells[1], cells[2]])
      && first[0] !in cells[..3]
      && InGrid(cells[0]) && InGrid(cells[1]) && InGrid(cells[2])
  {
    var rest := second[2..];
    assert Distinct(rest);
    var cells := RemoveFirst(rest, first[0]);
    forall k | 0 <= k < 3
      ensures cells[k] in rest
    {
      RemoveFirstSubset(rest, first[0], cells[k]);
    }
    assert second[0] !in rest && second[1] !in rest;
  }

  /** A test that holds at exactly one grid cell finds one cell. */
  lemma FindOne(p: Coordinate -> bool, g: Coordinate)
    requires InGrid(g)
    requires forall c :: InGrid(c) ==> (p(c) <==> c == g)
    ensures |Find(p)| == 1
  {
    assert Find(p) == {g};
  }

  /** A test that holds at exactly two distinct grid cells finds two cells. */
  lemma FindTwo(p: Coordinate -> bool, g: Coordinate, h: Coordinate)
    requires InGrid(g) && InGrid(h) && g != h
    requires forall c :: InGrid(c) ==> (p(c) <==> c == g || c == h)
    ensures |Find(p)| == 2
  {
    assert Find(p) == {g, h};
  }

  /** Within the grid there is exactly one gold, one wumpus, two pits and
      one wall, for every pair of shuffles. */
  lemma BuildRandomCounts(first: seq<Coordinate>, second: seq<Coordinate>)
    requires IsShuffle(first) && IsShuffle(second)
    ensures var m := BuildRandom(first, second);
      && |Find(c => IsGold(m, c))| == 1
      && |Find(c => IsWumpus(m, c))| == 1
      && |Find(c => IsPit(m, c))| == 2
      && |Find(c => IsWall(m, c))| == 1
  {
    var m := BuildRandom(first, second);
    DrawnCells(first, second);
    var cells := RemoveFirst(second[2..], first[0]);
    FindOne(c => IsGold(m, c), first[0]);
    FindOne(c => IsWumpus(m, c), second[1]);
    FindTwo(c => IsPit(m, c), cells[0], cells[1]);
    forall c | InGrid(c)
      ensures IsWall(m, c) <==> c == cells[2]
    {
      if InFrame(0, Width - 1, 0, Width - 1, c) {
        FrameOutside(0, Width - 1, 0, Width - 1, c);
      }
    }
    FindOne(c => IsWall(m, c), cells[2]);
  }

  /** The wumpus is never at home, and the pits avoid home, gold and
      wumpus. */
  lemma BuildRandomPitsApart(first: seq<Coordinate>, second: seq<Coordinate>)
    requires IsShuffle(first) && IsShuffle(second)
    ensures var m := BuildRandom(first, second);
      && !IsWumpus(m, m.home)
      && (forall c :: IsPit(m, c) ==> c != m.home && !IsGold(m, c) && !IsWumpus(m, c))
  {
    DrawnCells(first, second);
  }

  /** No pit is a wall, neither the extra wall nor a frame cell. */
  lemma BuildRandomPitsOpen(first: seq<Coordinate>, second: seq<Coordinate>)
    requires IsShuffle(first) && IsShuffle(second)
    ensures var m := BuildRandom(first, second);
      forall c :: IsPit(m, c) ==> !IsWall(m, c)
  {
    DrawnCells(first, second);
    var cells := RemoveFirst(second[2..], first[0]);
    assert !InFrame(0, Width - 1, 0, Width - 1, cells[0]) && !InFrame(0, Width - 1, 0, Width - 1, cells[1]);
  }

  /** Inside the grid the only wall is the extra one, and it avoids home,
      gold and wumpus. */
  lemma BuildRandomWallApart(first: seq<Coordinate>, second: seq<Coordinate>)
    requires IsShuffle(first) && IsShuffle(second)
    ensures var m := BuildRandom(first, second);
      forall c :: IsWall(m, c) && InGrid(c) ==> c != m.home && !IsGold(m, c) && !IsWumpus(m, c)
  {
    var m := BuildRandom(first, second);
    DrawnCells(first, second);
    forall c | IsWall(m, c) && InGrid(c)
      ensures c != m.home && !IsGold(m, c) && !IsWumpus(m, c)
    {
      if InFrame(0, Width - 1, 0, Width - 1, c) {
        FrameOutside(0, Width - 1, 0, Width - 1, c);
      }
    }
  }

  /** Every component lies in the grid, and outside the grid the walls are
      exactly the frame cells. */
  lemma BuildRandomInGrid(first: seq<Coordinate>, second: seq<Coordinate>)
    requires IsShuffle(first) && IsShuffle(second)
    ensures var m := BuildRandom(first, second);
      && (forall c :: IsPit(m, c) || IsGold(m, c) || IsWumpus(m, c) || c == m.home ==> InGrid(c))
      && (forall c :: !InGrid(c) ==> (IsWall(m, c) <==> InFrame(0, Width - 1, 0, Width - 1, c)))
  {
    DrawnCells(first, second);
  }

  /** Gold is drawn from its own shuffle, so it may share its cell with the
      home... */
  lemma GoldMayShareHome()
    ensures var m := BuildRandom(GridCells(), GridCells()); m.gold == Some(m.home)
  {
  }

  /** Exchanging the first two cells of a shuffle gives another shuffle. */
  lemma SwapFrontShuffle(s: seq<Coordinate>)
    requires IsShuffle(s)
    ensures IsShuffle([s[1], s[0]] + s[2..])
  {
    var t := [s[1], s[0]] + s[2..];
    assert s == [s[0], s[1]] + s[2..];
    assert multiset(t) == multiset(s);
    ShuffleIsPermutation(s);
    ShuffleIsPermutation(t);
  }

  /** ...or with the wumpus. */
  lemma GoldMayShareWumpus()
    ensures var g := GridCells();
      var first := [g[1], g[0]] + g[2..];
      IsShuffle(first) && BuildRandom(first, g).gold == BuildRandom(first, g).wumpus
  {
    var g := GridCells();
    SwapFrontShuffle(g);
  }

  /** The outcome depends on the shuffles: two pairs of shuffles may give
      different mazes. */
  lemma ShufflesMatter()
    ensures var g := GridCells();
      var first := [g[1], g[0]] + g[2..];
      IsShuffle(first) && BuildRandom(first, g) != BuildRandom(g, g)
  {
    var g := GridCells();
    SwapFrontShuffle(g);
    assert BuildRandom([g[1], g[0]] + g[2..], g).gold == Some(g[1]);
  }
}
