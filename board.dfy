/**
 * The Santorini board: a 5 x 5 grid of tiles, each with its coordinates, a building
 * level and at most one worker, and the search for a worker standing on level 3.
 * `Board` is a singleton in the program; `BoardClass` holds the class-level instance.
 */
module BoardState {
  import opened Wrappers
  import opened Players

  /** The board has `Size` rows of `Size` tiles. */
  const Size := 5

  /** The level a worker must stand on to win. */
  const WinningLevel := 3

  // ---------------------------------------------------------------------------
  // Decimal text of a level, as Python's f-string renders an int

  predicate IsDigit(ch: char) {
    '0' <= ch <= '9'
  }

  predicate AllDigits(s: string) {
    forall i | 0 <= i < |s| :: IsDigit(s[i])
  }

  function DigitChar(d: nat): (ch: char)
    requires d < 10
    ensures IsDigit(ch) && ch as int - '0' as int == d
  {
    ('0' as int + d) as char
  }

  /** The digits of `n`, most significant first, with no leading zero. */
  function Digits(n: nat): (s: string)
    ensures |s| > 0 && AllDigits(s)
    ensures |s| > 1 ==> s[0] != '0'
    decreases n
  {
    if n < 10 then [DigitChar(n)] else Digits(n / 10) + [DigitChar(n % 10)]
  }

  /** `str(n)` for an int: a minus sign for negative values, then the digits. */
  function Decimal(n: int): string {
    if n < 0 then "-" + Digits(-n) else Digits(n)
  }

  /** The number a string of digits denotes. */
  function ValueOf(s: string): nat
    requires AllDigits(s)
  {
    if s == [] then 0 else 10 * ValueOf(s[..|s| - 1]) + (s[|s| - 1] as int - '0' as int)
  }

  /** How many digits `s` starts with. */
  function DigitRun(s: string): (k: nat)
    ensures k <= |s| && AllDigits(s[..k])
  {
    if s == [] || !IsDigit(s[0]) then 0
    else
      var k := 1 + DigitRun(s[1..]);
      assert s[..k] == [s[0]] + s[1..][..k - 1];
      k
  }

  /** Reads a level written by `Decimal` off the front of `s`; returns it and the text after it. */
  function SplitLevel(s: string): (int, string) {
    if |s| > 0 && s[0] == '-' then
      var k := DigitRun(s[1..]);
      (-(ValueOf(s[1..][..k]) as int), s[1 + k..])
    else
      var k := DigitRun(s);
      (ValueOf(s[..k]), s[k..])
  }

  lemma {:induction false} ValueOfDigits(n: nat)
    ensures ValueOf(Digits(n)) == n
    decreases n
  {
    if n >= 10 {
      ValueOfDigits(n / 10);
      var s := Digits(n);
      assert s[..|s| - 1] == Digits(n / 10);
    }
  }

  lemma {:induction false} DigitRunStopsAfter(s: string, rest: string)
    requires AllDigits(s)
    requires rest == [] || !IsDigit(rest[0])
    ensures DigitRun(s + rest) == |s|
    decreases |s|
  {
    if s != [] {
      assert (s + rest)[1..] == s[1..] + rest;
      DigitRunStopsAfter(s[1..], rest);
    }
  }

  /** A level's text followed by anything that does not begin with a digit reads back as that level. */
  lemma {:induction false} SplitDecimal(n: int, rest: string)
    requires rest == [] || !IsDigit(rest[0])
    ensures SplitLevel(Decimal(n) + rest) == (n, rest)
  {
    var d := Digits(if n < 0 then -n else n);
    DigitRunStopsAfter(d, rest);
    ValueOfDigits(if n < 0 then -n else n);
    assert (d + rest)[..|d|] == d;
    assert (d + rest)[|d|..] == rest;
    if n < 0 {
      var s := "-" + d + rest;
      assert s[1..] == d + rest;
      assert s[1 + |d|..] == rest;
    }
  }

  // ---------------------------------------------------------------------------
  // Tiles

  class Tile {
    const row: int
    const col: int
    var level: int
    var piece: Piece?
    /** False when the tile is made and never assigned after construction. */
    var clickable: bool

    constructor (row: int, col: int, level: int := 0, piece: Piece? := null)
      ensures this.row == row && this.col == col
      ensures this.level == level && this.piece == piece && !clickable
    {
      this.row := row;
      this.col := col;
      this.level := level;
      this.piece := piece;
      clickable := false;
    }

    /**
     * `update(level=None, piece=None)`: an omitted level leaves the level alone, but an
     * omitted piece clears the tile, so the occupant afterwards is always `piece`.
     */
    method Update(level: Option<int> := None, piece: Piece? := null)
      modifies this
      ensures this.level == (if level.Some? then level.value else old(this.level))
      ensures this.piece == piece
      ensures clickable == old(clickable)
    {
      if level.Some? {
        this.level := level.value;
      }
      if piece != null {
        this.piece := piece;
      }
      if piece == null {
        this.piece := null;
      }
    }

    /**
     * `str(tile)`: the level, then the occupant's text, or a single space on an empty tile.
     * `show` is the occupant's `str`, which is not part of this model. The text gives back
     * the level and what stands on the tile, unless the occupant's text begins with a digit.
     */
    function Str(show: Piece -> string): (s: string)
      reads this
      ensures piece == null || show(piece) == [] || !IsDigit(show(piece)[0]) ==>
        SplitLevel(s) == (level, if piece == null then " " else show(piece))
      ensures piece == null ==> s[|s| - 1] == ' '
    {
      var rest := if piece == null then " " else show(piece);
      assert rest == [] || !IsDigit(rest[0]) ==> SplitLevel(Decimal(level) + rest) == (level, rest) by {
        if rest == [] || !IsDigit(rest[0]) {
          SplitDecimal(level, rest);
        }
      }
      Decimal(level) + rest
    }
  }

  // ---------------------------------------------------------------------------
  // The board

  /** Row-major order of squares: (r1, c1) is searched before (r2, c2). */
  predicate Before(r1: int, c1: int, r2: int, c2: int) {
    r1 < r2 || (r1 == r2 && c1 < c2)
  }

  predicate OnBoard(r: int, c: int) {
    0 <= r < Size && 0 <= c < Size
  }

  /** Every tile of `grid` was allocated since the pre-state: it shares no tile with an earlier grid. */
  twostate predicate FreshTiles(new grid: seq<seq<Tile>>) {
    forall r, c | 0 <= r < |grid| && 0 <= c < |grid[r]| :: fresh(grid[r][c])
  }

  class Board {
    var grid: seq<seq<Tile>>
    /** The tiles of `grid`, the footprint of what is said about them. */
    ghost var tiles: set<Tile>

    /** `grid[r][c]` is the tile whose own row and column are `r` and `c`. */
    ghost predicate Valid()
      reads this
    {
      && |grid| == Size
      && (forall r | 0 <= r < Size :: |grid[r]| == Size)
      && (forall r, c | OnBoard(r, c) :: grid[r][c] in tiles && grid[r][c].row == r && grid[r][c].col == c)
    }

    /** Every tile at level 0, unoccupied and not clickable, as `Tile(row, col)` leaves it. */
    ghost predicate IsBlank()
      requires Valid()
      reads this, tiles
    {
      forall r, c | OnBoard(r, c) ::
        grid[r][c].level == 0 && grid[r][c].piece == null && !grid[r][c].clickable
    }

    /** `Board.__new__` on first use: a new object, to which `__init__` is applied. */
    constructor ()
      ensures Valid() && IsBlank() && FreshTiles(grid)
    {
      grid := [];
      tiles := {};
      new;
      Init();
    }

    /** `Board.__init__`: a new grid of new tiles, `grid[r][c] == Tile(r, c)`. */
    method Init()
      modifies this
      ensures Valid() && IsBlank() && FreshTiles(grid)
    {
      var rows: seq<seq<Tile>> := [];
      ghost var made: set<Tile> := {};
      var r := 0;
      while r < Size
        invariant 0 <= r <= Size && |rows| == r
        invariant forall i | 0 <= i < r :: |rows[i]| == Size
        invariant forall i, j | 0 <= i < r && 0 <= j < Size ::
          && rows[i][j] in made
          && fresh(rows[i][j]) && rows[i][j].row == i && rows[i][j].col == j
          && rows[i][j].level == 0 && rows[i][j].piece == null && !rows[i][j].clickable
      {
        var cells: seq<Tile> := [];
        var c := 0;
        while c < Size
          invariant 0 <= c <= Size && |cells| == c
          invariant forall i, j | 0 <= i < r && 0 <= j < Size ::
            && rows[i][j] in made
            && fresh(rows[i][j]) && rows[i][j].row == i && rows[i][j].col == j
            && rows[i][j].level == 0 && rows[i][j].piece == null && !rows[i][j].clickable
          invariant forall j | 0 <= j < c ::
            && cells[j] in made
            && fresh(cells[j]) && cells[j].row == r && cells[j].col == j
            && cells[j].level == 0 && cells[j].piece == null && !cells[j].clickable
        {
          var t := new Tile(r, c);
          cells := cells + [t];
          made := made + {t};
          c := c + 1;
        }
        rows := rows + [cells];
        r := r + 1;
      }
      grid := rows;
      tiles := made;
    }

    /** The tile at (r, c) holds a worker on the winning level. */
    ghost predicate WinsAt(r: int, c: int)
      requires Valid() && OnBoard(r, c)
      reads this, tiles
    {
      grid[r][c].level == WinningLevel && grid[r][c].piece != null
    }

    /** No tile at or after (r, c) in row-major order wins. */
    ghost predicate NoWinnerFrom(r: int, c: int)
      requires Valid()
      reads this, tiles
    {
      forall r2, c2 | OnBoard(r2, c2) && !Before(r2, c2, r, c) :: !WinsAt(r2, c2)
    }

    /** The owner of the first winning tile at or after (r, c), in row-major order. */
    ghost function FirstWinnerFrom(r: int, c: int): Option<Player>
      requires Valid() && 0 <= r <= Size && 0 <= c <= Size
      reads this, tiles
      decreases Size - r, Size - c
    {
      if r == Size then None
      else if c == Size then FirstWinnerFrom(r + 1, 0)
      else if WinsAt(r, c) then Some(grid[r][c].piece.player)
      else FirstWinnerFrom(r, c + 1)
    }

    ghost function FirstWinner(): Option<Player>
      requires Valid()
      reads this, tiles
    {
      FirstWinnerFrom(0, 0)
    }

    /** The search from (r, c) finds nothing exactly when no tile from (r, c) on wins. */
    lemma {:induction false} FirstWinnerFromNone(r: int, c: int)
      requires Valid() && 0 <= r <= Size && 0 <= c <= Size
      ensures FirstWinnerFrom(r, c) == None <==> NoWinnerFrom(r, c)
      decreases Size - r, Size - c
    {
      if r == Size {
      } else if c == Size {
        FirstWinnerFromNone(r + 1, 0);
        assert NoWinnerFrom(r, c) == NoWinnerFrom(r + 1, 0);
      } else if WinsAt(r, c) {
      } else {
        FirstWinnerFromNone(r, c + 1);
        assert NoWinnerFrom(r, c) == NoWinnerFrom(r, c + 1) by {
          forall r2, c2 | OnBoard(r2, c2) && !Before(r2, c2, r, c) && Before(r2, c2, r, c + 1)
            ensures r2 == r && c2 == c
          {
          }
        }
      }
    }

    /** A winning tile with no winning tile between (r, c) and it is the one the search reports. */
    lemma {:induction false} FirstWinnerFromFinds(r: int, c: int, wr: int, wc: int)
      requires Valid() && 0 <= r <= Size && 0 <= c <= Size
      requires OnBoard(wr, wc) && !Before(wr, wc, r, c) && WinsAt(wr, wc)
      requires forall r2, c2 | OnBoard(r2, c2) && !Before(r2, c2, r, c) && Before(r2, c2, wr, wc) ::
        !WinsAt(r2, c2)
      ensures FirstWinnerFrom(r, c) == Some(grid[wr][wc].piece.player)
      decreases Size - r, Size - c
    {
      if c == Size {
        FirstWinnerFromFinds(r + 1, 0, wr, wc);
      } else if r == wr && c == wc {
      } else {
        assert OnBoard(r, c) && Before(r, c, wr, wc);
        FirstWinnerFromFinds(r, c + 1, wr, wc);
      }
    }

    /** What the search from (r, c) reports is the owner of a winning tile with none before it. */
    lemma {:induction false} FirstWinnerFromSome(r: int, c: int) returns (wr: int, wc: int)
      requires Valid() && 0 <= r <= Size && 0 <= c <= Size
      requires FirstWinnerFrom(r, c).Some?
      ensures OnBoard(wr, wc) && !Before(wr, wc, r, c) && WinsAt(wr, wc)
      ensures FirstWinnerFrom(r, c) == Some(grid[wr][wc].piece.player)
      ensures forall r2, c2 | OnBoard(r2, c2) && !Before(r2, c2, r, c) && Before(r2, c2, wr, wc) ::
        !WinsAt(r2, c2)
      decreases Size - r, Size - c
    {
      if c == Size {
        wr, wc := FirstWinnerFromSome(r + 1, 0);
      } else if WinsAt(r, c) {
        wr, wc := r, c;
      } else {
        wr, wc := FirstWinnerFromSome(r, c + 1);
      }
    }

    /**
     * `check_winner`: scans the rows in order and returns the player of the first worker
     * standing on level 3, or nothing when there is none.
     */
    method CheckWinner() returns (w: Option<Player>)
      requires Valid()
      ensures w == FirstWinner()
      ensures w == None <==> NoWinnerFrom(0, 0)
      ensures w.Some? ==> exists r, c | OnBoard(r, c) :: WinsAt(r, c) && w.value == grid[r][c].piece.player
    {
      FirstWinnerFromNone(0, 0);
      if FirstWinner().Some? {
        var wr, wc := FirstWinnerFromSome(0, 0);
      }
      var r := 0;
      while r < Size
        invariant 0 <= r <= Size
        invariant FirstWinnerFrom(r, 0) == FirstWinner()
      {
        var c := 0;
        while c < Size
          invariant 0 <= c <= Size
          invariant FirstWinnerFrom(r, c) == FirstWinner()
        {
          var tile := grid[r][c];
          if tile.level == WinningLevel && tile.piece != null {
            return Some(tile.piece.player);
          }
          c := c + 1;
        }
        r := r + 1;
      }
      return None;
    }
  }

  /**
   * The class object `Board` with its class-level `_instance`. Calling `Board()` creates the
   * instance on first use and, every time, re-runs `__init__` on it: all callers share one
   * board, and each call leaves that board blank.
   */
  class BoardClass {
    var instance: Board?

    constructor ()
      ensures instance == null
    {
      instance := null;
    }

    /** `Board()`. */
    method Call() returns (b: Board)
      modifies this, instance
      ensures instance == b
      ensures old(instance) != null ==> b == old(instance)
      ensures old(instance) == null ==> fresh(b)
      ensures b.Valid() && b.IsBlank() && FreshTiles(b.grid)
    {
      if instance == null {
        instance := new Board();
      }
      b := instance;
      b.Init();
    }
  }
}
