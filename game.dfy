/**
 * The game state of a Santorini match: two players with two workers each on the shared
 * board, whose turn it is, the turn counter, and whether play goes on. The user interface
 * that drives it is not part of this model.
 */
module GameState {
  import opened Wrappers
  import opened Players
  import opened BoardState

  // ---------------------------------------------------------------------------
  // Compass directions and their offsets

  /** `direction_dic`: each compass direction to its (row, column) offset. */
  const DirectionDic: map<string, (int, int)> := map[
    "n" := (-1, 0), "ne" := (-1, 1), "e" := (0, 1), "se" := (1, 1),
    "s" := (1, 0), "sw" := (1, -1), "w" := (0, -1), "nw" := (-1, -1)
  ]

  /** `reverse_direction_dic`: each offset back to its compass direction. */
  const ReverseDirectionDic: map<(int, int), string> := map[
    (-1, 0) := "n", (-1, 1) := "ne", (0, 1) := "e", (1, 1) := "se",
    (1, 0) := "s", (1, -1) := "sw", (0, -1) := "w", (-1, -1) := "nw"
  ]

  /** A step to one of the eight neighbouring squares. */
  predicate IsStep(o: (int, int)) {
    -1 <= o.0 <= 1 && -1 <= o.1 <= 1 && o != (0, 0)
  }

  /** Every one of the eight neighbouring steps has a direction. */
  lemma DirectionsCoverSteps(o: (int, int))
    requires IsStep(o)
    ensures o in ReverseDirectionDic && ReverseDirectionDic[o] in DirectionDic
    ensures DirectionDic[ReverseDirectionDic[o]] == o
  {
  }

  /** The two tables are each other's inverse, in both directions. */
  lemma ReverseIsInverse()
    ensures forall d | d in DirectionDic ::
      DirectionDic[d] in ReverseDirectionDic && ReverseDirectionDic[DirectionDic[d]] == d
    ensures forall o | o in ReverseDirectionDic ::
      ReverseDirectionDic[o] in DirectionDic && DirectionDic[ReverseDirectionDic[o]] == o
    ensures ReverseDirectionDic.Keys == DirectionDic.Values
  {
  }

  /** There are eight directions. */
  lemma DirectionCount()
    ensures |DirectionDic| == 8
  {
  }

  /** Each direction is a step to a neighbouring square. */
  lemma DirectionsAreSteps()
    ensures forall d | d in DirectionDic :: IsStep(DirectionDic[d])
  {
  }

  /** No two directions are the same step: the reverse table undoes the forward one. */
  lemma DirectionsInjective()
    ensures forall d1, d2 | d1 in DirectionDic && d2 in DirectionDic && DirectionDic[d1] == DirectionDic[d2] ::
      d1 == d2
  {
    ReverseIsInverse();
  }

  // ---------------------------------------------------------------------------
  // End-of-game messages

  /** What `check_game_end` reports when the game is over. */
  datatype EndMessage =
    | CannotMove(stuck: Player, winner: Player)  // "<stuck> cannot move, <winner> wins!"
    | Wins(winner: Player)                       // "<winner> wins!"

  /** The message text; `show` is a player's `str`, which is not part of this model. */
  function Text(m: EndMessage, show: Player -> string): (s: string)
    ensures |s| >= |show(m.winner)| + 6
    ensures s[|s| - |show(m.winner)| - 6..] == show(m.winner) + " wins!"
    ensures m.CannotMove? ==>
      |s| >= |show(m.stuck)| + 14 && s[..|show(m.stuck)| + 14] == show(m.stuck) + " cannot move, "
  {
    match m
    case CannotMove(stuck, winner) => show(stuck) + " cannot move, " + show(winner) + " wins!"
    case Wins(winner) => show(winner) + " wins!"
  }

  // ---------------------------------------------------------------------------
  // The game

  /** The squares the four workers start on. */
  predicate IsHome(r: int, c: int) {
    (r == 1 || r == 3) && (c == 1 || c == 3)
  }

  /** Both players hold two workers, all four allocated since the pre-state. */
  twostate predicate FreshWorkers(new p1: Player, new p2: Player)
    reads p1, p2
  {
    && |p1.pieces| == 2 && |p2.pieces| == 2
    && fresh(p1.pieces[0]) && fresh(p1.pieces[1])
    && fresh(p2.pieces[0]) && fresh(p2.pieces[1])
  }

  /** Worker `p` is `letter` of `owner`, records (r, c) as its square, and that tile of `b` holds it. */
  ghost predicate Placed(b: Board, p: Piece, letter: string, owner: Player, r: int, c: int)
    requires b.Valid() && OnBoard(r, c)
    reads b, b.tiles, p
  {
    p.letter == letter && p.player == owner && p.position == Some((r, c)) && b.grid[r][c].piece == p
  }

  /**
   * The starting position: A at (3, 1) and B at (1, 3) for `p1`, Y at (1, 1) and Z at (3, 3)
   * for `p2`, all other tiles empty, and every tile at level 0 and not clickable.
   */
  ghost predicate InitialLayout(b: Board, p1: Player, p2: Player)
    requires b.Valid()
    reads b, b.tiles, p1, p2, p1.pieces, p2.pieces
  {
    && |p1.pieces| == 2 && |p2.pieces| == 2
    && Placed(b, p1.pieces[0], "A", p1, 3, 1)
    && Placed(b, p1.pieces[1], "B", p1, 1, 3)
    && Placed(b, p2.pieces[0], "Y", p2, 1, 1)
    && Placed(b, p2.pieces[1], "Z", p2, 3, 3)
    && (forall r, c | OnBoard(r, c) && !IsHome(r, c) :: b.grid[r][c].piece == null)
    && (forall r, c | OnBoard(r, c) :: b.grid[r][c].level == 0 && !b.grid[r][c].clickable)
  }

  class Game {
    const player1: Player
    const player2: Player
    const undoRedo: bool
    /** The class object `Board`, whose one instance every game plays on. */
    const boardClass: BoardClass
    var continueGame: bool
    var currentPlayer: Player
    var gameBoard: Board
    var turn: int
    /** `pieces_dict`: the workers by letter, for the user interface. */
    var piecesDict: map<string, Piece>

    ghost predicate Valid()
      reads this, boardClass, gameBoard
    {
      && player1 != player2
      && (currentPlayer == player1 || currentPlayer == player2)
      && gameBoard.Valid()
      && boardClass.instance == gameBoard
    }

    /** The other player: `player2` for `player1`, `player1` for anyone else. */
    function Opponent(p: Player): (r: Player)
      ensures r == player1 || r == player2
      ensures player1 != player2 ==> r != p
    {
      if p == player1 then player2 else player1
    }

    /** Between the two players, taking the opponent swaps them, and twice gives the player back. */
    lemma OpponentSwaps(p: Player)
      requires player1 != player2
      requires p == player1 || p == player2
      ensures Opponent(p) != p && (Opponent(p) == player1 || Opponent(p) == player2)
      ensures Opponent(Opponent(p)) == p
    {
    }

    /** `pieces_dict` names the workers the players have now. */
    ghost predicate PiecesDictAgrees()
      reads this, player1, player2
    {
      && |player1.pieces| == 2 && |player2.pieces| == 2
      && piecesDict == map[
        "A" := player1.pieces[0], "B" := player1.pieces[1],
        "Y" := player2.pieces[0], "Z" := player2.pieces[1]]
    }

    /** `Game(...)`: the players, the shared board, the starting layout, and turn 1 for `player1`. */
    constructor (boardClass: BoardClass, player1Name: string := "white", player2Name: string := "blue",
                 player1Type: PlayerKind := Human, player2Type: PlayerKind := Human,
                 showScore: bool := false, undoRedo: bool := false)
      modifies boardClass, boardClass.instance
      ensures Valid() && InitialLayout(gameBoard, player1, player2) && PiecesDictAgrees()
      ensures turn == 1 && currentPlayer == player1 && continueGame
      ensures this.boardClass == boardClass && this.undoRedo == undoRedo
      ensures fresh(player1) && fresh(player2) && FreshWorkers(player1, player2) && FreshTiles(gameBoard.grid)
      ensures player1.color == player1Name && player1.kind == player1Type && player1.showScore == showScore
      ensures player2.color == player2Name && player2.kind == player2Type && player2.showScore == showScore
      ensures old(boardClass.instance) != null ==> gameBoard == old(boardClass.instance)
    {
      var p1 := new Player(player1Name, player1Type, showScore);
      var p2 := new Player(player2Name, player2Type, showScore);
      var board := SetUpBoard(boardClass, p1, p2);
      continueGame := true;
      this.undoRedo := undoRedo;
      player1, player2 := p1, p2;
      currentPlayer := p1;
      gameBoard := board;
      this.boardClass := boardClass;
      turn := 1;
      piecesDict := map["A" := p1.pieces[0], "B" := p1.pieces[1], "Y" := p2.pieces[0], "Z" := p2.pieces[1]];
    }

    /**
     * `self.game_board = Board()` followed by `self._initialize_pieces()`, as both `Game(...)`
     * and `reset_game` do it: the shared board, blank again, with the four new workers on
     * their home squares.
     */
    static method SetUpBoard(boardClass: BoardClass, player1: Player, player2: Player) returns (board: Board)
      requires player1 != player2
      modifies boardClass, boardClass.instance, player1, player2
      ensures boardClass.instance == board && board.Valid() && InitialLayout(board, player1, player2)
      ensures old(boardClass.instance) != null ==> board == old(boardClass.instance)
      ensures FreshTiles(board.grid) && FreshWorkers(player1, player2)
    {
      board := boardClass.Call();
      InitializePieces(board, player1, player2);
    }

    /**
     * `_initialize_pieces`, on the game's board and players: gives each player two new
     * workers and puts them on their home squares, recording the square in each worker.
     * Tile levels are untouched, and so is every tile that is not a home square; on a blank
     * board the result is the starting position.
     */
    static method InitializePieces(board: Board, player1: Player, player2: Player)
      requires board.Valid() && player1 != player2
      modifies player1, player2
      modifies board.grid[1][1], board.grid[1][3], board.grid[3][1], board.grid[3][3]
      ensures board.Valid()
      ensures FreshWorkers(player1, player2)
      ensures Placed(board, player1.pieces[0], "A", player1, 3, 1)
      ensures Placed(board, player1.pieces[1], "B", player1, 1, 3)
      ensures Placed(board, player2.pieces[0], "Y", player2, 1, 1)
      ensures Placed(board, player2.pieces[1], "Z", player2, 3, 3)
      ensures forall r, c | OnBoard(r, c) ::
        && board.grid[r][c].level == old(board.grid[r][c].level)
        && board.grid[r][c].clickable == old(board.grid[r][c].clickable)
        && (!IsHome(r, c) ==> board.grid[r][c].piece == old(board.grid[r][c].piece))
      ensures old(board.IsBlank()) ==> InitialLayout(board, player1, player2)
    {
      NewWorkers(player1, player2);
      PlaceWorkers(board, player1, player2);
      RecordPositions(player1, player2);
    }

    /** The first two lines of `_initialize_pieces`: workers A and B for `player1`, Y and Z for `player2`. */
    static method NewWorkers(player1: Player, player2: Player)
      requires player1 != player2
      modifies player1, player2
      ensures WorkersCreated(player1, player2) && FreshWorkers(player1, player2)
    {
      var a := new Piece("A", player1);
      var b := new Piece("B", player1);
      player1.pieces := [a, b];
      var y := new Piece("Y", player2);
      var z := new Piece("Z", player2);
      player2.pieces := [y, z];
    }

    /** The workers, by letter, as `NewWorkers` leaves them. */
    static ghost predicate WorkersCreated(player1: Player, player2: Player)
      reads player1, player2
    {
      && |player1.pieces| == 2 && |player2.pieces| == 2
      && player1.pieces[0].letter == "A" && player1.pieces[0].player == player1
      && player1.pieces[1].letter == "B" && player1.pieces[1].player == player1
      && player2.pieces[0].letter == "Y" && player2.pieces[0].player == player2
      && player2.pieces[1].letter == "Z" && player2.pieces[1].player == player2
    }

    /** The middle of `_initialize_pieces`: each home tile is given its worker, levels kept. */
    static method PlaceWorkers(board: Board, player1: Player, player2: Player)
      requires board.Valid() && WorkersCreated(player1, player2)
      modifies board.grid[1][1], board.grid[1][3], board.grid[3][1], board.grid[3][3]
      ensures board.grid[1][1].piece == player2.pieces[0]
      ensures board.grid[1][3].piece == player1.pieces[1]
      ensures board.grid[3][1].piece == player1.pieces[0]
      ensures board.grid[3][3].piece == player2.pieces[1]
      ensures forall r, c | OnBoard(r, c) ::
        && board.grid[r][c].level == old(board.grid[r][c].level)
        && board.grid[r][c].clickable == old(board.grid[r][c].clickable)
        && (!IsHome(r, c) ==> board.grid[r][c].piece == old(board.grid[r][c].piece))
    {
      var grid: seq<seq<Tile>> := board.grid;
      grid[1][1].Update(piece := player2.pieces[0]);
      grid[1][3].Update(piece := player1.pieces[1]);
      grid[3][1].Update(piece := player1.pieces[0]);
      grid[3][3].Update(piece := player2.pieces[1]);
    }

    /** The end of `_initialize_pieces`: each worker records its home square. */
    static method RecordPositions(player1: Player, player2: Player)
      requires WorkersCreated(player1, player2)
      modifies player1.pieces[0], player1.pieces[1], player2.pieces[0], player2.pieces[1]
      ensures player1.pieces[0].position == Some((3, 1))
      ensures player1.pieces[1].position == Some((1, 3))
      ensures player2.pieces[0].position == Some((1, 1))
      ensures player2.pieces[1].position == Some((3, 3))
    {
      player1.pieces[0].UpdatePosition(3, 1);
      player1.pieces[1].UpdatePosition(1, 3);
      player2.pieces[0].UpdatePosition(1, 1);
      player2.pieces[1].UpdatePosition(3, 3);
    }

    /** The rest of `reset_game`: the game on `board`, turn 1, play on, `player1` to move. */
    method StartPlay(board: Board)
      modifies this`gameBoard, this`turn, this`continueGame, this`currentPlayer
      ensures gameBoard == board && turn == 1 && continueGame && currentPlayer == player1
    {
      gameBoard := board;
      turn := 1;
      continueGame := true;
      currentPlayer := player1;
    }

    /** `switch_player`: the turn passes to the other player. */
    method SwitchPlayer()
      requires Valid()
      modifies this`currentPlayer
      ensures Valid()
      ensures currentPlayer == Opponent(old(currentPlayer)) && currentPlayer != old(currentPlayer)
    {
      if currentPlayer == player1 {
        currentPlayer := player2;
      } else {
        currentPlayer := player1;
      }
    }

    /**
     * `check_game_end`. `canMove` is whether the current player has a legal move
     * (`can_player_move`, which is not part of this model). A stuck player loses before
     * the board is searched for a worker on level 3; either ending stops the game, and
     * otherwise nothing changes.
     */
    method CheckGameEnd(canMove: bool) returns (message: Option<EndMessage>)
      requires Valid()
      modifies this`continueGame
      ensures Valid()
      ensures !canMove ==> message == Some(CannotMove(currentPlayer, Opponent(currentPlayer)))
      ensures canMove && gameBoard.FirstWinner().Some? ==> message == Some(Wins(gameBoard.FirstWinner().value))
      ensures canMove && gameBoard.FirstWinner().None? ==> message == None
      ensures continueGame == if message.Some? then false else old(continueGame)
    {
      if !canMove {
        continueGame := false;
        var opponent := if currentPlayer == player1 then player2 else player1;
        return Some(CannotMove(currentPlayer, opponent));
      }
      var winner := gameBoard.CheckWinner();
      if winner.Some? {
        continueGame := false;
        return Some(Wins(winner.value));
      }
      return None;
    }

    /**
     * `reset_game` as the program has it: a blank board (the same instance), new workers on
     * their home squares, turn 1 for `player1`; but `pieces_dict` still names the previous
     * game's workers, none of which is on the board any more.
     */
    method ResetGameAsWritten()
      requires Valid()
      modifies this, boardClass, gameBoard, player1, player2
      ensures Valid() && InitialLayout(gameBoard, player1, player2)
      ensures gameBoard == old(gameBoard) && FreshTiles(gameBoard.grid) && FreshWorkers(player1, player2)
      ensures turn == 1 && continueGame && currentPlayer == player1
      ensures piecesDict == old(piecesDict)
      ensures old(PiecesDictAgrees()) ==> !PiecesDictAgrees()
      ensures forall k, r, c | k in piecesDict && OnBoard(r, c) :: gameBoard.grid[r][c].piece != piecesDict[k]
    {
      ghost var stale := piecesDict;
      assert forall k | k in stale :: allocated(stale[k]);
      var board := SetUpBoard(boardClass, player1, player2);
      StartPlay(board);
      assert old(PiecesDictAgrees()) ==> stale["A"] == old(player1.pieces[0]) != player1.pieces[0];
    }

    /** `reset_game` with `pieces_dict` rebuilt from the new workers, as `Game(...)` builds it. */
    method ResetGame()
      requires Valid()
      modifies this, boardClass, gameBoard, player1, player2
      ensures Valid() && InitialLayout(gameBoard, player1, player2) && PiecesDictAgrees()
      ensures gameBoard == old(gameBoard) && FreshTiles(gameBoard.grid) && FreshWorkers(player1, player2)
      ensures turn == 1 && continueGame && currentPlayer == player1
    {
      ResetGameAsWritten();
      piecesDict := map[
        "A" := player1.pieces[0], "B" := player1.pieces[1],
        "Y" := player2.pieces[0], "Z" := player2.pieces[1]];
    }
  }
}
