/**
 * The players and their workers ("pieces"), as far as the game state needs them.
 * Their move, build and scoring logic lives in modules that are not part of this model;
 * only the fields that `Board` and `Game` read or write are kept here.
 */
module Players {
  import opened Wrappers

  /** The three kinds of player `Game` can create: `HumanPlayer`, `RandomComputerPlayer`, `HeuristicComputerPlayer`. */
  datatype PlayerKind = Human | RandomComputer | HeuristicComputer

  class Player {
    const color: string
    const kind: PlayerKind
    const showScore: bool
    /** The player's two workers; `Game` assigns this list when it places the workers. */
    var pieces: seq<Piece>

    constructor (color: string, kind: PlayerKind, showScore: bool := false)
      ensures this.color == color && this.kind == kind && this.showScore == showScore
      ensures pieces == []
    {
      this.color := color;
      this.kind := kind;
      this.showScore := showScore;
      pieces := [];
    }
  }

  class Piece {
    /** The worker's letter, 'A', 'B', 'Y' or 'Z'. */
    const letter: string
    /** The player the worker belongs to; `Board.check_winner` reports it. */
    const player: Player
    /** The square the worker stands on, recorded by `update_position`; none before it is placed. */
    var position: Option<(int, int)>

    constructor (letter: string, player: Player)
      ensures this.letter == letter && this.player == player && position == None
    {
      this.letter := letter;
      this.player := player;
      position := None;
    }

    method UpdatePosition(row: int, col: int)
      modifies this
      ensures position == Some((row, col))
    {
      position := Some((row, col));
    }
  }
}
