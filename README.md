# Santorini game state in Dafny

A model of the game-state layer of a two-player Santorini board game: the 5 x 5 board of
tiles, each with a building level and at most one worker, the singleton `Board` with its
search for a worker standing on level 3, and the `Game` object that creates the players,
places the four workers, alternates turns, decides when the game is over and resets it.

Modules follow the program:

- `Wrappers` (`wrappers.dfy`): `Option`, for Python's `None`-or-value.
- `Players` (`players.dfy`): stand-ins for the player and piece classes, with only the
  fields the board and the game read or write.
- `BoardState` (`board.dfy`): `Tile` and `Board` from `board.py`. The class attribute
  `Board._instance` becomes the object `BoardClass`, whose `Call` is the expression
  `Board()`. The decimal rendering used by `Tile.__str__` is also here.
- `GameState` (`game.dfy`): the direction tables and the `Game` class from `main.py`.

Tiles and the board are classes whose methods update fields in place. `check_winner` is a
method with the source's nested loops, proved equal to a row-major search function
(`FirstWinner`). Three lemmas give that function its meaning: it finds nothing exactly when
no tile wins, and otherwise it reports the first winning tile.

## Model

| member | source | states |
|---|---|---|
| BoardState.Tile.constructor | board.py:8-13 | the tile has the given row, column, level and occupant, and is not clickable |
| BoardState.Tile.Update | board.py:19-25 | a given level is stored and an omitted level keeps the old one; the occupant always becomes the `piece` argument, so omitting it clears the tile; `clickable` is unchanged, and row and column are constants |
| BoardState.Tile.Str | board.py:15-17 | a tile's text reads back as its level followed by the occupant's text, or by a single space when the tile is empty, which ends the text |
| BoardState.Digits | board.py:17 | the decimal digits of a level are non-empty, all digits, and have no leading zero |
| BoardState.ValueOfDigits | board.py:17 | the digits read back as the number they were made from |
| BoardState.SplitDecimal | board.py:17 | a level's decimal text, negative levels included, followed by text that does not start with a digit, splits back into that level and that text |
| BoardState.Board.constructor | board.py:30-34 | a first `Board` object holds a blank, well-formed grid of new tiles |
| BoardState.Board.Init | board.py:36-37 | 5 rows of 5 new tiles; `grid[r][c]` has row r, column c, level 0, no worker and is not clickable |
| BoardState.BoardClass.constructor | board.py:28 | the class starts with no instance |
| BoardState.BoardClass.Call | board.py:28-37 | `Board()` returns the existing instance when there is one and a new one otherwise, and records it as the instance; either way it leaves the board with a blank grid of new tiles |
| BoardState.Board.CheckWinner | board.py:39-47 | the result is the owner of the first worker on level 3 in row-major order; it is None exactly when no tile holds a worker on level 3 |
| BoardState.Board.FirstWinnerFromNone | board.py:43-47 | the search from a square finds nothing if and only if no tile from that square on holds a worker on level 3 |
| BoardState.Board.FirstWinnerFromFinds | board.py:43-46 | a winning tile with no winning tile before it is the one whose owner the search reports |
| BoardState.Board.FirstWinnerFromSome | board.py:43-46 | whatever the search reports is the owner of a winning tile with no winning tile before it |
| GameState.DirectionCount | main.py:354-363 | there are exactly eight directions |
| GameState.DirectionsAreSteps | main.py:354-363 | every offset has both components in {-1, 0, 1} and is not (0, 0) |
| GameState.DirectionsInjective | main.py:354-381 | no two directions have the same offset |
| GameState.ReverseIsInverse | main.py:354-381 | `reverse_direction_dic` undoes `direction_dic` and the reverse; the offsets are exactly its keys |
| GameState.DirectionsCoverSteps | main.py:372-381 | every step to a neighbouring square has a direction, which maps back to that step |
| GameState.Text | main.py:419-425 | the message ends in "<winner> wins!"; for a stuck player it begins with "<player> cannot move, " |
| GameState.Game.Opponent | main.py:407-410 | the opponent is always one of the two players, and differs from the given player when the two players differ (also main.py:418) |
| GameState.Game.OpponentSwaps | main.py:403-410 | the opponent of either player is the other player, and taking the opponent twice gives the player back |
| GameState.Game.SwitchPlayer | main.py:403-410 | the current player becomes the opponent of the previous one, who is a different player |
| GameState.Game.constructor | main.py:327-370 | new players of the given names, kinds and score flag; the shared board, reused if it exists, in the starting layout; `pieces_dict` names the four workers; turn 1, `player1` to move, play goes on |
| GameState.Game.SetUpBoard | main.py:434-435 | `Board()` and then `_initialize_pieces()`: the shared instance, blank again, with the four new workers in the starting layout |
| GameState.Game.InitializePieces | main.py:383-400 | A and B are new workers of `player1` on (3, 1) and (1, 3), Y and Z new workers of `player2` on (1, 1) and (3, 3), and each records the square whose tile holds it; levels, `clickable` and every other tile are unchanged, so a blank board ends in the starting layout |
| GameState.Game.NewWorkers | main.py:387-388 | each player holds two new workers with the right letters and owner |
| GameState.Game.PlaceWorkers | main.py:391-394 | each home tile holds its worker; levels, `clickable` and the other tiles' occupants are unchanged |
| GameState.Game.RecordPositions | main.py:397-400 | each worker records its home square |
| Players.Piece.UpdatePosition | main.py:397-400 | the worker's recorded square becomes the given row and column |
| GameState.Game.StartPlay | main.py:434-438 | the game stores the shared board (the assignment of main.py:434), then turn 1, play goes on, `player1` to move |
| GameState.Game.CheckGameEnd | main.py:412-428 | a player who cannot move loses to the opponent, whether or not a worker stands on level 3; otherwise the first level-3 worker's owner wins; either ending stops the game, and otherwise the result is None and nothing changes |
| GameState.Game.ResetGameAsWritten | main.py:430-438 | the same board instance, blank, with new workers in the starting layout, turn 1, `player1` to move and play on; `pieces_dict` is untouched, so it no longer names the players' workers and none of its workers is on the board |
| GameState.Game.ResetGame | main.py:430-438 | all of the above, and `pieces_dict` names the new workers again, as after `Game(...)` |

## Left out

- The Tkinter user interface (`SantoriniGUI`, main.py:31-320) and `parse_args` with the start-up block (main.py:440-473). They are widgets, images and process start-up, not game state.
- `History` and undo/redo (main.py:332). The history module is not part of this model; `undoRedo` is only stored.
- `can_player_move`. It lives in the player module, which is not part of this model, so `CheckGameEnd` takes its answer as the parameter `canMove`.
- The text of a player or a piece (`str()` inside messages and in `Tile.__str__`). Those `__str__` methods are not part of this model, so `Text` and `Tile.Str` take them as the function parameters `show`; messages are the datatype `EndMessage`, and `Text` renders one.
- Player types. The strings 'human', 'random' and 'heuristic' become `PlayerKind`, and the datatype rules out any other string. In the source, another string leaves the player unset, and `Game(...)` fails part-way. For `player1` it fails at `self.current_player = self.player1` (main.py:349). For `player2` it fails at `self.player2.pieces = ...` (main.py:388). By then `Board()` (main.py:350) has already reset the shared board, and `player1` has already received its workers (main.py:387).
- Players and pieces keep only the fields the game and the board use: a player's colour, kind, score flag and worker list; a worker's letter, owner and recorded square. Moves, builds, scores and `Player.directions` are left out. The piece module `main.py` imports is not part of this model. Two facts about workers come from its sister version `Extra Credit/piece.py` instead. A new worker has no recorded square (`Extra Credit/piece.py:18-22`). `update_position(row, col)` records exactly that square (`Extra Credit/piece.py:38-40`), which is `Piece.UpdatePosition`. The starting layout rests on the second: it states that each worker's recorded square is the tile that holds it.
- The two direction tables are instance attributes in the source. They are never changed, so they are module constants here.
- The board's nested lists are a `seq<seq<Tile>>` of tile objects rather than an array. The lists are built once by `__init__` and never resized or assigned cell by cell; only the tiles they hold change, in place.
- The class attribute `Board._instance` is the field `instance` of a `BoardClass` object that `Game(...)` receives. Dafny has no mutable class-level state.
- `_initialize_pieces` is split into `NewWorkers`, `PlaceWorkers` and `RecordPositions`. It works on the board and players it is given, which are the game's own. `Game(...)` runs `Board()` and `_initialize_pieces` on its new players before storing them in its fields. `reset_game` stores the board after initialising it, not before. The board is the same singleton instance either way, and nothing in between reads the fields, so the effect is the same.
- BoardState.Tile.Str: the read-back is stated only for occupants whose text does not begin with a digit (the workers' letters), because otherwise the level's digits and the occupant's text run together. `if self.piece` is modelled as "the tile has an occupant"; the piece class, which could change an object's truth value, is not part of this model.

## Findings

| source | as written | input that shows it | evidently intended | confidence | as-written member | corrected member |
|---|---|---|---|---|---|---|
| main.py:430-438 | `reset_game` gives each player new workers but leaves `pieces_dict` holding the previous game's workers. The interface draws and moves workers from `pieces_dict.values()` (main.py:145) | any game, then `reset_game()`: `pieces_dict['A']` is the old worker, which is on no tile and keeps its old position | rebuild `pieces_dict` from the new workers, as `__init__` does (main.py:365-370) | medium, not executed | GameState.Game.ResetGameAsWritten | GameState.Game.ResetGame |
