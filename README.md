# WebCheckers core in Dafny

A model of the core of WebCheckers, a web application for playing American
checkers between signed-in users. It covers the following parts:

- **The board.** `BoardView` builds an 8×8 grid of `Space`s for one player's
  orientation. The owner's pieces go on the dark squares of rows 0-2 and the
  opponent's on rows 5-7. The dark squares of rows 3-4 are left empty and
  "valid" to land on.
- **The move rules.** `PostValidateMoveRoute` holds `spaceForJump`,
  `checkFourDirections`, `optionToJump`, `moveForward` and `jumpForward`. In
  the repository these rules are commented out. They are modelled here as the
  reference rules of the game.
- **The players.** `Player` keeps a win/loss record, a status and a name, and
  checks whether the name is well formed.
- **The registries.** `PlayerServices` and `GameCenter` keep the players and
  matches in `ArrayList`s.

Modules:

- **`Wrappers`**: `Option`. `None` stands for Java's `null` wherever a square
  may hold no piece.
- **`Pieces`**: a piece as a value: its type (`SINGLE`/`KING`) and its colour
  (`RED`/`WHITE`).
- **`Lists`**: the `ArrayList` operations the core relies on. `remove(Object)`
  removes only the first equal element.
- **`Spaces`**: the mutable `Space` class. `SpaceState` is what a square shows
  at one moment: its validity flag and its piece.
- **`Board`**: the `BoardView` class, whose rows of `Space` objects are built
  by the constructor's nested loops. It also holds the pure description of a
  position (`Grid`):
  - `Snapshot()` is the position the board's spaces currently show;
  - `StartGrid` is the reference set-up;
  - `WellFormed` means pieces stand only on dark squares, and "valid" means
    "dark and empty";
  - `Mirrored` relates two orientations: square (r, c) on one board is square
    (7-r, 7-c) on the other.
- **`Matches`**: the parts of `Match` the core uses: the two player names and
  the stack of removed pieces. The top of the stack is the last element.
- **`MoveRules`**: the move rules. Each rule that changes state is a method on
  the two `BoardView`s, and its contract ties the new `Snapshot()` to a pure
  function of the old one (`Moved`, `Jumped`). The location lists are
  `LocationList` objects, changed by `Remove` and `Add`. The removed piece is
  pushed onto the match's stack.
- **`MoveFacts`**: what a move or a jump does to a position:
  - which squares change;
  - promotion on row 0;
  - the mirrored pair of boards stays mirrored;
  - `WellFormed` is kept;
  - the per-side location lists keep listing exactly the squares of that
    side's pieces.
- **`Players`**: the `Player` class. Its counters are Java `int`s, so they
  wrap around at 2^31.
- **`Services`**: `PlayerServices`. Its list operations compare players by
  name, as `Player.equals` does.
- **`Center`**: `GameCenter`. Its player list is shared with the caller by
  reference (`PlayerList`).

Where the code and its comments disagree, the model follows the code.
`isAvailable` is documented as "true if not taken", but it returns
`playerList.contains(player)`, which is true when the name *is* taken. The
model returns `contains`.

In the rules, "forward" is decreasing row and a piece is crowned on row 0.
The board constructor, on the other hand, seats the owner's pieces on rows
0-2. Both are modelled as written.

## Model

| member | source | states |
|---|---|---|
| Board.OpponentOf | src/main/java/com/webcheckers/model/BoardView.java:18-21 | the opponent colour is the other of RED and WHITE |
| Board.BoardView.IsValid | src/main/java/com/webcheckers/model/BoardView.java:77-79 | true exactly for 0 <= row < 8 and 0 <= col < 8 |
| Board.BoardView.GetSpace | src/main/java/com/webcheckers/ui/PostValidateMoveRoute.java:59-62 | `getSpace(r, c)`, whose definition is assumed (see Left out): null exactly off the board; on the board the board's space sitting at (r, c) |
| Board.InitialSpace | src/main/java/com/webcheckers/model/BoardView.java:29-49 | the new space for (i, j) has column index j and shows the reference start cell: closed, except the empty dark squares of rows 3-4; an owner's SINGLE on dark squares of rows 0-2; an opponent's SINGLE on dark squares of rows 5-7 |
| Board.InitialRow | src/main/java/com/webcheckers/model/BoardView.java:28-51 | row i gets eight fresh, distinct spaces in column order, each showing its start cell |
| Board.InitialRows | src/main/java/com/webcheckers/model/BoardView.java:24-53 | eight rows of eight fresh spaces, all distinct, each showing its start cell with column index c |
| Board.BoardView.constructor | src/main/java/com/webcheckers/model/BoardView.java:14-54 | the new board for `currentPlayerColor` shows exactly `StartGrid(currentPlayerColor)`; its footprint is exactly its 64 fresh grid spaces, and the space in column c has `cellIdx` c |
| Board.BoardView.GetWhiteBoard | src/main/java/com/webcheckers/model/BoardView.java:56-58 | a fresh board, footprint exactly its 64 spaces, in the WHITE orientation showing the WHITE set-up |
| Board.BoardView.GetRedBoard | src/main/java/com/webcheckers/model/BoardView.java:60-62 | a fresh board, footprint exactly its 64 spaces, in the RED orientation showing the RED set-up |
| Board.StartOnlyDarkSquares | src/main/java/com/webcheckers/model/BoardView.java:30-49 | on a fresh board, a square with row and column parity equal is empty and closed, and every piece stands on a dark square |
| Board.StartRows | src/main/java/com/webcheckers/model/BoardView.java:32-48 | dark squares of rows 0-2 hold a SINGLE of the owner, those of rows 5-7 a SINGLE of the opponent, and those of rows 3-4 are empty and valid |
| Board.StartWellFormed | src/main/java/com/webcheckers/model/BoardView.java:29-49 | a fresh board has pieces only on dark squares, and a square is valid exactly when it is dark and empty |
| Board.StartTwelveEach | src/main/java/com/webcheckers/model/BoardView.java:24-53 | each colour starts with exactly twelve pieces |
| Board.StartGridsMirrored | src/main/java/com/webcheckers/model/BoardView.java:56-62 | the fresh RED and WHITE boards are 180° mirrors: (r, c) on one shows what (7-r, 7-c) shows on the other |
| Board.MirroredSymmetric | src/main/java/com/webcheckers/ui/PostValidateMoveRoute.java:149-156 | the mirror relation between the two boards is symmetric |
| Spaces.Space.constructor | src/main/java/com/webcheckers/model/Space.java:18-23 | stores column index, row index, validity and piece exactly as given |
| Spaces.Space.GetCellIdx | src/main/java/com/webcheckers/model/Space.java:29-31 | the column index the space was built with |
| Spaces.Space.IsValid | src/main/java/com/webcheckers/model/Space.java:37-39 | the validity flag the square currently shows |
| Spaces.Space.GetPiece | src/main/java/com/webcheckers/model/Space.java:53-55 | the piece the square currently shows, None for null |
| Spaces.Space.ChangeValid | src/main/java/com/webcheckers/model/Space.java:45-47 | afterwards `isValid()` is the argument and the piece is unchanged; the indices are constant |
| Spaces.Space.SetPiece | src/main/java/com/webcheckers/model/Space.java:61-63 | afterwards `getPiece()` is the argument (None for null) and validity is unchanged; the indices are constant |
| Pieces.Crowned | src/main/java/com/webcheckers/ui/PostValidateMoveRoute.java:158-161 | `setType(KING)` leaves a KING of the same colour |
| MoveRules.SpaceForJump | src/main/java/com/webcheckers/ui/PostValidateMoveRoute.java:107-119 | the two null checks, then the piece and colour test and the empty-target test; what it means on a board is stated by `SpaceForJumpIsCapture` below |
| MoveRules.CheckFourDirections | src/main/java/com/webcheckers/ui/PostValidateMoveRoute.java:57-80 | the scan itself; its meaning is stated by `CheckFourDirectionsUnfold`, `CheckFourDirectionsCases` and `CheckFourDirectionsSpec` below |
| MoveRules.SpaceForJumpIsCapture | src/main/java/com/webcheckers/ui/PostValidateMoveRoute.java:107-119 | `spaceForJump` on the squares one and two steps along a direction holds exactly when both are on the board, the first holds a piece of another colour and the second is empty |
| MoveRules.CheckFourDirectionsUnfold | src/main/java/com/webcheckers/ui/PostValidateMoveRoute.java:57-80 | `checkFourDirections` tries the two row-1 diagonals, and the two row+1 diagonals only for a KING |
| MoveRules.CheckFourDirectionsCases | src/main/java/com/webcheckers/ui/PostValidateMoveRoute.java:57-80 | the same, in terms of the reference capture rule on the board's position |
| MoveRules.CanJumpFromCases | src/main/java/com/webcheckers/ui/PostValidateMoveRoute.java:63-78 | a piece has a jump exactly when one of the directions open to its kind (two for a SINGLE, four for a KING) offers a capture |
| MoveRules.CheckFourDirectionsSpec | src/main/java/com/webcheckers/ui/PostValidateMoveRoute.java:57-80 | `checkFourDirections` holds if and only if some direction open to the piece's kind offers a capture |
| MoveRules.OptionToJump | src/main/java/com/webcheckers/ui/PostValidateMoveRoute.java:87-98 | true if and only if some listed location has a jump; hence false for an empty list |
| MoveRules.LocationList.Remove | src/main/java/com/webcheckers/ui/PostValidateMoveRoute.java:134 | `remove(location)` drops the first equal location only |
| MoveRules.LocationList.Add | src/main/java/com/webcheckers/ui/PostValidateMoveRoute.java:135 | `add(location)` appends it |
| MoveRules.JavaHalfTruncates | src/main/java/com/webcheckers/ui/PostValidateMoveRoute.java:189-190 | Java's `/ 2` rounds towards zero: the remainder has the sign of the dividend |
| MoveRules.MidpointBetween | src/main/java/com/webcheckers/ui/PostValidateMoveRoute.java:189-194 | `start - (start - end) / 2` lies between start and end in each coordinate, so it is on the board when they are |
| MoveRules.Place | src/main/java/com/webcheckers/ui/PostValidateMoveRoute.java:138-141 | `setPiece` then `changeValid` on one square changes that square of that board and nothing else (the spaces' indices are constant) |
| MoveRules.CrownSquare | src/main/java/com/webcheckers/ui/PostValidateMoveRoute.java:158-161 | crowning changes only the piece on that square, to a KING of its colour |
| MoveRules.MoveOnBoard | src/main/java/com/webcheckers/ui/PostValidateMoveRoute.java:138-145 | one board after a move is `Moved` of its old position |
| MoveRules.JumpOnBoard | src/main/java/com/webcheckers/ui/PostValidateMoveRoute.java:205-216 | one board after a jump is `Jumped` of its old position; the piece read on the jumped square is returned |
| MoveRules.JumpOnMyBoard | src/main/java/com/webcheckers/ui/PostValidateMoveRoute.java:184-201 | as `JumpOnBoard`, and the jumped piece becomes the top of the removed-pieces stack (a proof step) |
| MoveRules.MoveForward | src/main/java/com/webcheckers/ui/PostValidateMoveRoute.java:128-162 | the list loses the first `start` and gains `end`; the mover's board becomes `Moved(start, end)`; the opponent's board gets the same move at the mirrored squares; the piece is crowned on both boards when it lands on row 0 |
| MoveRules.JumpBoards | src/main/java/com/webcheckers/ui/PostValidateMoveRoute.java:184-216 | both boards after a jump over a known square, and the push of the jumped piece (a proof step) |
| MoveRules.JumpVia | src/main/java/com/webcheckers/ui/PostValidateMoveRoute.java:177-229 | `jumpForward` once the jumped square is known: both lists, the stack and both boards (a proof step, with the opponent's list updated before the boards) |
| MoveRules.JumpForward | src/main/java/com/webcheckers/ui/PostValidateMoveRoute.java:172-230 | the jumped square is `start - (start - end) / 2`. Its piece becomes the top of the match's removed-pieces stack, and it is emptied and opened on both boards. The opponent's list loses its mirror. Otherwise as `MoveForward` |
| Matches.Match.PushRemoved | src/main/java/com/webcheckers/ui/PostValidateMoveRoute.java:195 | `getPiecesRemoved().push(p)` makes p the top of the stack |
| MoveFacts.MovedAt | src/main/java/com/webcheckers/ui/PostValidateMoveRoute.java:137-161 | after a move, `end` is closed and holds the moved piece, `start` is empty and valid, and every other square is unchanged |
| MoveFacts.MovedChanges | src/main/java/com/webcheckers/ui/PostValidateMoveRoute.java:137-161 | the same, for all squares at once |
| MoveFacts.JumpedAt | src/main/java/com/webcheckers/ui/PostValidateMoveRoute.java:183-201 | after a jump, `end` is closed and holds the moved piece, `start` and the jumped square are empty and valid, and every other square is unchanged |
| MoveFacts.JumpedChanges | src/main/java/com/webcheckers/ui/PostValidateMoveRoute.java:183-201 | the same, for all squares at once |
| MoveFacts.CarriedKind | src/main/java/com/webcheckers/ui/PostValidateMoveRoute.java:158-161 | the landed piece keeps its colour, and it is a KING when it lands on row 0; otherwise its type is unchanged |
| MoveFacts.MoveKeepsMirror | src/main/java/com/webcheckers/ui/PostValidateMoveRoute.java:137-156 | a move and the same move at (7-r, 7-c) keep two mirrored boards mirrored |
| MoveFacts.JumpKeepsMirror | src/main/java/com/webcheckers/ui/PostValidateMoveRoute.java:183-216 | a jump and the same jump at (7-r, 7-c) keep two mirrored boards mirrored |
| MoveFacts.MoveKeepsWellFormed | src/main/java/com/webcheckers/ui/PostValidateMoveRoute.java:137-145 | moving a piece between dark squares keeps pieces on dark squares and "valid" meaning dark and empty |
| MoveFacts.JumpKeepsWellFormed | src/main/java/com/webcheckers/ui/PostValidateMoveRoute.java:183-201 | the same for a jump over a dark square |
| MoveFacts.MidpointOfJump | src/main/java/com/webcheckers/ui/PostValidateMoveRoute.java:189-194 | for a move of two rows and two columns the jumped square is the exact midpoint, distinct from both ends, and dark when the start is |
| MoveFacts.CaptureMidpoint | src/main/java/com/webcheckers/ui/PostValidateMoveRoute.java:59-62 | a jump offered by the capture rule lands two squares away, and `jumpForward` then removes exactly the square jumped over |
| MoveFacts.MoveKeepsIndex | src/main/java/com/webcheckers/ui/PostValidateMoveRoute.java:132-145 | a list that names exactly the squares of the mover's pieces still does so after the move |
| MoveFacts.MoveKeepsOtherIndex | src/main/java/com/webcheckers/ui/PostValidateMoveRoute.java:128-161 | the list of the side that is not moving, which `moveForward` leaves untouched, still names exactly that side's pieces on a board after the move (the mover's board, or the opponent's board at the mirrored squares) |
| MoveFacts.JumpKeepsIndex | src/main/java/com/webcheckers/ui/PostValidateMoveRoute.java:178-201 | the same after a jump over an opposing piece |
| MoveFacts.JumpKeepsOpponentIndex | src/main/java/com/webcheckers/ui/PostValidateMoveRoute.java:205-221 | the opponent's list, with the mirrored jumped square removed, still names exactly the opponent's pieces on the opponent's board |
| Lists.IndexOf | src/main/java/com/webcheckers/appl/GameCenter.java:58-60 | the first position of an element, or -1 exactly when it is absent |
| Lists.RemoveFirst | src/main/java/com/webcheckers/appl/GameCenter.java:58-60 | `remove(x)` is a no-op when x is absent, and otherwise shortens the list by one |
| Lists.RemoveFirstCuts | src/main/java/com/webcheckers/appl/GameCenter.java:58-60 | `remove(x)` cuts the list at the first x and keeps the rest in order |
| Lists.RemoveFirstMultiset | src/main/java/com/webcheckers/appl/GameCenter.java:58-60 | `remove(x)` takes away exactly one x when there is one, and nothing else |
| Lists.RemoveFirstNoDup | src/main/java/com/webcheckers/ui/PostValidateMoveRoute.java:134 | on a list without duplicates, `remove(x)` leaves exactly the other elements, still without duplicates |
| Lists.RemoveAppended | src/main/java/com/webcheckers/appl/GameCenter.java:48-60 | removing an element just appended, and present nowhere else, restores the list |
| Players.WrapInRange | src/main/java/com/webcheckers/model/Player.java:68-72 | an `int` increment that does not overflow is exact |
| Players.WrapOverflow | src/main/java/com/webcheckers/model/Player.java:69-70 | an increment of the largest `int` gives the smallest; `AddWon` and `AddLost` use it for their overflow clauses |
| Players.WrapAdd | src/main/java/com/webcheckers/model/Player.java:85-89 | wrapping an intermediate sum does not change the final `int` |
| Players.WonKeepsBalance | src/main/java/com/webcheckers/model/Player.java:68-72 | `addWon` keeps games == won + lost, in `int` arithmetic |
| Players.LostKeepsBalance | src/main/java/com/webcheckers/model/Player.java:85-89 | `addLost` keeps games == won + lost, in `int` arithmetic |
| Players.MatchesNamePatternSpec | src/main/java/com/webcheckers/model/Player.java:120-121 | `^[a-zA-Z0-9 ]+$` accepts exactly the non-empty strings of ASCII letters, digits and spaces |
| Players.Player.constructor | src/main/java/com/webcheckers/model/Player.java:19-29 | no games, no wins, no losses (so the record is balanced), status waiting, not recently in a game |
| Players.Player.WithRecord | src/main/java/com/webcheckers/model/Player.java:38-47 | stores the given record as is, status waiting, not recently in a game |
| Players.Player.AddWon | src/main/java/com/webcheckers/model/Player.java:68-72 | games and won go up by one (with `int` wrap-around: from the largest `int` they go to the smallest), and lost is unchanged. A balanced record stays balanced |
| Players.Player.AddLost | src/main/java/com/webcheckers/model/Player.java:85-89 | games and lost go up by one (with `int` wrap-around: from the largest `int` they go to the smallest), and won is unchanged. A balanced record stays balanced |
| Players.Player.ChangeRecentlyInGame | src/main/java/com/webcheckers/model/Player.java:103-105 | `wasRecentlyInGame()` then returns the argument; nothing else changes |
| Players.Player.ChangeStatus | src/main/java/com/webcheckers/model/Player.java:149-151 | `getStatus()` then returns the argument; nothing else changes |
| Players.Player.ContainsInvalidCharacter | src/main/java/com/webcheckers/model/Player.java:119-124 | false exactly when the name is non-empty and made only of ASCII letters, digits and spaces |
| Players.Player.IsInGame | src/main/java/com/webcheckers/model/Player.java:143-147 | true exactly when the status is `ingame` or `challenged`, that is, not `waiting` |
| Players.Player.GetName | src/main/java/com/webcheckers/model/Player.java:130-132 | the name given at construction |
| Players.Player.GetStatus | src/main/java/com/webcheckers/model/Player.java:134-136 | the current status |
| Players.Player.WasRecentlyInGame | src/main/java/com/webcheckers/model/Player.java:111-113 | the current recently-in-game flag |
| Players.Player.Equals | src/main/java/com/webcheckers/model/Player.java:158-164 | true exactly for a non-null player with the same name |
| Players.EqualsEquivalence | src/main/java/com/webcheckers/model/Player.java:158-164 | `equals` holds exactly for players with the same name, never for null, and is reflexive, symmetric and transitive |
| Services.NameIndex | src/main/java/com/webcheckers/model/Player.java:158-164 | the first position holding a player of that name, or -1 when there is none; it is `indexOf` on the names |
| Services.RemoveNamed | src/main/java/com/webcheckers/appl/PlayerServices.java:41-43 | the list is one shorter when the name occurs, and unchanged in length otherwise |
| Services.RemoveNamedNames | src/main/java/com/webcheckers/appl/PlayerServices.java:41-43 | on names, removing a player is `remove` of the name: the first occurrence only |
| Services.RemoveNamedSpec | src/main/java/com/webcheckers/appl/PlayerServices.java:41-43 | nothing changes when no player has the name; otherwise the first such player goes and the others keep their order |
| Services.RemoveNamedAppended | src/main/java/com/webcheckers/appl/PlayerServices.java:33-43 | adding a player with a new name and then removing it restores the list |
| Services.PlayerServices.constructor | src/main/java/com/webcheckers/appl/PlayerServices.java:18-20 | a new service has an empty player list |
| Services.PlayerServices.EndSession | src/main/java/com/webcheckers/appl/PlayerServices.java:25-27 | changes nothing |
| Services.PlayerServices.AddPlayer | src/main/java/com/webcheckers/appl/PlayerServices.java:33-35 | appends the player at the end, so the number of players grows by one |
| Services.PlayerServices.RemovePlayer | src/main/java/com/webcheckers/appl/PlayerServices.java:41-43 | removes the first player with an equal name, and nothing else |
| Services.PlayerServices.IsAvailable | src/main/java/com/webcheckers/appl/PlayerServices.java:50-52 | true exactly when a player with that name is already in the list |
| Services.PlayerServices.GetPlayer | src/main/java/com/webcheckers/appl/PlayerServices.java:59-66 | the first player named `username`, or null exactly when no player has that name |
| Services.PlayerServices.NumPlayers | src/main/java/com/webcheckers/appl/PlayerServices.java:72-74 | the number of players in the list |
| Services.PlayerServices.GetPlayerList | src/main/java/com/webcheckers/appl/PlayerServices.java:80-84 | a list with the same players in the same order, as a separate value |
| Center.GameCenter.constructor | src/main/java/com/webcheckers/appl/GameCenter.java:20-22 | the players list is the caller's list itself; no matches |
| Center.GameCenter.AddPlayer | src/main/java/com/webcheckers/appl/GameCenter.java:29-32 | appends the player to the shared list and returns that same list |
| Center.GameCenter.GetPlayers | src/main/java/com/webcheckers/appl/GameCenter.java:38-40 | returns the shared list itself |
| Center.GameCenter.GetMatch | src/main/java/com/webcheckers/appl/GameCenter.java:48-52 | appends exactly one fresh match for the two names and returns it; the players are unchanged |
| Center.GameCenter.EndMatch | src/main/java/com/webcheckers/appl/GameCenter.java:58-60 | removes the first occurrence of the match and keeps the others in order; a no-op when it is absent |
| Matches.Match.constructor | src/main/java/com/webcheckers/appl/GameCenter.java:49 | a match stores its two player names; that it starts with an empty removed-pieces stack is an assumption (see Left out) |

## Left out

- HTTP handling is not modelled. This covers the live `handle` methods of `PostValidateMoveRoute`, `GetHomeRoute` and `PostResignGameRoute`, and the help-flag and `validateMove` path. They are Spark sessions, JSON and template rendering, and they delegate to `Match`, which is not part of this model.
- `Leaderboard` and its CSV input are not part of this model.
- `Player`'s ratio is not modelled: it is floating point (`Float.toString`).
- The `String` getters `getGames`, `getWon` and `getLost` are not modelled: they only format the counters.
- `GetHomeRoute.deletePlayerFromList` and `deleteMatchIfPossible` are not modelled. They call `GameCenter` methods (`getMatch(Player)`, `isInMatch`, `removePlayer`, `removeMatch`) that `GameCenter` does not define.
- `GameCenter.newPlayerServices` is not modelled: it calls a `PlayerServices` constructor that does not exist.
- Logging and `System.out.println` are not modelled.
- Concurrency is not modelled: the `synchronized` callers are outside the core.
- `BoardView.getBoardView` and the `iterator` over the rows are not modelled: they only expose the rows.
- The `Row` class is not part of this model. A row is a sequence of eight `Space`s, and `rows` is written only by the constructor.
- `Piece`, `Position` and `Location` are not part of this model. A piece is a value (type and colour), so `setType(KING)` replaces the piece on the square with a crowned one. Aliasing of one `Piece` object between squares or boards is not captured. Positions and locations are coordinate pairs compared by value.
- `Match` is abstract here: only its two names and its removed-pieces stack are modelled. Its `equals` is taken to be identity, so `EndMatch` removes that very match. `Match`'s constructor is not modelled; the model assumes that a new match starts with an empty removed-pieces stack (`Matches.Match.constructor`).
- Null players and null names are not modelled: the model's types exclude them. So `getPlayer(null)` (which returns null), `addPlayer(null)` (after which the name comparisons throw) and `new Player(null)` (whose `assert(name != null)` is off by default) are not covered.
- `BoardView.getSpace` is not part of this model: the move rules call it, but `BoardView` does not define it. `Board.BoardView.GetSpace` assumes it returns the space at (row, col) on the board and null off the board, the reading that the null checks of `spaceForJump` rely on.
- `BoardView`'s constructor calls `new Space(j)`, but `Space` has only the four-argument constructor. The model reads the call as `Space(j, 0, false, null)`: column j, with the other fields at Java's defaults; the constructor sets validity and the piece right after.
- `Space`'s `cellIdx` and `cellIdy` are constants in the model. The source declares `cellIdx` public and non-final, but nothing in the core writes either index after construction.
- MoveRules.OptionToJump: it requires every listed location to be on the board and to hold a piece. The source demands less. It stops at the first location that has a jump, so later entries are never read. For each location it reaches, it takes the space (null off the board, which throws) and reads the piece's type only when neither jump towards row 0 exists. So a listed empty square that has a jump towards row 0 makes the source return true, and the model excludes that input.
- MoveRules.MoveForward: it requires `start` and `end` to be on the board. Off the board `getSpace` returns null and the source throws, leaving a partial update behind: with `start` off the board, `pieces` has already lost `start` and gained `end`; with `end` off the board, `start` has also been emptied and opened on the mover's board. The model does not capture these partial states.
- MoveRules.MoveForward: it requires the moved piece to be present on both boards when it lands on row 0; otherwise the source calls `setType` on null.
- MoveRules.MoveForward: the two boards must be made of distinct spaces. The model crowns the piece on the mover's board before updating the opponent's board, where the source crowns on both boards at the end. The two boards have no space in common, so the order does not change the outcome.
- MoveRules.JumpForward: it requires `start` and `end` to be on the board. Off the board the source throws after a partial update, and the model does not capture these partial states. With `start` off the board, it throws after changing `pieces`. With `end` off the board, it throws at the first null space it reaches, after `pieces` has changed and `start` has been emptied and opened on the mover's board. If the jumped square `start - (start - end) / 2` is off the board too, that happens when the jumped square's piece is read, before anything is pushed (for example start (0, 0) and end (-2, -2)). Otherwise the jumped piece has been pushed onto the match's stack and the jumped square emptied; when `end` is at most one row and one column away from `start`, Java's truncating `/ 2` makes the jumped square `start` itself, so the piece pushed is null.
- MoveRules.JumpForward: it has the same row-0 requirement and the same crowning order as `MoveForward`, and it requires the two location lists to be distinct objects. It also removes the jumped location from the opponent's list before updating the boards, where the source does so after both boards; the list is not a square, so the outcome is the same.
- MoveRules.MoveForward: the legality of a move (that `start` holds the mover's piece, that `end` is empty, that the move is diagonal) is not checked here, because the source checks it elsewhere, in `Match`. The lemmas in `MoveFacts` take these facts as hypotheses.
