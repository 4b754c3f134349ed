/**
 * The move rules of `PostValidateMoveRoute`: jump detection and the
 * application of a simple move or a jump to the two boards of a game. The
 * route keeps these rules in a commented-out block; they are modelled here as
 * the reference rules of the game. In these rules "forward" is decreasing row
 * and a piece is crowned when it lands on row 0.
 */
module MoveRules {
  import opened Wrappers
  import opened Pieces
  import opened Lists
  import opened Spaces
  import opened Board
  import opened Matches

  /** An `ArrayList<Location>`: the squares on which one side's pieces stand. */
  class LocationList {
    var items: seq<Pos>

    constructor (items: seq<Pos>)
      ensures this.items == items
    {
      this.items := items;
    }

    /** `remove(Object)`: drops the first occurrence of `x`. */
    method Remove(x: Pos)
      modifies this
      ensures items == RemoveFirst(old(items), x)
    {
      items := RemoveFirst(items, x);
    }

    /** `add`: appends `x`. */
    method Add(x: Pos)
      modifies this
      ensures items == old(items) + [x]
    {
      items := items + [x];
    }
  }

  /** A diagonal direction: one row and one column step. */
  datatype Dir = Dir(dr: int, dc: int)

  /** The square jumped over when jumping from `p` in direction `d`. */
  function Over(p: Pos, d: Dir): Pos {
    Pos(p.row + d.dr, p.col + d.dc)
  }

  /** The square landed on when jumping from `p` in direction `d`. */
  function Landing(p: Pos, d: Dir): Pos {
    Pos(p.row + 2 * d.dr, p.col + 2 * d.dc)
  }

  /** Directions a piece may jump in: a SINGLE only towards row 0, a KING both ways. */
  function Directions(kind: PieceType): set<Dir> {
    if kind == SINGLE then {Dir(-1, -1), Dir(-1, 1)}
    else {Dir(-1, -1), Dir(-1, 1), Dir(1, -1), Dir(1, 1)}
  }

  /**
   * Reference rule: a piece of `color` at `p` can jump in direction `d` when
   * both squares are on the board, an opposing piece stands on the jumped
   * square and the landing square is empty.
   */
  predicate Capturable(g: Grid, p: Pos, d: Dir, color: Color)
    requires IsGrid(g)
  {
    InBounds(Over(p, d)) && InBounds(Landing(p, d)) &&
    Get(g, Over(p, d)).piece.Some? && Get(g, Over(p, d)).piece.value.color != color &&
    Get(g, Landing(p, d)).piece.None?
  }

  /** Some direction open to a piece of `kind` offers a jump from `p`. */
  ghost predicate CanJumpFrom(g: Grid, p: Pos, kind: PieceType, color: Color)
    requires IsGrid(g)
  {
    exists d :: d in Directions(kind) && Capturable(g, p, d, color)
  }

  // ---------------------------------------------------------------------
  // Jump detection

  /** `spaceForJump`: can a piece of `color` jump over `space` onto `target`? */
  function SpaceForJump(space: Space?, target: Space?, color: Color): (b: bool)
    reads space, target
    ensures b <==> space != null && target != null && space.GetPiece().Some? &&
                   space.GetPiece().value.color != color && target.GetPiece().None?
  {
    if target != null && space != null then
      if space.GetPiece().None? then false
      else space.GetPiece().value.color != color && target.GetPiece().None?
    else false
  }

  /** `checkFourDirections`: the two row-1 diagonals, and for a KING the two row+1 ones too. */
  function CheckFourDirections(board: BoardView, row: int, col: int, piece: Piece, color: Color): bool
    requires board.Valid()
    reads board.Spaces()
  {
    var topLeft := board.GetSpace(row - 1, col - 1);
    var topLeftJump := board.GetSpace(row - 2, col - 2);
    var topRight := board.GetSpace(row - 1, col + 1);
    var topRightJump := board.GetSpace(row - 2, col + 2);
    if SpaceForJump(topLeft, topLeftJump, color) then true
    else if SpaceForJump(topRight, topRightJump, color) then true
    else if piece.kind == KING then
      var bottomLeft := board.GetSpace(row + 1, col - 1);
      var bottomLeftJump := board.GetSpace(row + 2, col - 2);
      var bottomRight := board.GetSpace(row + 1, col + 1);
      var bottomRightJump := board.GetSpace(row + 2, col + 2);
      if SpaceForJump(bottomLeft, bottomLeftJump, color) then true
      else SpaceForJump(bottomRight, bottomRightJump, color)
    else false
  }

  /** `spaceForJump` on the spaces a direction names is exactly the reference rule. */
  lemma SpaceForJumpIsCapture(board: BoardView, p: Pos, d: Dir, color: Color)
    requires board.Valid()
    ensures SpaceForJump(board.GetSpace(Over(p, d).row, Over(p, d).col),
                         board.GetSpace(Landing(p, d).row, Landing(p, d).col), color)
            <==> Capturable(board.Snapshot(), p, d, color)
  {
  }

  /** `spaceForJump` on the two squares direction `d` names from `p`. */
  function JumpableOn(board: BoardView, p: Pos, d: Dir, color: Color): bool
    requires board.Valid()
    reads board.Spaces()
  {
    SpaceForJump(board.GetSpace(Over(p, d).row, Over(p, d).col),
                 board.GetSpace(Landing(p, d).row, Landing(p, d).col), color)
  }

  lemma CheckFourDirectionsUnfold(board: BoardView, row: int, col: int, piece: Piece, color: Color)
    requires board.Valid()
    ensures CheckFourDirections(board, row, col, piece, color) ==
      (JumpableOn(board, Pos(row, col), Dir(-1, -1), color) ||
       JumpableOn(board, Pos(row, col), Dir(-1, 1), color) ||
       (piece.kind == KING &&
        (JumpableOn(board, Pos(row, col), Dir(1, -1), color) ||
         JumpableOn(board, Pos(row, col), Dir(1, 1), color))))
  {
    var p := Pos(row, col);
    assert JumpableOn(board, p, Dir(-1, -1), color) ==
      SpaceForJump(board.GetSpace(row - 1, col - 1), board.GetSpace(row - 2, col - 2), color);
    assert JumpableOn(board, p, Dir(-1, 1), color) ==
      SpaceForJump(board.GetSpace(row - 1, col + 1), board.GetSpace(row - 2, col + 2), color);
    assert JumpableOn(board, p, Dir(1, -1), color) ==
      SpaceForJump(board.GetSpace(row + 1, col - 1), board.GetSpace(row + 2, col - 2), color);
    assert JumpableOn(board, p, Dir(1, 1), color) ==
      SpaceForJump(board.GetSpace(row + 1, col + 1), board.GetSpace(row + 2, col + 2), color);
  }

  /** `checkFourDirections` tries the rule on the two diagonals towards row 0, then, for a KING, the other two. */
  lemma CheckFourDirectionsCases(board: BoardView, row: int, col: int, piece: Piece, color: Color)
    requires board.Valid()
    ensures CheckFourDirections(board, row, col, piece, color) ==
      (Capturable(board.Snapshot(), Pos(row, col), Dir(-1, -1), color) ||
       Capturable(board.Snapshot(), Pos(row, col), Dir(-1, 1), color) ||
       (piece.kind == KING &&
        (Capturable(board.Snapshot(), Pos(row, col), Dir(1, -1), color) ||
         Capturable(board.Snapshot(), Pos(row, col), Dir(1, 1), color))))
  {
    var p := Pos(row, col);
    CheckFourDirectionsUnfold(board, row, col, piece, color);
    SpaceForJumpIsCapture(board, p, Dir(-1, -1), color);
    SpaceForJumpIsCapture(board, p, Dir(-1, 1), color);
    SpaceForJumpIsCapture(board, p, Dir(1, -1), color);
    SpaceForJumpIsCapture(board, p, Dir(1, 1), color);
  }

  /** A jump exists exactly when one of the directions open to the piece's kind offers one. */
  lemma CanJumpFromCases(g: Grid, p: Pos, kind: PieceType, color: Color)
    requires IsGrid(g)
    ensures CanJumpFrom(g, p, kind, color) ==
      (Capturable(g, p, Dir(-1, -1), color) || Capturable(g, p, Dir(-1, 1), color) ||
       (kind == KING && (Capturable(g, p, Dir(1, -1), color) || Capturable(g, p, Dir(1, 1), color))))
  {
    var tl, tr, bl, br := Dir(-1, -1), Dir(-1, 1), Dir(1, -1), Dir(1, 1);
    var dirs := Directions(kind);
    if Capturable(g, p, tl, color) {
      assert tl in dirs;
    } else if Capturable(g, p, tr, color) {
      assert tr in dirs;
    } else if kind == KING && Capturable(g, p, bl, color) {
      assert bl in dirs;
    } else if kind == KING && Capturable(g, p, br, color) {
      assert br in dirs;
    } else {
      forall d | d in dirs
        ensures !Capturable(g, p, d, color)
      {
        assert d == tl || d == tr || (kind == KING && (d == bl || d == br));
      }
    }
  }

  /** `checkFourDirections` holds exactly when some direction of the piece's kind offers a jump. */
  lemma CheckFourDirectionsSpec(board: BoardView, row: int, col: int, piece: Piece, color: Color)
    requires board.Valid()
    ensures CheckFourDirections(board, row, col, piece, color) <==>
            CanJumpFrom(board.Snapshot(), Pos(row, col), piece.kind, color)
  {
    CheckFourDirectionsCases(board, row, col, piece, color);
    CanJumpFromCases(board.Snapshot(), Pos(row, col), piece.kind, color);
  }

  /**
   * `optionToJump`: does any of the side's pieces have a jump? The model asks
   * every listed location to be on the board and occupied. The source needs
   * less: it stops at the first location with a jump, throws on the null
   * space of an off-board location it reaches, and reads the piece's type
   * only when neither jump towards row 0 exists.
   */
  method OptionToJump(board: BoardView, pieces: LocationList, color: Color) returns (b: bool)
    requires board.Valid()
    requires forall k :: 0 <= k < |pieces.items| ==>
      InBounds(pieces.items[k]) && board.At(pieces.items[k]).piece.Some?
    ensures b <==> exists k :: (0 <= k < |pieces.items| &&
      CanJumpFrom(board.Snapshot(), pieces.items[k], board.At(pieces.items[k]).piece.value.kind, color))
  {
    var i := 0;
    while i < |pieces.items|
      invariant 0 <= i <= |pieces.items|
      invariant forall k :: 0 <= k < i ==>
        !CanJumpFrom(board.Snapshot(), pieces.items[k], board.At(pieces.items[k]).piece.value.kind, color)
    {
      var row := pieces.items[i].row;
      var col := pieces.items[i].col;
      var space := board.GetSpace(row, col);
      var piece := space.GetPiece();
      CheckFourDirectionsSpec(board, row, col, piece.value, color);
      if CheckFourDirections(board, row, col, piece.value, color) {
        return true;
      }
      i := i + 1;
    }
    return false;
  }

  // ---------------------------------------------------------------------
  // What a move does to a position

  /** Square `p` emptied and opened: `setPiece(null)`, `changeValid(true)`. */
  function Vacated(g: Grid, p: Pos): (h: Grid)
    requires IsGrid(g) && InBounds(p)
    ensures IsGrid(h)
  {
    Set(g, p, SpaceState(true, None))
  }

  /** The piece `setType(KING)` leaves behind, on a square that may be empty. */
  function KingOf(o: Option<Piece>): Option<Piece> {
    if o.Some? then Some(Crowned(o.value)) else None
  }

  /** Crown the piece standing on `p`. */
  function CrownAt(g: Grid, p: Pos): (h: Grid)
    requires IsGrid(g) && InBounds(p)
    ensures IsGrid(h)
  {
    Set(g, p, SpaceState(Get(g, p).valid, KingOf(Get(g, p).piece)))
  }

  /** One board after `moveForward` from `from` to `to`, crowning the piece when `crown`. */
  function Moved(g: Grid, from: Pos, to: Pos, crown: bool): (h: Grid)
    requires IsGrid(g) && InBounds(from) && InBounds(to)
    ensures IsGrid(h)
  {
    var h := Set(Vacated(g, from), to, SpaceState(false, Get(g, from).piece));
    if crown then CrownAt(h, to) else h
  }

  /** One board after `jumpForward` from `from` over `over` to `to`. */
  function Jumped(g: Grid, from: Pos, over: Pos, to: Pos, crown: bool): (h: Grid)
    requires IsGrid(g) && InBounds(from) && InBounds(over) && InBounds(to)
    ensures IsGrid(h)
  {
    var h := Set(Vacated(Vacated(g, from), over), to, SpaceState(false, Get(g, from).piece));
    if crown then CrownAt(h, to) else h
  }

  /** Java's `x / 2`, which truncates towards zero. */
  function JavaHalf(x: int): int {
    if x >= 0 then x / 2 else -((-x) / 2)
  }

  /** `x / 2` rounds towards zero: the remainder has the sign of `x`. */
  lemma JavaHalfTruncates(x: int)
    ensures x >= 0 ==> 0 <= x - 2 * JavaHalf(x) <= 1
    ensures x < 0 ==> -1 <= x - 2 * JavaHalf(x) <= 0
    ensures JavaHalf(-x) == -JavaHalf(x)
  {
  }

  predicate Between(a: int, x: int, b: int) {
    (a <= x <= b) || (b <= x <= a)
  }

  /** The jumped square `start - (start - end) / 2`; it lies between `start` and `end`. */
  function Midpoint(start: Pos, end: Pos): Pos {
    Pos(start.row - JavaHalf(start.row - end.row), start.col - JavaHalf(start.col - end.col))
  }

  /** The jumped square lies between the two ends, so it is on the board when they are. */
  lemma MidpointBetween(start: Pos, end: Pos)
    ensures Between(start.row, Midpoint(start, end).row, end.row)
    ensures Between(start.col, Midpoint(start, end).col, end.col)
    ensures InBounds(start) && InBounds(end) ==> InBounds(Midpoint(start, end))
  {
    JavaHalfTruncates(start.row - end.row);
    JavaHalfTruncates(start.col - end.col);
  }

  /** A jump moves two rows and two columns. */
  predicate IsJumpShape(start: Pos, end: Pos) {
    (end.row - start.row == 2 || end.row - start.row == -2) &&
    (end.col - start.col == 2 || end.col - start.col == -2)
  }

  // ---------------------------------------------------------------------
  // Applying a move to the boards

  /**
   * One square update of the rules: `getSpace(row, col)`, then `setPiece`,
   * then `changeValid`. Only that square of that board changes; the indices
   * of every space are constant.
   */
  method Place(board: BoardView, p: Pos, contents: Option<Piece>, open: bool)
    requires board.Valid() && InBounds(p)
    modifies board.Spaces()
    ensures board.Snapshot() == Set(old(board.Snapshot()), p, SpaceState(open, contents))
  {
    ghost var g := board.Snapshot();
    var space := board.GetSpace(p.row, p.col);
    space.SetPiece(contents);
    space.ChangeValid(open);
    SnapshotEquals(board, Set(g, p, SpaceState(open, contents)));
  }

  /** `getSpace(row, col).getPiece().setType(KING)`: the piece on `p` is crowned. */
  method CrownSquare(board: BoardView, p: Pos)
    requires board.Valid() && InBounds(p) && Get(board.Snapshot(), p).piece.Some?
    modifies board.Spaces()
    ensures board.Snapshot() == CrownAt(old(board.Snapshot()), p)
  {
    ghost var g := board.Snapshot();
    SnapshotAt(board, p);
    var space := board.GetSpace(p.row, p.col);
    space.SetPiece(Some(Crowned(space.GetPiece().value)));
    SnapshotEquals(board, CrownAt(g, p));
  }

  /**
   * What `moveForward` does to one board: read the piece on `from`, empty and
   * open `from`, put the piece on `to` and close it, then crown it when
   * `crown` holds.
   */
  method MoveOnBoard(board: BoardView, from: Pos, to: Pos, crown: bool)
    requires board.Valid() && InBounds(from) && InBounds(to)
    requires crown ==> Get(board.Snapshot(), from).piece.Some?
    modifies board.Spaces()
    ensures board.Snapshot() == Moved(old(board.Snapshot()), from, to, crown)
  {
    var piece := board.GetSpace(from.row, from.col).GetPiece();
    SnapshotAt(board, from);
    Place(board, from, None, true);
    Place(board, to, piece, false);
    if crown {
      CrownSquare(board, to);
    }
  }

  /**
   * What `jumpForward` does to one board: empty and open `from`, read and then
   * empty and open `over`, put the piece from `from` on `to` and close it,
   * then crown it when `crown` holds. `removed` is the piece read on `over`.
   */
  method JumpOnBoard(board: BoardView, from: Pos, over: Pos, to: Pos, crown: bool)
    returns (removed: Option<Piece>)
    requires board.Valid() && InBounds(from) && InBounds(over) && InBounds(to)
    requires crown ==> Get(board.Snapshot(), from).piece.Some?
    modifies board.Spaces()
    ensures removed == Get(Vacated(old(board.Snapshot()), from), over).piece
    ensures board.Snapshot() == Jumped(old(board.Snapshot()), from, over, to, crown)
  {
    var piece := board.GetSpace(from.row, from.col).GetPiece();
    SnapshotAt(board, from);
    Place(board, from, None, true);
    removed := board.GetSpace(over.row, over.col).GetPiece();
    SnapshotAt(board, over);
    Place(board, over, None, true);
    Place(board, to, piece, false);
    if crown {
      CrownSquare(board, to);
    }
  }

  /**
   * The mover's side of `jumpForward`: as `JumpOnBoard`, and the piece read
   * on `over` is pushed onto the game's removed-pieces stack before `over`
   * is emptied. This layer, like `JumpBoards` and `JumpVia`, has no
   * counterpart in the source: it only splits the proof of `jumpForward`
   * into smaller steps.
   */
  method JumpOnMyBoard(board: BoardView, from: Pos, over: Pos, to: Pos, crown: bool, game: Match)
    requires board.Valid() && InBounds(from) && InBounds(over) && InBounds(to)
    requires crown ==> Get(board.Snapshot(), from).piece.Some?
    modifies board.Spaces(), game
    ensures game.piecesRemoved == old(game.piecesRemoved) + [Get(Vacated(old(board.Snapshot()), from), over).piece]
    ensures board.Snapshot() == Jumped(old(board.Snapshot()), from, over, to, crown)
  {
    var piece := board.GetSpace(from.row, from.col).GetPiece();
    SnapshotAt(board, from);
    Place(board, from, None, true);
    var removed := board.GetSpace(over.row, over.col).GetPiece();
    SnapshotAt(board, over);
    ghost var g1 := board.Snapshot();
    game.PushRemoved(removed);
    assert board.Snapshot() == g1;
    Place(board, over, None, true);
    Place(board, to, piece, false);
    if crown {
      CrownSquare(board, to);
    }
  }

  /**
   * `moveForward`: moves the piece on `start` to `end` on the mover's board,
   * makes the same change at the mirrored squares of the opponent's board,
   * updates the mover's location list, and crowns the piece on both boards
   * when it lands on row 0 (where the source calls `setType` on the piece,
   * so the piece must be there).
   */
  method MoveForward(board: BoardView, opp: BoardView, start: Pos, end: Pos, pieces: LocationList)
    requires board.Valid() && opp.Valid() && board.Spaces() !! opp.Spaces()
    requires InBounds(start) && InBounds(end)
    requires end.row == 0 ==>
      Get(board.Snapshot(), start).piece.Some? && Get(opp.Snapshot(), Mirror(start)).piece.Some?
    modifies board.Spaces(), opp.Spaces(), pieces
    ensures pieces.items == RemoveFirst(old(pieces.items), start) + [end]
    ensures board.Snapshot() == Moved(old(board.Snapshot()), start, end, end.row == 0)
    ensures opp.Snapshot() == Moved(old(opp.Snapshot()), Mirror(start), Mirror(end), end.row == 0)
  {
    ghost var g, h := board.Snapshot(), opp.Snapshot();
    pieces.Remove(start);
    pieces.Add(end);
    assert board.Snapshot() == g && opp.Snapshot() == h;
    MoveOnBoard(board, start, end, end.row == 0);
    assert opp.Snapshot() == h;
    // the opponent's squares are (7 - row, 7 - col)
    MoveOnBoard(opp, Mirror(start), Mirror(end), end.row == 0);
  }

  /**
   * The board part of `jumpForward` once the jumped square `over` is known:
   * the mover's board (pushing the jumped piece), then the opponent's board.
   * A proof step of `jumpForward`, not a method of the source.
   */
  method JumpBoards(board: BoardView, opp: BoardView, start: Pos, over: Pos, end: Pos, game: Match)
    requires board.Valid() && opp.Valid() && board.Spaces() !! opp.Spaces()
    requires InBounds(start) && InBounds(over) && InBounds(end)
    requires end.row == 0 ==>
      Get(board.Snapshot(), start).piece.Some? && Get(opp.Snapshot(), Mirror(start)).piece.Some?
    modifies board.Spaces(), opp.Spaces(), game
    ensures game.piecesRemoved ==
      old(game.piecesRemoved) + [Get(Vacated(old(board.Snapshot()), start), over).piece]
    ensures board.Snapshot() == Jumped(old(board.Snapshot()), start, over, end, end.row == 0)
    ensures opp.Snapshot() ==
      Jumped(old(opp.Snapshot()), Mirror(start), Mirror(over), Mirror(end), end.row == 0)
  {
    ghost var h := opp.Snapshot();
    JumpOnMyBoard(board, start, over, end, end.row == 0, game);
    assert opp.Snapshot() == h;
    // the opponent's squares are (7 - row, 7 - col)
    var _ := JumpOnBoard(opp, Mirror(start), Mirror(over), Mirror(end), end.row == 0);
  }

  /**
   * `jumpForward` once the jumped square `over` is known: the two location
   * lists, then the two boards. A proof step of `jumpForward`, not a method
   * of the source; the source removes the jumped location from the
   * opponent's list only after updating the boards, which touches no square.
   */
  method JumpVia(board: BoardView, opp: BoardView, start: Pos, over: Pos, end: Pos,
                 pieces: LocationList, oppPieces: LocationList, game: Match)
    requires board.Valid() && opp.Valid() && board.Spaces() !! opp.Spaces()
    requires InBounds(start) && InBounds(over) && InBounds(end) && pieces != oppPieces
    requires end.row == 0 ==>
      Get(board.Snapshot(), start).piece.Some? && Get(opp.Snapshot(), Mirror(start)).piece.Some?
    modifies board.Spaces(), opp.Spaces(), pieces, oppPieces, game
    ensures pieces.items == RemoveFirst(old(pieces.items), start) + [end]
    ensures oppPieces.items == RemoveFirst(old(oppPieces.items), Mirror(over))
    ensures game.piecesRemoved ==
      old(game.piecesRemoved) + [Get(Vacated(old(board.Snapshot()), start), over).piece]
    ensures board.Snapshot() == Jumped(old(board.Snapshot()), start, over, end, end.row == 0)
    ensures opp.Snapshot() ==
      Jumped(old(opp.Snapshot()), Mirror(start), Mirror(over), Mirror(end), end.row == 0)
  {
    ghost var g, h := board.Snapshot(), opp.Snapshot();
    pieces.Remove(start);
    pieces.Add(end);
    // the opponent's squares are (7 - row, 7 - col)
    oppPieces.Remove(Mirror(over));
    assert board.Snapshot() == g && opp.Snapshot() == h;
    JumpBoards(board, opp, start, over, end, game);
  }

  /**
   * `jumpForward`: like `moveForward`, and in addition pushes the piece on
   * the jumped square onto the game's removed-pieces stack, empties and opens
   * that square on both boards, and drops its mirrored location from the
   * opponent's list.
   */
  method JumpForward(board: BoardView, opp: BoardView, start: Pos, end: Pos,
                     pieces: LocationList, oppPieces: LocationList, game: Match)
    requires board.Valid() && opp.Valid() && board.Spaces() !! opp.Spaces()
    requires InBounds(start) && InBounds(end) && pieces != oppPieces
    requires end.row == 0 ==>
      Get(board.Snapshot(), start).piece.Some? && Get(opp.Snapshot(), Mirror(start)).piece.Some?
    modifies board.Spaces(), opp.Spaces(), pieces, oppPieces, game
    ensures pieces.items == RemoveFirst(old(pieces.items), start) + [end]
    ensures oppPieces.items == RemoveFirst(old(oppPieces.items), Mirror(Midpoint(start, end)))
    ensures game.piecesRemoved ==
      old(game.piecesRemoved) + [Get(Vacated(old(board.Snapshot()), start), Midpoint(start, end)).piece]
    ensures board.Snapshot() == Jumped(old(board.Snapshot()), start, Midpoint(start, end), end, end.row == 0)
    ensures opp.Snapshot() ==
      Jumped(old(opp.Snapshot()), Mirror(start), Mirror(Midpoint(start, end)), Mirror(end), end.row == 0)
  {
    // `start - (start - end) / 2` in each coordinate
    var myKill := Midpoint(start, end);
    MidpointBetween(start, end);
    JumpVia(board, opp, start, myKill, end, pieces, oppPieces, game);
  }
}
