/**
 * What the move rules promise about positions: which squares a move or a
 * jump changes, that the two mirrored boards stay mirrored, that the
 * invariants of a board in play survive, and that the per-side location
 * lists keep indexing the pieces of their side.
 */
module MoveFacts {
  import opened Wrappers
  import opened Pieces
  import opened Lists
  import opened Spaces
  import opened Board
  import opened MoveRules

  /** The piece that ends up on the landing square: the moved one, crowned when `crown`. */
  function Carried(g: Grid, from: Pos, crown: bool): Option<Piece>
    requires IsGrid(g) && InBounds(from)
  {
    if crown then KingOf(Get(g, from).piece) else Get(g, from).piece
  }

  // ---------------------------------------------------------------------
  // Which squares change

  /** What square `q` shows after a simple move from `from` to `to`. */
  lemma MovedAt(g: Grid, from: Pos, to: Pos, crown: bool, q: Pos)
    requires IsGrid(g) && InBounds(from) && InBounds(to) && InBounds(q)
    ensures Get(Moved(g, from, to, crown), q) ==
      if q == to then SpaceState(false, Carried(g, from, crown))
      else if q == from then SpaceState(true, None)
      else Get(g, q)
  {
    var v := Vacated(g, from);
    var h := Set(v, to, SpaceState(false, Get(g, from).piece));
    GetSet(g, from, SpaceState(true, None), q);
    GetSet(v, to, SpaceState(false, Get(g, from).piece), q);
    if crown {
      GetSet(h, to, SpaceState(false, KingOf(Get(g, from).piece)), q);
      GetSet(v, to, SpaceState(false, Get(g, from).piece), to);
    }
  }

  /**
   * After a simple move the landing square is closed and holds the moved
   * piece, the start square is empty and open, and every other square is
   * as before.
   */
  lemma MovedChanges(g: Grid, from: Pos, to: Pos, crown: bool)
    requires IsGrid(g) && InBounds(from) && InBounds(to)
    ensures forall q :: InBounds(q) ==>
      Get(Moved(g, from, to, crown), q) ==
        (if q == to then SpaceState(false, Carried(g, from, crown))
         else if q == from then SpaceState(true, None)
         else Get(g, q))
  {
    forall q | InBounds(q)
      ensures Get(Moved(g, from, to, crown), q) ==
        if q == to then SpaceState(false, Carried(g, from, crown))
        else if q == from then SpaceState(true, None)
        else Get(g, q)
    {
      MovedAt(g, from, to, crown, q);
    }
  }

  /** What square `q` shows after a jump from `from` over `over` to `to`. */
  lemma JumpedAt(g: Grid, from: Pos, over: Pos, to: Pos, crown: bool, q: Pos)
    requires IsGrid(g) && InBounds(from) && InBounds(over) && InBounds(to) && InBounds(q)
    ensures Get(Jumped(g, from, over, to, crown), q) ==
      if q == to then SpaceState(false, Carried(g, from, crown))
      else if q == from || q == over then SpaceState(true, None)
      else Get(g, q)
  {
    var v := Vacated(g, from);
    var w := Vacated(v, over);
    var h := Set(w, to, SpaceState(false, Get(g, from).piece));
    GetSet(g, from, SpaceState(true, None), q);
    GetSet(v, over, SpaceState(true, None), q);
    GetSet(w, to, SpaceState(false, Get(g, from).piece), q);
    if crown {
      GetSet(h, to, SpaceState(false, KingOf(Get(g, from).piece)), q);
      GetSet(w, to, SpaceState(false, Get(g, from).piece), to);
    }
  }

  /**
   * After a jump the landing square is closed and holds the moved piece,
   * the start and the jumped squares are empty and open, and every other
   * square is as before.
   */
  lemma JumpedChanges(g: Grid, from: Pos, over: Pos, to: Pos, crown: bool)
    requires IsGrid(g) && InBounds(from) && InBounds(over) && InBounds(to)
    ensures forall q :: InBounds(q) ==>
      Get(Jumped(g, from, over, to, crown), q) ==
        (if q == to then SpaceState(false, Carried(g, from, crown))
         else if q == from || q == over then SpaceState(true, None)
         else Get(g, q))
  {
    forall q | InBounds(q)
      ensures Get(Jumped(g, from, over, to, crown), q) ==
        if q == to then SpaceState(false, Carried(g, from, crown))
        else if q == from || q == over then SpaceState(true, None)
        else Get(g, q)
    {
      JumpedAt(g, from, over, to, crown, q);
    }
  }

  /** Crowning on row 0 makes the piece a KING; otherwise its type is unchanged. */
  lemma CarriedKind(g: Grid, from: Pos, crown: bool)
    requires IsGrid(g) && InBounds(from) && Get(g, from).piece.Some?
    ensures Carried(g, from, crown).Some?
    ensures Carried(g, from, crown).value.color == Get(g, from).piece.value.color
    ensures Carried(g, from, crown).value.kind ==
      if crown then KING else Get(g, from).piece.value.kind
  {
  }

  // ---------------------------------------------------------------------
  // The two boards stay mirrored

  /** The same move made at the mirrored squares keeps a mirrored pair mirrored. */
  lemma MoveKeepsMirror(g: Grid, h: Grid, from: Pos, to: Pos, crown: bool)
    requires Mirrored(g, h) && InBounds(from) && InBounds(to)
    ensures Mirrored(Moved(g, from, to, crown), Moved(h, Mirror(from), Mirror(to), crown))
  {
    MirrorInvolution(from);
    MirrorInvolution(to);
    assert Get(g, from) == Get(h, Mirror(from));
    forall p | InBounds(p)
      ensures Get(Moved(g, from, to, crown), p) ==
              Get(Moved(h, Mirror(from), Mirror(to), crown), Mirror(p))
    {
      MirrorInvolution(p);
      MovedAt(g, from, to, crown, p);
      MovedAt(h, Mirror(from), Mirror(to), crown, Mirror(p));
    }
  }

  /** The same jump made at the mirrored squares keeps a mirrored pair mirrored. */
  lemma JumpKeepsMirror(g: Grid, h: Grid, from: Pos, over: Pos, to: Pos, crown: bool)
    requires Mirrored(g, h) && InBounds(from) && InBounds(over) && InBounds(to)
    ensures Mirrored(Jumped(g, from, over, to, crown),
                     Jumped(h, Mirror(from), Mirror(over), Mirror(to), crown))
  {
    MirrorInvolution(from);
    MirrorInvolution(over);
    MirrorInvolution(to);
    assert Get(g, from) == Get(h, Mirror(from));
    forall p | InBounds(p)
      ensures Get(Jumped(g, from, over, to, crown), p) ==
              Get(Jumped(h, Mirror(from), Mirror(over), Mirror(to), crown), Mirror(p))
    {
      MirrorInvolution(p);
      JumpedAt(g, from, over, to, crown, p);
      JumpedAt(h, Mirror(from), Mirror(over), Mirror(to), crown, Mirror(p));
    }
  }

  // ---------------------------------------------------------------------
  // The board invariants survive

  /**
   * A piece moved between two dark squares keeps pieces on dark squares only
   * and "valid" meaning "dark and empty".
   */
  lemma MoveKeepsWellFormed(g: Grid, from: Pos, to: Pos, crown: bool)
    requires IsGrid(g) && WellFormed(g) && InBounds(from) && InBounds(to)
    requires Dark(from) && Dark(to) && Get(g, from).piece.Some?
    ensures WellFormed(Moved(g, from, to, crown))
  {
    MovedChanges(g, from, to, crown);
  }

  /** The same for a jump whose jumped square is dark as well. */
  lemma JumpKeepsWellFormed(g: Grid, from: Pos, over: Pos, to: Pos, crown: bool)
    requires IsGrid(g) && WellFormed(g) && InBounds(from) && InBounds(over) && InBounds(to)
    requires Dark(from) && Dark(over) && Dark(to) && Get(g, from).piece.Some?
    ensures WellFormed(Jumped(g, from, over, to, crown))
  {
    JumpedChanges(g, from, over, to, crown);
  }

  // ---------------------------------------------------------------------
  // The jumped square

  /**
   * For a move of two rows and two columns, `start - (start - end) / 2` is
   * the square halfway, distinct from both ends and dark when they are.
   */
  lemma MidpointOfJump(start: Pos, end: Pos)
    requires IsJumpShape(start, end)
    ensures Midpoint(start, end) == Pos((start.row + end.row) / 2, (start.col + end.col) / 2)
    ensures Midpoint(start, end) != start && Midpoint(start, end) != end && start != end
    ensures Dark(start) ==> Dark(Midpoint(start, end)) && Dark(end)
  {
    JavaHalfTruncates(start.row - end.row);
    JavaHalfTruncates(start.col - end.col);
    ParityStep(start.row);
    ParityStep(start.col);
  }

  /**
   * A jump the reference rule offers lands two squares away along its
   * direction, so the square `jumpForward` empties is the one jumped over.
   */
  lemma CaptureMidpoint(p: Pos, d: Dir, kind: PieceType)
    requires d in Directions(kind)
    ensures IsJumpShape(p, Landing(p, d))
    ensures Midpoint(p, Landing(p, d)) == Over(p, d)
    ensures Dark(p) ==> Dark(Over(p, d)) && Dark(Landing(p, d))
  {
    MidpointOfJump(p, Landing(p, d));
  }

  // ---------------------------------------------------------------------
  // The location lists

  /**
   * `list` is the set of squares of `g` holding a piece of `color`, each
   * listed once.
   */
  ghost predicate Indexes(list: seq<Pos>, g: Grid, color: Color)
    requires IsGrid(g)
  {
    NoDup(list) &&
    (forall p :: p in list ==> InBounds(p)) &&
    (forall p :: InBounds(p) ==> (p in list <==> HasColor(Get(g, p), color)))
  }

  /** Appending an element not yet in a list keeps it free of duplicates. */
  lemma AppendNoDup(s: seq<Pos>, x: Pos)
    requires NoDup(s) && x !in s
    ensures NoDup(s + [x])
  {
    forall i, j | 0 <= i < j < |s + [x]|
      ensures (s + [x])[i] != (s + [x])[j]
    {
      if j == |s| {
        assert (s + [x])[i] == s[i];
      } else {
        assert (s + [x])[i] == s[i] && (s + [x])[j] == s[j];
      }
    }
  }

  /** The mover's list after `remove(start)` and `add(end)`. */
  lemma ShiftIndexes(list: seq<Pos>, g: Grid, g': Grid, start: Pos, end: Pos, color: Color)
    requires IsGrid(g) && IsGrid(g') && Indexes(list, g, color)
    requires InBounds(start) && InBounds(end) && start != end
    requires HasColor(Get(g, start), color) && !HasColor(Get(g, end), color)
    requires HasColor(Get(g', end), color) && !HasColor(Get(g', start), color)
    requires forall q :: InBounds(q) && q != start && q != end ==>
      (HasColor(Get(g', q), color) <==> HasColor(Get(g, q), color))
    ensures Indexes(RemoveFirst(list, start) + [end], g', color)
  {
    var r := RemoveFirst(list, start);
    RemoveFirstNoDup(list, start);
    AppendNoDup(r, end);
  }

  /** `moveForward` keeps the mover's list indexing the mover's pieces. */
  lemma MoveKeepsIndex(list: seq<Pos>, g: Grid, start: Pos, end: Pos, crown: bool, color: Color)
    requires IsGrid(g) && Indexes(list, g, color) && InBounds(start) && InBounds(end)
    requires HasColor(Get(g, start), color) && Get(g, end).piece.None?
    ensures Indexes(RemoveFirst(list, start) + [end], Moved(g, start, end, crown), color)
  {
    MovedChanges(g, start, end, crown);
    ShiftIndexes(list, g, Moved(g, start, end, crown), start, end, color);
  }

  /**
   * `moveForward` leaves the other side's list untouched, and that list
   * still indexes the other side's pieces on the board the move changed:
   * the moving piece is not of that colour and lands on an empty square.
   */
  lemma MoveKeepsOtherIndex(list: seq<Pos>, h: Grid, from: Pos, to: Pos, crown: bool, color: Color)
    requires IsGrid(h) && Indexes(list, h, color) && InBounds(from) && InBounds(to)
    requires HasColor(Get(h, from), OpponentOf(color)) && Get(h, to).piece.None?
    ensures Indexes(list, Moved(h, from, to, crown), color)
  {
    MovedChanges(h, from, to, crown);
  }

  /**
   * `jumpForward` keeps the mover's list indexing the mover's pieces, when
   * the jumped square holds an opposing piece.
   */
  lemma JumpKeepsIndex(list: seq<Pos>, g: Grid, start: Pos, over: Pos, end: Pos, crown: bool, color: Color)
    requires IsGrid(g) && Indexes(list, g, color)
    requires InBounds(start) && InBounds(over) && InBounds(end) && over != end
    requires HasColor(Get(g, start), color) && Get(g, end).piece.None?
    requires HasColor(Get(g, over), OpponentOf(color))
    ensures Indexes(RemoveFirst(list, start) + [end], Jumped(g, start, over, end, crown), color)
  {
    JumpedChanges(g, start, over, end, crown);
    ShiftIndexes(list, g, Jumped(g, start, over, end, crown), start, end, color);
  }

  /**
   * `jumpForward` keeps the opponent's list indexing the opponent's pieces
   * on the opponent's board: the jumped piece is dropped, and the moving
   * piece, of the other colour, is not listed.
   */
  lemma JumpKeepsOpponentIndex(list: seq<Pos>, h: Grid, start: Pos, over: Pos, end: Pos, crown: bool, color: Color)
    requires IsGrid(h) && Indexes(list, h, color)
    requires InBounds(start) && InBounds(over) && InBounds(end)
    requires HasColor(Get(h, over), color) && Get(h, end).piece.None?
    requires HasColor(Get(h, start), OpponentOf(color))
    ensures Indexes(RemoveFirst(list, over), Jumped(h, start, over, end, crown), color)
  {
    JumpedChanges(h, start, over, end, crown);
    RemoveFirstNoDup(list, over);
  }
}
