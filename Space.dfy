/**
 * One square of a board: its column and row indices, whether a piece may
 * land on it ("valid"), and the piece standing on it, if any.
 */
module Spaces {
  import opened Wrappers
  import opened Pieces

  /** What a square shows at one moment: its validity flag and its piece. */
  datatype SpaceState = SpaceState(valid: bool, piece: Option<Piece>)

  class Space {
    /** Set by the constructor only: nothing in the core writes the indices afterwards. */
    const cellIdx: int
    const cellIdy: int
    var isValid: bool
    var piece: Option<Piece>

    /** Stores the four arguments as given. */
    constructor (cellIdx: int, cellIdy: int, isValid: bool, piece: Option<Piece>)
      ensures this.cellIdx == cellIdx && this.cellIdy == cellIdy
      ensures this.isValid == isValid && this.piece == piece
    {
      this.cellIdx := cellIdx;
      this.cellIdy := cellIdy;
      this.isValid := isValid;
      this.piece := piece;
    }

    /** The column index the space was built with. */
    function GetCellIdx(): (x: int)
      ensures x == cellIdx
    {
      cellIdx
    }

    /** May a piece land here? */
    function IsValid(): (b: bool)
      reads this
      ensures b == State().valid
    {
      isValid
    }

    /** `None` is the source's `null`: no piece on this square. */
    function GetPiece(): (p: Option<Piece>)
      reads this
      ensures p == State().piece
    {
      piece
    }

    function State(): SpaceState
      reads this
    {
      SpaceState(isValid, piece)
    }

    method ChangeValid(isValid: bool)
      modifies this
      ensures IsValid() == isValid && GetPiece() == old(GetPiece())
    {
      this.isValid := isValid;
    }

    method SetPiece(piece: Option<Piece>)
      modifies this
      ensures GetPiece() == piece && IsValid() == old(IsValid())
    {
      this.piece := piece;
    }
  }
}
