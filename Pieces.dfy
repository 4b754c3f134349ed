/**
 * Checkers pieces. The `Piece` class of the application is not part of this
 * model; a piece is taken to be a value made of its type and its colour.
 */
module Pieces {
  datatype PieceType = SINGLE | KING
  datatype Color = RED | WHITE
  datatype Piece = Piece(kind: PieceType, color: Color)

  /** The piece a `setType(KING)` call leaves behind. */
  function Crowned(p: Piece): (k: Piece)
    ensures k.kind == KING && k.color == p.color
  {
    p.(kind := KING)
  }
}
