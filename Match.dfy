/**
 * A game between two players. The `Match` class is not part of this model;
 * only what the core uses of it is kept: the two player names it is created
 * with and the stack of removed pieces (`getPiecesRemoved()`), whose top is
 * the last element of the sequence.
 */
module Matches {
  import opened Wrappers
  import opened Pieces

  class Match {
    const player1: string
    const player2: string
    var piecesRemoved: seq<Option<Piece>>

    constructor (player1: string, player2: string)
      ensures this.player1 == player1 && this.player2 == player2 && piecesRemoved == []
    {
      this.player1 := player1;
      this.player2 := player2;
      piecesRemoved := [];
    }

    /** `getPiecesRemoved().push(p)`: `p` becomes the top of the stack. */
    method PushRemoved(p: Option<Piece>)
      modifies this
      ensures piecesRemoved == old(piecesRemoved) + [p]
    {
      piecesRemoved := piecesRemoved + [p];
    }
  }
}
