/**
 * The 8x8 board as one player sees it, and the pure description of a
 * position (`Grid`) that the board's squares currently show.
 */
module Board {
  import opened Wrappers
  import opened Pieces
  import opened Spaces

  const NUM_ROW := 8
  const NUM_COL := 8

  /** Coordinates of a square; stands for the source's `Position` and `Location`. */
  datatype Pos = Pos(row: int, col: int)

  /** A position: row by row, what every square shows. */
  type Grid = seq<seq<SpaceState>>

  predicate InBounds(p: Pos) {
    BoardView.IsValid(p.row, p.col)
  }

  predicate IsGrid(g: Grid) {
    |g| == NUM_ROW && forall r :: 0 <= r < NUM_ROW ==> |g[r]| == NUM_COL
  }

  function Get(g: Grid, p: Pos): SpaceState
    requires IsGrid(g) && InBounds(p)
  {
    g[p.row][p.col]
  }

  /** `g` with square `p` overwritten by `s`; every other square keeps its state. */
  function Set(g: Grid, p: Pos, s: SpaceState): (h: Grid)
    requires IsGrid(g) && InBounds(p)
    ensures IsGrid(h)
  {
    g[p.row := g[p.row][p.col := s]]
  }

  /** `Set` overwrites square `p` and keeps every other square. */
  lemma GetSet(g: Grid, p: Pos, s: SpaceState, q: Pos)
    requires IsGrid(g) && InBounds(p) && InBounds(q)
    ensures Get(Set(g, p, s), q) == if q == p then s else Get(g, q)
  {
  }

  /** The playable squares: row and column parity differ. */
  predicate Dark(p: Pos) {
    p.row % 2 != p.col % 2
  }

  /** The same physical square seen from the other side of the table. */
  function Mirror(p: Pos): Pos {
    Pos(7 - p.row, 7 - p.col)
  }

  predicate HasColor(s: SpaceState, color: Color) {
    s.piece.Some? && s.piece.value.color == color
  }

  /** The colour that plays against `c`. */
  function OpponentOf(c: Color): (o: Color)
    ensures o != c
    ensures c == RED <==> o == WHITE
  {
    if c == RED then WHITE else RED
  }

  /**
   * Reference description of a freshly set-up board for `owner`: pieces
   * only on dark squares, the owner's on rows 0-2, the opponent's on rows
   * 5-7, dark squares of rows 3-4 empty and open to land on, and every
   * occupied or light square closed.
   */
  function StartCell(owner: Color, i: int, j: int): SpaceState {
    if !Dark(Pos(i, j)) then SpaceState(false, None)
    else if i < 3 then SpaceState(false, Some(Piece(SINGLE, owner)))
    else if i > 4 then SpaceState(false, Some(Piece(SINGLE, OpponentOf(owner))))
    else SpaceState(true, None)
  }

  function StartGrid(owner: Color): (g: Grid)
    ensures IsGrid(g)
  {
    seq(NUM_ROW, i => seq(NUM_COL, j => StartCell(owner, i, j)))
  }

  /** Where pieces may stand and what "valid" means: playable and empty. */
  ghost predicate WellFormed(g: Grid)
    requires IsGrid(g)
  {
    forall p :: InBounds(p) ==>
      (!Dark(p) ==> Get(g, p).piece.None?) &&
      (Get(g, p).valid <==> Dark(p) && Get(g, p).piece.None?)
  }

  /** The two orientations of one position: (r, c) on one is (7-r, 7-c) on the other. */
  ghost predicate Mirrored(g: Grid, h: Grid) {
    IsGrid(g) && IsGrid(h) &&
    forall p :: InBounds(p) ==> Get(g, p) == Get(h, Mirror(p))
  }

  /** `7 - x` has the other parity: 7 is odd. */
  lemma ParityFlip(x: int)
    ensures (7 - x) % 2 == 1 - x % 2
  {
    var q := x / 2;
    assert x == 2 * q + x % 2;
    assert 7 - x == 2 * (3 - q) + (1 - x % 2);
  }

  /** One step along a row or a column changes parity, two steps keep it. */
  lemma ParityStep(x: int)
    ensures (x + 1) % 2 == 1 - x % 2 && (x - 1) % 2 == 1 - x % 2
    ensures (x + 2) % 2 == x % 2 && (x - 2) % 2 == x % 2
  {
    var q := x / 2;
    assert x == 2 * q + x % 2;
    assert x + 1 == 2 * q + (x % 2 + 1);
    assert x - 1 == 2 * (q - 1) + (x % 2 + 1);
    assert x + 2 == 2 * (q + 1) + x % 2;
    assert x - 2 == 2 * (q - 1) + x % 2;
  }

  /** Mirroring twice is the identity; it keeps a square on the board and keeps it dark. */
  lemma MirrorInvolution(p: Pos)
    ensures Mirror(Mirror(p)) == p
    ensures InBounds(p) <==> InBounds(Mirror(p))
    ensures Dark(p) <==> Dark(Mirror(p))
  {
    ParityFlip(p.row);
    ParityFlip(p.col);
  }

  /** Mirroring is symmetric, so either board may be taken as the reference. */
  lemma MirroredSymmetric(g: Grid, h: Grid)
    requires Mirrored(g, h)
    ensures Mirrored(h, g)
  {
    forall p | InBounds(p)
      ensures Get(h, p) == Get(g, Mirror(p))
    {
      MirrorInvolution(p);
      assert Get(g, Mirror(p)) == Get(h, Mirror(Mirror(p)));
    }
  }

  // ---------------------------------------------------------------------
  // Properties of the initial position

  /** Pieces only on dark squares; light squares are empty and closed. */
  lemma StartOnlyDarkSquares(owner: Color)
    ensures forall p :: InBounds(p) && !Dark(p) ==> Get(StartGrid(owner), p) == SpaceState(false, None)
    ensures forall p :: InBounds(p) && Get(StartGrid(owner), p).piece.Some? ==> Dark(p)
  {
  }

  /** The home rows of each colour and the open middle rows. */
  lemma StartRows(owner: Color)
    ensures forall p :: InBounds(p) && Dark(p) && p.row < 3 ==>
      Get(StartGrid(owner), p) == SpaceState(false, Some(Piece(SINGLE, owner)))
    ensures forall p :: InBounds(p) && Dark(p) && p.row > 4 ==>
      Get(StartGrid(owner), p) == SpaceState(false, Some(Piece(SINGLE, OpponentOf(owner))))
    ensures forall p :: InBounds(p) && Dark(p) && 3 <= p.row <= 4 ==>
      Get(StartGrid(owner), p) == SpaceState(true, None)
  {
  }

  lemma StartWellFormed(owner: Color)
    ensures WellFormed(StartGrid(owner))
  {
  }

  /** The RED and the WHITE set-up are the same position seen from the two sides. */
  lemma StartGridsMirrored()
    ensures Mirrored(StartGrid(RED), StartGrid(WHITE))
  {
    forall p | InBounds(p)
      ensures Get(StartGrid(RED), p) == Get(StartGrid(WHITE), Mirror(p))
    {
      MirrorInvolution(p);
    }
  }

  // ---------------------------------------------------------------------
  // Counting pieces

  function CountInRow(row: seq<SpaceState>, color: Color): nat {
    if row == [] then 0
    else (if HasColor(row[0], color) then 1 else 0) + CountInRow(row[1..], color)
  }

  /** Number of squares of `g` holding a piece of `color`. */
  function CountColor(g: seq<seq<SpaceState>>, color: Color): nat {
    if g == [] then 0 else CountInRow(g[0], color) + CountColor(g[1..], color)
  }

  /** True when row `i` of the set-up for `owner` is a home row of `color`. */
  predicate HomeRow(owner: Color, color: Color, i: int) {
    (i < 3 && color == owner) || (i > 4 && color == OpponentOf(owner))
  }

  /** A pair of neighbouring squares holds one piece of `color` exactly on its home rows. */
  lemma StartPairCount(owner: Color, color: Color, i: int, j: int)
    requires 0 <= i < NUM_ROW && 0 <= j && j % 2 == 0
    ensures (if HasColor(StartCell(owner, i, j), color) then 1 else 0) +
            (if HasColor(StartCell(owner, i, j + 1), color) then 1 else 0) ==
            if HomeRow(owner, color, i) then 1 else 0
  {
    ParityStep(j);
    assert Dark(Pos(i, j)) != Dark(Pos(i, j + 1));
  }

  lemma {:induction false} StartRowSuffixCount(owner: Color, color: Color, i: int, j: int)
    requires 0 <= i < NUM_ROW && 0 <= j <= NUM_COL && j % 2 == 0
    ensures CountInRow(StartGrid(owner)[i][j..], color) == if HomeRow(owner, color, i) then (NUM_COL - j) / 2 else 0
    decreases NUM_COL - j
  {
    var row := StartGrid(owner)[i];
    if j < NUM_COL {
      StartRowSuffixCount(owner, color, i, j + 2);
      assert row[j..][1..] == row[j + 1..];
      assert row[j + 1..][1..] == row[j + 2..];
      assert row[j] == StartCell(owner, i, j) && row[j + 1] == StartCell(owner, i, j + 1);
      StartPairCount(owner, color, i, j);
    }
  }

  lemma {:induction false} StartRowsSuffixCount(owner: Color, color: Color, i: int)
    requires 0 <= i <= NUM_ROW
    ensures CountColor(StartGrid(owner)[i..], color) ==
      4 * if color == owner then (if i < 3 then 3 - i else 0) else (if i < 5 then 3 else NUM_ROW - i)
    decreases NUM_ROW - i
  {
    var g := StartGrid(owner);
    if i < NUM_ROW {
      StartRowsSuffixCount(owner, color, i + 1);
      StartRowSuffixCount(owner, color, i, 0);
      assert g[i..][1..] == g[i + 1..];
      assert g[i][0..] == g[i];
    }
  }

  /** Each colour starts with exactly twelve pieces: three rows of four dark squares. */
  lemma StartTwelveEach(owner: Color, color: Color)
    ensures CountColor(StartGrid(owner), color) == 12
  {
    StartRowsSuffixCount(owner, color, 0);
    assert StartGrid(owner)[0..] == StartGrid(owner);
  }

  /**
   * One pass of the constructor's inner loop: the space for square (i, j)
   * of the board of `currentPlayerColor`.
   */
  method InitialSpace(i: int, j: int, currentPlayerColor: Color, opponentPlayerColor: Color) returns (space: Space)
    requires 0 <= i && 0 <= j && opponentPlayerColor == OpponentOf(currentPlayerColor)
    ensures fresh(space) && space.cellIdx == j
    ensures space.State() == StartCell(currentPlayerColor, i, j)
  {
    // the one-argument `new Space(j)`: column j, the other fields at their defaults
    space := new Space(j, 0, false, None);
    space.ChangeValid(false);
    var piece: Option<Piece> := None;
    if i % 2 == 0 && j % 2 == 1 {
      if i < 3 {
        piece := Some(Piece(SINGLE, currentPlayerColor));
      } else if i > 4 {
        piece := Some(Piece(SINGLE, opponentPlayerColor));
      } else {
        space.ChangeValid(true);
      }
    } else if i % 2 == 1 && j % 2 == 0 {
      if i < 3 {
        piece := Some(Piece(SINGLE, currentPlayerColor));
      } else if i > 4 {
        piece := Some(Piece(SINGLE, opponentPlayerColor));
      } else {
        space.ChangeValid(true);
      }
    }
    space.SetPiece(piece);
  }

  /**
   * The constructor's inner loop: the eight spaces of row `i`, in column order.
   */
  method InitialRow(i: int, currentPlayerColor: Color, opponentPlayerColor: Color) returns (row: seq<Space>)
    requires 0 <= i && opponentPlayerColor == OpponentOf(currentPlayerColor)
    ensures |row| == NUM_COL
    ensures forall c :: 0 <= c < NUM_COL ==> fresh(row[c])
    ensures forall a, b :: 0 <= a < b < NUM_COL ==> row[a] != row[b]
    ensures forall c :: 0 <= c < NUM_COL ==>
      row[c].State() == StartCell(currentPlayerColor, i, c) && row[c].cellIdx == c
  {
    row := [];
    var j := 0;
    while j < NUM_COL
      invariant 0 <= j <= NUM_COL && |row| == j
      invariant forall c :: 0 <= c < j ==> fresh(row[c])
      invariant forall a, b :: 0 <= a < b < j ==> row[a] != row[b]
      invariant forall c :: 0 <= c < j ==>
        row[c].State() == StartCell(currentPlayerColor, i, c) && row[c].cellIdx == c
    {
      var space := InitialSpace(i, j, currentPlayerColor, opponentPlayerColor);
      row := row + [space];
      j := j + 1;
    }
  }

  // ---------------------------------------------------------------------
  // The board object

  /** Where the spaces of row `i` sit. */
  ghost function RowIndex(row: seq<Space>, i: int): map<Space, Pos>
    requires |row| == NUM_COL && forall a, b :: 0 <= a < b < NUM_COL ==> row[a] != row[b]
  {
    map c | 0 <= c < NUM_COL :: row[c] := Pos(i, c)
  }

  /** Adding row `|built|` keeps `idx` an exact index of the rows built so far. */
  lemma IndexExtended(built: seq<seq<Space>>, idx: map<Space, Pos>, row: seq<Space>)
    requires |built| < NUM_ROW && forall r :: 0 <= r < |built| ==> |built[r]| == NUM_COL
    requires |row| == NUM_COL && forall a, b :: 0 <= a < b < NUM_COL ==> row[a] != row[b]
    requires forall c :: 0 <= c < NUM_COL ==> row[c] !in idx
    requires forall s :: s in idx ==>
      0 <= idx[s].row < |built| && 0 <= idx[s].col < NUM_COL && built[idx[s].row][idx[s].col] == s
    requires forall r, c :: 0 <= r < |built| && 0 <= c < NUM_COL ==>
      built[r][c] in idx && idx[built[r][c]] == Pos(r, c)
    ensures forall s :: s in idx + RowIndex(row, |built|) ==>
      var p := (idx + RowIndex(row, |built|))[s];
      0 <= p.row <= |built| && 0 <= p.col < NUM_COL && (built + [row])[p.row][p.col] == s
    ensures forall r, c :: 0 <= r <= |built| && 0 <= c < NUM_COL ==>
      (built + [row])[r][c] in idx + RowIndex(row, |built|) &&
      (idx + RowIndex(row, |built|))[(built + [row])[r][c]] == Pos(r, c)
  {
    var i := |built|;
    var added := RowIndex(row, i);
    var idx', built' := idx + added, built + [row];
    assert forall c :: 0 <= c < NUM_COL ==> row[c] in added && added[row[c]] == Pos(i, c);
    forall s | s in idx'
      ensures 0 <= idx'[s].row <= i && 0 <= idx'[s].col < NUM_COL && built'[idx'[s].row][idx'[s].col] == s
    {
      if s in added {
        var c :| 0 <= c < NUM_COL && row[c] == s;
        assert idx'[s] == Pos(i, c);
      } else {
        assert idx'[s] == idx[s];
      }
    }
    forall r, c | 0 <= r <= i && 0 <= c < NUM_COL
      ensures built'[r][c] in idx' && idx'[built'[r][c]] == Pos(r, c)
    {
      if r < i {
        assert built'[r][c] == built[r][c];
        assert built[r][c] !in added;
      }
    }
  }

  /**
   * The constructor's outer loop: the eight rows, each row's spaces fresh and
   * told apart by `idx`.
   */
  method InitialRows(currentPlayerColor: Color) returns (built: seq<seq<Space>>, ghost idx: map<Space, Pos>)
    ensures |built| == NUM_ROW && forall r :: 0 <= r < NUM_ROW ==> |built[r]| == NUM_COL
    ensures forall s :: s in idx ==> fresh(s) && InBounds(idx[s]) && built[idx[s].row][idx[s].col] == s
    ensures forall r, c :: 0 <= r < NUM_ROW && 0 <= c < NUM_COL ==>
      built[r][c] in idx && idx[built[r][c]] == Pos(r, c) &&
      built[r][c].State() == StartCell(currentPlayerColor, r, c) && built[r][c].cellIdx == c
  {
    var opponentPlayerColor := OpponentOf(currentPlayerColor);
    built := [];
    idx := map[];
    var i := 0;
    while i < NUM_ROW
      invariant 0 <= i <= NUM_ROW && |built| == i
      invariant forall r :: 0 <= r < i ==> |built[r]| == NUM_COL
      invariant forall s :: s in idx ==>
        fresh(s) && 0 <= idx[s].row < i && 0 <= idx[s].col < NUM_COL && built[idx[s].row][idx[s].col] == s
      invariant forall r, c :: 0 <= r < i && 0 <= c < NUM_COL ==>
        built[r][c] in idx && idx[built[r][c]] == Pos(r, c) &&
        built[r][c].State() == StartCell(currentPlayerColor, r, c) && built[r][c].cellIdx == c
    {
      var row := InitialRow(i, currentPlayerColor, opponentPlayerColor);
      assert forall c :: 0 <= c < NUM_COL ==> row[c] !in idx;
      IndexExtended(built, idx, row);
      idx := idx + RowIndex(row, i);
      built := built + [row];
      i := i + 1;
    }
  }

  /** The position a board shows has, on each square, what that square's space holds. */
  lemma SnapshotAt(b: BoardView, p: Pos)
    requires b.Valid() && InBounds(p)
    ensures Get(b.Snapshot(), p) == b.At(p)
  {
  }

  /** A board whose every square shows what `g` says shows `g`. */
  lemma SnapshotEquals(b: BoardView, g: Grid)
    requires b.Valid() && IsGrid(g)
    requires forall r, c :: 0 <= r < NUM_ROW && 0 <= c < NUM_COL ==> b.rows[r][c].State() == g[r][c]
    ensures b.Snapshot() == g
  {
    forall r | 0 <= r < NUM_ROW
      ensures b.Snapshot()[r] == g[r]
    {
      assert forall c :: 0 <= c < NUM_COL ==> b.Snapshot()[r][c] == b.rows[r][c].State();
    }
  }

  class BoardView {
    const activeColor: Color
    /** The rows of the board; only the constructor builds them, only the spaces change. */
    const rows: seq<seq<Space>>
    /** Where each space of the board sits; makes the 64 spaces distinct. */
    ghost const index: map<Space, Pos>

    ghost predicate Valid() {
      |rows| == NUM_ROW &&
      (forall r :: 0 <= r < NUM_ROW ==> |rows[r]| == NUM_COL) &&
      (forall r, c :: 0 <= r < NUM_ROW && 0 <= c < NUM_COL ==>
         rows[r][c] in index && index[rows[r][c]] == Pos(r, c))
    }

    /**
     * A well-formed board whose footprint is exactly its 64 grid spaces.
     * `rows` and `index` never change, so a board built exact stays exact.
     */
    ghost predicate Exact() {
      Valid() && forall s :: s in index ==> InBounds(index[s]) && rows[index[s].row][index[s].col] == s
    }

    /** `isValid(row, col)`: is (row, col) a square of the board? */
    static function IsValid(row: int, col: int): (b: bool)
      ensures b <==> 0 <= row < NUM_ROW && 0 <= col < NUM_COL
    {
      row < NUM_ROW && row >= 0 && col < NUM_COL && col >= 0
    }

    /** The spaces of the board (its footprint). */
    ghost function Spaces(): set<Space> {
      index.Keys
    }

    /** The space at (row, col), or null off the board. */
    function GetSpace(row: int, col: int): (s: Space?)
      requires Valid()
      ensures s != null <==> IsValid(row, col)
      ensures s != null ==> s == rows[row][col] && s in Spaces() && index[s] == Pos(row, col)
    {
      if IsValid(row, col) then rows[row][col] else null
    }

    function At(p: Pos): SpaceState
      requires Valid() && InBounds(p)
      reads rows[p.row][p.col]
    {
      rows[p.row][p.col].State()
    }

    function RowSnapshot(r: int): (row: seq<SpaceState>)
      requires Valid() && 0 <= r < NUM_ROW
      reads Spaces()
      ensures |row| == NUM_COL
    {
      seq(NUM_COL, c requires 0 <= c < NUM_COL reads Spaces() => rows[r][c].State())
    }

    /** The position the board shows. */
    ghost function Snapshot(): (g: Grid)
      requires Valid()
      reads Spaces()
      ensures IsGrid(g)
    {
      seq(NUM_ROW, r requires 0 <= r < NUM_ROW reads Spaces() => RowSnapshot(r))
    }

    /** Builds the board for `currentPlayerColor` square by square. */
    constructor (currentPlayerColor: Color)
      ensures Exact() && activeColor == currentPlayerColor && fresh(Spaces())
      ensures Snapshot() == StartGrid(currentPlayerColor)
      ensures forall r, c :: 0 <= r < NUM_ROW && 0 <= c < NUM_COL ==> rows[r][c].cellIdx == c
    {
      activeColor := currentPlayerColor;
      var built: seq<seq<Space>>;
      ghost var idx: map<Space, Pos>;
      built, idx := InitialRows(currentPlayerColor);
      rows := built;
      index := idx;
      new;
      SnapshotEquals(this, StartGrid(currentPlayerColor));
    }

    /** `getWhiteBoard`: a fresh board in the WHITE orientation. */
    method GetWhiteBoard() returns (b: BoardView)
      ensures fresh(b) && b.Exact() && fresh(b.Spaces())
      ensures b.activeColor == WHITE && b.Snapshot() == StartGrid(WHITE)
    {
      b := new BoardView(WHITE);
    }

    /** `getRedBoard`: a fresh board in the RED orientation. */
    method GetRedBoard() returns (b: BoardView)
      ensures fresh(b) && b.Exact() && fresh(b.Spaces())
      ensures b.activeColor == RED && b.Snapshot() == StartGrid(RED)
    {
      b := new BoardView(RED);
    }
  }
}
