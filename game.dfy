/**
 * The game of chackad/src/game.rs: a set of pieces, the board they stand on,
 * and a map from a piece's square to one square it can move to, built by
 * trying every piece against every square.
 */
module Games {
  import opened Options
  import opened Boards
  import opened Pieces

  /** A board square as (first coordinate, second coordinate). */
  type Square = (nat, nat)

  // ----- the standard position -----

  /** Piece types of a back rank, from x = 0 to x = 7. */
  function BackRank(x: nat): PieceType
    requires x < 8
  {
    [Rook, Knight, Bishop, Queen, King, Bishop, Knight, Rook][x]
  }

  /**
   * The `k`-th piece `regular_chess_setup` places, in its order: the white
   * pawns, the white back rank, the black pawns, the black back rank.
   */
  function Placement(k: nat): PieceValue
    requires k < 32
  {
    if k < 8 then PieceValue(Pawn, k, 1, true)
    else if k < 16 then PieceValue(BackRank(k - 8), k - 8, 0, true)
    else if k < 24 then PieceValue(Pawn, k - 16, 6, false)
    else PieceValue(BackRank(k - 24), k - 24, 7, false)
  }

  /** The pieces placed `lo` to `hi - 1`. */
  function PlacedRange(lo: nat, hi: nat): set<PieceValue>
    requires hi <= 32
  {
    set k: nat | lo <= k < hi :: Placement(k)
  }

  /** What `regular_chess_setup` inserts into `all_pieces`. */
  function StandardPieces(): set<PieceValue>
  {
    PlacedRange(0, 32)
  }

  /** The standard position described square by square, independently of the placement order. */
  function StandardAt(x: nat, y: nat): Option<PieceValue>
    requires x < 8
  {
    if y == 0 then Some(PieceValue(BackRank(x), x, 0, true))
    else if y == 1 then Some(PieceValue(Pawn, x, 1, true))
    else if y == 6 then Some(PieceValue(Pawn, x, 6, false))
    else if y == 7 then Some(PieceValue(BackRank(x), x, 7, false))
    else None
  }

  /** One of the first `k` placements stands on row `x`, column `y`. */
  predicate PlacedOn(k: nat, x: nat, y: nat)
  {
    && x < 8
    && ((y == 1 && x < k) || (y == 0 && 8 + x < k) || (y == 6 && 16 + x < k) || (y == 7 && 24 + x < k))
  }

  /**
   * The board after the first `k` placements of `regular_chess_setup`: the
   * initial 8x8 board with the tiles under those pieces marked non-empty.
   * `Piece::new` changes nothing else, so every tile keeps its colour, its
   * original-piece flag and its occupant colour (never set to white).
   */
  function PartialSetup(k: nat): (g: Grid)
    ensures WellFormed(g) && g.sizeX == 8 && g.sizeY == 8
  {
    Grid(8, 8, seq(8, i requires 0 <= i => seq(8, j requires 0 <= j => InitialTile(i, j).(isEmpty := !PlacedOn(k, i, j)))))
  }

  /** The ranks the standard position fills: 0 and 1 (white), 6 and 7 (black). */
  predicate OccupiedRank(y: nat)
  {
    y == 0 || y == 1 || y == 6 || y == 7
  }

  /** The board right after `regular_chess_setup`. */
  function SetupGrid(): (g: Grid)
    ensures WellFormed(g) && g.sizeX == 8 && g.sizeY == 8
  {
    PartialSetup(32)
  }

  /** `PlacedOn(k, ...)` is what its name says: some placement before `k` stands on the square. */
  lemma PlacedOnMeans(k: nat, x: nat, y: nat)
    requires k <= 32
    ensures PlacedOn(k, x, y) <==> exists n: nat :: n < k && Placement(n).posX == x && Placement(n).posY == y
  {
    if PlacedOn(k, x, y) {
      var n: nat := if y == 1 then x else if y == 0 then 8 + x else if y == 6 then 16 + x else 24 + x;
      assert Placement(n).posX == x && Placement(n).posY == y;
    }
  }

  /** Before any placement the board is the one `Board::new(8, 8)` builds. */
  lemma SetupStart()
    ensures PartialSetup(0) == NewGrid(8, 8)
  {
    var g, h := PartialSetup(0), NewGrid(8, 8);
    forall x | 0 <= x < 8
      ensures g.cells[x] == h.cells[x]
    {
      forall y | 0 <= y < 8
        ensures g.cells[x][y] == h.cells[x][y]
      {
        NewGridTiles(8, 8, x, y);
      }
    }
  }

  /** The `k`-th `Piece::new` of the setup marks one more tile; the set grows by one piece. */
  lemma SetupStep(k: nat)
    requires k < 32
    ensures PartialSetup(k + 1) == WithEmptiness(PartialSetup(k), Placement(k).posX, Placement(k).posY, false)
    ensures PlacedRange(0, k + 1) == PlacedRange(0, k) + {Placement(k)}
  {
    var g, h := PartialSetup(k + 1), WithEmptiness(PartialSetup(k), Placement(k).posX, Placement(k).posY, false);
    forall x | 0 <= x < 8
      ensures g.cells[x] == h.cells[x]
    {
      forall y | 0 <= y < 8
        ensures g.cells[x][y] == h.cells[x][y]
      {
        WithEmptinessEffect(PartialSetup(k), Placement(k).posX, Placement(k).posY, false, x, y);
      }
    }
  }

  /** Different placements stand on different squares. */
  lemma PlacementSquaresDiffer(j: nat, k: nat)
    requires j < 32 && k < 32 && j != k
    ensures (Placement(j).posX, Placement(j).posY) != (Placement(k).posX, Placement(k).posY)
  {
  }

  /** No two pieces of the standard position share a square. */
  lemma StandardDistinctSquares()
    ensures forall p, q :: p in StandardPieces() && q in StandardPieces() && p.posX == q.posX && p.posY == q.posY ==> p == q
  {
    forall p, q | p in StandardPieces() && q in StandardPieces() && p.posX == q.posX && p.posY == q.posY
      ensures p == q
    {
      var j :| 0 <= j < 32 && Placement(j) == p;
      var k :| 0 <= k < 32 && Placement(k) == q;
      if j != k {
        PlacementSquaresDiffer(j, k);
      }
    }
  }

  /**
   * The standard position square by square: white pawns on (i, 1), black
   * pawns on (i, 6), Rook Knight Bishop Queen King Bishop Knight Rook on
   * rows 0 (white) and 7 (black), nothing anywhere else.
   */
  lemma StandardPiecesBySquare(p: PieceValue)
    ensures p in StandardPieces() <==> p.posX < 8 && StandardAt(p.posX, p.posY) == Some(p)
  {
    if p in StandardPieces() {
      var k :| 0 <= k < 32 && Placement(k) == p;
    }
    if p.posX < 8 && StandardAt(p.posX, p.posY) == Some(p) {
      var k: nat := if p.posY == 1 then p.posX
                    else if p.posY == 0 then 8 + p.posX
                    else if p.posY == 6 then 16 + p.posX
                    else 24 + p.posX;
      assert Placement(k) == p;
    }
  }

  /** The placements `lo` to `hi - 1` are `hi - lo` different pieces. */
  lemma {:induction false} PlacedRangeSize(lo: nat, hi: nat)
    requires lo <= hi <= 32
    ensures |PlacedRange(lo, hi)| == hi - lo
    decreases hi - lo
  {
    if lo == hi {
      assert PlacedRange(lo, hi) == {};
    } else {
      PlacedRangeSize(lo, hi - 1);
      assert PlacedRange(lo, hi) == PlacedRange(lo, hi - 1) + {Placement(hi - 1)};
      if Placement(hi - 1) in PlacedRange(lo, hi - 1) {
        var k: nat :| lo <= k < hi - 1 && Placement(k) == Placement(hi - 1);
        PlacementSquaresDiffer(k, hi - 1);
      }
    }
  }

  /** The standard position has 32 pieces, 16 of each colour. */
  lemma StandardPieceCount()
    ensures |StandardPieces()| == 32
    ensures |set p | p in StandardPieces() && p.isWhite| == 16
    ensures |set p | p in StandardPieces() && !p.isWhite| == 16
  {
    PlacedRangeSize(0, 32);
    PlacedRangeSize(0, 16);
    PlacedRangeSize(16, 32);
    assert (set p | p in StandardPieces() && p.isWhite) == PlacedRange(0, 16);
    assert (set p | p in StandardPieces() && !p.isWhite) == PlacedRange(16, 32);
  }

  /**
   * After the setup exactly the tiles of ranks 0, 1, 6 and 7 are non-empty,
   * and a tile is non-empty exactly when a piece of `all_pieces` stands on it.
   * `Piece::new` never records the occupant's colour, so no tile says it
   * holds a white piece, not even under the white pieces.
   */
  lemma SetupTilesMatchPieces(x: nat, y: nat)
    requires x < 8 && y < 8
    ensures !TileAt(SetupGrid(), x, y).isEmpty <==> OccupiedRank(y)
    ensures !TileAt(SetupGrid(), x, y).isEmpty <==> exists p :: p in StandardPieces() && p.posX == x && p.posY == y
    ensures !TileAt(SetupGrid(), x, y).pieceIsWhite
  {
    if OccupiedRank(y) {
      StandardPiecesBySquare(StandardAt(x, y).value);
    }
    forall p | p in StandardPieces() && p.posX == x && p.posY == y
      ensures OccupiedRank(y)
    {
      StandardPiecesBySquare(p);
    }
  }

  // ----- the move map -----

  /** A check as the scan of `calc_all_moves` uses it: may this piece go to `(i, j)`? */
  type Check = (PieceValue, nat, nat) -> bool

  /**
   * `check_to(i, j, board, Queen)`: what `move_to` would decide for the
   * piece, without moving it.
   */
  ghost function CheckTo(g: Grid): Check
    requires WellFormed(g)
  {
    (p: PieceValue, i: nat, j: nat) => InBounds(g, i, j) && MoveToVerdict(p, g, i, j, Queen).Accept?
  }

  /** The later of two candidates: the second if there is one. */
  function Latest<T>(earlier: Option<T>, later: Option<T>): Option<T>
  {
    if later.Some? then later else earlier
  }

  /** Last square `(i, b)` with `b < j` that passes `check`. */
  function LastInColumn(check: Check, p: PieceValue, i: nat, j: nat): Option<Square>
    decreases j
  {
    if j == 0 then None
    else if check(p, i, j - 1) then Some((i, j - 1))
    else LastInColumn(check, p, i, j - 1)
  }

  /** Last passing square `(a, b)` with `a < i` and `b < sizeY`, in the scan order (`a` outer, `b` inner). */
  function LastUpTo(check: Check, p: PieceValue, sizeY: nat, i: nat): Option<Square>
  {
    if i == 0 then None else Latest(LastUpTo(check, p, sizeY, i - 1), LastInColumn(check, p, i - 1, sizeY))
  }

  /** `(a, b)` comes after `(i, j)` in the scan order. */
  predicate After(a: nat, b: nat, i: nat, j: nat)
  {
    a > i || (a == i && b > j)
  }

  ghost predicate DistinctSquares(pieces: set<PieceValue>)
  {
    forall p, q :: p in pieces && q in pieces && p.posX == q.posX && p.posY == q.posY ==> p == q
  }

  /** Each piece's square mapped to its last passing square on a `sizeX` by `sizeY` scan. */
  function ScanMap(check: Check, pieces: set<PieceValue>, sizeX: nat, sizeY: nat): map<Square, Square>
    requires DistinctSquares(pieces)
  {
    map p | p in pieces && LastUpTo(check, p, sizeY, sizeX).Some? :: (p.posX, p.posY) := LastUpTo(check, p, sizeY, sizeX).value
  }

  /** What `calc_all_moves` leaves in `all_moves` for the board `g`. */
  ghost function MoveMap(pieces: set<PieceValue>, g: Grid): map<Square, Square>
    requires WellFormed(g) && DistinctSquares(pieces)
  {
    ScanMap(CheckTo(g), pieces, g.sizeX, g.sizeY)
  }

  /** The map `m` after the overwriting inserts for one piece, whose last accepted square is `c`. */
  function WithCandidate(m: map<Square, Square>, k: Square, c: Option<Square>): map<Square, Square>
  {
    if c.Some? then m[k := c.value] else m
  }

  lemma {:induction false} LastInColumnSpec(check: Check, p: PieceValue, i: nat, j: nat)
    ensures LastInColumn(check, p, i, j).None? <==> forall b: nat :: b < j ==> !check(p, i, b)
    ensures LastInColumn(check, p, i, j).Some? ==>
              var s := LastInColumn(check, p, i, j).value;
              && s.0 == i && s.1 < j && check(p, s.0, s.1)
              && forall b: nat :: s.1 < b < j ==> !check(p, i, b)
    decreases j
  {
    if j > 0 {
      LastInColumnSpec(check, p, i, j - 1);
    }
  }

  /** The scan over rows `0..i` finds nothing exactly when nothing passes, and otherwise the last square that passes. */
  lemma {:induction false} LastUpToSpec(check: Check, p: PieceValue, sizeY: nat, i: nat)
    ensures LastUpTo(check, p, sizeY, i).None? <==> forall a: nat, b: nat :: a < i && b < sizeY ==> !check(p, a, b)
    ensures LastUpTo(check, p, sizeY, i).Some? ==>
              var s := LastUpTo(check, p, sizeY, i).value;
              && s.0 < i && s.1 < sizeY && check(p, s.0, s.1)
              && forall a: nat, b: nat :: a < i && b < sizeY && After(a, b, s.0, s.1) ==> !check(p, a, b)
    decreases i
  {
    if i > 0 {
      LastUpToSpec(check, p, sizeY, i - 1);
      LastInColumnSpec(check, p, i - 1, sizeY);
    }
  }

  /** The entries of a scan map: the scanned pieces whose scan found a square. */
  lemma ScanMapEntry(check: Check, pieces: set<PieceValue>, sizeX: nat, sizeY: nat, p: PieceValue)
    requires DistinctSquares(pieces) && p in pieces
    ensures (p.posX, p.posY) in ScanMap(check, pieces, sizeX, sizeY) <==> LastUpTo(check, p, sizeY, sizeX).Some?
    ensures (p.posX, p.posY) in ScanMap(check, pieces, sizeX, sizeY) ==>
              ScanMap(check, pieces, sizeX, sizeY)[(p.posX, p.posY)] == LastUpTo(check, p, sizeY, sizeX).value
  {
  }

  /** Scanning one more piece adds (or not) its own entry and changes nothing else. */
  lemma ScanMapInsert(check: Check, done: set<PieceValue>, a: PieceValue, sizeX: nat, sizeY: nat)
    requires a !in done && DistinctSquares(done + {a})
    ensures DistinctSquares(done)
    ensures ScanMap(check, done + {a}, sizeX, sizeY)
         == WithCandidate(ScanMap(check, done, sizeX, sizeY), (a.posX, a.posY), LastUpTo(check, a, sizeY, sizeX))
  {
    assert DistinctSquares(done);
    var m0 := ScanMap(check, done, sizeX, sizeY);
    var m1 := ScanMap(check, done + {a}, sizeX, sizeY);
    var m2 := WithCandidate(m0, (a.posX, a.posY), LastUpTo(check, a, sizeY, sizeX));
    assert (a.posX, a.posY) !in m0;
    ScanMapEntry(check, done + {a}, sizeX, sizeY, a);
    forall k | k in m1 && k != (a.posX, a.posY)
      ensures k in m0 && m0[k] == m1[k]
    {
      var p :| p in done + {a} && LastUpTo(check, p, sizeY, sizeX).Some? && (p.posX, p.posY) == k;
      ScanMapEntry(check, done, sizeX, sizeY, p);
    }
    forall k | k in m0
      ensures k in m1
    {
      var p :| p in done && LastUpTo(check, p, sizeY, sizeX).Some? && (p.posX, p.posY) == k;
      ScanMapEntry(check, done + {a}, sizeX, sizeY, p);
    }
    assert m1.Keys == m2.Keys;
  }

  /**
   * A piece's square is a key exactly when some square passes the check
   * for it; because later inserts overwrite earlier ones, the value is then
   * the last passing square in the scan order.
   */
  lemma ScanMapOrigins(check: Check, pieces: set<PieceValue>, sizeX: nat, sizeY: nat, p: PieceValue)
    requires DistinctSquares(pieces) && p in pieces
    ensures (p.posX, p.posY) in ScanMap(check, pieces, sizeX, sizeY)
        <==> exists i: nat, j: nat :: i < sizeX && j < sizeY && check(p, i, j)
    ensures (p.posX, p.posY) in ScanMap(check, pieces, sizeX, sizeY) ==>
              var s := ScanMap(check, pieces, sizeX, sizeY)[(p.posX, p.posY)];
              && s.0 < sizeX && s.1 < sizeY && check(p, s.0, s.1)
              && forall a: nat, b: nat :: a < sizeX && b < sizeY && After(a, b, s.0, s.1) ==> !check(p, a, b)
  {
    LastUpToSpec(check, p, sizeY, sizeX);
    if LastUpTo(check, p, sizeY, sizeX).Some? {
      var s := LastUpTo(check, p, sizeY, sizeX).value;
      assert check(p, s.0, s.1);
    }
  }

  /** Every key is the square of some piece, and every value a square `(i, j)` with `i < sizeX` and `j < sizeY`. */
  lemma ScanMapRange(check: Check, pieces: set<PieceValue>, sizeX: nat, sizeY: nat)
    requires DistinctSquares(pieces)
    ensures forall k :: k in ScanMap(check, pieces, sizeX, sizeY) ==> exists p :: p in pieces && (p.posX, p.posY) == k
    ensures forall k :: k in ScanMap(check, pieces, sizeX, sizeY) ==>
              ScanMap(check, pieces, sizeX, sizeY)[k].0 < sizeX && ScanMap(check, pieces, sizeX, sizeY)[k].1 < sizeY
  {
    forall k | k in ScanMap(check, pieces, sizeX, sizeY)
      ensures ScanMap(check, pieces, sizeX, sizeY)[k].0 < sizeX && ScanMap(check, pieces, sizeX, sizeY)[k].1 < sizeY
    {
      var p :| p in pieces && LastUpTo(check, p, sizeY, sizeX).Some? && (p.posX, p.posY) == k;
      LastUpToSpec(check, p, sizeY, sizeX);
    }
  }

  /** With the inverted guard of `move_to`, no square of the scan ever passes, so the map stays empty. */
  lemma MoveMapEmpty(pieces: set<PieceValue>, g: Grid)
    requires WellFormed(g) && DistinctSquares(pieces)
    ensures MoveMap(pieces, g) == map[]
  {
    forall p | p in pieces
      ensures LastUpTo(CheckTo(g), p, g.sizeY, g.sizeX).None?
    {
      LastUpToSpec(CheckTo(g), p, g.sizeY, g.sizeX);
      forall a: nat, b: nat | a < g.sizeX && b < g.sizeY
        ensures !CheckTo(g)(p, a, b)
      {
        MoveToRefusesValidTiles(p, g, a, b, Queen);
      }
    }
  }

  /** `Game`: the pieces (owned by value, as a set), the board and the move map. */
  class Game {
    var allPieces: set<PieceValue>
    var board: Board
    var allMoves: map<Square, Square>

    /** Reachable states: a fresh game, or one after `regular_chess_setup`. */
    ghost predicate Valid()
      reads this`board, this`allPieces, board, board.tiles
    {
      && board.Valid() && board.sizeX == 8 && board.sizeY == 8
      && ((allPieces == {} && board.View() == NewGrid(8, 8))
          || (allPieces == StandardPieces() && board.View() == SetupGrid()))
    }

    /** In every reachable state no two pieces share a square, as `calc_all_moves` needs. */
    lemma ValidSquaresDistinct()
      requires Valid()
      ensures board.Valid() && DistinctSquares(allPieces)
    {
      StandardDistinctSquares();
    }

    /** `Game::new`: an empty 8x8 board, no pieces, no moves. */
    constructor ()
      ensures Valid() && fresh(board) && fresh(board.tiles)
      ensures allPieces == {} && allMoves == map[]
      ensures board.View() == NewGrid(8, 8)
    {
      allPieces := {};
      board := new Board(8, 8);
      allMoves := map[];
    }

    /** `all_pieces.insert(Piece::new(&mut board, ...))`: marks the square and adds the piece. */
    method Place(t: PieceType, x: nat, y: nat, white: bool)
      requires board.Valid() && InGrid(board.View(), x, y)
      modifies this`allPieces, board, board.tiles
      ensures board.Valid()
      ensures board.View() == WithEmptiness(old(board.View()), x, y, false)
      ensures allPieces == old(allPieces) + {PieceValue(t, x, y, white)}
    {
      var piece := new Piece(board, t, x, y, white);
      allPieces := allPieces + {piece.Value()};
    }

    /** The board, and the pieces added so far, after the first `k` placements of the standard order. */
    ghost predicate PlacedUpTo(k: nat, b: Board, before: set<PieceValue>)
      requires k <= 32
      reads this, b, b.tiles
    {
      && board == b && b.Valid() && b.sizeX == 8 && b.sizeY == 8
      && b.View() == PartialSetup(k)
      && allPieces == before + PlacedRange(0, k)
    }

    /** One `all_pieces.insert(Piece::new(...))` of the setup, the `k`-th in its order. */
    method PlaceStep(ghost k: nat, t: PieceType, x: nat, y: nat, white: bool, ghost b: Board, ghost before: set<PieceValue>)
      requires k < 32 && Placement(k) == PieceValue(t, x, y, white)
      requires PlacedUpTo(k, b, before)
      modifies this`allPieces, b, b.tiles
      ensures PlacedUpTo(k + 1, b, before)
    {
      SetupStep(k);
      Place(t, x, y, white);
    }

    /**
     * `regular_chess_setup`: a fresh 8x8 board with the 32 standard pieces on
     * it, added to `all_pieces`.
     */
    method RegularChessSetup()
      requires Valid()
      modifies this
      ensures Valid() && fresh(board) && fresh(board.tiles)
      ensures board.View() == SetupGrid()
      ensures allPieces == old(allPieces) + StandardPieces() == StandardPieces()
      ensures allMoves == old(allMoves)
    {
      var b := new Board(8, 8);
      board := b;
      ghost var before := allPieces;
      SetupStart();
      assert PlacedRange(0, 0) == {};
      // White pieces
      for i := 0 to 8
        invariant PlacedUpTo(i, b, before) && allMoves == old(allMoves)
      {
        PlaceStep(i, Pawn, i, 1, true, b, before);
      }
      // The eight explicit inserts of the white back rank, in their order
      for x := 0 to 8
        invariant PlacedUpTo(8 + x, b, before) && allMoves == old(allMoves)
      {
        PlaceStep(8 + x, BackRank(x), x, 0, true, b, before);
      }
      // Black pieces
      for i := 0 to 8
        invariant PlacedUpTo(16 + i, b, before) && allMoves == old(allMoves)
      {
        PlaceStep(16 + i, Pawn, i, 6, false, b, before);
      }
      // The eight explicit inserts of the black back rank, in their order
      for x := 0 to 8
        invariant PlacedUpTo(24 + x, b, before) && allMoves == old(allMoves)
      {
        PlaceStep(24 + x, BackRank(x), x, 7, false, b, before);
      }
      assert allPieces == StandardPieces() && board.View() == SetupGrid();
    }

    /**
     * The two inner loops of `calc_all_moves` for the piece `a`: every square
     * in the order `i` outer, `j` inner, overwriting the entry of `a`'s own
     * square whenever `check_to` accepts the square.
     */
    method ScanPiece(a: PieceValue, moves: map<Square, Square>, ghost check: Check) returns (r: map<Square, Square>)
      requires board.Valid() && check == CheckTo(board.View())
      ensures r == WithCandidate(moves, (a.posX, a.posY), LastUpTo(check, a, board.sizeY, board.sizeX))
    {
      r := moves;
      var i: nat := 0;
      while i < board.sizeX
        invariant i <= board.sizeX
        invariant r == WithCandidate(moves, (a.posX, a.posY), LastUpTo(check, a, board.sizeY, i))
      {
        var j: nat := 0;
        while j < board.sizeY
          invariant j <= board.sizeY
          invariant r == WithCandidate(moves, (a.posX, a.posY),
                                       Latest(LastUpTo(check, a, board.sizeY, i), LastInColumn(check, a, i, j)))
        {
          var v := DecideMoveTo(a, board, i, j, Queen);
          assert check(a, i, j) == v.Accept?;
          if v.Accept? {
            r := r[(a.posX, a.posY) := (i, j)];
          }
          j := j + 1;
        }
        i := i + 1;
      }
    }

    /**
     * `calc_all_moves`: starts from an empty map and scans every piece of
     * `all_pieces` against every square of the board.
     */
    method CalcAllMoves()
      requires board.Valid() && DistinctSquares(allPieces)
      modifies this`allMoves
      ensures allMoves == MoveMap(allPieces, board.View())
    {
      ghost var check := CheckTo(board.View());
      var moves := map[];
      var rest := allPieces;
      ghost var done: set<PieceValue> := {};
      while rest != {}
        invariant rest <= allPieces && done == allPieces - rest
        invariant moves == ScanMap(check, done, board.sizeX, board.sizeY)
        decreases |rest|
      {
        var a :| a in rest;
        moves := ScanPiece(a, moves, check);
        ScanMapInsert(check, done, a, board.sizeX, board.sizeY);
        rest := rest - {a};
        done := done + {a};
      }
      allMoves := moves;
    }
  }
}
