/**
 * The pieces of chackad/src/piece.rs: a typed, coloured unit with a position
 * and per-type move routines that decide whether a move is allowed and, if it
 * is, carry it out on the piece and the board through `move_now`.
 *
 * Each routine is split into a pure decision on values (PawnVerdict,
 * RookVerdict, MoveToVerdict), a read-only method that makes the decision on
 * the live board the way the source does (DecidePawn, DecideRook,
 * DecideMoveTo) and the state update (the `Move` methods of class Piece).
 */
module Pieces {
  import opened Boards

  datatype PieceType = Pawn | Rook | Knight | Bishop | Queen | King

  /** The fields of a `Piece`, compared structurally. */
  datatype PieceValue = PieceValue(pieceType: PieceType, posX: nat, posY: nat, isWhite: bool)

  /** What a move routine decides: refuse, or move with the given resulting piece type. */
  datatype Verdict = Reject | Accept(newType: PieceType)

  /** Row `y + n` for a white pawn, `y - n` for a black one. */
  function Ahead(p: PieceValue, n: nat): int
  {
    if p.isWhite then p.posY + n else p.posY - n
  }

  /** The rank a pawn of this colour promotes on. */
  function LastRank(p: PieceValue, g: Grid): int
  {
    if p.isWhite then g.sizeY - 1 else 0
  }

  /**
   * The pawn routine evaluates without a `usize` underflow and without
   * reading a tile outside the grid, following its evaluation order
   * (short-circuit `&&` and `||`).
   */
  ghost predicate PawnSafe(p: PieceValue, g: Grid, toX: nat, toY: nat)
  {
    && WellFormed(g)
    && if p.isWhite then
         if toX == p.posX && toY == p.posY + 1 then InGrid(g, toX, toY)
         else if toY == p.posY + 1 then
           p.posX >= 1 && (toX == p.posX - 1 || toX == p.posX + 1 ==> InGrid(g, toX, toY))
         else if toX == p.posX && toY == p.posY + 2 then InGrid(g, toX, toY)
         else true
       else
         && p.posY >= 1
         && if toX == p.posX && toY == p.posY - 1 then InGrid(g, toX, toY)
            else if toY == p.posY - 1 then
              p.posX >= 1 && (toX == p.posX - 1 || toX == p.posX + 1 ==> InGrid(g, toX, toY))
            else if toX == p.posX then
              && p.posY >= 2
              && (toY == p.posY - 2 ==>
                    && InGrid(g, toX, toY)
                    && (TileAt(g, toX, toY).isEmpty ==>
                          toY >= 1 && (TileAt(g, toX, toY - 1).isEmpty ==> g.sizeY >= 2)))
            else true
  }

  /** `move_pawn`'s decision, branch for branch. */
  function PawnVerdict(p: PieceValue, g: Grid, toX: nat, toY: nat, promotion: PieceType): Verdict
    requires PawnSafe(p, g, toX, toY)
  {
    if p.isWhite then
      if toX == p.posX && toY == p.posY + 1 then
        if TileAt(g, toX, toY).isEmpty && toY == g.sizeY - 1 then
          if promotion == Pawn || promotion == King then Reject else Accept(promotion)
        else if TileAt(g, toX, toY).isEmpty then Accept(p.pieceType)
        else Reject
      else if toY == p.posY + 1 && (toX == p.posX - 1 || toX == p.posX + 1) then
        if !TileAt(g, toX, toY).isEmpty && !TileAt(g, toX, toY).pieceIsWhite then Accept(p.pieceType)
        else Reject
      else if toX == p.posX && toY == p.posY + 2 then
        if TileAt(g, toX, toY).isEmpty && TileAt(g, toX, toY - 1).isEmpty && p.posY == 1 then Accept(p.pieceType)
        else Reject
      else Reject
    else
      if toX == p.posX && toY == p.posY - 1 then
        if TileAt(g, toX, toY).isEmpty && toY == 0 then
          if promotion == Pawn || promotion == King then Reject else Accept(promotion)
        else if TileAt(g, toX, toY).isEmpty then Accept(p.pieceType)
        else Reject
      else if toY == p.posY - 1 && (toX == p.posX - 1 || toX == p.posX + 1) then
        if !TileAt(g, toX, toY).isEmpty && TileAt(g, toX, toY).pieceIsWhite then Accept(p.pieceType)
        else Reject
      else if toX == p.posX && toY == p.posY - 2 then
        if TileAt(g, toX, toY).isEmpty && TileAt(g, toX, toY - 1).isEmpty && p.posY == g.sizeY - 2 then Accept(p.pieceType)
        else Reject
      else Reject
  }

  /** The tile the rook's path loop inspects at index `i`: `(fixed, i)` along a file, `(i, fixed)` along a rank. */
  function PathSquare(fixed: nat, i: nat, alongFile: bool): (nat, nat)
  {
    if alongFile then (fixed, i) else (i, fixed)
  }

  /** Every tile the path loop from `lo` to `hi` reads is inside the grid. */
  ghost predicate PathInGrid(g: Grid, lo: nat, hi: nat, fixed: nat, alongFile: bool)
  {
    forall i: nat :: lo < i < hi ==> InGrid(g, PathSquare(fixed, i, alongFile).0, PathSquare(fixed, i, alongFile).1)
  }

  /** The path loop as written: every index strictly between `lo` and `hi` names an empty tile. */
  ghost predicate PathClear(g: Grid, lo: nat, hi: nat, fixed: nat, alongFile: bool)
    requires WellFormed(g) && PathInGrid(g, lo, hi, fixed, alongFile)
  {
    forall i: nat :: lo < i < hi ==> TileAt(g, PathSquare(fixed, i, alongFile).0, PathSquare(fixed, i, alongFile).1).isEmpty
  }

  /**
   * `move_rook`'s decision. The file branch scans `pos_x..to_x` and the rank
   * branch `pos_y..to_y`; the branch conditions make both ranges empty.
   */
  ghost function RookVerdict(p: PieceValue, g: Grid, toX: nat, toY: nat): Verdict
    requires WellFormed(g) && InGrid(g, toX, toY)
  {
    if !TileAt(g, toX, toY).isEmpty && TileAt(g, toX, toY).pieceIsWhite == p.isWhite then Reject
    else if toX == p.posX && toY != p.posY then
      if PathClear(g, p.posX, toX, toX, true) then Accept(p.pieceType) else Reject
    else if toY == p.posY && toX != p.posX then
      if PathClear(g, p.posY, toY, toY, false) then Accept(p.pieceType) else Reject
    else Reject
  }

  /** What the routine `move_to` dispatches to needs of the board. */
  ghost predicate DispatchSafe(p: PieceValue, g: Grid, toX: nat, toY: nat)
  {
    && WellFormed(g)
    && match p.pieceType
       case Pawn => PawnSafe(p, g, toX, toY)
       case Rook => InGrid(g, toX, toY)
       case _ => true
  }

  /**
   * `move_to`'s decision. Its guard is inverted: a target that
   * `is_valid_tile` accepts is refused, and only the others reach the
   * per-type routines. The knight, bishop, queen and king routines refuse
   * everything.
   */
  ghost function MoveToVerdict(p: PieceValue, g: Grid, toX: nat, toY: nat, promotion: PieceType): Verdict
    requires WellFormed(g) && (InBounds(g, toX, toY) || DispatchSafe(p, g, toX, toY))
  {
    if InBounds(g, toX, toY) then Reject
    else match p.pieceType
      case Pawn => PawnVerdict(p, g, toX, toY, promotion)
      case Rook => RookVerdict(p, g, toX, toY)
      case _ => Reject
  }

  /** The board after `move_now` from `(fromX, fromY)` to `(toX, toY)`, in the source's order of writes. */
  function MoveNowGrid(g: Grid, fromX: nat, fromY: nat, toX: nat, toY: nat, white: bool): (r: Grid)
    requires WellFormed(g) && InGrid(g, fromX, fromY) && InGrid(g, toX, toY)
    ensures WellFormed(r) && r.sizeX == g.sizeX && r.sizeY == g.sizeY
  {
    WithPieceIsWhite(WithEmptiness(WithEmptiness(g, toX, toY, false), fromX, fromY, true), toX, toY, white)
  }

  /** The piece after an accepted move: new position and the verdict's type; colour unchanged. */
  function MovedPiece(p: PieceValue, toX: nat, toY: nat, newType: PieceType): PieceValue
  {
    PieceValue(newType, toX, toY, p.isWhite)
  }

  /**
   * Piece and board after a routine returns: unchanged on a refusal, one
   * `move_now` plus the verdict's type on an acceptance.
   */
  function AfterMove(p: PieceValue, g: Grid, v: Verdict, toX: nat, toY: nat): (PieceValue, Grid)
    requires WellFormed(g) && InGrid(g, p.posX, p.posY)
    requires v.Accept? ==> InGrid(g, toX, toY)
  {
    if v.Reject? then (p, g)
    else (MovedPiece(p, toX, toY, v.newType), MoveNowGrid(g, p.posX, p.posY, toX, toY, p.isWhite))
  }

  // ----- properties of the decisions -----

  /** A pawn only ever moves one square ahead (straight or diagonally) or two squares straight ahead. */
  lemma PawnMoveShapes(p: PieceValue, g: Grid, toX: nat, toY: nat, promotion: PieceType)
    requires PawnSafe(p, g, toX, toY)
    requires PawnVerdict(p, g, toX, toY, promotion).Accept?
    ensures InGrid(g, toX, toY)
    ensures (toY == Ahead(p, 1) && (toX == p.posX || toX + 1 == p.posX || toX == p.posX + 1))
         || (toY == Ahead(p, 2) && toX == p.posX)
  {
  }

  /** An accepted pawn move lands on an empty tile or, diagonally, on a tile held by the other colour. */
  lemma PawnTargets(p: PieceValue, g: Grid, toX: nat, toY: nat, promotion: PieceType)
    requires PawnSafe(p, g, toX, toY)
    requires PawnVerdict(p, g, toX, toY, promotion).Accept?
    ensures InGrid(g, toX, toY)
    ensures toX == p.posX ==> TileAt(g, toX, toY).isEmpty
    ensures toX != p.posX ==> !TileAt(g, toX, toY).isEmpty && TileAt(g, toX, toY).pieceIsWhite != p.isWhite
  {
  }

  /**
   * Single step: allowed exactly onto an empty tile; onto the last rank a
   * Pawn or King promotion is refused and any other becomes the new type.
   */
  lemma PawnSingleStep(p: PieceValue, g: Grid, toY: nat, promotion: PieceType)
    requires toY == Ahead(p, 1) && PawnSafe(p, g, p.posX, toY)
    ensures PawnVerdict(p, g, p.posX, toY, promotion).Accept?
        <==> TileAt(g, p.posX, toY).isEmpty && (toY == LastRank(p, g) ==> promotion != Pawn && promotion != King)
    ensures PawnVerdict(p, g, p.posX, toY, promotion).Accept? ==>
              PawnVerdict(p, g, p.posX, toY, promotion).newType == if toY == LastRank(p, g) then promotion else p.pieceType
  {
  }

  /** Diagonal capture: allowed exactly onto an occupied tile whose occupant has the other colour. */
  lemma PawnCapture(p: PieceValue, g: Grid, toX: nat, toY: nat, promotion: PieceType)
    requires toY == Ahead(p, 1) && (toX + 1 == p.posX || toX == p.posX + 1) && PawnSafe(p, g, toX, toY)
    ensures PawnVerdict(p, g, toX, toY, promotion)
         == if !TileAt(g, toX, toY).isEmpty && TileAt(g, toX, toY).pieceIsWhite != p.isWhite
            then Accept(p.pieceType) else Reject
  {
  }

  /**
   * Double step: white only from row 1, black only from row `sizeY - 2`; both
   * test the target and the tile just below it (`to_y - 1`), which for black
   * is not the square passed over.
   */
  lemma PawnDoubleStep(p: PieceValue, g: Grid, toY: nat, promotion: PieceType)
    requires toY == Ahead(p, 2) && PawnSafe(p, g, p.posX, toY)
    ensures InGrid(g, p.posX, toY)
    ensures PawnVerdict(p, g, p.posX, toY, promotion).Accept?
        <==> && TileAt(g, p.posX, toY).isEmpty && toY >= 1 && TileAt(g, p.posX, toY - 1).isEmpty
             && p.posY == (if p.isWhite then 1 else g.sizeY - 2)
  {
  }

  /** An 8x8 board with a single occupied tile, at row `x`, column `y`. */
  function OneBlocker(x: nat, y: nat): (g: Grid)
    requires x < 8 && y < 8
    ensures WellFormed(g) && g.sizeX == 8 && g.sizeY == 8
  {
    WithEmptiness(NewGrid(8, 8), x, y, false)
  }

  /**
   * A black pawn at (0, 6) may jump to (0, 4) although (0, 5), the square it
   * passes over, is occupied: the routine tests (0, 3) instead.
   */
  lemma BlackDoubleStepOverBlocker()
    ensures PawnSafe(PieceValue(Pawn, 0, 6, false), OneBlocker(0, 5), 0, 4)
    ensures !TileAt(OneBlocker(0, 5), 0, 5).isEmpty
    ensures PawnVerdict(PieceValue(Pawn, 0, 6, false), OneBlocker(0, 5), 0, 4, Queen) == Accept(Pawn)
  {
    var g := OneBlocker(0, 5);
    assert TileAt(g, 0, 4) == InitialTile(0, 4);
    assert TileAt(g, 0, 3) == InitialTile(0, 3);
  }

  /** A path loop over an empty index range inspects nothing and accepts. */
  lemma EmptyPathIsClear(g: Grid, lo: nat, fixed: nat, alongFile: bool)
    requires WellFormed(g)
    ensures PathInGrid(g, lo, lo, fixed, alongFile) && PathClear(g, lo, lo, fixed, alongFile)
  {
  }

  /**
   * Because its path loops never run, the rook routine accepts every other
   * square on its file or rank that is not held by its own colour, whatever
   * stands in between.
   */
  lemma RookIgnoresBlockers(p: PieceValue, g: Grid, toX: nat, toY: nat)
    requires WellFormed(g) && InGrid(g, toX, toY)
    ensures RookVerdict(p, g, toX, toY).Accept?
        <==> && !(!TileAt(g, toX, toY).isEmpty && TileAt(g, toX, toY).pieceIsWhite == p.isWhite)
             && ((toX == p.posX && toY != p.posY) || (toY == p.posY && toX != p.posX))
    ensures RookVerdict(p, g, toX, toY).Accept? ==> RookVerdict(p, g, toX, toY).newType == p.pieceType
  {
    EmptyPathIsClear(g, p.posX, toX, true);
    EmptyPathIsClear(g, p.posY, toY, false);
  }

  /** The inverted guard: `move_to` refuses every target that `is_valid_tile` accepts. */
  lemma MoveToRefusesValidTiles(p: PieceValue, g: Grid, toX: nat, toY: nat, promotion: PieceType)
    requires WellFormed(g) && InBounds(g, toX, toY)
    ensures MoveToVerdict(p, g, toX, toY, promotion) == Reject
  {
  }

  /** Only pawns and rooks can ever move, and only to targets outside the `is_valid_tile` bounds. */
  lemma MoveToAcceptsOnlyInvalidTiles(p: PieceValue, g: Grid, toX: nat, toY: nat, promotion: PieceType)
    requires WellFormed(g) && (InBounds(g, toX, toY) || DispatchSafe(p, g, toX, toY))
    requires MoveToVerdict(p, g, toX, toY, promotion).Accept?
    ensures !InBounds(g, toX, toY) && InGrid(g, toX, toY)
    ensures p.pieceType == Pawn || p.pieceType == Rook
  {
  }

  /**
   * On a board 2 columns wide and 8 rows high, a rook at (0, 0) asked to go
   * to (5, 0) moves: `is_valid_tile(5, 0)` is false, yet `tiles[5][0]` exists.
   */
  lemma RookLeavesValidTiles()
    ensures !InBounds(NewGrid(2, 8), 5, 0) && DispatchSafe(PieceValue(Rook, 0, 0, true), NewGrid(2, 8), 5, 0)
    ensures MoveToVerdict(PieceValue(Rook, 0, 0, true), NewGrid(2, 8), 5, 0, Queen) == Accept(Rook)
  {
    assert TileAt(NewGrid(2, 8), 5, 0) == InitialTile(5, 0);
    EmptyPathIsClear(NewGrid(2, 8), 0, 0, false);
  }

  /**
   * `move_now` between two different squares: the target holds a piece of the
   * mover's colour, the origin is empty, and every other field of every tile
   * is as it was.
   */
  lemma MoveNowEffect(g: Grid, fromX: nat, fromY: nat, toX: nat, toY: nat, white: bool, a: nat, b: nat)
    requires WellFormed(g) && InGrid(g, fromX, fromY) && InGrid(g, toX, toY) && InGrid(g, a, b)
    requires (fromX, fromY) != (toX, toY)
    ensures TileAt(MoveNowGrid(g, fromX, fromY, toX, toY, white), a, b)
         == if (a, b) == (toX, toY) then TileAt(g, a, b).(isEmpty := false, pieceIsWhite := white)
            else if (a, b) == (fromX, fromY) then TileAt(g, a, b).(isEmpty := true)
            else TileAt(g, a, b)
  {
    WithEmptinessEffect(g, toX, toY, false, a, b);
    var g1 := WithEmptiness(g, toX, toY, false);
    WithEmptinessEffect(g1, fromX, fromY, true, a, b);
    var g2 := WithEmptiness(g1, fromX, fromY, true);
    WithPieceIsWhiteEffect(g2, toX, toY, white, a, b);
  }

  // ----- the decisions made on the live board -----

  /** The loop of `move_rook`: `for i in lo..hi`, skipping `i == lo`, refusing at the first occupied tile. */
  method PathIsClear(board: Board, lo: nat, hi: nat, fixed: nat, alongFile: bool) returns (clear: bool)
    requires board.Valid() && PathInGrid(board.View(), lo, hi, fixed, alongFile)
    ensures clear == PathClear(board.View(), lo, hi, fixed, alongFile)
  {
    var i := lo;
    while i < hi
      invariant lo <= i
      invariant forall k: nat :: lo < k < i && k < hi ==>
                  TileAt(board.View(), PathSquare(fixed, k, alongFile).0, PathSquare(fixed, k, alongFile).1).isEmpty
    {
      if i != lo {
        var (x, y) := PathSquare(fixed, i, alongFile);
        if !board.IsEmptyTile(x, y) {
          return false;
        }
      }
      i := i + 1;
    }
    return true;
  }

  /** `move_pawn`'s decision on the live board. */
  method DecidePawn(p: PieceValue, board: Board, toX: nat, toY: nat, promotion: PieceType) returns (v: Verdict)
    requires board.Valid() && PawnSafe(p, board.View(), toX, toY)
    ensures v == PawnVerdict(p, board.View(), toX, toY, promotion)
  {
    if p.isWhite {
      // one step forward, including promotion
      if toX == p.posX && toY == p.posY + 1 {
        if board.IsEmptyTile(toX, toY) && toY == board.sizeY - 1 {
          if promotion == Pawn || promotion == King {
            return Reject;
          }
          return Accept(promotion);
        } else if board.IsEmptyTile(toX, toY) {
          return Accept(p.pieceType);
        } else {
          return Reject;
        }
      }
      // capture
      if toY == p.posY + 1 && (toX == p.posX - 1 || toX == p.posX + 1) {
        if !board.IsEmptyTile(toX, toY) && !board.IsPieceWhite(toX, toY) {
          return Accept(p.pieceType);
        } else {
          return Reject;
        }
      }
      // double step
      if toX == p.posX && toY == p.posY + 2 {
        if board.IsEmptyTile(toX, toY) && board.IsEmptyTile(toX, toY - 1) && p.posY == 1 {
          return Accept(p.pieceType);
        } else {
          return Reject;
        }
      }
    } else {
      if toX == p.posX && toY == p.posY - 1 {
        if board.IsEmptyTile(toX, toY) && toY == 0 {
          if promotion == Pawn || promotion == King {
            return Reject;
          }
          return Accept(promotion);
        } else if board.IsEmptyTile(toX, toY) {
          return Accept(p.pieceType);
        } else {
          return Reject;
        }
      }
      if toY == p.posY - 1 && (toX == p.posX - 1 || toX == p.posX + 1) {
        if !board.IsEmptyTile(toX, toY) && board.IsPieceWhite(toX, toY) {
          return Accept(p.pieceType);
        } else {
          return Reject;
        }
      }
      if toX == p.posX && toY == p.posY - 2 {
        if board.IsEmptyTile(toX, toY) && board.IsEmptyTile(toX, toY - 1) && p.posY == board.sizeY - 2 {
          return Accept(p.pieceType);
        } else {
          return Reject;
        }
      }
    }
    return Reject;
  }

  /** `move_rook`'s decision on the live board. */
  method DecideRook(p: PieceValue, board: Board, toX: nat, toY: nat) returns (v: Verdict)
    requires board.Valid() && InGrid(board.View(), toX, toY)
    ensures v == RookVerdict(p, board.View(), toX, toY)
  {
    if !board.IsEmptyTile(toX, toY) && board.IsPieceWhite(toX, toY) == p.isWhite {
      return Reject;
    }
    if toX == p.posX && toY != p.posY {
      var clear := PathIsClear(board, p.posX, toX, toX, true);
      if !clear {
        return Reject;
      }
      return Accept(p.pieceType);
    }
    if toY == p.posY && toX != p.posX {
      var clear := PathIsClear(board, p.posY, toY, toY, false);
      if !clear {
        return Reject;
      }
      return Accept(p.pieceType);
    }
    return Reject;
  }

  /** `move_to`'s decision on the live board: the side-effect-free `check_to` that `calc_all_moves` calls. */
  method DecideMoveTo(p: PieceValue, board: Board, toX: nat, toY: nat, promotion: PieceType) returns (v: Verdict)
    requires board.Valid()
    requires InBounds(board.View(), toX, toY) || DispatchSafe(p, board.View(), toX, toY)
    ensures v == MoveToVerdict(p, board.View(), toX, toY, promotion)
  {
    if board.IsValidTile(toX, toY) {
      return Reject;
    }
    match p.pieceType
    case Pawn => v := DecidePawn(p, board, toX, toY, promotion);
    case Rook => v := DecideRook(p, board, toX, toY);
    case Knight => v := Reject;
    case Bishop => v := Reject;
    case Queen => v := Reject;
    case King => v := Reject;
  }

  /** `Piece`: its type and position change as it moves; its colour never does. */
  class Piece {
    var pieceType: PieceType
    var posX: nat
    var posY: nat
    const isWhite: bool

    function Value(): PieceValue
      reads this
    {
      PieceValue(pieceType, posX, posY, isWhite)
    }

    /** `Piece::new`: marks its own square non-empty and touches nothing else (not even that tile's colour). */
    constructor (board: Board, pieceType: PieceType, posX: nat, posY: nat, isWhite: bool)
      requires board.Valid() && InGrid(board.View(), posX, posY)
      modifies board, board.tiles
      ensures board.Valid()
      ensures board.View() == WithEmptiness(old(board.View()), posX, posY, false)
      ensures Value() == PieceValue(pieceType, posX, posY, isWhite)
    {
      board.SetEmptiness(posX, posY, false);
      this.pieceType := pieceType;
      this.posX := posX;
      this.posY := posY;
      this.isWhite := isWhite;
    }

    method MoveNow(toX: nat, toY: nat, board: Board)
      requires board.Valid() && InGrid(board.View(), posX, posY) && InGrid(board.View(), toX, toY)
      modifies this, board, board.tiles
      ensures board.Valid()
      ensures board.View() == MoveNowGrid(old(board.View()), old(posX), old(posY), toX, toY, isWhite)
      ensures Value() == old(Value()).(posX := toX, posY := toY)
    {
      board.SetEmptiness(toX, toY, false);
      board.SetEmptiness(posX, posY, true);
      posX := toX;
      posY := toY;
      board.SetPieceIsWhite(toX, toY, isWhite);
    }

    /** Carries out an accepted verdict: the promotion type first, then `move_now`. */
    method Perform(v: Verdict, toX: nat, toY: nat, board: Board) returns (ok: bool)
      requires board.Valid() && InGrid(board.View(), posX, posY)
      requires v.Accept? ==> InGrid(board.View(), toX, toY)
      modifies this, board, board.tiles
      ensures board.Valid() && ok == v.Accept?
      ensures (Value(), board.View()) == AfterMove(old(Value()), old(board.View()), v, toX, toY)
    {
      if v.Reject? {
        return false;
      }
      pieceType := v.newType;
      MoveNow(toX, toY, board);
      return true;
    }

    /**
     * `move_to`. The origin must lie in the grid because an accepted move
     * writes it in `move_now`; every piece made by `Piece::new` and moved by
     * `move_now` on the same board keeps that property, so no reachable call
     * is excluded.
     */
    method MoveTo(toX: nat, toY: nat, board: Board, promotion: PieceType) returns (ok: bool)
      requires board.Valid() && InGrid(board.View(), posX, posY)
      requires InBounds(board.View(), toX, toY) || DispatchSafe(Value(), board.View(), toX, toY)
      modifies this, board, board.tiles
      ensures board.Valid()
      ensures ok == MoveToVerdict(old(Value()), old(board.View()), toX, toY, promotion).Accept?
      ensures (Value(), board.View())
           == AfterMove(old(Value()), old(board.View()), MoveToVerdict(old(Value()), old(board.View()), toX, toY, promotion), toX, toY)
    {
      if board.IsValidTile(toX, toY) {
        return false;
      }
      match pieceType
      case Pawn => ok := MovePawn(toX, toY, board, promotion);
      case Rook => ok := MoveRook(toX, toY, board);
      case Knight => ok := MoveKnight(toX, toY, board);
      case Bishop => ok := MoveBishop(toX, toY, board);
      case Queen => ok := MoveQueen(toX, toY, board);
      case King => ok := MoveKing(toX, toY, board);
    }

    method MovePawn(toX: nat, toY: nat, board: Board, promotion: PieceType) returns (ok: bool)
      requires board.Valid() && InGrid(board.View(), posX, posY) && PawnSafe(Value(), board.View(), toX, toY)
      modifies this, board, board.tiles
      ensures board.Valid()
      ensures ok == PawnVerdict(old(Value()), old(board.View()), toX, toY, promotion).Accept?
      ensures (Value(), board.View())
           == AfterMove(old(Value()), old(board.View()), PawnVerdict(old(Value()), old(board.View()), toX, toY, promotion), toX, toY)
    {
      var v := DecidePawn(Value(), board, toX, toY, promotion);
      if v.Accept? {
        PawnMoveShapes(Value(), board.View(), toX, toY, promotion);
      }
      ok := Perform(v, toX, toY, board);
    }

    method MoveRook(toX: nat, toY: nat, board: Board) returns (ok: bool)
      requires board.Valid() && InGrid(board.View(), posX, posY) && InGrid(board.View(), toX, toY)
      modifies this, board, board.tiles
      ensures board.Valid()
      ensures ok == RookVerdict(old(Value()), old(board.View()), toX, toY).Accept?
      ensures (Value(), board.View())
           == AfterMove(old(Value()), old(board.View()), RookVerdict(old(Value()), old(board.View()), toX, toY), toX, toY)
    {
      var v := DecideRook(Value(), board, toX, toY);
      ok := Perform(v, toX, toY, board);
    }

    /** Not implemented in the source: refuses every move and changes nothing. */
    method MoveKnight(toX: nat, toY: nat, board: Board) returns (ok: bool)
      ensures !ok
    {
      ok := false;
    }

    /** Not implemented in the source: refuses every move and changes nothing. */
    method MoveBishop(toX: nat, toY: nat, board: Board) returns (ok: bool)
      ensures !ok
    {
      ok := false;
    }

    /** Not implemented in the source: refuses every move and changes nothing. */
    method MoveQueen(toX: nat, toY: nat, board: Board) returns (ok: bool)
      ensures !ok
    {
      ok := false;
    }

    /** Not implemented in the source: refuses every move and changes nothing. */
    method MoveKing(toX: nat, toY: nat, board: Board) returns (ok: bool)
      ensures !ok
    {
      ok := false;
    }
  }
}
