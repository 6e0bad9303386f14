/**
 * The board of chackad/src/board.rs: a rectangular grid of tiles that records,
 * per square, whether it is empty, the colour of its occupant and whether it
 * still holds its original piece.
 *
 * The grid is built as `sizeY` rows of `sizeX` tiles, while every accessor
 * reads `tiles[x][y]`: the accessors therefore address row `x`, column `y`
 * (see InGrid), which is not the same rectangle as the one `is_valid_tile`
 * accepts (see InBounds) unless the board is square.
 */
module Boards {
  import opened Options

  /** Checkerboard colour of a tile. */
  datatype Color = Black | White

  /** One tile; `posX` and `posY` are the row and column it was built at. */
  datatype Tile = Tile(color: Color, posX: nat, posY: nat, isEmpty: bool, pieceIsWhite: bool, hasOrigPiece: bool)

  /** Largest dimension `Board::new` accepts. */
  const MaxSize: nat := 1_000_000

  /** The two reasons `Board::new` refuses its arguments. */
  datatype SizeError = NotPositive | TooLarge

  /** The argument checks of `Board::new`: the zero test comes before the size test. */
  function CheckSize(sizeX: nat, sizeY: nat): (r: Option<SizeError>)
    ensures r == None <==> 1 <= sizeX <= MaxSize && 1 <= sizeY <= MaxSize
    ensures r == Some(NotPositive) <==> sizeX == 0 || sizeY == 0
    ensures r == Some(TooLarge) <==> sizeX != 0 && sizeY != 0 && (sizeX > MaxSize || sizeY > MaxSize)
  {
    if sizeX == 0 || sizeY == 0 then Some(NotPositive)
    else if sizeX > MaxSize || sizeY > MaxSize then Some(TooLarge)
    else None
  }

  /** Value view of a board: its two sizes and its rows of tiles. */
  datatype Grid = Grid(sizeX: nat, sizeY: nat, cells: seq<seq<Tile>>)

  /** Checkerboard colouring used by `Board::new`. */
  function ColorAt(i: nat, j: nat): Color
  {
    if (i + j) % 2 == 0 then White else Black
  }

  /** The tile `Board::new` puts in row `i`, column `j`. */
  function InitialTile(i: nat, j: nat): Tile
  {
    Tile(ColorAt(i, j), i, j, true, false, true)
  }

  /**
   * `sizeY` rows of `sizeX` tiles, each keeping the colour and the
   * coordinates it was built with (no operation changes those).
   */
  ghost predicate WellFormed(g: Grid)
  {
    && |g.cells| == g.sizeY
    && (forall i :: 0 <= i < |g.cells| ==> |g.cells[i]| == g.sizeX)
    && (forall i, j :: 0 <= i < |g.cells| && 0 <= j < |g.cells[i]| ==>
          g.cells[i][j].color == ColorAt(i, j) && g.cells[i][j].posX == i && g.cells[i][j].posY == j)
  }

  /** The squares the accessors can address: `tiles[x][y]` exists. */
  predicate InGrid(g: Grid, x: nat, y: nat)
  {
    x < g.sizeY && y < g.sizeX
  }

  /** The squares `is_valid_tile` accepts. */
  predicate InBounds(g: Grid, x: nat, y: nat)
  {
    x < g.sizeX && y < g.sizeY
  }

  function TileAt(g: Grid, x: nat, y: nat): Tile
    requires WellFormed(g) && InGrid(g, x, y)
  {
    g.cells[x][y]
  }

  /** The board `Board::new(sizeX, sizeY)` builds. */
  function NewGrid(sizeX: nat, sizeY: nat): (g: Grid)
    ensures WellFormed(g) && g.sizeX == sizeX && g.sizeY == sizeY
  {
    Grid(sizeX, sizeY, seq(sizeY, i requires 0 <= i => seq(sizeX, j requires 0 <= j => InitialTile(i, j))))
  }

  /** Replaces the tile at row `x`, column `y` by one with the same colour and coordinates. */
  function WithTile(g: Grid, x: nat, y: nat, t: Tile): (r: Grid)
    requires WellFormed(g) && InGrid(g, x, y)
    requires t.color == g.cells[x][y].color && t.posX == x && t.posY == y
    ensures WellFormed(r) && r.sizeX == g.sizeX && r.sizeY == g.sizeY
  {
    g.(cells := g.cells[x := g.cells[x][y := t]])
  }

  /** Effect of `set_emptiness` on the board. */
  function WithEmptiness(g: Grid, x: nat, y: nat, v: bool): (r: Grid)
    requires WellFormed(g) && InGrid(g, x, y)
    ensures WellFormed(r) && r.sizeX == g.sizeX && r.sizeY == g.sizeY
  {
    WithTile(g, x, y, g.cells[x][y].(isEmpty := v))
  }

  /** Effect of `set_piece_is_white` on the board. */
  function WithPieceIsWhite(g: Grid, x: nat, y: nat, v: bool): (r: Grid)
    requires WellFormed(g) && InGrid(g, x, y)
    ensures WellFormed(r) && r.sizeX == g.sizeX && r.sizeY == g.sizeY
  {
    WithTile(g, x, y, g.cells[x][y].(pieceIsWhite := v))
  }

  /** Effect of `false_orig_piece` on the board. */
  function WithoutOrigPiece(g: Grid, x: nat, y: nat): (r: Grid)
    requires WellFormed(g) && InGrid(g, x, y)
    ensures WellFormed(r) && r.sizeX == g.sizeX && r.sizeY == g.sizeY
  {
    WithTile(g, x, y, g.cells[x][y].(hasOrigPiece := false))
  }

  /** Every tile of a new board is empty, holds no white piece, still has its original piece, and is White exactly when its coordinates add up to an even number. */
  lemma NewGridTiles(sizeX: nat, sizeY: nat, x: nat, y: nat)
    requires InGrid(NewGrid(sizeX, sizeY), x, y)
    ensures TileAt(NewGrid(sizeX, sizeY), x, y).isEmpty
    ensures !TileAt(NewGrid(sizeX, sizeY), x, y).pieceIsWhite
    ensures TileAt(NewGrid(sizeX, sizeY), x, y).hasOrigPiece
    ensures TileAt(NewGrid(sizeX, sizeY), x, y).color == White <==> (x + y) % 2 == 0
    ensures TileAt(NewGrid(sizeX, sizeY), x, y).color == Black <==> (x + y) % 2 == 1
  {
  }

  /** Neighbouring tiles, in either direction, have different colours. */
  lemma CheckerboardAlternates(g: Grid, x: nat, y: nat)
    requires WellFormed(g)
    ensures InGrid(g, x, y) && InGrid(g, x + 1, y) ==> TileAt(g, x, y).color != TileAt(g, x + 1, y).color
    ensures InGrid(g, x, y) && InGrid(g, x, y + 1) ==> TileAt(g, x, y).color != TileAt(g, x, y + 1).color
  {
  }

  /** On a square board the accessors address exactly the squares `is_valid_tile` accepts. */
  lemma SquareBoardBoundsAgree(g: Grid, x: nat, y: nat)
    requires g.sizeX == g.sizeY
    ensures InBounds(g, x, y) <==> InGrid(g, x, y)
  {
  }

  /** On a board one row high and two columns wide, `is_valid_tile(1, 0)` holds but `tiles[1]` does not exist. */
  lemma ValidTileOutsideGrid()
    ensures InBounds(NewGrid(2, 1), 1, 0) && !InGrid(NewGrid(2, 1), 1, 0)
  {
  }

  /** `set_emptiness` changes only the emptiness of the one tile it addresses; reading it back gives the written value. */
  lemma WithEmptinessEffect(g: Grid, x: nat, y: nat, v: bool, a: nat, b: nat)
    requires WellFormed(g) && InGrid(g, x, y) && InGrid(g, a, b)
    ensures TileAt(WithEmptiness(g, x, y, v), a, b)
         == if a == x && b == y then TileAt(g, a, b).(isEmpty := v) else TileAt(g, a, b)
  {
  }

  /** `set_piece_is_white` changes only the occupant colour of the one tile it addresses. */
  lemma WithPieceIsWhiteEffect(g: Grid, x: nat, y: nat, v: bool, a: nat, b: nat)
    requires WellFormed(g) && InGrid(g, x, y) && InGrid(g, a, b)
    ensures TileAt(WithPieceIsWhite(g, x, y, v), a, b)
         == if a == x && b == y then TileAt(g, a, b).(pieceIsWhite := v) else TileAt(g, a, b)
  {
  }

  /** `false_orig_piece` clears the flag of the one tile it addresses and changes nothing else. */
  lemma WithoutOrigPieceEffect(g: Grid, x: nat, y: nat, a: nat, b: nat)
    requires WellFormed(g) && InGrid(g, x, y) && InGrid(g, a, b)
    ensures !TileAt(WithoutOrigPiece(g, x, y), x, y).hasOrigPiece
    ensures TileAt(WithoutOrigPiece(g, x, y), a, b)
         == if a == x && b == y then TileAt(g, a, b).(hasOrigPiece := false) else TileAt(g, a, b)
  {
  }

  /** `Board`: the tiles live in a two-dimensional array; `cells` is its value view. */
  class Board {
    const sizeX: nat
    const sizeY: nat
    const tiles: array2<Tile>
    ghost var cells: seq<seq<Tile>>

    ghost function View(): Grid
      reads this
    {
      Grid(sizeX, sizeY, cells)
    }

    ghost predicate Valid()
      reads this, tiles
    {
      && CheckSize(sizeX, sizeY) == None
      && tiles.Length0 == sizeY && tiles.Length1 == sizeX
      && WellFormed(View())
      && forall i, j :: 0 <= i < sizeY && 0 <= j < sizeX ==> tiles[i, j] == cells[i][j]
    }

    /** The building part of `Board::new`, for arguments that pass its checks. */
    constructor (sizeX: nat, sizeY: nat)
      requires CheckSize(sizeX, sizeY) == None
      ensures Valid() && fresh(tiles)
      ensures this.sizeX == sizeX && this.sizeY == sizeY
      ensures View() == NewGrid(sizeX, sizeY)
    {
      var t := new Tile[sizeY, sizeX];
      for i := 0 to sizeY
        invariant forall a, b :: 0 <= a < i && 0 <= b < sizeX ==> t[a, b] == InitialTile(a, b)
      {
        for j := 0 to sizeX
          invariant forall a, b :: 0 <= a < i && 0 <= b < sizeX ==> t[a, b] == InitialTile(a, b)
          invariant forall b :: 0 <= b < j ==> t[i, b] == InitialTile(i, b)
        {
          var next;
          if (i + j) % 2 == 0 {
            next := Tile(White, i, j, true, false, true);
          } else {
            next := Tile(Black, i, j, true, false, true);
          }
          t[i, j] := next;
        }
      }
      this.sizeX := sizeX;
      this.sizeY := sizeY;
      tiles := t;
      cells := NewGrid(sizeX, sizeY).cells;
    }

    /** `Board::new`: refuses a zero or an oversized dimension, otherwise builds a board of fresh tiles. */
    static method New(sizeX: nat, sizeY: nat) returns (r: Result<Board, SizeError>)
      ensures r.Err? <==> CheckSize(sizeX, sizeY).Some?
      ensures r.Err? ==> r.error == CheckSize(sizeX, sizeY).value
      ensures r.Ok? ==> fresh(r.value) && fresh(r.value.tiles) && r.value.Valid()
      ensures r.Ok? ==> r.value.sizeX == sizeX && r.value.sizeY == sizeY
      ensures r.Ok? ==> r.value.View() == NewGrid(sizeX, sizeY)
    {
      var e := CheckSize(sizeX, sizeY);
      if e.Some? {
        return Err(e.value);
      }
      var b := new Board(sizeX, sizeY);
      return Ok(b);
    }

    function IsValidTile(posX: nat, posY: nat): (r: bool)
      reads this
      ensures r <==> InBounds(View(), posX, posY)
    {
      if posX >= sizeX || posY >= sizeY then false else true
    }

    function IsEmptyTile(posX: nat, posY: nat): (r: bool)
      reads this, tiles
      requires Valid() && InGrid(View(), posX, posY)
      ensures r == TileAt(View(), posX, posY).isEmpty
    {
      tiles[posX, posY].isEmpty
    }

    method SetEmptiness(posX: nat, posY: nat, toEmpty: bool)
      requires Valid() && InGrid(View(), posX, posY)
      modifies this, tiles
      ensures Valid()
      ensures View() == WithEmptiness(old(View()), posX, posY, toEmpty)
    {
      tiles[posX, posY] := tiles[posX, posY].(isEmpty := toEmpty);
      cells := WithEmptiness(View(), posX, posY, toEmpty).cells;
    }

    method SetPieceIsWhite(posX: nat, posY: nat, isWhite: bool)
      requires Valid() && InGrid(View(), posX, posY)
      modifies this, tiles
      ensures Valid()
      ensures View() == WithPieceIsWhite(old(View()), posX, posY, isWhite)
    {
      tiles[posX, posY] := tiles[posX, posY].(pieceIsWhite := isWhite);
      cells := WithPieceIsWhite(View(), posX, posY, isWhite).cells;
    }

    function IsPieceWhite(posX: nat, posY: nat): (r: bool)
      reads this, tiles
      requires Valid() && InGrid(View(), posX, posY)
      ensures r == TileAt(View(), posX, posY).pieceIsWhite
    {
      tiles[posX, posY].pieceIsWhite
    }

    method FalseOrigPiece(x: nat, y: nat)
      requires Valid() && InGrid(View(), x, y)
      modifies this, tiles
      ensures Valid()
      ensures View() == WithoutOrigPiece(old(View()), x, y)
    {
      tiles[x, y] := tiles[x, y].(hasOrigPiece := false);
      cells := WithoutOrigPiece(View(), x, y).cells;
    }

    function CheckOrig(x: nat, y: nat): (r: bool)
      reads this, tiles
      requires Valid() && InGrid(View(), x, y)
      ensures r == TileAt(View(), x, y).hasOrigPiece
    {
      tiles[x, y].hasOrigPiece
    }
  }
}
