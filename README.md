# chackad core in Dafny

A model of the chess core of `chackad`: the board of tiles (`board.rs`), the
pieces and their move routines (`piece.rs`) and the game that sets up the
standard position and collects a move map (`game.rs`). The model follows the
code as written, its quirks included, and proves what that code does.

- `options.dfy`, module `Options`: `Option` and `Result`.
- `board.dfy`, module `Boards`: `Tile`, `Color`, and the argument checks of
  `Board::new` (`CheckSize`). A value view of a board (`Grid`) with one
  function per update and small lemmas about each. `class Board` keeps the
  tiles in an `array2` and mirrors them in a ghost `cells` sequence.
- `piece.dfy`, module `Pieces`: the decision of each move routine as a pure
  function of the piece and the board (`PawnVerdict`, `RookVerdict`,
  `MoveToVerdict`). The same decisions are read-only methods on the live
  board (`DecidePawn`, `DecideRook`, `DecideMoveTo`). `class Piece` holds the
  routines that move the piece and change the board (`MoveTo`, `MovePawn`,
  `MoveRook`, `MoveNow`).
- `game.dfy`, module `Games`: the standard position, a closed form of the
  board after each placement, and the scan of `calc_all_moves`. `class Game`
  has the fields `allPieces`, `board` and `allMoves`.

Grid conventions. The source builds `size_y` rows of `size_x` tiles and reads
`tiles[pos_x][pos_y]`. So the accessors need `pos_x < size_y` and
`pos_y < size_x` (`InGrid`). `is_valid_tile` tests `pos_x < size_x` and
`pos_y < size_y` (`InBounds`). The two agree on square boards only
(`SquareBoardBoundsAgree`, `ValidTileOutsideGrid`).

Behaviour reproduced as written:
- `move_to` returns `false` when `is_valid_tile` holds. It therefore refuses
  every real square (`MoveToRefusesValidTiles`). It moves only towards
  squares outside the `is_valid_tile` bounds that the accessors can still
  index (`MoveToAcceptsOnlyInvalidTiles`, `RookLeavesValidTiles`).
- The path loops of `move_rook` run over `pos_x..to_x` in the vertical case,
  where `to_x == pos_x`, and over `pos_y..to_y` in the horizontal case,
  where `to_y == pos_y`. Both ranges are empty, so a rook ignores blockers
  (`RookIgnoresBlockers`).
- The black double step tests the target and `to_y - 1`, which is not the
  square a black pawn passes over (`BlackDoubleStepOverBlocker`).
- `Piece::new` sets only `is_empty` on its tile, never `piece_is_white`
  (`Piece.constructor` with `WithEmptinessEffect`). After the setup no tile
  says it holds a white piece (`SetupTilesMatchPieces`).
- `check_to`, called by `calc_all_moves`, is not defined in these files.
  It is modelled as the decision `move_to` would take, without side effects
  (`CheckTo`, `DecideMoveTo`). The lemmas about the scan hold for any check.
  With the decision as written, the map `calc_all_moves` builds is always
  empty (`MoveMapEmpty`).

## Model

| member | source | states |
|---|---|---|
| Boards.CheckSize | chackad/src/board.rs:29-35 | a zero dimension is refused first, then one above 1 000 000; `None` exactly when both sizes lie in 1..1 000 000 |
| Boards.NewGrid | chackad/src/board.rs:37-65 | `size_y` rows of `size_x` tiles; the tile in row `i`, column `j` has the parity colour and the coordinates `(i, j)`, and is empty, holds no white piece and still has its original piece |
| Boards.WithEmptiness | chackad/src/board.rs:87-89 | the grid with only the emptiness of tile `(x, y)` replaced; sizes and shape unchanged |
| Boards.WithPieceIsWhite | chackad/src/board.rs:91-93 | the grid with only the occupant colour of tile `(x, y)` replaced; sizes and shape unchanged |
| Boards.WithoutOrigPiece | chackad/src/board.rs:99-101 | the grid with only the original-piece flag of tile `(x, y)` cleared; sizes and shape unchanged |
| Boards.NewGridTiles | chackad/src/board.rs:39-65 | every new tile is empty, holds no white piece and still has its original piece; it is White exactly when its coordinates add up to an even number |
| Boards.CheckerboardAlternates | chackad/src/board.rs:43-61 | neighbouring tiles in either direction have different colours |
| Boards.SquareBoardBoundsAgree | chackad/src/board.rs:75-85 | on a square board, `is_valid_tile` accepts exactly the squares the accessors can index |
| Boards.ValidTileOutsideGrid | chackad/src/board.rs:75-85 | on a board 2 wide and 1 high, `is_valid_tile(1, 0)` holds but `tiles[1]` does not exist |
| Boards.WithEmptinessEffect | chackad/src/board.rs:87-89 | `set_emptiness` changes only the emptiness of the tile it addresses |
| Boards.WithPieceIsWhiteEffect | chackad/src/board.rs:91-93 | `set_piece_is_white` changes only the occupant colour of the tile it addresses |
| Boards.WithoutOrigPieceEffect | chackad/src/board.rs:99-101 | `false_orig_piece` clears that tile's flag and changes nothing else |
| Boards.Board.constructor | chackad/src/board.rs:37-72 | the nested loops fill the array with the checkerboard of fresh tiles described by `NewGrid` |
| Boards.Board.New | chackad/src/board.rs:28-73 | refuses exactly the arguments `CheckSize` rejects, with its reason; otherwise returns a fresh board of the given sizes equal to `NewGrid` |
| Boards.Board.IsValidTile | chackad/src/board.rs:75-81 | true exactly when `pos_x < size_x` and `pos_y < size_y` |
| Boards.Board.IsEmptyTile | chackad/src/board.rs:83-85 | reads the emptiness of `tiles[pos_x][pos_y]` |
| Boards.Board.SetEmptiness | chackad/src/board.rs:87-89 | the new board is the old one with that tile's emptiness replaced; validity kept |
| Boards.Board.SetPieceIsWhite | chackad/src/board.rs:91-93 | the new board is the old one with that tile's occupant colour replaced |
| Boards.Board.IsPieceWhite | chackad/src/board.rs:95-97 | reads the occupant colour of `tiles[pos_x][pos_y]` |
| Boards.Board.FalseOrigPiece | chackad/src/board.rs:99-101 | the new board is the old one with that tile's original-piece flag cleared |
| Boards.Board.CheckOrig | chackad/src/board.rs:103-105 | reads the original-piece flag of `tiles[x][y]` |
| Pieces.PawnSafe | chackad/src/piece.rs:72-149 | the conditions under which `move_pawn` runs without a `usize` underflow or an out-of-range index, taken in its short-circuit evaluation order |
| Pieces.PawnVerdict | chackad/src/piece.rs:65-153 | `move_pawn`'s decision branch for branch: refuse, or accept with the type the pawn has afterwards |
| Pieces.RookVerdict | chackad/src/piece.rs:155-189 | `move_rook`'s decision: refuse a target held by its own colour, then accept along the file or the rank when the path loop finds no occupied tile |
| Pieces.MoveToVerdict | chackad/src/piece.rs:46-64 | `move_to`'s decision: refuse when `is_valid_tile` holds, otherwise the decision of the routine for the piece's type |
| Pieces.MoveNowGrid | chackad/src/piece.rs:38-44 | the board after `move_now`: target marked occupied, origin marked empty, then the target's occupant colour set, in that order |
| Pieces.PawnMoveShapes | chackad/src/piece.rs:65-153 | an accepted pawn move goes one square ahead (straight or diagonal) or two squares straight ahead |
| Pieces.PawnTargets | chackad/src/piece.rs:65-153 | an accepted straight move lands on an empty tile; an accepted diagonal one lands on an occupied tile of the other colour |
| Pieces.PawnSingleStep | chackad/src/piece.rs:74-88 | a single step is accepted exactly onto an empty tile, and onto the last rank only with a promotion other than Pawn or King, which becomes the new type; for both colours, the black branch being lines 113-127 of the same file |
| Pieces.PawnCapture | chackad/src/piece.rs:90-97 | a diagonal step is accepted exactly onto an occupied tile whose occupant has the other colour; the type stays; for both colours, the black branch being lines 129-136 of the same file |
| Pieces.PawnDoubleStep | chackad/src/piece.rs:100-110 | a double step is accepted exactly when the target and the tile at `to_y - 1` are empty and the pawn stands on row 1 (white) or `size_y - 2` (black); for both colours, the black branch being lines 139-149 of the same file |
| Pieces.BlackDoubleStepOverBlocker | chackad/src/piece.rs:139-149 | a black pawn at (0, 6) may jump to (0, 4) although (0, 5) is occupied |
| Pieces.EmptyPathIsClear | chackad/src/piece.rs:161-169 | a path loop over an empty range inspects nothing and accepts |
| Pieces.RookIgnoresBlockers | chackad/src/piece.rs:155-189 | the rook is accepted exactly onto another square of its file or rank not held by its own colour, whatever lies between; its type stays |
| Pieces.MoveToRefusesValidTiles | chackad/src/piece.rs:53-55 | `move_to` refuses every target `is_valid_tile` accepts |
| Pieces.MoveToAcceptsOnlyInvalidTiles | chackad/src/piece.rs:46-64 | an accepted target is outside the `is_valid_tile` bounds yet indexable, and only pawns and rooks are ever accepted |
| Pieces.RookLeavesValidTiles | chackad/src/piece.rs:46-64 | on a board 2 wide and 8 high, a rook at (0, 0) is accepted to (5, 0) |
| Pieces.MoveNowEffect | chackad/src/piece.rs:38-44 | after `move_now` the target holds a piece of the mover's colour, the origin is empty, and every other field of every tile is as it was |
| Pieces.PathIsClear | chackad/src/piece.rs:161-169 | the loop returns true exactly when every square strictly after `lo` and before `hi` is empty |
| Pieces.DecidePawn | chackad/src/piece.rs:65-153 | the branches of `move_pawn` on the live board decide exactly `PawnVerdict` |
| Pieces.DecideRook | chackad/src/piece.rs:155-189 | the branches and loops of `move_rook` on the live board decide exactly `RookVerdict` |
| Pieces.DecideMoveTo | chackad/src/piece.rs:46-64 | the guard and dispatch of `move_to` decide exactly `MoveToVerdict` |
| Pieces.Piece.constructor | chackad/src/piece.rs:22-36 | marks its own tile non-empty, changes nothing else on the board, and holds the given type, position and colour |
| Pieces.Piece.MoveNow | chackad/src/piece.rs:38-44 | the board becomes `MoveNowGrid`, written in the source's order; the piece takes the new position |
| Pieces.Piece.Perform | chackad/src/piece.rs:79-84 | an accepted verdict sets the new type, then moves; a refused one changes nothing; the result says which |
| Pieces.Piece.MoveTo | chackad/src/piece.rs:46-64 | the result is `MoveToVerdict`'s acceptance, and piece and board change just as that verdict says |
| Pieces.Piece.MovePawn | chackad/src/piece.rs:65-153 | the result is `PawnVerdict`'s acceptance, and piece and board change just as that verdict says |
| Pieces.Piece.MoveRook | chackad/src/piece.rs:155-189 | the result is `RookVerdict`'s acceptance, and piece and board change just as that verdict says |
| Pieces.Piece.MoveKnight | chackad/src/piece.rs:191-194 | refuses every move |
| Pieces.Piece.MoveBishop | chackad/src/piece.rs:195-198 | refuses every move |
| Pieces.Piece.MoveQueen | chackad/src/piece.rs:199-202 | refuses every move |
| Pieces.Piece.MoveKing | chackad/src/piece.rs:203-206 | refuses every move |
| Games.Placement | chackad/src/game.rs:26-67 | the `k`-th piece the setup inserts: white pawns, white back rank, black pawns, black back rank, each from x = 0 to 7 |
| Games.StandardPieces | chackad/src/game.rs:22-67 | the set of all 32 inserted pieces |
| Games.PartialSetup | chackad/src/game.rs:22-67 | the board after the first `k` inserts: the fresh 8x8 board with the tiles under those pieces marked non-empty and nothing else changed |
| Games.SetupGrid | chackad/src/game.rs:22-67 | the board after all 32 inserts |
| Games.CheckTo | chackad/src/game.rs:75 | `check_to(i, j, board, Queen)` as `move_to`'s decision without side effects: a square passes exactly when it is inside `is_valid_tile`'s bounds and `MoveToVerdict` accepts it |
| Games.ScanMap | chackad/src/game.rs:70-80 | for any check, each scanned piece whose scan finds a square maps its own square to the last square found |
| Games.MoveMap | chackad/src/game.rs:70-80 | the scan map of the pieces on the board with `CheckTo` as the check, which is what `all_moves` holds afterwards |
| Games.PlacedOnMeans | chackad/src/game.rs:22-67 | the closed-form occupancy after `k` placements holds exactly on the squares of the first `k` pieces placed |
| Games.SetupStart | chackad/src/game.rs:23 | before any placement the board is the one `Board::new(8, 8)` builds |
| Games.SetupStep | chackad/src/game.rs:26-67 | each `Piece::new` of the setup marks exactly its own tile, and the set gains that one piece |
| Games.PlacementSquaresDiffer | chackad/src/game.rs:26-67 | different inserts of the setup use different squares |
| Games.StandardDistinctSquares | chackad/src/game.rs:22-67 | no two pieces of the standard position share a square |
| Games.StandardPiecesBySquare | chackad/src/game.rs:26-67 | a piece is in the set exactly when it is a white pawn on (i, 1), a black pawn on (i, 6), or the Rook Knight Bishop Queen King Bishop Knight Rook of x = 0..7 on row 0 (white) or row 7 (black) |
| Games.PlacedRangeSize | chackad/src/game.rs:26-67 | any run of consecutive inserts adds as many distinct pieces as it has inserts |
| Games.StandardPieceCount | chackad/src/game.rs:22-67 | the setup holds 32 pieces, 16 white and 16 black |
| Games.SetupTilesMatchPieces | chackad/src/game.rs:22-67 | after setup exactly the tiles of rows 0, 1, 6 and 7 are non-empty, and a tile is non-empty exactly when a piece stands on it; no tile says it holds a white piece, because `Piece::new` never sets the occupant colour |
| Games.LastInColumnSpec | chackad/src/game.rs:74-78 | scanning one column finds nothing exactly when no square passes, otherwise the last passing square |
| Games.LastUpToSpec | chackad/src/game.rs:73-79 | the `i` outer, `j` inner scan finds nothing exactly when no square passes, otherwise the passing square after which none passes |
| Games.ScanMapInsert | chackad/src/game.rs:72-80 | scanning one more piece adds or overwrites only that piece's own entry |
| Games.ScanMapOrigins | chackad/src/game.rs:72-78 | a piece's square is a key exactly when some square passes the check; the value is then the last passing square in row-major order |
| Games.ScanMapRange | chackad/src/game.rs:70-80 | every key is the square of some piece, every value a square (i, j) with `i < size_x`, `j < size_y` |
| Games.MoveMapEmpty | chackad/src/game.rs:70-80 | with `check_to` as `move_to`'s decision, the map is empty |
| Games.Game.ValidSquaresDistinct | chackad/src/game.rs:22-67 | in every reachable game no two pieces share a square |
| Games.Game.constructor | chackad/src/game.rs:14-20 | an 8x8 board fresh from `Board::new`, no pieces, an empty move map |
| Games.Game.Place | chackad/src/game.rs:27-28 | marks the piece's tile non-empty and adds the piece to the set |
| Games.Game.PlaceStep | chackad/src/game.rs:26-67 | after the `k`-th insert of the setup, the board and the set are those of the first `k + 1` placements |
| Games.Game.RegularChessSetup | chackad/src/game.rs:22-67 | a fresh board carrying the standard position, the set equal to the 32 standard pieces, the move map untouched |
| Games.Game.ScanPiece | chackad/src/game.rs:73-79 | the two inner loops leave the piece's entry at its last passing square, or untouched if none passes |
| Games.Game.CalcAllMoves | chackad/src/game.rs:70-80 | the map becomes the scan map of all pieces against every square of the board |

## Left out

- The GUI (window, textures, mouse coordinates in floating point, rendering) is I/O and is not modelled.
- `main.rs` and `lib.rs` are not part of this model. `main` calls `Game::start`, which these files do not define.
- Rules the code does not implement are absent: filtering moves that leave the king in check, castling, en passant, turns, move requests with capture, and the move-sync encoding.
- The knight, bishop, queen and king routines are stubs that return `false`, and are modelled as such.
- `HashSet<Piece>` is a Dafny `set` of piece values, and `HashMap` a Dafny `map`. The source cannot hash a `Piece` (it derives neither `Hash` nor `Eq`), so set semantics on the piece's fields are assumed.
- The order in which `calc_all_moves` visits the pieces is an arbitrary choice. The result does not depend on it when no two pieces share a square, which holds in every reachable game.
- Games.Game.CalcAllMoves: requires that no two pieces share a square. The map it builds is collected in a local variable and stored at the end, so intermediate contents of `all_moves` are not modelled.
- Games.Game.RegularChessSetup: the eight explicit back-rank inserts of each colour are written as a loop over `BackRank`, which makes the same calls in the same order.
- Panics are preconditions or error results. `Board::new`'s size panics are `Err` results of `Board.New`. Indexing past the end of a tile vector and `usize` underflow are excluded. The underflows are `pos_x - 1`, `pos_y - 1` and `pos_y - 2`, plus two in the black double step: `to_y - 1` when a black pawn on row 2 targets an empty `(x, 0)`, and `board.size_y - 2`. They are excluded by `requires` clauses that follow the source's evaluation order (`PawnSafe`, `DispatchSafe`, `InGrid`).
- `usize` arithmetic is unbounded in the model. Board sizes are at most 1 000 000, so the sums the source forms cannot overflow.
