# Xiangqi move generation, modelled in Dafny

This project models the rule core of a Chinese chess (Xiangqi) program written
in Rust. It proves what each move generator returns against a declarative
statement of the move rule it implements. The program has three independent
move engines, and each is modelled in its own module.

- **The flat generator** (`Xiangqi`, from `src/xiangqi.rs`).
  - The board is an array of 90 cells indexed `row * 9 + col`.
  - Each piece type (`jiang`, `shi`, `xiang`, `ma`, `che`, `pao`, `bing`) has a function that returns the cell indices the piece at `index` may move to.
  - The scanning loops (`che`, `pao`) and the candidate loops (`shi`, `xiang`) are methods with loop invariants.
  - Every generator is proved to return exactly the cells of a rule predicate (`CheTarget`, `PaoTarget`, …).
  - `calculate_operators` dispatches on the piece type.
- **The point engine** (`Points`, `Pieces`, `Chess`, `TrackSteps`, `Track`, from `src/point.rs`, `src/piece.rs`, `src/chess.rs` and `src/track.rs`).
  - A `Point` is a column `x < 9` and a row `y < 10`, encoded as `x * 10 + y`.
  - A `ChessBoard` is a 9 × 10 grid updated in place. It is a class over an `array2` with a ghost `Contents` grid.
  - `BoardTrack` holds a board and the history of the moves made on it.
  - `get_steps` appends a piece's destinations to a caller's vector and returns how many it appended.
  - `attempt_step` checks a move against those destinations and yields a `StepTransaction`. Its `commit` records the move and updates the board.
  - The seven per-piece generators (`horse_steps` … `pawn_steps`) are methods proved against rule predicates (`HorseTarget` … `PawnTarget`).
- **The boolean move checks** (`ChessRule`, from `src/chess_rule.rs`). Given a move vector, a camp and a board, each check says whether a pawn, rook, knight or bishop move is legal.
- **The lobby's room list** (`Network`, from `src/core/network.rs`).
  - `Room::new` refuses a room in which a seated player is also a viewer, and keeps only the recognised states.
  - `NetworkInfoCache::update_or_push` replaces the first room of the same name or appends the room. It is proved to keep room names distinct and to be idempotent.

The rules are modelled as the code states them, including where they depart
from standard Xiangqi:

- The point engine's elephant has no river limit.
- Its guard is bounded only by distance 2 from the palace centre.
- Its king steps onto columns 3 to 5 within distance 2 of the palace centre, and may take the first piece up its column towards the other side when that piece is a king.
- Its pawns step along `y` towards their own back rank. `OpeningPawnDirection` states this against the opening layout.
- `chess_rule`'s bishop check has no eye test and no river test.
- The flat `jiang` is kept inside the palace only by the generator's own guards.

A check that panics in the source is a precondition here:

- `secure`;
- the type test of `get_black`;
- the `todo!()` for an empty cell in `calculate_operators`;
- the panic of `shi` off the palace points.

## Model

| member | source | states |
|---|---|---|
| Points.MakePoint | src/point.rs:13-21 | a point exists exactly when x < 9 and y < 10, and then carries those coordinates |
| Points.Point.Raw | src/point.rs:30-32 | the encoding is below 90, and division and remainder by 10 give back x and y |
| Points.RawRoundTrip | src/point.rs:13-32 | decoding a point's encoding with `point(raw / 10, raw % 10)` gives the point back |
| Points.RawInjective | src/point.rs:30-32 | two valid points with the same encoding are equal |
| Points.Point.Up | src/point.rs:36-42 | fails exactly on row 0; otherwise the same column, one row lower |
| Points.Point.Down | src/point.rs:43-49 | fails exactly on row 9; otherwise the same column, one row higher |
| Points.Point.Left | src/point.rs:50-56 | fails exactly on column 0; otherwise the same row, one column lower |
| Points.Point.Right | src/point.rs:57-63 | fails exactly on column 8; otherwise the same row, one column higher |
| Points.NeighboursValid | src/point.rs:36-63 | every neighbour of a valid point is valid |
| Points.StepsInverse | src/point.rs:36-63 | where defined, `down` undoes `up`, `up` undoes `down`, and likewise for left and right |
| Points.CampsPartition | src/point.rs:106-112 | every point is in exactly one of the red camp (y ≤ 4) and the black camp (y ≥ 5) |
| Points.Point.LeftUp | src/point.rs:117-119 | fails exactly on column 0 or row 0; otherwise one column and one row lower |
| Points.Point.RightUp | src/point.rs:121-123 | fails exactly on column 8 or row 0; otherwise one column higher and one row lower |
| Points.Point.LeftDown | src/point.rs:125-127 | fails exactly on column 0 or row 9; otherwise one column lower and one row higher |
| Points.Point.RightDown | src/point.rs:129-131 | fails exactly on column 8 or row 9; otherwise one column and one row higher |
| Points.Point.Dis | src/point.rs:135-139 | the Manhattan distance, which is 0 exactly for the same point |
| Points.DisSymmetric | src/point.rs:135-139 | the distance is symmetric |
| Pieces.PieceExist.Name | src/piece.rs:36-68 | blank exactly for the placeholder kind; the generals are 帅/将 and the pawns 兵/卒 |
| Pieces.EmptyNameIsBlank | src/piece.rs:36-68 | the placeholder kind is drawn blank for both camps |
| Pieces.CampsDrawnDifferently | src/piece.rs:36-68 | every real kind is drawn differently for Red and Black |
| Pieces.NameInjective | src/piece.rs:36-68 | over the real kinds, the character determines the kind and the camp |
| Chess.Update | src/chess.rs:19-21 | writing a cell changes that cell to the piece and leaves every other cell as it was |
| Chess.Opening | src/chess.rs:28-65 | the opening grid is cell by cell the layout rule `OpeningAt` |
| Chess.ChessBoard.constructor | src/chess.rs:28-65 | a new board holds the opening layout |
| Chess.ChessBoard.Get | src/chess.rs:16-18 | reads the board's cell at the point |
| Chess.ChessBoard.Set | src/chess.rs:19-21 | the new contents are the old with one cell updated; the written cell reads back and no other cell changes |
| Chess.OpeningRedRookCorner | src/chess.rs:28-65 | a Red rook stands on (0, 0) |
| Chess.OpeningKings | src/chess.rs:28-65 | the Red king stands exactly on (4, 0) and the Black king exactly on (4, 9) |
| Chess.OpeningMirror | src/chess.rs:28-65 | (x, y) holds a Red piece of a type exactly when (x, 9 − y) holds the Black piece of that type |
| Chess.OpeningRiverRowsEmpty | src/chess.rs:28-65 | rows 4 and 5 start empty |
| Chess.OpeningColumnCount | src/chess.rs:28-65 | per side, each column holds its back-rank piece, plus a cannon in columns 1 and 7 and a pawn in the even columns |
| Chess.OpeningPieceCount | src/chess.rs:28-65 | each side starts with 16 pieces |
| TrackSteps.HorseSteps | src/track.rs:89-188 | keeps the caller's vector as a prefix, returns the number appended, and appends exactly the L-shaped jumps with an empty leg onto a square not held by the mover's camp |
| TrackSteps.HorseJumpsComplete | src/track.rs:89-188 | the four leg-by-leg blocks together produce exactly the horse's targets |
| TrackSteps.RookSteps | src/track.rs:191-258 | appends exactly the squares on the rook's row or column with nothing between, not held by its camp; the count is the number appended |
| TrackSteps.RookRaysComplete | src/track.rs:191-258 | the four scans together produce exactly the rook's targets |
| TrackSteps.CannonSteps | src/track.rs:261-356 | appends exactly the empty squares with a clear way and the enemy pieces behind exactly one screen, along the cannon's row and column |
| TrackSteps.CannonRaysComplete | src/track.rs:261-356 | the four two-phase scans together produce exactly the cannon's targets |
| TrackSteps.ElephantSteps | src/track.rs:359-438 | appends exactly the squares two diagonal steps away over an empty eye, not held by its camp, with no river limit |
| TrackSteps.ElephantJumpsComplete | src/track.rs:359-438 | the four diagonal blocks together produce exactly the elephant's targets |
| TrackSteps.GuardSteps | src/track.rs:441-489 | appends exactly the diagonal neighbours within distance 2 of the camp's palace centre, not held by its camp |
| TrackSteps.GuardStepsComplete | src/track.rs:441-489 | the four diagonal checks together produce exactly the guard's targets |
| TrackSteps.KingSteps | src/track.rs:492-560 | appends exactly the orthogonal neighbours in columns 3 to 5 within distance 2 of the palace centre not held by its camp, plus the first piece up the column towards the other side when it is a king |
| TrackSteps.KingStepsComplete | src/track.rs:492-560 | the four step checks and the facing scan together produce exactly the king's targets |
| TrackSteps.FlyingRayMembers | src/track.rs:539-558 | the facing scan yields a square exactly when it is the first piece along the column and is a king |
| TrackSteps.PawnSteps | src/track.rs:563-600 | appends exactly the step forward (Red: y − 1, Black: y + 1) and, on the opponent's half, the steps sideways, onto squares not held by its camp |
| TrackSteps.PawnMovesComplete | src/track.rs:563-600 | the forward check and the two sideways checks produce exactly the pawn's targets |
| Track.BoardTrack.constructor | src/track.rs:36-41 | a new track holds the opening layout and an empty history |
| Track.BoardTrack.GetSteps | src/track.rs:52-75 | keeps the caller's vector as a prefix and appends exactly the destinations of the piece at `from`; an empty square appends nothing and returns 0 |
| Track.BoardTrack.AttemptStep | src/track.rs:76-85 | yields a transaction exactly when `to` is a destination of the piece at `from`; the transaction records from, to and what stood on `to` |
| Track.StepTransaction.Commit | src/track.rs:23-31 | the history gains the step at its end; the board is the old one with the mover on `to` and `from` emptied |
| Track.MovedSpec | src/track.rs:23-31 | after a commit the mover stands on `to`, `from` is empty, and every other square is unchanged |
| Track.DestinationNotOrigin | src/track.rs:52-75 | no piece's destinations include its own square |
| Track.NoOwnCapture | src/track.rs:52-75 | every destination other than a king's flying capture is empty or holds an enemy piece, for every piece kind |
| Track.OpeningPawnDirection | src/track.rs:563-600 | from the opening, each side's pawn in column 0 is offered the square towards its own back rank and not the one towards the river |
| ChessRule.RulePoint.Raw | src/chess_rule.rs:5-103 | the index row * 9 + col of a valid point is below 90 and gives back the row and the column |
| ChessRule.PawnMoveCheck | src/chess_rule.rs:5-24 | accepts exactly one step forward (Red to a lower row, Black to a higher one) or one step sideways from rows 0..4 for Red and rows 5..9 for Black |
| ChessRule.PawnSingleStep | src/chess_rule.rs:5-24 | an accepted pawn move covers a Manhattan distance of exactly 1 |
| ChessRule.RookMoveCheck | src/chess_rule.rs:26-57 | accepts exactly two distinct points on a shared row or column with no piece strictly between them |
| ChessRule.KnightMoveCheck | src/chess_rule.rs:59-86 | accepts exactly an L-shaped move whose leg, on the two-square axis next to `from`, is empty |
| ChessRule.BishopMoveCheck | src/chess_rule.rs:88-103 | accepts exactly a move of two columns and two rows |
| Xiangqi.Idx | src/xiangqi.rs:34-52 | the index of a cell is below 90 and gives back its row and column |
| Xiangqi.IdxInjective | src/xiangqi.rs:34-52 | two cells have the same index exactly when they are the same cell |
| Xiangqi.GetBlack | src/xiangqi.rs:60-67 | the returned camp is the piece's own and not the other one |
| Xiangqi.CalculateOperators | src/xiangqi.rs:34-52 | returns exactly the targets of the piece at `index` by its type; none is off the board, the origin, or held by the mover's side |
| Xiangqi.TargetIsLanding | src/xiangqi.rs:34-52 | every target is on the board, not the origin, and not held by the mover's side |
| Xiangqi.Jiang | src/xiangqi.rs:69-130 | returns exactly the orthogonal neighbours allowed by the palace bounds, not held by the mover's side |
| Xiangqi.JiangLandings | src/xiangqi.rs:69-130 | the `jiang` targets are exactly the cells its six guarded checks probe |
| Xiangqi.JiangStaysInPalace | src/xiangqi.rs:69-130 | a `jiang` in its palace stays in its palace |
| Xiangqi.CheRowIncrease | src/xiangqi.rs:551-565 | the upward row loop appends exactly the cells up to the first piece, that piece only if an enemy |
| Xiangqi.Che | src/xiangqi.rs:545-617 | returns exactly the cells on its row or column with nothing between them and no own piece on them |
| Xiangqi.CheRaysComplete | src/xiangqi.rs:545-617 | the four loops together collect exactly the `che` targets |
| Xiangqi.Pao | src/xiangqi.rs:132-256 | returns exactly the empty cells with a clear way and the enemies behind exactly one screen, along its row and column |
| Xiangqi.PaoRaysComplete | src/xiangqi.rs:132-256 | the eight loops together collect exactly the `pao` targets |
| Xiangqi.ScreenedByNeighbour | src/xiangqi.rs:132-256 | when the neighbouring cell holds a piece, a cell further on is screened exactly when the way from that piece is clear |
| Xiangqi.Bing | src/xiangqi.rs:258-329 | returns exactly the cell one row forward (to a higher row for Red, a lower one for Black) and, past its own half, the cells one column sideways, none held by its side |
| Xiangqi.BingLandings | src/xiangqi.rs:258-329 | the `bing` targets are exactly the cells its guarded checks probe |
| Xiangqi.Shi | src/xiangqi.rs:331-446 | from a palace corner or the centre, returns exactly the diagonal neighbours inside the palace that are not held by its side |
| Xiangqi.KeepLandings | src/xiangqi.rs:360-368 | the candidate loop appends exactly the candidates not held by the mover's side, in their order |
| Xiangqi.ShiTableIsDiagonal | src/xiangqi.rs:331-446 | the generator's hard-coded cell lists are exactly the diagonal palace steps |
| Xiangqi.Ma | src/xiangqi.rs:448-543 | returns exactly the knight jumps whose leg is empty, not held by its side |
| Xiangqi.MaTargetByLeg | src/xiangqi.rs:448-543 | each knight target is a jump over exactly one of the four blocks' legs |
| Xiangqi.Xiang | src/xiangqi.rs:619-696 | returns exactly the two-by-two diagonal jumps with an empty eye, where a jump towards the river lands on its own half; none is held by its side |
| Xiangqi.XiangByStep | src/xiangqi.rs:619-696 | the `xiang` targets are exactly the collected steps not held by the mover's side |
| Xiangqi.XiangStaysHome | src/xiangqi.rs:619-696 | a `xiang` on its own half stays there |
| Network.StateOf | src/core/network.rs:94-118 | keeps the state exactly when it is "play", "wait" or "talk" |
| Network.NewRoom | src/core/network.rs:94-118 | a room exists exactly when no seated player is also a viewer; it keeps the name, the seats and the viewers, and keeps the state only if recognised |
| Network.FindName | src/core/network.rs:69-77 | the index of the first room with the name, and none when no room has it |
| Network.ReplaceOrAppend | src/core/network.rs:69-77 | the room is in the result; the length is unchanged exactly when a room of that name existed, else the room is appended; the first room of that name is replaced by the room, and every other room stays put |
| Network.ReplaceOrAppendKeepsNamesDistinct | src/core/network.rs:69-77 | updating a list of distinctly named rooms keeps the names distinct |
| Network.ReplaceOrAppendIdempotent | src/core/network.rs:69-77 | repeating the same update changes nothing |
| Network.NetworkInfoCache.constructor | src/core/network.rs:60-62 | a new cache knows no players and no rooms |
| Network.NetworkInfoCache.Push | src/core/network.rs:66-68 | appends the room and leaves the players alone |
| Network.NetworkInfoCache.UpdateOrPush | src/core/network.rs:69-77 | the new room list is `ReplaceOrAppend` of the old one, and the players are unchanged |

## Left out

- The user interface (`ui.rs`, `front_end.rs`, `back_end.rs`, `home.rs`) and the network display and message handling (`NetworkDisplay::update`, `message.rs`, `server.rs`). These are I/O and rendering.
- `step.rs` is not part of this model. `Track.Step` is inferred from its uses in `track.rs` as an origin, a destination and the piece taken.
- `front_end.rs` (`Board`, `Vector`, `with_row_column`) is not part of this model. `ChessRule.RulePoint.Raw` assumes the board index is `row * 9 + col`, the layout `xiangqi.rs` uses.
- Panics become preconditions. This covers `secure` and `get_black` in `xiangqi.rs`, the `todo!()` for an empty cell in `calculate_operators`, and the unreachable arm of `shi` (its origin must be a palace corner or centre). The callers the source has never reach them.
- Xiangqi.CalculateOperators: the `shi` arm additionally requires the piece to stand on a palace corner or centre, because the source panics anywhere else.
- The `Vec` arguments become `seq` values. The methods return the extended sequence instead of pushing through a mutable reference, so aliasing of that vector is not modelled.
- Each multi-loop generator is split into one method per loop or block (`CheRowIncrease`, `PaoColDecreaseScreen`, `HorseJumpsOver`, …) run in the source's order. The result and the order of appends are the same as the source's.
- `NonZeroU128` becomes the subset type `PlayerId` (0 < id < 2^128). `NetworkInfoCache.persons` is kept as a map that these operations never change.
- `ChessBoard.Contents` is a ghost mirror of the array that states the board's meaning. Only the array is updated at run time.
