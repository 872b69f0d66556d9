# Board cutting planner: a verified model of its packing engine

Slicing is a browser tool for planning how to cut rectangular pieces out of
stock boards. The user gives a board size, a number of boards and rows of
`width × height × quantity`. The tool then lays the pieces out with a greedy
two-dimensional packer that keeps a fixed clearance of 3 mm (`CUT_SPACING`)
around every piece. This project models that engine in Dafny and proves its
properties.

The model follows `script.js` stage by stage, one module per stage:

- `Rects`: the shared entities.
  - `Piece`: a piece to cut, with its run-wide `id`.
  - `Space`: a free region of a board.
  - `Placement`: an entry produced by single-board packing.
  - The `failed` filters, and the clearance constant `CutSpacing = 3`. Every
    operation takes the clearance as a `spacing` parameter.
- `CutItems`: `getCutItems`, the expansion of the cut form into a numbered
  list of pieces.
- `Overlap`: `isOverlapping` and `canPlaceRectangle`.
- `AreaSort`: the area ordering `getFreeSpaces` applies to its candidates.
  `Array.prototype.sort` is stable, so the ordering is modelled as a stable
  sort, largest area first.
- `FreeSpace`: `getFreeSpaces`, in three parts.
  - The anchor set: a `Set` of `"x,y"` strings, modelled as a duplicate-free
    sequence of integer pairs in insertion order.
  - The admissible regions.
  - The sort.
- `Packer`: `packRectangles`. Pieces are placed one at a time. Each piece is
  tried as given and then turned. It goes into the first candidate space it
  fits; if no space fits, a failure entry is parked at `(-1, -1)`.
- `Boards`: `packMultipleBoards`.
  - `floor(numBoards)` full-size passes. Only the failures of a pass are
    carried to the next.
  - One half-height pass when `numBoards` has a fractional part and pieces
    remain.
  - Failure records for whatever is left after that.
- `Scenarios`: worked examples of the whole engine.

The loops of the source are methods: `GetCutItems`, `CollectPositions`,
`AdmissibleRegions`, `PlaceRectangle`, `PackRectangles`, `PushTagged`,
`PushUnplaced` and `FullPasses`. `GetFreeSpaces`, `PartialPass` and
`PackMultipleBoards` are methods that call them. Each of these methods is
proved equal to a specification function. The source's `filter`, `map` and
`sort` calls (script.js:151-152, 159, 271, 296) are modelled as functions:
`Successes`, `Failures`, `Carry` and `SortByArea`. The properties the engine
promises are lemmas about the specification functions:

- conservation of pieces;
- board numbers and flags;
- output order;
- containment in the board;
- clearance between the pieces on one board;
- a piece only reaches a board after failing on the one before.

`numBoards` is given as `fullBoards: nat` (its whole part) and
`hasPartial: bool` (whether it has a fractional part). The caller rejects
`numBoards <= 0` (script.js:336-339), so `PackMultipleBoards` requires
`fullBoards > 0 || hasPartial`.

Two behaviours of the code are worth stating on their own:

- **Leftover pieces without a partial board.** These records get no
  `boardNumber` (script.js:185-195), whereas failures on the partial board
  carry `fullBoards + 1` (script.js:181). The model gives them
  `boardNumber == None`; `Scenarios.OversizedPiece` shows the record for a
  piece that fits no board.
- **`getFreeSpaces` after a failure.** It returns the whole board only while
  `placements` is empty (script.js:266-268), and failure entries count
  towards that length. Once any piece has been tried, the spaces come from
  the anchors: `(0, 0)` and the anchors of the placed pieces.

## Model

| member | source | states |
|---|---|---|
| `Rects.Successes` | script.js:151 | an entry is kept exactly when it is in the pass and not failed; the result is no longer than the pass |
| `Rects.Failures` | script.js:152 | an entry is kept exactly when it is in the pass and failed; the result is no longer than the pass |
| `Rects.SplitIds` | script.js:151-152 | splitting a pass into successes and failures loses and duplicates no id, and the two lengths add up to the pass length |
| `CutItems.GetCutItems` | script.js:114-135 | the nested loops over rows and quantities build exactly `Items(rows)` |
| `CutItems.ItemsCount` | script.js:127-131 | the list holds as many pieces as the quantities of the wanted rows add up to |
| `CutItems.CopiesAppend` | script.js:118-132 | the rows contribute independently and in row order |
| `CutItems.RowContribution` | script.js:127-131 | a row with a non-positive field adds nothing; a wanted row adds exactly `quantity` pieces of its size, numbered after the earlier pieces |
| `CutItems.ItemsIds` | script.js:129 | ids are `0 .. n-1` in emission order, so they are distinct |
| `CutItems.ItemsFromWanted` | script.js:127-131 | every piece has positive sides and the size of some wanted row |
| `Overlap.IsOverlapping` | script.js:308-321 | true exactly when some rectangle, grown by the spacing on all four sides, meets the box; false for an empty list |
| `Overlap.IntersectsMeaning` | script.js:311-319 | for boxes of positive extent, the test is strict intersection of the open boxes on both axes |
| `Overlap.TouchingIsClear` | script.js:316-319 | a box that only touches an edge of the grown rectangle does not overlap it |
| `Overlap.IntersectsSymmetric` | script.js:311-319 | clearance is mutual: `p` meets `q` grown by the spacing exactly when `q` meets `p` grown by it |
| `Overlap.FitInClearSpaceIsClear` | script.js:302-305 | a piece that fits (`canPlaceRectangle`) at the corner of a space that overlaps nothing overlaps nothing either |
| `AreaSort.SortByAreaCorrect` | script.js:296 | the sorted spaces are a permutation of the input, in non-increasing area, and the spaces of each area keep their input order |
| `FreeSpace.AnchorsAt` | script.js:277-281 | placed piece `k` proposes anchor `2k` just right of it and anchor `2k+1` just below it, each past the spacing |
| `FreeSpace.DedupSpec` | script.js:274-281 | the anchor set holds exactly the points added to it, each once |
| `FreeSpace.DedupExtends` | script.js:274-281 | adding points never reorders the points already in the set |
| `FreeSpace.CandidatesSpec` | script.js:283-293 | a region is a candidate exactly when it starts at an anchor that lies on the board, reaches the far edges, is non-empty and overlaps no placed piece |
| `FreeSpace.CollectPositions` | script.js:274-281 | the anchor loop yields `(0, 0)` and then the two anchors of every placed piece, without repeats, in insertion order |
| `FreeSpace.AdmissibleRegions` | script.js:283-293 | the region loop keeps, in anchor order, the region of every admissible anchor |
| `FreeSpace.GetFreeSpaces` | script.js:262-299 | an empty board yields the single whole-board space; otherwise the result is the sorted candidates |
| `FreeSpace.FreeSpacesAreCandidates` | script.js:271-296 | once a piece has been tried, a space is returned exactly when it is a candidate built from the non-failed entries |
| `FreeSpace.FreeSpacesSound` | script.js:266-293 | every returned space has a non-negative corner, reaches the board's far edges and overlaps no placed piece grown by the spacing; once a piece has been tried on the board, or whenever the board itself has positive sides, the space also starts on the board and is non-empty (with no placements the raw board is returned as is) |
| `FreeSpace.FreeSpacesComplete` | script.js:274-293 | once a piece has been tried, the returned spaces are exactly the regions of the admissible points among `(0, 0)` and the placed pieces' anchors |
| `FreeSpace.FreeSpacesOrdered` | script.js:296 | the spaces come largest area first, and spaces of equal area keep anchor insertion order |
| `Packer.FitFrom` | script.js:227-229 | the index found is the first space from `from` on that fits the piece; none is found only when no such space fits |
| `Packer.PackBoard` | script.js:205-259 | a pass has exactly one entry per piece |
| `Packer.PlaceRectangle` | script.js:211-255 | the orientation loop and the space loop, with their `placed` flag and `break`s, append exactly the entry the model prescribes for the piece |
| `Packer.PackRectangles` | script.js:205-259 | the piece loop builds exactly `PackBoard` of the pieces |
| `Packer.PackBoardAt` | script.js:209-256 | entry `i` is what placing piece `i` gives on the board holding entries `0 .. i-1` |
| `Packer.PlaceOneFacts` | script.js:214-254 | the entry has the piece's id and `originalId = i`; a failure is parked at `(-1, -1)` with the requested size; a placement is the piece as given or turned, `rotated` exactly when its width differs; the as-given orientation wins when it fits; the piece fails exactly when neither orientation fits any space |
| `Packer.PlaceOneFirstFit` | script.js:223-243 | a placed piece sits at the corner of the first free space that fits its as-placed size |
| `Packer.PlaceOneFits` | script.js:224-240 | a placed piece lies on the board and keeps clear of every piece already placed there |
| `Packer.PackBoardEntries` | script.js:209-256 | per entry: the input's id, `originalId = i`, failures parked with the unrotated size, placements as given or turned, and `rotated` exactly when the width changed (so a square is never rotated) |
| `Packer.PackBoardIds` | script.js:209-256 | the ids of the entries are the ids of the pieces, in order |
| `Packer.PackBoardChoices` | script.js:214-254 | piece `i` fails exactly when no space left by the earlier pieces fits it either way, and it is placed unrotated whenever some space fits it as given |
| `Packer.PackBoardContained` | script.js:224-240 | every placed entry lies within the board |
| `Packer.PackBoardSeparated` | script.js:224-240 | any two different placed entries of a pass keep the spacing between them |
| `Packer.EarlierIsApart` | script.js:224-240 | a placed piece keeps clear of every earlier placed piece of its pass |
| `Boards.Tag` | script.js:154-156 | each tagged record is the entry with the given board number and partial flag, in order |
| `Boards.Carry` | script.js:159-164 | each carried piece has its failure's width, height and id, in order |
| `Boards.Unplaced` | script.js:185-195 | each leftover record is parked at `(-1, -1)` with the piece's size, id and `originalId`, failed, with no board number and not partial |
| `Boards.PushTagged` | script.js:154-157 | the push loop appends exactly the tagged entries |
| `Boards.PushUnplaced` | script.js:185-195 | the push loop appends exactly the leftover records |
| `Boards.FullPasses` | script.js:147-165 | the board loop yields the records of the first `fullBoards` boards, the pieces still to place, and the failures of the last board that supply their `originalId` |
| `Boards.PartialPass` | script.js:167-183 | the half-height pass appends its placed entries tagged partial, then its failures, all numbered `fullBoards + 1` |
| `Boards.PackMultipleBoards` | script.js:138-199 | the driver returns exactly `PackAll` |
| `Boards.PackAllPartialWhen` | script.js:168-183 | some record carries board number `fullBoards + 1` exactly when `numBoards` has a fractional part and pieces are left after the full boards, so the half-height pass runs only then |
| `Boards.PassConserves` | script.js:150-164 | one pass sends each of its pieces either to the records or to the carried pieces, and never both |
| `Boards.FullRecordsConserve` | script.js:147-165 | after `k` boards, the records and the carried pieces together hold exactly the input ids |
| `Boards.PackAllConserves` | script.js:138-199 | the result has one record per input piece, and its ids are the input ids with their multiplicities |
| `Boards.FullRecordsMembers` | script.js:147-157 | a full-board record is a placed entry of its board's pass, not partial, numbered from 1 to `k` |
| `Boards.FullRecordsInOrder` | script.js:147-157 | board numbers never decrease along the full-board records |
| `Boards.UnplacedAreFailures` | script.js:185-195 | the leftover records are the parked failure entries themselves, with no board number |
| `Boards.PackAllOrigin` | script.js:147-196 | every record is a placed entry of its full board, an entry of the partial board (partial exactly when placed), or a failure of the last full board without a board number |
| `Boards.PackAllTags` | script.js:154-194 | a placed record is on board 1 to `fullBoards`, or on board `fullBoards + 1` flagged partial; a failure record is never partial and is numbered `fullBoards + 1` when there is a partial board, with no number otherwise |
| `Boards.PackAllOrdered` | script.js:147-196 | the placed records come board by board in non-decreasing board order, and every failure comes after all of them |
| `Boards.PackAllContained` | script.js:147-177 | every placed piece lies within its board: full height, or `floor(boardHeight / 2)` on the partial board |
| `Boards.PackAllSeparated` | script.js:147-177 | two different placed pieces on the same board keep the spacing between them |
| `Boards.PackAllCarried` | script.js:158-170 | a record of board `b >= 2` failed on board `b - 1`, and a leftover without a board number failed on the last full board |
| `Scenarios.SinglePiece` | script.js:138-199 | one `400 × 300` piece on one `1000 × 500` board is placed as given at `(0, 0)` on board 1 |
| `Scenarios.OversizedPiece` | script.js:183-195 | a `150 × 50` piece fits a `100 × 100` board in neither orientation and, with no partial board, is left over without a board number |
| `Scenarios.FilledBoardHasNoSpace` | script.js:262-299 | a piece covering the whole board leaves no free space |
| `Scenarios.FullBoardThenFailure` | script.js:209-256 | after a piece fills the board, the next piece fails, with `originalId` its index in the pass |
| `Scenarios.PieceOnHalfBoard` | script.js:168-170 | a `400 × 200` piece fits the corner of the empty `1000 × 250` board |
| `Scenarios.OverflowToPartialBoard` | script.js:138-199 | with `numBoards = 1.5`, the piece that misses board 1 goes to board 2 flagged partial; its `id` is kept and its `originalId` restarts at 0 |

## Left out

- DOM reads and parsing: `querySelector` and `parseInt(...) || 0` in `getCutItems` (script.js:116-125) and the form reads in `calculateCutting`. A `CutRow` holds three already-parsed integers, where a field that does not parse reads as 0.
- Input validation in `calculateCutting` (script.js:331-344): the `alert` paths are user interface. The guard `numBoards <= 0` appears only as the precondition of `PackMultipleBoards`.
- `numBoards` as a float: it is taken as its whole part and a flag for a fractional part, the two values `Math.floor(numBoards)` and `numBoards % 1 !== 0` that the driver uses.
- Statistics and rendering (`calculateCutting`'s utilisation figures, `displayResults`, the canvas drawing and `calculateWaste`): floating-point arithmetic and HTML output. `calculateWaste` is never called.
- Clipboard paste and grid editing (script.js:6-111): event handling only.
- The global `placements` variable (script.js:2, 347): the engine returns its result instead.
- The string encoding of anchors (`"x,y"` and `split(',').map(Number)`): anchors are integer pairs. The encoding round-trips every integer, so the set's membership and its order are kept.
- JavaScript number precision: integers are unbounded, whereas the source is exact only up to 2^53.
- `usedRectangles` in `packRectangles`: it is filled but never read, so it has no effect on the result.
- The `rotated` field of failure entries and the `isPartial` field outside the partial board: the source leaves them undefined, and the model stores them as `false`.
- `originalId` of carried pieces: `Carry` keeps only width, height and id. `packRectangles` never reads a piece's `originalId`; it reassigns `originalId` to the index within the pass. The leftover records take `originalId` from the failure entries the carried pieces were built from, which hold the same value.
- `Packer.PackBoard`: its own contract states only the length; what each entry is comes from `Packer.PackBoardEntries`, `Packer.PackBoardChoices` and the other lemmas beside it.
