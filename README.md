# Four bishops: positions, boards and the board key

This project models the board layer of the four-bishops puzzle in Dafny
(`four_bishops.dfy`, module `FourBishops`). The puzzle uses a 5 x 4 grid with
four white and four black bishops.

- **Position.** A cell has a file `x < 5` and a rank `y < 4`. Its dense index
  is `4x + y`, and `Position::from_u32` is the inverse.
- **Board.** A board is two arrays of four positions, one per side.
  `Board::new` builds the start layout: white on file 0, black on file 4.
- **Key.** `Board::to_u32` packs a board into a 32-bit key.
  - Each piece contributes the nibble `index / 2`.
  - For each side, nibbles of even-index cells (ranks 0 and 2) go into one byte
    and those of odd-index cells (ranks 1 and 3) into another, in array order.
  - The four bytes are laid out as white-even, white-odd, black-even,
    black-odd, from most to least significant.
- **Decoding.** `Board::from_u32` cuts the key back into bytes and nibbles.
  Each side comes back as two even-index cells then two odd-index ones.
- **Lookup.** `Board::get_piece` scans white, then black.

Rust's `u8` and `u32` are `bv8` and `bv32`, so every shift, mask and OR keeps
its fixed-width meaning. A Rust panic (`assert!`, `try_into().unwrap()`) is
an `Err` carrying its reason.

`Board::to_u32` and `Board::get_piece` loop over the position arrays. They
are methods with loop invariants, proved against the functions `Key` and
`PieceAt`. Every other operation is a function.

The proved properties are:

- **Position.** The constructor accepts exactly the cells of the grid. The
  index round-trips, and decoding an index of 20 or more fails.
- **Accumulators.** Each accumulator holds the nibbles of one class of cells,
  in array order.
- **Key round trip.** A key decodes exactly when all eight of its nibbles are
  below 10. Such a key is the key of the board it decodes to.
- **Board round trip.** This needs a *balanced* board: each side has two
  even-index and two odd-index cells. Decoding its key gives each side back
  regrouped, even-index cells first. So each side keeps the same multiset of
  cells, and the same piece stands on every cell. The test `new_board` is
  the instance of this for the start layout.

The key is **not canonical**. A canonical key would depend only on the set
of cells each side occupies. The code packs nibbles in array order and never
sorts them.
`KeyDependsOnPieceOrder` exhibits two boards with the same occupancy and
different keys.

## Model

| member | source | states |
|---|---|---|
| FourBishops.Position.New | src/lib.rs:8-12 | succeeds exactly when `x < 5 && y < 4` and then keeps `x` and `y`; a file of 5 or more fails on the file check first, as in the test with `(5, 0)` |
| FourBishops.Position.ToU32 | src/lib.rs:14-16 | the index of a valid cell is below 20, its quotient by 4 is the file, its remainder the rank, and its parity the rank's parity |
| FourBishops.Position.FromU32 | src/lib.rs:18-21 | succeeds exactly for indices below 20 and then returns a valid cell whose index is the input; 20 to 1023 fail the file assertion, 1024 and above fail the narrowing to `u8` |
| FourBishops.PositionRoundTrip | src/lib.rs:14-21 | decoding the index of any valid cell gives that cell back |
| FourBishops.ToU32Injective | src/lib.rs:14-16 | two valid cells have the same index exactly when they are equal |
| FourBishops.Accumulate | src/lib.rs:59-75 | one side's loop leaves in each accumulator the nibbles of that class's cells, shifted in in array order |
| FourBishops.HalvesAreCellIndices | src/lib.rs:59-66 | the nibbles fed into an accumulator are, one for one, the halved indices of the cells of that class, each below 10 |
| FourBishops.CellsPartition | src/lib.rs:59-66 | every piece of a side goes into exactly one of the two classes: the two classes together are a permutation of the side |
| FourBishops.ClassSlots | src/lib.rs:59-66 | with two cells in a class, the accumulator is a byte whose two nibbles are below 10 and decode, in that class, to those two cells in array order |
| FourBishops.Board.ToU32 | src/lib.rs:53-79 | the key is the white-even, white-odd, black-even and black-odd accumulators laid out byte by byte |
| FourBishops.LayoutBytes | src/lib.rs:77-86 | four bytes laid out as `Board::to_u32` lays them out come back out through the shifts and masks of `Board::from_u32` |
| FourBishops.BytesLayout | src/lib.rs:82-86 | the four bytes `Board::from_u32` cuts out of any key, laid out again, give the key back |
| FourBishops.DecodeSlot | src/lib.rs:90-93 | decoding the index `2n` (plus 1 in an odd slot) succeeds exactly when the nibble `n` is below 10 and gives the cell that nibble stands for, otherwise fails the file assertion |
| FourBishops.DecodeSide | src/lib.rs:89-93 | a side decodes exactly when its four nibbles are below 10, into the cells of the even byte's nibbles then those of the odd byte's |
| FourBishops.Board.FromU32 | src/lib.rs:81-101 | a key decodes exactly when all eight nibbles are below 10, into the board its bytes stand for; otherwise it fails the file assertion |
| FourBishops.KeyRoundTrip | src/lib.rs:81-101 | from a key with all nibbles below 10, decoding succeeds, the board is balanced, and its key is the key decoded |
| FourBishops.SideBytes | src/lib.rs:59-66 | a side with two cells of each class packs into two bytes with nibbles below 10 that stand for its even-index cells followed by its odd-index ones |
| FourBishops.BoardRoundTrip | src/lib.rs:53-101 | decoding a balanced board's key succeeds and gives each side regrouped, even-index cells first, with the same multiset of cells |
| FourBishops.OccupancyRoundTrip | src/lib.rs:53-115 | after a round trip through the key of a balanced board, every cell holds the same piece as before |
| FourBishops.DecodeSlotOrder | src/lib.rs:89-99 | a decoded board has, on each side, cells on even ranks in slots 0 and 1 and cells on odd ranks in slots 2 and 3 |
| FourBishops.Board.GetPiece | src/lib.rs:103-115 | returns `White` exactly when the cell is in the white array, `Black` exactly when it is in the black array but not the white one, `Empty` otherwise |
| FourBishops.Board.New | src/lib.rs:38-47 | the start layout has white on file 0 and black on file 4, ranks 0 to 3 in order, and is balanced |
| FourBishops.StartOccupancy | src/lib.rs:38-47 | in the start layout a valid cell holds white exactly on file 0, black exactly on file 4, and is empty elsewhere |
| FourBishops.NewBoardRoundTrip | src/lib.rs:136-143 | after a round trip through the key, the start board still has white on every rank of file 0 and black on every rank of file 4 |
| FourBishops.SameOccupancy | src/lib.rs:103-115 | two boards whose sides hold the same multisets of cells give the same piece on every cell |
| FourBishops.KeyDependsOnPieceOrder | src/lib.rs:59-79 | the start layout with white's pieces on ranks 0 and 2 swapped is balanced and puts the same piece on every cell, but has another key |

## Left out

- Breadth-first search, move generation, threat bitmaps and `src/main.rs`: `src/lib.rs` does not implement them, and `src/main.rs` calls a search that is not defined there.
- `Board::from_pos` is the datatype constructor `Board(whitePos, blackPos)` and has no member of its own.
- The iterator, `collect` and array-conversion steps of `Board::new` are left out. The model keeps only the two arrays they build.
- A panic is an `Err` that records which check failed. The abort and its message are left out. `Board::from_u32` panics on the first slot that fails, in array order. Every such slot fails the same file assertion, so the model keeps only the reason.
- The derived `Clone`, `Debug` and `PartialEq` implementations are left out. Equality is the datatypes' structural equality, which is what `PartialEq` derives.
- Moves of `self` and borrowing are left out. Both `Board::to_u32` and `Board::get_piece` read the board only.
- The key of an unbalanced board is left out. `Board::to_u32` and `Board.Key` compute it with exact 32-bit semantics, as Rust does. Extra nibbles of an accumulator spill into the next byte field up and are ORed into it. Only bits shifted past bit 31 are lost. No property of such keys is proved: every round-trip lemma requires a balanced board.
- Distinctness of the eight cells is not enforced, because the code does not check it either. `GetPiece` and `PieceAt` give white precedence when a cell appears in both arrays, as the code does.
