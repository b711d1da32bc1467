/** The board of the four-bishops puzzle: a cell coordinate on the 5 x 4 grid,
    the two sides' pieces, and the 32-bit key a board is packed into.
    Rust's `u8` and `u32` are `bv8` and `bv32` here, so every shift, mask and
    OR has the source's fixed-width meaning; a Rust panic is an `Err` result. */
module FourBishops {

  /** Why a call panics. */
  datatype Panic =
    | XOutOfRange      // the file assertion of `Position::new`
    | YOutOfRange      // the rank assertion of `Position::new`
    | NarrowingFailed  // a `u32` above 255 converted to `u8`

  datatype Result<T> = Ok(value: T) | Err(panic: Panic) {
    predicate IsFailure() { Err? }

    function PropagateFailure<U>(): Result<U>
      requires Err?
    {
      Err(panic)
    }

    function Extract(): T
      requires Ok?
    {
      value
    }
  }

  // ---------------------------------------------------------------------------
  // Position
  // ---------------------------------------------------------------------------

  /** A cell: file `x` and rank `y`. */
  datatype Position = Position(x: bv8, y: bv8) {

    /** The bounds `Position::new` checks. Every position the program builds
        goes through that constructor, so every one of them is valid. */
    predicate Valid() {
      x < 5 && y < 4
    }

    /** The checked constructor: fails on the file first, then on the rank. */
    static function New(x: bv8, y: bv8): (r: Result<Position>)
      ensures r.Ok? <==> x < 5 && y < 4
      ensures r.Ok? ==> r.value.Valid() && r.value.x == x && r.value.y == y
      ensures x >= 5 ==> r == Err(XOutOfRange)
      ensures x < 5 && y >= 4 ==> r == Err(YOutOfRange)
    {
      if !(x < 5) then Err(XOutOfRange)
      else if !(y < 4) then Err(YOutOfRange)
      else Ok(Position(x, y))
    }

    /** The dense cell index `4x + y` (computed in `u8`, then widened). */
    function ToU32(): (r: bv32)
      requires Valid()
      ensures r < 20
      ensures r / 4 == x as bv32 && r % 4 == y as bv32
      ensures r % 2 == (y % 2) as bv32
    {
      (4 * x + y) as bv32
    }

    /** The inverse of `ToU32`: file `pos / 4` (narrowed to `u8`), rank `pos % 4`. */
    static function FromU32(pos: bv32): (r: Result<Position>)
      ensures r.Ok? <==> pos < 20
      ensures r.Ok? ==> r.value.Valid() && r.value.ToU32() == pos
      ensures 20 <= pos < 1024 ==> r == Err(XOutOfRange)
      ensures 1024 <= pos ==> r == Err(NarrowingFailed)
    {
      var x := pos / 4;
      if x >= 256 then Err(NarrowingFailed)
      else New(x as bv8, (pos % 4) as bv8)
    }
  }

  /** Decoding the index of a valid position gives that position back. */
  lemma PositionRoundTrip(p: Position)
    requires p.Valid()
    ensures Position.FromU32(p.ToU32()) == Ok(p)
  {
  }

  /** Two valid positions have the same index exactly when they are the same cell. */
  lemma ToU32Injective(p: Position, q: Position)
    requires p.Valid() && q.Valid()
    ensures p.ToU32() == q.ToU32() <==> p == q
  {
  }

  // ---------------------------------------------------------------------------
  // The pieces of one side, split by index parity
  // ---------------------------------------------------------------------------

  /** Every slot of `s` holds a cell of the board. */
  predicate AllValid(s: seq<Position>) {
    forall i :: 0 <= i < |s| ==> s[i].Valid()
  }

  /** Whether the index of `p` is odd (rank 1 or 3) rather than even (rank 0 or 2). */
  predicate IsOdd(p: Position)
    requires p.Valid()
  {
    p.ToU32() % 2 == 1
  }

  /** `[p]` when `p` is in the parity class `odd`, else nothing. */
  function CellOf(p: Position, odd: bool): seq<Position>
    requires p.Valid()
  {
    if IsOdd(p) == odd then [p] else []
  }

  /** The cells of `s` in the parity class `odd`, in array order. */
  function Cells(s: seq<Position>, odd: bool): (r: seq<Position>)
    requires AllValid(s)
    ensures |r| <= |s|
  {
    if s == [] then [] else Cells(s[..|s| - 1], odd) + CellOf(s[|s| - 1], odd)
  }

  /** The nibble `pos / 2` that `Board::to_u32` shifts into the accumulator of
      class `odd` for a piece on `p`, if that is its accumulator. */
  function HalfOf(p: Position, odd: bool): seq<bv32>
    requires p.Valid()
  {
    if IsOdd(p) == odd then [p.ToU32() / 2] else []
  }

  /** The nibbles fed into the accumulator of class `odd` for the pieces of
      `s`, in array order. */
  function Halves(s: seq<Position>, odd: bool): (r: seq<bv32>)
    requires AllValid(s)
    ensures |r| <= |s|
  {
    if s == [] then [] else Halves(s[..|s| - 1], odd) + HalfOf(s[|s| - 1], odd)
  }

  /** The accumulator after `acc = (acc << 4) | n` for each `n` of `ns`, from zero. */
  function Pack(ns: seq<bv32>): bv32 {
    if ns == [] then 0 else (Pack(ns[..|ns| - 1]) << 4) | ns[|ns| - 1]
  }

  /** One more piece, for `Halves`. */
  lemma HalvesStep(s: seq<Position>, i: nat, odd: bool)
    requires AllValid(s) && i < |s|
    ensures AllValid(s[..i]) && AllValid(s[..i + 1])
    ensures Halves(s[..i + 1], odd) == Halves(s[..i], odd) + HalfOf(s[i], odd)
  {
    assert s[..i + 1][..i] == s[..i];
  }

  /** Shifting one more nibble into an accumulator. */
  lemma PackStep(ns: seq<bv32>, n: bv32)
    ensures Pack(ns + [n]) == (Pack(ns) << 4) | n
  {
    assert (ns + [n])[..|ns|] == ns;
  }

  /** An iteration of a loop of `Board::to_u32` on a piece with an even index:
      its half-index goes into the even accumulator, the odd one is unchanged. */
  lemma EvenStep(s: seq<Position>, i: nat)
    requires AllValid(s) && i < |s| && s[i].ToU32() % 2 == 0
    ensures AllValid(s[..i]) && AllValid(s[..i + 1])
    ensures Pack(Halves(s[..i + 1], false)) == (Pack(Halves(s[..i], false)) << 4) | (s[i].ToU32() / 2)
    ensures Pack(Halves(s[..i + 1], true)) == Pack(Halves(s[..i], true))
  {
    HalvesStep(s, i, false);
    HalvesStep(s, i, true);
    PackStep(Halves(s[..i], false), s[i].ToU32() / 2);
    assert Halves(s[..i], true) + [] == Halves(s[..i], true);
  }

  /** An iteration of a loop of `Board::to_u32` on a piece with an odd index:
      its half-index goes into the odd accumulator, the even one is unchanged. */
  lemma OddStep(s: seq<Position>, i: nat)
    requires AllValid(s) && i < |s| && s[i].ToU32() % 2 != 0
    ensures AllValid(s[..i]) && AllValid(s[..i + 1])
    ensures Pack(Halves(s[..i + 1], true)) == (Pack(Halves(s[..i], true)) << 4) | (s[i].ToU32() / 2)
    ensures Pack(Halves(s[..i + 1], false)) == Pack(Halves(s[..i], false))
  {
    assert IsOdd(s[i]);
    HalvesStep(s, i, false);
    HalvesStep(s, i, true);
    PackStep(Halves(s[..i], true), s[i].ToU32() / 2);
    assert Halves(s[..i], false) + [] == Halves(s[..i], false);
  }

  /** One of the two loops of `Board::to_u32`: the half-index of each piece of
      `s` is shifted into the accumulator of its class, in array order. */
  method Accumulate(s: seq<Position>) returns (evenPos: bv32, oddPos: bv32)
    requires AllValid(s)
    ensures evenPos == Pack(Halves(s, false)) && oddPos == Pack(Halves(s, true))
  {
    evenPos, oddPos := 0, 0;
    for i := 0 to |s|
      invariant evenPos == Pack(Halves(s[..i], false))
      invariant oddPos == Pack(Halves(s[..i], true))
    {
      var pos := s[i].ToU32();
      if pos % 2 == 0 {
        EvenStep(s, i);
        evenPos := (evenPos << 4) | (pos / 2);
      } else {
        OddStep(s, i);
        oddPos := (oddPos << 4) | (pos / 2);
      }
    }
    assert s[..|s|] == s;
  }

  /** The cells of a four-slot side, slot by slot. */
  lemma Cells4(s: seq<Position>, odd: bool)
    requires |s| == 4 && AllValid(s)
    ensures Cells(s, odd) == CellOf(s[0], odd) + CellOf(s[1], odd) + CellOf(s[2], odd) + CellOf(s[3], odd)
  {
    assert s[..3][..2] == s[..2] && s[..2][..1] == s[..1] && s[..1][..0] == [];
    assert Cells(s[..1], odd) == CellOf(s[0], odd);
    assert Cells(s[..2], odd) == Cells(s[..1], odd) + CellOf(s[1], odd);
    assert Cells(s[..3], odd) == Cells(s[..2], odd) + CellOf(s[2], odd);
  }

  /** The nibbles of a four-slot side, slot by slot. */
  lemma Halves4(s: seq<Position>, odd: bool)
    requires |s| == 4 && AllValid(s)
    ensures Halves(s, odd) == HalfOf(s[0], odd) + HalfOf(s[1], odd) + HalfOf(s[2], odd) + HalfOf(s[3], odd)
  {
    assert s[..3][..2] == s[..2] && s[..2][..1] == s[..1] && s[..1][..0] == [];
    assert Halves(s[..1], odd) == HalfOf(s[0], odd);
    assert Halves(s[..2], odd) == Halves(s[..1], odd) + HalfOf(s[1], odd);
    assert Halves(s[..3], odd) == Halves(s[..2], odd) + HalfOf(s[2], odd);
  }

  /** `h` holds, one for one, the half-indices of the cells `c`, all of
      class `odd`; each is below 10. */
  predicate Indexed(c: seq<Position>, h: seq<bv32>, odd: bool) {
    |h| == |c| && forall i :: 0 <= i < |c| ==>
      c[i].Valid() && IsOdd(c[i]) == odd && h[i] == c[i].ToU32() / 2 && h[i] < 10
  }

  /** One more piece keeps the nibbles indexed by the cells. */
  lemma IndexedStep(c: seq<Position>, h: seq<bv32>, p: Position, odd: bool)
    requires p.Valid() && Indexed(c, h, odd)
    ensures Indexed(c + CellOf(p, odd), h + HalfOf(p, odd), odd)
  {
    if IsOdd(p) == odd {
      assert p.ToU32() / 2 < 10;
    } else {
      assert c + [] == c && h + [] == h;
    }
  }

  /** The nibbles `Halves` produces are the half-indices of the cells `Cells`
      selects, one for one; each is below 10. */
  lemma {:induction false} HalvesAreCellIndices(s: seq<Position>, odd: bool)
    requires AllValid(s)
    ensures Indexed(Cells(s, odd), Halves(s, odd), odd)
  {
    if s != [] {
      var init, last := s[..|s| - 1], s[|s| - 1];
      HalvesAreCellIndices(init, odd);
      assert Cells(s, odd) == Cells(init, odd) + CellOf(last, odd);
      assert Halves(s, odd) == Halves(init, odd) + HalfOf(last, odd);
      IndexedStep(Cells(init, odd), Halves(init, odd), last, odd);
    }
  }

  /** Splitting a side into its even-index and odd-index cells loses and adds
      no piece. */
  lemma {:induction false} CellsPartition(s: seq<Position>)
    requires AllValid(s)
    ensures multiset(Cells(s, false) + Cells(s, true)) == multiset(s)
  {
    if s != [] {
      var init, last := s[..|s| - 1], s[|s| - 1];
      CellsPartition(init);
      assert s == init + [last];
    }
  }

  /** Two nibbles shifted one after the other into an empty accumulator. */
  lemma PackPair(h: seq<bv32>)
    requires |h| == 2
    ensures Pack(h) == (h[0] << 4) | h[1]
  {
    assert h[..1][..0] == [];
    assert Pack(h[..1]) == h[0];
  }

  // ---------------------------------------------------------------------------
  // The bytes of a key
  // ---------------------------------------------------------------------------

  /** Four bytes laid out as `Board::to_u32` lays out its accumulators come
      back out of the key through the masks of `Board::from_u32`. */
  lemma LayoutBytes(a: bv32, b: bv32, c: bv32, d: bv32)
    requires a < 256 && b < 256 && c < 256 && d < 256
    ensures var key := (a << 24) | (b << 16) | (c << 8) | d;
      WhiteEvenByte(key) == a && WhiteOddByte(key) == b
      && BlackEvenByte(key) == c && BlackOddByte(key) == d
  {
  }

  /** Every key is the layout of the four bytes `Board::from_u32` cuts out of it. */
  lemma BytesLayout(key: bv32)
    ensures (WhiteEvenByte(key) << 24) | (WhiteOddByte(key) << 16)
            | (BlackEvenByte(key) << 8) | BlackOddByte(key) == key
  {
  }

  /** Two nibbles shifted into an accumulator make a byte whose high and low
      nibbles they are. */
  lemma PairNibbles(hi: bv32, lo: bv32)
    requires hi < 16 && lo < 16
    ensures (hi << 4) | lo < 256
    ensures ((hi << 4) | lo) >> 4 == hi && ((hi << 4) | lo) & 0xF == lo
  {
  }

  /** A byte is its high nibble shifted over its low nibble. */
  lemma NibblesPair(byte: bv32)
    requires byte < 256
    ensures byte >> 4 < 16 && ((byte >> 4) << 4) | (byte & 0xF) == byte
  {
  }

  /** 1 for the odd class, 0 for the even one. */
  function Bit(odd: bool): bv32 {
    if odd then 1 else 0
  }

  /** A nibble below 16 doubled, plus the class bit, is an index whose half is
      the nibble and whose parity is the bit; it is a cell of the board exactly
      when the nibble is below 10. */
  lemma IndexParts(n: bv32, odd: bool)
    requires n < 16
    ensures (n * 2 + Bit(odd)) / 2 == n && (n * 2 + Bit(odd)) % 2 == Bit(odd)
    ensures n * 2 + Bit(odd) < 20 <==> n < 10
  {
  }

  /** A cell is rebuilt from its half-index and its class. */
  lemma IndexFromHalf(p: Position, odd: bool)
    requires p.Valid() && IsOdd(p) == odd
    ensures (p.ToU32() / 2) * 2 + Bit(odd) == p.ToU32()
  {
  }

  /** The cell a key's nibble `n` stands for in a slot of class `odd`: the
      index `2 * n + Bit(odd)` has file `n / 2` and rank `2 * (n % 2) + Bit(odd)`. */
  function SlotCell(n: bv32, odd: bool): Position
    requires n < 10
  {
    Position((n >> 1) as bv8, (((n & 1) << 1) | Bit(odd)) as bv8)
  }

  /** For a nibble below 10, that cell is on the board, in class `odd`, and
      its index is `2 * n + Bit(odd)`, so its half-index is `n`. */
  lemma SlotCellIndex(n: bv32, odd: bool)
    requires n < 10
    ensures SlotCell(n, odd).Valid() && SlotCell(n, odd).ToU32() == n * 2 + Bit(odd)
    ensures IsOdd(SlotCell(n, odd)) == odd && SlotCell(n, odd).ToU32() / 2 == n
  {
    IndexParts(n, odd);
  }

  /** The side four nibbles stand for: two even-index cells, then two
      odd-index ones. */
  function SlotSide(a: bv32, b: bv32, c: bv32, d: bv32): seq<Position>
    requires a < 10 && b < 10 && c < 10 && d < 10
  {
    [SlotCell(a, false), SlotCell(b, false), SlotCell(c, true), SlotCell(d, true)]
  }

  /** The mask `Board::from_u32` cuts the bytes of a key with. */
  const Mask8Bit: bv32 := 0xFF

  /** The four bytes `Board::from_u32` cuts out of a key, from most to least
      significant: white's even-index nibbles, white's odd-index ones, then
      black's. */
  function WhiteEvenByte(key: bv32): (r: bv32)
    ensures r < 256
  {
    key >> 24
  }

  function WhiteOddByte(key: bv32): (r: bv32)
    ensures r < 256
  {
    (key & (Mask8Bit << 16)) >> 16
  }

  function BlackEvenByte(key: bv32): (r: bv32)
    ensures r < 256
  {
    (key & (Mask8Bit << 8)) >> 8
  }

  function BlackOddByte(key: bv32): (r: bv32)
    ensures r < 256
  {
    key & Mask8Bit
  }

  /** Both nibbles of an even byte and of an odd byte are half-indices of
      cells (below 10). */
  predicate SideInRange(evenByte: bv32, oddByte: bv32) {
    evenByte >> 4 < 10 && evenByte & 0xF < 10 && oddByte >> 4 < 10 && oddByte & 0xF < 10
  }

  /** The keys all eight of whose nibbles are half-indices of cells. */
  predicate KeyInRange(key: bv32) {
    SideInRange(WhiteEvenByte(key), WhiteOddByte(key)) && SideInRange(BlackEvenByte(key), BlackOddByte(key))
  }

  /** The side an even byte and an odd byte in range stand for: the cells of
      the two nibbles of the even byte, then those of the odd byte. */
  function SideOf(evenByte: bv32, oddByte: bv32): seq<Position>
    requires SideInRange(evenByte, oddByte)
  {
    SlotSide(evenByte >> 4, evenByte & 0xF, oddByte >> 4, oddByte & 0xF)
  }

  /** The board a key in range stands for: white from its two high bytes,
      black from its two low ones, the even byte of each side first. */
  function DecodedBoard(key: bv32): Board
    requires KeyInRange(key)
  {
    Board(SideOf(WhiteEvenByte(key), WhiteOddByte(key)), SideOf(BlackEvenByte(key), BlackOddByte(key)))
  }

  // ---------------------------------------------------------------------------
  // Board
  // ---------------------------------------------------------------------------

  datatype Piece = White | Black | Empty

  /** Four white and four black pieces, each side in array order. The datatype
      constructor `Board(whitePos, blackPos)` is `Board::from_pos`. */
  datatype Board = Board(whitePos: seq<Position>, blackPos: seq<Position>) {

    /** Each side is an array of four positions built by `Position::new`. */
    predicate Valid() {
      |whitePos| == 4 && |blackPos| == 4 && AllValid(whitePos) && AllValid(blackPos)
    }

    /** Each side has exactly two pieces on even-index cells (ranks 0 and 2)
        and two on odd-index cells (ranks 1 and 3): the boards whose nibbles
        fit the key's byte fields. */
    predicate Balanced()
      requires Valid()
    {
      |Cells(whitePos, false)| == 2 && |Cells(whitePos, true)| == 2
      && |Cells(blackPos, false)| == 2 && |Cells(blackPos, true)| == 2
    }

    /** The start layout: white on file 0, black on file 4, ranks 0 to 3 in order. */
    static function New(): (r: Board)
      ensures r.Valid() && r.Balanced()
      ensures r.whitePos == FileSide(0) && r.blackPos == FileSide(4)
    {
      FileSideCells(0);
      FileSideCells(4);
      Board(FileSide(0), FileSide(4))
    }

    /** Who stands on `p`; white is looked up first. */
    function PieceAt(p: Position): Piece {
      if p in whitePos then White
      else if p in blackPos then Black
      else Empty
    }

    /** `Board::get_piece`: scans white, then black, and returns on the first hit. */
    method GetPiece(givenPos: Position) returns (piece: Piece)
      ensures piece == PieceAt(givenPos)
      ensures piece == White <==> givenPos in whitePos
      ensures piece == Black <==> givenPos !in whitePos && givenPos in blackPos
      ensures piece == Empty <==> givenPos !in whitePos && givenPos !in blackPos
    {
      for i := 0 to |whitePos|
        invariant givenPos !in whitePos[..i]
      {
        if givenPos == whitePos[i] {
          return White;
        }
      }
      assert whitePos[..|whitePos|] == whitePos;
      for i := 0 to |blackPos|
        invariant givenPos !in blackPos[..i]
      {
        if givenPos == blackPos[i] {
          return Black;
        }
      }
      assert blackPos[..|blackPos|] == blackPos;
      return Empty;
    }

    /** The key: white-even byte, white-odd byte, black-even byte, black-odd
        byte, from most to least significant. */
    function Key(): bv32
      requires Valid()
    {
      (Pack(Halves(whitePos, false)) << 24) | (Pack(Halves(whitePos, true)) << 16)
      | (Pack(Halves(blackPos, false)) << 8) | Pack(Halves(blackPos, true))
    }

    /** `Board::to_u32`: each side's loop fills that side's two accumulators,
        then the four accumulators are laid out byte by byte. */
    method ToU32() returns (key: bv32)
      requires Valid()
      ensures key == Key()
    {
      var whiteEvenPos, whiteOddPos := Accumulate(whitePos);
      var blackEvenPos, blackOddPos := Accumulate(blackPos);
      key := (whiteEvenPos << 24) | (whiteOddPos << 16) | (blackEvenPos << 8) | blackOddPos;
    }

    /** `Board::from_u32`: cuts the key into its four bytes and decodes the
        white side, then the black side, each from its two bytes. Fails as
        soon as a nibble is 10 or more. */
    static function FromU32(encoded: bv32): (r: Result<Board>)
      ensures r == if KeyInRange(encoded) then Ok(DecodedBoard(encoded)) else Err(XOutOfRange)
    {
      var whiteEvenPos := WhiteEvenByte(encoded);
      var whiteOddPos := WhiteOddByte(encoded);
      var blackEvenPos := BlackEvenByte(encoded);
      var blackOddPos := BlackOddByte(encoded);

      var whitePos :- DecodeSide(whiteEvenPos, whiteOddPos);
      var blackPos :- DecodeSide(blackEvenPos, blackOddPos);
      Ok(Board(whitePos, blackPos))
    }
  }

  /** The four positions of one side that `Board::from_u32` decodes from the
      side's even byte and odd byte: two even-index cells, then two odd-index
      ones. A nibble of 10 or more is an index past the board. */
  function DecodeSide(evenPos: bv32, oddPos: bv32): (r: Result<seq<Position>>)
    requires evenPos < 256 && oddPos < 256
    ensures r == if SideInRange(evenPos, oddPos) then Ok(SideOf(evenPos, oddPos)) else Err(XOutOfRange)
  {
    var mask4bit: bv32 := 0xF;
    var p0 :- DecodeSlot(evenPos >> 4, false);
    var p1 :- DecodeSlot(evenPos & mask4bit, false);
    var p2 :- DecodeSlot(oddPos >> 4, true);
    var p3 :- DecodeSlot(oddPos & mask4bit, true);
    Ok([p0, p1, p2, p3])
  }

  /** `Position::from_u32` on the index `2 * n`, plus one for an odd slot. */
  function DecodeSlot(n: bv32, odd: bool): (r: Result<Position>)
    requires n < 16
    ensures r == if n < 10 then Ok(SlotCell(n, odd)) else Err(XOutOfRange)
  {
    IndexParts(n, odd);
    var r := Position.FromU32(n * 2 + Bit(odd));
    if r.Ok? then SlotCellIndex(n, odd); ToU32Injective(r.value, SlotCell(n, odd)); r else r
  }

  // ---------------------------------------------------------------------------
  // The start layout
  // ---------------------------------------------------------------------------

  /** One side of the start layout: four pieces on file `f`, ranks 0 to 3. */
  function FileSide(f: bv8): seq<Position> {
    [Position(f, 0), Position(f, 1), Position(f, 2), Position(f, 3)]
  }

  /** A side on one file has ranks 0 and 2 as its even-index cells and ranks
      1 and 3 as its odd-index ones. */
  lemma FileSideCells(f: bv8)
    requires f < 5
    ensures AllValid(FileSide(f))
    ensures Cells(FileSide(f), false) == [Position(f, 0), Position(f, 2)]
    ensures Cells(FileSide(f), true) == [Position(f, 1), Position(f, 3)]
  {
    Cells4(FileSide(f), false);
    Cells4(FileSide(f), true);
  }

  /** Who stands where in the start layout. */
  lemma StartOccupancy()
    ensures forall p: Position :: p.Valid() ==>
      Board.New().PieceAt(p) == (if p.x == 0 then White else if p.x == 4 then Black else Empty)
  {
    var b := Board.New();
    forall p: Position | p.Valid()
      ensures b.PieceAt(p) == (if p.x == 0 then White else if p.x == 4 then Black else Empty)
    {
      OnFileSide(p, 0);
      OnFileSide(p, 4);
    }
  }

  /** The cells of a side on file `f` are exactly the valid cells of file `f`. */
  lemma OnFileSide(p: Position, f: bv8)
    requires p.Valid()
    ensures p in FileSide(f) <==> p.x == f
  {
    if p.x == f {
      assert p == FileSide(f)[p.y];
    }
  }

  // ---------------------------------------------------------------------------
  // Properties of the key
  // ---------------------------------------------------------------------------

  /** `SlotSideCells` and `SlotSideHalves` together, as `SideOfParts` uses
      them: in the side four nibbles below 10 stand for, the even-index cells
      are the first two slots, the odd-index cells the last two, and the
      accumulators get the nibbles back in order. */
  lemma SlotSideParts(a: bv32, b: bv32, c: bv32, d: bv32)
    requires a < 10 && b < 10 && c < 10 && d < 10
    ensures var s := SlotSide(a, b, c, d);
      AllValid(s) && Cells(s, false) == s[..2] && Cells(s, true) == s[2..]
      && Halves(s, false) == [a, b] && Halves(s, true) == [c, d]
  {
    SlotSideCells(a, b, c, d);
    SlotSideHalves(a, b, c, d);
  }

  /** The side four nibbles below 10 stand for is valid, with its first two
      slots as its even-index cells and its last two as its odd-index ones. */
  lemma SlotSideCells(a: bv32, b: bv32, c: bv32, d: bv32)
    requires a < 10 && b < 10 && c < 10 && d < 10
    ensures var s := SlotSide(a, b, c, d);
      AllValid(s) && Cells(s, false) == s[..2] && Cells(s, true) == s[2..]
  {
    var s := SlotSide(a, b, c, d);
    SlotCellIndex(a, false);
    SlotCellIndex(b, false);
    SlotCellIndex(c, true);
    SlotCellIndex(d, true);
    Cells4(s, false);
    Cells4(s, true);
  }

  /** The accumulators of the side four nibbles below 10 stand for hold those
      nibbles, in order. */
  lemma SlotSideHalves(a: bv32, b: bv32, c: bv32, d: bv32)
    requires a < 10 && b < 10 && c < 10 && d < 10
    ensures var s := SlotSide(a, b, c, d);
      AllValid(s) && Halves(s, false) == [a, b] && Halves(s, true) == [c, d]
  {
    var s := SlotSide(a, b, c, d);
    SlotCellIndex(a, false);
    SlotCellIndex(b, false);
    SlotCellIndex(c, true);
    SlotCellIndex(d, true);
    Halves4(s, false);
    Halves4(s, true);
  }

  /** The side two bytes in range stand for has two cells of each class, and
      the loop of `Board::to_u32` packs it into those two bytes again. */
  lemma SideOfParts(e: bv32, o: bv32)
    requires e < 256 && o < 256 && SideInRange(e, o)
    ensures var s := SideOf(e, o);
      |s| == 4 && AllValid(s) && |Cells(s, false)| == 2 && |Cells(s, true)| == 2
      && Pack(Halves(s, false)) == e && Pack(Halves(s, true)) == o
  {
    SlotSideParts(e >> 4, e & 0xF, o >> 4, o & 0xF);
    PackedByte(e);
    PackedByte(o);
  }

  /** A byte's two nibbles, shifted into an empty accumulator one after the
      other, give the byte back. */
  lemma PackedByte(byte: bv32)
    requires byte < 256
    ensures Pack([byte >> 4, byte & 0xF]) == byte
  {
    PackPair([byte >> 4, byte & 0xF]);
    NibblesPair(byte);
  }

  /** The step of `KeyRoundTrip` stated on the board a key in range stands
      for: it is balanced, and packing it gives the key back. */
  lemma DecodedRoundTrip(key: bv32)
    requires KeyInRange(key)
    ensures DecodedBoard(key).Valid() && DecodedBoard(key).Balanced()
    ensures DecodedBoard(key).Key() == key
  {
    var a, b, c, d := WhiteEvenByte(key), WhiteOddByte(key), BlackEvenByte(key), BlackOddByte(key);
    BytesLayout(key);
    BoardOfBytes(a, b, c, d);
  }

  /** The board four bytes in range stand for is balanced, and packing it
      lays the four bytes out again. */
  lemma BoardOfBytes(a: bv32, b: bv32, c: bv32, d: bv32)
    requires a < 256 && b < 256 && c < 256 && d < 256
    requires SideInRange(a, b) && SideInRange(c, d)
    ensures var w := Board(SideOf(a, b), SideOf(c, d));
      w.Valid() && w.Balanced() && w.Key() == (a << 24) | (b << 16) | (c << 8) | d
  {
    SideOfParts(a, b);
    SideOfParts(c, d);
    BoardOfSides(SideOf(a, b), SideOf(c, d), a, b, c, d);
  }

  /** A board whose sides pack into four given bytes is balanced and has
      those bytes as its key. */
  lemma BoardOfSides(w: seq<Position>, k: seq<Position>, a: bv32, b: bv32, c: bv32, d: bv32)
    requires |w| == 4 && |k| == 4 && AllValid(w) && AllValid(k)
    requires |Cells(w, false)| == 2 && |Cells(w, true)| == 2 && |Cells(k, false)| == 2 && |Cells(k, true)| == 2
    requires Pack(Halves(w, false)) == a && Pack(Halves(w, true)) == b
    requires Pack(Halves(k, false)) == c && Pack(Halves(k, true)) == d
    ensures Board(w, k).Valid() && Board(w, k).Balanced()
    ensures Board(w, k).Key() == (a << 24) | (b << 16) | (c << 8) | d
  {
  }

  /** From a key in range, `Board::from_u32` succeeds, the board it decodes is
      balanced, and `Board::to_u32` gives the key back. */
  lemma KeyRoundTrip(key: bv32)
    requires KeyInRange(key)
    ensures Board.FromU32(key).Ok?
    ensures Board.FromU32(key).value.Valid() && Board.FromU32(key).value.Balanced()
    ensures Board.FromU32(key).value.Key() == key
  {
    DecodedRoundTrip(key);
  }

  /** In the side four nibbles stand for, slots 0 and 1 hold even-index cells
      and slots 2 and 3 odd-index ones. */
  lemma SlotSideOrder(a: bv32, b: bv32, c: bv32, d: bv32)
    requires a < 10 && b < 10 && c < 10 && d < 10
    ensures SlotParity(SlotSide(a, b, c, d))
  {
    SlotCellIndex(a, false);
    SlotCellIndex(b, false);
    SlotCellIndex(c, true);
    SlotCellIndex(d, true);
  }

  /** Slots 0 and 1 of a four-slot side are on even ranks (0 or 2), slots 2
      and 3 on odd ranks (1 or 3). */
  predicate SlotParity(s: seq<Position>) {
    |s| == 4 && s[0].y % 2 == 0 && s[1].y % 2 == 0 && s[2].y % 2 == 1 && s[3].y % 2 == 1
  }

  /** The step of `DecodeSlotOrder` stated on the board a key in range
      stands for. */
  lemma DecodedSlotOrder(key: bv32)
    requires KeyInRange(key)
    ensures SlotParity(DecodedBoard(key).whitePos) && SlotParity(DecodedBoard(key).blackPos)
  {
    var a, b, c, d := WhiteEvenByte(key), WhiteOddByte(key), BlackEvenByte(key), BlackOddByte(key);
    SideOfOrder(a, b);
    SideOfOrder(c, d);
  }

  /** The side two bytes in range stand for has even-index cells in slots 0
      and 1 and odd-index cells in slots 2 and 3. */
  lemma SideOfOrder(e: bv32, o: bv32)
    requires SideInRange(e, o)
    ensures SlotParity(SideOf(e, o))
  {
    SlotSideOrder(e >> 4, e & 0xF, o >> 4, o & 0xF);
  }

  /** Decoding puts each side's even-index (rank 0 or 2) cells in slots 0 and 1
      and its odd-index (rank 1 or 3) cells in slots 2 and 3. */
  lemma DecodeSlotOrder(key: bv32)
    requires Board.FromU32(key).Ok?
    ensures SlotParity(Board.FromU32(key).value.whitePos) && SlotParity(Board.FromU32(key).value.blackPos)
  {
    DecodedSlotOrder(key);
  }

  /** The cell a nibble stands for in a slot of a class is the one cell of
      that class with that half-index. */
  lemma SlotMatches(p: Position, n: bv32, odd: bool)
    requires p.Valid() && IsOdd(p) == odd && n < 10 && p.ToU32() / 2 == n
    ensures SlotCell(n, odd) == p
  {
    IndexFromHalf(p, odd);
    SlotCellIndex(n, odd);
    ToU32Injective(SlotCell(n, odd), p);
  }

  /** The accumulator of class `odd` of a side with two cells of that class
      is a byte whose two nibbles are below 10 and stand, in that class, for
      those two cells in array order. */
  lemma ClassSlots(s: seq<Position>, odd: bool)
    requires AllValid(s) && |Cells(s, odd)| == 2
    ensures var e := Pack(Halves(s, odd));
      e < 256 && e >> 4 < 10 && e & 0xF < 10
      && [SlotCell(e >> 4, odd), SlotCell(e & 0xF, odd)] == Cells(s, odd)
  {
    HalvesAreCellIndices(s, odd);
    var h, c := Halves(s, odd), Cells(s, odd);
    IndexedPair(c, h, odd);
    PackedNibbles(h);
  }

  /** Two nibbles below 16 shifted into an empty accumulator make a byte
      whose high and low nibbles they are. */
  lemma PackedNibbles(h: seq<bv32>)
    requires |h| == 2 && h[0] < 16 && h[1] < 16
    ensures Pack(h) < 256 && Pack(h) >> 4 == h[0] && Pack(h) & 0xF == h[1]
  {
    PackPair(h);
    PairNibbles(h[0], h[1]);
  }

  /** Two cells of class `odd` are the cells their half-indices stand for in
      that class. */
  lemma IndexedPair(c: seq<Position>, h: seq<bv32>, odd: bool)
    requires |c| == 2 && Indexed(c, h, odd)
    ensures h[0] < 10 && h[1] < 10 && [SlotCell(h[0], odd), SlotCell(h[1], odd)] == c
  {
    SlotMatches(c[0], h[0], odd);
    SlotMatches(c[1], h[1], odd);
  }

  /** Four slots are their first two followed by their last two. */
  lemma FourSlots(p0: Position, p1: Position, p2: Position, p3: Position)
    ensures [p0, p1, p2, p3] == [p0, p1] + [p2, p3]
  {
  }

  /** One side of a balanced board packs into two bytes in range, and those
      bytes stand for its even-index cells, then its odd-index cells. */
  lemma SideBytes(s: seq<Position>)
    requires AllValid(s) && |Cells(s, false)| == 2 && |Cells(s, true)| == 2
    ensures var e, o := Pack(Halves(s, false)), Pack(Halves(s, true));
      e < 256 && o < 256 && SideInRange(e, o)
      && SideOf(e, o) == Cells(s, false) + Cells(s, true)
  {
    ClassSlots(s, false);
    ClassSlots(s, true);
    SideOfPairs(Pack(Halves(s, false)), Pack(Halves(s, true)), Cells(s, false), Cells(s, true));
  }

  /** The side two bytes in range stand for is the pair the even byte's
      nibbles stand for, then the pair the odd byte's nibbles stand for. */
  lemma SideOfPairs(e: bv32, o: bv32, evens: seq<Position>, odds: seq<Position>)
    requires SideInRange(e, o)
    requires [SlotCell(e >> 4, false), SlotCell(e & 0xF, false)] == evens
    requires [SlotCell(o >> 4, true), SlotCell(o & 0xF, true)] == odds
    ensures SideOf(e, o) == evens + odds
  {
    FourSlots(SlotCell(e >> 4, false), SlotCell(e & 0xF, false), SlotCell(o >> 4, true), SlotCell(o & 0xF, true));
  }

  /** The step of `BoardRoundTrip` before `Board::from_u32`: the key of a
      balanced board is in range and stands for the board with each side
      regrouped, even-index cells first. */
  lemma KeyDecodes(b: Board)
    requires b.Valid() && b.Balanced()
    ensures KeyInRange(b.Key())
    ensures DecodedBoard(b.Key()) == Board(
      Cells(b.whitePos, false) + Cells(b.whitePos, true),
      Cells(b.blackPos, false) + Cells(b.blackPos, true))
  {
    SidesDecode(b.Key(), b.whitePos, b.blackPos);
  }

  /** The key laid out from two sides with two cells of each class decodes
      to those sides, each regrouped with its even-index cells first. */
  lemma SidesDecode(key: bv32, w: seq<Position>, k: seq<Position>)
    requires AllValid(w) && |Cells(w, false)| == 2 && |Cells(w, true)| == 2
    requires AllValid(k) && |Cells(k, false)| == 2 && |Cells(k, true)| == 2
    requires key == (Pack(Halves(w, false)) << 24) | (Pack(Halves(w, true)) << 16)
                    | (Pack(Halves(k, false)) << 8) | Pack(Halves(k, true))
    ensures KeyInRange(key)
    ensures DecodedBoard(key) == Board(Cells(w, false) + Cells(w, true), Cells(k, false) + Cells(k, true))
  {
    SideBytes(w);
    SideBytes(k);
    LayoutDecodes(key, Pack(Halves(w, false)), Pack(Halves(w, true)),
                  Pack(Halves(k, false)), Pack(Halves(k, true)),
                  Cells(w, false) + Cells(w, true), Cells(k, false) + Cells(k, true));
  }

  /** Four bytes in range, laid out as a key, make a key in range that stands
      for the sides of its two byte pairs. */
  lemma LayoutDecodes(key: bv32, a: bv32, b: bv32, c: bv32, d: bv32, white: seq<Position>, black: seq<Position>)
    requires key == (a << 24) | (b << 16) | (c << 8) | d
    requires a < 256 && b < 256 && c < 256 && d < 256
    requires SideInRange(a, b) && SideInRange(c, d)
    requires SideOf(a, b) == white && SideOf(c, d) == black
    ensures KeyInRange(key) && DecodedBoard(key) == Board(white, black)
  {
    LayoutBytes(a, b, c, d);
  }

  /** For every balanced board, decoding the key succeeds and gives each
      side's pieces back, regrouped with the even-index cells first, so each
      side keeps the same multiset of cells. */
  lemma BoardRoundTrip(b: Board)
    requires b.Valid() && b.Balanced()
    ensures Board.FromU32(b.Key()) == Ok(Board(
      Cells(b.whitePos, false) + Cells(b.whitePos, true),
      Cells(b.blackPos, false) + Cells(b.blackPos, true)))
    ensures multiset(Board.FromU32(b.Key()).value.whitePos) == multiset(b.whitePos)
    ensures multiset(Board.FromU32(b.Key()).value.blackPos) == multiset(b.blackPos)
  {
    KeyDecodes(b);
    CellsPartition(b.whitePos);
    CellsPartition(b.blackPos);
  }

  /** Decoding a balanced board's key puts the same piece on every cell. */
  lemma OccupancyRoundTrip(b: Board)
    requires b.Valid() && b.Balanced()
    ensures Board.FromU32(b.Key()).Ok?
    ensures forall p :: Board.FromU32(b.Key()).value.PieceAt(p) == b.PieceAt(p)
  {
    BoardRoundTrip(b);
    SameOccupancy(Board.FromU32(b.Key()).value, b);
  }

  /** Two boards whose sides hold the same multisets of cells put the same
      piece on every cell. */
  lemma SameOccupancy(d: Board, b: Board)
    requires multiset(d.whitePos) == multiset(b.whitePos)
    requires multiset(d.blackPos) == multiset(b.blackPos)
    ensures forall p :: d.PieceAt(p) == b.PieceAt(p)
  {
    forall p
      ensures d.PieceAt(p) == b.PieceAt(p)
    {
      assert p in d.whitePos <==> p in multiset(d.whitePos);
      assert p in b.whitePos <==> p in multiset(b.whitePos);
      assert p in d.blackPos <==> p in multiset(d.blackPos);
      assert p in b.blackPos <==> p in multiset(b.blackPos);
    }
  }

  /** The test `new_board`: after a round trip through the key, white is still
      on file 0 and black on file 4, on every rank. */
  lemma NewBoardRoundTrip()
    ensures Board.FromU32(Board.New().Key()).Ok?
    ensures forall y: bv8 :: y < 4 ==>
      Board.FromU32(Board.New().Key()).value.PieceAt(Position(0, y)) == White
      && Board.FromU32(Board.New().Key()).value.PieceAt(Position(4, y)) == Black
  {
    OccupancyRoundTrip(Board.New());
    StartFiles(Board.FromU32(Board.New().Key()).value);
  }

  /** A board with the start layout's occupancy has white on file 0 and
      black on file 4, on every rank. */
  lemma StartFiles(d: Board)
    requires forall p :: d.PieceAt(p) == Board.New().PieceAt(p)
    ensures forall y: bv8 :: y < 4 ==> d.PieceAt(Position(0, y)) == White && d.PieceAt(Position(4, y)) == Black
  {
    StartOccupancy();
    forall y: bv8 | y < 4
      ensures d.PieceAt(Position(0, y)) == White && d.PieceAt(Position(4, y)) == Black
    {
      assert Position(0, y).Valid() && Position(4, y).Valid();
    }
  }

  /** The start layout's white side and the same side with its pieces on
      ranks 0 and 2 swapped pack their even-index cells differently. */
  lemma SwappedEvenByte(w: seq<Position>)
    requires w == [Position(0, 2), Position(0, 1), Position(0, 0), Position(0, 3)]
    ensures AllValid(w) && AllValid(FileSide(0))
    ensures Pack(Halves(w, false)) == 0x10 && Pack(Halves(FileSide(0), false)) == 0x01
  {
    Halves4(w, false);
    Halves4(FileSide(0), false);
    PackPair([1, 0]);
    PackPair([0, 1]);
  }

  /** The swapped side holds the start layout's white cells, two of each
      class. */
  lemma SwappedCells(w: seq<Position>)
    requires w == [Position(0, 2), Position(0, 1), Position(0, 0), Position(0, 3)]
    ensures AllValid(w) && multiset(w) == multiset(FileSide(0))
    ensures |Cells(w, false)| == 2 && |Cells(w, true)| == 2
  {
    SwappedClasses(w);
    SwapFirstAndThird(FileSide(0));
  }

  /** The swapped side has two cells of each class. */
  lemma SwappedClasses(w: seq<Position>)
    requires w == [Position(0, 2), Position(0, 1), Position(0, 0), Position(0, 3)]
    ensures AllValid(w) && |Cells(w, false)| == 2 && |Cells(w, true)| == 2
  {
    Cells4(w, false);
    Cells4(w, true);
  }

  /** Swapping the first and third of four positions keeps their multiset. */
  lemma SwapFirstAndThird(s: seq<Position>)
    requires |s| == 4
    ensures multiset([s[2], s[1], s[0], s[3]]) == multiset(s)
  {
    assert [s[2], s[1], s[0], s[3]] == [s[2]] + [s[1]] + [s[0]] + [s[3]];
    assert s == [s[0]] + [s[1]] + [s[2]] + [s[3]];
  }

  /** The most significant byte of a balanced board's key is its white even
      accumulator. */
  lemma KeyWhiteEvenByte(b: Board)
    requires b.Valid() && b.Balanced()
    ensures WhiteEvenByte(b.Key()) == Pack(Halves(b.whitePos, false))
  {
    ClassSlots(b.whitePos, false);
    ClassSlots(b.whitePos, true);
    ClassSlots(b.blackPos, false);
    ClassSlots(b.blackPos, true);
    LayoutBytes(Pack(Halves(b.whitePos, false)), Pack(Halves(b.whitePos, true)),
                Pack(Halves(b.blackPos, false)), Pack(Halves(b.blackPos, true)));
  }

  /** The key is not canonical: the start layout with the white pieces on
      ranks 0 and 2 swapped puts the same piece on every cell, but has
      another key. */
  lemma KeyDependsOnPieceOrder()
    ensures var b := Board.New();
            var c := Board([Position(0, 2), Position(0, 1), Position(0, 0), Position(0, 3)], b.blackPos);
            c.Valid() && c.Balanced() && (forall p :: c.PieceAt(p) == b.PieceAt(p)) && c.Key() != b.Key()
  {
    var b := Board.New();
    var w := [Position(0, 2), Position(0, 1), Position(0, 0), Position(0, 3)];
    var c := Board(w, b.blackPos);
    SwappedCells(w);
    SwappedEvenByte(w);
    KeyWhiteEvenByte(c);
    KeyWhiteEvenByte(b);
    SameOccupancy(c, b);
  }
}
