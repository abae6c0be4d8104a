/** The slot of a key: CRC-32 by table against CRC-32 bit by bit.

The reference is the reflected CRC of section 8 of RFC 1952, fed one message bit
at a time, least significant first.
*/
module KeyHash {

  type Word = bv32
  type Byte = bv8

  const POLYNOMIAL: Word := 0xEDB8_8320
  const ALL_ONES: Word := 0xFFFF_FFFF
  const SLOT_COUNT: int := 0x4000

  function Xor(a: Word, b: Word): Word {
    a ^ b
  }

  function Half(c: Word): Word {
    c >> 1
  }

  predicate Odd(c: Word) {
    c & 1 == 1
  }

  function Down(c: Word): Word {
    c >> 8
  }

  function Low(c: Word): Byte {
    (c & 0xFF) as Byte
  }

  function Widen(b: Byte): Word {
    b as Word
  }

  function Mix(a: Byte, b: Byte): Byte {
    a ^ b
  }

  predicate Bit(b: Byte, i: nat)
    requires i < 8
  {
    (b >> i) & 1 == 1
  }

  // ------------------------------------------------------------------
  // Bit by bit.

  /** Clock the register once with one message bit. */
  function Feed(c: Word, bit: bool): Word {
    if Odd(c) != bit then Xor(Half(c), POLYNOMIAL) else Half(c)
  }

  /** The message as bits. */
  function Bits(key: seq<Byte>): seq<bool> {
    if key == [] then []
    else
      var b := key[|key| - 1];
      Bits(key[..|key| - 1]) + [Bit(b, 0), Bit(b, 1), Bit(b, 2), Bit(b, 3), Bit(b, 4), Bit(b, 5), Bit(b, 6), Bit(b, 7)]
  }

  function FeedAll(c: Word, bits: seq<bool>): Word {
    if bits == [] then c else Feed(FeedAll(c, bits[..|bits| - 1]), bits[|bits| - 1])
  }

  /** CRC-32 of a message. */
  function Crc32(key: seq<Byte>): Word {
    Xor(FeedAll(ALL_ONES, Bits(key)), ALL_ONES)
  }

  // ------------------------------------------------------------------
  // By table.

  /** Clock the register once with no input. */
  function Shift(c: Word): Word {
    if Odd(c) then Xor(Half(c), POLYNOMIAL) else Half(c)
  }

  /** Eight clocks with no input. */
  function Shift8(c: Word): Word {
    Shift(Shift(Shift(Shift(Shift(Shift(Shift(Shift(c))))))))
  }

  /** Eight message bits. */
  function Feed8(c: Word, b: Byte): Word {
    Feed(Feed(Feed(Feed(Feed(Feed(Feed(Feed(
      c, Bit(b, 0)), Bit(b, 1)), Bit(b, 2)), Bit(b, 3)), Bit(b, 4)), Bit(b, 5)), Bit(b, 6)), Bit(b, 7))
  }

  /** The 256 entries of the table: eight clocks of every byte. */
  ghost predicate IsTable(table: seq<Word>) {
    |table| == 256 && forall b: Byte :: table[b as int] == Shift8(Widen(b))
  }

  function Lookup(table: seq<Word>, b: Byte): Word
    requires |table| == 256
  {
    table[b as int]
  }

  // ------------------------------------------------------------------
  // Clocking is linear, so a byte can be folded in at once.

  lemma XorHalves(a: Word, b: Word)
    ensures Half(Xor(a, b)) == Xor(Half(a), Half(b))
  {
  }

  lemma XorOdd(a: Word, b: Word)
    ensures Odd(Xor(a, b)) <==> (Odd(a) != Odd(b))
  {
    assert (a ^ b) & 1 == (a & 1) ^ (b & 1);
  }

  lemma XorCommutes(a: Word, b: Word)
    ensures Xor(a, b) == Xor(b, a)
  {
  }

  lemma XorAssociates(a: Word, b: Word, c: Word)
    ensures Xor(Xor(a, b), c) == Xor(a, Xor(b, c))
  {
  }

  lemma XorFold(x: Word, y: Word, p: Word)
    ensures Xor(Xor(x, p), y) == Xor(Xor(x, y), p)
  {
    hide Xor;
    XorAssociates(x, p, y);
    XorCommutes(p, y);
    XorAssociates(x, y, p);
  }

  /** Clocking a register into which `w` is folded feeds it w's low bit, and leaves the rest of `w` folded in. */
  lemma FeedFolded(f: Word, w: Word, bit: bool)
    requires bit <==> Odd(w)
    ensures Shift(Xor(f, w)) == Xor(Feed(f, bit), Half(w))
  {
    hide Xor, Half, Odd;
    XorHalves(f, w);
    XorOdd(f, w);
    XorFold(Half(f), Half(w), POLYNOMIAL);
  }

  /** A word with a zero low end only moves down. */
  lemma ShiftFolded(x: Word, h: Word)
    requires !Odd(h)
    ensures Shift(Xor(x, h)) == Xor(Shift(x), Half(h))
  {
    hide Xor, Half, Odd;
    XorHalves(x, h);
    XorOdd(x, h);
    XorFold(Half(x), Half(h), POLYNOMIAL);
  }

  lemma XorZero(f: Word)
    ensures Xor(f, 0) == f
  {
  }

  /** The bits of a byte, as they reach the low end of the widened word. */
  lemma WidenedBits(b: Byte)
    returns (w1: Word, w2: Word, w3: Word, w4: Word, w5: Word, w6: Word, w7: Word)
    ensures w1 == Half(Widen(b)) && w2 == Half(w1) && w3 == Half(w2) && w4 == Half(w3)
    ensures w5 == Half(w4) && w6 == Half(w5) && w7 == Half(w6) && Half(w7) == 0
    ensures (Bit(b, 0) <==> Odd(Widen(b))) && (Bit(b, 1) <==> Odd(w1)) && (Bit(b, 2) <==> Odd(w2))
    ensures (Bit(b, 3) <==> Odd(w3)) && (Bit(b, 4) <==> Odd(w4)) && (Bit(b, 5) <==> Odd(w5))
    ensures (Bit(b, 6) <==> Odd(w6)) && (Bit(b, 7) <==> Odd(w7))
  {
    var w := Widen(b);
    w1, w2, w3, w4, w5, w6, w7 := w >> 1, w >> 2, w >> 3, w >> 4, w >> 5, w >> 6, w >> 7;
  }

  /** Feeding a byte bit by bit is folding it in and clocking eight times. */
  lemma Feed8Folds(c: Word, b: Byte)
    ensures Shift8(Xor(c, Widen(b))) == Feed8(c, b)
  {
    hide Shift, Feed, Bit, Widen, Xor, Half, Odd;
    var w1, w2, w3, w4, w5, w6, w7 := WidenedBits(b);
    var f1 := Feed(c, Bit(b, 0));
    var f2 := Feed(f1, Bit(b, 1));
    var f3 := Feed(f2, Bit(b, 2));
    var f4 := Feed(f3, Bit(b, 3));
    var f5 := Feed(f4, Bit(b, 4));
    var f6 := Feed(f5, Bit(b, 5));
    var f7 := Feed(f6, Bit(b, 6));
    FeedFolded(c, Widen(b), Bit(b, 0));
    FeedFolded(f1, w1, Bit(b, 1));
    FeedFolded(f2, w2, Bit(b, 2));
    FeedFolded(f3, w3, Bit(b, 3));
    FeedFolded(f4, w4, Bit(b, 4));
    FeedFolded(f5, w5, Bit(b, 5));
    FeedFolded(f6, w6, Bit(b, 6));
    FeedFolded(f7, w7, Bit(b, 7));
    XorZero(Feed(f7, Bit(b, 7)));
  }

  lemma HighPart(c: Word, h: Word)
    requires h == c & 0xFFFF_FF00
    ensures c == Xor(Widen(Low(c)), h)
  {
  }

  lemma HighEven(c: Word, h: Word)
    requires h == c & 0xFFFF_FF00
    ensures !Odd(h) && !Odd(h >> 1) && !Odd(h >> 2) && !Odd(h >> 3)
    ensures !Odd(h >> 4) && !Odd(h >> 5) && !Odd(h >> 6) && !Odd(h >> 7)
    ensures h >> 8 == Down(c)
  {
  }

  lemma Halves(h: Word)
    ensures Half(h) == h >> 1 && Half(h >> 1) == h >> 2 && Half(h >> 2) == h >> 3 && Half(h >> 3) == h >> 4
    ensures Half(h >> 4) == h >> 5 && Half(h >> 5) == h >> 6 && Half(h >> 6) == h >> 7 && Half(h >> 7) == h >> 8
  {
  }

  /** Eight clocks depend on the low byte alone, and move the rest down. */
  lemma Shift8Splits(c: Word)
    ensures Shift8(c) == Xor(Shift8(Widen(Low(c))), Down(c))
  {
    var h := c & 0xFFFF_FF00;
    HighPart(c, h);
    HighEven(c, h);
    Halves(h);
    var h1, h2, h3, h4, h5, h6, h7 := h >> 1, h >> 2, h >> 3, h >> 4, h >> 5, h >> 6, h >> 7;
    hide Shift, Xor, Half, Odd, Down, Low, Widen;
    var y := Widen(Low(c));
    var y1 := Shift(y);
    var y2 := Shift(y1);
    var y3 := Shift(y2);
    var y4 := Shift(y3);
    var y5 := Shift(y4);
    var y6 := Shift(y5);
    var y7 := Shift(y6);
    ShiftFolded(y, h);
    ShiftFolded(y1, h1);
    ShiftFolded(y2, h2);
    ShiftFolded(y3, h3);
    ShiftFolded(y4, h4);
    ShiftFolded(y5, h5);
    ShiftFolded(y6, h6);
    ShiftFolded(y7, h7);
  }

  lemma LowFolds(c: Word, b: Byte)
    ensures Low(Xor(c, Widen(b))) == Mix(Low(c), b)
    ensures Down(Xor(c, Widen(b))) == Down(c)
  {
  }

  /** One byte by table is eight bits by the register. */
  lemma TableStep(table: seq<Word>, c: Word, b: Byte)
    requires IsTable(table)
    ensures Xor(Lookup(table, Mix(Low(c), b)), Down(c)) == Feed8(c, b)
  {
    hide Shift8, Feed8, Low, Widen, Xor, Down, Mix;
    Feed8Folds(c, b);
    Shift8Splits(Xor(c, Widen(b)));
    LowFolds(c, b);
    var i := Mix(Low(c), b);
    assert table[i as int] == Shift8(Widen(i));
  }

  // ------------------------------------------------------------------
  // Messages.

  lemma {:induction false} FeedAllAppend(c: Word, bits: seq<bool>, bit: bool)
    ensures FeedAll(c, bits + [bit]) == Feed(FeedAll(c, bits), bit)
  {
    hide Feed;
    assert (bits + [bit])[..|bits|] == bits;
  }

  lemma {:induction false} FeedAllPair(c: Word, a: seq<bool>, x: bool, y: bool)
    ensures FeedAll(c, a + [x, y]) == Feed(Feed(FeedAll(c, a), x), y)
  {
    hide Feed;
    assert a + [x, y] == (a + [x]) + [y];
    FeedAllAppend(c, a, x);
    FeedAllAppend(c, a + [x], y);
  }

  lemma {:induction false} FeedAllFour(c: Word, a: seq<bool>, w: bool, x: bool, y: bool, z: bool)
    ensures FeedAll(c, a + [w, x, y, z]) == Feed(Feed(Feed(Feed(FeedAll(c, a), w), x), y), z)
  {
    hide Feed;
    assert a + [w, x, y, z] == (a + [w, x]) + [y, z];
    FeedAllPair(c, a, w, x);
    FeedAllPair(c, a + [w, x], y, z);
  }

  lemma {:induction false} FeedAllByte(c: Word, a: seq<bool>, b: Byte, all: seq<bool>)
    requires all == a + [Bit(b, 0), Bit(b, 1), Bit(b, 2), Bit(b, 3), Bit(b, 4), Bit(b, 5), Bit(b, 6), Bit(b, 7)]
    ensures FeedAll(c, all) == Feed8(FeedAll(c, a), b)
  {
    hide Feed, Bit;
    var a4 := a + [Bit(b, 0), Bit(b, 1), Bit(b, 2), Bit(b, 3)];
    assert all == a4 + [Bit(b, 4), Bit(b, 5), Bit(b, 6), Bit(b, 7)];
    FeedAllFour(c, a, Bit(b, 0), Bit(b, 1), Bit(b, 2), Bit(b, 3));
    FeedAllFour(c, a4, Bit(b, 4), Bit(b, 5), Bit(b, 6), Bit(b, 7));
  }

  lemma {:induction false} ByteMore(c: Word, key: seq<Byte>, i: nat)
    requires i < |key|
    ensures FeedAll(c, Bits(key[..i + 1])) == Feed8(FeedAll(c, Bits(key[..i])), key[i])
  {
    hide Feed8, Bit, Feed;
    assert key[..i + 1][..i] == key[..i];
    FeedAllByte(c, Bits(key[..i]), key[i], Bits(key[..i + 1]));
  }

  lemma Complement(c: Word)
    ensures !c == Xor(c, ALL_ONES)
  {
  }

  /** The slot of a key is its CRC-32 reduced to the slot space. */
  method SlotForKey(key: seq<Byte>, table: seq<Word>) returns (slot: nat)
    requires IsTable(table)
    ensures slot == Crc32(key) as int % SLOT_COUNT && slot < 16384
  {
    assert |table| == 256;
    hide Feed8, Low, IsTable, Lookup, Feed, Xor, Down, Mix;
    var crc: Word := ALL_ONES;
    var i := 0;
    assert Bits(key[..0]) == [];
    while i < |key|
      invariant 0 <= i <= |key|
      invariant crc == FeedAll(ALL_ONES, Bits(key[..i]))
    {
      TableStep(table, crc, key[i]);
      ByteMore(ALL_ONES, key, i);
      crc := Xor(Lookup(table, Mix(Low(crc), key[i])), Down(crc));
      i := i + 1;
    }
    assert key[..i] == key;
    Complement(crc);
    slot := !crc as int % SLOT_COUNT;
  }

  // ------------------------------------------------------------------
  // Which CRC it is.

  /** The bytes of "123456789", and the register after each of them. */
  const CHECK: seq<Byte> := [0x31, 0x32, 0x33, 0x34, 0x35, 0x36, 0x37, 0x38, 0x39]

  const REGISTER: seq<Word> := [
    0xFFFF_FFFF, 0x7C23_1048, 0xB0AC_BB32, 0x77B7_9C2D, 0x641C_1F5C,
    0x340A_C5E3, 0xF68D_2C9E, 0xAFFC_9660, 0x651F_2550, 0x340B_C6D9
  ]

  lemma CheckFirst()
    ensures Feed8(0xFFFF_FFFF, 0x31) == 0x7C23_1048
    ensures Feed8(0x7C23_1048, 0x32) == 0xB0AC_BB32
    ensures Feed8(0xB0AC_BB32, 0x33) == 0x77B7_9C2D
  {
    Feed8Folds(0xFFFF_FFFF, 0x31);
    Feed8Folds(0x7C23_1048, 0x32);
    Feed8Folds(0xB0AC_BB32, 0x33);
    hide Feed8, Feed, Bit;
  }

  lemma CheckMiddle()
    ensures Feed8(0x77B7_9C2D, 0x34) == 0x641C_1F5C
    ensures Feed8(0x641C_1F5C, 0x35) == 0x340A_C5E3
    ensures Feed8(0x340A_C5E3, 0x36) == 0xF68D_2C9E
  {
    Feed8Folds(0x77B7_9C2D, 0x34);
    Feed8Folds(0x641C_1F5C, 0x35);
    Feed8Folds(0x340A_C5E3, 0x36);
    hide Feed8, Feed, Bit;
  }

  lemma CheckLast()
    ensures Feed8(0xF68D_2C9E, 0x37) == 0xAFFC_9660
    ensures Feed8(0xAFFC_9660, 0x38) == 0x651F_2550
    ensures Feed8(0x651F_2550, 0x39) == 0x340B_C6D9
  {
    Feed8Folds(0xF68D_2C9E, 0x37);
    Feed8Folds(0xAFFC_9660, 0x38);
    Feed8Folds(0x651F_2550, 0x39);
    hide Feed8, Feed, Bit;
  }

  lemma CheckSteps(i: nat)
    requires i < 9
    ensures Feed8(REGISTER[i], CHECK[i]) == REGISTER[i + 1]
  {
    CheckFirst();
    CheckMiddle();
    CheckLast();
    hide Feed8;
  }

  /** The published check value: the CRC-32 of "123456789" is 0xCBF43926, so its slot is 0x3926. */
  lemma {:induction false} CheckValue()
    ensures Crc32(CHECK) == 0xCBF4_3926 && Crc32(CHECK) as int % SLOT_COUNT == 0x3926
  {
    hide Feed8, Feed, Bit;
    assert Bits(CHECK[..0]) == [];
    for i := 0 to 9
      invariant i <= 9
      invariant FeedAll(ALL_ONES, Bits(CHECK[..i])) == REGISTER[i]
    {
      CheckSteps(i);
      ByteMore(ALL_ONES, CHECK, i);
    }
    assert CHECK[..9] == CHECK;
  }

  /** The table the router is compiled with begins 0, 0x77073096 and has 0xEDB88320 in its middle. */
  lemma TableEntries(table: seq<Word>)
    requires IsTable(table)
    ensures table[0] == 0 && table[1] == 0x7707_3096 && table[0x80] == 0xEDB8_8320 && table[0xFF] == 0x2D02_EF8D
  {
    assert table[0x00 as Byte as int] == Shift8(Widen(0x00));
    assert table[0x01 as Byte as int] == Shift8(Widen(0x01));
    assert table[0x80 as Byte as int] == Shift8(Widen(0x80));
    assert table[0xFF as Byte as int] == Shift8(Widen(0xFF));
  }

  /** The feedback is the reflected generator polynomial of IEEE 802.3: the coefficient of the `i`-th power, below the
      thirty-second, is at bit 31 - i. */
  lemma Taps(i: nat)
    requires i < 32
    ensures (Feed(0, true) >> (31 - i)) & 1 == 1 <==>
      i in {0, 1, 2, 4, 5, 7, 8, 10, 11, 12, 16, 22, 23, 26}
  {
  }
}
