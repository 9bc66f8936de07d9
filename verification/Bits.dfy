/** Priority bitmaps: single-bit masks, and the table-driven search for the lowest set bit. */
module Bits {

  function Half(v: bv32): bv32 { v >> 1 }

  predicate Odd(v: bv32) { v & 1 == 1 }

  predicate Bit(v: bv32, i: nat) {
    if i == 0 then Odd(v) else Bit(Half(v), i - 1)
  }

  /** 1 << i, written out. */
  function Mask(i: nat): bv32
    requires i < 32
  {
    if i < 16 then
      if i < 8 then
        if i == 0 then 0x1 else if i == 1 then 0x2 else if i == 2 then 0x4 else if i == 3 then 0x8
        else if i == 4 then 0x10 else if i == 5 then 0x20 else if i == 6 then 0x40 else 0x80
      else
        if i == 8 then 0x100 else if i == 9 then 0x200 else if i == 10 then 0x400 else if i == 11 then 0x800
        else if i == 12 then 0x1000 else if i == 13 then 0x2000 else if i == 14 then 0x4000 else 0x8000
    else
      if i < 24 then
        if i == 16 then 0x1_0000 else if i == 17 then 0x2_0000 else if i == 18 then 0x4_0000
        else if i == 19 then 0x8_0000
        else if i == 20 then 0x10_0000 else if i == 21 then 0x20_0000 else if i == 22 then 0x40_0000 else 0x80_0000
      else
        if i == 24 then 0x100_0000 else if i == 25 then 0x200_0000 else if i == 26 then 0x400_0000
        else if i == 27 then 0x800_0000
        else if i == 28 then 0x1000_0000 else if i == 29 then 0x2000_0000
        else if i == 30 then 0x4000_0000 else 0x8000_0000
  }

  lemma MaskIsShift(i: nat)
    requires i < 32
    ensures Mask(i) == (1 as bv32) << i
  {
    if i < 16 {
      if i < 8 {
        assert i == 0 || i == 1 || i == 2 || i == 3 || i == 4 || i == 5 || i == 6 || i == 7;
      } else {
        assert i == 8 || i == 9 || i == 10 || i == 11 || i == 12 || i == 13 || i == 14 || i == 15;
      }
    } else {
      if i < 24 {
        assert i == 16 || i == 17 || i == 18 || i == 19 || i == 20 || i == 21 || i == 22 || i == 23;
      } else {
        assert i == 24 || i == 25 || i == 26 || i == 27 || i == 28 || i == 29 || i == 30 || i == 31;
      }
    }
  }

  lemma MaskHalves(i: nat)
    requires 0 < i < 32
    ensures Half(Mask(i)) == Mask(i - 1) && !Odd(Mask(i))
  {
    if i < 16 {
      if i < 8 {
        assert i == 1 || i == 2 || i == 3 || i == 4 || i == 5 || i == 6 || i == 7;
      } else {
        assert i == 8 || i == 9 || i == 10 || i == 11 || i == 12 || i == 13 || i == 14 || i == 15;
      }
    } else {
      if i < 24 {
        assert i == 16 || i == 17 || i == 18 || i == 19 || i == 20 || i == 21 || i == 22 || i == 23;
      } else {
        assert i == 24 || i == 25 || i == 26 || i == 27 || i == 28 || i == 29 || i == 30 || i == 31;
      }
    }
  }

  lemma {:induction false} NoBits(i: nat)
    ensures !Bit(0, i)
  {
    if i > 0 {
      NoBits(i - 1);
    }
  }

  lemma {:induction false} MaskBit(i: nat, j: nat)
    requires i < 32
    ensures Bit(Mask(i), j) <==> i == j
  {
    if i == 0 {
      if j > 0 {
        NoBits(j - 1);
      }
    } else {
      MaskHalves(i);
      if j > 0 {
        MaskBit(i - 1, j - 1);
      }
    }
  }

  function Or(a: bv32, b: bv32): bv32 { a | b }

  function And(a: bv32, b: bv32): bv32 { a & b }

  function Less(a: bv32, b: bv32): bv32 { a & !b }

  lemma OrHalves(a: bv32, b: bv32)
    ensures Half(Or(a, b)) == Or(Half(a), Half(b))
    ensures Odd(Or(a, b)) <==> Odd(a) || Odd(b)
  {
  }

  lemma LessHalves(a: bv32, b: bv32)
    ensures Half(Less(a, b)) == Less(Half(a), Half(b))
    ensures Odd(Less(a, b)) <==> Odd(a) && !Odd(b)
  {
  }

  lemma AndHalves(a: bv32, b: bv32)
    ensures Half(And(a, b)) == And(Half(a), Half(b))
    ensures Odd(And(a, b)) <==> Odd(a) && Odd(b)
  {
  }

  lemma {:induction false} OrBit(a: bv32, b: bv32, j: nat)
    ensures Bit(Or(a, b), j) <==> Bit(a, j) || Bit(b, j)
    decreases j
  {
    hide Half, Odd, Or;
    OrHalves(a, b);
    if j > 0 {
      OrBit(Half(a), Half(b), j - 1);
    }
  }

  lemma {:induction false} AndBit(a: bv32, b: bv32, j: nat)
    ensures Bit(And(a, b), j) <==> Bit(a, j) && Bit(b, j)
    decreases j
  {
    hide Half, Odd, And;
    AndHalves(a, b);
    if j > 0 {
      AndBit(Half(a), Half(b), j - 1);
    }
  }

  lemma {:induction false} LessBit(a: bv32, b: bv32, j: nat)
    ensures Bit(Less(a, b), j) <==> Bit(a, j) && !Bit(b, j)
    decreases j
  {
    hide Half, Odd, Less;
    LessHalves(a, b);
    if j > 0 {
      LessBit(Half(a), Half(b), j - 1);
    }
  }

  /** Setting and clearing one bit. */
  lemma SetBit(v: bv32, i: nat, j: nat)
    requires i < 32
    ensures Bit(Or(v, Mask(i)), j) <==> Bit(v, j) || i == j
  {
    hide Bit, Mask, Or;
    OrBit(v, Mask(i), j);
    MaskBit(i, j);
  }

  lemma ClearBit(v: bv32, i: nat, j: nat)
    requires i < 32
    ensures Bit(Less(v, Mask(i)), j) <==> Bit(v, j) && i != j
  {
    hide Bit, Mask, Less;
    LessBit(v, Mask(i), j);
    MaskBit(i, j);
  }

  /** A bit is set exactly when the mask finds it. */
  lemma {:induction false} BitIsMask(v: bv32, i: nat)
    requires i < 32
    ensures Bit(v, i) <==> And(v, Mask(i)) != 0
    decreases i
  {
    hide And, Half, Odd;
    AndHalves(v, Mask(i));
    ZeroHalves(And(v, Mask(i)));
    if i == 0 {
      AndOne(v);
    } else {
      MaskHalves(i);
      BitIsMask(Half(v), i - 1);
    }
  }

  lemma ZeroHalves(v: bv32)
    ensures v == 0 <==> Half(v) == 0 && !Odd(v)
  {
  }

  lemma AndOne(v: bv32)
    ensures And(v, 1) != 0 <==> Odd(v)
  {
  }

  // ----- __rt_ffs -----

  /** The lowest set bit of every byte, a row per high nibble. */
  const LOWEST_BIT: seq<seq<nat>> := [
    [0, 0, 1, 0, 2, 0, 1, 0, 3, 0, 1, 0, 2, 0, 1, 0],
    [4, 0, 1, 0, 2, 0, 1, 0, 3, 0, 1, 0, 2, 0, 1, 0],
    [5, 0, 1, 0, 2, 0, 1, 0, 3, 0, 1, 0, 2, 0, 1, 0],
    [4, 0, 1, 0, 2, 0, 1, 0, 3, 0, 1, 0, 2, 0, 1, 0],
    [6, 0, 1, 0, 2, 0, 1, 0, 3, 0, 1, 0, 2, 0, 1, 0],
    [4, 0, 1, 0, 2, 0, 1, 0, 3, 0, 1, 0, 2, 0, 1, 0],
    [5, 0, 1, 0, 2, 0, 1, 0, 3, 0, 1, 0, 2, 0, 1, 0],
    [4, 0, 1, 0, 2, 0, 1, 0, 3, 0, 1, 0, 2, 0, 1, 0],
    [7, 0, 1, 0, 2, 0, 1, 0, 3, 0, 1, 0, 2, 0, 1, 0],
    [4, 0, 1, 0, 2, 0, 1, 0, 3, 0, 1, 0, 2, 0, 1, 0],
    [5, 0, 1, 0, 2, 0, 1, 0, 3, 0, 1, 0, 2, 0, 1, 0],
    [4, 0, 1, 0, 2, 0, 1, 0, 3, 0, 1, 0, 2, 0, 1, 0],
    [6, 0, 1, 0, 2, 0, 1, 0, 3, 0, 1, 0, 2, 0, 1, 0],
    [4, 0, 1, 0, 2, 0, 1, 0, 3, 0, 1, 0, 2, 0, 1, 0],
    [5, 0, 1, 0, 2, 0, 1, 0, 3, 0, 1, 0, 2, 0, 1, 0],
    [4, 0, 1, 0, 2, 0, 1, 0, 3, 0, 1, 0, 2, 0, 1, 0]
  ]

  function Nibble(n: nat): nat {
    if n % 2 == 1 then 0 else if n % 4 == 2 then 1 else if n % 8 == 4 then 2 else 3
  }

  lemma Entry(hi: nat, lo: nat)
    requires hi < 16 && lo < 16
    ensures |LOWEST_BIT| == 16 && |LOWEST_BIT[hi]| == 16
    ensures lo > 0 ==> LOWEST_BIT[hi][lo] == Nibble(lo)
    ensures lo == 0 && hi > 0 ==> LOWEST_BIT[hi][lo] == 4 + Nibble(hi)
  {
    assert hi == 0 || hi == 1 || hi == 2 || hi == 3 || hi == 4 || hi == 5 || hi == 6 || hi == 7
      || hi == 8 || hi == 9 || hi == 10 || hi == 11 || hi == 12 || hi == 13 || hi == 14 || hi == 15;
    assert lo == 0 || lo == 1 || lo == 2 || lo == 3 || lo == 4 || lo == 5 || lo == 6 || lo == 7
      || lo == 8 || lo == 9 || lo == 10 || lo == 11 || lo == 12 || lo == 13 || lo == 14 || lo == 15;
  }

  function LowestBit(b: bv8): nat {
    NibbleRange(b);
    Entry((b >> 4) as int, (b & 15) as int);
    LOWEST_BIT[(b >> 4) as int][(b & 15) as int]
  }

  lemma NibbleRange(b: bv8)
    ensures (b >> 4) as int < 16 && (b & 15) as int < 16
  {
  }

  lemma LowNibble(b: bv8)
    requires b & 15 != 0
    ensures (b & 15) as int > 0
    ensures b & 1 != 0 ==> Nibble((b & 15) as int) == 0
    ensures b & 3 == 2 ==> Nibble((b & 15) as int) == 1
    ensures b & 7 == 4 ==> Nibble((b & 15) as int) == 2
    ensures b & 7 == 0 ==> Nibble((b & 15) as int) == 3
  {
    NibbleCases(b & 15);
  }

  lemma HighNibble(b: bv8)
    requires b & 15 == 0 && b != 0
    ensures (b & 15) as int == 0 && (b >> 4) as int > 0
    ensures b & 16 != 0 ==> Nibble((b >> 4) as int) == 0
    ensures b & 48 == 32 ==> Nibble((b >> 4) as int) == 1
    ensures b & 112 == 64 ==> Nibble((b >> 4) as int) == 2
    ensures b & 112 == 0 ==> Nibble((b >> 4) as int) == 3
  {
    NibbleCases(b >> 4);
  }

  lemma NibbleCases(n: bv8)
    requires 0 < n < 16
    ensures 0 < n as int < 16
    ensures n & 1 != 0 ==> Nibble(n as int) == 0
    ensures n & 3 == 2 ==> Nibble(n as int) == 1
    ensures n & 7 == 4 ==> Nibble(n as int) == 2
    ensures n & 7 == 0 ==> Nibble(n as int) == 3
  {
    assert n == 1 || n == 2 || n == 3 || n == 4 || n == 5 || n == 6 || n == 7 || n == 8
      || n == 9 || n == 10 || n == 11 || n == 12 || n == 13 || n == 14 || n == 15;
  }

  /** The table entry of a byte names its lowest set bit. */
  lemma ByteLow(b: bv8)
    requires b != 0
    ensures b & 1 != 0 ==> LowestBit(b) == 0
    ensures b & 3 == 2 ==> LowestBit(b) == 1
    ensures b & 7 == 4 ==> LowestBit(b) == 2
    ensures b & 15 == 8 ==> LowestBit(b) == 3
    ensures b & 31 == 16 ==> LowestBit(b) == 4
    ensures b & 63 == 32 ==> LowestBit(b) == 5
    ensures b & 127 == 64 ==> LowestBit(b) == 6
    ensures b == 128 ==> LowestBit(b) == 7
  {
    hide Nibble;
    NibbleRange(b);
    Entry((b >> 4) as int, (b & 15) as int);
    if b & 15 != 0 {
      LowNibble(b);
    } else {
      HighNibble(b);
    }
  }

  ghost predicate IsLowest(v: bv32, r: nat) {
    Bit(v, r) && forall i :: 0 <= i < r ==> !Bit(v, i)
  }

  function Byte(v: bv32): bv8 {
    (v & 0xff) as bv8
  }

  lemma ByteBits(v: bv32)
    ensures Bit(v, 0) <==> Byte(v) & 1 != 0
    ensures Bit(v, 1) <==> Byte(v) & 2 != 0
    ensures Bit(v, 2) <==> Byte(v) & 4 != 0
    ensures Bit(v, 3) <==> Byte(v) & 8 != 0
    ensures Bit(v, 4) <==> Byte(v) & 16 != 0
    ensures Bit(v, 5) <==> Byte(v) & 32 != 0
    ensures Bit(v, 6) <==> Byte(v) & 64 != 0
    ensures Bit(v, 7) <==> Byte(v) & 128 != 0
  {
    hide Bit;
    BitIsMask(v, 0);
    BitIsMask(v, 1);
    BitIsMask(v, 2);
    BitIsMask(v, 3);
    BitIsMask(v, 4);
    BitIsMask(v, 5);
    BitIsMask(v, 6);
    BitIsMask(v, 7);
  }

  lemma LowByte(v: bv32)
    requires Byte(v) != 0
    ensures LowestBit(Byte(v)) < 8 && IsLowest(v, LowestBit(Byte(v)))
  {
    hide Bit, LowestBit, Byte;
    ByteBits(v);
    ByteLow(Byte(v));
    ByteSplit(Byte(v));
  }

  lemma ByteSplit(b: bv8)
    requires b != 0
    ensures b & 1 != 0 || (b & 1 == 0 && b & 3 == 2 && b & 2 != 0)
            || (b & 1 == 0 && b & 2 == 0 && b & 7 == 4 && b & 4 != 0)
            || (b & 1 == 0 && b & 2 == 0 && b & 4 == 0 && b & 15 == 8 && b & 8 != 0)
            || (b & 1 == 0 && b & 2 == 0 && b & 4 == 0 && b & 8 == 0 && b & 31 == 16 && b & 16 != 0)
            || (b & 1 == 0 && b & 2 == 0 && b & 4 == 0 && b & 8 == 0 && b & 16 == 0 && b & 63 == 32 && b & 32 != 0)
            || (b & 1 == 0 && b & 2 == 0 && b & 4 == 0 && b & 8 == 0 && b & 16 == 0 && b & 32 == 0 && b & 127 == 64
               && b & 64 != 0)
            || (b & 1 == 0 && b & 2 == 0 && b & 4 == 0 && b & 8 == 0 && b & 16 == 0 && b & 32 == 0 && b & 64 == 0
               && b == 128 && b & 128 != 0)
  {
  }

  lemma NoLowByte(v: bv32)
    requires Byte(v) == 0
    ensures forall i :: 0 <= i < 8 ==> !Bit(v, i)
  {
    hide Bit;
    ByteBits(v);
  }

  lemma EightHalves(v: bv32)
    ensures Half(Half(Half(Half(Half(Half(Half(Half(v)))))))) == v >> 8
  {
  }

  lemma Shifted(v: bv32, i: nat)
    ensures Bit(v, i + 8) <==> Bit(v >> 8, i)
  {
    hide Half, Odd;
    EightHalves(v);
    var v1 := Half(v);
    var v2 := Half(v1);
    var v3 := Half(v2);
    var v4 := Half(v3);
    var v5 := Half(v4);
    var v6 := Half(v5);
    var v7 := Half(v6);
    assert Bit(v, i + 8) == Bit(v1, i + 7);
    assert Bit(v1, i + 7) == Bit(v2, i + 6);
    assert Bit(v2, i + 6) == Bit(v3, i + 5);
    assert Bit(v3, i + 5) == Bit(v4, i + 4);
    assert Bit(v4, i + 4) == Bit(v5, i + 3);
    assert Bit(v5, i + 3) == Bit(v6, i + 2);
    assert Bit(v6, i + 2) == Bit(v7, i + 1);
  }

  lemma LowestAbove(v: bv32, r: nat)
    requires Byte(v) == 0 && IsLowest(v >> 8, r)
    ensures IsLowest(v, r + 8)
  {
    hide Bit, Byte;
    NoLowByte(v);
    Shifted(v, r);
    forall i | 8 <= i < r + 8
      ensures !Bit(v, i)
    {
      Shifted(v, i - 8);
    }
  }

  /** __rt_ffs: one more than the index of the lowest set bit, 0 for 0. */
  function Ffs(v: bv32): nat {
    if v == 0 then 0
    else if v & 0xff != 0 then LowestBit(Byte(v)) + 1
    else if v & 0xff00 != 0 then LowestBit(Byte((v & 0xff00) >> 8)) + 9
    else if v & 0xff0000 != 0 then LowestBit(Byte((v & 0xff0000) >> 16)) + 17
    else LowestBit(Byte((v & 0xff000000) >> 24)) + 25
  }

  lemma FfsBytes(v: bv32)
    ensures v & 0xff != 0 <==> Byte(v) != 0
    ensures v & 0xff00 != 0 <==> Byte(v >> 8) != 0
    ensures v & 0xff0000 != 0 <==> Byte(v >> 8 >> 8) != 0
    ensures v == 0 <==> Byte(v) == 0 && Byte(v >> 8) == 0 && Byte(v >> 8 >> 8) == 0 && Byte(v >> 8 >> 8 >> 8) == 0
    ensures Byte((v & 0xff00) >> 8) == Byte(v >> 8)
    ensures Byte((v & 0xff0000) >> 16) == Byte(v >> 8 >> 8)
    ensures Byte((v & 0xff000000) >> 24) == Byte(v >> 8 >> 8 >> 8)
  {
  }

  /** The word is 0, or the result points at its lowest set bit. */
  lemma FfsIsLowest(v: bv32)
    ensures Ffs(v) == 0 <==> v == 0
    ensures v != 0 ==> 1 <= Ffs(v) <= 32 && IsLowest(v, Ffs(v) - 1)
  {
    hide LowestBit, Byte, IsLowest;
    FfsBytes(v);
    var v1 := v >> 8;
    var v2 := v1 >> 8;
    var v3 := v2 >> 8;
    if v == 0 {
    } else if Byte(v) != 0 {
      LowByte(v);
    } else if Byte(v1) != 0 {
      LowByte(v1);
      LowestAbove(v, LowestBit(Byte(v1)));
    } else if Byte(v2) != 0 {
      LowByte(v2);
      LowestAbove(v1, LowestBit(Byte(v2)));
      LowestAbove(v, LowestBit(Byte(v2)) + 8);
    } else {
      LowByte(v3);
      LowestAbove(v2, LowestBit(Byte(v3)));
      LowestAbove(v1, LowestBit(Byte(v3)) + 8);
      LowestAbove(v, LowestBit(Byte(v3)) + 16);
    }
  }

  /** A word with a set bit below 32 is not 0. */
  lemma SomeBit(v: bv32, i: nat)
    requires Bit(v, i)
    ensures v != 0
  {
    NoBits(i);
  }

  // ----- Words as sets of bits -----

  lemma LessAll(a: bv32, b: bv32, d: bv32)
    ensures And(Less(a, b), d) == d ==> And(a, d) == d
  {
  }

  lemma LessSome(a: bv32, b: bv32, d: bv32)
    ensures And(Less(a, b), d) != 0 ==> And(a, d) != 0
  {
  }

  lemma LessOnly(a: bv32, b: bv32)
    ensures Less(a, b) == Less(a, And(a, b))
  {
  }

  lemma LessApart(a: bv32, b: bv32)
    ensures And(Less(a, b), And(a, b)) == 0
  {
  }

  lemma LessRest(a: bv32, b: bv32)
    ensures Or(Less(a, b), And(a, b)) == a
  {
  }

  /** What is taken out of a word, and what stays. */
  lemma TakeOut(a: bv32, b: bv32)
    ensures Less(a, b) == Less(a, And(a, b))
    ensures And(Less(a, b), And(a, b)) == 0
    ensures Or(Less(a, b), And(a, b)) == a
  {
    hide Less, And, Or;
    LessOnly(a, b);
    LessApart(a, b);
    LessRest(a, b);
  }

  lemma TakeOutBoth(a: bv32, b: bv32, d: bv32)
    ensures Less(Less(a, b), d) == Less(a, Or(b, d))
  {
  }

  lemma TakeOutNothing(a: bv32)
    ensures Less(a, 0) == a && Or(0, a) == a
  {
  }

  /** A word that is not 0 has a bit. */
  lemma AnyBit(v: bv32)
    ensures v != 0 <==> exists j :: 0 <= j < 32 && Bit(v, j)
  {
    hide Half, Odd, Ffs;
    if v != 0 {
      FfsIsLowest(v);
      assert Bit(v, Ffs(v) - 1);
    } else {
      forall j | 0 <= j < 32
        ensures !Bit(v, j)
      {
        NoBits(j);
      }
    }
  }

  lemma AllOfIs(a: bv32, d: bv32)
    ensures And(a, d) == d <==> Less(d, a) == 0
  {
    hide And, Or, Less;
    TakeOut(d, a);
    AndSame(a, d);
    TakeOutNothing(And(d, a));
    LessSelf(d);
  }

  lemma AndSame(a: bv32, d: bv32)
    ensures And(a, d) == And(d, a)
  {
  }

  lemma LessSelf(a: bv32)
    ensures Less(a, a) == 0
  {
  }

  /** a has all the bits of d. */
  lemma HasAll(a: bv32, d: bv32)
    ensures And(a, d) == d <==> forall j :: 0 <= j < 32 && Bit(d, j) ==> Bit(a, j)
  {
    hide Bit, And, Less;
    AllOfIs(a, d);
    AnyBit(Less(d, a));
    if And(a, d) == d {
      forall j | 0 <= j < 32 && Bit(d, j)
        ensures Bit(a, j)
      {
        LessBit(d, a, j);
      }
    } else {
      var j :| 0 <= j < 32 && Bit(Less(d, a), j);
      LessBit(d, a, j);
    }
  }

  /** a has one of the bits of d. */
  lemma HasSome(a: bv32, d: bv32)
    ensures And(a, d) != 0 <==> exists j :: 0 <= j < 32 && Bit(d, j) && Bit(a, j)
  {
    hide Bit, And;
    AnyBit(And(a, d));
    if And(a, d) != 0 {
      var j :| 0 <= j < 32 && Bit(And(a, d), j);
      AndBit(a, d, j);
    } else {
      forall j | 0 <= j < 32
        ensures !(Bit(d, j) && Bit(a, j))
      {
        AndBit(a, d, j);
      }
    }
  }
}
