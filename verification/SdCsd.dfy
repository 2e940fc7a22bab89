/**
 The card-specific data register: what sd_parse_csd makes of it, against the capacity
 formulas of sections 5.3.2 and 5.3.3 of the SD Physical Layer Simplified Specification.
 */
module SdCsd {
  import opened Words

  datatype CardType = NoneType | SD1x | SD20 | SDHC | MMC

  const OK := 0
  const NO_CARD := -1
  const TIMEOUT := -2
  const BAD_RESPONSE := -3
  const UNSUPPORTED := -4

  // ---- The register, as the standard numbers its bits ---------------------------------

  /** The 128-bit register made of four words, the first transferred the most significant. */
  function Register(w0: ulong, w1: ulong, w2: ulong, w3: ulong): nat {
    w0 * 0x1_0000_0000_0000_0000_0000_0000 + w1 * 0x1_0000_0000_0000_0000 + w2 * 0x1_0000_0000 + w3
  }

  /** READ_BL_LEN, bits 83-80. */
  function ReadBlLen(csd: nat): nat { csd / 0x1_0000_0000_0000_0000_0000 % 16 }

  /** WRITE_BL_LEN, bits 25-22. */
  function WriteBlLen(csd: nat): nat { csd / 0x40_0000 % 16 }

  /** C_SIZE of a version 1 register, bits 73-62. */
  function CSize1(csd: nat): nat { csd / 0x4000_0000_0000_0000 % 0x1000 }

  /** C_SIZE_MULT, bits 49-47. */
  function CSizeMult(csd: nat): nat { csd / 0x8000_0000_0000 % 8 }

  /** C_SIZE of a version 2 register, bits 69-48. */
  function CSize2(csd: nat): nat { csd / 0x1_0000_0000_0000 % 0x40_0000 }

  /** Memory capacity in bytes by section 5.3.2: BLOCKNR * BLOCK_LEN. */
  function Capacity1(csd: nat): int {
    var mult := Power2(CSizeMult(csd) + 2);
    var blockNr := (CSize1(csd) + 1) * mult;
    var blockLen := Power2(ReadBlLen(csd));
    blockNr * blockLen
  }

  /** Memory capacity in bytes by section 5.3.3: (C_SIZE + 1) * 512 KByte. */
  function Capacity2(csd: nat): nat {
    (CSize2(csd) + 1) * 0x8_0000
  }

  // ---- The same bits inside the words ---------------------------------------------------

  /** Quotient and remainder are unique. */
  lemma DivMod(x: nat, m: nat, q: nat, r: nat)
    requires x == q * m + r && r < m
    ensures x / m == q && x % m == r
  {
    var p, t := x / m, x % m;
    assert x == p * m + t;
    assert q * m - p * m == (q - p) * m && p * m - q * m == (p - q) * m;
    if p < q { AtLeast(q - p, m); } else if q < p { AtLeast(p - q, m); }
  }

  lemma AtLeast(k: nat, m: nat)
    requires 1 <= k
    ensures k * m >= m
  {
  }

  lemma Cut80(w0: nat, w1: ulong, low: nat)
    requires low < 0x1_0000_0000_0000_0000
    ensures (w0 * 0x1_0000_0000_0000_0000_0000_0000 + w1 * 0x1_0000_0000_0000_0000 + low) / 0x1_0000_0000_0000_0000_0000
         == w0 * 0x1_0000 + w1 / 0x1_0000
  {
    var q, r := w1 / 0x1_0000, w1 % 0x1_0000;
    assert w1 == q * 0x1_0000 + r;
  }

  lemma Cut62(above: nat, w2: ulong, w3: ulong)
    ensures (above * 0x1_0000_0000_0000_0000 + w2 * 0x1_0000_0000 + w3) / 0x4000_0000_0000_0000
         == above * 4 + w2 / 0x4000_0000
  {
    var q, r := w2 / 0x4000_0000, w2 % 0x4000_0000;
    assert w2 == q * 0x4000_0000 + r;
  }

  lemma Cut47(above: nat, w2: ulong, w3: ulong)
    ensures (above * 0x1_0000_0000_0000_0000 + w2 * 0x1_0000_0000 + w3) / 0x8000_0000_0000
         == above * 0x2_0000 + w2 / 0x8000
  {
    var q, r := w2 / 0x8000, w2 % 0x8000;
    assert w2 == q * 0x8000 + r;
  }

  lemma Cut48(above: nat, w2: ulong, w3: ulong)
    ensures (above * 0x1_0000_0000_0000_0000 + w2 * 0x1_0000_0000 + w3) / 0x1_0000_0000_0000
         == above * 0x1_0000 + w2 / 0x1_0000
  {
    var q, r := w2 / 0x1_0000, w2 % 0x1_0000;
    assert w2 == q * 0x1_0000 + r;
  }

  lemma Cut22(above: nat, w3: ulong)
    ensures (above * 0x1_0000_0000 + w3) / 0x40_0000 == above * 0x400 + w3 / 0x40_0000
  {
  }

  lemma Above(w0: ulong, w1: ulong, w2: ulong, w3: ulong)
    ensures var above := w0 * 0x1_0000_0000 + w1;
            && Register(w0, w1, w2, w3) == above * 0x1_0000_0000_0000_0000 + w2 * 0x1_0000_0000 + w3
            && above % 0x400 == w1 % 0x400 && above % 0x40 == w1 % 0x40
  {
    var above := w0 * 0x1_0000_0000 + w1;
    DivMod(above, 0x400, w0 * 0x40_0000 + w1 / 0x400, w1 % 0x400);
    DivMod(above, 0x40, w0 * 0x400_0000 + w1 / 0x40, w1 % 0x40);
  }

  lemma ReadBlLenInWord(w0: ulong, w1: ulong, w2: ulong, w3: ulong)
    ensures ReadBlLen(Register(w0, w1, w2, w3)) == w1 / 0x1_0000 % 16
  {
    Cut80(w0, w1, w2 * 0x1_0000_0000 + w3);
  }

  lemma WriteBlLenInWord(w0: ulong, w1: ulong, w2: ulong, w3: ulong)
    ensures WriteBlLen(Register(w0, w1, w2, w3)) == w3 / 0x40_0000 % 16
  {
    Cut22(w0 * 0x1_0000_0000_0000_0000 + w1 * 0x1_0000_0000 + w2, w3);
  }

  lemma CSize1InWords(w0: ulong, w1: ulong, w2: ulong, w3: ulong)
    ensures CSize1(Register(w0, w1, w2, w3)) == w1 % 0x400 * 4 + w2 / 0x4000_0000
  {
    Above(w0, w1, w2, w3);
    hide Register;
    Cut62(w0 * 0x1_0000_0000 + w1, w2, w3);
    LowBits12(w0 * 0x1_0000_0000 + w1, w2 / 0x4000_0000);
  }

  lemma LowBits12(above: nat, q: nat)
    requires q < 4
    ensures (above * 4 + q) % 0x1000 == above % 0x400 * 4 + q
  {
    DivMod(above * 4 + q, 0x1000, above / 0x400, above % 0x400 * 4 + q);
  }

  lemma CSizeMultInWord(w0: ulong, w1: ulong, w2: ulong, w3: ulong)
    ensures CSizeMult(Register(w0, w1, w2, w3)) == w2 / 0x8000 % 8
  {
    Above(w0, w1, w2, w3);
    hide Register;
    Cut47(w0 * 0x1_0000_0000 + w1, w2, w3);
  }

  lemma CSize2InWords(w0: ulong, w1: ulong, w2: ulong, w3: ulong)
    ensures CSize2(Register(w0, w1, w2, w3)) == w1 % 0x40 * 0x1_0000 + w2 / 0x1_0000
  {
    Above(w0, w1, w2, w3);
    hide Register;
    Cut48(w0 * 0x1_0000_0000 + w1, w2, w3);
    LowBits22(w0 * 0x1_0000_0000 + w1, w2 / 0x1_0000);
  }

  lemma LowBits22(above: nat, q: nat)
    requires q < 0x1_0000
    ensures (above * 0x1_0000 + q) % 0x40_0000 == above % 0x40 * 0x1_0000 + q
  {
    DivMod(above * 0x1_0000 + q, 0x40_0000, above / 0x40, above % 0x40 * 0x1_0000 + q);
  }

  // ---- sd_parse_csd -----------------------------------------------------------------------

  /** A 32-bit left shift. */
  function Shl(x: ulong, n: nat): ulong {
    x * Power2(n) % 0x1_0000_0000
  }

  lemma {:induction false} PowerMono(m: nat, n: nat)
    requires m <= n
    ensures 1 <= Power2(m) <= Power2(n)
    decreases n
  {
    if m < n { PowerMono(m, n - 1); } else if n > 0 { PowerMono(m - 1, n - 1); }
  }

  /** `x | y` is a sum when `y` fits below the lowest bit of `x`. */
  lemma {:induction false} OrSum(k: nat, y: nat, n: nat)
    requires y < Power2(n)
    ensures Or(k * Power2(n), y) == k * Power2(n) + y
    decreases n
  {
    var x := k * Power2(n);
    if n == 0 {
      OrZero(x);
    } else {
      var m := k * Power2(n - 1);
      Double(k, Power2(n - 1));
      if x != 0 { OrSum(k, y / 2, n - 1); }
    }
  }

  lemma Double(k: nat, p: nat)
    ensures k * (2 * p) == 2 * (k * p)
  {
  }

  lemma {:induction false} OrZero(x: nat)
    ensures Or(x, 0) == x
  {
    if x != 0 { OrZero(x / 2); }
  }

  // The fields as shifts and masks of the words.
  function ReadLenField(w1: ulong): nat { w1 / 0x1_0000 % 0x10 }
  function WriteLenField(w3: ulong): nat { w3 / 0x40_0000 % 0x10 }
  function SizeMultField(w2: ulong): nat { w2 / 0x8000 % 8 }
  function SizeField1(w1: ulong, w2: ulong): nat {
    Or(w1 * 4 % 0x1_0000_0000 % 0x1000 / 4 * 4, w2 / 0x4000_0000 % 4)
  }
  function SizeField2(w1: ulong, w2: ulong): nat {
    Or(w1 * 0x1_0000 % 0x1_0000_0000 % 0x40, w2 / 0x1_0000 % 0x1_0000)
  }

  /** sd_card_info_t. */
  class CardInfo {
    var cardType: CardType
    var totalSectors: ulong
    var blockSize: nat

    /**
     Decodes a register for the card type found. The sector count is the standard's BLOCKNR,
     and for high-capacity cards what the low 16 bits of C_SIZE say; it is set even when the
     block lengths then turn out to differ.
     */
    method ParseCsd(w0: ulong, w1: ulong, w2: ulong, w3: ulong) returns (err: int)
      modifies this`totalSectors, this`blockSize
      ensures var csd := Register(w0, w1, w2, w3);
              && (err == OK || err == UNSUPPORTED)
              && (err == OK <==> cardType in {SD1x, SD20, SDHC} && ReadBlLen(csd) == WriteBlLen(csd))
              && blockSize == (if err == OK then ReadBlLen(csd) else old(blockSize))
              && (cardType in {SD1x, SD20} ==> totalSectors == (CSize1(csd) + 1) * Power2(CSizeMult(csd) + 2))
              && (cardType == SDHC ==> totalSectors == Shl(CSize2(csd) % 0x1_0000 + 1, 19 - ReadBlLen(csd)))
              && (cardType in {NoneType, MMC} ==> totalSectors == old(totalSectors))
    {
      Fields(w0, w1, w2, w3);
      hide ReadLenField, WriteLenField, SizeMultField, SizeField1, SizeField2, Shl, Power2;
      hide Register, ReadBlLen, WriteBlLen, CSize1, CSize2, CSizeMult;
      var readBlockLen := ReadLenField(w1);
      if cardType == SD1x || cardType == SD20 {
        var deviceSize, deviceSizeMult := SizeField1(w1, w2), SizeMultField(w2);
        totalSectors := Shl(deviceSize + 1, deviceSizeMult + 2);
      } else if cardType == SDHC {
        var deviceSize := SizeField2(w1, w2);
        totalSectors := Shl(deviceSize + 1, 19 - readBlockLen);
      } else {
        return UNSUPPORTED;
      }
      var writeBlockLen := WriteLenField(w3);
      if readBlockLen != writeBlockLen {
        return UNSUPPORTED;
      }
      blockSize := readBlockLen;
      return OK;
    }
  }

  /** The shifts and masks pick out the standard's fields. */
  lemma Fields(w0: ulong, w1: ulong, w2: ulong, w3: ulong)
    ensures var csd := Register(w0, w1, w2, w3);
            && ReadLenField(w1) == ReadBlLen(csd) < 16
            && WriteLenField(w3) == WriteBlLen(csd)
            && SizeMultField(w2) == CSizeMult(csd)
            && SizeField1(w1, w2) == CSize1(csd) < 0x1000
            && SizeField2(w1, w2) == CSize2(csd) % 0x1_0000 < 0x1_0000
            && Shl(CSize1(csd) + 1, CSizeMult(csd) + 2) == (CSize1(csd) + 1) * Power2(CSizeMult(csd) + 2)
  {
    ReadBlLenInWord(w0, w1, w2, w3);
    WriteBlLenInWord(w0, w1, w2, w3);
    CSize1InWords(w0, w1, w2, w3);
    CSizeMultInWord(w0, w1, w2, w3);
    CSize2InWords(w0, w1, w2, w3);
    Size1(w1, w2);
    Size2(w1, w2);
    ShiftFits(Register(w0, w1, w2, w3));
    hide Register, SizeField1, SizeField2, ReadBlLen, WriteBlLen, CSize1, CSize2, CSizeMult, Power2, Shl;
  }

  /** No standard-capacity register makes the sector count wrap. */
  lemma ShiftFits(csd: nat)
    ensures ReadBlLen(csd) < 16 && CSize1(csd) < 0x1000 && CSizeMult(csd) < 8
    ensures Shl(CSize1(csd) + 1, CSizeMult(csd) + 2) == (CSize1(csd) + 1) * Power2(CSizeMult(csd) + 2)
  {
    assert CSize1(csd) < 0x1000 && CSizeMult(csd) < 8;
    hide CSize1, CSizeMult, Power2;
    NoWrap(CSize1(csd) + 1, CSizeMult(csd) + 2);
  }

  lemma Size1(w1: ulong, w2: ulong)
    ensures SizeField1(w1, w2) == w1 % 0x400 * 4 + w2 / 0x4000_0000
  {
    Masked12(w1);
    hide Or, Power2;
    OrTwoBits(w1 % 0x400, w2 / 0x4000_0000);
  }

  lemma OrTwoBits(k: nat, y: nat)
    requires y < 4
    ensures Or(k * 4, y) == k * 4 + y
  {
    assert Power2(2) == 4;
    hide Or;
    OrSum(k, y, 2);
  }

  lemma Size2(w1: ulong, w2: ulong)
    ensures SizeField2(w1, w2) == w2 / 0x1_0000 == (w1 % 0x40 * 0x1_0000 + w2 / 0x1_0000) % 0x1_0000
  {
    Vanishes(w1);
    var y := w2 / 0x1_0000;
    assert Or(0, y) == y;
    hide Or;
    LowHalf(w1 % 0x40, y);
  }

  lemma Vanishes(w1: ulong)
    ensures w1 * 0x1_0000 % 0x1_0000_0000 % 0x40 == 0
  {
    var low := w1 % 0x1_0000;
    DivMod(w1 * 0x1_0000, 0x1_0000_0000, w1 / 0x1_0000, low * 0x1_0000);
    DivMod(low * 0x1_0000, 0x40, low * 0x400, 0);
  }

  lemma LowHalf(h: nat, y: nat)
    requires y < 0x1_0000
    ensures (h * 0x1_0000 + y) % 0x1_0000 == y
  {
  }

  lemma Masked12(w1: ulong)
    ensures w1 * 4 % 0x1_0000_0000 % 0x1000 / 4 * 4 == w1 % 0x400 * 4
  {
    var v, low := w1 % 0x4000_0000, w1 % 0x400;
    DivMod(w1 * 4, 0x1_0000_0000, w1 / 0x4000_0000, v * 4);
    DivMod(v, 0x400, v / 0x400, v % 0x400);
    assert v % 0x400 == low by { DivMod(w1, 0x400, w1 / 0x4000_0000 * 0x10_0000 + v / 0x400, v % 0x400); }
    DivMod(v * 4, 0x1000, v / 0x400, low * 4);
    DivMod(low * 4, 4, low, 0);
  }

  lemma NoWrap(x: nat, n: nat)
    requires x <= 0x1000 && n <= 9
    ensures 0 <= x * Power2(n) < 0x1_0000_0000
  {
    PowerMono(n, 9);
    assert Power2(9) == 512 by {
      assert Power2(3) == 8;
      assert Power2(6) == 64;
    }
    MulMono(x, Power2(n), 0x1000, 512);
  }

  lemma MulMono(x: nat, p: nat, a: nat, b: nat)
    requires x <= a && p <= b
    ensures 0 <= x * p <= a * b
  {
    assert x * p <= a * p;
    assert a * p <= a * b;
  }

  // ---- Capacity -----------------------------------------------------------------------------

  /** Sector size times sector count, as device_get_geometry reports them. */
  function Reported(blockSize: nat, totalSectors: nat): nat {
    Power2(blockSize) * totalSectors
  }

  /** Standard capacity: for every register the reported size is that of section 5.3.2. */
  lemma StandardCapacity(csd: nat)
    ensures Reported(ReadBlLen(csd), (CSize1(csd) + 1) * Power2(CSizeMult(csd) + 2)) == Capacity1(csd)
    ensures (CSize1(csd) + 1) * Power2(CSizeMult(csd) + 2) < 0x1_0000_0000
  {
    NoWrap(CSize1(csd) + 1, CSizeMult(csd) + 2);
  }

  lemma Shift10()
    ensures Power2(10) == 1024 && Power2(9) == 512
  {
    assert Power2(5) == 32;
  }

  /**
   High capacity, with the READ_BL_LEN of 9 that section 5.3.3 fixes: the reported size is
   that of the section exactly when C_SIZE fits the 16 bits the driver decodes, below 32 GB.
   */
  lemma HighCapacityIff(csd: nat)
    requires ReadBlLen(csd) == 9
    ensures Reported(9, Shl(CSize2(csd) % 0x1_0000 + 1, 10)) == Capacity2(csd) <==> CSize2(csd) < 0x1_0000
  {
    Shift10();
    var low := CSize2(csd) % 0x1_0000;
    assert Shl(low + 1, 10) == (low + 1) * 1024;
  }

  /** A 64 GB card that the driver takes for one of 512 KB: C_SIZE is 0x1_0000. */
  lemma LargeCardTruncated()
    ensures var csd := Register(0, 0x9_0001, 0, 0);
            && ReadBlLen(csd) == 9
            && CSize2(csd) == 0x1_0000
            && Reported(9, Shl(CSize2(csd) % 0x1_0000 + 1, 10)) == 0x8_0000
  {
    ReadBlLenInWord(0, 0x9_0001, 0, 0);
    CSize2InWords(0, 0x9_0001, 0, 0);
    Shift10();
    hide ReadBlLen, CSize2, Register;
  }
}
