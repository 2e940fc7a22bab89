/** Bytes, bits and 16-bit words as the drivers and the devices exchange them. */
module Words {
  type byte = x: int | 0 <= x < 256
  type ulong = x: int | 0 <= x < 0x1_0000_0000

  function Max(x: nat, y: nat): nat {
    if x < y then y else x
  }

  /** Low byte of a 16-bit value (`val & 0xff`). */
  function Lo(n: nat): byte {
    n % 256
  }

  /** High byte of a 16-bit value (`val >> 8`, kept to eight bits). */
  function Hi(n: nat): byte {
    n / 256 % 256
  }

  /** The value of two bytes, low byte first. */
  function Word(lo: byte, hi: byte): nat {
    lo + 256 * hi
  }

  /** Bit `k` of a byte. */
  function Bit(x: nat, k: nat): bool
    decreases k
  {
    if k == 0 then x % 2 == 1 else Bit(x / 2, k - 1)
  }

  /** The bits of `x` or of `m` (`x | m`). */
  function Or(x: nat, m: nat): nat
    decreases x
  {
    if x == 0 then m else 2 * Or(x / 2, m / 2) + (if x % 2 == 1 || m % 2 == 1 then 1 else 0)
  }

  /** The bits of `x` that are not in `m` (`x & ~m`). */
  function AndNot(x: nat, m: nat): nat
    decreases x
  {
    if x == 0 then 0 else 2 * AndNot(x / 2, m / 2) + (if x % 2 == 1 && m % 2 == 0 then 1 else 0)
  }

  lemma {:induction false} OrBit(x: nat, m: nat, k: nat)
    ensures Bit(Or(x, m), k) <==> Bit(x, k) || Bit(m, k)
    decreases k
  {
    if x == 0 {
      ZeroBit(k);
    } else if k > 0 {
      OrBit(x / 2, m / 2, k - 1);
    }
  }

  lemma {:induction false} AndNotBit(x: nat, m: nat, k: nat)
    ensures Bit(AndNot(x, m), k) <==> Bit(x, k) && !Bit(m, k)
    decreases k
  {
    if x == 0 {
      ZeroBit(k);
    } else if k > 0 {
      AndNotBit(x / 2, m / 2, k - 1);
    }
  }

  lemma {:induction false} ZeroBit(k: nat)
    ensures !Bit(0, k)
  {
    if k > 0 { ZeroBit(k - 1); }
  }

  /** Both operations stay within `n` bits; `limit` is 2 to the n. */
  lemma {:induction false} BitwiseBound(x: nat, m: nat, n: nat, limit: nat)
    requires limit == Power2(n) && x < limit && m < limit
    ensures Or(x, m) < limit && AndNot(x, m) < limit
    decreases n
  {
    if x != 0 {
      BitwiseBound(x / 2, m / 2, n - 1, limit / 2);
    }
  }

  function Power2(n: nat): (p: nat)
    ensures 1 <= p
  {
    if n == 0 then 1 else 2 * Power2(n - 1)
  }

  /** `x | m` and `x & ~m` on bytes. */
  function OrByte(x: byte, m: byte): byte {
    BitwiseBound(x, m, 8, 256);
    Or(x, m)
  }

  function AndNotByte(x: byte, m: byte): byte {
    BitwiseBound(x, m, 8, 256);
    AndNot(x, m)
  }

  lemma SetBits(x: byte, m: byte)
    ensures forall k: nat {:trigger Bit(OrByte(x, m), k)} :: Bit(OrByte(x, m), k) <==> Bit(x, k) || Bit(m, k)
  {
    forall k: nat { OrBit(x, m, k); }
  }

  lemma ClearBits(x: byte, m: byte)
    ensures forall k: nat {:trigger Bit(AndNotByte(x, m), k)} ::
              Bit(AndNotByte(x, m), k) <==> Bit(x, k) && !Bit(m, k)
  {
    forall k: nat { AndNotBit(x, m, k); }
  }

  /** Bit `j` is the only bit of `m`. */
  ghost predicate IsMask(m: nat, j: nat) {
    forall k: nat :: Bit(m, k) <==> k == j
  }

  lemma {:induction false} OneBit(j: nat, k: nat)
    ensures Bit(Power2(j), k) <==> j == k
    decreases j
  {
    if j == 0 {
      if k > 0 { ZeroBit(k - 1); }
    } else if k > 0 {
      OneBit(j - 1, k - 1);
    }
  }

  /** The masks the drivers use, as powers of two. */
  lemma Masks()
    ensures IsMask(0x01, 0) && IsMask(0x02, 1) && IsMask(0x04, 2) && IsMask(0x08, 3)
    ensures forall k: nat :: Bit(0x03, k) <==> k == 0 || k == 1
    ensures forall k: nat :: Bit(0x0a, k) <==> k == 1 || k == 3
    ensures IsMask(0x40, 6) && IsMask(0x80, 7)
  {
    forall k: nat ensures Bit(0x01, k) <==> k == 0 { OneBit(0, k); }
    forall k: nat ensures Bit(0x02, k) <==> k == 1 { OneBit(1, k); }
    forall k: nat ensures Bit(0x04, k) <==> k == 2 { OneBit(2, k); }
    forall k: nat ensures Bit(0x03, k) <==> k == 0 || k == 1 { OrBit(0x01, 0x02, k); OneBit(0, k); OneBit(1, k); }
    forall k: nat ensures Bit(0x0a, k) <==> k == 1 || k == 3 { OrBit(0x02, 0x08, k); OneBit(1, k); OneBit(3, k); }
    forall k: nat ensures Bit(0x08, k) <==> k == 3 { OneBit(3, k); }
    forall k: nat ensures Bit(0x40, k) <==> k == 6 { OneBit(6, k); }
    forall k: nat ensures Bit(0x80, k) <==> k == 7 { OneBit(7, k); }
  }

  /** Adding a multiple of 2 to the k+1 leaves bit k alone. */
  lemma {:induction false} BitOfSum(x: nat, q: nat, k: nat)
    ensures Bit(x + Power2(k + 1) * q, k) == Bit(x, k)
    decreases k
  {
    var m := Power2(k) * q;
    assert Power2(k + 1) * q == 2 * m;
    if k == 0 {
      assert (x + 2 * m) % 2 == x % 2;
    } else {
      assert (x + 2 * m) / 2 == x / 2 + m;
      BitOfSum(x / 2, q, k - 1);
    }
  }

  /** Bits above the lowest `j` ones. */
  lemma {:induction false} BitAbove(x: nat, q: nat, j: nat, k: nat)
    requires x < Power2(j)
    ensures Bit(x + Power2(j) * q, j + k) == Bit(q, k)
    decreases j
  {
    if j > 0 {
      var m := Power2(j - 1) * q;
      assert Power2(j) * q == 2 * m;
      assert (x + 2 * m) / 2 == x / 2 + m;
      BitAbove(x / 2, q, j - 1, k);
    }
  }

  lemma WordRoundTrip(n: nat)
    requires n < 0x10000
    ensures Word(Lo(n), Hi(n)) == n
  {
  }
}
