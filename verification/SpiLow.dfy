/**
 The assembly transfer routines of the SPI library: bytes are shifted in from bit 7 of an
 I/O port and out to it, with 16-bit shift registers and a word loop for even addresses.
 The vectors below are bits of 68000 data registers.
 */
module SpiLow {
  type bits = bv8
  type word = bv16

  // ---- What a transfer means -----------------------------------------------------

  /** The byte eight port samples stand for: bit 7 of each, most significant first. */
  function DecodeByte(s: seq<bits>): bits
    requires |s| == 8
  {
    ((s[0] >> 7) << 7) | ((s[1] >> 7) << 6) | ((s[2] >> 7) << 5) | ((s[3] >> 7) << 4)
    | ((s[4] >> 7) << 3) | ((s[5] >> 7) << 2) | ((s[6] >> 7) << 1) | (s[7] >> 7)
  }

  /** The simple byte loop: eight samples a byte, in order. */
  function DecodeAll(s: seq<bits>): (r: seq<bits>)
    requires |s| % 8 == 0
    ensures |r| == |s| / 8
  {
    if s == [] then [] else [DecodeByte(s[..8])] + DecodeAll(s[8..])
  }

  /** The eight port bytes that put `b` on the wire, most significant bit first in bit 7. */
  function EncodeByte(b: bits): (r: seq<bits>)
    ensures |r| == 8
  {
    [b, b << 1, b << 2, b << 3, b << 4, b << 5, b << 6, b << 7]
  }

  function EncodeAll(buf: seq<bits>): (r: seq<bits>)
    ensures |r| == 8 * |buf|
  {
    if buf == [] then [] else EncodeByte(buf[0]) + EncodeAll(buf[1..])
  }

  lemma {:induction false} DecodeAppend(s: seq<bits>, t: seq<bits>)
    requires |s| % 8 == 0 && |t| == 8
    ensures DecodeAll(s + t) == DecodeAll(s) + [DecodeByte(t)]
    decreases |s|
  {
    hide DecodeByte;
    if s == [] {
      assert s + t == t && t[..8] == t && t[8..] == [];
    } else {
      assert (s + t)[..8] == s[..8] && (s + t)[8..] == s[8..] + t;
      DecodeAppend(s[8..], t);
    }
  }

  lemma {:induction false} EncodeAppend(s: seq<bits>, b: bits)
    ensures EncodeAll(s + [b]) == EncodeAll(s) + EncodeByte(b)
    decreases |s|
  {
    hide EncodeByte;
    if s == [] {
      assert s + [b] == [b] && [b][1..] == [];
    } else {
      assert (s + [b])[0] == s[0] && (s + [b])[1..] == s[1..] + [b];
      EncodeAppend(s[1..], b);
    }
  }

  lemma ByteRoundTrip(b: bits)
    ensures DecodeByte(EncodeByte(b)) == b
  {
  }

  /** Reading back what was written returns the buffer. */
  lemma {:induction false} RoundTrip(buf: seq<bits>)
    ensures DecodeAll(EncodeAll(buf)) == buf
    decreases |buf|
  {
    if buf != [] {
      var wire := EncodeAll(buf);
      ByteRoundTrip(buf[0]);
      hide EncodeByte, DecodeByte;
      assert wire[..8] == EncodeByte(buf[0]) && wire[8..] == EncodeAll(buf[1..]);
      RoundTrip(buf[1..]);
    }
  }

  /** Only the data line, bit 7 of the port, matters. */
  lemma {:induction false} OnlyDataLineMatters(s: seq<bits>, t: seq<bits>)
    requires |s| == |t| && |s| % 8 == 0
    requires forall i :: 0 <= i < |s| ==> s[i] >> 7 == t[i] >> 7
    ensures DecodeAll(s) == DecodeAll(t)
    decreases |s|
  {
    if s != [] {
      assert DecodeByte(s[..8]) == DecodeByte(t[..8]);
      OnlyDataLineMatters(s[8..], t[8..]);
    }
  }

  // ---- Registers and port ----------------------------------------------------------

  /** move.b: the low byte of a register is replaced. */
  function MoveB(d: word, s: bits): word {
    (d & 0xff00) | s as word
  }

  function LowByte(d: word): bits {
    (d & 0xff) as bits
  }

  /** What the I/O port showed and was given, in order. */
  class Port {
    ghost var sampled: seq<bits>
    ghost var driven: seq<bits>

    constructor ()
      ensures sampled == [] && driven == []
    {
      sampled, driven := [], [];
    }

    method Sample() returns (s: bits)
      modifies this`sampled
      ensures sampled == old(sampled) + [s]
    {
      s := *;
      sampled := sampled + [s];
    }

    method Drive(b: bits)
      modifies this`driven
      ensures driven == old(driven) + [b]
    {
      driven := driven + [b];
    }

    /** move.b d,(a1) / add.w d,d */
    method RoundOut(d: word, ghost b: bits) returns (r: word)
      requires LowByte(d) == b
      modifies this`driven
      ensures LowByte(r) == b << 1 && driven == old(driven) + [b]
    {
      Drive(LowByte(d));
      r := d + d;
      LowByteShifts(d, b);
    }

    /** Eight moves to the port with an add.w between them. */
    method ShiftOut(d: word, ghost b: bits)
      requires LowByte(d) == b
      modifies this`driven
      ensures driven == old(driven) + EncodeByte(b)
    {
      hide LowByte;
      ShiftsAdd(b);
      var r := RoundOut(d, b);
      r := RoundOut(r, b << 1);
      r := RoundOut(r, b << 2);
      r := RoundOut(r, b << 3);
      r := RoundOut(r, b << 4);
      r := RoundOut(r, b << 5);
      r := RoundOut(r, b << 6);
      Drive(LowByte(r));
      Chain(old(driven), b, b << 1, b << 2, b << 3, b << 4, b << 5, b << 6, b << 7);
    }

    /** move.b (a1),d / add.w d,d */
    method Round(d: word) returns (r: word, ghost b: bits)
      modifies this`sampled
      ensures r == Step(d, b) && sampled == old(sampled) + [b]
    {
      hide MoveB;
      var sample := Sample();
      r := MoveB(d, sample);
      r := r + r;
      b := sample;
    }

    /** Eight samples with an add.w after each of the first seven: the last stays in the low byte. */
    method Shift(d: word) returns (r: word, ghost s: seq<bits>)
      modifies this`sampled
      ensures |s| == 8 && sampled == old(sampled) + s
      ensures r == MoveB(Shifted(d, s), s[7])
    {
      hide MoveB, Step;
      ghost var b0, b1, b2, b3, b4, b5, b6;
      r, b0 := Round(d);
      r, b1 := Round(r);
      r, b2 := Round(r);
      r, b3 := Round(r);
      r, b4 := Round(r);
      r, b5 := Round(r);
      r, b6 := Round(r);
      var last := Sample();
      r := MoveB(r, last);
      s := [b0, b1, b2, b3, b4, b5, b6, last];
      Chain(old(sampled), b0, b1, b2, b3, b4, b5, b6, last);
    }
  }

  /** Doubling a register shifts its low byte. */
  lemma LowByteShifts(d: word, b: bits)
    requires LowByte(d) == b
    ensures LowByte(d + d) == b << 1
  {
  }

  lemma ShiftsAdd(b: bits)
    ensures (b << 1) << 1 == b << 2 && (b << 2) << 1 == b << 3 && (b << 3) << 1 == b << 4
    ensures (b << 4) << 1 == b << 5 && (b << 5) << 1 == b << 6 && (b << 6) << 1 == b << 7
  {
  }

  lemma Chain(p: seq<bits>, b0: bits, b1: bits, b2: bits, b3: bits, b4: bits, b5: bits, b6: bits, b7: bits)
    ensures p + [b0] + [b1] + [b2] + [b3] + [b4] + [b5] + [b6] + [b7] == p + [b0, b1, b2, b3, b4, b5, b6, b7]
  {
  }

  function Step(d: word, s: bits): word {
    MoveB(d, s) + MoveB(d, s)
  }

  /** A register after seven rounds of move.b and add.w. */
  function Shifted(d: word, s: seq<bits>): word
    requires |s| == 8
  {
    Step(Step(Step(Step(Step(Step(Step(d, s[0]), s[1]), s[2]), s[3]), s[4]), s[5]), s[6])
  }

  /** After the eighth add.w the byte is in bits 8-15; after lsr.w #7 instead, in bits 0-7. */
  lemma ShiftedByte(d: word, s: seq<bits>)
    requires |s| == 8
    ensures var r := MoveB(Shifted(d, s), s[7]);
            && ((r + r) >> 8) as bits == DecodeByte(s)
            && LowByte(r >> 7) == DecodeByte(s)
  {
    ShiftedBits(d, s[0], s[1], s[2], s[3], s[4], s[5], s[6], s[7]);
  }

  lemma ShiftedBits(d: word, s0: bits, s1: bits, s2: bits, s3: bits, s4: bits, s5: bits, s6: bits, s7: bits)
    ensures var s := [s0, s1, s2, s3, s4, s5, s6, s7];
            var r := MoveB(Shifted(d, s), s7);
            && ((r + r) >> 8) as bits == DecodeByte(s)
            && LowByte(r >> 7) == DecodeByte(s)
  {
  }


  // ---- The transfer routines -------------------------------------------------------

  /** `after` is `before` with `n` bytes decoded from the samples `s` at `a`, and nothing else changed. */
  ghost predicate Filled(before: seq<bits>, after: seq<bits>, a: nat, n: nat, s: seq<bits>) {
    && |s| == 8 * n && a + n <= |before|
    && after == before[..a] + DecodeAll(s) + before[a + n..]
  }

  lemma FilledStart(m: seq<bits>, a: nat)
    requires a <= |m|
    ensures Filled(m, m, a, 0, [])
  {
  }

  lemma FilledLength(before: seq<bits>, m: seq<bits>, a: nat, n: nat, s: seq<bits>)
    requires Filled(before, m, a, n, s)
    ensures |m| == |before| && |s| == 8 * n
  {
  }

  /** One more byte after those already filled in. */
  lemma FilledByte(before: seq<bits>, m: seq<bits>, a: nat, n: nat, s: seq<bits>, t: seq<bits>)
    requires Filled(before, m, a, n, s) && |t| == 8 && a + n < |before|
    ensures |m| == |before| && Filled(before, m[a + n := DecodeByte(t)], a, n + 1, s + t)
  {
    DecodeAppend(s, t);
    hide DecodeByte, DecodeAll;
    var tail := before[a + n..];
    assert tail[1..] == before[a + (n + 1)..];
  }

  lemma {:induction false} DecodeConcat(s: seq<bits>, t: seq<bits>)
    requires |s| % 8 == 0 && |t| % 8 == 0
    ensures DecodeAll(s + t) == DecodeAll(s) + DecodeAll(t)
    decreases |s|
  {
    hide DecodeByte;
    if s == [] {
      assert s + t == t;
    } else {
      assert (s + t)[..8] == s[..8] && (s + t)[8..] == s[8..] + t;
      DecodeConcat(s[8..], t);
    }
  }

  lemma FilledMore(before: seq<bits>, m: seq<bits>, after: seq<bits>, a: nat, n: nat, s: seq<bits>, k: nat,
          t: seq<bits>)
    requires Filled(before, m, a, n, s) && Filled(m, after, a + n, k, t)
    ensures Filled(before, after, a, n + k, s + t)
  {
    DecodeConcat(s, t);
    hide DecodeAll;
    assert m[..a + n] == before[..a] + DecodeAll(s);
    assert m[a + n + k..] == before[a + (n + k)..];
  }

  /** move.w to memory: big-endian, and an address error unless the address is even. */
  method StoreWord(mem: array<bits>, a: nat, w: word)
    requires a % 2 == 0 && a + 1 < mem.Length
    modifies mem
    ensures mem[..] == old(mem[..])[a := (w >> 8) as bits][a + 1 := LowByte(w)]
  {
    mem[a] := (w >> 8) as bits;
    mem[a + 1] := LowByte(w);
  }

  /** move.b d2,d3: the high byte of d3 with the low byte of d2. */
  lemma Combine(d3: word, d2: word)
    ensures (MoveB(d3, LowByte(d2)) >> 8) as bits == (d3 >> 8) as bits
    ensures LowByte(MoveB(d3, LowByte(d2))) == LowByte(d2)
  {
  }

  /** One pass of the word loop: sixteen samples, one word stored. */
  method ReadWord(mem: array<bits>, a: nat, port: Port,
        ghost before: seq<bits>, ghost a0: nat, ghost n: nat, ghost s: seq<bits>)
    returns (ghost t: seq<bits>)
    requires a % 2 == 0 && Filled(before, mem[..], a0, n, s) && a == a0 + n && a + 2 <= |before|
    modifies mem, port`sampled
    ensures |t| == 16 && port.sampled == old(port.sampled) + t
    ensures Filled(before, mem[..], a0, n + 2, s + t)
  {
    hide MoveB, DecodeByte, DecodeAll, LowByte, Filled, Shifted;
    var d2: word, d3: word := *, *;       // whatever the caller left in them
    ghost var t1, t2;
    ghost var r3 := d3;
    d3, t1 := port.Shift(d3);
    ShiftedByte(r3, t1);
    d3 := d3 + d3;
    ghost var r2 := d2;
    d2, t2 := port.Shift(d2);
    ShiftedByte(r2, t2);
    d2 := d2 >> 7;
    Combine(d3, d2);
    d3 := MoveB(d3, LowByte(d2));
    FilledByte(before, mem[..], a0, n, s, t1);
    FilledByte(before, mem[..][a := DecodeByte(t1)], a0, n + 1, s + t1, t2);
    StoreWord(mem, a, d3);
    t := t1 + t2;
    Chained(s, t1, t2);
  }

  lemma Chained(a: seq<bits>, b: seq<bits>, c: seq<bits>)
    ensures a + b + c == a + (b + c)
  {
  }

  /** The word loop: dbra counts the number of words, less one, down to -1. */
  method ReadWords(mem: array<bits>, a0: nat, words: nat, port: Port) returns (ghost s: seq<bits>)
    requires a0 % 2 == 0 && 1 <= words < 0x8000 && a0 + 2 * words <= mem.Length
    modifies mem, port`sampled
    ensures |s| == 16 * words && port.sampled == old(port.sampled) + s
    ensures Filled(old(mem[..]), mem[..], a0, 2 * words, s)
  {
    ghost var before := mem[..];
    var a: nat, d1: nat := a0, words - 1;
    ghost var done: nat := 0;
    s := [];
    FilledStart(before, a0);
    hide Filled;
    while d1 != 0xffff
      invariant done <= words && d1 == if done == words then 0xffff else words - done - 1
      invariant |s| == 16 * done && a == a0 + 2 * done
      invariant port.sampled == old(port.sampled) + s
      invariant Filled(before, mem[..], a0, 2 * done, s)
      decreases words - done
    {
      ghost var t := ReadWord(mem, a, port, before, a0, 2 * done, s);
      Chained(old(port.sampled), s, t);
      s := s + t;
      a := a + 2;
      done := done + 1;
      d1 := if d1 == 0 then 0xffff else d1 - 1;
    }
  }

  /** The byte path: eight samples, one byte stored. */
  method ReadByte(mem: array<bits>, a: nat, port: Port,
        ghost before: seq<bits>, ghost a0: nat, ghost n: nat, ghost s: seq<bits>)
    returns (ghost t: seq<bits>)
    requires Filled(before, mem[..], a0, n, s) && a == a0 + n && a < |before|
    modifies mem, port`sampled
    ensures |t| == 8 && port.sampled == old(port.sampled) + t
    ensures Filled(before, mem[..], a0, n + 1, s + t)
  {
    hide MoveB, DecodeByte, DecodeAll, LowByte, Filled, Shifted;
    var d1: word := *;
    ghost var r := d1;
    d1, t := port.Shift(d1);
    ShiftedByte(r, t);
    FilledByte(before, mem[..], a0, n, s, t);
    mem[a] := LowByte(d1 >> 7);
  }

  /** The word path: as many whole words as are left, at an even address. */
  method WordPath(mem: array<bits>, a: nat, d0: nat, port: Port,
        ghost before: seq<bits>, ghost a0: nat, ghost n: nat, ghost s: seq<bits>)
    returns (d: nat, ghost t: seq<bits>)
    requires a % 2 == 0 && d0 < 0x10000 && a + d0 <= |before|
    requires Filled(before, mem[..], a0, n, s) && a == a0 + n
    modifies mem, port`sampled
    ensures d == d0 % 2 && d <= d0 && (a + (d0 - d)) % 2 == 0
    ensures port.sampled == old(port.sampled) + t
    ensures Filled(before, mem[..], a0, n + (d0 - d), s + t)
  {
    var words := d0 / 2;
    d, t := d0 % 2, [];
    assert d0 == 2 * words + d && s + [] == s;
    if words != 0 {
      FilledLength(before, mem[..], a0, n, s);
      ghost var m := mem[..];
      t := ReadWords(mem, a, words, port);
      FilledMore(before, m, mem[..], a0, n, s, 2 * words, t);
    }
    hide Filled;
  }

  /** From .read_word (or .read_byte) to the jump back: at most one byte ends the pass. */
  method Pass(mem: array<bits>, a: nat, d0: nat, atByte: bool, port: Port,
        ghost before: seq<bits>, ghost a0: nat, ghost n: nat, ghost s: seq<bits>)
    returns (d: nat, ghost t: seq<bits>)
    requires 0 < d0 < 0x10000 && a + d0 <= |before| && (if atByte then a % 2 == 1 else a % 2 == 0)
    requires Filled(before, mem[..], a0, n, s) && a == a0 + n
    modifies mem, port`sampled
    ensures d == (if atByte then d0 - 1 else 0)
    ensures port.sampled == old(port.sampled) + t
    ensures Filled(before, mem[..], a0, n + (d0 - d), s + t)
  {
    hide Filled;
    d, t := d0, [];
    assert s + [] == s;
    if !atByte {
      d, t := WordPath(mem, a, d0, port, before, a0, n, s);
    }
    if d != 0 {
      ghost var u := ReadByte(mem, a + (d0 - d), port, before, a0, n + (d0 - d), s + t);
      Chained(s, t, u);
      Chained(old(port.sampled), t, u);
      t := t + u;
      d := d - 1;
    }
  }

  /**
   spi_read_fast: the bytes at `a0` become the simple byte loop's decoding of the samples, for
   every parity of `a0` and every size; words are only ever stored at even addresses.
   */
  method ReadFast(mem: array<bits>, a0: nat, size: nat, port: Port) returns (ghost s: seq<bits>)
    requires size < 0x10000 && a0 + size <= mem.Length
    modifies mem, port`sampled
    ensures |s| == 8 * size && port.sampled == old(port.sampled) + s
    ensures Filled(old(mem[..]), mem[..], a0, size, s)
  {
    ghost var before := mem[..];
    var d0: nat := size;
    var atByte := a0 % 2 == 1;             // branch if the address is odd
    s := [];
    FilledStart(before, a0);
    hide Filled;
    while d0 != 0
      invariant d0 <= size
      invariant d0 != 0 ==> if atByte then (a0 + (size - d0)) % 2 == 1 else (a0 + (size - d0)) % 2 == 0
      invariant port.sampled == old(port.sampled) + s
      invariant Filled(before, mem[..], a0, size - d0, s)
      decreases d0
    {
      ghost var n, u := size - d0, s;
      ghost var t;
      d0, t := Pass(mem, a0 + (size - d0), d0, atByte, port, before, a0, n, s);
      s := s + t;
      Chained(old(port.sampled), u, t);
      atByte := false;
    }
    FilledLength(before, mem[..], a0, size, s);
  }

  /** spi_write_fast: dbra counts size - 1 down to -1; an empty buffer drives nothing. */
  method WriteFast(buf: seq<bits>, port: Port)
    requires |buf| < 0x10000
    modifies port`driven
    ensures port.driven == old(port.driven) + EncodeAll(buf)
  {
    var a: nat, d0: nat := 0, |buf|;
    assert EncodeAll(buf[..0]) == [];
    hide EncodeAll;
    d0 := if d0 == 0 then 0xffff else d0 - 1;
    while d0 != 0xffff
      invariant a <= |buf| && d0 == if a == |buf| then 0xffff else |buf| - a - 1
      invariant port.driven == old(port.driven) + EncodeAll(buf[..a])
      decreases |buf| - a
    {
      hide EncodeByte;
      var d1: word := *;
      d1 := MoveB(d1, buf[a]);
      port.ShiftOut(d1, buf[a]);
      EncodeAppend(buf[..a], buf[a]);
      assert buf[..a + 1] == buf[..a] + [buf[a]];
      Chained(old(port.driven), EncodeAll(buf[..a]), EncodeByte(buf[a]));
      a := a + 1;
      d0 := if d0 == 0 then 0xffff else d0 - 1;
    }
    assert buf[..a] == buf;
  }
}
