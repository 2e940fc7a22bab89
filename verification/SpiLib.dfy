/** spi_read and spi_write: at either speed the bytes are the same, and reading undoes writing. */
module SpiLib {
  import opened SpiLow

  /** A call of one of the assembly routines for so many bytes, or a pause of 40 us. */
  datatype Act = Transfer(size: nat) | Pause

  /** The slow forms move one byte at a time; a pause follows each byte read, but none a byte written. */
  function SlowRead(n: nat): (h: seq<Act>)
    ensures |h| == 2 * n
  {
    seq(2 * n, i => if i % 2 == 0 then Transfer(1) else Pause)
  }

  function SlowWrite(n: nat): (h: seq<Act>)
    ensures |h| == n
  {
    seq(n, _ => Transfer(1))
  }

  class Spi {
    const port: Port
    var fast: bool
    ghost var acts: seq<Act>

    constructor (p: Port)
      ensures port == p && !fast && acts == []
    {
      port, fast, acts := p, false, [];
    }

    /** spi_read_fast, noted. */
    method Fetch(mem: array<bits>, a: nat, size: nat) returns (ghost s: seq<bits>)
      requires size < 0x1_0000 && a + size <= mem.Length
      modifies mem, port`sampled, this`acts
      ensures port.sampled == old(port.sampled) + s && acts == old(acts) + [Transfer(size)]
      ensures Filled(old(mem[..]), mem[..], a, size, s)
    {
      s := ReadFast(mem, a, size, port);
      acts := acts + [Transfer(size)];
    }

    /** spi_write_fast, noted. */
    method Send(buf: seq<bits>)
      requires |buf| < 0x1_0000
      modifies port`driven, this`acts
      ensures port.driven == old(port.driven) + EncodeAll(buf) && acts == old(acts) + [Transfer(|buf|)]
    {
      WriteFast(buf, port);
      acts := acts + [Transfer(|buf|)];
    }

    /** wait_40_us. */
    method Wait()
      modifies this`acts
      ensures acts == old(acts) + [Pause]
    {
      acts := acts + [Pause];
    }

    /** spi_set_speed. */
    method SetSpeed(f: bool)
      modifies this`fast
      ensures fast == f
    {
      fast := f;
    }

    /** spi_read_slow: single-byte fast reads with a pause after each. */
    method ReadSlow(mem: array<bits>, a: nat, size: nat) returns (ghost s: seq<bits>)
      requires size < 0x1_0000 && a + size <= mem.Length
      modifies mem, port`sampled, this`acts
      ensures port.sampled == old(port.sampled) + s && acts == old(acts) + SlowRead(size)
      ensures Filled(old(mem[..]), mem[..], a, size, s)
    {
      ghost var before := mem[..];
      s := [];
      FilledStart(before, a);
      hide Filled;
      for i := 0 to size
        invariant port.sampled == old(port.sampled) + s && acts == old(acts) + SlowRead(i)
        invariant Filled(before, mem[..], a, i, s)
      {
        ghost var m, u := mem[..], s;
        ghost var t := Fetch(mem, a + i, 1);
        Wait();
        assert SlowRead(i + 1) == SlowRead(i) + [Transfer(1)] + [Pause];
        FilledMore(before, m, mem[..], a, i, s, 1, t);
        s := s + t;
        Chained(old(port.sampled), u, t);
      }
    }

    /** spi_read: at either speed the same bytes. */
    method Read(mem: array<bits>, a: nat, size: nat) returns (ghost s: seq<bits>)
      requires size < 0x1_0000 && a + size <= mem.Length
      modifies mem, port`sampled, this`acts
      ensures port.sampled == old(port.sampled) + s
      ensures acts == old(acts) + if fast then [Transfer(size)] else SlowRead(size)
      ensures Filled(old(mem[..]), mem[..], a, size, s)
    {
      if fast {
        s := Fetch(mem, a, size);
      } else {
        s := ReadSlow(mem, a, size);
      }
    }

    /** spi_write_slow: single-byte fast writes. */
    method WriteSlow(buf: seq<bits>)
      requires |buf| < 0x1_0000
      modifies port`driven, this`acts
      ensures port.driven == old(port.driven) + EncodeAll(buf) && acts == old(acts) + SlowWrite(|buf|)
    {
      hide EncodeAll;
      EncodeEmpty();
      for i := 0 to |buf|
        invariant port.driven == old(port.driven) + EncodeAll(buf[..i]) && acts == old(acts) + SlowWrite(i)
      {
        Send([buf[i]]);
        assert SlowWrite(i + 1) == SlowWrite(i) + [Transfer(1)];
        EncodeNext(buf, i);
        Chained(old(port.driven), EncodeAll(buf[..i]), EncodeAll([buf[i]]));
      }
      assert buf[..|buf|] == buf;
    }

    /** spi_write: at either speed the same bits. */
    method Write(buf: seq<bits>)
      requires |buf| < 0x1_0000
      modifies port`driven, this`acts
      ensures port.driven == old(port.driven) + EncodeAll(buf)
      ensures acts == old(acts) + if fast then [Transfer(|buf|)] else SlowWrite(|buf|)
    {
      if fast {
        Send(buf);
      } else {
        WriteSlow(buf);
      }
    }
  }

  lemma EncodeEmpty()
    ensures EncodeAll([]) == []
  {
  }

  lemma EncodeNext(buf: seq<bits>, i: nat)
    requires i < |buf|
    ensures EncodeAll(buf[..i + 1]) == EncodeAll(buf[..i]) + EncodeAll([buf[i]])
  {
    hide EncodeByte;
    assert buf[..i + 1] == buf[..i] + [buf[i]];
    EncodeAppend(buf[..i], buf[i]);
    assert [] + [buf[i]] == [buf[i]];
    EncodeAppend([], buf[i]);
  }

  /**
   Reading, at any address and speed, port samples that carry on their data line what writing
   `buf` drove, stores `buf` there and changes nothing else.
   */
  lemma Loopback(before: seq<bits>, after: seq<bits>, a: nat, buf: seq<bits>, s: seq<bits>)
    requires Filled(before, after, a, |buf|, s)
    requires forall i :: 0 <= i < |s| ==> s[i] >> 7 == EncodeAll(buf)[i] >> 7
    ensures after == before[..a] + buf + before[a + |buf|..]
  {
    OnlyDataLineMatters(s, EncodeAll(buf));
    RoundTrip(buf);
  }
}
