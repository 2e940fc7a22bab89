/** What the contracts of sd_read, sd_write and sd_open give together. */
module SdTheorems {
  import opened Words
  import opened SdCard
  import opened SdCsd
  import opened SdLink
  import opened SdDriver
  import B = SpiBus

  /** The 32-bit shift keeps a byte address right exactly for sectors below 2^23. */
  lemma ByteAddressIff(t: CardType, sector: ulong)
    ensures FirstByte(t, sector) == 512 * sector <==> t == SDHC || sector < 0x80_0000
  {
  }

  /** Nothing but `n` sectors has changed, and they hold the data. */
  ghost predicate Replaced(m0: seq<byte>, m1: seq<byte>, a: nat, data: seq<byte>, n: nat) {
    512 * n <= |data| && a + 512 * n <= |m0| && m1 == m0[..a] + data[..512 * n] + m0[a + 512 * n..]
  }

  /** A completed write replaces its sectors and nothing else. */
  lemma WriteReplaces(m0: seq<byte>, m1: seq<byte>, a: nat, data: seq<byte>, n: nat)
    requires Landed(m0, m1, a, data, n, n) && 1 <= n
    ensures Replaced(m0, m1, a, data, n)
  {
  }

  lemma ReplacedSame(m0: seq<byte>, m1: seq<byte>, m2: seq<byte>, a: nat, data: seq<byte>, n: nat)
    requires Replaced(m0, m1, a, data, n) && Replaced(m0, m2, a, data, n)
    ensures m1 == m2
  {
  }

  /** Reading back what was written gives the data, and leaves the rest of the buffer alone. */
  lemma ReadAfterWrite(m0: seq<byte>, m1: seq<byte>, a: nat, data: seq<byte>, n: nat, w: nat, b0: seq<byte>,
          b1: seq<byte>)
    requires 1 <= n && Landed(m0, m1, a, data, n, w) && Fetched(m1, a, b0, b1, n)
    ensures b1 == data[..512 * n] + b0[512 * n..]
  {
    assert m1[a..a + 512 * n] == data[..512 * n];
  }

  // ---- One call or many ---------------------------------------------------------------------

  /** `n` sectors from this one on, none of whose addresses wraps. */
  predicate Straight(t: CardType, sector: ulong, n: nat) {
    sector + n <= 0x1_0000_0000 && (t == SDHC || sector % 0x80_0000 + n <= 0x80_0000)
  }

  lemma InReach(t: CardType, sector: ulong, n: nat, i: nat)
    requires Straight(t, sector, n) && i < n
    ensures sector + i < 0x1_0000_0000
  {
  }

  /** The sectors of a transfer follow each other on the card exactly if no byte address wraps. */
  lemma AddressesFollowIff(t: CardType, sector: ulong, n: nat)
    requires sector + n <= 0x1_0000_0000
    ensures (forall i :: 0 <= i < n ==> FirstByte(t, sector + i) == FirstByte(t, sector) + 512 * i)
            <==> n == 0 || Straight(t, sector, n)
  {
    if n == 0 {
    } else if Straight(t, sector, n) {
      forall i | 0 <= i < n ensures FirstByte(t, sector + i) == FirstByte(t, sector) + 512 * i {
        AddressFollows(t, sector, n, i);
      }
    } else {
      var i := AddressWraps(t, sector, n);
    }
    hide FirstByte, Straight;
  }

  lemma AddressFollows(t: CardType, sector: ulong, n: nat, i: nat)
    requires Straight(t, sector, n) && i < n
    ensures sector + i < 0x1_0000_0000 && FirstByte(t, sector + i) == FirstByte(t, sector) + 512 * i
  {
    if t != SDHC {
      var top := sector - sector % 0x80_0000;
      Multiple(sector);
      Wrapped(t, sector, top);
      Wrapped(t, sector + i, top);
      hide FirstByte;
    }
  }

  lemma AddressWraps(t: CardType, sector: ulong, n: nat) returns (i: nat)
    requires sector + n <= 0x1_0000_0000 && !Straight(t, sector, n)
    ensures i < n && FirstByte(t, sector + i) != FirstByte(t, sector) + 512 * i
  {
    i := 0x80_0000 - sector % 0x80_0000;
    Multiple(sector);
    Wrapped(t, sector + i, sector + i);
    hide FirstByte;
  }

  lemma Multiple(sector: nat)
    ensures var top := sector - sector % 0x80_0000;
            0 <= top <= sector < top + 0x80_0000 && top % 0x80_0000 == 0 && (top + 0x80_0000) % 0x80_0000 == 0
  {
  }

  lemma Wrapped(t: CardType, sector: ulong, top: nat)
    requires t != SDHC && top % 0x80_0000 == 0 && top <= sector < top + 0x80_0000
    ensures FirstByte(t, sector) == 512 * (sector - top)
  {
    var q := top / 0x80_0000;
    assert sector * 512 == 512 * (sector - top) + q * 0x1_0000_0000;
  }

  /** A prompt card that has `n` blocks from `a` on. */
  ghost predicate Holds(sd: Sd, a: nat, n: nat)
    reads sd, sd.link, sd.link.slot, sd.info
  {
    var r := sd.link.slot.card.regs;
    sd.info.cardType != NoneType && Prompt(r) && a + 512 * n <= |r.mem|
  }

  ghost predicate BothHold(s: Sd, t: Sd, a: nat, n: nat)
    reads s, s.link, s.link.slot, s.info, t, t.link, t.link.slot, t.info
  {
    Holds(s, a, n) && Holds(t, a, n)
  }

  /** One block of a larger buffer. */
  method Block(data: array<byte>, i: nat) returns (one: array<byte>)
    requires 512 * i + 512 <= data.Length
    ensures fresh(one) && one[..] == data[512 * i..512 * i + 512]
  {
    one := new byte[512](j requires 0 <= j < 512 reads data => data[512 * i + j]);
  }

  /** Block `i` of a buffer, written to one sector. */
  method WriteSingle(sd: Sd, data: array<byte>, i: nat, sector: ulong) returns (ok: bool)
    requires sd.Valid() && 512 * i + 512 <= data.Length
    modifies sd.link, sd.link.slot
    ensures sd.Valid() && |sd.link.slot.card.regs.mem| == |old(sd.link.slot.card.regs.mem)|
    ensures ok ==> Landed(old(sd.link.slot.card.regs.mem), sd.link.slot.card.regs.mem,
                          FirstByte(sd.info.cardType, sector), data[512 * i..512 * i + 512], 1, 1)
    ensures ok && old(Prompt(sd.link.slot.card.regs)) ==> Prompt(sd.link.slot.card.regs)
    ensures old(Holds(sd, FirstByte(sd.info.cardType, sector), 1)) ==> ok
  {
    hide FirstByte, Landed, Prompt, Traced, WriteCommands, B.SdCall, Readies, CutOff;
    var one := Block(data, i);
    var err;
    ghost var k, mid;
    err, k, mid := sd.Write(one, sector, 1);
    ok := err == 0;
  }

  /** Sectors written one by one. Each call must complete. */
  method WriteSingles(sd: Sd, data: array<byte>, sector: ulong, n: nat) returns (ok: bool)
    requires sd.Valid() && 1 <= n && 512 * n <= data.Length
    requires Straight(sd.info.cardType, sector, n)
    modifies sd.link, sd.link.slot
    ensures sd.Valid()
    ensures ok ==> Replaced(old(sd.link.slot.card.regs.mem), sd.link.slot.card.regs.mem,
                            FirstByte(sd.info.cardType, sector), data[..], n)
    ensures old(Holds(sd, FirstByte(sd.info.cardType, sector), n)) ==> ok
  {
    ghost var m0, a := sd.link.slot.card.regs.mem, FirstByte(sd.info.cardType, sector);
    ghost var safe := Holds(sd, a, n);
    LandedStart(m0, a, data[..], 0);
    ok := true;
    for i := 0 to n
      invariant sd.Valid() && |sd.link.slot.card.regs.mem| == |m0|
      invariant ok ==> Landed(m0, sd.link.slot.card.regs.mem, a, data[..], i, i)
      invariant ok && safe ==> Prompt(sd.link.slot.card.regs)
      invariant safe ==> ok
    {
      hide FirstByte, Landed, Fetched, Prompt, Straight;
      ghost var m1 := sd.link.slot.card.regs.mem;
      InReach(sd.info.cardType, sector, n, i);
      AddressFollows(sd.info.cardType, sector, n, i);
      ok := WriteSingle(sd, data, i, sector + i);
      if !ok { return; }
      LandedBlock(m0, m1, sd.link.slot.card.regs.mem, a, data[..], data[512 * i..512 * i + 512], i);
    }
    WriteReplaces(m0, sd.link.slot.card.regs.mem, a, data[..], n);
  }

  lemma LandedBlock(m0: seq<byte>, m1: seq<byte>, m2: seq<byte>, a: nat, data: seq<byte>, one: seq<byte>, i: nat)
    requires Landed(m0, m1, a, data, i, i) && Landed(m1, m2, a + 512 * i, one, 1, 1)
    requires 512 * i + 512 <= |data| && one == data[512 * i..512 * i + 512]
    ensures Landed(m0, m2, a, data, i + 1, i + 1)
  {
  }

  /** On two cards with the same contents: sectors written by one call, and by a call for each. */
  method MultiWriteIsSingles(s: Sd, t: Sd, data: array<byte>, sector: ulong, count: ulong) returns (ok: bool)
    requires s.Valid() && t.Valid() && s.link != t.link && s.link.slot != t.link.slot
    requires s.info.cardType == t.info.cardType && s.link.slot.card.regs.mem == t.link.slot.card.regs.mem
    requires 512 * Blocks(count) <= data.Length
    requires Straight(s.info.cardType, sector, Blocks(count))
    requires Prompt(s.link.slot.card.regs) || s.link.slot.card.regs.preErase <= Blocks(count)
    modifies s.link, s.link.slot, t.link, t.link.slot
    ensures s.Valid() && t.Valid()
    ensures ok ==> s.link.slot.card.regs.mem == t.link.slot.card.regs.mem
                   && Replaced(old(s.link.slot.card.regs.mem), s.link.slot.card.regs.mem,
                               FirstByte(s.info.cardType, sector), data[..], Blocks(count))
    ensures old(BothHold(s, t, FirstByte(s.info.cardType, sector), Blocks(count))) ==> ok
  {
    hide Landed, FirstByte, Traced, WriteCommands, B.SdCall, Readies, CutOff, Replaced;
    ghost var m0, a := s.link.slot.card.regs.mem, FirstByte(s.info.cardType, sector);
    var err;
    ghost var k, mid;
    err, k, mid := s.Write(data, sector, count);
    ghost var m1 := s.link.slot.card.regs.mem;
    if err == 0 { WriteReplaces(m0, m1, a, data[..], Blocks(count)); }
    var all := WriteSingles(t, data, sector, Blocks(count));
    ok := err == 0 && all;
    if ok { ReplacedSame(m0, m1, t.link.slot.card.regs.mem, a, data[..], Blocks(count)); }
  }

  /** Sectors read one by one into a buffer. */
  method ReadSingles(sd: Sd, buf: array<byte>, sector: ulong, n: nat) returns (ok: bool)
    requires sd.Valid() && 1 <= n && 512 * n <= buf.Length
    requires Straight(sd.info.cardType, sector, n)
    modifies sd.link, sd.link.slot, buf
    ensures sd.Valid() && sd.link.slot.card.regs.mem == old(sd.link.slot.card.regs.mem)
    ensures ok ==> Fetched(sd.link.slot.card.regs.mem, FirstByte(sd.info.cardType, sector), old(buf[..]), buf[..], n)
    ensures old(Holds(sd, FirstByte(sd.info.cardType, sector), n)) ==> ok
  {
    ghost var m, a, b0 := sd.link.slot.card.regs.mem, FirstByte(sd.info.cardType, sector), buf[..];
    ghost var safe := Holds(sd, a, n);
    FetchedStart(m, a, b0);
    hide FirstByte, Fetched, Prompt, Stored, SectorAt, Straight;
    ok := true;
    for i := 0 to n
      invariant sd.Valid() && sd.link.slot.card.regs.mem == m && ok
      invariant Fetched(m, a, b0, buf[..], i) && (safe ==> Holds(sd, a, n))
    {
      ok := ReadNext(sd, buf, sector, n, i, b0);
      if !ok { return; }
    }
  }

  /** Sector `i` of them, those before being in the buffer. */
  method ReadNext(sd: Sd, buf: array<byte>, sector: ulong, n: nat, i: nat, ghost b0: seq<byte>) returns (ok: bool)
    requires sd.Valid() && i < n && 512 * n <= buf.Length
    requires Straight(sd.info.cardType, sector, n)
    requires Fetched(sd.link.slot.card.regs.mem, FirstByte(sd.info.cardType, sector), b0, buf[..], i)
    modifies sd.link, sd.link.slot, buf
    ensures sd.Valid() && sd.link.slot.card.regs.mem == old(sd.link.slot.card.regs.mem)
    ensures ok ==> Fetched(sd.link.slot.card.regs.mem, FirstByte(sd.info.cardType, sector), b0, buf[..], i + 1)
    ensures old(Holds(sd, FirstByte(sd.info.cardType, sector), n)) ==>
              ok && Holds(sd, FirstByte(sd.info.cardType, sector), n)
  {
    hide FirstByte, Fetched, Prompt, Stored, SectorAt, Straight;
    ghost var m, a, b1 := sd.link.slot.card.regs.mem, FirstByte(sd.info.cardType, sector), buf[..];
    InReach(sd.info.cardType, sector, n, i);
    AddressFollows(sd.info.cardType, sector, n, i);
    ghost var f := FirstByte(sd.info.cardType, sector + i);
    ok := ReadSingle(sd, buf, i, sector + i);
    if ok { FetchedSector(m, a, b0, b1, i, buf[..], f); }
  }

  /** The block at `a`. */
  function SectorAt(m: seq<byte>, a: nat): (s: seq<byte>)
    requires a + 512 <= |m|
    ensures |s| == 512
  {
    m[a..a + 512]
  }

  lemma FetchedSector(m: seq<byte>, a: nat, b0: seq<byte>, b1: seq<byte>, i: nat, b2: seq<byte>, f: nat)
    requires f == a + 512 * i && f + 512 <= |m| && Fetched(m, a, b0, b1, i) && Stored(b1, b2, 512 * i, SectorAt(m, f))
    ensures Fetched(m, a, b0, b2, i + 1)
  {
    hide Fetched, Stored;
    FetchedNext(m, a, b0, b1, i, b2);
  }

  lemma FetchedSame(m: seq<byte>, a: nat, b0: seq<byte>, b1: seq<byte>, b2: seq<byte>, n: nat)
    requires Fetched(m, a, b0, b1, n) && Fetched(m, a, b0, b2, n)
    ensures b1 == b2
  {
  }

  /** Block `i` of a buffer, read from one sector. */
  method ReadSingle(sd: Sd, buf: array<byte>, i: nat, sector: ulong) returns (ok: bool)
    requires sd.Valid() && 512 * i + 512 <= buf.Length
    modifies sd.link, sd.link.slot, buf
    ensures sd.Valid() && sd.link.slot.card.regs.mem == old(sd.link.slot.card.regs.mem)
    ensures ok ==> FirstByte(sd.info.cardType, sector) + 512 <= |sd.link.slot.card.regs.mem|
                   && Stored(old(buf[..]), buf[..], 512 * i,
                             SectorAt(sd.link.slot.card.regs.mem, FirstByte(sd.info.cardType, sector)))
    ensures ok && old(Prompt(sd.link.slot.card.regs)) ==> Prompt(sd.link.slot.card.regs)
    ensures old(Holds(sd, FirstByte(sd.info.cardType, sector), 1)) ==> ok
  {
    hide FirstByte, Stored, CutOff;
    var one := new byte[512];
    var err;
    ghost var k;
    err, k := sd.Read(one, sector, 1);
    ok := err == 0;
    if ok {
      assert one[..] == SectorAt(sd.link.slot.card.regs.mem, FirstByte(sd.info.cardType, sector));
      StoreBlock(buf, one, 512 * i);
    }
  }

  method StoreBlock(buf: array<byte>, one: array<byte>, off: nat)
    requires one.Length == 512 && off + 512 <= buf.Length && buf != one
    modifies buf
    ensures Stored(old(buf[..]), buf[..], off, one[..])
  {
    forall j | 0 <= j < 512 { buf[off + j] := one[j]; }
  }

  /** On two cards with the same contents: sectors read by one call, and by a call for each. */
  method MultiReadIsSingles(s: Sd, t: Sd, b: array<byte>, c: array<byte>, sector: ulong,
          count: ulong) returns (ok: bool)
    requires s.Valid() && t.Valid() && s.link != t.link && s.link.slot != t.link.slot
    requires s.info.cardType == t.info.cardType && s.link.slot.card.regs.mem == t.link.slot.card.regs.mem
    requires b != c && 512 * Blocks(count) <= b.Length == c.Length && b[..] == c[..]
    requires Straight(s.info.cardType, sector, Blocks(count))
    modifies s.link, s.link.slot, t.link, t.link.slot, b, c
    ensures s.Valid() && t.Valid()
    ensures ok ==> b[..] == c[..]
    ensures old(BothHold(s, t, FirstByte(s.info.cardType, sector), Blocks(count))) ==> ok
  {
    hide FirstByte, Fetched, CutOff, B.SdCall, Readies;
    ghost var m, a, b0 := s.link.slot.card.regs.mem, FirstByte(s.info.cardType, sector), b[..];
    var err;
    ghost var k;
    err, k := s.Read(b, sector, count);
    var all := ReadSingles(t, c, sector, Blocks(count));
    ok := err == 0 && all;
    if ok { FetchedSame(m, a, b0, b[..], c[..], Blocks(count)); }
  }

  // ---- The erase count ------------------------------------------------------------------------

  /** CMD25 at `a` can change nothing but `n` blocks from there on. */
  ghost predicate Contained(r: Regs, arg: ulong, n: nat) {
    forall ch :: Taken(r, 25, arg, 1, ch) ==> Landed(r.mem, Effect(r, 25, arg, 1, ch).mem, Address(r, arg), [], 0, n)
  }

  /** What CMD25 may erase stays among the blocks written exactly if the count does, or the card ends there. */
  lemma ContainedIff(r: Regs, arg: ulong, n: nat)
    requires r.ready && r.blockLen == 512 && InRange(r, Address(r, arg))
    ensures Contained(r, arg, n) <==> r.preErase <= n || Address(r, arg) + 512 * n >= |r.mem|
  {
    hide Address, Landed, Erased, InRange;
    if r.preErase <= n || Address(r, arg) + 512 * n >= |r.mem| {
      forall ch ensures Landed(r.mem, Erased(r.(app := false), Address(r, arg), ch).mem, Address(r, arg), [], 0, n) {
        ErasedInside(r.(app := false), Address(r, arg), n, ch);
      }
    } else {
      var ch := ErasedOutside(r.(app := false), Address(r, arg), n);
      assert Taken(r, 25, arg, 1, ch);
    }
  }

  lemma ErasedInside(r: Regs, a: nat, n: nat, ch: Choice)
    requires r.blockLen == 512 && (r.preErase <= n || a + 512 * n >= |r.mem|)
    ensures Landed(r.mem, Erased(r, a, ch).mem, a, [], 0, n)
  {
    assert EraseSize(r, a) <= 512 * n || a + 512 * n >= |r.mem|;
    hide EraseSize;
  }

  /** Contents that differ behind the blocks written. */
  lemma ErasedOutside(r: Regs, a: nat, n: nat) returns (ch: Choice)
    requires r.blockLen == 512 && n < r.preErase && a + 512 * n < |r.mem|
    ensures !ch.refuse && !Landed(r.mem, Erased(r, a, ch).mem, a, [], 0, n)
  {
    var at, size := a + 512 * n, EraseSize(r, a);
    assert 512 * n < size;
    var junk := seq(size, _ => if r.mem[at] == 0 then 1 else 0);
    ch := Choice(false, 0, 0, 0, 0, false, 0, 0, 0, 0, junk);
    assert Erased(r, a, ch).mem == r.mem[..a] + junk + r.mem[a + size..];
    hide EraseSize, Erased;
    assert (r.mem[..a] + junk + r.mem[a + size..])[at] == junk[512 * n];
  }

  /** A version 1 card of four blocks that is slow at times. */
  function SlowCard(): Regs {
    Regs(V1, true, seq(16, _ => 0), seq(16, _ => 0), false, 0, seq(2048, _ => 7), 0, true, false, 512, 0, false)
  }

  function Calm(junk: seq<byte>): Choice {
    Choice(false, 0, 0, 0, 0, false, 0, 0, 0, 0, junk)
  }

  /** A first write, of three blocks at sector 0: the card is busy for too long when CMD25 is due... */
  function FirstCommands(): seq<Issue> {
    var r := SlowCard();
    [Issue(55, 0, true, Calm([]), r), Issue(23, 3, true, Calm([]), r.(app := true)),
     Issue(25, 0, false, Calm([]), r.(preErase := 3))]
  }

  /** ...and a second, of two blocks there: it is busy for too long when CMD55 is due. */
  function SecondCommands(): seq<Issue> {
    var r := SlowCard().(preErase := 3);
    [Issue(55, 0, false, Calm([]), r), Issue(25, 0, true, Calm(seq(1536, _ => 0)), r)]
  }

  /** Every step of the two calls is one of those that the contract of sd_write describes. */
  lemma StaleCountErases(data: seq<byte>)
    requires |data| == 1024
    ensures var r0, r1 := SlowCard(), SlowCard().(preErase := 3);
            && Commanded(SD1x, 0, 3, r0, r0, [], FirstCommands(), r1)
            && Wrote(r0, Card(r1, true, [], Idle(0), true, 10), r1, 0, data + data, 3, BAD_RESPONSE, 0, 3)
    ensures var r1, mid := SlowCard().(preErase := 3), SlowCard().(mem := seq(1536, _ => 0) + seq(512, _ => 7));
            var r2 := mid.(mem := data + seq(512, _ => 0) + seq(512, _ => 7));
            && Commanded(SD1x, 0, 2, r1, r1, [], SecondCommands(), mid)
            && Wrote(r1, Card(r2, true, [], Idle(0), true, 10), mid, 0, data, 2, OK, 2,
                     EraseRange(2, 3, SecondCommands()))
            && EraseRange(2, 3, SecondCommands()) == 3 && r2.mem[1024] != r1.mem[1024]
  {
    FirstTraced();
    SecondTraced();
    var r0, r1 := SlowCard(), SlowCard().(preErase := 3);
    var f, g := FirstCommands(), SecondCommands();
    assert f[0..] == f && g[0..] == g;
    assert f[..2] == [f[0], f[1]] && g[..1] == [g[0]];
    assert Wrote(r0, Card(r1, true, [], Idle(0), true, 10), r1, 0, data + data, 3, BAD_RESPONSE, 0, 3);
    var mid := SlowCard().(mem := seq(1536, _ => 0) + seq(512, _ => 7));
    var r2 := mid.(mem := data + seq(512, _ => 0) + seq(512, _ => 7));
    assert Landed(mid.mem, r2.mem, 0, data, 2, 2);
    assert Landed(r1.mem, r2.mem, 0, data, 2, 3);
  }

  lemma FirstTraced()
    ensures Traced(SlowCard(), FirstCommands(), SlowCard().(preErase := 3))
  {
    var f := FirstCommands();
    assert f[1..] == [f[1], f[2]] && [f[1], f[2]][1..] == [f[2]] && [f[2]][1..] == [];
    assert Outcome(f[0]) == SlowCard().(app := true) && Outcome(f[1]) == SlowCard().(preErase := 3);
    assert Traced(Outcome(f[1]), [f[2]], SlowCard().(preErase := 3));
    assert Traced(Outcome(f[0]), [f[1], f[2]], SlowCard().(preErase := 3));
  }

  lemma SecondTraced()
    ensures Traced(SlowCard().(preErase := 3), SecondCommands(),
                   SlowCard().(mem := seq(1536, _ => 0) + seq(512, _ => 7)))
  {
    var g := SecondCommands();
    var r := SlowCard().(preErase := 3);
    assert g[1..] == [g[1]] && [g[1]][1..] == [];
    assert EraseSize(r, 0) == 1536;
    assert r.mem[..0] + seq(1536, _ => 0) + r.mem[1536..] == seq(1536, _ => 0) + seq(512, _ => 7);
    assert Outcome(g[1]) == SlowCard().(mem := seq(1536, _ => 0) + seq(512, _ => 7));
    assert Traced(Outcome(g[0]), [g[1]], Outcome(g[1]));
  }

  /** Written, then read: whenever both calls return 0, on any card the driver has opened. */
  method WriteThenRead(sd: Sd, data: array<byte>, buf: array<byte>, sector: ulong, count: ulong) returns (ok: bool)
    requires sd.Valid() && 512 * Blocks(count) <= data.Length && 512 * Blocks(count) <= buf.Length && data != buf
    modifies sd.link, sd.link.slot, buf
    ensures sd.Valid()
    ensures ok ==> buf[..512 * Blocks(count)] == data[..512 * Blocks(count)]
    ensures old(sd.Promised(count, FirstByte(sd.info.cardType, sector))) ==> ok
  {
    hide Landed, Fetched;
    ghost var n := Blocks(count);
    ghost var a := FirstByte(sd.info.cardType, sector);
    ghost var b0 := buf[..];
    var err;
    ghost var k, mid;
    err, k, mid := sd.Write(data, sector, count);
    ok := err == OK;
    ghost var m1 := sd.link.slot.card.regs.mem;
    err, k := sd.Read(buf, sector, count);
    ok := ok && err == OK;
    if ok {
      ReadAfterWrite(mid.mem, m1, a, data[..], n, n, b0, buf[..]);
    }
  }

  // ---- Whole runs ---------------------------------------------------------------------------

  /** A call, with the memory its buffer points to. */
  datatype Op =
    | OpOpen(watch: nat)
    | OpRead(sector: ulong, count: ulong, memory: seq<byte>)
    | OpWrite(sector: ulong, count: ulong, data: seq<byte>)

  /** What a call returned, and a read has left in its memory. */
  datatype Reply = Reply(err: int, memory: seq<byte>)

  /** The card and the type the driver has for it, between two calls. */
  datatype State = State(regs: Regs, t: CardType)

  ghost function StateOf(sd: Sd): State
    reads sd, sd.link, sd.link.slot, sd.info
  {
    State(sd.link.slot.card.regs, sd.info.cardType)
  }

  predicate HasMemory(op: Op) {
    match op
    case OpOpen(_) => true
    case OpRead(_, count, memory) => 512 * Blocks(count) <= |memory|
    case OpWrite(_, count, data) => 512 * Blocks(count) <= |data|
  }

  /** A prompt card, known to the driver, that has all the sectors asked for. */
  predicate Promising(s: State, sector: ulong, count: ulong) {
    s.t != NoneType && Prompt(s.regs) && FirstByte(s.t, sector) + 512 * Blocks(count) <= |s.regs.mem|
  }

  /** How many blocks a write may touch: as many as it writes, unless an erase count can be left over. */
  function Reach(count: ulong, r: Regs): (w: nat)
    ensures w >= Blocks(count)
  {
    if Prompt(r) || r.preErase <= Blocks(count) then Blocks(count) else r.preErase
  }

  ghost predicate OpenStep(s: State, u: State, err: int) {
    && |s.regs.csd| == 16 && Alike(s.regs, u.regs)
    && (Prompt(s.regs) ==> Prompt(u.regs) && u.t == Classified(s.regs) && err == Expected(s.regs))
    && (err == OK ==> u.t in {SD1x, SD20, SDHC}) && (u.t != NoneType ==> u.regs.preErase == 0)
  }

  ghost predicate ReadStep(s: State, u: State, sector: ulong, count: ulong, before: seq<byte>, err: int,
          after: seq<byte>,
                           k: nat) {
    && u.t == s.t && Kept(s.regs, u.regs) && u.regs.mem == s.regs.mem
    && Fetched(s.regs.mem, FirstByte(s.t, sector), before, after, k)
    && k <= Blocks(count) && (err == OK ==> k == Blocks(count)) && (Promising(s, sector, count) ==> err == OK)
    && (s.t == NoneType ==> err == NO_CARD && k == 0) && CutStep(s, u, sector, count)
  }

  /** A prompt card is cut off in a transfer exactly if that begins on the card and runs off its end. */
  predicate CutStep(s: State, u: State, sector: ulong, count: ulong) {
    Prompt(s.regs) && s.t != NoneType ==> (u.regs.cut <==> CutOff(count, FirstByte(s.t, sector), |s.regs.mem|))
  }

  ghost predicate WriteStep(s: State, u: State, sector: ulong, count: ulong, data: seq<byte>, err: int, k: nat) {
    && u.t == s.t && Kept(s.regs, u.regs)
    && Landed(s.regs.mem, u.regs.mem, FirstByte(s.t, sector), data, k, Reach(count, s.regs))
    && k <= Blocks(count) && (err == OK ==> k == Blocks(count)) && (Promising(s, sector, count) ==> err == OK)
    && (s.t == NoneType ==> err == NO_CARD && k == 0 && u == s) && CutStep(s, u, sector, count)
  }

  ghost predicate Step(op: Op, s: State, u: State, r: Reply, k: nat) {
    match op
    case OpOpen(_) => OpenStep(s, u, r.err)
    case OpRead(sector, count, memory) => ReadStep(s, u, sector, count, memory, r.err, r.memory, k)
    case OpWrite(sector, count, data) => WriteStep(s, u, sector, count, data, r.err, k)
  }

  /** The run `ops` so far: its replies, the states between the calls, and how many sectors each transferred. */
  ghost predicate Trace(ops: seq<Op>, states: seq<State>, replies: seq<Reply>, ks: seq<nat>) {
    && |replies| == |ks| == |states| - 1 <= |ops|
    && (forall n :: 0 <= n < |replies| ==> Step(ops[n], states[n], states[n + 1], replies[n], ks[n]))
  }

  lemma TraceNext(ops: seq<Op>, states: seq<State>, replies: seq<Reply>, ks: seq<nat>, u: State, r: Reply, k: nat)
    requires Trace(ops, states, replies, ks) && |replies| < |ops|
    requires Step(ops[|replies|], states[|replies|], u, r, k)
    ensures Trace(ops, states + [u], replies + [r], ks + [k])
  {
    hide Step;
    var states', replies', ks' := states + [u], replies + [r], ks + [k];
    forall n | 0 <= n < |replies'| ensures Step(ops[n], states'[n], states'[n + 1], replies'[n], ks'[n]) {
      if n < |replies| { assert Step(ops[n], states[n], states[n + 1], replies[n], ks[n]); }
    }
  }

  /**
   Any sequence of calls, with any outcomes: each has the effect of its step, on the card as the
   call before it left it. The run is cut short only by an sd_open that waits in vain.
   */
  method Run(sd: Sd, ops: seq<Op>)
    returns (replies: seq<Reply>, hung: bool, ghost states: seq<State>, ghost ks: seq<nat>, ghost calls: seq<B.Call>)
    requires sd.Valid() && forall n :: 0 <= n < |ops| ==> HasMemory(ops[n])
    modifies sd, sd.link, sd.link.slot, sd.info
    ensures Trace(ops, states, replies, ks) && states[0] == old(StateOf(sd))
    ensures !hung ==> sd.Valid() && |replies| == |ops| && states[|ops|] == StateOf(sd)
    ensures sd.link.log + (if hung then [B.Deselect, B.Release] else []) == old(sd.link.log) + B.SdOps(calls)
    ensures hung ==> |replies| < |ops| && ops[|replies|].OpOpen?
                     && var r := states[|replies|].regs; !(r.prompt && r.initTime < ops[|replies|].watch)
  {
    replies, hung, states, ks, calls := [], false, [StateOf(sd)], [], [];
    for n := 0 to |ops|
      invariant sd.Valid() && Trace(ops, states, replies, ks) && |replies| == n && !hung
      invariant states[0] == old(StateOf(sd)) && states[n] == StateOf(sd)
      invariant sd.link.log == old(sd.link.log) + B.SdOps(calls)
    {
      hide Trace, Step, B.SdOps, B.SdCall;
      assert HasMemory(ops[n]);
      var reply;
      ghost var k, c;
      ghost var l := sd.link.log;
      reply, hung, k, c := Perform(sd, ops[n]);
      if c != [] {
        B.SdOpsNext(calls, c[0]);
        B.Assoc(old(sd.link.log), B.SdOps(calls), B.SdCall(c[0].open, c[0].ready));
        calls := calls + [c[0]];
      }
      assert sd.link.log + [] == sd.link.log && l + [] == l;
      if hung { return; }
      TraceNext(ops, states, replies, ks, StateOf(sd), reply, k);
      replies, states, ks := replies + [reply], states + [StateOf(sd)], ks + [k];
    }
  }

  /** One call. */
  method Perform(sd: Sd, op: Op) returns (reply: Reply, hung: bool, ghost k: nat, ghost c: seq<B.Call>)
    requires sd.Valid() && HasMemory(op)
    modifies sd, sd.link, sd.link.slot, sd.info
    ensures !hung ==> sd.Valid() && Step(op, old(StateOf(sd)), StateOf(sd), reply, k)
    ensures hung ==> op.OpOpen? && c != []
                     && var r := old(sd.link.slot.card.regs); !(r.prompt && r.initTime < op.watch)
    ensures sd.link.log + (if hung then [B.Deselect, B.Release] else [])
            == old(sd.link.log) + if c == [] then [] else B.SdCall(c[0].open, c[0].ready)
  {
    hide Landed, Fetched, Expected, Classified, Blocks, FirstByte, B.SdCall, Readies;
    hung, k, c := false, 0, [];
    ghost var i := |sd.link.issued|;
    var err;
    match op
    case OpOpen(watch) =>
      ghost var late;
      err, hung, late := sd.Open(watch);
      reply := Reply(err, []);
      c := [B.Call(true, Readies(sd.link.issued[i..]))];
    case OpRead(sector, count, memory) =>
      var buf := Memory(memory);
      err, k := sd.Read(buf, sector, count);
      reply := Reply(err, buf[..]);
      c := if sd.info.cardType == NoneType then [] else [B.Call(false, Readies(sd.link.issued[i..]))];
    case OpWrite(sector, count, data) =>
      var buf := Memory(data);
      reply, k := CallWrite(sd, buf, sector, count);
      c := if sd.info.cardType == NoneType then [] else [B.Call(false, Readies(sd.link.issued[i..]))];
  }

  method CallWrite(sd: Sd, buf: array<byte>, sector: ulong, count: ulong) returns (reply: Reply, ghost k: nat)
    requires sd.Valid() && 512 * Blocks(count) <= buf.Length
    modifies sd.link, sd.link.slot
    ensures sd.Valid() && WriteStep(old(StateOf(sd)), StateOf(sd), sector, count, buf[..], reply.err, k)
    ensures old(sd.link.issued) <= sd.link.issued
            && sd.link.log == old(sd.link.log) + if sd.info.cardType == NoneType then []
                                                 else B.SdCall(false, Readies(sd.link.issued[|old(sd.link.issued)|..]))
  {
    hide Landed, FirstByte, Traced, WriteCommands;
    ghost var s := StateOf(sd);
    ghost var i := |sd.link.issued|;
    var err;
    ghost var mid;
    err, k, mid := sd.Write(buf, sector, count);
    reply := Reply(err, []);
    ghost var w := EraseRange(count, s.regs.preErase, sd.link.issued[i..]);
    if s.t != NoneType {
      LandedWider(s.regs.mem, sd.link.slot.card.regs.mem, FirstByte(s.t, sector), buf[..], k, w, Reach(count, s.regs));
    } else {
      LandedStart(s.regs.mem, FirstByte(s.t, sector), buf[..], Reach(count, s.regs));
    }
  }

  /** The memory an argument points to. */
  method Memory(data: seq<byte>) returns (buf: array<byte>)
    ensures fresh(buf) && buf[..] == data
  {
    buf := new byte[|data|](i requires 0 <= i < |data| => data[i]);
    assert buf[..] == data;
  }

  /** Byte `i` of the card is one that the call may change. */
  predicate Aimed(op: Op, s: State, i: nat) {
    op.OpWrite? && s.t != NoneType
    && FirstByte(s.t, op.sector) <= i < FirstByte(s.t, op.sector) + 512 * Reach(op.count, s.regs)
  }

  lemma StepSpares(op: Op, s: State, u: State, r: Reply, k: nat, i: nat)
    requires Step(op, s, u, r, k)
    ensures |u.regs.mem| == |s.regs.mem|
    ensures i < |s.regs.mem| && !Aimed(op, s, i) ==> u.regs.mem[i] == s.regs.mem[i]
  {
    hide Fetched, Expected, Classified, FirstByte, Reach;
  }

  /** A byte that none of the writes from `n` on was aimed at is as it was then. */
  lemma {:induction false} RunSpares(ops: seq<Op>, states: seq<State>, replies: seq<Reply>, ks: seq<nat>, n: nat,
          q: nat, i: nat)
    requires Trace(ops, states, replies, ks) && n <= q <= |replies|
    requires forall p :: n <= p < q ==> !Aimed(ops[p], states[p], i)
    ensures |states[q].regs.mem| == |states[n].regs.mem|
    ensures i < |states[n].regs.mem| ==> states[q].regs.mem[i] == states[n].regs.mem[i]
    decreases q - n
  {
    hide Step, Aimed;
    if n < q {
      RunSpares(ops, states, replies, ks, n, q - 1, i);
      assert Step(ops[q - 1], states[q - 1], states[q], replies[q - 1], ks[q - 1]);
      StepSpares(ops[q - 1], states[q - 1], states[q], replies[q - 1], ks[q - 1], i);
    }
  }

  /** Byte `j` of what a call transferred. */
  predicate Transfers(op: Op, k: nat, j: nat) {
    !op.OpOpen? && j < 512 * k
  }

  /** A byte once landed stays until another write is aimed at it. */
  lemma LastWriteStays(ops: seq<Op>, states: seq<State>, replies: seq<Reply>, ks: seq<nat>, n: nat, q: nat, j: nat)
    requires Trace(ops, states, replies, ks) && n < q <= |replies|
    requires ops[n].OpWrite? && Transfers(ops[n], ks[n], j)
    requires forall p :: n < p < q ==> !Aimed(ops[p], states[p], FirstByte(states[n].t, ops[n].sector) + j)
    ensures var i := FirstByte(states[n].t, ops[n].sector) + j;
            j < |ops[n].data| && i < |states[q].regs.mem| && states[q].regs.mem[i] == ops[n].data[j]
  {
    hide FirstByte, Reach, Promising, Aimed;
    assert Step(ops[n], states[n], states[n + 1], replies[n], ks[n]);
    RunSpares(ops, states, replies, ks, n + 1, q, FirstByte(states[n].t, ops[n].sector) + j);
  }

  /** Whatever sectors a read returns, each byte is the one last written there, if any was. */
  lemma ReadsLastWrite(ops: seq<Op>, states: seq<State>, replies: seq<Reply>, ks: seq<nat>, n: nat, q: nat, i: nat,
          j: nat)
    requires Trace(ops, states, replies, ks) && n < q < |replies|
    requires ops[n].OpWrite? && Transfers(ops[n], ks[n], i) && ops[q].OpRead? && Transfers(ops[q], ks[q], j)
    requires FirstByte(states[q].t, ops[q].sector) + j == FirstByte(states[n].t, ops[n].sector) + i
    requires forall p :: n < p < q ==> !Aimed(ops[p], states[p], FirstByte(states[n].t, ops[n].sector) + i)
    ensures i < |ops[n].data| && j < |replies[q].memory| && replies[q].memory[j] == ops[n].data[i]
  {
    LastWriteStays(ops, states, replies, ks, n, q, i);
    hide FirstByte, Reach, Promising, Aimed;
    assert Step(ops[q], states[q], states[q + 1], replies[q], ks[q]);
  }

  /** A call that returned 0 transferred all its sectors, and a prompt card that has them lets it. */
  lemma CompletedTransfers(ops: seq<Op>, states: seq<State>, replies: seq<Reply>, ks: seq<nat>, n: nat)
    requires Trace(ops, states, replies, ks) && n < |replies| && !ops[n].OpOpen?
    ensures replies[n].err == OK ==> ks[n] == Blocks(ops[n].count)
    ensures Promising(states[n], ops[n].sector, ops[n].count) ==> replies[n].err == OK
  {
    hide FirstByte, Reach, Landed, Fetched;
    assert Step(ops[n], states[n], states[n + 1], replies[n], ks[n]);
  }
}
