/**
 What single register writes of the host do to the receive queue and to the
 register file.
 */
module Enc28j60Host {
  import opened Words
  import opened Enc28j60Chip
  import opened Enc28j60Ring
  import opened Enc28j60Wire

  lemma WritePointerInMemory(p: Pointers, i: byte, v: byte)
    requires InMemory(p)
    ensures InMemory(WritePointer(p, i, v))
  {
  }

  lemma WriteRegWF(c: Chip, i: byte, v: byte)
    requires WF(c)
    ensures WF(WriteReg(c, i, v))
  {
    WritePointerInMemory(c.ptr, i, v);
    hide Bit, TxPacket, AndNotByte, WritePointer;
  }

  lemma WriteRegBank(c: Chip, i: byte, v: byte)
    requires WF(c) && i != 0x1f
    ensures Bank(WriteReg(c, i, v)) == Bank(c)
  {
    hide Bit, TxPacket, AndNotByte;
  }

  /** Setting and clearing bits other than the bank bits keeps the bank. */
  lemma FieldBank(c: Chip, i: byte, m: byte)
    requires WF(c)
    ensures WF(SetField(c, i, m)) && WF(ClearField(c, i, m))
    ensures i != 0x1f || (!Bit(m, 0) && !Bit(m, 1)) ==>
              Bank(SetField(c, i, m)) == Bank(c) && Bank(ClearField(c, i, m)) == Bank(c)
  {
    hide Bit, TxPacket, AndNotByte, OrByte, WriteReg;
    WriteRegWF(c, i, OrByte(ReadReg(c, i), m));
    WriteRegWF(c, i, AndNotByte(ReadReg(c, i), m));
    if i == 0x1f {
      SetBits(c.econ1, m);
      ClearBits(c.econ1, m);
      Econ1Bits(c, OrByte(c.econ1, m));
      Econ1Bits(c, AndNotByte(c.econ1, m));
    } else {
      WriteRegBank(c, i, OrByte(ReadReg(c, i), m));
      WriteRegBank(c, i, AndNotByte(ReadReg(c, i), m));
    }
  }

  lemma Econ1Bits(c: Chip, v: byte)
    requires WF(c)
    ensures WriteReg(c, 0x1f, v).econ1 == v && ReadReg(c, 0x1f) == c.econ1
  {
  }

  /** Registers whose writing cannot disturb the receive queue. */
  predicate IsHarmless(i: byte) {
    i !in {0x08, 0x09, 0x0a, 0x0b, 0x0d, 0x1e, 0x1f}
  }

  lemma HarmlessWrite(c: Chip, i: byte, v: byte)
    requires WF(c) && IsHarmless(i) && !c.txBusy
    ensures KeepsQueues(c, WriteReg(c, i, v))
    ensures WriteReg(c, i, v).accepted == c.accepted
  {
    hide Layout, Bit;
  }

  /** A started transmission spares the queue when its status vector ends inside memory. */
  lemma Econ1Write(c: Chip, v: byte)
    requires WF(c)
    requires Bit(v, 3) && !Bit(c.econ1, 3) ==> RX_STOP <= c.ptr.etxnd < MEM_SIZE - 7
    ensures KeepsQueues(c, WriteEcon1(c, v))
  {
    hide Layout, Bit, TxPacket;
  }

  /** Rewriting the bank bits of ECON1, and only those, is a drift. */
  lemma BankWrite(c: Chip, v: byte)
    requires WF(c)
    requires forall k: nat :: 2 <= k ==> Bit(v, k) == Bit(c.econ1, k)
    ensures WF(WriteEcon1(c, v)) && Drift(c, WriteEcon1(c, v)) && WriteEcon1(c, v).econ1 == v
  {
    hide Bit, TxPacket;
    Econ1Write(c, v);
    hide Holds, Free;
  }

  /** Switching the bank is invisible apart from the bank bits. */
  lemma ClearBank(c: Chip)
    requires WF(c)
    ensures var d := ClearField(c, 0x1f, 0x03); WF(d) && Drift(c, d) && Bank(d) == 0
  {
    Masks();
    ClearBits(c.econ1, 0x03);
    BankWrite(c, AndNotByte(c.econ1, 0x03));
    hide Bit, OrByte, AndNotByte, TxPacket, Drift;
  }

  lemma SelectBank(c: Chip, bank: byte)
    requires WF(c) && bank < 4 && Bank(c) == 0
    ensures var d := SetField(c, 0x1f, bank); WF(d) && Drift(c, d) && Bank(d) == bank
  {
    SetBits(c.econ1, bank);
    BankBits(bank);
    BankWrite(c, OrByte(c.econ1, bank));
    hide Bit, OrByte, AndNotByte, TxPacket, Drift;
  }

  lemma BankBits(bank: nat)
    requires bank < 4
    ensures bank == (if Bit(bank, 0) then 1 else 0) + (if Bit(bank, 1) then 2 else 0)
    ensures forall k: nat :: k >= 2 ==> !Bit(bank, k)
  {
    forall k: nat | k >= 2 ensures !Bit(bank, k) {
      assert bank / 2 / 2 == 0;
      assert Bit(bank, k) == Bit(bank / 2, k - 1) == Bit(0, k - 2);
      ZeroBit(k - 2);
    }
  }

  // ---- Freeing a packet --------------------------------------------------------

  /** Two pieces stored back to back in the ring, looked at separately. */
  lemma SplitBytes(m: seq<byte>, at: nat, head: seq<byte>, tail: seq<byte>)
    requires |m| == MEM_SIZE && at < 0x1a00 && |head| + |tail| < 0x1a00
    requires forall k :: 0 <= k < |head + tail| ==> m[Ring(at + k)] == (head + tail)[k]
    ensures forall k :: 0 <= k < |head| ==> m[Ring(at + k)] == head[k]
    ensures forall k :: 0 <= k < |tail| ==> m[Ring(Ring(at + |head|) + k)] == tail[k]
    ensures Ring(Ring(at + |head|) + |tail|) == Ring(at + |head| + |tail|)
  {
    forall k | 0 <= k < |head|
      ensures m[Ring(at + k)] == head[k]
    {
      assert (head + tail)[k] == head[k];
    }
    forall k | 0 <= k < |tail|
      ensures m[Ring(Ring(at + |head|) + k)] == tail[k]
    {
      RingSum(at, |head|, k);
      assert (head + tail)[|head| + k] == tail[k];
    }
  }

  /** The head of the queue and what follows it, byte by byte. */
  lemma HeadBytes(c: Chip, at: nat, n: nat, u: nat)
    requires Holds(c, at, n, u) && n < |c.accepted|
    ensures var f := c.accepted[n];
            var next := Ring(at + Footprint(f));
            var tail := Layout(next, c.accepted[n + 1..]);
            && Footprint(f) + |tail| == |Layout(at, c.accepted[n..])| < 0x1a00
            && next < 0x1a00 && next % 2 == 0 && 4 <= |f.data| < 0x1a00 && |tail| % 2 == 0
            && Ring(next + |tail|) == c.erxwrpt
            && (forall k :: 0 <= k < Footprint(f) ==> c.mem[Ring(at + k)] == Packet(f, next)[k])
            && (forall k :: 0 <= k < |tail| ==> c.mem[Ring(next + k)] == tail[k])
  {
    hide Packet, Layout, Footprint;
    var f, rest := c.accepted[n], c.accepted[n + 1..];
    var next := Ring(at + Footprint(f));
    assert c.accepted[n..] == [f] + rest;
    LayoutCons(at, f, rest);
    SplitBytes(c.mem, at, Packet(f, next), Layout(next, rest));
  }

  lemma FreeBytes(c: Chip, at: nat, n: nat, bytes: seq<byte>, next: nat, tail: seq<byte>)
    requires HoldsBytes(c, at, n, 0, bytes)
    requires |tail| <= |bytes| && |tail| % 2 == 0 && next < 0x1a00 && next % 2 == 0
    requires Ring(next + |tail|) == Ring(at + |bytes|)
    requires forall k :: 0 <= k < |tail| ==> c.mem[Ring(next + k)] == tail[k]
    ensures HoldsBytes(c.(ptr := c.ptr.(erxrdpt := Pred(next))), next, n + 1, 1, tail)
  {
  }

  /** Moving ERXRDPT to the predecessor of the next packet frees exactly the head of the queue. */
  lemma FreeHead(c: Chip, at: nat, n: nat)
    requires Holds(c, at, n, 0) && n < |c.accepted|
    ensures var next := Ring(at + Footprint(c.accepted[n]));
            Holds(c.(ptr := c.ptr.(erxrdpt := Pred(next))), next, n + 1, 1)
  {
    hide Packet, Footprint, Layout;
    var next := Ring(at + Footprint(c.accepted[n]));
    HeadBytes(c, at, n, 0);
    FreeBytes(c, at, n, Layout(at, c.accepted[n..]), next, Layout(next, c.accepted[n + 1..]));
  }

  /** PKTDEC acknowledges the freed packet. */
  lemma Acknowledge(c: Chip, at: nat, n: nat)
    requires WF(c) && Holds(c, at, n, 1)
    ensures var d := SetField(c, 0x1e, 0x40);
            Holds(d, at, n, 0) && d == c.(econ2 := d.econ2, pktcnt := c.pktcnt - 1)
            && (Ready(c) ==> Ready(d))
  {
    PacketDecrement(c);
    var d := SetField(c, 0x1e, 0x40);
    hide SetField, Bit;
    assert Holds(d, at, n, 0) by { hide Layout; }
    hide Layout, Holds;
  }

  /** PKTDEC takes one off the packet count and does not stick. */
  lemma PacketDecrement(c: Chip)
    requires WF(c) && 1 <= c.pktcnt
    ensures var d := SetField(c, 0x1e, 0x40);
            d == c.(econ2 := d.econ2, pktcnt := c.pktcnt - 1) && (Ready(c) ==> Ready(d))
  {
    Masks();
    SetBits(c.econ2, 0x40);
    ClearBits(OrByte(c.econ2, 0x40), 0x40);
    hide Bit, OrByte, AndNotByte;
  }

  // ---- Buffer memory -------------------------------------------------------------

  /** The chip `c` with its read pointer at `p`. */
  function ReadingAt(c: Chip, p: nat): Chip {
    c.(ptr := c.ptr.(erdpt := p))
  }

  /** Address of the k-th byte of a buffer read starting at `a`. */
  function Walk(p: Pointers, a: nat, k: nat): nat {
    if k == 0 then a else NextRead(p, Walk(p, a, k - 1))
  }

  /** Inside the ring a buffer read follows the ring. */
  lemma {:induction false} WalkRing(p: Pointers, a: nat, k: nat)
    requires p.erxst == 0 && p.erxnd == RX_STOP && a < 0x1a00 && k < 0x1a00
    ensures Walk(p, a, k) == Ring(a + k)
    decreases k
  {
    if k > 0 { WalkRing(p, a, k - 1); }
  }

  /** Outside of it, memory. */
  lemma {:induction false} WalkMemory(p: Pointers, a: nat, k: nat)
    requires p.erxnd == RX_STOP && TX_START <= a && a + k < MEM_SIZE
    ensures Walk(p, a, k) == a + k
    decreases k
  {
    if k > 0 { WalkMemory(p, a, k - 1); }
  }

  lemma HoldsReading(c: Chip, p: nat, at: nat, n: nat, u: nat)
    ensures Holds(ReadingAt(c, p), at, n, u) <==> Holds(c, at, n, u)
  {
    hide Layout;
  }

  lemma StableReading(c: Chip, p: nat)
    requires c.ptr.etxnd < MEM_SIZE
    ensures forall a: nat :: Stable(ReadingAt(c, p), a) == Stable(c, a)
  {
  }

  /** Where the read pointer stands matters to neither the ring nor the hardware. */
  lemma ReadPointerIsFree(c: Chip, d: Chip, p: nat)
    requires WF(c) && Drift(c, d) && p < MEM_SIZE
    ensures Drift(ReadingAt(c, p), ReadingAt(d, p)) && WF(ReadingAt(c, p)) && WF(ReadingAt(d, p))
  {
    hide Holds, Bit, Bank, Free;
    var c', d' := ReadingAt(c, p), ReadingAt(d, p);
    StableReading(c, p);
    StableReading(d, p);
    hide Stable;
    assert KeepsQueues(c', d') by {
      forall at, n, u
        ensures Holds(c', at, n, u) ==> Holds(d', at, n, u)
      {
        HoldsReading(c, p, at, n, u);
        HoldsReading(d, p, at, n, u);
      }
    }
  }

  /** `d` is the chip `c` after `i` bytes of a buffer read from `p` on. */
  ghost predicate ReadSoFar(c: Chip, d: Chip, p: nat, i: nat) {
    && WF(d) && d.ptr.erdpt == Walk(c.ptr, p, i)
    && Drift(ReadingAt(c, d.ptr.erdpt), d)
  }

  /** A read from `p` on yielded `bytes`: each is what was stored, unless the hardware could touch it. */
  ghost predicate Delivered(c: Chip, p: nat, bytes: seq<byte>)
    requires WF(c)
  {
    forall k :: 0 <= k < |bytes| ==>
      var a := Walk(c.ptr, p, k);
      Stable(c, a) ==> bytes[k] == c.mem[a]
  }

  lemma NothingDelivered(c: Chip, p: nat)
    requires WF(c)
    ensures Delivered(c, p, [])
  {
  }

  lemma DeliveredNext(c: Chip, p: nat, bytes: seq<byte>, b: byte)
    requires WF(c) && Delivered(c, p, bytes)
    requires var a := Walk(c.ptr, p, |bytes|); Stable(c, a) ==> b == c.mem[a]
    ensures Delivered(c, p, bytes + [b])
  {
    hide Stable, Walk;
  }

  lemma ReadStart(c: Chip, d: Chip)
    requires WF(c) && Passed(c, d)
    ensures ReadSoFar(c, d, c.ptr.erdpt, 0)
  {
    assert d.ptr == c.ptr && ReadingAt(c, c.ptr.erdpt) == c;
  }

  lemma ReadSoFarWF(c: Chip, d: Chip, p: nat, i: nat)
    requires ReadSoFar(c, d, p, i)
    ensures WF(d)
  {
  }

  /** One more byte of a buffer read: what is stable arrives as it was stored. */
  lemma ReadStep(c: Chip, d: Chip, at: Chip, p: nat, i: nat)
    requires WF(c) && Bit(c.econ2, 7) && ReadSoFar(c, d, p, i) && Passed(d, at)
    ensures WF(at) && at.ptr.erdpt == Walk(c.ptr, p, i)
    ensures Stable(c, at.ptr.erdpt) ==> at.mem[at.ptr.erdpt] == c.mem[at.ptr.erdpt]
    ensures ReadSoFar(c, AfterRead(at), p, i + 1) && Bank(AfterRead(at)) == Bank(d)
  {
    var a := d.ptr.erdpt;
    var r := ReadingAt(c, a);
    DriftTrans(r, d, at);
    StableRead(c, at);
    assert at.ptr == r.ptr && at.econ2 == c.econ2;
    hide Drift;
    var a' := NextRead(at.ptr, a);
    assert a' < MEM_SIZE && a' == Walk(c.ptr, p, i + 1);
    ReadPointerIsFree(r, at, a');
    assert ReadingAt(r, a') == ReadingAt(c, a') && ReadingAt(at, a') == AfterRead(at);
  }

  /** A read returns what was stored, if the hardware may not touch it. */
  lemma StableRead(c: Chip, at: Chip)
    requires WF(c) && at.ptr.erdpt < MEM_SIZE && Drift(ReadingAt(c, at.ptr.erdpt), at)
    ensures Stable(c, at.ptr.erdpt) ==> at.mem[at.ptr.erdpt] == c.mem[at.ptr.erdpt]
  {
    hide Holds, Bit, Stable;
    StableReading(c, at.ptr.erdpt);
  }

  /** The receive ring occupies 0x0000..0x19ff and no transmission is running. */
  predicate RingApart(c: Chip) {
    c.ptr.erxst == 0 && c.ptr.erxnd == RX_STOP && !c.txBusy
  }

  /** The hardware leaves the transmit area alone unless it is transmitting. */
  lemma TransmitAreaIsStable(c: Chip, d: Chip)
    requires WF(c) && Drift(c, d) && RingApart(c)
    ensures d.mem[TX_START..] == c.mem[TX_START..] && RingApart(d)
  {
    OutsideKept(c, d);
    hide KeepsStable, KeepsQueues, KeepsSent, Bit;
  }

  /** `bytes` went into the transmit area at `p`; all else there and every queue is as before. */
  ghost predicate Written(c: Chip, d: Chip, p: nat, bytes: seq<byte>)
    requires WF(c) && TX_START <= p && p + |bytes| <= MEM_SIZE
  {
    && WF(d) && RingApart(d)
    && d.mem[TX_START..] == c.mem[TX_START..p] + bytes + c.mem[p + |bytes|..]
    && KeepsHostState(c.(ptr := c.ptr.(ewrpt := (p + |bytes|) % 0x2000)), d)
    && KeepsQueues(c, d)
  }

  lemma BufferWriteKeepsQueues(c: Chip, b: byte)
    requires WF(c) && RX_STOP < c.ptr.ewrpt
    ensures KeepsQueues(c, AfterBufferWrite(c, b))
  {
    hide Layout, Bit;
  }

  lemma BufferWriteKeepsShape(c: Chip, b: byte)
    requires WF(c)
    ensures WF(AfterBufferWrite(c, b)) && Bank(AfterBufferWrite(c, b)) == Bank(c)
  {
  }

  lemma WrittenStart(c: Chip, d: Chip, p: nat)
    requires WF(c) && Passed(c, d) && RingApart(c) && TX_START <= p == c.ptr.ewrpt
    ensures Written(c, d, p, [])
  {
    TransmitAreaIsStable(c, d);
    hide Holds, KeepsStable, Bit;
    assert c.mem[TX_START..] == c.mem[TX_START..p] + [] + c.mem[p..];
  }

  lemma Splice(m: seq<byte>, pre: seq<byte>, bytes: seq<byte>, post: seq<byte>, b: byte)
    requires |m| == MEM_SIZE && m[TX_START..] == pre + bytes + post && post != []
    ensures m[TX_START + |pre| + |bytes| := b][TX_START..] == pre + (bytes + [b]) + post[1..]
  {
  }

  /** One more byte of a buffer write, with hardware activity before it. */
  lemma WrittenStep(c: Chip, d: Chip, at: Chip, p: nat, bytes: seq<byte>, b: byte)
    requires WF(c) && TX_START <= p && p + |bytes| < MEM_SIZE && Bit(c.econ2, 7)
    requires Written(c, d, p, bytes) && Passed(d, at)
    ensures Written(c, AfterBufferWrite(at, b), p, bytes + [b])
  {
    TransmitAreaIsStable(d, at);
    BufferWriteKeepsQueues(at, b);
    WrittenBytes(c, at, p, bytes, b);
    hide Holds, KeepsStable, Bank;
    hide Bit;
  }

  lemma WrittenBytes(c: Chip, at: Chip, p: nat, bytes: seq<byte>, b: byte)
    requires WF(c) && WF(at) && TX_START <= p && p + |bytes| < MEM_SIZE
    requires at.ptr.ewrpt == p + |bytes| && at.mem[TX_START..] == c.mem[TX_START..p] + bytes + c.mem[p + |bytes|..]
    ensures AfterBufferWrite(at, b).mem[TX_START..] == c.mem[TX_START..p] + (bytes + [b]) + c.mem[p + |bytes + [b]|..]
  {
    var rest := c.mem[p + |bytes|..];
    assert rest[1..] == c.mem[p + |bytes| + 1..];
    hide Bit;
    Splice(at.mem, c.mem[TX_START..p], bytes, rest, b);
  }

  // ---- The register sequences of the driver ---------------------------------------

  /** The state nic_init leaves behind and every operation restores. */
  predicate Ready(c: Chip) {
    Bit(c.econ2, 7) && !c.txBusy && c.ptr.etxst == TX_START && !Bit(c.econ1, 3) && !Bit(c.econ1, 7)
  }

  lemma DriftReady(c: Chip, d: Chip)
    requires Drift(c, d) && Ready(c)
    ensures Ready(d) && d.ptr == c.ptr && c.accepted <= d.accepted && d.sent == c.sent
  {
    hide KeepsQueues, KeepsStable;
    assert Bit(d.econ1, 7) == Bit(c.econ1, 7);
  }

  lemma DriftHolds(c: Chip, d: Chip, at: nat, n: nat, u: nat)
    requires Drift(c, d) && Holds(c, at, n, u)
    ensures Holds(d, at, n, u)
  {
  }

  lemma QueuesHold(c: Chip, d: Chip, at: nat, n: nat, u: nat)
    requires KeepsQueues(c, d) && Holds(c, at, n, u)
    ensures Holds(d, at, n, u)
  {
  }

  /** `p` with the pointer register pair `i` (ERDPT, EWRPT or ETXND) set to `v`. */
  function WithPointer(p: Pointers, i: byte, v: nat): Pointers {
    if i == 0x00 then p.(erdpt := v) else if i == 0x02 then p.(ewrpt := v) else p.(etxnd := v)
  }

  lemma SetPair(p: nat, v: nat)
    requires v < 0x10000
    ensures SetHigh(SetLow(p, Lo(v)), Hi(v)) == v % 0x2000
  {
    LowByte(Lo(v), p / 256);
    ThirteenLowBits(v);
    hide Lo, Hi;
  }

  lemma LowByte(l: byte, q: nat)
    ensures (l + 256 * q) % 256 == l
  {
  }

  lemma ThirteenLowBits(v: nat)
    requires v < 0x10000
    ensures Lo(v) + 256 * (Hi(v) % 32) == v % 0x2000
  {
    var low, high := v % 256, v / 256;
    assert high % 256 == high;
    Thirteen(high / 32, high % 32, low);
  }

  lemma Thirteen(group: nat, five: nat, low: nat)
    requires five < 32 && low < 256
    ensures (low + 256 * (five + 32 * group)) % 0x2000 == low + 256 * five
  {
  }

  lemma WritePair(p: Pointers, i: byte, v: nat)
    requires i in {0x00, 0x02, 0x06} && v < 0x10000
    ensures WritePointer(WritePointer(p, i, Lo(v)), i + 1, Hi(v)) == WithPointer(p, i, v % 0x2000)
  {
    SetPair(p.erdpt, v);
    SetPair(p.ewrpt, v);
    SetPair(p.etxnd, v);
    hide SetLow, SetHigh, Lo, Hi;
  }

  /** Writing ERDPT, EWRPT or ETXND byte by byte moves that pointer and leaves the rest alone. */
  lemma PointerWritten(c: Chip, low: Chip, high: Chip, i: byte, v: nat)
    requires WF(c) && Ready(c) && i in {0x00, 0x02, 0x06} && v < 0x10000
    requires WF(low) && Drift(c, low)
    requires WF(high) && WF(WriteReg(low, i, Lo(v))) && Drift(WriteReg(low, i, Lo(v)), high)
    ensures var d := WriteReg(high, i + 1, Hi(v));
            && d.ptr == WithPointer(c.ptr, i, v % 0x2000) && Ready(d)
            && c.accepted <= d.accepted && d.sent == c.sent && KeepsQueues(c, d)
            && (RingApart(c) ==> RingApart(d) && d.mem[TX_START..] == c.mem[TX_START..])
  {
    DriftSteady(c, low);
    DriftReady(c, low);
    HarmlessWrite(low, i, Lo(v));
    var mid := WriteReg(low, i, Lo(v));
    assert Ready(mid) && mid.accepted == low.accepted && mid.sent == low.sent by { hide Bit; }
    DriftSteady(mid, high);
    DriftReady(mid, high);
    HarmlessWrite(high, i + 1, Hi(v));
    WritePair(c.ptr, i, v);
    hide Drift, Holds, KeepsHostState, KeepsStable, WritePointer, Bit;
  }

  lemma ThirteenBits(v: nat)
    requires v < 0x2000
    ensures Lo(v) + 256 * (Hi(v) % 32) == v
  {
    var h := v / 256;
    assert h < 32;
    assert h % 256 == h && h % 32 == h;
  }

  /** Between the two bytes of ERXRDPT nothing is freed; with the second the head of the queue is. */
  lemma PacketFreed(c: Chip, low: Chip, high: Chip, at: nat, n: nat, next: nat)
    requires WF(c) && Ready(c) && Holds(c, at, n, 0) && n < |c.accepted|
    requires next == Ring(at + Footprint(c.accepted[n])) && next < 0x1a00
    requires WF(low) && Drift(c, low)
    requires WF(high) && WF(WriteReg(low, 0x0c, Lo(Pred(next))))
    requires Drift(WriteReg(low, 0x0c, Lo(Pred(next))), high)
    ensures Holds(high, at, n, 0) && high.ptr.erxrdpt == c.ptr.erxrdpt && c.accepted <= high.accepted
    ensures var d := WriteReg(high, 0x0d, Hi(Pred(next)));
            && d.ptr.erxrdpt == Pred(next) && d.econ2 == high.econ2
            && Holds(d, next, n + 1, 1) && Ready(d) && c.accepted <= d.accepted && d.sent == c.sent
  {
    DriftReady(c, low);
    HarmlessWrite(low, 0x0c, Lo(Pred(next)));
    var mid := WriteReg(low, 0x0c, Lo(Pred(next)));
    assert Ready(mid) && mid.accepted == low.accepted && mid.sent == low.sent by { hide Bit; }
    DriftReady(mid, high);
    assert high.ptr.rdptLatch == Lo(Pred(next));
    assert c.accepted[n] == high.accepted[n];
    FreeHead(high, at, n);
    ThirteenBits(Pred(next));
    assert WriteReg(high, 0x0d, Hi(Pred(next))) == high.(ptr := high.ptr.(erxrdpt := Pred(next)));
    hide Holds, Drift, Bit;
  }

  /** A buffer read keeps the queue and moves only the read pointer. */
  lemma AfterReading(c: Chip, d: Chip, p: nat, i: nat)
    requires WF(c) && ReadSoFar(c, d, p, i) && Ready(c)
    ensures Ready(d) && d.ptr == c.ptr.(erdpt := Walk(c.ptr, p, i))
    ensures c.accepted <= d.accepted && d.sent == c.sent && KeepsQueues(c, d)
  {
    var r := ReadingAt(c, d.ptr.erdpt);
    assert Ready(r) by { hide Bit; }
    DriftReady(r, d);
    forall at, n, u ensures Holds(c, at, n, u) ==> Holds(d, at, n, u) {
      HoldsReading(c, d.ptr.erdpt, at, n, u);
    }
    hide Holds, Drift, Bit;
  }

  lemma PartByte(c: Chip, at: nat, n: nat, off: nat, bytes: seq<byte>, k: nat)
    requires WF(c) && Holds(c, at, n, 0) && n < |c.accepted| && k < |bytes|
    requires off + |bytes| <= Footprint(c.accepted[n]) < 0x1a00
    requires Delivered(c, Ring(at + off), bytes)
    ensures bytes[k] == Packet(c.accepted[n], Ring(at + Footprint(c.accepted[n])))[off + k]
  {
    hide Packet, Stable;
    HeadBytes(c, at, n, 0);
    WalkRing(c.ptr, Ring(at + off), k);
    RingSum(at, off, k);
    UnreadIsStable(c, at, n, 0, Layout(at, c.accepted[n..]), off + k);
    hide Layout, HoldsBytes;
  }

  /** What a buffer read inside the head of the queue delivers. */
  lemma PartDelivered(c: Chip, at: nat, n: nat, off: nat, bytes: seq<byte>)
    requires WF(c) && Holds(c, at, n, 0) && n < |c.accepted|
    requires off + |bytes| <= Footprint(c.accepted[n])
    requires Delivered(c, Ring(at + off), bytes)
    ensures var next := Ring(at + Footprint(c.accepted[n]));
            bytes == Packet(c.accepted[n], next)[off..off + |bytes|]
    ensures off + |bytes| < 0x1a00 && Walk(c.ptr, Ring(at + off), |bytes|) == Ring(at + off + |bytes|)
  {
    hide Packet, Layout, Stable, Delivered, Footprint;
    HeadBytes(c, at, n, 0);
    WalkRing(c.ptr, Ring(at + off), |bytes|);
    RingSum(at, off, |bytes|);
    hide Holds, HoldsBytes;
    forall k | 0 <= k < |bytes|
      ensures bytes[k] == Packet(c.accepted[n], Ring(at + Footprint(c.accepted[n])))[off + k]
    {
      PartByte(c, at, n, off, bytes, k);
    }
  }

  // ---- Transmitting ------------------------------------------------------------------

  /** The transmitter idle before and after, with pointers, queues and transmit area kept. */
  ghost predicate Steady(c: Chip, d: Chip) {
    && WF(d) && Ready(d) && d.ptr == c.ptr && c.accepted <= d.accepted && d.sent == c.sent
    && (!c.stalled ==> !d.stalled) && KeepsQueues(c, d)
    && (RingApart(c) && |c.mem| == MEM_SIZE ==> RingApart(d) && d.mem[TX_START..] == c.mem[TX_START..])
  }

  lemma DriftSteady(c: Chip, d: Chip)
    requires WF(c) && WF(d) && Drift(c, d) && Ready(c)
    ensures Steady(c, d)
  {
    DriftReady(c, d);
    if RingApart(c) { TransmitAreaIsStable(c, d); }
    hide KeepsHostState, KeepsStable, Ready, Holds;
  }

  /** Pulsing TXRST on an idle transmitter, with hardware activity in between, frees stalled transmit logic. */
  lemma TransmitterReset(c: Chip, setAt: Chip, clearAt: Chip)
    requires WF(c) && Ready(c) && WF(setAt) && Drift(c, setAt)
    requires WF(SetField(setAt, 0x1f, 0x80)) && WF(clearAt) && Drift(SetField(setAt, 0x1f, 0x80), clearAt)
    ensures Steady(c, ClearField(clearAt, 0x1f, 0x80)) && !ClearField(clearAt, 0x1f, 0x80).stalled
  {
    Masks();
    SetBits(setAt.econ1, 0x80);
    ClearBits(clearAt.econ1, 0x80);
    hide OrByte, AndNotByte, TxPacket;
    DriftSteady(c, setAt);
    var mid := SetField(setAt, 0x1f, 0x80);
    ResetStep(setAt, OrByte(setAt.econ1, 0x80));
    IdleDrift(mid, clearAt);
    ResetStep(clearAt, AndNotByte(clearAt.econ1, 0x80));
    hide Drift, Holds, Bit;
  }

  /** ECON1 written on an idle transmitter without starting it. */
  lemma ResetStep(c: Chip, v: byte)
    requires WF(c) && !c.txBusy && !Bit(v, 3)
    ensures var d := WriteEcon1(c, v);
            d == c.(econ1 := v, stalled := d.stalled) && d.stalled == (c.stalled && !Bit(v, 7)) && KeepsQueues(c, d)
  {
    Econ1Write(c, v);
    hide Holds, Bit;
  }

  lemma IdleDrift(c: Chip, d: Chip)
    requires WF(c) && Drift(c, d) && !c.txBusy
    ensures !d.txBusy && d.ptr == c.ptr && d.econ2 == c.econ2 && c.accepted <= d.accepted && d.sent == c.sent
    ensures (!c.stalled ==> !d.stalled) && KeepsQueues(c, d) && (Bit(d.econ1, 3) ==> Bit(c.econ1, 3))
    ensures RingApart(c) ==> RingApart(d) && d.mem[TX_START..] == c.mem[TX_START..]
  {
    if RingApart(c) { TransmitAreaIsStable(c, d); }
    hide KeepsStable, Holds, Bit;
  }

  lemma FlagsCleared(c: Chip, at: Chip)
    requires WF(c) && Ready(c) && WF(at) && Drift(c, at)
    ensures var d := ClearField(at, 0x1c, 0x0a); Steady(c, d) && !TxFlag(d)
  {
    Masks();
    ClearBits(at.eir, 0x0a);
    DriftSteady(c, at);
    HarmlessWrite(at, 0x1c, AndNotByte(at.eir, 0x0a));
    hide Drift, Holds, Bit, AndNotByte;
  }

  /** TXRTS set on an idle transmitter: the packet between ETXST and ETXND goes out. */
  lemma TransmissionStarted(c: Chip, at: Chip)
    requires WF(c) && Ready(c) && WF(at) && Drift(c, at) && RingApart(c) && !TxFlag(c) && !c.stalled
    ensures var d := SetField(at, 0x1f, 0x08);
            && WF(d) && d.txBusy && !d.stalled && !TxFlag(d) && Bit(d.econ2, 7) && !Bit(d.econ1, 7)
            && d.ptr == c.ptr && c.accepted <= d.accepted
            && d.mem[TX_START..] == c.mem[TX_START..] && d.sent == c.sent
            && (RX_STOP <= c.ptr.etxnd < MEM_SIZE - 7 ==> KeepsQueues(c, d))
  {
    Masks();
    SetBits(at.econ1, 0x08);
    DriftSteady(c, at);
    TxFlagStays(c, at);
    var v := OrByte(at.econ1, 0x08);
    if RX_STOP <= c.ptr.etxnd < MEM_SIZE - 7 { Econ1Write(at, v); }
    hide Drift, Holds, Bit, OrByte, TxPacket;
    assert SetField(at, 0x1f, 0x08) == WriteEcon1(at, v);
  }

  lemma TxFlagStays(c: Chip, d: Chip)
    requires Drift(c, d) && !c.txBusy
    ensures TxFlag(d) == TxFlag(c)
  {
  }

  lemma SameTxPacket(c: Chip, d: Chip)
    requires |c.mem| == MEM_SIZE && |d.mem| == MEM_SIZE && d.ptr == c.ptr && c.ptr.etxst == TX_START
    requires d.mem[TX_START..] == c.mem[TX_START..]
    ensures TxPacket(d) == TxPacket(c)
  {
    if c.ptr.etxst < c.ptr.etxnd < MEM_SIZE {
      assert d.mem[TX_START + 1..c.ptr.etxnd + 1] == d.mem[TX_START..][1..c.ptr.etxnd + 1 - TX_START];
      assert c.mem[TX_START + 1..c.ptr.etxnd + 1] == c.mem[TX_START..][1..c.ptr.etxnd + 1 - TX_START];
    }
  }

  /** TXRTS cleared after the transmitter reported its end. */
  lemma TransmissionEnded(s: Chip, e: Chip, at: Chip)
    requires WF(s) && s.txBusy && Bit(s.econ2, 7) && !Bit(s.econ1, 7) && s.ptr.etxst == TX_START
    requires s.ptr.erxst == 0 && s.ptr.erxnd == RX_STOP
    requires WF(e) && Drift(s, e) && !e.txBusy && WF(at) && Drift(e, at)
    ensures var d := ClearField(at, 0x1f, 0x08);
            && WF(d) && Ready(d) && RingApart(d) && d.ptr == s.ptr && s.accepted <= d.accepted
            && Completed(s, d) && KeepsQueues(s, d)
            && (TX_START <= s.ptr.etxnd < MEM_SIZE - 7 ==>
                  d.mem[TX_START..s.ptr.etxnd + 1] == s.mem[TX_START..s.ptr.etxnd + 1])
  {
    Masks();
    ClearBits(at.econ1, 0x08);
    DriftTrans(s, e, at);
    if TX_START <= s.ptr.etxnd < MEM_SIZE - 7 { PacketIsStable(s, at); }
    TransmissionOver(s, e, at);
    ResetStep(at, AndNotByte(at.econ1, 0x08));
    FieldIsEcon1(at, 0x08);
    hide Drift, Holds, Bit, AndNotByte, TxPacket, ClearField, WriteEcon1;
    assert Completed(s, WriteEcon1(at, AndNotByte(at.econ1, 0x08)));
  }

  lemma FieldIsEcon1(c: Chip, m: byte)
    requires WF(c)
    ensures ClearField(c, 0x1f, m) == WriteEcon1(c, AndNotByte(c.econ1, m))
  {
  }

  lemma TransmissionOver(s: Chip, e: Chip, at: Chip)
    requires WF(s) && s.txBusy && !Bit(s.econ1, 7) && WF(e) && Drift(s, e) && !e.txBusy && Drift(e, at) && Drift(s, at)
    ensures !at.txBusy && !Bit(at.econ1, 7) && at.econ2 == s.econ2 && at.ptr == s.ptr && s.accepted <= at.accepted
    ensures |at.mem| == MEM_SIZE && Completed(s, at) && KeepsQueues(s, at)
  {
    assert Bit(at.econ1, 7) == Bit(s.econ1, 7);
    hide KeepsStable, Holds, Bit, Completed;
  }

  /** Nor does the control byte before it change. */
  lemma PacketIsStable(s: Chip, d: Chip)
    requires WF(s) && Drift(s, d) && s.ptr.erxst == 0 && s.ptr.erxnd == RX_STOP
    requires TX_START <= s.ptr.etxnd < MEM_SIZE - 7
    ensures d.mem[TX_START..s.ptr.etxnd + 1] == s.mem[TX_START..s.ptr.etxnd + 1]
  {
    hide Free, Holds, Bit;
    forall a | TX_START <= a <= s.ptr.etxnd
      ensures d.mem[a] == s.mem[a]
    {
      assert Stable(s, a);
    }
  }

  lemma BufferWriteKeepsReady(c: Chip, b: byte)
    requires WF(c) && Ready(c) && RingApart(c)
    ensures Ready(AfterBufferWrite(c, b)) && RingApart(AfterBufferWrite(c, b))
    ensures var d := AfterBufferWrite(c, b);
            d.ptr == c.ptr.(ewrpt := d.ptr.ewrpt) && d.sent == c.sent && d.accepted == c.accepted
  {
  }

  lemma QueuesTrans(a: Chip, b: Chip, c: Chip)
    requires KeepsQueues(a, b) && KeepsQueues(b, c)
    ensures KeepsQueues(a, c)
  {
    hide Holds;
  }

  lemma WrittenFacts(c: Chip, d: Chip, p: nat, bytes: seq<byte>)
    requires WF(c) && TX_START <= p && p + |bytes| <= MEM_SIZE && Written(c, d, p, bytes)
    ensures KeepsQueues(c, d) && WF(d)
    ensures d.ptr.ewrpt == (p + |bytes|) % 0x2000
    ensures d.mem[TX_START..p + |bytes|] == c.mem[TX_START..p] + bytes
  {
    var m := d.mem[TX_START..];
    assert d.mem[TX_START..p + |bytes|] == m[..p + |bytes| - TX_START];
    hide Holds, Bit;
  }

  /** The bytes from ETXST on, seen as control byte and packet. */
  lemma PacketOf(c: Chip, buf: seq<byte>)
    requires |c.mem| == MEM_SIZE && c.ptr.etxst == TX_START && c.ptr.etxnd == TX_START + |buf| < MEM_SIZE
    requires c.mem[TX_START..TX_START + 1 + |buf|] == [0] + buf
    ensures TxPacket(c) == buf
  {
    assert c.mem[TX_START + 1..TX_START + 1 + |buf|] == c.mem[TX_START..TX_START + 1 + |buf|][1..];
    assert ([0] + buf)[1..] == buf;
  }

  lemma HoldsApart(c: Chip, at: nat, n: nat, u: nat)
    requires Holds(c, at, n, u) && !c.txBusy
    ensures RingApart(c)
  {
  }

  /** Reading two bytes of the idle transmit area delivers them. */
  lemma TransmitAreaDelivered(c: Chip, p: nat, bytes: seq<byte>)
    requires WF(c) && RingApart(c) && TX_START <= p && p + 2 <= MEM_SIZE && |bytes| >= 2
    requires Delivered(c, p, bytes)
    ensures bytes[0] == c.mem[p] && bytes[1] == c.mem[p + 1]
  {
    WalkMemory(c.ptr, p, 0);
    WalkMemory(c.ptr, p, 1);
    assert Stable(c, p) && Stable(c, p + 1);
  }

  // ---- Initialisation ----------------------------------------------------------------

  /** A chip that was reset and does not receive yet. */
  ghost predicate Quiet(c: Chip) {
    && WF(c) && !Bit(c.econ1, 2) && !Bit(c.econ1, 3) && !Bit(c.econ1, 7) && Bit(c.econ2, 7)
    && c.pktcnt == 0 && c.accepted == [] && c.sent == [] && !c.txBusy
  }

  /** Registers that are plain storage. */
  predicate IsPlain(i: byte) {
    i >= 0x10 && i !in {0x1c, 0x1e, 0x1f, 0x39, 0x6a}
  }

  lemma QuietDrift(c: Chip, d: Chip)
    requires Quiet(c) && Drift(c, d)
    ensures Quiet(d) && d.ptr == c.ptr && d.regs == c.regs && d.erxwrpt == c.erxwrpt
    ensures d.phy == c.phy && d.mii <= c.mii
  {
    assert Bit(d.econ1, 7) == Bit(c.econ1, 7);
    hide KeepsStable, KeepsQueues;
  }

  /** The PHY registers once MIWRH has been written. */
  function PhyAfter(c: Chip, v: byte): map<nat, nat> {
    c.phy[Plain(c, 0x54) % 32 := Word(Plain(c, 0x56), v)]
  }

  /** Writing a register while nothing is received: the named register changes, and only it. */
  lemma QuietWrite(c: Chip, at: Chip, i: byte, v: byte)
    requires Quiet(c) && WF(at) && Drift(c, at) && i !in {0x1e, 0x1f}
    ensures var d := WriteReg(at, i, v);
            && Quiet(d) && d.ptr == (if i < 0x0e then WritePointer(c.ptr, i, v) else c.ptr)
            && d.erxwrpt == (if i == 0x08 || i == 0x09 then d.ptr.erxst else c.erxwrpt)
            && d.regs == (if IsPlain(i) then c.regs[i := v] else c.regs)
            && (c.mii == 0 || i !in {0x54, 0x56, 0x57} ==> d.phy == (if i == 0x57 then PhyAfter(c, v) else c.phy))
            && (c.mii == 0 && i != 0x57 ==> d.mii == 0)
  {
    QuietDrift(c, at);
    WriteRegWF(at, i, v);
    hide Drift, Bit, WritePointer;
  }

  lemma ResetIsQuiet(c: Chip)
    requires WF(c)
    ensures var d := Reset(c); Quiet(d) && d.ptr.erxst < 0x2000 && d.regs == map[] && Bank(d) == 0
  {
    Masks();
    ZeroBit(0);
    ZeroBit(1);
    ZeroBit(2);
    ZeroBit(3);
    ZeroBit(7);
    hide Bit;
  }

  /** Setting AUTOINC and VRPS, and then RXEN, leaves an empty ring ready. */
  lemma ReceptionStarts(c: Chip, at: Chip)
    requires Quiet(c) && WF(at) && Drift(c, at)
    requires c.ptr.etxst == TX_START && c.ptr.erxst == 0 && c.ptr.erxnd == RX_STOP
    requires c.ptr.erxrdpt == 0 && c.erxwrpt == 0
    ensures var d := SetField(at, 0x1f, 0x04);
            && WF(d) && Ready(d) && Holds(d, 0, 0, 0) && d.accepted == [] && d.sent == []
            && Bit(d.econ1, 2) && d.regs == c.regs && d.phy == c.phy && d.econ2 == c.econ2
  {
    Masks();
    QuietDrift(c, at);
    SetBits(at.econ1, 0x04);
    hide Drift, Bit, OrByte;
    assert at.accepted[0..] == [];
  }

  lemma QuietEcon2(c: Chip, at: Chip)
    requires Quiet(c) && WF(at) && Drift(c, at)
    ensures var d := SetField(at, 0x1e, 0x88);
            && Quiet(d) && d.ptr == c.ptr && d.regs == c.regs && d.erxwrpt == c.erxwrpt
            && d.phy == c.phy && Bit(d.econ2, 3)
  {
    Masks();
    QuietDrift(c, at);
    SetBits(at.econ2, 0x88);
    ClearBits(OrByte(at.econ2, 0x88), 0x40);
    hide Drift, Bit, OrByte, AndNotByte;
  }

  lemma QuietField(c: Chip, at: Chip, i: byte, m: byte)
    requires Quiet(c) && WF(at) && Drift(c, at) && i in {0x1b, 0x1c}
    ensures var s, z := SetField(at, i, m), ClearField(at, i, m);
            && Quiet(s) && s.ptr == c.ptr && s.erxwrpt == c.erxwrpt
            && Quiet(z) && z.ptr == c.ptr && z.erxwrpt == c.erxwrpt
            && s.regs == (if i == 0x1b then c.regs[i := OrByte(if i in c.regs then c.regs[i] else 0, m)] else c.regs)
            && (i == 0x1c ==> z.regs == c.regs) && s.phy == c.phy && z.phy == c.phy
  {
    QuietDrift(c, at);
    hide Drift, Bit, OrByte, AndNotByte;
  }
}
