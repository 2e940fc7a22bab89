/**
 The receive ring as a queue of frames: what is stored where, what the hardware
 can do to it between two bytes of SPI traffic, and what freeing a packet does.
 */
module Enc28j60Ring {
  import opened Words
  import opened Enc28j60Chip

  /** Address `n` of the ring, one lap allowed: it wraps from 0x19ff to 0. */
  function Ring(n: nat): nat {
    if n < 0x1a00 then n else n - 0x1a00
  }

  /** The value the host programs into ERXRDPT to free everything before `next`. */
  function Pred(next: nat): nat {
    if next == 0 then RX_STOP else next - 1
  }

  /** The bytes of the frames `q` stored back to back, the first at `at`. */
  function Layout(at: nat, q: seq<Frame>): seq<byte>
    decreases |q|
  {
    if q == [] then [] else
      var next := Ring(at + Footprint(q[0]));
      Packet(q[0], next) + Layout(next, q[1..])
  }

  /**
   The ring holds exactly the frames accepted[n..], stored from address `at` up to the
   write pointer, and EPKTCNT counts them plus `u` packets freed but not yet acknowledged.
   */
  ghost predicate Holds(c: Chip, at: nat, n: nat, u: nat) {
    n <= |c.accepted| && HoldsBytes(c, at, n, u, Layout(at, c.accepted[n..]))
  }

  ghost predicate HoldsBytes(c: Chip, at: nat, n: nat, u: nat, bytes: seq<byte>) {
    && c.ptr.erxst == 0 && c.ptr.erxnd == RX_STOP && |c.mem| == MEM_SIZE
    && at < 0x1a00 && at % 2 == 0
    && |bytes| % 2 == 0 && |bytes| <= 0x1a00 - 2
    && c.erxwrpt == Ring(at + |bytes|)
    && (c.ptr.erxrdpt == Pred(at) || (c.ptr.erxrdpt == 0 && at == 0))
    && c.pktcnt == |c.accepted| - n + u
    && (c.txBusy ==> RX_STOP <= c.ptr.etxnd < MEM_SIZE - 7)
    && (forall i :: 0 <= i < |c.accepted| ==> 18 <= |c.accepted[i].data|)
    && (forall k :: 0 <= k < |bytes| ==> c.mem[Ring(at + k)] == bytes[k])
  }

  /**
   What may have changed while the host was not writing: frames arrived or were
   abandoned, flags went up, the receiver hung, a transmission made progress, and
   the host selected another register bank. Stable memory and every queue the ring
   held survive.
   */
  ghost predicate Drift(c: Chip, d: Chip) {
    && WF(d) && KeepsHostState(c, d) && KeepsStable(c, d) && KeepsQueues(c, d) && KeepsSent(c, d)
  }

  /** A transmission that has ended meanwhile is on record; otherwise the record is as it was. */
  ghost predicate KeepsSent(c: Chip, d: Chip)
    requires |d.mem| == MEM_SIZE
  {
    |c.mem| == MEM_SIZE && if c.txBusy && !d.txBusy then Completed(c, d) else d.sent == c.sent
  }

  /** The transmit area lies outside the receive ring, and ETXND in it. */
  predicate PacketApart(p: Pointers) {
    p.erxst == 0 && p.erxnd == RX_STOP && TX_START == p.etxst <= p.etxnd < MEM_SIZE
  }

  /** The packet on its way in `c` was sent as the memory held it, and its status vector stands behind it. */
  ghost predicate Completed(c: Chip, d: Chip)
    requires |c.mem| == |d.mem| == MEM_SIZE
  {
    && |d.sent| == |c.sent| + 1 && c.sent <= d.sent
    && var t := d.sent[|c.sent|];
       |t.vector| == 7 && (PacketApart(c.ptr) ==> t.packet == TxPacket(c) && VectorAt(d, c.ptr.etxnd + 1, t.vector))
  }

  /** As much of a status vector as fits below the end of memory stands at `a`. */
  ghost predicate VectorAt(d: Chip, a: nat, v: seq<byte>)
    requires |d.mem| == MEM_SIZE
  {
    forall k :: 0 <= k < |v| && a + k < MEM_SIZE ==> d.mem[a + k] == v[k]
  }

  ghost predicate KeepsHostState(c: Chip, d: Chip) {
    && d.ptr == c.ptr && d.regs == c.regs && d.econ2 == c.econ2 && d.phy == c.phy && d.mii <= c.mii
    && (forall k :: 4 <= k < 8 ==> Bit(d.econ1, k) == Bit(c.econ1, k))
    && (!Bit(c.econ1, 2) ==>
          !Bit(d.econ1, 2) && d.accepted == c.accepted && d.erxwrpt == c.erxwrpt && d.pktcnt == c.pktcnt)
    && c.accepted <= d.accepted
    && (!c.txBusy ==> !d.txBusy)
    && (d.txBusy ==> d.txPolls <= c.txPolls)
    && (!c.stalled && (d.txBusy || !c.txBusy) ==> !d.stalled)
    && (c.txBusy && !d.txBusy ==> TxFlag(d))
    && (TxFlag(c) ==> TxFlag(d))
    && (TxFlag(d) ==> TxFlag(c) || (c.txBusy && !d.txBusy))
    && (Bit(d.econ1, 3) ==> Bit(c.econ1, 3))
  }

  /** EIR.TXIF or EIR.TXERIF: a transmission ended. */
  predicate TxFlag(c: Chip) {
    Bit(c.eir, 3) || Bit(c.eir, 1)
  }

  ghost predicate KeepsStable(c: Chip, d: Chip)
    requires WF(d)
  {
    |c.mem| == MEM_SIZE && c.ptr.etxnd < MEM_SIZE &&
    forall a {:trigger Stable(c, a)} {:trigger Stable(d, a)} {:trigger d.mem[a]} ::
      0 <= a < MEM_SIZE && Stable(c, a) ==> Stable(d, a) && d.mem[a] == c.mem[a]
  }

  ghost predicate KeepsQueues(c: Chip, d: Chip) {
    forall at, n, u {:trigger Holds(d, at, n, u)} {:trigger Holds(c, at, n, u)} ::
      Holds(c, at, n, u) ==> Holds(d, at, n, u)
  }

  lemma DriftRefl(c: Chip)
    requires WF(c)
    ensures Drift(c, c)
  {
  }

  lemma DriftTrans(a: Chip, b: Chip, c: Chip)
    requires WF(a) && Drift(a, b) && Drift(b, c)
    ensures Drift(a, c)
  {
    SentTrans(a, b, c);
    hide KeepsSent;
  }

  lemma SentTrans(a: Chip, b: Chip, c: Chip)
    requires WF(a) && Drift(a, b) && Drift(b, c)
    ensures KeepsSent(a, c)
  {
    hide KeepsQueues;
    if PacketApart(a.ptr) {
      if b.txBusy { PacketKept(a, b); } else { OutsideKept(b, c); }
    }
  }

  /** While a packet is on its way, its bytes stay where the host put them. */
  lemma PacketKept(c: Chip, d: Chip)
    requires WF(c) && Drift(c, d) && PacketApart(c.ptr)
    ensures TxPacket(d) == TxPacket(c)
  {
    hide KeepsQueues, Free;
    forall a | TX_START <= a <= c.ptr.etxnd
      ensures d.mem[a] == c.mem[a]
    {
      assert Stable(c, a);
    }
  }

  /** The hardware leaves the memory behind the ring alone unless it is transmitting. */
  lemma OutsideKept(c: Chip, d: Chip)
    requires WF(c) && Drift(c, d) && c.ptr.erxst == 0 && c.ptr.erxnd == RX_STOP && !c.txBusy
    ensures forall a :: TX_START <= a < MEM_SIZE ==> d.mem[a] == c.mem[a]
  {
    hide Free, Holds, Bit;
    forall a | TX_START <= a < MEM_SIZE
      ensures d.mem[a] == c.mem[a]
    {
      assert Stable(c, a);
    }
  }

  lemma DriftPolls(c: Chip, d: Chip)
    requires Drift(c, d)
    ensures d.txBusy ==> c.txBusy && d.txPolls <= c.txPolls
  {
  }

  // ---- Layout ----------------------------------------------------------------

  /** Unfolding `Layout` once. */
  lemma LayoutCons(at: nat, f: Frame, q: seq<Frame>)
    ensures Layout(at, [f] + q)
         == Packet(f, Ring(at + Footprint(f))) + Layout(Ring(at + Footprint(f)), q)
  {
    assert ([f] + q)[1..] == q;
  }

  lemma Assoc<T>(a: seq<T>, b: seq<T>, c: seq<T>)
    ensures a + (b + c) == (a + b) + c
  {
  }

  /** Where a frame stored after `q` starts, and the bytes it then consists of. */
  function After(at: nat, q: seq<Frame>): nat {
    Ring(at + |Layout(at, q)|)
  }

  function PacketAfter(at: nat, q: seq<Frame>, f: Frame): (bytes: seq<byte>)
    ensures |bytes| == Footprint(f)
  {
    Packet(f, Ring(After(at, q) + Footprint(f)))
  }

  lemma {:induction false} LayoutAppend(at: nat, q: seq<Frame>, f: Frame)
    requires at < 0x1a00 && |Layout(at, q)| + Footprint(f) < 0x1a00
    ensures Layout(at, q + [f]) == Layout(at, q) + PacketAfter(at, q, f)
    decreases |q|
  {
    if q == [] {
      assert q + [f] == [f] + [];
      LayoutCons(at, f, []);
    } else {
      LayoutAppendStep(at, q[0], q[1..], f);
      assert q == [q[0]] + q[1..];
    }
  }

  lemma LayoutAppendStep(at: nat, g: Frame, rest: seq<Frame>, f: Frame)
    requires at < 0x1a00 && |Layout(at, [g] + rest)| + Footprint(f) < 0x1a00
    ensures Layout(at, [g] + rest + [f]) == Layout(at, [g] + rest) + PacketAfter(at, [g] + rest, f)
    decreases |rest| + 1, 0
  {
    hide Packet;
    var next := Ring(at + Footprint(g));
    LayoutCons(at, g, rest);
    LayoutAppend(next, rest, f);
    LayoutCons(at, g, rest + [f]);
    Assoc([g], rest, [f]);
    RingSum(at, Footprint(g), |Layout(next, rest)|);
    assert After(at, [g] + rest) == After(next, rest);
    Assoc(Packet(g, next), Layout(next, rest), PacketAfter(next, rest, f));
  }

  /** Distances in the ring: `Beyond` and `Ring` agree. */
  lemma BeyondRing(c: Chip, k: nat)
    requires RingProgrammed(c) && c.ptr.erxst == 0 && c.ptr.erxnd == RX_STOP && k < 0x1a00
    ensures Beyond(c, Ring(c.erxwrpt + k)) == k
  {
  }

  lemma RingSum(at: nat, m: nat, k: nat)
    requires at < 0x1a00 && m + k < 0x1a00
    ensures Ring(Ring(at + m) + k) == Ring(at + m + k)
  {
  }

  /** While the ring holds frames, bytes in use plus the free space the chip computes is constant. */
  lemma UsedPlusFree(c: Chip, at: nat, n: nat, u: nat, bytes: seq<byte>)
    requires HoldsBytes(c, at, n, u, bytes)
    ensures RingProgrammed(c)
    ensures |bytes| + Free(c) == if c.ptr.erxrdpt == Pred(at) then 0x1a00 - 2 else 0x1a00 - 1
  {
  }

  /** No byte of an unread packet lies where the hardware may write. */
  lemma UnreadIsStable(c: Chip, at: nat, n: nat, u: nat, bytes: seq<byte>, k: nat)
    requires WF(c) && HoldsBytes(c, at, n, u, bytes) && k < |bytes|
    ensures Stable(c, Ring(at + k))
  {
    UsedPlusFree(c, at, n, u, bytes);
  }

  // ---- What the hardware does keeps the queue ---------------------------------

  /** Bytes stored at the write pointer extend what lies before it and overwrite none of it. */
  lemma StoredAppends(c: Chip, at: nat, bytes: seq<byte>, more: seq<byte>)
    requires |c.mem| == MEM_SIZE && RingProgrammed(c) && c.ptr.erxst == 0 && c.ptr.erxnd == RX_STOP
    requires at < 0x1a00 && |bytes| + |more| < 0x1a00 && c.erxwrpt == Ring(at + |bytes|)
    requires forall k :: 0 <= k < |bytes| ==> c.mem[Ring(at + k)] == bytes[k]
    ensures forall k :: 0 <= k < |bytes| + |more| ==> Stored(c, more)[Ring(at + k)] == (bytes + more)[k]
  {
    forall k | 0 <= k < |bytes| + |more|
      ensures Stored(c, more)[Ring(at + k)] == (bytes + more)[k]
    {
      if k >= |bytes| {
        BeyondRing(c, k - |bytes|);
        RingSum(at, |bytes|, k - |bytes|);
      }
    }
  }

  lemma ReceiveHoldsBytes(c: Chip, f: Frame, at: nat, n: nat, u: nat, bytes: seq<byte>)
    requires WF(c) && n <= |c.accepted| && HoldsBytes(c, at, n, u, bytes) && Accepts(c, f)
    ensures var next := Ring(Ring(at + |bytes|) + Footprint(f));
            HoldsBytes(React(c, Receive(f)), at, n, u, bytes + Packet(f, next))
  {
    hide Packet, Stored;
    UsedPlusFree(c, at, n, u, bytes);
    var next := Ring(Ring(at + |bytes|) + Footprint(f));
    var more := Packet(f, next);
    StoredAppends(c, at, bytes, more);
    RingSum(at, |bytes|, Footprint(f));
    var d := React(c, Receive(f));
    assert d.mem == Stored(c, more) && d.erxwrpt == next;
    hide Free, Beyond;
    var all := bytes + more;
    assert forall k :: 0 <= k < |all| ==> d.mem[Ring(at + k)] == all[k];
  }

  lemma ReceiveHolds(c: Chip, f: Frame, at: nat, n: nat, u: nat)
    requires WF(c) && Holds(c, at, n, u) && Accepts(c, f)
    ensures Holds(React(c, Receive(f)), at, n, u)
  {
    hide Packet, Stored;
    var q := c.accepted[n..];
    ReceiveHoldsBytes(c, f, at, n, u, Layout(at, q));
    UsedPlusFree(c, at, n, u, Layout(at, q));
    assert React(c, Receive(f)).accepted[n..] == q + [f];
    LayoutAppend(at, q, f);
    hide Layout, HoldsBytes, Free;
  }

  lemma AbandonHolds(c: Chip, junk: seq<byte>, at: nat, n: nat, u: nat, bytes: seq<byte>)
    requires WF(c) && HoldsBytes(c, at, n, u, bytes)
    ensures HoldsBytes(React(c, Abandon(junk)), at, n, u, bytes)
  {
    if React(c, Abandon(junk)) != c {
      UsedPlusFree(c, at, n, u, bytes);
      StoredAppends(c, at, bytes, junk);
    }
  }

  lemma TsvMissesRing(c: Chip, tsv: seq<byte>)
    requires |c.mem| == MEM_SIZE && |tsv| == 7 && RX_STOP <= c.ptr.etxnd < MEM_SIZE - 7
    ensures forall a :: 0 <= a <= RX_STOP ==> WithTsv(c, tsv)[a] == c.mem[a]
  {
  }

  lemma TickHolds(c: Chip, tsv: seq<byte>, bad: bool, stuck: bool, at: nat, n: nat, u: nat, bytes: seq<byte>)
    requires WF(c) && HoldsBytes(c, at, n, u, bytes)
    ensures HoldsBytes(React(c, Tick(tsv, bad, stuck)), at, n, u, bytes)
  {
    if c.txBusy && |tsv| == 7 { TsvMissesRing(c, tsv); }
    hide WithTsv;
  }

  lemma EventHolds(c: Chip, e: Event, at: nat, n: nat, u: nat)
    requires WF(c) && Holds(c, at, n, u)
    ensures Holds(React(c, e), at, n, u)
  {
    hide Layout, Stored, WithTsv;
    var bytes := Layout(at, c.accepted[n..]);
    match e
    case Receive(f) => if Accepts(c, f) { ReceiveHolds(c, f, at, n, u); }
    case Abandon(junk) => AbandonHolds(c, junk, at, n, u, bytes);
    case Tick(tsv, bad, stuck) => TickHolds(c, tsv, bad, stuck, at, n, u, bytes);
    case _ =>
  }

  lemma ReceiveKeepsStable(c: Chip, f: Frame)
    requires WF(c) && Accepts(c, f)
    ensures WF(React(c, Receive(f))) && KeepsStable(c, React(c, Receive(f)))
  {
    hide Packet;
  }

  lemma TickKeepsStable(c: Chip, tsv: seq<byte>, bad: bool, stuck: bool)
    requires WF(c)
    ensures KeepsStable(c, React(c, Tick(tsv, bad, stuck)))
  {
    hide TxPacket, OrByte, AndNotByte;
  }

  /** The record grows by a transmission only when one ends, and then by the packet that was in memory. */
  lemma EventKeepsSent(c: Chip, e: Event)
    requires WF(c)
    ensures |React(c, e).mem| == MEM_SIZE && KeepsSent(c, React(c, e))
  {
    hide Packet, OrByte, AndNotByte, Bit, TxPacket, Stored;
  }

  lemma EventKeepsHostState(c: Chip, e: Event)
    requires WF(c)
    ensures WF(React(c, e)) && KeepsHostState(c, React(c, e)) && Bank(React(c, e)) == Bank(c)
  {
    hide Packet, Stored, WithTsv, OrByte, AndNotByte, Bit;
    match e
    case Raise(flags) => RaiseKeepsHostState(c, flags);
    case Tick(tsv, bad, stuck) => TickKeepsHostState(c, tsv, bad, stuck);
    case Hang => HangKeepsHostState(c);
    case Receive(f) => ReceiveKeepsHostState(c, f);
    case _ =>
  }

  lemma ReceiveKeepsHostState(c: Chip, f: Frame)
    requires WF(c)
    ensures var d := React(c, Receive(f)); WF(d) && KeepsHostState(c, d) && Bank(d) == Bank(c)
  {
    hide Packet, Stored, Bit;
  }

  lemma RaiseKeepsHostState(c: Chip, flags: byte)
    requires WF(c)
    ensures var d := React(c, Raise(flags)); WF(d) && KeepsHostState(c, d) && Bank(d) == Bank(c)
  {
    hide OrByte, AndNotByte, Bit;
    Masks();
    ClearBits(flags, 0x0a);
    SetBits(c.eir, AndNotByte(flags, 0x0a));
  }

  lemma HangKeepsHostState(c: Chip)
    requires WF(c)
    ensures var d := React(c, Hang); WF(d) && KeepsHostState(c, d) && Bank(d) == Bank(c)
  {
    hide OrByte, AndNotByte, Bit;
    Masks();
    ClearBits(c.econ1, 0x04);
  }

  lemma TickKeepsHostState(c: Chip, tsv: seq<byte>, bad: bool, stuck: bool)
    requires WF(c)
    ensures var d := React(c, Tick(tsv, bad, stuck)); WF(d) && KeepsHostState(c, d) && Bank(d) == Bank(c)
  {
    hide WithTsv, TxPacket, OrByte, AndNotByte, Bit;
    Masks();
    ClearBits(c.econ1, 0x08);
    var flag: byte := if bad then 0x02 else 0x08;
    SetBits(c.eir, flag);
  }

  /** One hardware event is a drift. */
  lemma EventDrifts(c: Chip, e: Event)
    requires WF(c)
    ensures Drift(c, React(c, e)) && Bank(React(c, e)) == Bank(c)
  {
    var d := React(c, e);
    EventKeepsHostState(c, e);
    EventKeepsSent(c, e);
    assert KeepsStable(c, d) by {
      hide Packet;
      match e
      case Receive(f) => if Accepts(c, f) { ReceiveKeepsStable(c, f); }
      case Tick(tsv, bad, stuck) => TickKeepsStable(c, tsv, bad, stuck);
      case _ =>
    }
    hide KeepsStable, KeepsHostState, KeepsSent, Holds;
    forall at, n, u | Holds(c, at, n, u)
      ensures Holds(d, at, n, u)
    {
      EventHolds(c, e, at, n, u);
    }
  }
}
