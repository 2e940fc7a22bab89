/**
 Consequences for whole runs: the register file behind the banks, the odd receive
 pointer, how long a packet may be, and what any sequence of driver calls delivers.
 */
module Enc28j60Theorems {
  import opened Words
  import opened Enc28j60Chip
  import opened Enc28j60Ring
  import opened Enc28j60Wire
  import opened Enc28j60Host
  import opened Enc28j60Driver
  import B = SpiBus

  // ---- The register file ---------------------------------------------------------

  /** What a written register reads back as. */
  lemma WriteReaches(c: Chip, i: byte, v: byte)
    requires WF(c) && i < 0x80
    ensures ReadReg(WriteReg(c, i, v), i) ==
              if i in {0x0c, 0x0e, 0x0f, 0x39, 0x6a} then ReadReg(c, i) // buffered, or read-only
              else if i < 0x0e && i % 2 == 1 then v % 32
              else if i == 0x1e then AndNotByte(v, 0x40)
              else v
  {
    hide Bit, AndNotByte, TxPacket, SetLow, SetHigh, WritePointer, Lo, Hi;
    if i < 0x0e { PointerReaches(c, i, v); }
  }

  lemma PointerReaches(c: Chip, i: byte, v: byte)
    requires WF(c) && i < 0x0e
    ensures var p := WritePointer(c.ptr, i, v);
            && ReadReg(c.(ptr := p), i) == (if i == 0x0c then ReadReg(c, i) else if i % 2 == 1 then v % 32 else v)
            && (i == 0x08 || i == 0x09 ==>
                  ReadReg(c.(ptr := p, erxwrpt := p.erxst), i) == if i % 2 == 1 then v % 32 else v)
  {
    var p := WritePointer(c.ptr, i, v);
    if i == 0x00 || i == 0x01 { Halved(c.ptr.erdpt, v); }
    else if i == 0x02 || i == 0x03 { Halved(c.ptr.ewrpt, v); }
    else if i == 0x04 || i == 0x05 { Halved(c.ptr.etxst, v); }
    else if i == 0x06 || i == 0x07 { Halved(c.ptr.etxnd, v); }
    else if i == 0x08 || i == 0x09 { Halved(c.ptr.erxst, v); }
    else if i == 0x0a || i == 0x0b { Halved(c.ptr.erxnd, v); }
    else { Latched(c.ptr.rdptLatch, v); }
    hide SetLow, SetHigh, Lo, Hi;
  }

  lemma Halved(p: nat, v: byte)
    requires p < MEM_SIZE
    ensures Lo(SetLow(p, v)) == v && Hi(SetLow(p, v)) == Hi(p)
    ensures Hi(SetHigh(p, v)) == v % 32 && Lo(SetHigh(p, v)) == Lo(p)
  {
    var h, l := p / 256, p % 256;
    assert (v + 256 * h) % 256 == v && (v + 256 * h) / 256 == h;
    assert (l + 256 * (v % 32)) % 256 == l && (l + 256 * (v % 32)) / 256 == v % 32;
  }

  lemma Latched(latch: byte, v: byte)
    ensures Hi(latch + 256 * (v % 32)) == v % 32
  {
    assert (latch + 256 * (v % 32)) / 256 == v % 32;
  }

  /** A write leaves every other register alone but for four documented couplings. */
  lemma WriteSpares(c: Chip, i: byte, v: byte, j: byte)
    requires WF(c) && i < 0x80 && j < 0x80 && i != j
    requires !(i in {0x08, 0x09} && j in {0x0e, 0x0f}) // ERXWRPT follows ERXST
    requires !(i == 0x0d && j == 0x0c)                 // ERXRDPTH commits the buffered ERXRDPTL
    requires !(i == 0x1e && j == 0x39)                 // PKTDEC decrements EPKTCNT
    requires !(i == 0x57 && j == 0x6a)                 // MIWRH starts a PHY write, and MISTAT says so
    ensures ReadReg(WriteReg(c, i, v), j) == ReadReg(c, j)
  {
    hide WriteReg, ReadReg;
    if i < 0x0e { PointerSpares(c, i, v, j); } else { PlainSpares(c, i, v, j); }
  }

  lemma PlainSpares(c: Chip, i: byte, v: byte, j: byte)
    requires WF(c) && 0x0e <= i < 0x80 && j < 0x80 && i != j
    requires !(i == 0x1e && j == 0x39) && !(i == 0x57 && j == 0x6a)
    ensures ReadReg(WriteReg(c, i, v), j) == ReadReg(c, j)
  {
    PlainWrite(c, i, v);
    hide WriteReg, Lo, Hi;
  }

  /** What writing a register other than a pointer can change. */
  lemma PlainWrite(c: Chip, i: byte, v: byte)
    requires WF(c) && 0x0e <= i < 0x80
    ensures var d := WriteReg(c, i, v);
            && d.ptr == c.ptr && d.erxwrpt == c.erxwrpt && (d.regs == c.regs || d.regs == c.regs[i := v])
            && (i != 0x1e ==> d.econ2 == c.econ2 && d.pktcnt == c.pktcnt) && (i != 0x1f ==> d.econ1 == c.econ1)
            && (i != 0x1c ==> d.eir == c.eir) && (i != 0x57 ==> d.mii == c.mii)
  {
    hide Bit, AndNotByte, WritePointer, Word;
    if i == 0x1e {
      hide WriteEcon1, WriteMii;
    } else if i == 0x1f {
      hide WriteEcon2, WriteMii;
    } else {
      hide WriteEcon1, WriteEcon2;
    }
  }

  lemma PointerSpares(c: Chip, i: byte, v: byte, j: byte)
    requires WF(c) && i < 0x0e && j < 0x80 && i != j
    requires !(i in {0x08, 0x09} && j in {0x0e, 0x0f}) && !(i == 0x0d && j == 0x0c)
    ensures ReadReg(WriteReg(c, i, v), j) == ReadReg(c, j)
  {
    hide Bit, AndNotByte, SetLow, SetHigh, Lo, Hi, WriteEcon1, WriteEcon2, WriteMii;
    Halved(c.ptr.erdpt, v);
    Halved(c.ptr.ewrpt, v);
    Halved(c.ptr.etxst, v);
    Halved(c.ptr.etxnd, v);
    Halved(c.ptr.erxst, v);
    Halved(c.ptr.erxnd, v);
  }

  /** Registers that neither the hardware nor a bank switch changes. */
  predicate IsSteady(i: byte) {
    i !in {0x0e, 0x0f, 0x1c, 0x1f, 0x39, 0x6a}
  }

  lemma DriftReads(c: Chip, d: Chip, i: byte)
    requires Drift(c, d) && IsSteady(i)
    ensures ReadReg(d, i) == ReadReg(c, i)
  {
    hide KeepsStable, KeepsQueues;
  }

  /** Such couplings between registers that are steady: writing one register of such a pair changes the other. */
  predicate IsCoupled(i: byte, j: byte) {
    (i in {0x08, 0x09} && j in {0x0e, 0x0f}) || (i == 0x0d && j == 0x0c) || (i == 0x1e && j == 0x39)
  }

  /** What a steady register reads after `v` has been written to it. */
  function ReadBack(c: Chip, i: byte, v: byte): byte {
    if i == 0x0c then ReadReg(c, i)
    else if i < 0x0e && i % 2 == 1 then v % 32
    else if i == 0x1e then AndNotByte(v, 0x40)
    else v
  }

  /**
   One register written and then one read, in whatever banks they are and whatever arrives
   meanwhile: the same one reads back what its implemented bits hold of the value, and another
   one what it held before.
   */
  method WriteThenRead(nic: Nic, addr: byte, v: byte, other: byte) returns (r: byte)
    requires nic.Coherent() && Named(addr) != 0x1f && WellNamed(other) && IsSteady(Named(other))
    requires Named(other) != Named(addr) ==> !IsCoupled(Named(addr), Named(other))
    modifies nic, nic.wire
    ensures nic.Coherent()
    ensures r == if Named(other) == Named(addr) then ReadBack(old(nic.wire.chip), Named(addr), v)
                 else ReadReg(old(nic.wire.chip), Named(other))
  {
    assert Named(addr) < 0x80 && Named(other) < 0x80;
    hide Drift, WriteReg, ReadReg, Named, IsSteady, AndNotByte, Bank, B.Logged;
    ghost var c := nic.wire.chip;
    ghost var at := nic.WriteRegister(addr, v);
    ghost var d := nic.wire.chip;
    r := nic.ReadRegister(other);
    ReadsAfterWrite(c, at, d, nic.wire.chip, Named(addr), v, Named(other));
  }

  lemma ReadsAfterWrite(c: Chip, at: Chip, d: Chip, e: Chip, i: byte, v: byte, j: byte)
    requires WF(c) && WF(at) && Drift(c, at) && d == WriteReg(at, i, v) && Drift(d, e) && IsSteady(j) && i < 0x80
    requires j < 0x80
    requires j != i ==> !IsCoupled(i, j)
    ensures ReadReg(e, j) == if j == i then ReadBack(c, i, v) else ReadReg(c, j)
  {
    DriftReads(c, at, j);
    DriftReads(d, e, j);
    if j == i { WriteReaches(at, i, v); } else { WriteSpares(at, i, v, j); }
    hide Drift, WriteReg, ReadReg, AndNotByte;
  }

  // ---- The receive pointer ---------------------------------------------------------

  /** For every packet address the chip hands out, the fixed-up pointer is odd and in the ring. */
  lemma FixedPointerIsOdd(next: nat)
    requires next % 2 == 0 && next <= RX_STOP
    ensures RxrdptFix(next) == Pred(next) && RxrdptFix(next) % 2 == 1 && RxrdptFix(next) <= RX_STOP
    ensures Ring(RxrdptFix(next) + 1) == next
  {
  }

  /**
   Once a packet has been taken, between any two driver calls the programmed pointer is odd and precedes the
   next packet.
   */
  lemma ProgrammedPointerIsOdd(nic: Nic)
    requires nic.Valid() && nic.taken > 0
    ensures var p := nic.wire.chip.ptr.erxrdpt; p % 2 == 1 && p <= RX_STOP && Ring(p + 1) == nic.nextPacket
  {
    hide Layout, History;
  }

  // ---- How long a packet may be ------------------------------------------------------

  /** The chip's seven status bytes stay clear of the receive ring exactly up to 1528 packet bytes. */
  lemma StatusVectorSparesRingIff(c: Chip, length: nat)
    requires c.txBusy && TX_START + length < MEM_SIZE && c.ptr.etxnd == TX_START + length
    ensures (forall a: nat :: a <= RX_STOP ==> !InStatusZone(c, a)) <==> length <= 1528
  {
    if length > 1528 {
      assert InStatusZone(c, 0);
    }
  }

  lemma FirstByte(c: Chip, n: nat, u: nat)
    requires Holds(c, 0, n, u) && n < |c.accepted|
    ensures c.mem[0] == Packet(c.accepted[n], Ring(0 + Footprint(c.accepted[n])))[0]
  {
    hide Packet, Layout, Footprint;
    HeadBytes(c, 0, n, u);
    assert c.mem[Ring(0 + 0)] == c.mem[0];
  }

  function Written(c: Chip, i: byte, v: byte): (d: Chip)
    requires WF(c)
    ensures WF(d)
  {
    WriteRegWF(c, i, v);
    WriteReg(c, i, v)
  }

  function WithBits(c: Chip, i: byte, m: byte): (d: Chip)
    requires WF(c)
    ensures WF(d)
  {
    FieldBank(c, i, m);
    SetField(c, i, m)
  }

  function WithoutBits(c: Chip, i: byte, m: byte): (d: Chip)
    requires WF(c)
    ensures WF(d)
  {
    FieldBank(c, i, m);
    ClearField(c, i, m)
  }

  /** The register writes of nic_send: ETXND for a packet of `length` bytes... */
  function Loaded(c: Chip, length: nat): (d: Chip)
    requires WF(c)
    ensures WF(d)
  {
    Written(Written(c, 0x06, Lo(TX_START + length)), 0x07, Hi(TX_START + length))
  }

  /** ...TXRST set and cleared... */
  function Pulsed(c: Chip): (d: Chip)
    requires WF(c)
    ensures WF(d)
  {
    WithoutBits(WithBits(c, 0x1f, 0x80), 0x1f, 0x80)
  }

  /** ...the flags of an earlier packet cleared, and TXRTS set. */
  function Launched(c: Chip): (d: Chip)
    requires WF(c)
    ensures WF(d)
  {
    WithBits(WithoutBits(c, 0x1c, 0x0a), 0x1f, 0x08)
  }

  function Transmitting(c: Chip, length: nat): (d: Chip)
    requires WF(c)
    ensures WF(d)
  {
    Launched(Pulsed(Loaded(c, length)))
  }

  lemma SmallMod(n: nat)
    requires n < 0x2000
    ensures n % 0x2000 == n
  {
  }

  lemma LoadedState(c: Chip, length: nat)
    requires WF(c) && TX_START + length < MEM_SIZE
    ensures Loaded(c, length) == c.(ptr := c.ptr.(etxnd := TX_START + length))
  {
    var end := TX_START + length;
    WritePair(c.ptr, 0x06, end);
    SmallMod(end);
    hide Lo, Hi, WritePointer, WF;
    assert Written(c, 0x06, Lo(end)) == c.(ptr := WritePointer(c.ptr, 0x06, Lo(end)));
  }

  /** Pulsing TXRST on an idle transmitter frees its logic and changes only ECON1, where TXRTS stays clear. */
  lemma PulsedState(c: Chip)
    requires WF(c) && !c.txBusy && !Bit(c.econ1, 3)
    ensures var d := Pulsed(c); d == c.(econ1 := d.econ1, stalled := false) && !Bit(d.econ1, 3) && !Bit(d.econ1, 7)
  {
    Masks();
    SetBits(c.econ1, 0x80);
    ClearBits(OrByte(c.econ1, 0x80), 0x80);
    hide Bit, OrByte, AndNotByte, TxPacket, WF;
  }

  lemma LaunchedState(c: Chip)
    requires WF(c) && !c.txBusy && !Bit(c.econ1, 3) && !Bit(c.econ1, 7)
    ensures var d := Launched(c);
            && d.txBusy && d.txPolls == c.txPolls && d.stalled == c.stalled
            && d.ptr == c.ptr && d.mem == c.mem && d.accepted == c.accepted
  {
    Masks();
    SetBits(c.econ1, 0x08);
    hide Bit, OrByte, AndNotByte, TxPacket, WF;
  }

  /** The transmitter is then busy with that packet, and the receive side as it was. */
  lemma TransmittingState(c: Chip, length: nat)
    requires WF(c) && Ready(c) && TX_START + length < MEM_SIZE
    ensures var s := Transmitting(c, length);
            && s.txBusy && !s.stalled && s.txPolls == c.txPolls && s.ptr.etxnd == TX_START + length
            && s.mem == c.mem && s.accepted == c.accepted
  {
    hide Loaded, Pulsed, Launched, Bit, WF;
    LoadedState(c, length);
    PulsedState(Loaded(c, length));
    LaunchedState(Pulsed(Loaded(c, length)));
  }

  lemma StatusVectorStored(s: Chip, tsv: seq<byte>, bad: bool, stuck: bool)
    requires WF(s) && s.txBusy && !s.stalled && s.txPolls == 0 && |tsv| == 7 && MEM_SIZE - 8 < s.ptr.etxnd
    ensures var d := React(s, Tick(tsv, bad, stuck));
            d.mem[0] == tsv[MEM_SIZE - 1 - s.ptr.etxnd] && d.accepted == s.accepted
  {
    hide OrByte, AndNotByte, Bit;
  }

  /**
   Beyond 1528 bytes a transmission destroys a receive queue whose head starts the ring,
   unless the status vector happens to repeat the byte stored there.
   */
  lemma LongPacketBreaksQueue(c: Chip, length: nat, taken: nat, tsv: seq<byte>, bad: bool, stuck: bool)
    requires WF(c) && Ready(c) && c.txPolls == 0 && Holds(c, 0, taken, 0) && taken < |c.accepted|
    requires 1528 < length && TX_START + length < MEM_SIZE
    requires |tsv| == 7 && tsv[MEM_SIZE - 1 - (TX_START + length)] != c.mem[0]
    ensures !Holds(React(Transmitting(c, length), Tick(tsv, bad, stuck)), 0, taken, 0)
  {
    TransmittingState(c, length);
    hide Packet, Bit, Footprint, Layout, Transmitting, React, Ready;
    var s := Transmitting(c, length);
    StatusVectorStored(s, tsv, bad, stuck);
    var d := React(s, Tick(tsv, bad, stuck));
    FirstByte(c, taken, 0);
    if Holds(d, 0, taken, 0) { FirstByte(d, taken, 0); }
    hide Holds;
  }

  // ---- Whole runs ----------------------------------------------------------------------

  /** What is delivered for two stretches of arrivals is delivered one after the other. */
  lemma {:induction false} DeliveriesConcat(fs: seq<Frame>, ls: seq<nat>, gs: seq<Frame>, ms: seq<nat>)
    requires |fs| == |ls| && |gs| == |ms|
    requires forall i :: 0 <= i < |fs| ==> 4 <= |fs[i].data|
    requires forall i :: 0 <= i < |gs| ==> 4 <= |gs[i].data|
    ensures Deliveries(fs + gs, ls + ms) == Deliveries(fs, ls) + Deliveries(gs, ms)
    decreases |gs|
  {
    hide StatusOk, Payload;
    if gs == [] {
      assert fs + gs == fs && ls + ms == ls;
    } else {
      var k := |gs| - 1;
      DeliveriesConcat(fs, ls, gs[..k], ms[..k]);
      var all, lens := fs + gs, ls + ms;
      assert all[..|all| - 1] == fs + gs[..k] && lens[..|all| - 1] == ls + ms[..k];
      assert all[|all| - 1] == gs[k] && lens[|all| - 1] == ms[k];
    }
  }

  /** Frames with a good status are each delivered, whatever bad frames arrive around them. */
  lemma GoodFrameDelivered(fs: seq<Frame>, ls: seq<nat>, f: Frame, l: nat, gs: seq<Frame>, ms: seq<nat>)
    requires |fs| == |ls| && |gs| == |ms| && 4 <= |f.data| && StatusOk(f)
    requires forall i :: 0 <= i < |fs| ==> 4 <= |fs[i].data|
    requires forall i :: 0 <= i < |gs| ==> 4 <= |gs[i].data|
    ensures Deliveries(fs + [f] + gs, ls + [l] + ms)
         == Deliveries(fs, ls) + [Payload(f, l)] + Deliveries(gs, ms)
  {
    hide Payload, StatusOk;
    assert Deliveries([f], [l]) == [Payload(f, l)] by {
      assert [f][..0] == [] && [l][..0] == [];
    }
    DeliveriesConcat(fs, ls, [f], [l]);
    DeliveriesConcat(fs + [f], ls + [l], gs, ms);
  }

  /** Of a frame whose last four bytes are its CRC, the caller gets what stands before them, up to its buffer. */
  lemma PayloadIsBody(body: seq<byte>, crc: seq<byte>, lo: byte, hi: byte, length: nat)
    requires |crc| == 4
    ensures Payload(Frame(body + crc, lo, hi), length) == if |body| <= length then body else body[..length]
  {
    if |body| <= length { assert (body + crc)[..|body|] == body; }
  }

  datatype Call = CallRecv(length: nat) | CallSend(packet: seq<byte>) | CallPoll | CallKeepAlive

  /** What a call returned, and what a receive put into the buffer. */
  datatype Reply = Reply(value: int, data: seq<byte>)

  /** Between two calls: the frames the chip accepted since its set-up, those taken, the transmissions finished. */
  datatype State = State(accepted: seq<Frame>, taken: nat, sent: seq<Transmission>)

  ghost function StateOf(nic: Nic): State
    reads nic, nic.wire
  {
    State(nic.wire.chip.accepted, nic.taken, nic.wire.chip.sent)
  }

  /** A receive takes the oldest frame, and finds none only if none was waiting when it began. */
  ghost predicate RecvStep(s: State, u: State, length: nat, r: Reply) {
    && s.accepted <= u.accepted && u.sent == s.sent
    && (|s.accepted| > s.taken ==> u.taken == s.taken + 1)
    && if u.taken == s.taken then r == Reply(-1, [])
       else && u.taken == s.taken + 1 <= |u.accepted| && 4 <= |u.accepted[s.taken].data|
            && var f := u.accepted[s.taken];
               if StatusOk(f) then r == Reply(|Payload(f, length)|, Payload(f, length)) else r == Reply(-1, [])
  }

  /** A send has the chip finish one transmission, that of its packet, and returns the byte count. */
  ghost predicate SendStep(s: State, u: State, packet: seq<byte>, r: Reply) {
    && s.accepted <= u.accepted && u.taken == s.taken
    && |u.sent| == |s.sent| + 1 && s.sent <= u.sent
    && var t := u.sent[|s.sent|]; t.packet == packet && |t.vector| == 7 && r == Reply(ByteCount(t), [])
  }

  ghost predicate Step(call: Call, s: State, u: State, r: Reply) {
    match call
    case CallRecv(length) => RecvStep(s, u, length, r)
    case CallSend(packet) => SendStep(s, u, packet, r)
    case CallPoll =>
      s.accepted <= u.accepted && u.taken == s.taken && u.sent == s.sent && r.value == |u.accepted| - u.taken
    case CallKeepAlive =>
      (r.value == 0 && s.accepted <= u.accepted && u.taken == s.taken && u.sent == s.sent)
      || (r.value == 1 && u == State([], 0, []))
  }

  /** The run `calls` so far: its replies and the states between the calls. */
  ghost predicate Trace(calls: seq<Call>, states: seq<State>, replies: seq<Reply>) {
    && |replies| == |states| - 1 <= |calls|
    && (forall n :: 0 <= n < |states| ==> states[n].taken <= |states[n].accepted|)
    && (forall n :: 0 <= n < |replies| ==> Step(calls[n], states[n], states[n + 1], replies[n]))
  }

  lemma TraceNext(calls: seq<Call>, states: seq<State>, replies: seq<Reply>, u: State, r: Reply)
    requires Trace(calls, states, replies) && |replies| < |calls|
    requires Step(calls[|replies|], states[|replies|], u, r) && u.taken <= |u.accepted|
    ensures Trace(calls, states + [u], replies + [r])
  {
    hide Step;
    var states', replies' := states + [u], replies + [r];
    forall n | 0 <= n < |replies'| ensures Step(calls[n], states'[n], states'[n + 1], replies'[n]) {
      if n < |replies| { assert Step(calls[n], states[n], states[n + 1], replies[n]); }
    }
  }

  /** A packet that leaves room for its status vector, and a buffer as long as said. */
  predicate Fitting(call: Call, size: nat) {
    (call.CallRecv? ==> call.length <= size) && (call.CallSend? ==> |call.packet| <= 1528)
  }

  lemma TakenAccepted(nic: Nic)
    requires nic.Valid()
    ensures nic.taken <= |nic.wire.chip.accepted|
  {
    hide Holds, Ready;
  }

  /** One call. */
  method Perform(nic: Nic, buf: array<byte>, call: Call) returns (reply: Reply)
    requires nic.Valid() && Fitting(call, buf.Length)
    modifies nic, nic.wire, buf
    ensures nic.Valid() && Step(call, old(StateOf(nic)), StateOf(nic), reply)
    ensures old(nic.wire.ops) <= nic.wire.ops
  {
    hide Ready, Holds, Bank, History, B.Logged, Payload, StatusOk;
    var r;
    match call
    case CallRecv(length) =>
      r := nic.Recv(buf, length);
      reply := Reply(r, if r >= 0 then buf[..r] else []);
    case CallSend(packet) =>
      ghost var t;
      r, t := nic.Send(packet);
      reply := Reply(r, []);
    case CallPoll =>
      r := nic.Poll();
      reply := Reply(r, []);
    case CallKeepAlive =>
      ghost var at;
      r, at := nic.KeepAlive();
      reply := Reply(r, []);
  }

  /** Any sequence of driver calls, whatever arrives meanwhile, and the receiver being set up again whenever it hung. */
  method Run(nic: Nic, buf: array<byte>, calls: seq<Call>) returns (replies: seq<Reply>, ghost states: seq<State>)
    requires nic.Valid() && forall n :: 0 <= n < |calls| ==> Fitting(calls[n], buf.Length)
    modifies nic, nic.wire, buf
    ensures nic.Valid() && |replies| == |calls| && Trace(calls, states, replies)
    ensures old(nic.wire.ops) <= nic.wire.ops
    ensures states[0] == old(StateOf(nic)) && states[|calls|] == StateOf(nic)
  {
    TakenAccepted(nic);
    replies, states := [], [StateOf(nic)];
    for n := 0 to |calls|
      invariant nic.Valid() && |replies| == n && Trace(calls, states, replies)
      invariant old(nic.wire.ops) <= nic.wire.ops
      invariant states[0] == old(StateOf(nic)) && states[n] == StateOf(nic)
    {
      hide Trace, Step;
      assert Fitting(calls[n], buf.Length);
      var reply := Perform(nic, buf, calls[n]);
      TakenAccepted(nic);
      TraceNext(calls, states, replies, StateOf(nic), reply);
      replies, states := replies + [reply], states + [StateOf(nic)];
    }
  }

  /** Between any two calls, what the driver has done on the bus so far is a sequence of whole calls. */
  lemma BusCalls(nic: Nic) returns (ns: seq<nat>)
    requires nic.Valid()
    ensures nic.wire.ops == B.NicOps(ns)
  {
    hide Ready, Holds, History;
    ns := B.LoggedIsCalls(nic.wire.ops);
  }

  /** No set-up between two calls of a run. */
  predicate Undisturbed(calls: seq<Call>, replies: seq<Reply>, m: nat, n: nat)
    requires n <= |replies| <= |calls|
  {
    forall k :: m <= k < n && calls[k].CallKeepAlive? ==> replies[k].value == 0
  }

  /** What the receives from `m` up to `n` returned. */
  function Got(calls: seq<Call>, replies: seq<Reply>, m: nat, n: nat): seq<seq<byte>>
    requires m <= n <= |replies| <= |calls|
    decreases n
  {
    if m == n then []
    else Got(calls, replies, m, n - 1)
         + if calls[n - 1].CallRecv? && replies[n - 1].value >= 0 then [replies[n - 1].data] else []
  }

  /** The buffer sizes of the receives that took a frame. */
  function Offered(calls: seq<Call>, states: seq<State>, m: nat, n: nat): seq<nat>
    requires m <= n < |states| && n <= |calls|
    decreases n
  {
    if m == n then []
    else Offered(calls, states, m, n - 1)
         + if calls[n - 1].CallRecv? && states[n].taken > states[n - 1].taken then [calls[n - 1].length] else []
  }

  /** How many receives there were. */
  function Receives(calls: seq<Call>, m: nat, n: nat): nat
    requires m <= n <= |calls|
    decreases n
  {
    if m == n then 0 else Receives(calls, m, n - 1) + if calls[n - 1].CallRecv? then 1 else 0
  }

  ghost predicate Framed(fs: seq<Frame>, ls: seq<nat>) {
    |fs| == |ls| && forall i :: 0 <= i < |fs| ==> 4 <= |fs[i].data|
  }

  /**
   Between two set-ups the receives return the good frames among those that the chip accepted,
   from the first not yet taken on, in that order, each once and cut to its buffer.
   */
  lemma {:induction false} ReceivedIsAccepted(calls: seq<Call>, states: seq<State>, replies: seq<Reply>, m: nat, n: nat)
    requires Trace(calls, states, replies) && m <= n <= |replies| && Undisturbed(calls, replies, m, n)
    ensures states[m].accepted <= states[n].accepted && states[m].taken <= states[n].taken <= |states[n].accepted|
    ensures var fs, ls := states[n].accepted[states[m].taken..states[n].taken], Offered(calls, states, m, n);
            Framed(fs, ls) && Got(calls, replies, m, n) == Deliveries(fs, ls)
    decreases n
  {
    if m == n {
    } else {
      ReceivedIsAccepted(calls, states, replies, m, n - 1);
      assert Step(calls[n - 1], states[n - 1], states[n], replies[n - 1]);
      var t := states[n - 1];
      GotNext(calls[n - 1], t, states[n], replies[n - 1], t.accepted[states[m].taken..t.taken],
              Offered(calls, states, m, n - 1), states[m].taken);
    }
  }

  lemma GotNext(call: Call, t: State, u: State, r: Reply, fs: seq<Frame>, ls: seq<nat>, from: nat)
    requires Step(call, t, u, r) && (call.CallKeepAlive? ==> r.value == 0) && from <= t.taken <= |t.accepted|
    requires fs == t.accepted[from..t.taken] && Framed(fs, ls)
    ensures t.accepted <= u.accepted && t.taken <= u.taken <= |u.accepted|
    ensures var gs := u.accepted[from..u.taken];
            var ks := ls + if call.CallRecv? && u.taken > t.taken then [call.length] else [];
            Framed(gs, ks)
            && Deliveries(gs, ks) == Deliveries(fs, ls) + if call.CallRecv? && r.value >= 0 then [r.data] else []
  {
    hide Payload, StatusOk;
    if u.taken == t.taken {
      assert u.accepted[from..u.taken] == fs && ls + [] == ls && Deliveries(fs, ls) + [] == Deliveries(fs, ls);
    } else {
      var gs := u.accepted[from..u.taken];
      assert gs == fs + [u.accepted[t.taken]];
      assert gs[..|fs|] == fs && (ls + [call.length])[..|fs|] == ls;
    }
  }

  /** The packets given to nic_send from `m` up to `n`. */
  function Given(calls: seq<Call>, m: nat, n: nat): seq<seq<byte>>
    requires m <= n <= |calls|
    decreases n
  {
    if m == n then [] else Given(calls, m, n - 1) + if calls[n - 1].CallSend? then [calls[n - 1].packet] else []
  }

  /**
   Between two set-ups the transmissions that the chip finished are those of the packets given to
   nic_send, each once and in that order.
   */
  lemma {:induction false} SentIsGiven(calls: seq<Call>, states: seq<State>, replies: seq<Reply>, m: nat, n: nat)
    requires Trace(calls, states, replies) && m <= n <= |replies| && Undisturbed(calls, replies, m, n)
    ensures states[m].sent <= states[n].sent
    ensures Packets(states[n].sent[|states[m].sent|..]) == Given(calls, m, n)
    decreases n
  {
    if m == n {
    } else {
      hide Step, Packets;
      SentIsGiven(calls, states, replies, m, n - 1);
      SentNext(calls[n - 1], states[n - 1], states[n], replies[n - 1], states[m].sent);
    }
  }

  lemma SentNext(call: Call, t: State, u: State, r: Reply, from: seq<Transmission>)
    requires Step(call, t, u, r) && (call.CallKeepAlive? ==> r.value == 0) && from <= t.sent
    ensures from <= u.sent
    ensures Packets(u.sent[|from|..]) == Packets(t.sent[|from|..]) + if call.CallSend? then [call.packet] else []
  {
    hide RecvStep, ByteCount;
    var k, s := |from|, t.sent;
    if call.CallSend? {
      assert u.sent[k..] == s[k..] + [u.sent[|s|]];
    } else {
      assert u.sent == s by { RecvSends(t, u, call, r); }
    }
  }

  lemma RecvSends(t: State, u: State, call: Call, r: Reply)
    requires call.CallRecv? ==> RecvStep(t, u, call.length, r)
    ensures call.CallRecv? ==> u.sent == t.sent
  {
  }

  /** Enough receives take every frame that was waiting when the first of them began. */
  lemma {:induction false} WaitingIsTaken(calls: seq<Call>, states: seq<State>, replies: seq<Reply>, m: nat, n: nat)
    requires Trace(calls, states, replies) && m <= n <= |replies| && Undisturbed(calls, replies, m, n)
    ensures |states[m].accepted| <= |states[n].accepted|
    ensures states[n].taken >= |states[m].accepted| || states[n].taken - states[m].taken == Receives(calls, m, n)
    decreases n
  {
    if m < n {
      WaitingIsTaken(calls, states, replies, m, n - 1);
      assert Step(calls[n - 1], states[n - 1], states[n], replies[n - 1]);
    }
  }
}
