/**
 The ENC28J60 as the driver sees it over SPI: 8 KB of buffer memory, a banked
 register file, and hardware that stores frames into a circular receive buffer
 on its own (Microchip data sheet DS39662: section 3.2 for the buffer, section
 4.2 for the SPI instructions, section 7.2 for the receive buffer).
 */
module Enc28j60Chip {
  import opened Words

  const MEM_SIZE := 0x2000
  const RX_STOP := 0x19ff    // last byte of the receive ring, which starts at 0
  const TX_START := 0x1a00   // first byte of the transmit area

  /** A frame as it came off the wire, CRC included, with its status word. */
  datatype Frame = Frame(data: seq<byte>, statusLo: byte, statusHi: byte)

  /** The pointer registers only the host moves. ERXRDPTL is buffered until ERXRDPTH is written. */
  datatype Pointers = Pointers(erdpt: nat, ewrpt: nat, etxst: nat, etxnd: nat,
                               erxst: nat, erxnd: nat, erxrdpt: nat, rdptLatch: byte)

  /** A transmission that came to its end: the packet, the status vector stored for it, whether it failed. */
  datatype Transmission = Transmission(packet: seq<byte>, vector: seq<byte>, bad: bool)

  /** The packets of the transmissions finished. */
  function Packets(ts: seq<Transmission>): (ps: seq<seq<byte>>)
    ensures |ps| == |ts| && forall i :: 0 <= i < |ts| ==> ps[i] == ts[i].packet
  {
    seq(|ts|, i requires 0 <= i < |ts| => ts[i].packet)
  }

  /**
   `accepted` and `sent` are histories: the frames stored into the ring since the last reset, and
   the transmissions finished. No step depends on them. `stalled` transmit logic makes no progress.
   `phy` holds the PHY registers written so far; while `mii` is not 0 such a write is under way.
   */
  datatype Chip = Chip(mem: seq<byte>, ptr: Pointers, erxwrpt: nat, pktcnt: nat,
                       econ1: byte, econ2: byte, eir: byte, regs: map<byte, byte>,
                       txBusy: bool, txPolls: nat, stalled: bool,
                       phy: map<nat, nat>, mii: nat, miiPolls: nat,
                       accepted: seq<Frame>, sent: seq<Transmission>)

  predicate InMemory(p: Pointers) {
    && p.erdpt < MEM_SIZE && p.ewrpt < MEM_SIZE && p.etxst < MEM_SIZE && p.etxnd < MEM_SIZE
    && p.erxst < MEM_SIZE && p.erxnd < MEM_SIZE && p.erxrdpt < MEM_SIZE
  }

  ghost predicate WF(c: Chip) {
    && |c.mem| == MEM_SIZE && InMemory(c.ptr) && c.erxwrpt < MEM_SIZE
    && c.pktcnt < 256
    && (c.txBusy ==> !Bit(c.econ1, 7))
  }

  // ---- Register file -------------------------------------------------------

  /** The bank a register access goes to: ECON1.BSEL. */
  function Bank(c: Chip): byte {
    (if Bit(c.econ1, 0) then 1 else 0) + (if Bit(c.econ1, 1) then 2 else 0)
  }

  /** Flat index of register `a` in `bank`; 0x1b..0x1f are shared by all banks. */
  function Flat(bank: byte, a: byte): byte {
    if a % 32 >= 0x1b then a % 32 else bank % 4 * 32 + a % 32
  }

  /** The registers that live in the MAC and MII blocks (data sheet table 3-1). */
  predicate IsMacMii(i: byte) {
    0x40 <= i < 0x5b || 0x60 <= i < 0x66 || i == 0x6a
  }

  /** Pointer registers implement 13 bits. */
  function SetLow(p: nat, v: byte): nat {
    v + 256 * (p / 256)
  }

  function SetHigh(p: nat, v: byte): nat {
    p % 256 + 256 * (v % 32)
  }

  function ReadReg(c: Chip, i: byte): byte {
    if i == 0x00 then Lo(c.ptr.erdpt) else if i == 0x01 then Hi(c.ptr.erdpt)
    else if i == 0x02 then Lo(c.ptr.ewrpt) else if i == 0x03 then Hi(c.ptr.ewrpt)
    else if i == 0x04 then Lo(c.ptr.etxst) else if i == 0x05 then Hi(c.ptr.etxst)
    else if i == 0x06 then Lo(c.ptr.etxnd) else if i == 0x07 then Hi(c.ptr.etxnd)
    else if i == 0x08 then Lo(c.ptr.erxst) else if i == 0x09 then Hi(c.ptr.erxst)
    else if i == 0x0a then Lo(c.ptr.erxnd) else if i == 0x0b then Hi(c.ptr.erxnd)
    else if i == 0x0c then Lo(c.ptr.erxrdpt) else if i == 0x0d then Hi(c.ptr.erxrdpt)
    else if i == 0x0e then Lo(c.erxwrpt) else if i == 0x0f then Hi(c.erxwrpt)
    else if i == 0x39 then Lo(c.pktcnt)
    else if i == 0x1c then c.eir
    else if i == 0x1e then c.econ2
    else if i == 0x1f then c.econ1
    else if i == 0x6a then (if c.mii > 0 then 1 else 0) // MISTAT: BUSY
    else if i in c.regs then c.regs[i] else 0
  }

  /** The bytes between ETXST and ETXND, without the control byte. */
  function TxPacket(c: Chip): seq<byte>
    requires |c.mem| == MEM_SIZE
  {
    if c.ptr.etxst < c.ptr.etxnd < MEM_SIZE then c.mem[c.ptr.etxst + 1..c.ptr.etxnd + 1] else []
  }

  /** TXRST stops the transmitter and frees its logic; TXRTS going high starts it. */
  function WriteEcon1(c: Chip, v: byte): Chip
    requires |c.mem| == MEM_SIZE
  {
    if Bit(v, 7) then c.(econ1 := v, txBusy := false, stalled := false)
    else if Bit(v, 3) && !Bit(c.econ1, 3) then c.(econ1 := v, txBusy := true)
    else c.(econ1 := v)
  }

  /** PKTDEC decrements EPKTCNT and reads back as zero. */
  function WriteEcon2(c: Chip, v: byte): Chip {
    var d := c.(econ2 := AndNotByte(v, 0x40));
    if Bit(v, 6) && c.pktcnt > 0 then d.(pktcnt := c.pktcnt - 1) else d
  }

  /** Writing one of the pointer registers 0x00..0x0d. */
  function WritePointer(p: Pointers, i: byte, v: byte): Pointers {
    if i == 0x00 then p.(erdpt := SetLow(p.erdpt, v)) else if i == 0x01 then p.(erdpt := SetHigh(p.erdpt, v))
    else if i == 0x02 then p.(ewrpt := SetLow(p.ewrpt, v)) else if i == 0x03 then p.(ewrpt := SetHigh(p.ewrpt, v))
    else if i == 0x04 then p.(etxst := SetLow(p.etxst, v)) else if i == 0x05 then p.(etxst := SetHigh(p.etxst, v))
    else if i == 0x06 then p.(etxnd := SetLow(p.etxnd, v)) else if i == 0x07 then p.(etxnd := SetHigh(p.etxnd, v))
    else if i == 0x08 then p.(erxst := SetLow(p.erxst, v)) else if i == 0x09 then p.(erxst := SetHigh(p.erxst, v))
    else if i == 0x0a then p.(erxnd := SetLow(p.erxnd, v)) else if i == 0x0b then p.(erxnd := SetHigh(p.erxnd, v))
    else if i == 0x0c then p.(rdptLatch := v)
    else p.(erxrdpt := p.rdptLatch + 256 * (v % 32))
  }

  /** What a plain register holds. */
  function Plain(c: Chip, i: byte): byte {
    if i in c.regs then c.regs[i] else 0
  }

  /**
   Writing MIWRH sends MIWR to the PHY register that MIREGADR names. Nothing is known of the PHY
   registers once one of the three was written while a write was under way.
   */
  function WriteMii(c: Chip, i: byte, v: byte): Chip {
    var d := c.(regs := c.regs[i := v]);
    if c.mii > 0 then d.(phy := map[])
    else if i == 0x57 then d.(phy := c.phy[Plain(c, 0x54) % 32 := Word(Plain(c, 0x56), v)], mii := c.miiPolls)
    else d
  }

  /** ERXWRPT, EPKTCNT and MISTAT are read-only; writing ERXST moves ERXWRPT along. */
  function WriteReg(c: Chip, i: byte, v: byte): Chip
    requires |c.mem| == MEM_SIZE
  {
    if i == 0x08 || i == 0x09 then
      var p := WritePointer(c.ptr, i, v); c.(ptr := p, erxwrpt := p.erxst)
    else if i < 0x0e then c.(ptr := WritePointer(c.ptr, i, v))
    else if i == 0x0e || i == 0x0f || i == 0x39 || i == 0x6a then c
    else if i == 0x54 || i == 0x56 || i == 0x57 then WriteMii(c, i, v)
    else if i == 0x1c then c.(eir := v)
    else if i == 0x1e then WriteEcon2(c, v)
    else if i == 0x1f then WriteEcon1(c, v)
    else c.(regs := c.regs[i := v])
  }

  /** System reset: every register at its reset value, the buffer memory kept. */
  function Reset(c: Chip): Chip {
    Chip(c.mem, Pointers(0x05fa, 0, 0, 0, 0x05fa, 0x1fff, 0x05fa, 0xfa), 0, 0,
         0x00, 0x80, 0x00, map[], false, 0, false, map[], 0, 0, [], [])
  }

  // ---- Receive ring --------------------------------------------------------

  predicate RingProgrammed(c: Chip) {
    && c.ptr.erxst <= c.erxwrpt <= c.ptr.erxnd < MEM_SIZE
    && c.ptr.erxst <= c.ptr.erxrdpt <= c.ptr.erxnd
  }

  /** Free space as the chip computes it (section 7.2.4). */
  function Free(c: Chip): (n: nat)
    ensures RingProgrammed(c) ==> n <= c.ptr.erxnd - c.ptr.erxst
  {
    if !RingProgrammed(c) then 0
    else if c.erxwrpt > c.ptr.erxrdpt then (c.ptr.erxnd - c.ptr.erxst) - (c.erxwrpt - c.ptr.erxrdpt)
    else if c.erxwrpt == c.ptr.erxrdpt then c.ptr.erxnd - c.ptr.erxst
    else c.ptr.erxrdpt - c.erxwrpt - 1
  }

  /** How far address `a` of the ring lies beyond the write pointer. */
  function Beyond(c: Chip, a: nat): nat
    requires RingProgrammed(c) && c.ptr.erxst <= a <= c.ptr.erxnd
  {
    if a >= c.erxwrpt then a - c.erxwrpt else a - c.erxwrpt + (c.ptr.erxnd - c.ptr.erxst + 1)
  }

  /** The part of the ring the receive hardware may write at any moment. */
  predicate InFreeZone(c: Chip, a: nat) {
    RingProgrammed(c) && c.ptr.erxst <= a <= c.ptr.erxnd && Beyond(c, a) < Free(c)
  }

  /** The seven bytes after the packet that a running transmission will overwrite. */
  predicate InStatusZone(c: Chip, a: nat)
    requires c.ptr.etxnd < MEM_SIZE
  {
    c.txBusy && (a + MEM_SIZE - c.ptr.etxnd - 1) % 0x2000 < 7
  }

  /** Memory the hardware will not touch until the host allows it. */
  predicate Stable(c: Chip, a: nat)
    requires c.ptr.etxnd < MEM_SIZE
  {
    a < MEM_SIZE && !InFreeZone(c, a) && !InStatusZone(c, a)
  }

  /** Memory after `bytes` were stored from the write pointer on, wrapping at ERXND. */
  function Stored(c: Chip, bytes: seq<byte>): (m: seq<byte>)
    requires |c.mem| == MEM_SIZE && RingProgrammed(c)
    ensures |m| == MEM_SIZE
  {
    seq(MEM_SIZE, a requires 0 <= a < MEM_SIZE =>
      if c.ptr.erxst <= a <= c.ptr.erxnd && Beyond(c, a) < |bytes| then bytes[Beyond(c, a)] else c.mem[a])
  }

  function RingAdd(c: Chip, p: nat, k: nat): nat
    requires c.ptr.erxst <= p <= c.ptr.erxnd && k <= c.ptr.erxnd - c.ptr.erxst
  {
    if p + k <= c.ptr.erxnd then p + k else p + k - (c.ptr.erxnd - c.ptr.erxst + 1)
  }

  /** Ring bytes a frame takes: next pointer, status vector, data, padding to an even size. */
  function Footprint(f: Frame): (n: nat)
    ensures n % 2 == 0 && n >= 6 + |f.data|
  {
    6 + |f.data| + |f.data| % 2
  }

  /** The bytes of a stored frame; `next` is where the following one will start. */
  function Packet(f: Frame, next: nat): (bytes: seq<byte>)
    ensures |bytes| == Footprint(f)
  {
    [Lo(next), Hi(next), Lo(|f.data|), Hi(|f.data|), f.statusLo, f.statusHi]
    + f.data + (if |f.data| % 2 == 1 then [0] else [])
  }

  /** The receive status vector, four bytes behind the next pointer (table 7-3): a byte count and flags. */
  function StatusVector(f: Frame): nat {
    |f.data| % 0x10000 + 0x10000 * Word(f.statusLo, f.statusHi)
  }

  /** Its bit 23, "Received Ok". */
  predicate StatusOk(f: Frame) {
    Bit(StatusVector(f), 23)
  }

  /**
   A frame is stored if reception is on, it has a header and a CRC (section 5.1), there is room
   and EPKTCNT can count it.
   */
  predicate Accepts(c: Chip, f: Frame) {
    && Bit(c.econ1, 2)
    && RingProgrammed(c)
    && 18 <= |f.data|
    && Footprint(f) <= Free(c)
    && c.pktcnt < 255
  }

  // ---- What the hardware does on its own -----------------------------------

  datatype Event =
    | Receive(frame: Frame)
    | Abandon(junk: seq<byte>)   // a frame dropped half-way: bytes written, pointer not advanced
    | Raise(flags: byte)         // interrupt flags other than the transmitter's set
    | Hang                       // the receiver disables itself
    | Pace(polls: nat)           // how long the next transmission will take
    | Linger(polls: nat)         // how long the next PHY write will take
    | Settle                     // the PHY write under way makes progress
    | Tick(tsv: seq<byte>, bad: bool, stuck: bool) // the transmitter makes progress

  /** The status vector of a finished transmission lands right after the packet. */
  function WithTsv(c: Chip, tsv: seq<byte>): (m: seq<byte>)
    requires |c.mem| == MEM_SIZE && c.ptr.etxnd < MEM_SIZE && |tsv| == 7
    ensures |m| == MEM_SIZE
  {
    seq(MEM_SIZE, a requires 0 <= a < MEM_SIZE =>
      var k := (a + MEM_SIZE - c.ptr.etxnd - 1) % 0x2000;
      if k < 7 then tsv[k] else c.mem[a])
  }

  /**
   A transmission ends. One that failed can leave the transmit logic stalled, as silicon errata 10
   has it, and here also TXRTS set.
   */
  function Finish(c: Chip, tsv: seq<byte>, bad: bool, stuck: bool): Chip
    requires |c.mem| == MEM_SIZE && c.ptr.etxnd < MEM_SIZE && |tsv| == 7
  {
    c.(mem := WithTsv(c, tsv), txBusy := false, stalled := stuck,
       econ1 := if stuck then c.econ1 else AndNotByte(c.econ1, 0x08),
       eir := OrByte(c.eir, if bad then 0x02 else 0x08),
       sent := c.sent + [Transmission(TxPacket(c), tsv, bad)])
  }

  function React(c: Chip, e: Event): Chip
    requires |c.mem| == MEM_SIZE && c.ptr.etxnd < MEM_SIZE
  {
    match e
    case Receive(f) =>
      if Accepts(c, f) then
        var next := RingAdd(c, c.erxwrpt, Footprint(f));
        c.(mem := Stored(c, Packet(f, next)), erxwrpt := next, pktcnt := c.pktcnt + 1,
           accepted := c.accepted + [f])
      else c
    case Abandon(junk) =>
      if Bit(c.econ1, 2) && RingProgrammed(c) && |junk| <= Free(c) then c.(mem := Stored(c, junk)) else c
    case Raise(flags) => c.(eir := OrByte(c.eir, AndNotByte(flags, 0x0a)))
    case Hang => c.(econ1 := AndNotByte(c.econ1, 0x04))
    case Pace(polls) => if c.txBusy then c else c.(txPolls := polls)
    case Linger(polls) => if c.mii > 0 then c else c.(miiPolls := polls)
    case Settle => if c.mii > 0 then c.(mii := c.mii - 1) else c
    case Tick(tsv, bad, stuck) =>
      if !c.txBusy || c.stalled then c
      else if c.txPolls > 0 then c.(txPolls := c.txPolls - 1)
      else if |tsv| != 7 then c
      else Finish(c, tsv, bad, bad && stuck)
  }
}
