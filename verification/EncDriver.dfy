/**
 The ENC28J60 driver: banked register access and buffer transfers over SPI, with
 two shadows of chip state, the selected bank and the address of the next packet.
 */
module Enc28j60Driver {
  import opened Words
  import opened Enc28j60Chip
  import opened Enc28j60Ring
  import opened Enc28j60Wire
  import opened Enc28j60Host
  import B = SpiBus

  // Register addresses as the driver writes them: bank in bits 5-6, bit 7 for MAC and MII.
  const ERDPTL: byte := 0x00
  const EWRPTL: byte := 0x02
  const ETXSTL: byte := 0x04
  const ETXNDL: byte := 0x06
  const ERXSTL: byte := 0x08
  const ERXNDL: byte := 0x0a
  const ERXRDPTL: byte := 0x0c
  const EPKTCNT: byte := 0x39
  const EIE: byte := 0x1b
  const EIR: byte := 0x1c
  const ECON2: byte := 0x1e
  const ECON1: byte := 0x1f

  const MACON1: byte := 0xc0
  const MACON2: byte := 0xc1
  const MACON3: byte := 0xc2
  const MABBIPG: byte := 0xc4
  const MAIPGL: byte := 0xc6
  const MAMXFLL: byte := 0xca
  const MIREGADR: byte := 0xd4
  const MIWRL: byte := 0xd6
  const MISTAT: byte := 0xea
  const MAADR1: byte := 0xe4
  const MAADR2: byte := 0xe5
  const MAADR3: byte := 0xe2
  const MAADR4: byte := 0xe3
  const MAADR5: byte := 0xe0
  const MAADR6: byte := 0xe1

  /** The plain registers nic_init programs, by bank and number: full duplex with padding and CRC... */
  function MacSetup(r: map<byte, byte>): map<byte, byte> {
    r[0x40 := 0x0d][0x41 := 0x00][0x42 := 0x33][0x44 := 0x15][0x46 := 0x12][0x47 := 0x0c][0x4a := 0xee][0x4b := 0x05]
  }

  /** ...the station address... */
  function AddressSetup(r: map<byte, byte>): map<byte, byte> {
    r[0x64 := 0x6c][0x65 := 0x78][0x62 := 0x75][0x63 := 0x73][0x60 := 0xe6][0x61 := 0x11]
  }

  /** ...the MII registers after a PHY write... */
  function PhyWritten(r: map<byte, byte>, reg: byte, val: nat): map<byte, byte> {
    r[0x54 := reg % 32][0x56 := Lo(val)][0x57 := Hi(val)]
  }

  /** ...of which there are five: LED mode, full duplex, and link interrupts... */
  function PhySetup(r: map<byte, byte>): map<byte, byte> {
    PhyWritten(PhyWritten(PhyWritten(PhyWritten(r, 0x14, 0x3742), 0x00, 0x0100), 0x10, 0), 0x12, 0x12)
  }

  /** ...and EIE. */
  function Setup(): map<byte, byte> {
    PhySetup(AddressSetup(MacSetup(map[])))[0x1b := 0xc0]
  }

  /** What is in the PHY registers then: PHLCON, PHCON1, PHCON2 and PHIE. */
  ghost predicate PhyIsSet(phy: map<nat, nat>) {
    && 0x14 in phy && phy[0x14] == 0x3742 && 0x00 in phy && phy[0x00] == 0x0100
    && 0x10 in phy && phy[0x10] == 0 && 0x12 in phy && phy[0x12] == 0x12
  }

  /** The register an address constant names; the five shared registers belong to every bank. */
  function Named(addr: byte): byte {
    if addr % 32 >= 0x1b then addr % 32 else addr % 128
  }

  /** Bit 7 of the constant tells MAC and MII registers from the others. */
  predicate WellNamed(addr: byte) {
    addr >= 0x80 <==> IsMacMii(Named(addr))
  }

  /** Whether writing `v`, or setting or clearing the bits of `v`, leaves the bank selection alone. */
  predicate KeepsBank(addr: byte, v: byte) {
    Named(addr) != 0x1f || (!Bit(v, 0) && !Bit(v, 1))
  }

  /** SWAP16 on a 16-bit value. */
  function Swap16(a: nat): nat
    requires a < 0x10000
  {
    a / 256 + a % 256 * 256
  }

  /** enc28j60_rxrdpt_fix: silicon errata 11 forbids even values in ERXRDPT. */
  function RxrdptFix(next: nat): nat {
    if next - 1 < 0 || next - 1 > RX_STOP then RX_STOP else next - 1
  }

  /** The 16-bit field a big-endian machine sees in two bytes. */
  function BigEndian(b0: byte, b1: byte): (a: nat)
    ensures a < 0x10000
  {
    256 * (b0 as int) + b1 as int
  }

  /** A big-endian machine reading two little-endian bytes and swapping them gets their value. */
  lemma SwapIsWord(b0: byte, b1: byte)
    ensures Swap16(BigEndian(b0, b1)) == Word(b0, b1)
  {
    var a := BigEndian(b0, b1);
    assert a / 256 == b0 && a % 256 == b1;
  }

  /** The frame without its CRC, cut to the size of the buffer. */
  function Payload(f: Frame, length: nat): seq<byte>
    requires 4 <= |f.data|
  {
    f.data[..if |f.data| - 4 < length then |f.data| - 4 else length]
  }

  /** The bytes a transmission sent, as its status vector counts them (little-endian), less the CRC. */
  function ByteCount(t: Transmission): nat
    requires |t.vector| == 7
  {
    (t.vector[0] as int + 256 * t.vector[1] as int + 0x10000 - 4) % 0x10000
  }

  /** What callers offering buffers of sizes `ls` get for the frames `fs`: bad ones are skipped. */
  ghost function Deliveries(fs: seq<Frame>, ls: seq<nat>): seq<seq<byte>>
    requires |fs| == |ls| && forall i :: 0 <= i < |fs| ==> 4 <= |fs[i].data|
    decreases |fs|
  {
    if fs == [] then [] else
      var k := |fs| - 1;
      Deliveries(fs[..k], ls[..k]) + (if StatusOk(fs[k]) then [Payload(fs[k], ls[k])] else [])
  }

  /** Once the bank is right, the chip resolves an address constant to the register it names. */
  lemma FlatIsNamed(addr: byte, bank: byte)
    ensures Flat(addr / 32 % 4, addr % 32) == Named(addr)
    ensures addr % 32 >= 0x1b ==> Flat(bank, addr % 32) == Named(addr)
  {
    var q, r := addr / 32, addr % 32;
    assert addr == 32 * q + r && q < 8 && r % 32 == r;
    if q < 4 {
      assert addr % 128 == addr && q % 4 == q;
    } else {
      assert addr % 128 == addr - 128 && q % 4 == q - 4;
    }
  }

  ghost predicate History(c: Chip, taken: nat, lengths: seq<nat>, results: seq<seq<byte>>) {
    && taken == |lengths| <= |c.accepted|
    && (forall i :: 0 <= i < |c.accepted| ==> 18 <= |c.accepted[i].data|)
    && results == Deliveries(c.accepted[..taken], lengths)
  }

  class Nic {
    const wire: Wire
    var currentBank: byte
    var nextPacket: nat
    /** bus_taken of the SPI library linked into this driver. */
    var busTaken: bool
    /** Frames taken off the ring since the last reset, the buffer sizes offered, what the callers got. */
    ghost var taken: nat
    ghost var lengths: seq<nat>
    ghost var results: seq<seq<byte>>
    /** How often nic_init has run. */
    ghost var setups: nat

    constructor (wire: Wire)
      ensures this.wire == wire && currentBank == 0 && nextPacket == 0 && !busTaken
      ensures taken == 0 && lengths == [] && results == [] && setups == 0
    {
      this.wire := wire;
      currentBank, nextPacket, busTaken := 0, 0, false;
      taken, lengths, results, setups := 0, [], [], 0;
    }

    /** Holding the bus, between SPI transactions: the bank shadow equals the chip's bank-select bits. */
    ghost predicate Coherent()
      reads this, wire
    {
      WF(wire.chip) && wire.session == Deselected && currentBank == Bank(wire.chip) && busTaken && wire.At(HELD)
    }

    /** spi_obtain: a no-op for a driver that already has the bus. */
    method Obtain()
      requires !busTaken && wire.At(IDLE)
      modifies this`busTaken, wire`ops
      ensures busTaken && wire.At(HELD) && wire.ops == old(wire.ops) + [B.Obtain]
    {
      wire.Log(IDLE, B.Obtain);
      if !busTaken { busTaken := true; }
    }

    /** spi_release: the bus is given back with the chip deselected. */
    method Release()
      requires wire.session == Deselected && busTaken && wire.At(HELD)
      modifies this`busTaken, wire`ops
      ensures !busTaken && wire.At(IDLE) && wire.ops == old(wire.ops) + [B.Release]
    {
      wire.Log(HELD, B.Release);
      if busTaken { busTaken := false; }
    }

    /** Not holding the bus: the bank shadow still equals the chip's bank-select bits. */
    ghost predicate Shadowed()
      reads this, wire
    {
      WF(wire.chip) && wire.session == Deselected && currentBank == Bank(wire.chip) && !busTaken && wire.At(IDLE)
    }

    /** The bank is switched if it has to be, and only then. */
    method SetBank(addr: byte)
      requires Coherent()
      modifies this`currentBank, wire
      ensures addr % 32 >= 0x1b || addr / 32 % 4 == old(currentBank) ==>
                wire.chip == old(wire.chip) && wire.ops == old(wire.ops) && currentBank == old(currentBank)
      ensures old(wire.ops) <= wire.ops
      ensures Coherent() && Drift(old(wire.chip), wire.chip)
      ensures Flat(currentBank, addr % 32) == Named(addr)
    {
      hide Drift, SetField, ClearField, B.Logged;
      var bank := addr / 32 % 4;
      FlatIsNamed(addr, currentBank);
      hide Flat, Named, B.Logged;
      DriftRefl(wire.chip);
      if addr % 32 < 0x1b && bank != currentBank {
        WriteBankBits(0xa0, 0x03);
        ghost var cleared := wire.chip;
        WriteBankBits(0x80, bank);
        DriftTrans(old(wire.chip), cleared, wire.chip);
        currentBank := bank;
      }
    }

    /** One of the two ECON1 transactions of a bank switch. */
    method WriteBankBits(op: byte, v: byte)
      requires WF(wire.chip) && busTaken && wire.session == Deselected && wire.At(HELD)
      requires (op == 0xa0 && v == 0x03) || (op == 0x80 && v < 4 && Bank(wire.chip) == 0)
      modifies wire
      ensures old(wire.ops) <= wire.ops
      ensures WF(wire.chip) && wire.session == Deselected && Drift(old(wire.chip), wire.chip) && wire.At(HELD)
      ensures Bank(wire.chip) == if op == 0xa0 then 0 else v
    {
      hide Drift, SetField, ClearField, B.Logged;
      ghost var c0 := wire.chip;
      wire.Begin(0x1f + op);
      ghost var c1 := wire.chip;
      ghost var at := wire.Put(v);
      wire.Deselect();
      DriftTrans(c0, c1, at);
      if op == 0xa0 { ClearBank(at); } else { SelectBank(at, v); }
      DriftTrans(c0, at, wire.chip);
    }

    /** An instruction and its data byte, sent with the right bank selected; `at` is the chip before it takes effect. */
    method Instruct(op: byte, addr: byte, val: byte) returns (ghost at: Chip)
      requires Coherent() && op in {0x40, 0x80, 0xa0}
      modifies this`currentBank, wire
      ensures old(wire.ops) <= wire.ops
      ensures WF(at) && Drift(old(wire.chip), at) && Bank(at) == currentBank && busTaken && wire.At(HELD)
      ensures wire.session == Deselected
      ensures wire.chip == if op == 0x40 then WriteReg(at, Named(addr), val)
                           else if op == 0x80 then SetField(at, Named(addr), val) else ClearField(at, Named(addr), val)
    {
      hide Drift, WriteReg, SetField, ClearField, Flat, Named, Bank, Passed, B.Logged;
      ghost var c0 := wire.chip;
      SetBank(addr);
      ghost var c := wire.chip;
      wire.Begin(addr % 32 + op);
      PassedAfter(c0, c, wire.chip);
      Opcodes(addr % 32);
      c := wire.chip;
      at := wire.Put(val);
      PassedAfter(c0, c, at);
      wire.Deselect();
    }

    /** `at` is the chip at the instant the write takes effect, whatever arrived before it. */
    method WriteRegister(addr: byte, val: byte) returns (ghost at: Chip)
      requires Coherent()
      modifies this`currentBank, wire
      ensures old(wire.ops) <= wire.ops
      ensures WF(at) && Drift(old(wire.chip), at) && wire.chip == WriteReg(at, Named(addr), val)
      ensures WF(wire.chip) && wire.session == Deselected && wire.At(HELD) && (Named(addr) != 0x1f ==> Coherent())
    {
      hide Drift, WriteReg, Flat, Named, B.Logged;
      at := Instruct(0x40, addr, val);
      WriteRegWF(at, Named(addr), val);
      if Named(addr) != 0x1f { WriteRegBank(at, Named(addr), val); }
    }

    /** Sets bits of an ETH register; refuses MAC and MII registers. */
    method SetBitsOf(addr: byte, val: byte) returns (status: int, ghost at: Chip)
      requires Coherent()
      modifies this`currentBank, wire
      ensures old(wire.ops) <= wire.ops
      ensures status == if addr >= 0x80 then -1 else 0
      ensures WF(at) && Drift(old(wire.chip), at)
      ensures wire.chip == if addr >= 0x80 then at else SetField(at, Named(addr), val)
      ensures WF(wire.chip) && wire.session == Deselected && (KeepsBank(addr, val) ==> Coherent())
    {
      hide Drift, WriteReg, Flat, Named, B.Logged;
      if addr >= 0x80 {
        at := wire.chip;
        DriftRefl(at);
        return -1, at;
      }
      at := Instruct(0x80, addr, val);
      FieldBank(at, Named(addr), val);
      return 0, at;
    }

    /** Clears bits of an ETH register; refuses MAC and MII registers. */
    method ClearBitsOf(addr: byte, val: byte) returns (status: int, ghost at: Chip)
      requires Coherent()
      modifies this`currentBank, wire
      ensures old(wire.ops) <= wire.ops
      ensures status == if addr >= 0x80 then -1 else 0
      ensures WF(at) && Drift(old(wire.chip), at)
      ensures wire.chip == if addr >= 0x80 then at else ClearField(at, Named(addr), val)
      ensures WF(wire.chip) && wire.session == Deselected && (KeepsBank(addr, val) ==> Coherent())
    {
      hide Drift, WriteReg, Flat, Named, B.Logged;
      if addr >= 0x80 {
        at := wire.chip;
        DriftRefl(at);
        return -1, at;
      }
      at := Instruct(0xa0, addr, val);
      FieldBank(at, Named(addr), val);
      return 0, at;
    }

    /** Reads a register; the dummy byte of MAC and MII registers is skipped. */
    method ReadRegister(addr: byte) returns (v: byte)
      requires Coherent()
      modifies this`currentBank, wire
      ensures old(wire.ops) <= wire.ops
      ensures Coherent() && Drift(old(wire.chip), wire.chip)
      ensures WellNamed(addr) ==> v == ReadReg(wire.chip, Named(addr))
      ensures Progress(old(wire.chip), wire.chip)
    {
      hide ReadReg, Flat, Named, Drift, Bank, Passed, B.Logged;
      ghost var c0 := wire.chip;
      SetBank(addr);
      ghost var c := wire.chip;
      wire.Begin(addr % 32);
      PassedAfter(c0, c, wire.chip);
      c := wire.chip;
      ghost var at;
      v, at := wire.Get();
      PassedAfter(c0, c, at);
      if addr >= 0x80 {
        c := wire.chip;
        v, at := wire.Get();
        PassedAfter(c0, c, at);
      }
      wire.Deselect();
    }

    method WriteRegister16(addr: byte, val: nat) returns (ghost lowAt: Chip, ghost highAt: Chip)
      requires Coherent() && addr < 0xff && Named(addr) < 0x1e && Named(addr + 1) == Named(addr) + 1
      modifies this`currentBank, wire
      ensures old(wire.ops) <= wire.ops
      ensures Coherent()
      ensures WF(lowAt) && Drift(old(wire.chip), lowAt)
      ensures WF(highAt) && WF(WriteReg(lowAt, Named(addr), Lo(val)))
      ensures Drift(WriteReg(lowAt, Named(addr), Lo(val)), highAt)
      ensures wire.chip == WriteReg(highAt, Named(addr) + 1, Hi(val))
    {
      hide Drift, WriteReg, B.Logged;
      lowAt := WriteRegister(addr, Lo(val));
      highAt := WriteRegister(addr + 1, Hi(val));
    }

    /** The next byte of a buffer read that started at `p` on the chip `c`. */
    method ReadByte(ghost c: Chip, ghost p: nat, ghost i: nat) returns (b: byte)
      requires WF(c) && Bit(c.econ2, 7) && ReadSoFar(c, wire.chip, p, i) && wire.session == Rbm && busTaken
      modifies wire`chip, wire`session
      ensures ReadSoFar(c, wire.chip, p, i + 1) && wire.session == Rbm
      ensures Bank(wire.chip) == Bank(old(wire.chip))
      ensures Stable(c, Walk(c.ptr, p, i)) ==> b == c.mem[Walk(c.ptr, p, i)]
    {
      hide Drift, Stable, AfterRead, Passed, Bit, Bank, Walk, B.Logged;
      ghost var d := wire.chip;
      ReadSoFarWF(c, d, p, i);
      ghost var at;
      b, at := wire.Get();
      ReadStep(c, d, at, p, i);
    }

    /** Reads `length` bytes from the buffer memory into the caller's buffer. */
    method ReadBuf(buf: array<byte>, length: nat)
      requires Coherent() && Bit(wire.chip.econ2, 7) && length <= buf.Length
      modifies wire, buf
      ensures old(wire.ops) <= wire.ops
      ensures Coherent() && ReadSoFar(old(wire.chip), wire.chip, old(wire.chip).ptr.erdpt, length)
      ensures Delivered(old(wire.chip), old(wire.chip).ptr.erdpt, buf[..length])
      ensures buf[length..] == old(buf[length..])
    {
      ghost var c := wire.chip;
      ghost var p := c.ptr.erdpt;
      wire.Begin(0x3a);
      ReadStart(c, wire.chip);
      NothingDelivered(c, p);
      hide Drift, Stable, Walk, Passed, Bit, Bank, ReadSoFar, Delivered, B.Logged;
      assert buf[..0] == [];
      for i := 0 to length
        invariant wire.session == Rbm && Bank(wire.chip) == currentBank && wire.At(DRIVING)
        invariant old(wire.ops) <= wire.ops
        invariant ReadSoFar(c, wire.chip, p, i)
        invariant Delivered(c, p, buf[..i])
        invariant forall k :: i <= k < buf.Length ==> buf[k] == old(buf[k])
      {
        ghost var before := buf[..i];
        buf[i] := ReadByte(c, p, i);
        DeliveredNext(c, p, before, buf[i]);
        assert buf[..i + 1] == before + [buf[i]];
      }
      ReadSoFarWF(c, wire.chip, p, length);
      wire.Deselect();
    }

    /** The next byte of a buffer write that started at `p` on the chip `c`. */
    method WriteByte(ghost c: Chip, ghost p: nat, ghost done: seq<byte>, b: byte, ghost fits: bool)
      requires WF(c) && Ready(c) && WF(wire.chip) && wire.session == Wbm && Ready(wire.chip) && RingApart(wire.chip)
      requires fits ==> TX_START <= p && p + |done| < MEM_SIZE && Written(c, wire.chip, p, done)
      modifies wire`chip, wire`session
      ensures WF(wire.chip) && wire.session == Wbm && Bank(wire.chip) == Bank(old(wire.chip))
      ensures Ready(wire.chip) && RingApart(wire.chip)
      ensures wire.chip.ptr == old(wire.chip).ptr.(ewrpt := wire.chip.ptr.ewrpt)
      ensures old(wire.chip).accepted <= wire.chip.accepted && wire.chip.sent == old(wire.chip).sent
      ensures fits ==> Written(c, wire.chip, p, done + [b])
    {
      hide Written, Bit, Bank;
      ghost var d := wire.chip;
      ghost var at := wire.Put(b);
      DriftSteady(d, at);
      BufferWriteKeepsShape(at, b);
      BufferWriteKeepsReady(at, b);
      if fits {
        ReadyAutoinc(c);
        WrittenStep(c, d, at, p, done, b);
      }
      hide Drift, RingApart, Ready, AfterBufferWrite;
    }

    /** Writes a buffer through EWRPT: into the transmit area, if it fits there. */
    method WriteBuf(buf: seq<byte>)
      requires Coherent() && Ready(wire.chip) && RingApart(wire.chip)
      modifies wire
      ensures old(wire.ops) <= wire.ops
      ensures Coherent() && Ready(wire.chip) && RingApart(wire.chip)
      ensures wire.chip.ptr == old(wire.chip).ptr.(ewrpt := wire.chip.ptr.ewrpt)
      ensures old(wire.chip).accepted <= wire.chip.accepted && wire.chip.sent == old(wire.chip).sent
      ensures var c := old(wire.chip);
              TX_START <= c.ptr.ewrpt && c.ptr.ewrpt + |buf| <= MEM_SIZE ==>
                Written(c, wire.chip, c.ptr.ewrpt, buf)
    {
      ghost var c := wire.chip;
      ghost var p := c.ptr.ewrpt;
      ghost var fits := TX_START <= p && p + |buf| <= MEM_SIZE;
      wire.Begin(0x7a);
      if fits { WrittenStart(c, wire.chip, p); }
      DriftSteady(c, wire.chip);
      hide Written, RingApart, Bit, Drift, Ready, Bank, WF, B.Logged;
      for i := 0 to |buf|
        invariant WF(wire.chip) && wire.session == Wbm && Bank(wire.chip) == currentBank && wire.At(DRIVING)
        invariant old(wire.ops) <= wire.ops
        invariant Ready(wire.chip) && RingApart(wire.chip)
        invariant wire.chip.ptr == c.ptr.(ewrpt := wire.chip.ptr.ewrpt)
        invariant c.accepted <= wire.chip.accepted && wire.chip.sent == c.sent
        invariant fits ==> Written(c, wire.chip, p, buf[..i])
      {
        WriteByte(c, p, buf[..i], buf[i], fits);
        assert buf[..i + 1] == buf[..i] + [buf[i]];
      }
      assert buf[..|buf|] == buf;
      wire.Deselect();
    }

    /** Between driver calls: sound, and the bus free for others. */
    ghost predicate Valid()
      reads this, wire
    {
      Sound() && !busTaken && wire.At(IDLE)
    }

    /**
     Shadows coherent, chip idle, the ring holding exactly the frames not yet taken, and
     every frame taken so far delivered once, in order of arrival.
     */
    ghost predicate Sound()
      reads this, wire
    {
      && WF(wire.chip) && wire.session == Deselected && currentBank == Bank(wire.chip)
      && Ready(wire.chip) && Holds(wire.chip, nextPacket, taken, 0)
      && (taken > 0 ==> wire.chip.ptr.erxrdpt == Pred(nextPacket))
      && History(wire.chip, taken, lengths, results)
    }

    /** write_reg16 on ERDPT, EWRPT or ETXND. */
    method SetPointer(addr: byte, val: nat)
      requires Coherent() && Ready(wire.chip) && addr in {ERDPTL, EWRPTL, ETXNDL} && val < 0x10000
      modifies this`currentBank, wire
      ensures old(wire.ops) <= wire.ops
      ensures Coherent() && Ready(wire.chip)
      ensures wire.chip.ptr == WithPointer(old(wire.chip).ptr, addr, val % 0x2000)
      ensures old(wire.chip).accepted <= wire.chip.accepted && wire.chip.sent == old(wire.chip).sent
      ensures KeepsQueues(old(wire.chip), wire.chip)
      ensures RingApart(old(wire.chip)) ==>
                RingApart(wire.chip) && wire.chip.mem[TX_START..] == old(wire.chip).mem[TX_START..]
    {
      hide Drift, WriteReg, KeepsQueues, Ready, B.Logged;
      ghost var low, high := WriteRegister16(addr, val);
      PointerWritten(old(wire.chip), low, high, addr, val);
    }

    /** Reads the part of the head packet that starts at offset `off`. */
    method ReadPart(buf: array<byte>, length: nat, ghost at: nat, ghost off: nat)
      requires Coherent() && Ready(wire.chip) && length <= buf.Length
      requires Holds(wire.chip, at, taken, 0) && taken < |wire.chip.accepted|
      requires wire.chip.ptr.erdpt == Ring(at + off)
      requires off + length <= Footprint(wire.chip.accepted[taken])
      modifies wire, buf
      ensures old(wire.ops) <= wire.ops
      ensures Coherent() && Ready(wire.chip) && Holds(wire.chip, at, taken, 0)
      ensures old(wire.chip).accepted <= wire.chip.accepted && wire.chip.sent == old(wire.chip).sent
      ensures off + length < 0x1a00 && wire.chip.ptr.erdpt == Ring(at + off + length)
      ensures var f := old(wire.chip).accepted[taken];
              buf[..length] == Packet(f, Ring(at + Footprint(f)))[off..off + length]
      ensures buf[length..] == old(buf[length..])
    {
      ghost var c := wire.chip;
      hide Packet, Ready, Delivered, ReadSoFar, Holds, Walk, Footprint, Bit, B.Logged;
      ReadyAutoinc(c);
      ReadBuf(buf, length);
      AfterReading(c, wire.chip, Ring(at + off), length);
      PartDelivered(c, at, taken, off, buf[..length]);
    }

    /** Number of packets waiting, as EPKTCNT counts them. */
    method Poll() returns (count: int)
      requires Valid()
      modifies this`currentBank, this`busTaken, wire
      ensures old(wire.ops) <= wire.ops
      ensures Valid() && old(wire.chip).accepted <= wire.chip.accepted
      ensures wire.chip.sent == old(wire.chip).sent
      ensures count == |wire.chip.accepted| - taken
    {
      Obtain();
      count := CountPackets();
      Release();
    }

    method CountPackets() returns (count: int)
      requires Sound() && busTaken && wire.At(HELD)
      modifies this`currentBank, wire
      ensures old(wire.ops) <= wire.ops
      ensures Sound() && wire.At(HELD) && old(wire.chip).accepted <= wire.chip.accepted
      ensures wire.chip.sent == old(wire.chip).sent
      ensures count == |wire.chip.accepted| - taken
    {
      hide Drift, History, Packet, B.Logged;
      count := ReadRegister(EPKTCNT);
      DriftReady(old(wire.chip), wire.chip);
      DriftHolds(old(wire.chip), wire.chip, nextPacket, taken, 0);
      PacketCount(wire.chip, nextPacket, taken);
      HistoryGrows(old(wire.chip), wire.chip, taken, lengths, results, nextPacket);
    }

    /**
     Takes the next packet off the ring. Frames may arrive throughout; the frame delivered is
     the oldest one not yet taken, and a call finds none only if none was waiting when it began.
     */
    method Recv(buf: array<byte>, length: nat) returns (r: int)
      requires Valid() && length <= buf.Length
      modifies this, wire, buf
      ensures old(wire.ops) <= wire.ops
      ensures Valid() && old(wire.chip).accepted <= wire.chip.accepted
      ensures wire.chip.sent == old(wire.chip).sent && setups == old(setups)
      ensures taken == old(taken) || (taken == old(taken) + 1 && taken <= |wire.chip.accepted|)
      ensures |old(wire.chip).accepted| > old(taken) ==> taken == old(taken) + 1
      ensures taken == old(taken) ==>
                r == -1 && buf[..] == old(buf[..]) && lengths == old(lengths) && results == old(results)
      ensures taken == old(taken) + 1 ==>
                var f := wire.chip.accepted[old(taken)];
                && lengths == old(lengths) + [length] && 18 <= |f.data|
                && if StatusOk(f) then
                     && 0 <= r <= length && buf[..r] == Payload(f, length) && buf[r..] == old(buf[r..])
                     && results == old(results) + [buf[..r]]
                   else r == -1 && buf[..] == old(buf[..]) && results == old(results)
    {
      hide Drift, History, Packet, Deliveries, Ready, Holds, Footprint, Ring, Payload, B.Logged;
      Obtain();
      var count := CountPackets();
      if count <= 0 {
        Release();
        return -1;
      }
      r := TakePacket(buf, length);
      Release();
    }

    /** The rest of nic_recv: header and data of the head packet are read, and it is freed. */
    method TakePacket(buf: array<byte>, length: nat) returns (r: int)
      requires Sound() && busTaken && wire.At(HELD) && taken < |wire.chip.accepted| && length <= buf.Length
      modifies this`taken, this`nextPacket, this`lengths, this`results, this`currentBank, wire, buf
      ensures old(wire.ops) <= wire.ops
      ensures Sound() && wire.At(HELD) && old(wire.chip).accepted <= wire.chip.accepted
      ensures wire.chip.sent == old(wire.chip).sent && taken == old(taken) + 1 && lengths == old(lengths) + [length]
      ensures var f := old(wire.chip).accepted[old(taken)];
              && 18 <= |f.data|
              && if StatusOk(f) then
                   && 0 <= r <= length && buf[..r] == Payload(f, length) && buf[r..] == old(buf[r..])
                   && results == old(results) + [buf[..r]]
                 else r == -1 && buf[..] == old(buf[..]) && results == old(results)
    {
      hide Drift, History, Packet, Deliveries, Ready, Holds, Footprint, Ring, Payload, B.Logged;
      HistoryFrames(wire.chip, taken, lengths, results, nextPacket);
      var next, size, status := ReadHeader();
      ghost var f := wire.chip.accepted[taken];
      PayloadIsPart(f, Ring(nextPacket + Footprint(f)), if size < length then size else length, length);

      var n := length;
      if Bit(status, 7) {
        if size < n { n := size; }
        ghost var c := wire.chip;
        ReadPart(buf, n, nextPacket, 6);
        HistoryGrows(c, wire.chip, taken, lengths, results, nextPacket);
        r := n;
        ghost var mid := FreePacket(next, length, buf[..n]);
      } else {
        r := -1;
        ghost var mid := FreePacket(next, length, []);
      }
    }

    /** Reads the header of the head packet: next packet pointer, byte count without CRC, status. */
    method ReadHeader() returns (next: nat, size: nat, status: nat)
      requires Sound() && busTaken && wire.At(HELD) && taken < |wire.chip.accepted|
      modifies this`currentBank, wire
      ensures old(wire.ops) <= wire.ops
      ensures Coherent() && Ready(wire.chip) && Holds(wire.chip, nextPacket, taken, 0)
      ensures History(wire.chip, taken, lengths, results)
      ensures old(wire.chip).accepted <= wire.chip.accepted && wire.chip.sent == old(wire.chip).sent
      ensures wire.chip.ptr.erdpt == Ring(nextPacket + 6)
      ensures var f := old(wire.chip).accepted[taken];
              && next == Ring(nextPacket + Footprint(f)) < 0x1a00
              && size == |f.data| - 4 && 6 + size <= Footprint(f) && Bit(status, 7) == StatusOk(f)
    {
      hide Drift, History, Packet, KeepsQueues, Ready, Holds, Footprint, Bit, Swap16, B.Logged;
      ghost var c := wire.chip;
      ghost var f := c.accepted[taken];
      PointerIsNext(c, nextPacket, taken);
      SetPointer(ERDPTL, nextPacket);
      QueuesHold(c, wire.chip, nextPacket, taken, 0);
      var header := new byte[6];
      ReadPart(header, 6, nextPacket, 0);
      HeaderFields(f, Ring(nextPacket + Footprint(f)), header[..6]);
      HistoryGrows(c, wire.chip, taken, lengths, results, nextPacket);
      next := Swap16(BigEndian(header[0], header[1]));
      size := (Swap16(BigEndian(header[2], header[3])) + 0x10000 - 4) % 0x10000;
      status := Swap16(BigEndian(header[4], header[5]));
    }

    /** Points ERXRDPT before the next packet, which is then the head of the queue; `mid` is before the second byte. */
    method AdvancePointer(next: nat) returns (ghost mid: Chip)
      requires Coherent() && Ready(wire.chip) && Holds(wire.chip, nextPacket, taken, 0) && taken < |wire.chip.accepted|
      requires next == Ring(nextPacket + Footprint(wire.chip.accepted[taken])) < 0x1a00
      modifies this`nextPacket, this`currentBank, wire
      ensures old(wire.ops) <= wire.ops
      ensures Coherent() && Ready(wire.chip) && nextPacket == next && Holds(wire.chip, nextPacket, taken + 1, 1)
      ensures wire.chip.ptr.erxrdpt == Pred(nextPacket)
      ensures Holds(mid, old(nextPacket), taken, 0) && mid.ptr.erxrdpt == old(wire.chip).ptr.erxrdpt
      ensures old(wire.chip).accepted <= wire.chip.accepted && wire.chip.sent == old(wire.chip).sent
    {
      hide Drift, WriteReg, Packet, Footprint, Holds, Ready, B.Logged;
      ghost var c, at := wire.chip, nextPacket;
      nextPacket := next;
      ghost var low, high := WriteRegister16(ERXRDPTL, RxrdptFix(nextPacket));
      PacketFreed(c, low, high, at, taken, next);
      mid := high;
    }

    /** PKTDEC for a packet already freed. */
    method AcknowledgePacket()
      requires Coherent() && Ready(wire.chip) && Holds(wire.chip, nextPacket, taken + 1, 1)
      modifies this`currentBank, wire
      ensures old(wire.ops) <= wire.ops
      ensures Coherent() && Ready(wire.chip) && Holds(wire.chip, nextPacket, taken + 1, 0)
      ensures wire.chip.ptr == old(wire.chip).ptr
      ensures old(wire.chip).accepted <= wire.chip.accepted && wire.chip.sent == old(wire.chip).sent
    {
      hide Drift, Packet, Footprint, Holds, Ready, B.Logged;
      ghost var d := wire.chip;
      var _, at := SetBitsOf(ECON2, 0x40);
      DriftReady(d, at);
      DriftHolds(d, at, nextPacket, taken + 1, 1);
      Acknowledge(at, nextPacket, taken + 1);
    }

    /** Frees the head packet and acknowledges it. Until the second byte of ERXRDPT, at `mid`, it is not freed. */
    method FreePacket(next: nat, ghost length: nat, ghost data: seq<byte>) returns (ghost mid: Chip)
      requires Coherent() && Ready(wire.chip) && Holds(wire.chip, nextPacket, taken, 0)
      requires taken < |wire.chip.accepted| && History(wire.chip, taken, lengths, results)
      requires next == Ring(nextPacket + Footprint(wire.chip.accepted[taken])) < 0x1a00
      requires var f := wire.chip.accepted[taken]; StatusOk(f) ==> data == Payload(f, length)
      modifies this`taken, this`nextPacket, this`lengths, this`results, this`currentBank, wire
      ensures old(wire.ops) <= wire.ops
      ensures Sound() && wire.At(HELD) && taken == old(taken) + 1 && nextPacket == next
      ensures Holds(mid, old(nextPacket), old(taken), 0) && mid.ptr.erxrdpt == old(wire.chip).ptr.erxrdpt
      ensures old(wire.chip).accepted <= wire.chip.accepted && wire.chip.sent == old(wire.chip).sent
      ensures lengths == old(lengths) + [length]
      ensures results == old(results) + if StatusOk(old(wire.chip).accepted[taken - 1]) then [data] else []
    {
      hide Drift, Packet, Footprint, Holds, History, Deliveries, Ready, StatusOk, Payload, B.Logged;
      ghost var c := wire.chip;
      mid := AdvancePointer(next);
      AcknowledgePacket();
      HistoryStep(c, wire.chip, taken, lengths, results, length, data, next);
      taken := taken + 1;
      lengths := lengths + [length];
      results := results + if StatusOk(c.accepted[taken - 1]) then [data] else [];
    }

    /** Pulses TXRST before a transmission: an earlier one may have left the transmit logic stalled. */
    method ResetTransmitter()
      requires Coherent() && Ready(wire.chip)
      modifies this`currentBank, wire
      ensures old(wire.ops) <= wire.ops
      ensures Coherent() && Steady(old(wire.chip), wire.chip) && !wire.chip.stalled
    {
      Masks();
      hide Drift, SetField, ClearField, Ready, Steady, B.Logged;
      ghost var c := wire.chip;
      var _, setAt := SetBitsOf(ECON1, 0x80);
      var _, clearAt := ClearBitsOf(ECON1, 0x80);
      TransmitterReset(c, setAt, clearAt);
    }

    /** Clears the flags of an earlier transmission and starts this one. */
    method StartTransmission()
      requires Coherent() && Ready(wire.chip) && RingApart(wire.chip) && !wire.chip.stalled
      modifies this`currentBank, wire
      ensures old(wire.ops) <= wire.ops
      ensures Coherent() && Started(old(wire.chip), wire.chip)
    {
      Masks();
      hide Drift, SetField, ClearField, Ready, Steady, TxPacket, TxFlag, Bit, Bank, B.Logged;
      ghost var c := wire.chip;
      var _, flagsAt := ClearBitsOf(EIR, 0x0a);
      FlagsCleared(c, flagsAt);
      SteadyFacts(c, wire.chip);
      ghost var d := wire.chip;
      var _, startAt := SetBitsOf(ECON1, 0x08);
      TransmissionStarted(d, startAt);
      StartedFacts(c, d, wire.chip);
    }

    /** Polls EIR until the transmitter reports the end of the packet. */
    method AwaitTransmission()
      requires Coherent() && wire.chip.txBusy && !wire.chip.stalled && !TxFlag(wire.chip)
      modifies this`currentBank, wire
      ensures old(wire.ops) <= wire.ops
      ensures Coherent() && Drift(old(wire.chip), wire.chip) && !wire.chip.txBusy
    {
      ghost var c := wire.chip;
      var status := ReadRegister(EIR);
      BusyFlags(c, wire.chip);
      while !(Bit(status, 3) || Bit(status, 1))
        invariant Coherent() && Drift(c, wire.chip) && old(wire.ops) <= wire.ops
        invariant TxFlag(wire.chip) <==> !wire.chip.txBusy
        invariant wire.chip.txBusy ==> !wire.chip.stalled
        invariant status == wire.chip.eir
        decreases wire.chip.txBusy, wire.chip.txPolls
      {
        ghost var d := wire.chip;
        hide Drift;
        status := ReadRegister(EIR);
        DriftTrans(c, d, wire.chip);
        BusyFlags(c, wire.chip);
      }
    }

    /** Puts control byte and packet into the transmit area and points ETXND at the last byte. */
    method LoadPacket(buf: seq<byte>) returns (txend: nat)
      requires Coherent() && Ready(wire.chip) && RingApart(wire.chip)
      modifies this`currentBank, wire
      ensures old(wire.ops) <= wire.ops
      ensures Coherent() && Ready(wire.chip) && RingApart(wire.chip)
      ensures txend == (TX_START + |buf|) % 0x10000
      ensures wire.chip.ptr == old(wire.chip).ptr.(ewrpt := wire.chip.ptr.ewrpt, etxnd := txend % 0x2000)
      ensures old(wire.chip).accepted <= wire.chip.accepted && wire.chip.sent == old(wire.chip).sent
      ensures TX_START + |buf| < MEM_SIZE ==>
                && KeepsQueues(old(wire.chip), wire.chip)
                && wire.chip.mem[TX_START..TX_START + 1 + |buf|] == [0] + buf
    {
      hide Drift, Ready, KeepsQueues, Written, B.Logged;
      ghost var c := wire.chip;
      SetPointer(EWRPTL, TX_START);
      txend := (TX_START + |buf|) % 0x10000;
      ghost var d := wire.chip;
      SetPointer(ETXNDL, txend);
      QueuesTrans(c, d, wire.chip);
      ghost var e := wire.chip;
      WriteBuf([0]);
      WrittenFacts(e, wire.chip, TX_START, [0]);
      QueuesTrans(c, e, wire.chip);
      ghost var f := wire.chip;
      WriteBuf(buf);
      if TX_START + |buf| < MEM_SIZE {
        WrittenFacts(f, wire.chip, TX_START + 1, buf);
        QueuesTrans(c, f, wire.chip);
      }
    }

    /**
     Transmits the packet between ETXST and ETXND and waits for its end: exactly one transmission `t`
     has then been finished, that packet was its, and its status vector stands behind the packet.
     */
    method Transmit() returns (ghost t: Transmission)
      requires Coherent() && Ready(wire.chip) && RingApart(wire.chip)
      modifies this`currentBank, wire
      ensures old(wire.ops) <= wire.ops
      ensures Coherent() && Ready(wire.chip) && RingApart(wire.chip)
      ensures wire.chip.ptr == old(wire.chip).ptr && old(wire.chip).accepted <= wire.chip.accepted
      ensures wire.chip.sent == old(wire.chip).sent + [t] && |t.vector| == 7
      ensures PacketApart(wire.chip.ptr) ==>
                t.packet == TxPacket(old(wire.chip)) && VectorAt(wire.chip, wire.chip.ptr.etxnd + 1, t.vector)
      ensures var end := wire.chip.ptr.etxnd;
              TX_START <= end < MEM_SIZE - 7 ==>
                && KeepsQueues(old(wire.chip), wire.chip)
                && wire.chip.mem[TX_START..end + 1] == old(wire.chip).mem[TX_START..end + 1]
    {
      Masks();
      hide Drift, KeepsQueues, Steady, TxFlag, TxPacket, VectorAt, ClearField, Bit, Bank, Holds, B.Logged;
      ghost var c := wire.chip;
      ResetTransmitter();
      SteadyFacts(c, wire.chip);
      ghost var d := wire.chip;
      StartTransmission();
      ghost var s := wire.chip;
      StartedFacts(c, d, s);
      AwaitTransmission();
      ghost var e := wire.chip;
      var _, endAt := ClearBitsOf(ECON1, 0x08);
      TransmissionEnded(s, e, endAt);
      SameTxPacket(c, s);
      t := wire.chip.sent[|c.sent|];
      SamePrefix(c.mem, s.mem, s.ptr.etxnd + 1);
      if TX_START <= s.ptr.etxnd < MEM_SIZE - 7 { QueuesTrans(c, s, wire.chip); }
    }

    /** Reads the status vector at `at`; the result is its byte count without the CRC. */
    method ReadStatusVector(at: nat) returns (r: int)
      requires Coherent() && Ready(wire.chip) && RingApart(wire.chip) && at < 0x10000
      modifies this`currentBank, wire
      ensures old(wire.ops) <= wire.ops
      ensures Coherent() && Ready(wire.chip)
      ensures wire.chip.ptr == old(wire.chip).ptr.(erdpt := wire.chip.ptr.erdpt)
      ensures old(wire.chip).accepted <= wire.chip.accepted && wire.chip.sent == old(wire.chip).sent
      ensures KeepsQueues(old(wire.chip), wire.chip)
      ensures wire.chip.mem[TX_START..] == old(wire.chip).mem[TX_START..]
      ensures TX_START <= at && at + 2 <= MEM_SIZE ==>
                r == (Word(wire.chip.mem[at], wire.chip.mem[at + 1]) + 0x10000 - 4) % 0x10000
    {
      hide Drift, Ready, KeepsQueues, Delivered, ReadSoFar, Bit, Bank, Walk, Swap16, Word, Holds, B.Logged;
      ghost var c := wire.chip;
      SetPointer(ERDPTL, at);
      ghost var d := wire.chip;
      var tsv := new byte[7];
      ReadyAutoinc(d);
      ReadBuf(tsv, 7);
      AfterReading(d, wire.chip, d.ptr.erdpt, 7);
      ReadingKeepsArea(d, wire.chip, d.ptr.erdpt, 7);
      QueuesTrans(c, d, wire.chip);
      r := (Swap16(BigEndian(tsv[0], tsv[1])) + 0x10000 - 4) % 0x10000;
      if TX_START <= at && at + 2 <= MEM_SIZE {
        TransmitAreaDelivered(d, at, tsv[..7]);
        SwapIsWord(tsv[0], tsv[1]);
        SameByte(d.mem, wire.chip.mem, at);
        SameByte(d.mem, wire.chip.mem, at + 1);
      }
    }

    /**
     Sends a packet: exactly one transmission `t` is finished. Up to 1535 bytes it is that of the bytes
     the caller wrote, and up to 1533 bytes the result is the byte count of its status vector less the
     CRC. Up to 1528 bytes the vector also stays inside memory, and then the receive queue, the
     next-packet shadow and everything delivered or pending are untouched.
     */
    method Send(buf: seq<byte>) returns (r: int, ghost t: Transmission)
      requires Valid() && |buf| < 0x10000
      modifies this`currentBank, this`busTaken, wire
      ensures old(wire.ops) <= wire.ops
      ensures Shadowed() && Ready(wire.chip) && old(wire.chip).accepted <= wire.chip.accepted
      ensures wire.chip.sent == old(wire.chip).sent + [t] && |t.vector| == 7
      ensures TX_START + |buf| < MEM_SIZE ==> t.packet == buf
      ensures TX_START + |buf| + 3 <= MEM_SIZE ==> r == ByteCount(t)
      ensures |buf| <= 1528 ==>
                && Valid() && wire.chip.ptr.erxrdpt == old(wire.chip).ptr.erxrdpt
                && wire.chip.mem[TX_START..TX_START + 1 + |buf|] == [0] + buf
    {
      hide Drift, Packet, History, KeepsQueues, Holds, TxPacket, VectorAt, Bit, Bank, Swap16, Word, B.Logged;
      ghost var c := wire.chip;
      Obtain();
      HoldsApart(c, nextPacket, taken, 0);
      var txend := LoadPacket(buf);
      ghost var d := wire.chip;
      t := Transmit();
      ghost var e := wire.chip;
      r := ReadStatusVector((txend + 1) % 0x10000);
      if TX_START + |buf| < MEM_SIZE { PacketOf(d, buf); }
      if TX_START + |buf| + 3 <= MEM_SIZE { CountRead(e, wire.chip, t, TX_START + |buf| + 1); }
      if |buf| <= 1528 {
        QueuesTrans(c, d, e);
        QueuesTrans(c, e, wire.chip);
        QueuesHold(c, wire.chip, nextPacket, taken, 0);
        HistoryGrows(c, wire.chip, taken, lengths, results, nextPacket);
        SamePrefix(e.mem, wire.chip.mem, TX_START + 1 + |buf|);
      }
      Release();
    }

    /** write_reg before reception is on. */
    method Configure(addr: byte, val: byte)
      requires Coherent() && Quiet(wire.chip) && Named(addr) !in {0x1e, 0x1f}
      modifies this`currentBank, wire
      ensures old(wire.ops) <= wire.ops
      ensures Coherent() && Quiet(wire.chip)
      ensures var i, c, d := Named(addr), old(wire.chip), wire.chip;
              && d.ptr == (if i < 0x0e then WritePointer(c.ptr, i, val) else c.ptr)
              && d.erxwrpt == (if i == 0x08 || i == 0x09 then d.ptr.erxst else c.erxwrpt)
              && d.regs == (if IsPlain(i) then c.regs[i := val] else c.regs)
              && (c.mii == 0 || i !in {0x54, 0x56, 0x57} ==> d.phy == (if i == 0x57 then PhyAfter(c, val) else c.phy))
              && (c.mii == 0 && i != 0x57 ==> d.mii == 0)
    {
      hide Drift, WriteReg, Quiet, WritePointer, Bit, Bank, B.Logged;
      ghost var c := wire.chip;
      ghost var at := WriteRegister(addr, val);
      QuietWrite(c, at, Named(addr), val);
    }

    /** write_reg16 before reception is on, for the four pointers nic_init programs. */
    method ConfigurePointer(addr: byte, val: nat)
      requires Coherent() && Quiet(wire.chip) && addr in {ERXSTL, ERXNDL, ERXRDPTL, ETXSTL} && val < 0x2000
      modifies this`currentBank, wire
      ensures old(wire.ops) <= wire.ops
      ensures Coherent() && Quiet(wire.chip) && wire.chip.regs == old(wire.chip).regs
      ensures wire.chip.ptr == Configured(old(wire.chip).ptr, addr, val)
      ensures wire.chip.erxwrpt == if addr == ERXSTL then val else old(wire.chip).erxwrpt
    {
      hide Quiet, Bit, Bank, WritePointer, Lo, Hi, B.Logged;
      ghost var p := wire.chip.ptr;
      PointerPair(p, addr, val);
      Configure(addr, Lo(val));
      Configure(addr + 1, Hi(val));
    }

    /** Programs the buffer limits: the ring at 0x0000..0x19ff, empty, and the transmit area behind it. */
    method ConfigureBuffers()
      requires Coherent() && Quiet(wire.chip)
      modifies this`currentBank, wire
      ensures old(wire.ops) <= wire.ops
      ensures Coherent() && Quiet(wire.chip) && wire.chip.regs == old(wire.chip).regs
      ensures wire.chip.ptr.erxst == 0 && wire.chip.ptr.erxnd == RX_STOP && wire.chip.ptr.erxrdpt == 0
      ensures wire.chip.erxwrpt == 0 && wire.chip.ptr.etxst == TX_START
    {
      hide Quiet, Bit, Bank, B.Logged;
      ConfigurePointer(ERXSTL, 0);
      ConfigurePointer(ERXNDL, RX_STOP);
      ConfigurePointer(ERXRDPTL, 0);
      ConfigurePointer(ETXSTL, TX_START);
    }

    /** write_reg on a MAC register. */
    method ConfigurePlain(addr: byte, val: byte, ghost i: byte)
      requires Coherent() && Quiet(wire.chip) && Named(addr) == i && IsPlain(i)
      modifies this`currentBank, wire
      ensures old(wire.ops) <= wire.ops
      ensures Coherent() && Quiet(wire.chip) && wire.chip.regs == old(wire.chip).regs[i := val]
      ensures var c, d := old(wire.chip), wire.chip;
              && (c.mii == 0 ==> d.phy == if i == 0x57 then PhyAfter(c, val) else c.phy)
              && (c.mii == 0 && i != 0x57 ==> d.mii == 0)
      ensures wire.chip.ptr == old(wire.chip).ptr && wire.chip.erxwrpt == old(wire.chip).erxwrpt
    {
      hide Quiet, Bit, Bank, WritePointer, B.Logged;
      Configure(addr, val);
    }

    /** The MAC control registers and the back-to-back gap. */
    method ConfigureDuplex()
      requires Coherent() && Quiet(wire.chip)
      modifies this`currentBank, wire
      ensures old(wire.ops) <= wire.ops
      ensures Coherent() && Quiet(wire.chip)
      ensures wire.chip.regs == old(wire.chip).regs[0x40 := 0x0d][0x41 := 0x00][0x42 := 0x33][0x44 := 0x15]
      ensures wire.chip.ptr == old(wire.chip).ptr && wire.chip.erxwrpt == old(wire.chip).erxwrpt
    {
      hide Quiet, Bit, Bank, B.Logged;
      ConfigurePlain(MACON1, 0x01 + 0x08 + 0x04, 0x40);
      ConfigurePlain(MACON2, 0x00, 0x41);
      ConfigurePlain(MACON3, 0x20 + 0x10 + 0x02 + 0x01, 0x42);
      ConfigurePlain(MABBIPG, 0x15, 0x44);
    }

    /** Programs the MAC: full duplex, padding and CRC, gaps and frame length. */
    method ConfigureMac()
      requires Coherent() && Quiet(wire.chip)
      modifies this`currentBank, wire
      ensures old(wire.ops) <= wire.ops
      ensures Coherent() && Quiet(wire.chip) && wire.chip.regs == MacSetup(old(wire.chip).regs)
      ensures wire.chip.ptr == old(wire.chip).ptr && wire.chip.erxwrpt == old(wire.chip).erxwrpt
    {
      hide Quiet, Bit, Bank, B.Logged;
      ConfigureDuplex();
      ConfigurePlain(MAIPGL, Lo(0x0c12), 0x46);
      ConfigurePlain(MAIPGL + 1, Hi(0x0c12), 0x47);
      ConfigurePlain(MAMXFLL, Lo(1518), 0x4a);
      ConfigurePlain(MAMXFLL + 1, Hi(1518), 0x4b);
    }

    /** Programs the station address. */
    method ConfigureAddress()
      requires Coherent() && Quiet(wire.chip)
      modifies this`currentBank, wire
      ensures old(wire.ops) <= wire.ops
      ensures Coherent() && Quiet(wire.chip) && wire.chip.regs == AddressSetup(old(wire.chip).regs)
      ensures wire.chip.ptr == old(wire.chip).ptr && wire.chip.erxwrpt == old(wire.chip).erxwrpt
    {
      hide Quiet, Bit, Bank, B.Logged;
      ConfigurePlain(MAADR1, 0x6c, 0x64);
      ConfigurePlain(MAADR2, 0x78, 0x65);
      ConfigurePlain(MAADR3, 0x75, 0x62);
      ConfigurePlain(MAADR4, 0x73, 0x63);
      ConfigurePlain(MAADR5, 0xe6, 0x60);
      ConfigurePlain(MAADR6, 0x11, 0x61);
    }

    /** enc28j60_write_phy: once an earlier write is no longer under way, this one reaches the PHY. */
    method WritePhy(reg: byte, val: nat)
      requires Coherent() && Quiet(wire.chip) && val < 0x10000
      modifies this`currentBank, wire
      ensures old(wire.ops) <= wire.ops
      ensures Coherent() && Quiet(wire.chip) && wire.chip.regs == PhyWritten(old(wire.chip).regs, reg, val)
      ensures wire.chip.phy == old(wire.chip).phy[reg % 32 := val]
      ensures wire.chip.ptr == old(wire.chip).ptr && wire.chip.erxwrpt == old(wire.chip).erxwrpt
    {
      hide Quiet, Bit, Bank, Drift, ReadReg, PhyAfter, B.Logged;
      ghost var c := wire.chip;
      AwaitPhy();
      QuietDrift(c, wire.chip);
      ConfigurePlain(MIREGADR, reg % 32, 0x54);
      ConfigurePlain(MIWRL, Lo(val), 0x56);
      PhyValue(wire.chip, c.regs, reg, val);
      hide Lo, Hi;
      ConfigurePlain(MIWRL + 1, Hi(val), 0x57);
    }

    /** Polls MISTAT until no PHY write is under way. */
    method AwaitPhy()
      requires Coherent()
      modifies this`currentBank, wire
      ensures old(wire.ops) <= wire.ops
      ensures Coherent() && Drift(old(wire.chip), wire.chip) && wire.chip.mii == 0
    {
      ghost var c := wire.chip;
      hide Drift, Bit, Bank, B.Logged;
      var status := ReadRegister(MISTAT);
      MiiBusy(wire.chip);
      while Bit(status, 0)
        invariant Coherent() && Drift(c, wire.chip) && old(wire.ops) <= wire.ops
        invariant Bit(status, 0) <==> wire.chip.mii > 0
        decreases wire.chip.mii
      {
        ghost var d := wire.chip;
        status := ReadRegister(MISTAT);
        MiiBusy(wire.chip);
        DriftTrans(c, d, wire.chip);
      }
    }

    /** Programs the PHY. */
    method ConfigurePhy()
      requires Coherent() && Quiet(wire.chip)
      modifies this`currentBank, wire
      ensures old(wire.ops) <= wire.ops
      ensures Coherent() && Quiet(wire.chip) && wire.chip.regs == PhySetup(old(wire.chip).regs)
      ensures PhyIsSet(wire.chip.phy)
      ensures wire.chip.ptr == old(wire.chip).ptr && wire.chip.erxwrpt == old(wire.chip).erxwrpt
    {
      hide Quiet, Bit, Bank, PhyWritten, B.Logged;
      WritePhy(0x14, 0x3742);
      WritePhy(0x00, 0x0100);
      WritePhy(0x10, 0);
      WritePhy(0x12, 0x12);
    }

    /** The software reset. */
    method SoftReset()
      requires WF(wire.chip) && wire.session == Deselected && wire.At(HELD)
      modifies wire
      ensures old(wire.ops) <= wire.ops
      ensures Quiet(wire.chip) && wire.chip.regs == map[] && Bank(wire.chip) == 0 && wire.chip.ptr.erxst < 0x2000
      ensures wire.session == Deselected && wire.At(HELD)
    {
      hide Drift, Quiet, Bit, Bank, Reset, B.Logged;
      wire.Select();
      ghost var at := wire.Put(0xff);
      wire.Deselect();
      ResetIsQuiet(at);
    }

    /**
     nic_init, on a chip in any state and with any shadows: reset, then buffer limits, MAC, PHY,
     interrupts and reception. `cleared` is the chip when its interrupt flags have been cleared.
     */
    method Init() returns (ghost cleared: Chip)
      requires WF(wire.chip) && wire.session == Deselected && !busTaken && wire.At(IDLE)
      modifies this, wire
      ensures old(wire.ops) <= wire.ops
      ensures Valid() && taken == 0 && nextPacket == 0
      ensures wire.chip.accepted == [] && wire.chip.sent == [] && lengths == [] && results == []
      ensures Bit(wire.chip.econ1, 2) && Bit(wire.chip.econ2, 3) && wire.chip.regs == Setup()
      ensures PhyIsSet(wire.chip.phy) && setups == old(setups) + 1
      ensures forall k :: k in {0, 1, 3, 4, 5, 6} ==> !Bit(cleared.eir, k)
    {
      hide Drift, Quiet, Ready, Bit, Bank, Reset, Holds, B.Logged;
      Obtain();
      SoftReset();
      currentBank := 0;
      nextPacket := 0;
      taken, lengths, results, setups := 0, [], [], setups + 1;
      QuietWF(wire.chip);
      ConfigureBuffers();
      ConfigureMac();
      ConfigureAddress();
      ConfigurePhy();
      cleared := EnableReception();
      Release();
    }

    method EnableReception() returns (ghost cleared: Chip)
      requires Coherent() && Quiet(wire.chip) && wire.chip.regs == PhySetup(AddressSetup(MacSetup(map[])))
      requires wire.chip.ptr.erxst == 0 && wire.chip.ptr.erxnd == RX_STOP && wire.chip.ptr.erxrdpt == 0
      requires wire.chip.erxwrpt == 0 && wire.chip.ptr.etxst == TX_START
      modifies this`currentBank, wire
      ensures old(wire.ops) <= wire.ops
      ensures Coherent() && Ready(wire.chip) && Holds(wire.chip, 0, 0, 0)
      ensures wire.chip.accepted == [] && wire.chip.sent == []
      ensures Bit(wire.chip.econ1, 2) && Bit(wire.chip.econ2, 3) && wire.chip.regs == Setup()
      ensures wire.chip.phy == old(wire.chip).phy
      ensures forall k :: k in {0, 1, 3, 4, 5, 6} ==> !Bit(cleared.eir, k)
    {
      Masks();
      hide Drift, Quiet, Ready, Bit, Bank, Holds, SetField, ClearField, B.Logged;
      ghost var c := wire.chip;
      var status, at := ClearBitsOf(EIR, 0x7b);
      QuietField(c, at, 0x1c, 0x7b);
      AllFlagsCleared(at);
      c := wire.chip;
      cleared := c;
      status, at := SetBitsOf(EIE, 0xc0);
      QuietField(c, at, 0x1b, 0xc0);
      c := wire.chip;
      status, at := SetBitsOf(ECON2, 0x88);
      QuietEcon2(c, at);
      c := wire.chip;
      status, at := SetBitsOf(ECON1, 0x04);
      ReceptionStarts(c, at);
    }

    /** nic_keep_alive: a receiver that had disabled itself when ECON1 was read, at `at`, is set up afresh. */
    method KeepAlive() returns (r: int, ghost at: Chip)
      requires Valid()
      modifies this, wire
      ensures old(wire.ops) <= wire.ops
      ensures Valid()
      ensures Drift(old(wire.chip), at) && r == (if Bit(at.econ1, 2) then 0 else 1) && setups == old(setups) + r
      ensures Bit(wire.chip.econ1, 2)
      ensures r == 1 ==> taken == 0 && wire.chip.accepted == [] && wire.chip.sent == [] && results == []
                         && wire.chip.regs == Setup() && PhyIsSet(wire.chip.phy)
      ensures r == 0 ==> wire.chip == at && taken == old(taken) && lengths == old(lengths) && results == old(results)
                         && old(wire.chip).accepted <= wire.chip.accepted && wire.chip.sent == old(wire.chip).sent
    {
      hide Drift, Ready, Bit, History, Holds, B.Logged;
      ghost var c := wire.chip;
      Obtain();
      var econ1 := ReadRegister(ECON1);
      Release();
      at := wire.chip;
      Econ1Bits(at, 0);
      if !Bit(econ1, 2) {
        ghost var cleared := Init();
        return 1, at;
      }
      DriftReady(c, wire.chip);
      DriftHolds(c, wire.chip, nextPacket, taken, 0);
      HistoryGrows(c, wire.chip, taken, lengths, results, nextPacket);
      return 0, at;
    }
  }

  lemma Opcodes(a: byte)
    requires a < 32
    ensures Decode(a + 0x40) == Wcr(a) && Decode(a + 0x80) == Bfs(a) && Decode(a + 0xa0) == Bfc(a)
  {
  }

  /** What reaches the PHY once register number and low byte are in place. */
  lemma PhyValue(c: Chip, r: map<byte, byte>, reg: byte, val: nat)
    requires c.regs == r[0x54 := reg % 32][0x56 := Lo(val)] && val < 0x10000
    ensures PhyAfter(c, Hi(val)) == c.phy[reg % 32 := val]
  {
    WordRoundTrip(val);
    hide Lo, Hi, Word;
  }

  lemma MiiBusy(c: Chip)
    ensures WellNamed(MISTAT) && (Bit(ReadReg(c, Named(MISTAT)), 0) <==> c.mii > 0)
  {
  }

  /** Clearing the bits of 0x7b clears every interrupt flag. */
  lemma AllFlagsCleared(at: Chip)
    requires WF(at)
    ensures var d := ClearField(at, 0x1c, 0x7b); forall k :: k in {0, 1, 3, 4, 5, 6} ==> !Bit(d.eir, k)
  {
    ClearBits(at.eir, 0x7b);
    assert Bit(0x7b, 0) && Bit(0x7b, 1);
    assert Bit(0x7b, 3) by { assert Bit(0x7b / 2 / 2, 1); }
    assert Bit(0x7b, 4) by { assert Bit(0x7b / 2 / 2, 2) && Bit(0x7b / 2 / 2 / 2 / 2, 0); }
    assert Bit(0x7b, 5) by { assert Bit(0x7b / 2 / 2, 3) && Bit(0x7b / 2 / 2 / 2 / 2, 1); }
    assert Bit(0x7b, 6) by { assert Bit(0x7b / 2 / 2, 4) && Bit(0x7b / 2 / 2 / 2 / 2, 2); }
    hide AndNotByte;
  }

  lemma ReadyAutoinc(c: Chip)
    requires Ready(c)
    ensures Bit(c.econ2, 7)
  {
  }

  lemma PacketCount(c: Chip, at: nat, n: nat)
    requires WF(c) && Holds(c, at, n, 0)
    ensures WellNamed(EPKTCNT) && ReadReg(c, Named(EPKTCNT)) == |c.accepted| - n
  {
    hide Layout;
  }

  lemma HistoryGrows(c: Chip, d: Chip, taken: nat, lengths: seq<nat>, results: seq<seq<byte>>, at: nat)
    requires History(c, taken, lengths, results) && c.accepted <= d.accepted && Holds(d, at, taken, 0)
    ensures History(d, taken, lengths, results)
  {
    hide Layout;
    assert d.accepted[..taken] == c.accepted[..taken];
  }

  lemma PointerIsNext(c: Chip, at: nat, n: nat)
    requires Holds(c, at, n, 0) && n < |c.accepted|
    ensures at < 0x1a00 && at % 0x2000 == at && Ring(at + 0) == at && 6 <= Footprint(c.accepted[n])
    ensures Footprint(c.accepted[n]) < 0x1a00 && 4 <= |c.accepted[n].data| < 0x1a00
    ensures Ring(at + Footprint(c.accepted[n])) < 0x1a00
  {
    hide Packet, Layout, Footprint;
    HeadBytes(c, at, n, 0);
  }

  lemma HeaderFields(f: Frame, next: nat, header: seq<byte>)
    requires |header| == 6 && header == Packet(f, next)[0..6] && next < 0x1a00 && |f.data| < 0x1a00
    ensures Swap16(BigEndian(header[0], header[1])) == next
    ensures Swap16(BigEndian(header[2], header[3])) == |f.data|
    ensures Bit(Swap16(BigEndian(header[4], header[5])), 7) == StatusOk(f)
  {
    SwapIsWord(header[0], header[1]);
    SwapIsWord(header[2], header[3]);
    SwapIsWord(header[4], header[5]);
    WordRoundTrip(next);
    WordRoundTrip(|f.data|);
    OkBit(f);
    var packet := Packet(f, next);
    assert header[0] == packet[0] && header[1] == packet[1] && header[2] == packet[2];
    assert header[3] == packet[3] && header[4] == packet[4] && header[5] == packet[5];
    hide Swap16, BigEndian, Bit, Lo, Hi, Word, Footprint, StatusOk;
  }

  /** The bit tested in the upper half of the status vector. */
  lemma OkBit(f: Frame)
    ensures Bit(Word(f.statusLo, f.statusHi), 7) == StatusOk(f)
  {
    assert Power2(8) == 0x100 && Power2(12) == 0x1000 && Power2(16) == 0x10000;
    BitAbove(|f.data| % 0x10000, Word(f.statusLo, f.statusHi), 16, 7);
    hide Bit;
  }

  lemma HistoryStep(c: Chip, d: Chip, taken: nat, lengths: seq<nat>, results: seq<seq<byte>>,
                    length: nat, data: seq<byte>, at: nat)
    requires History(c, taken, lengths, results) && taken < |c.accepted| && c.accepted <= d.accepted
    requires Holds(d, at, taken + 1, 0)
    requires StatusOk(c.accepted[taken]) ==> data == Payload(c.accepted[taken], length)
    ensures History(d, taken + 1, lengths + [length],
                    results + if StatusOk(c.accepted[taken]) then [data] else [])
  {
    hide Layout;
    var fs, ls := d.accepted[..taken + 1], lengths + [length];
    assert fs[..taken] == c.accepted[..taken] && ls[..taken] == lengths;
    assert fs[taken] == c.accepted[taken];
  }

  lemma PayloadIsPart(f: Frame, next: nat, n: nat, length: nat)
    requires 4 <= |f.data| && n == if |f.data| - 4 < length then |f.data| - 4 else length
    ensures 6 + n <= Footprint(f) && Packet(f, next)[6..6 + n] == Payload(f, length)
  {
  }

  lemma HistoryFrames(c: Chip, taken: nat, lengths: seq<nat>, results: seq<seq<byte>>, at: nat)
    requires History(c, taken, lengths, results) && taken < |c.accepted|
    ensures 18 <= |c.accepted[taken].data|
  {
  }

  /** TXRTS was just set: the packet is on its way and nothing of the receive side moved. */
  ghost predicate Started(c: Chip, d: Chip) {
    && WF(d) && d.txBusy && !d.stalled && !TxFlag(d) && Bit(d.econ2, 7) && !Bit(d.econ1, 7)
    && d.ptr == c.ptr && c.accepted <= d.accepted && |c.mem| == MEM_SIZE
    && d.mem[TX_START..] == c.mem[TX_START..] && d.sent == c.sent
    && (RX_STOP <= c.ptr.etxnd < MEM_SIZE - 7 ==> KeepsQueues(c, d))
  }

  lemma SteadyFacts(c: Chip, d: Chip)
    requires Steady(c, d) && |c.mem| == MEM_SIZE
    ensures WF(d) && Ready(d) && d.ptr == c.ptr && c.accepted <= d.accepted && d.sent == c.sent
    ensures (!c.stalled ==> !d.stalled) && KeepsQueues(c, d)
    ensures RingApart(c) ==> RingApart(d) && d.mem[TX_START..] == c.mem[TX_START..]
  {
  }

  lemma StartedFacts(c: Chip, d: Chip, e: Chip)
    requires |c.mem| == MEM_SIZE && |d.mem| == MEM_SIZE && c.ptr.etxst == TX_START
    requires d.ptr == c.ptr && c.accepted <= d.accepted && d.mem[TX_START..] == c.mem[TX_START..]
    requires d.sent == c.sent && KeepsQueues(c, d) && Started(d, e)
    ensures Started(c, e)
  {
    hide Holds;
  }

  /** While busy the end-of-transmission flags are down; the end raises one and it stays. */
  lemma BusyFlags(c: Chip, d: Chip)
    requires Drift(c, d) && c.txBusy && !TxFlag(c)
    ensures (TxFlag(d) <==> !d.txBusy) && (d.txBusy && !c.stalled ==> !d.stalled)
    ensures WellNamed(EIR) && ReadReg(d, Named(EIR)) == d.eir
  {
  }

  lemma SamePrefix(m: seq<byte>, m': seq<byte>, end: nat)
    requires |m| == |m'| == MEM_SIZE && m[TX_START..] == m'[TX_START..] && end <= MEM_SIZE
    ensures TX_START <= end ==> m[TX_START..end] == m'[TX_START..end]
  {
    if TX_START <= end {
      assert m[TX_START..end] == m[TX_START..][..end - TX_START];
      assert m'[TX_START..end] == m'[TX_START..][..end - TX_START];
    }
  }

  lemma SameByte(m: seq<byte>, m': seq<byte>, i: nat)
    requires |m| == |m'| == MEM_SIZE && m[TX_START..] == m'[TX_START..] && TX_START <= i < MEM_SIZE
    ensures m[i] == m'[i]
  {
    assert m[i] == m[TX_START..][i - TX_START] && m'[i] == m'[TX_START..][i - TX_START];
  }

  /** The two bytes read behind the packet are the byte count of its status vector. */
  lemma CountRead(c: Chip, d: Chip, t: Transmission, a: nat)
    requires |c.mem| == |d.mem| == MEM_SIZE && |t.vector| == 7 && TX_START <= a && a + 2 <= MEM_SIZE
    requires VectorAt(c, a, t.vector) && d.mem[TX_START..] == c.mem[TX_START..]
    ensures ByteCount(t) == (Word(d.mem[a], d.mem[a + 1]) + 0x10000 - 4) % 0x10000
  {
    SameByte(c.mem, d.mem, a);
    SameByte(c.mem, d.mem, a + 1);
    assert c.mem[a + 0] == t.vector[0] && c.mem[a + 1] == t.vector[1];
  }

  lemma ReadingKeepsArea(c: Chip, d: Chip, p: nat, i: nat)
    requires WF(c) && ReadSoFar(c, d, p, i) && RingApart(c)
    ensures d.mem[TX_START..] == c.mem[TX_START..]
  {
    assert RingApart(ReadingAt(c, d.ptr.erdpt)) && WF(ReadingAt(c, d.ptr.erdpt));
    TransmitAreaIsStable(ReadingAt(c, d.ptr.erdpt), d);
    hide Drift;
  }

  lemma QuietWF(c: Chip)
    requires Quiet(c)
    ensures WF(c)
  {
  }

  /** `p` with one of the pointers nic_init programs set. */
  function Configured(p: Pointers, addr: byte, val: nat): Pointers {
    if addr == ERXSTL then p.(erxst := val)
    else if addr == ERXNDL then p.(erxnd := val)
    else if addr == ETXSTL then p.(etxst := val)
    else p.(erxrdpt := val, rdptLatch := Lo(val))
  }

  lemma PointerPair(p: Pointers, addr: byte, val: nat)
    requires addr in {ERXSTL, ERXNDL, ERXRDPTL, ETXSTL} && val < 0x2000
    ensures WritePointer(WritePointer(p, addr, Lo(val)), addr + 1, Hi(val)) == Configured(p, addr, val)
  {
    assert val % 0x2000 == val;
    hide SetLow, SetHigh, Lo, Hi;
    if addr == ERXSTL {
      SetPair(p.erxst, val);
    } else if addr == ERXNDL {
      SetPair(p.erxnd, val);
    } else if addr == ETXSTL {
      SetPair(p.etxst, val);
    } else {
      ThirteenBits(val);
    }
  }
}
