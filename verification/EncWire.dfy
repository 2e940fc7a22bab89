/**
 The SPI side of the ENC28J60: instructions are clocked in byte by byte between
 chip-select edges, and the hardware may act before every single byte.
 */
module Enc28j60Wire {
  import opened Words
  import opened Enc28j60Chip
  import opened Enc28j60Ring
  import B = SpiBus

  /** Where the chip is inside an SPI instruction (data sheet section 4.2). */
  datatype Session =
    | Deselected
    | Opcode
    | Rcr(reg: byte, dummySent: bool)
    | Wcr(reg: byte)
    | Bfs(reg: byte)
    | Bfc(reg: byte)
    | Rbm
    | Wbm
    | Done

  function Decode(b: byte): Session {
    if b == 0x3a then Rbm
    else if b == 0x7a then Wbm
    else if b / 32 == 0 then Rcr(b % 32, false)
    else if b / 32 == 2 then Wcr(b % 32)
    else if b / 32 == 4 then Bfs(b % 32)
    else if b / 32 == 5 then Bfc(b % 32)
    else Done
  }

  /** With AUTOINC set, a buffer read moves on through the ring, or through memory. */
  function NextRead(p: Pointers, a: nat): nat {
    if a == p.erxnd then p.erxst else (a + 1) % 0x2000
  }

  function AfterRead(c: Chip): Chip {
    if Bit(c.econ2, 7) then c.(ptr := c.ptr.(erdpt := NextRead(c.ptr, c.ptr.erdpt))) else c
  }

  function AfterBufferWrite(c: Chip, b: byte): Chip
    requires WF(c)
  {
    var d := c.(mem := c.mem[c.ptr.ewrpt := b]);
    if Bit(c.econ2, 7) then d.(ptr := c.ptr.(ewrpt := (c.ptr.ewrpt + 1) % 0x2000)) else d
  }

  /** BFS and BFC work on ETH registers only. */
  function SetField(c: Chip, i: byte, m: byte): Chip
    requires WF(c)
  {
    if IsMacMii(i) then c else WriteReg(c, i, OrByte(ReadReg(c, i), m))
  }

  function ClearField(c: Chip, i: byte, m: byte): Chip
    requires WF(c)
  {
    if IsMacMii(i) then c else WriteReg(c, i, AndNotByte(ReadReg(c, i), m))
  }

  /** A byte from the host. */
  function ClockIn(c: Chip, s: Session, b: byte): (Chip, Session)
    requires WF(c)
  {
    match s
    case Opcode => (if b == 0xff then Reset(c) else c, Decode(b))
    case Wcr(a) => (WriteReg(c, Flat(Bank(c), a), b), Done)
    case Bfs(a) => (SetField(c, Flat(Bank(c), a), b), Done)
    case Bfc(a) => (ClearField(c, Flat(Bank(c), a), b), Done)
    case Wbm => (AfterBufferWrite(c, b), Wbm)
    case _ => (c, s)
  }

  /** A byte to the host. MAC and MII registers shift out a dummy byte first. */
  function ClockOut(c: Chip, s: Session): (Chip, Session, byte)
    requires WF(c)
  {
    match s
    case Rcr(a, dummySent) =>
      var i := Flat(Bank(c), a);
      if IsMacMii(i) && !dummySent then (c, Rcr(a, true), 0) else (c, Done, ReadReg(c, i))
    case Rbm => (AfterRead(c), Rbm, c.mem[c.ptr.erdpt])
    case _ => (c, s, 0xff)
  }

  /** A running transmission came nearer to its end, or reached it, and so did a PHY write. */
  predicate Progress(c: Chip, d: Chip) {
    && (c.txBusy && !c.stalled && d.txBusy ==> d.txPolls < c.txPolls)
    && (c.mii > 0 ==> d.mii < c.mii)
  }

  /** Drift without a bank change, in which a running transmission made progress. */
  ghost predicate Passed(c: Chip, d: Chip) {
    WF(d) && Drift(c, d) && Bank(d) == Bank(c) && Progress(c, d)
  }

  lemma PassedAfter(c0: Chip, c: Chip, d: Chip)
    requires WF(c0) && Drift(c0, c) && Passed(c, d)
    ensures WF(d) && Drift(c0, d) && Bank(d) == Bank(c)
    ensures Progress(c0, d)
  {
    DriftTrans(c0, c, d);
    DriftPolls(c0, c);
    DriftPolls(c, d);
    hide Drift;
  }

  const IDLE := B.Client(false, false)
  const HELD := B.Client(true, false)
  const DRIVING := B.Client(true, true)

  class Wire {
    var chip: Chip
    var session: Session
    /** The calls made to the SPI library's bus functions. */
    ghost var ops: seq<B.Op>

    /** The driver has kept to taking the bus, selecting, deselecting and giving it back; it is now at `c`. */
    ghost predicate At(c: B.Client)
      reads this
    {
      B.Logged(ops, c)
    }

    /** spi_obtain, spi_release, spi_select or spi_deselect has been called. */
    ghost method Log(c: B.Client, op: B.Op)
      requires At(c) && B.Strict(c, op)
      modifies this`ops
      ensures At(B.ClientAfter(c, op)) && ops == old(ops) + [op]
    {
      B.LoggedNext(ops, c, op);
      hide B.Logged;
      ops := ops + [op];
    }

    /** Anything the hardware may do before the next byte: any number of frames and other events. */
    method Traffic()
      requires WF(chip)
      modifies this`chip
      ensures Passed(old(chip), chip)
    {
      var events: seq<Event> := *;
      var tsv: seq<byte>, bad: bool, stuck: bool := *, *, *;
      if |tsv| != 7 { tsv := [0, 0, 0, 0, 0, 0, 0]; }
      EventDrifts(chip, Tick(tsv, bad, stuck));
      chip := React(chip, Tick(tsv, bad, stuck));
      EventDrifts(chip, Settle);
      DriftTrans(old(chip), chip, React(chip, Settle));
      chip := React(chip, Settle);
      label Ticked:
      assert Passed(old(chip), chip);
      for i := 0 to |events|
        invariant Passed(old(chip), chip)
      {
        EventDrifts(chip, events[i]);
        DriftTrans(old(chip), chip, React(chip, events[i]));
        chip := React(chip, events[i]);
      }
    }

    /** spi_select. */
    method Select()
      requires session == Deselected && At(HELD)
      modifies this`session, this`ops
      ensures session == Opcode && At(DRIVING) && ops == old(ops) + [B.Select]
    {
      Log(HELD, B.Select);
      session := Opcode;
    }

    /** Selects the chip and sends the opcode byte of any instruction but a reset. */
    method Begin(op: byte)
      requires WF(chip) && session == Deselected && op != 0xff && At(HELD)
      modifies this
      ensures Passed(old(chip), chip) && session == Decode(op) && At(DRIVING) && old(ops) <= ops
    {
      hide B.Logged;
      Select();
      ghost var at := Put(op);
    }

    /** spi_deselect. */
    method Deselect()
      requires At(DRIVING)
      modifies this`session, this`ops
      ensures session == Deselected && At(HELD) && ops == old(ops) + [B.Deselect]
    {
      Log(DRIVING, B.Deselect);
      session := Deselected;
    }

    /** spi_write of one byte; `at` is the chip when the byte has been clocked in. */
    method Put(b: byte) returns (ghost at: Chip)
      requires WF(chip)
      modifies this`chip, this`session
      ensures Passed(old(chip), at) && (chip, session) == ClockIn(at, old(session), b)
    {
      Traffic();
      at := chip;
      var next := ClockIn(chip, session, b);
      chip, session := next.0, next.1;
    }

    /** spi_read of one byte. */
    method Get() returns (b: byte, ghost at: Chip)
      requires WF(chip)
      modifies this`chip, this`session
      ensures Passed(old(chip), at) && (chip, session, b) == ClockOut(at, old(session))
    {
      Traffic();
      at := chip;
      var next := ClockOut(chip, session);
      chip, session, b := next.0, next.1, next.2;
    }
  }
}
