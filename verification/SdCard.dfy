/**
 A card on the SPI bus as sections 7.2 and 7.3 of the SD Physical Layer Simplified
 Specification describe it: every byte is exchanged, and what the standard leaves to the card
 (delays, busy times, refusals, pre-erased contents) is a choice made anew for each byte.
 */
module SdCard {
  import opened Words

  const SECTOR := 512

  /** SD 1.x, SD 2.0 of standard or high capacity, or a MultiMediaCard. */
  datatype Kind = V1 | V2 | HighCapacity | Mmc

  /** What a card is, and what it remembers between transactions. */
  datatype Regs = Regs(
    kind: Kind,
    voltageOk: bool,
    csd: seq<byte>,
    cid: seq<byte>,
    prompt: bool,      // never refuses a valid command, and keeps within the driver's time limits
    initTime: nat,     // how often initialisation is polled before it is complete
    mem: seq<byte>,
    initPolls: nat,
    ready: bool,       // out of the idle state
    app: bool,         // the last command was CMD55
    blockLen: nat,
    preErase: nat,     // the block count set by ACMD23
    cut: bool)         // a transaction was broken off by deselecting the card

  /** Where a card is inside a transaction. */
  datatype Phase =
    | Idle(busy: nat)
    | Send(out: seq<byte>, next: Phase)
    | Stream(a: nat, out: seq<byte>, good: bool)
    | Halt
    | Await(a: nat, multi: bool, busy: nat)
    | Receive(a: nat, multi: bool, data: seq<byte>)

  /** `driving`: it holds the data line. `clocks`: bytes clocked by, since power-up, while it was not selected. */
  datatype Card = Card(regs: Regs, selected: bool, frame: seq<byte>, phase: Phase, driving: bool, clocks: nat)

  /** What the standard leaves open. */
  datatype Choice = Choice(
    refuse: bool, code: byte, delay: nat, latency: nat, busy: nat,
    fail: bool, token: byte, upper: byte, crc0: byte, crc1: byte, junk: seq<byte>)

  ghost predicate WF(r: Regs) {
    && |r.csd| == 16 && |r.cid| == 16 && 1 <= r.blockLen
    && (r.kind == HighCapacity ==> r.blockLen == SECTOR)
  }

  // ---- Choices -------------------------------------------------------------------

  /** Once cut off in a transaction even a prompt card answers for nothing until it is reset. */
  predicate Prompt(r: Regs) { r.prompt && !r.cut }

  /** A prompt card is slower than this nowhere. */
  const LIMIT: nat := 100

  function Delay(r: Regs, ch: Choice): nat { if Prompt(r) then ch.delay % 9 else ch.delay }
  function Latency(r: Regs, ch: Choice): nat { if Prompt(r) then ch.latency % 100 else ch.latency }
  function Busy(r: Regs, ch: Choice): nat { if Prompt(r) then ch.busy % 100 else ch.busy }
  predicate Refuses(r: Regs, ch: Choice) { !Prompt(r) && ch.refuse }
  predicate Fails(r: Regs, ch: Choice) { !Prompt(r) && ch.fail }

  /** A refusal has one of the error bits 1-6 of R1 set. */
  function Code(ch: Choice): byte { if 2 <= ch.code < 128 then ch.code else 4 }

  /** A data error token. */
  function ErrorToken(ch: Choice): byte { if 1 <= ch.token < 16 then ch.token else 1 }

  function Pad(n: nat): (s: seq<byte>)
    ensures |s| == n
  {
    seq(n, _ => 0xff)
  }

  // ---- Commands --------------------------------------------------------------------

  function Be32(b0: byte, b1: byte, b2: byte, b3: byte): nat {
    b0 * 0x100_0000 + b1 * 0x1_0000 + b2 * 0x100 + b3
  }

  /** The default block length is 512, but SD 1.x and MMC cards take READ_BL_LEN (section 5.3.2). */
  function DefaultLen(r: Regs): nat {
    if r.kind in {V2, HighCapacity} || |r.csd| < 16 then 512 else Power2(r.csd[5] % 16)
  }

  /** Where a data address points: in bytes, or in blocks on a high-capacity card. */
  function Address(r: Regs, arg: nat): nat {
    if r.kind == HighCapacity then arg * 512 else arg
  }

  predicate InRange(r: Regs, a: nat) {
    a + r.blockLen <= |r.mem|
  }

  /** Only CMD0 and CMD8 are sent with their CRC checked. */
  predicate CrcOk(cmd: nat, crc: byte) {
    (cmd == 0 ==> crc == 0x95) && (cmd == 8 ==> crc == 0x87)
  }

  /** Whether a card in this state carries the command out. */
  predicate Accepts(r: Regs, cmd: nat, arg: nat) {
    match cmd
    case 0 => true
    case 1 => true
    case 8 => r.kind in {V2, HighCapacity}
    case 9 => r.ready
    case 10 => r.ready
    case 16 => r.ready && r.kind != HighCapacity && 1 <= arg <= 2048
    case 17 => r.ready && InRange(r, Address(r, arg))
    case 18 => r.ready && InRange(r, Address(r, arg))
    case 23 => r.ready && r.app
    case 24 => r.ready && InRange(r, Address(r, arg))
    case 25 => r.ready && InRange(r, Address(r, arg))
    case 41 => r.app
    case 55 => r.kind != Mmc
    case 58 => true
    case _ => false
  }

  predicate Taken(r: Regs, cmd: nat, arg: nat, crc: byte, ch: Choice) {
    !Refuses(r, ch) && CrcOk(cmd, crc) && Accepts(r, cmd, arg)
  }

  /** One poll of the initialisation; a high-capacity card waits for the host's HCS bit. */
  function Initialise(r: Regs, arg: nat): Regs {
    if r.ready then r
    else if r.initPolls > 0 then r.(initPolls := r.initPolls - 1)
    else r.(ready := r.kind != HighCapacity || arg / 0x4000_0000 % 2 == 1)
  }

  /** How many bytes from `a` on the announced blocks are, up to the end of the card. */
  function EraseSize(r: Regs, a: nat): nat {
    if a >= |r.mem| then 0
    else if r.preErase * r.blockLen <= |r.mem| - a then r.preErase * r.blockLen
    else |r.mem| - a
  }

  /** Blocks announced by ACMD23 may lose their contents as soon as the write begins. */
  function Erased(r: Regs, a: nat, ch: Choice): Regs {
    var n := EraseSize(r, a);
    if |ch.junk| == n && a + n <= |r.mem| then r.(mem := r.mem[..a] + ch.junk + r.mem[a + n..], preErase := 0)
    else r.(preErase := 0)
  }

  /** What a command does to the card. Any command but CMD25 forgets the pre-erase count. */
  function Effect(r: Regs, cmd: nat, arg: nat, crc: byte, ch: Choice): Regs {
    var s := r.(app := false, preErase := 0);
    if !Taken(r, cmd, arg, crc, ch) then s
    else match cmd
      case 0 => s.(ready := false, initPolls := r.initTime, blockLen := DefaultLen(r), cut := false)
      case 1 => Initialise(s, arg)
      case 16 => s.(blockLen := arg)
      case 23 => s.(preErase := arg % 0x80_0000)
      case 25 => Erased(r.(app := false), Address(r, arg), ch)
      case 41 => Initialise(s, arg)
      case 55 => s.(app := true)
      case _ => s
  }

  /** The R1 response: refusals have an error bit, and bit 0 says that the card is idle. */
  function R1(r: Regs, cmd: nat, arg: nat, crc: byte, ch: Choice): byte {
    if Refuses(r, ch) then Code(ch)
    else if !CrcOk(cmd, crc) then 8 + (if r.ready then 0 else 1)
    else if !Accepts(r, cmd, arg) then 4 + (if r.ready then 0 else 1)
    else if Effect(r, cmd, arg, crc, ch).ready then 0 else 1
  }

  /** A data block: start token, contents and CRC, or an error token. */
  function DataBlock(r: Regs, data: seq<byte>, ch: Choice): seq<byte> {
    if Fails(r, ch) then Pad(Latency(r, ch)) + [ErrorToken(ch)]
    else Pad(Latency(r, ch)) + [0xfe] + data + [ch.crc0, ch.crc1]
  }

  function Ocr(r: Regs): (s: seq<byte>)
    ensures |s| == 4
  {
    [(if r.ready then 128 else 0) + (if r.ready && r.kind == HighCapacity then 64 else 0), 0xff, 0x80, 0]
  }

  /** The block of a multiple-block read at `a`; past the end the card reports an error. */
  function StreamFrom(r: Regs, a: nat, ch: Choice): Phase {
    if Fails(r, ch) || !InRange(r, a) then Stream(a, Pad(Latency(r, ch)) + [ErrorToken(ch)], false)
    else Stream(a, DataBlock(r, r.mem[a..a + r.blockLen], ch), true)
  }

  /** What follows the R1 response. */
  function Next(r: Regs, cmd: nat, arg: nat, crc: byte, ch: Choice): Phase {
    var idle := Idle(Busy(r, ch));
    if !Taken(r, cmd, arg, crc, ch) then idle
    else match cmd
      case 8 => Send([0, 0, if r.voltageOk then arg / 256 % 16 else 0, arg % 256], idle)
      case 9 => Send(DataBlock(r, r.csd, ch), idle)
      case 10 => Send(DataBlock(r, r.cid, ch), idle)
      case 17 => Send(DataBlock(r, r.mem[Address(r, arg)..Address(r, arg) + r.blockLen], ch), idle)
      case 18 => StreamFrom(r, Address(r, arg), ch)
      case 24 => Await(Address(r, arg), false, Busy(r, ch))
      case 25 => Await(Address(r, arg), true, Busy(r, ch))
      case 58 => Send(Ocr(r), idle)
      case _ => idle
  }

  // ---- Exchanging a byte ------------------------------------------------------------

  /** A complete command frame. */
  function Execute(c: Card, f: seq<byte>, ch: Choice): Card
    requires |f| == 6
  {
    var cmd, arg, r := f[0] % 64, Be32(f[1], f[2], f[3], f[4]), c.regs;
    c.(frame := [], regs := Effect(r, cmd, arg, f[5], ch),
       phase := Send(Pad(Delay(r, ch)) + [R1(r, cmd, arg, f[5], ch)], Next(r, cmd, arg, f[5], ch)))
  }

  function Collect(c: Card, b: byte, ch: Choice): Card {
    if |c.frame| == 5 then Execute(c, c.frame + [b], ch) else c.(frame := c.frame + [b])
  }

  predicate StartsFrame(c: Card, b: byte) {
    c.frame != [] || b / 64 == 1
  }

  /** What follows the last byte of `out`. */
  function Follow(r: Regs, p: Phase, ch: Choice): Phase {
    match p
    case Send(_, next) => next
    case Stream(a, _, good) => if good then StreamFrom(r, a + r.blockLen, ch) else Halt
    case _ => p
  }

  /** The bytes a card has ready to shift out. */
  function Out(p: Phase): seq<byte> {
    if p.Send? || p.Stream? then p.out else []
  }

  function WithOut(p: Phase, s: seq<byte>): Phase
    requires p.Send? || p.Stream?
  {
    p.(out := s)
  }

  /** One byte of output. */
  function Shift(r: Regs, p: Phase, ch: Choice): Phase
    requires p.Send? || p.Stream?
  {
    if |p.out| <= 1 then Follow(r, p, ch) else WithOut(p, p.out[1..])
  }

  function Shown(p: Phase): byte {
    if Out(p) == [] then 0xff else Out(p)[0]
  }

  /** A complete data block with its CRC: taken and programmed, or refused. */
  function Verdict(c: Card, a: nat, multi: bool, data: seq<byte>, ch: Choice): Card
    requires c.regs.blockLen <= |data|
  {
    var r := c.regs;
    var len := r.blockLen;
    if Fails(r, ch) || !InRange(r, a) then c.(phase := Send([0x0d + 32 * (ch.upper % 8)], Halt))
    else c.(regs := r.(mem := r.mem[..a] + data[..len] + r.mem[a + len..]),
            phase := Send([5 + 32 * (ch.upper % 8)],
                          if multi then Await(a + len, true, Busy(r, ch)) else Idle(Busy(r, ch))))
  }

  /** STOP_TRANSMISSION while blocks stream: a stuff byte, R1 and a busy time. */
  function Stopped(c: Card, f: seq<byte>, ch: Choice): Card
    requires |f| == 6
  {
    if f[0] % 64 != 12 then c.(frame := [])
    else c.(frame := [],
            phase := Send([ch.upper] + Pad(Delay(c.regs, ch)) + [if Refuses(c.regs, ch) then Code(ch) else 0],
                          Idle(Busy(c.regs, ch))))
  }

  function CollectStop(c: Card, b: byte, ch: Choice): Card {
    if |c.frame| == 5 then Stopped(c, c.frame + [b], ch) else c.(frame := c.frame + [b])
  }

  /** One byte in each direction. A card that is not selected neither listens nor drives, from eight clocks on. */
  function Step(c: Card, b: byte, ch: Choice): (Card, byte) {
    if !c.selected then (c.(driving := false, clocks := c.clocks + 1), 0xff)
    else match c.phase
      case Idle(busy) =>
        if busy == 0 && StartsFrame(c, b) then (Collect(c, b, ch), 0xff)
        else (c.(phase := Idle(if busy == 0 then 0 else busy - 1)), if busy == 0 then 0xff else 0)
      case Send(_, _) => (c.(phase := Shift(c.regs, c.phase, ch)), Shown(c.phase))
      case Stream(_, _, _) =>
        var d := c.(phase := Shift(c.regs, c.phase, ch));
        (if StartsFrame(c, b) then CollectStop(d, b, ch) else d, Shown(c.phase))
      case Halt => (if StartsFrame(c, b) then CollectStop(c, b, ch) else c, 0xff)
      case Await(a, multi, busy) =>
        if busy > 0 then (c.(phase := Await(a, multi, busy - 1)), 0)
        else if b == (if multi then 0xfc else 0xfe) then (c.(phase := Receive(a, multi, [])), 0xff)
        else if multi && b == 0xfd then (c.(phase := Idle(Busy(c.regs, ch))), 0xff)
        else (c, 0xff)
      case Receive(a, multi, data) =>
        if |data| + 1 >= c.regs.blockLen + 2 then (Verdict(c, a, multi, data + [b], ch), 0xff)
        else (c.(phase := Receive(a, multi, data + [b])), 0xff)
  }

  /** A power-up takes 74 clocks (section 6.4.1). */
  predicate Awake(c: Card) {
    74 <= 8 * c.clocks
  }

  /** A card deselected in the middle of a transaction remembers it. */
  function CutBy(r: Regs, p: Phase): Regs {
    if p.Idle? then r else r.(cut := true)
  }

  /** Chip select ends the transaction; only programming goes on (section 7.2). */
  function Released(c: Card, ch: Choice): Card {
    var r := CutBy(c.regs, c.phase);
    c.(regs := r, selected := false, frame := [], phase := Idle(Busy(r, ch)))
  }

  // ---- What no exchange can do ---------------------------------------------------------

  /** What a card is does not change. */
  ghost predicate SameCard(r: Regs, s: Regs) {
    && s.kind == r.kind && s.voltageOk == r.voltageOk && s.csd == r.csd && s.cid == r.cid
    && s.prompt == r.prompt && s.initTime == r.initTime && |s.mem| == |r.mem|
  }

  lemma DefaultLenPositive(r: Regs)
    ensures 1 <= DefaultLen(r)
  {
    if !(r.kind in {V2, HighCapacity} || |r.csd| < 16) { PowerPositive(r.csd[5] % 16); }
  }

  lemma {:induction false} PowerPositive(n: nat)
    ensures 1 <= Power2(n)
  {
    if n > 0 { PowerPositive(n - 1); }
  }

  /** No command, taken or refused, changes what the card is, or leaves it ill-formed. */
  lemma EffectKeeps(r: Regs, cmd: nat, arg: nat, crc: byte, ch: Choice)
    requires WF(r)
    ensures WF(Effect(r, cmd, arg, crc, ch)) && SameCard(r, Effect(r, cmd, arg, crc, ch))
    ensures cmd != 25 ==> Effect(r, cmd, arg, crc, ch).mem == r.mem
  {
    hide Taken;
    if !Taken(r, cmd, arg, crc, ch) {
    } else if cmd == 25 {
      ErasedKeeps(r.(app := false), Address(r, arg), ch);
      hide Erased, Address;
    } else {
      TakenKeeps(r, cmd, arg, crc, ch);
    }
  }

  lemma ErasedKeeps(r: Regs, a: nat, ch: Choice)
    requires WF(r)
    ensures WF(Erased(r, a, ch)) && SameCard(r, Erased(r, a, ch))
  {
    hide EraseSize;
  }

  lemma TakenKeeps(r: Regs, cmd: nat, arg: nat, crc: byte, ch: Choice)
    requires WF(r) && Taken(r, cmd, arg, crc, ch) && cmd != 25
    ensures WF(Effect(r, cmd, arg, crc, ch)) && SameCard(r, Effect(r, cmd, arg, crc, ch))
    ensures Effect(r, cmd, arg, crc, ch).mem == r.mem
  {
    hide Power2, Refuses, Erased, CrcOk, Address, InRange;
    if cmd == 1 || cmd == 41 {
      InitialiseKeeps(r.(app := false, preErase := 0), arg);
      hide Initialise, Accepts;
    } else if cmd == 0 {
      DefaultLenPositive(r);
      hide DefaultLen, Accepts;
    } else {
      hide DefaultLen;
    }
  }

  lemma InitialiseKeeps(r: Regs, arg: nat)
    requires WF(r)
    ensures WF(Initialise(r, arg)) && SameCard(r, Initialise(r, arg)) && Initialise(r, arg).mem == r.mem
  {
  }
}
