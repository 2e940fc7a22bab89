/** The byte-level half of sd.c: waiting, selecting, sending a command frame, data blocks. */
module SdLink {
  import opened Words
  import opened SdCard
  import opened SdCsd
  import B = SpiBus

  /** The card at the other end of the bus. */
  class Slot {
    var card: Card

    constructor (c: Card)
      ensures card == c
    {
      card := c;
    }

    /** One byte each way; whatever the standard leaves open is chosen now. */
    method Exchange(b: byte) returns (miso: byte, ghost ch: Choice)
      modifies this
      ensures card == Step(old(card), b, ch).0 && miso == Step(old(card), b, ch).1
    {
      var c: Choice := *;
      ch := c;
      var r := Step(card, b, c);
      card, miso := r.0, r.1;
    }

    method Select()
      modifies this
      ensures card == old(card).(selected := true, driving := true)
    {
      card := card.(selected := true, driving := true);
    }

    method Release() returns (ghost ch: Choice)
      modifies this
      ensures card == Released(old(card), ch)
    {
      var c: Choice := *;
      ch := c;
      card := Released(card, c);
    }

    /** How often a loop polls before its deadline: enough for a prompt card. */
    method Patience() returns (polls: nat)
      ensures Prompt(card.regs) ==> polls >= LIMIT
    {
      polls := *;
      if Prompt(card.regs) && polls < LIMIT { polls := LIMIT; }
    }
  }

  /** The card is in a transaction and no command byte is outstanding. */
  ghost predicate Listening(c: Card) {
    c.selected && c.frame == []
  }

  ghost predicate Waiting(p: Phase) {
    p.Idle? || p.Await?
  }

  ghost predicate Sending(p: Phase) {
    p.Send? || p.Stream?
  }

  /** The output queue is `l` idle bytes, the token `t` and then `rest`. */
  ghost predicate Queued(p: Phase, l: nat, t: byte, rest: seq<byte>) {
    Sending(p) && t != 0xff && p.out == Pad(l) + [t] + rest
  }

  lemma PadByte(l: nat, t: byte, rest: seq<byte>, i: nat)
    requires i <= l
    ensures (Pad(l) + [t] + rest)[i] == if i < l then 0xff else t
    ensures (Pad(l) + [t] + rest)[l + 1..] == rest
  {
  }

  lemma Drop(s: seq<byte>, i: nat)
    requires i < |s|
    ensures s[i..][0] == s[i] && s[i..][1..] == s[i + 1..]
  {
  }

  lemma Snoc(f: seq<byte>, i: nat)
    requires i < |f|
    ensures f[..i] + [f[i]] == f[..i + 1]
  {
  }

  /** Reading one byte of a non-empty queue. */
  lemma ReadStep(c: Card, ch: Choice)
    requires Listening(c) && Sending(c.phase) && c.phase.out != []
    ensures Step(c, 0xff, ch) == (c.(phase := Shift(c.regs, c.phase, ch)), c.phase.out[0])
  {
  }

  /** A phase after `n` bytes of its queue have been read. */
  ghost predicate Advanced(r: Regs, p: Phase, q: Phase, n: nat, ch: Choice) {
    Sending(p) && n <= |p.out| && q == if n < |p.out| then WithOut(p, p.out[n..]) else Follow(r, p, ch)
  }

  /** `m1` is `m0` with `data` stored at `off` and nothing else changed. */
  ghost predicate Stored(m0: seq<byte>, m1: seq<byte>, off: nat, data: seq<byte>) {
    off + |data| <= |m0| && m1 == m0[..off] + data + m0[off + |data|..]
  }

  lemma StoredStart(m: seq<byte>, off: nat)
    requires off <= |m|
    ensures Stored(m, m, off, [])
  {
  }

  lemma StoreNext(m0: seq<byte>, m1: seq<byte>, off: nat, data: seq<byte>, x: byte)
    requires Stored(m0, m1, off, data) && off + |data| < |m0|
    ensures |m1| == |m0| && Stored(m0, m1[off + |data| := x], off, data + [x])
  {
  }

  /** Memory with a block programmed at `a`. */
  function Put(m: seq<byte>, a: nat, data: seq<byte>): (s: seq<byte>)
    requires a + |data| <= |m|
    ensures |s| == |m|
  {
    m[..a] + data + m[a + |data|..]
  }

  /** A block has been programmed, and the card is ready for what may follow. */
  ghost predicate Programmed(r: Regs, c: Card, a: nat, multi: bool, data: seq<byte>, b: nat) {
    && a + |data| <= |r.mem| && c.regs == r.(mem := Put(r.mem, a, data))
    && c.phase == (if multi then Await(a + SECTOR, true, b) else Idle(b))
    && (Prompt(r) ==> b < LIMIT)
  }

  lemma AdvancedStream(r: Regs, p: Phase, q: Phase, n: nat, ch: Choice)
    requires Advanced(r, p, q, n, ch) && p.Stream?
    ensures q.Stream? || q.Halt?
  {
  }

  /** The driver's view of the link and the card. */
  class Link {
    const slot: Slot
    var busTaken: bool
    /** The calls made to the SPI library's bus functions, and the commands issued. */
    ghost var log: seq<B.Op>
    ghost var issued: seq<Issue>

    constructor (s: Slot)
      ensures slot == s && !busTaken && log == [] && issued == []
    {
      slot, busTaken, log, issued := s, false, [], [];
    }

    /** Since the logs were `i0` and `l0`, the bus calls are those of the commands issued. */
    ghost predicate Since(i0: seq<Issue>, l0: seq<B.Op>)
      reads this
    {
      Grown(i0, l0, issued, log)
    }

    /** What the card remembers once it is deselected. */
    ghost function Now(): Regs
      reads slot
    {
      CutBy(slot.card.regs, slot.card.phase)
    }

    /** spi_obtain. */
    method Obtain()
      modifies this`busTaken, this`log
      ensures busTaken && log == old(log) + [B.Obtain]
    {
      log := log + [B.Obtain];
      if !busTaken { busTaken := true; }
    }

    /** spi_release, which this driver calls only with the card deselected and off the data line. */
    method Release()
      requires !slot.card.selected && !slot.card.driving
      modifies this`busTaken, this`log
      ensures !busTaken && log == old(log) + [B.Release]
    {
      log := log + [B.Release];
      if busTaken { busTaken := false; }
    }

    /** spi_select, which this driver calls only with the bus. */
    method SelectCard()
      requires busTaken
      modifies this`log, slot
      ensures slot.card == old(slot.card).(selected := true, driving := true) && log == old(log) + [B.Select]
    {
      log := log + [B.Select];
      slot.Select();
    }

    /** spi_deselect. */
    method DeselectCard() returns (ghost ch: Choice)
      modifies this`log, slot
      ensures slot.card == Released(old(slot.card), ch) && log == old(log) + [B.Deselect]
    {
      log := log + [B.Deselect];
      ch := slot.Release();
    }

    /** spi_read of one byte. */
    method ReadByte() returns (b: byte, ghost ch: Choice)
      modifies slot
      ensures slot.card == Step(old(slot.card), 0xff, ch).0 && b == Step(old(slot.card), 0xff, ch).1
    {
      b, ch := slot.Exchange(0xff);
    }

    /** The next byte of what was queued when the card was `c`. */
    method ReadNext(ghost c: Card, ghost i: nat) returns (b: byte, ghost ch: Choice)
      requires Listening(c) && Sending(c.phase) && i < |c.phase.out|
      requires slot.card == c.(phase := WithOut(c.phase, c.phase.out[i..]))
      modifies slot
      ensures b == c.phase.out[i]
      ensures slot.card == c.(phase := if i + 1 < |c.phase.out| then WithOut(c.phase, c.phase.out[i + 1..])
                                       else Follow(c.regs, c.phase, ch))
    {
      hide Step, Shift, Follow;
      ghost var before := slot.card;
      b, ch := ReadByte();
      ReadStep(before, ch);
      Drop(c.phase.out, i);
      ShiftOne(c.regs, c.phase, i, ch);
    }

    /** One byte of the buffer, the next of `out`. */
    method Keep(buf: array<byte>, off: nat, i: nat, b: byte, ghost m: seq<byte>, ghost out: seq<byte>)
      requires off + i < buf.Length && i < |out| && b == out[i] && Stored(m, buf[..], off, out[..i])
      modifies buf
      ensures Stored(m, buf[..], off, out[..i + 1])
    {
      StoreNext(m, buf[..], off, out[..i], b);
      Snoc(out, i);
      hide Stored;
      ghost var before := buf[..];
      buf[off + i] := b;
      assert buf[..] == before[off + i := b];
    }

    /** spi_read of bytes the card has queued. */
    method Read(buf: array<byte>, off: nat, size: nat) returns (ghost ch: Choice)
      requires off + size <= buf.Length && 1 <= size
      requires Listening(slot.card) && Sending(slot.card.phase) && size <= |slot.card.phase.out|
      modifies slot, buf
      ensures Advanced(slot.card.regs, old(slot.card.phase), slot.card.phase, size, ch)
      ensures slot.card == old(slot.card).(phase := slot.card.phase)
      ensures Stored(old(buf[..]), buf[..], off, old(slot.card.phase.out[..size]))
    {
      ghost var c, m := slot.card, buf[..];
      ghost var out := c.phase.out;
      ch := *;
      StoredStart(m, off);
      hide Step, Shift, Follow, Stored;
      for i := 0 to size
        invariant i < |out| ==> slot.card == c.(phase := WithOut(c.phase, out[i..]))
        invariant i == |out| ==> slot.card == c.(phase := Follow(c.regs, c.phase, ch))
        invariant Stored(m, buf[..], off, out[..i])
      {
        var b;
        b, ch := ReadNext(c, i);
        Keep(buf, off, i, b, m, out);
      }
    }

    /** sd_wait_ready. */
    method WaitReady() returns (err: int)
      requires Listening(slot.card) && Waiting(slot.card.phase)
      modifies slot
      ensures Waiting(slot.card.phase)
      ensures exists b :: slot.card == old(slot.card).(phase := old(slot.card.phase).(busy := b))
                          && (err == OK ==> b == 0)
      ensures err == OK || err == TIMEOUT
      ensures Prompt(slot.card.regs) && old(slot.card.phase).busy < LIMIT ==> err == OK
    {
      ghost var c := slot.card;
      ghost var busy: nat := c.phase.busy;
      hide Collect, Verdict, Shift;
      var polls := slot.Patience();
      var b;
      ghost var ch;
      b, ch := ReadByte();
      if busy > 0 { busy := busy - 1; }
      while b != 0xff && polls > 0
        invariant slot.card == c.(phase := c.phase.(busy := busy))
        invariant b == 0xff ==> busy == 0
        invariant Prompt(slot.card.regs) && c.phase.busy < LIMIT && b != 0xff ==> busy < polls
        decreases polls
      {
        b, ch := ReadByte();
        if busy > 0 { busy := busy - 1; }
        polls := polls - 1;
      }
      err := if b == 0xff then OK else TIMEOUT;
    }

    /** sd_deselect: the byte after it is clocked with the card deselected; the bus is given up. */
    method Deselect()
      modifies this`busTaken, this`log, slot
      ensures slot.card.regs == old(Now()) && AtRest(slot.card) && !busTaken
      ensures log == old(log) + [B.Deselect, B.Release]
    {
      ghost var ch := DeselectCard();
      BusyLimit(slot.card.regs, ch);
      var b;
      b, ch := slot.Exchange(0xff);
      Release();
    }

    /** sd_select. */
    method Select() returns (err: int)
      requires AtRest(slot.card)
      modifies this`busTaken, this`log, slot
      ensures slot.card.regs == old(slot.card.regs) && busTaken
      ensures log == old(log) + [B.Obtain, B.Select] + if err == OK then [] else [B.Deselect]
      ensures err == OK || err == TIMEOUT
      ensures err == OK ==> Listening(slot.card) && slot.card.phase == Idle(0)
      ensures err != OK ==> AtRest(slot.card)
      ensures Prompt(slot.card.regs) ==> err == OK
    {
      Obtain();
      SelectCard();
      err := WaitReady();
      if err != OK {
        ghost var ch := DeselectCard();
        BusyLimit(slot.card.regs, ch);
      }
    }

    /** spi_write of the six bytes of a command: on the last one the card carries it out. */
    method SendFrame(f: seq<byte>) returns (ghost ch: Choice)
      requires |f| == 6 && f[0] / 64 == 1
      requires Listening(slot.card) && slot.card.phase == Idle(0)
      modifies slot
      ensures slot.card == Execute(old(slot.card), f, ch)
    {
      ghost var c := slot.card;
      hide Execute;
      ch := *;
      var b;
      for i := 0 to 5
        invariant slot.card == c.(frame := f[..i])
      {
        b, ch := slot.Exchange(f[i]);
        assert f[..i] + [f[i]] == f[..i + 1];
      }
      b, ch := slot.Exchange(f[5]);
      assert f[..5] + [f[5]] == f;
      ExecuteFrame(c, f, ch);
    }

    /** At most ten polls for a byte with its top bit clear. */
    method PollResponse(ghost d: nat, ghost r1: byte, ghost next: Phase) returns (res: byte)
      requires r1 < 128 && Listening(slot.card) && slot.card.phase == Send(Pad(d) + [r1], next)
      modifies slot
      ensures slot.card == old(slot.card).(phase := slot.card.phase)
      ensures if d < 10 then res == r1 && slot.card.phase == next else res == 0xff && slot.card.phase.Send?
    {
      ghost var c := slot.card;
      ghost var out := c.phase.out;
      ghost var ch;
      hide Step, Shift, Follow;
      var n := 0;
      res := 0xff;
      while n < 10
        invariant n <= 10 && n <= d && res == 0xff
        invariant slot.card == c.(phase := WithOut(c.phase, out[n..]))
      {
        res, ch := ReadNext(c, n);
        PadByte(d, r1, [], n);
        if res < 0x80 {
          FollowSend(c.regs, c.phase, ch);
          return;
        }
        n := n + 1;
      }
    }

    /** sd_send_cmd for a plain command. The first one is not sent before the card is awake. */
    method SendCmd(cmd: byte, arg: ulong) returns (res: byte, ghost sent: bool, ghost ch: Choice)
      requires cmd < 64 && cmd != 12 && (cmd == 0 ==> Awake(slot.card))
      modifies this, slot
      ensures if sent then Answered(old(Now()), slot.card, cmd, arg, res, ch) else Unanswered(old(Now()), slot.card, res)
      ensures issued == old(issued) + [Issue(cmd, arg, sent, ch, old(Now()))]
      ensures log == old(log) + B.SdCommand(sent) && Since(old(issued), old(log))
      ensures Traced(old(slot.card.regs), issued[|old(issued)|..], slot.card.regs)
    {
      ch := *;
      ghost var r, l, i, r0 := Now(), log, issued, slot.card.regs;
      Deselect();
      var err := Select();
      CommandLog(l, err == OK);
      if err < 0 {
        issued := issued + [Issue(cmd, arg, false, ch, r)];
        GrownOne(i, l, Issue(cmd, arg, false, ch, r));
        TracedOne(r0, Issue(cmd, arg, false, ch, r), slot.card.regs, issued, |i|);
        return 0xff, false, ch;
      }
      hide Answered;
      res, ch := SendNow(cmd, arg);
      AnsweredEffect(r, slot.card, cmd, arg, res, ch);
      sent := true;
      issued := issued + [Issue(cmd, arg, true, ch, r)];
      GrownOne(i, l, Issue(cmd, arg, true, ch, r));
      TracedOne(r0, Issue(cmd, arg, true, ch, r), slot.card.regs, issued, |i|);
    }

    /** The frame of a command, and its response. */
    method SendNow(cmd: byte, arg: ulong) returns (res: byte, ghost ch: Choice)
      requires cmd < 64 && Listening(slot.card) && slot.card.phase == Idle(0)
      modifies slot
      ensures Answered(old(slot.card.regs), slot.card, cmd, arg, res, ch)
    {
      ghost var c := slot.card;
      FrameFields(cmd, arg);
      ch := SendFrame(Frame(cmd, arg));
      Responding(c, cmd, arg, ch);
      hide Execute, Frame, R1, Next, Effect, Delay;
      res := PollResponse(Delay(c.regs, ch), R1(c.regs, cmd, arg, Crc(cmd), ch), Next(c.regs, cmd, arg, Crc(cmd), ch));
      DelayLimit(c.regs, ch);
    }

    /** sd_send_cmd for an application command: CMD55 first. `r` is the card when `cmd` itself was sent. */
    method SendAppCmd(cmd: byte, arg: ulong) returns (res: byte, ghost r: Regs, ghost sent: bool, ghost ch: Choice)
      requires 0 < cmd < 64 && cmd != 12
      modifies this, slot
      ensures Since(old(issued), old(log))
      ensures AppCommands(issued[|old(issued)|..], cmd, arg) && (sent ==> |issued| == |old(issued)| + 2)
      ensures Traced(old(slot.card.regs), issued[|old(issued)|..], slot.card.regs)
      ensures Prompt(old(Now())) ==> issued[|old(issued)|].sent
      ensures AppAnswered(old(Now()), r, slot.card, cmd, arg, res, sent, ch)
    {
      ghost var r0 := Now();
      ghost var i, l := issued, log;
      ghost var c0 := slot.card.regs;
      res, sent, ch := SendCmd(55, 0);
      r := slot.card.regs;
      AppEffect(r0, ch);
      if res > 1 {
        sent := false;
        return;
      }
      hide R1, Next, Effect, Grown, Traced;
      ghost var i1, l1 := issued, log;
      res, sent, ch := SendCmd(cmd, arg);
      GrownTrans(i, l, i1, l1, issued, log);
      TracedTrans(c0, i, i1, issued, r, slot.card.regs);
    }

    /** The six bytes of CMD12, while blocks go on streaming. */
    method SendStop(f: seq<byte>) returns (ghost ch: Choice)
      requires |f| == 6 && f[0] / 64 == 1 && f[0] % 64 == 12
      requires Listening(slot.card) && slot.card.phase.Stream?
      modifies slot
      ensures slot.card == old(slot.card).(phase := StopAnswer(slot.card.regs, ch))
    {
      ghost var c := slot.card;
      hide Step, StopAnswer;
      ch := *;
      var b;
      for i := 0 to 5
        invariant slot.card == c.(frame := f[..i], phase := slot.card.phase)
        invariant slot.card.phase.Stream? || slot.card.phase.Halt?
      {
        ghost var before := slot.card;
        b, ch := slot.Exchange(f[i]);
        Snoc(f, i);
        StopStep(before, f[i], ch);
      }
      ghost var last := slot.card;
      b, ch := slot.Exchange(f[5]);
      StopLast(last, f, ch);
    }

    /** sd_send_cmd(CMD12): no deselect, and the byte after the command is skipped. */
    method StopTransmission() returns (res: byte)
      requires Listening(slot.card) && slot.card.phase.Stream?
      modifies slot
      ensures slot.card.regs == old(slot.card.regs) && (res != 0xff ==> slot.card.phase.Idle?)
      ensures Prompt(slot.card.regs) ==> res == 0
    {
      ghost var r := slot.card.regs;
      hide Frame, Be32;
      StopFrame();
      ghost var ch := SendStop(Frame(12, 0));
      StopAnswerParts(r, ch);
      hide StopAnswer, Pad, Delay, Code, Refuses;
      var b;
      ghost var other;
      b, other := ReadByte();
      res := PollResponse(Delay(r, ch), StopResponse(r, ch), Idle(Busy(r, ch)));
    }

    /** The loop of sd_read_block: polls while the byte read is 0xff. */
    method PollToken(ghost l: nat, ghost t: byte, ghost rest: seq<byte>) returns (token: byte, ghost ch: Choice)
      requires Listening(slot.card) && Queued(slot.card.phase, l, t, rest)
      modifies slot
      ensures slot.card == old(slot.card).(phase := slot.card.phase)
      ensures token == 0xff || (token == t && Advanced(slot.card.regs, old(slot.card.phase), slot.card.phase, l + 1, ch))
      ensures old(slot.card.phase).Stream? ==> slot.card.phase.Stream? || slot.card.phase.Halt?
      ensures Prompt(slot.card.regs) && l < LIMIT ==> token == t
    {
      ghost var c := slot.card;
      ghost var out := c.phase.out;
      ghost var n := 0;
      var polls := slot.Patience();
      hide Step, Shift, Follow;
      token, ch := ReadNext(c, 0);
      PadByte(l, t, rest, 0);
      while token == 0xff && polls > 0
        invariant n <= l && token == if n < l then 0xff else t
        invariant Advanced(c.regs, c.phase, slot.card.phase, n + 1, ch)
        invariant slot.card == c.(phase := slot.card.phase)
        invariant Prompt(c.regs) && l < LIMIT && n < l ==> l - n <= polls
        decreases polls
      {
        n := n + 1;
        token, ch := ReadNext(c, n);
        PadByte(l, t, rest, n);
        polls := polls - 1;
      }
      if c.phase.Stream? { AdvancedStream(c.regs, c.phase, slot.card.phase, n + 1, ch); }
    }

    /** sd_read_block. On a timeout or a wrong token the buffer is untouched. */
    method ReadBlock(buf: array<byte>, off: nat, size: nat, ghost l: nat, ghost t: byte, ghost rest: seq<byte>)
      returns (err: int, ghost ch: Choice)
      requires off + size <= buf.Length && 1 <= size
      requires Listening(slot.card) && Queued(slot.card.phase, l, t, rest) && (t == 0xfe ==> |rest| == size + 2)
      modifies slot, buf
      ensures slot.card == old(slot.card).(phase := slot.card.phase)
      ensures err == OK || err == TIMEOUT
      ensures err == OK ==> t == 0xfe && slot.card.phase == Follow(slot.card.regs, old(slot.card.phase), ch)
                            && Stored(old(buf[..]), buf[..], off, rest[..size])
      ensures err != OK ==> buf[..] == old(buf[..])
      ensures err != OK && old(slot.card.phase).Stream? ==> slot.card.phase.Stream? || slot.card.phase.Halt?
      ensures Prompt(slot.card.regs) && l < LIMIT && t == 0xfe ==> err == OK
    {
      ghost var p := slot.card.phase;
      var token;
      token, ch := PollToken(l, t, rest);
      if token != 0xfe {
        return TIMEOUT, ch;
      }
      PadByte(l, t, rest, l);
      hide Follow, Stored;
      ch := Read(buf, off, size);
      FollowRest(slot.card.regs, p, rest[size..]);
      var crc := new byte[2];
      ch := Read(crc, 0, 2);
      FollowRest(slot.card.regs, p, rest[size..]);
      err := OK;
    }

    /** The data bytes and the dummy CRC of sd_write_block. */
    method SendData(buf: array<byte>, off: nat, ghost a: nat, ghost multi: bool) returns (ghost ch: Choice)
      requires off + SECTOR <= buf.Length
      requires Listening(slot.card) && slot.card.phase == Receive(a, multi, []) && slot.card.regs.blockLen == SECTOR
      modifies slot
      ensures slot.card == Verdict(old(slot.card), a, multi, buf[off..off + SECTOR] + [0xff, 0xff], ch)
    {
      ghost var c := slot.card;
      ghost var data := buf[off..off + SECTOR];
      hide Verdict;
      var b;
      for i := 0 to SECTOR
        invariant slot.card == c.(phase := Receive(a, multi, data[..i]))
      {
        assert buf[off + i] == data[i];
        b, ch := slot.Exchange(buf[off + i]);
        assert data[..i] + [buf[off + i]] == data[..i + 1];
      }
      assert data[..SECTOR] == data;
      b, ch := slot.Exchange(0xff);
      b, ch := slot.Exchange(0xff);
      assert data + [0xff] + [0xff] == data + [0xff, 0xff];
      VerdictPhase(c, slot.card, a, multi, data, ch);
    }

    /** sd_write_block: a block is programmed exactly when the result is 0. */
    method WriteBlock(buf: array<byte>, off: nat, token: byte, ghost a: nat) returns (err: int, ghost b: nat)
      requires off + SECTOR <= buf.Length && token in {0xfe, 0xfc}
      requires Listening(slot.card) && slot.card.phase.Await?
      requires slot.card.phase == Await(a, token == 0xfc, slot.card.phase.busy)
      requires slot.card.regs.blockLen == SECTOR
      modifies slot
      ensures Listening(slot.card) && err in {OK, TIMEOUT, BAD_RESPONSE}
      ensures err == OK ==> Programmed(old(slot.card.regs), slot.card, a, token == 0xfc, buf[off..off + SECTOR], b)
      ensures err != OK ==> slot.card.regs == old(slot.card.regs) && !slot.card.phase.Idle?
      ensures Prompt(slot.card.regs) && InRange(old(slot.card.regs), a) && old(slot.card.phase).busy < LIMIT ==> err == OK
    {
      b := 0;
      var ready := WaitReady();
      if ready < 0 {
        return TIMEOUT, b;
      }
      ghost var r := slot.card.regs;
      var resp;
      ghost var ch;
      hide Verdict;
      resp, ch := slot.Exchange(token);
      ghost var c := slot.card;
      ch := SendData(buf, off, a, token == 0xfc);
      VerdictCases(c, a, token == 0xfc, buf[off..off + SECTOR], ch);
      b := Busy(r, ch);
      resp, ch := ReadByte();
      if resp % 32 != 0x05 {
        return BAD_RESPONSE, b;
      }
      err := OK;
    }

    /** sd_write_block for STOP_TRAN. */
    method StopTran() returns (err: int)
      requires Listening(slot.card) && slot.card.phase.Await? && slot.card.phase.multi
      modifies slot
      ensures slot.card.regs == old(slot.card.regs) && (err == OK <==> slot.card.phase.Idle?)
      ensures err in {OK, TIMEOUT}
      ensures Prompt(slot.card.regs) && old(slot.card.phase).busy < LIMIT ==> err == OK
    {
      var ready := WaitReady();
      if ready < 0 {
        return TIMEOUT;
      }
      ghost var ch;
      var b;
      b, ch := slot.Exchange(0xfd);
      err := OK;
    }
  }

  // ---- Logs --------------------------------------------------------------------------------

  /** A command: whether the card was ready for it in time, what it then chose, and what it was before. */
  datatype Issue = Issue(cmd: byte, arg: nat, sent: bool, ch: Choice, at: Regs)

  /** The card after a command, if that took it, and before anything else. */
  function Outcome(i: Issue): Regs {
    if i.sent then Effect(i.at, i.cmd, i.arg, Crc(i.cmd), i.ch) else i.at
  }

  /** At most the cut-off flag has changed. */
  ghost predicate Recut(r: Regs, s: Regs) {
    s == r.(cut := s.cut)
  }

  /** The commands `s` lead the card from `r0` to `r`. */
  ghost predicate Traced(r0: Regs, s: seq<Issue>, r: Regs)
    decreases |s|
  {
    if s == [] then Recut(r0, r) else Recut(r0, s[0].at) && Traced(Outcome(s[0]), s[1..], r)
  }

  /** What an application command issues: CMD55, and the command itself if that was sent and taken. */
  ghost predicate AppCommands(s: seq<Issue>, cmd: byte, arg: nat) {
    && 1 <= |s| <= 2 && s[0].cmd == 55 && s[0].arg == 0
    && (|s| == 2 ==> s[0].sent && s[1].cmd == cmd && s[1].arg == arg)
  }

  lemma TracedOne(r0: Regs, x: Issue, r: Regs, s: seq<Issue>, n: nat)
    requires n < |s| && s[n..] == [x] && Recut(r0, x.at) && r == Outcome(x)
    ensures Traced(r0, s[n..], r)
  {
    assert [x][1..] == [];
  }

  lemma {:induction false} TracedConcat(r0: Regs, s: seq<Issue>, r1: Regs, t: seq<Issue>, r2: Regs)
    requires Traced(r0, s, r1) && Traced(r1, t, r2)
    ensures Traced(r0, s + t, r2)
    decreases |s|
  {
    if s == [] {
      assert s + t == t;
    } else {
      assert (s + t)[1..] == s[1..] + t && (s + t)[0] == s[0];
      TracedConcat(Outcome(s[0]), s[1..], r1, t, r2);
    }
  }

  lemma TracedTrans(r0: Regs, i0: seq<Issue>, i1: seq<Issue>, i2: seq<Issue>, r1: Regs, r2: Regs)
    requires i0 <= i1 <= i2 && Traced(r0, i1[|i0|..], r1) && Traced(r1, i2[|i1|..], r2)
    ensures Traced(r0, i2[|i0|..], r2)
  {
    Suffixes(i0, i1, i2);
    TracedConcat(r0, i1[|i0|..], r1, i2[|i1|..], r2);
  }

  function Readies(s: seq<Issue>): (r: seq<bool>)
    ensures |r| == |s|
  {
    if s == [] then [] else [s[0].sent] + Readies(s[1..])
  }

  /** From one state of the logs to a later one, the bus calls are those of the commands issued. */
  ghost predicate Grown(i0: seq<Issue>, l0: seq<B.Op>, i1: seq<Issue>, l1: seq<B.Op>) {
    i0 <= i1 && l1 == l0 + B.SdCommands(Readies(i1[|i0|..]))
  }

  lemma {:induction false} ReadiesConcat(s: seq<Issue>, t: seq<Issue>)
    ensures Readies(s + t) == Readies(s) + Readies(t)
    decreases |s|
  {
    if s == [] {
      assert s + t == t;
    } else {
      assert (s + t)[1..] == s[1..] + t && (s + t)[0] == s[0];
      ReadiesConcat(s[1..], t);
    }
  }

  lemma GrownTrans(i0: seq<Issue>, l0: seq<B.Op>, i1: seq<Issue>, l1: seq<B.Op>, i2: seq<Issue>, l2: seq<B.Op>)
    requires Grown(i0, l0, i1, l1) && Grown(i1, l1, i2, l2)
    ensures Grown(i0, l0, i2, l2)
  {
    var s, t := i1[|i0|..], i2[|i1|..];
    Suffixes(i0, i1, i2);
    ReadiesConcat(s, t);
    B.SdCommandsConcat(Readies(s), Readies(t));
    Assoc(l0, B.SdCommands(Readies(s)), B.SdCommands(Readies(t)));
    hide Readies, B.SdCommands;
  }

  lemma Suffixes(i0: seq<Issue>, i1: seq<Issue>, i2: seq<Issue>)
    requires i0 <= i1 <= i2
    ensures i0 <= i2 && i2[|i0|..] == i1[|i0|..] + i2[|i1|..]
  {
  }

  lemma Assoc(a: seq<B.Op>, b: seq<B.Op>, c: seq<B.Op>)
    ensures a + b + c == a + (b + c)
  {
  }

  lemma GrownSame(i: seq<Issue>, l: seq<B.Op>)
    ensures Grown(i, l, i, l)
  {
  }

  lemma GrownOne(i: seq<Issue>, l: seq<B.Op>, x: Issue)
    ensures Grown(i, l, i + [x], l + B.SdCommand(x.sent))
  {
    assert (i + [x])[|i|..] == [x] && [x][1..] == [] && Readies([x]) == [x.sent];
    B.SdCommandsOne(x.sent);
    hide Readies;
  }

  /** The bus calls of one command. */
  lemma CommandLog(l: seq<B.Op>, ready: bool)
    ensures var given, end := l + [B.Deselect, B.Release], if ready then [] else [B.Deselect];
            && given + ([B.Obtain, B.Select] + end) == l + B.SdCommand(ready)
            && given + [B.Obtain, B.Select] + end == l + B.SdCommand(ready)
  {
  }

  // ---- Commands and their answers ---------------------------------------------------------

  function Crc(cmd: byte): byte {
    if cmd == 0 then 0x95 else if cmd == 8 then 0x87 else 0x01
  }

  function Frame(cmd: byte, arg: ulong): (f: seq<byte>)
    requires cmd < 64
    ensures |f| == 6
  {
    [0x40 + cmd, arg / 0x100_0000 % 256, arg / 0x1_0000 % 256, arg / 0x100 % 256, arg % 256, Crc(cmd)]
  }

  lemma FrameFields(cmd: byte, arg: ulong)
    requires cmd < 64
    ensures var f := Frame(cmd, arg);
            && f[0] / 64 == 1 && f[0] % 64 == cmd && Be32(f[1], f[2], f[3], f[4]) == arg
            && f[5] == Crc(cmd) && f[5] % 2 == 1 // the end bit
  {
    var a, b, c := arg / 0x100, arg / 0x1_0000, arg / 0x100_0000;
    assert a / 256 == b && b / 256 == c && c < 256;
  }

  /** The command was carried out or refused, and the answer was seen unless it took too long. */
  ghost predicate Answered(r: Regs, c: Card, cmd: byte, arg: nat, res: byte, ch: Choice) {
    && Listening(c) && c.regs == Effect(r, cmd, arg, Crc(cmd), ch)
    && ((res == R1(r, cmd, arg, Crc(cmd), ch) && c.phase == Next(r, cmd, arg, Crc(cmd), ch))
        || (res == 0xff && !Prompt(r)))
  }

  lemma AnsweredEffect(r: Regs, c: Card, cmd: byte, arg: nat, res: byte, ch: Choice)
    requires Answered(r, c, cmd, arg, res, ch)
    ensures Listening(c) && c.regs == Outcome(Issue(cmd, arg, true, ch, r))
  {
    hide Effect, R1, Next;
  }

  /** So was the application command, unless CMD55 was refused or one of the two not sent. */
  ghost predicate AppAnswered(r0: Regs, r: Regs, c: Card, cmd: byte, arg: nat, res: byte, sent: bool, ch: Choice) {
    && (res <= 1 ==> sent)
    && (sent ==> r == r0.(app := true, preErase := 0) && Accepts(r0, 55, 0) && Answered(r, c, cmd, arg, res, ch))
    && (!sent ==> c.regs == r && r in {r0, r0.(app := true, preErase := 0), r0.(app := false, preErase := 0)}
                  && (Prompt(r0) ==> c.phase.Idle? && !Accepts(r0, 55, 0) && res == R1(r0, 55, 0, 1, ch)))
  }

  /** The card stayed busy until the deadline, and the command was not sent. */
  ghost predicate Unanswered(r: Regs, c: Card, res: byte) {
    c.regs == r && c.phase.Idle? && res == 0xff && !Prompt(r)
  }

  /** CMD55 does nothing but announce an application command. */
  lemma AppEffect(r: Regs, ch: Choice)
    ensures Effect(r, 55, 0, 1, ch) in {r.(app := true, preErase := 0), r.(app := false, preErase := 0)}
    ensures R1(r, 55, 0, 1, ch) <= 1 ==> Accepts(r, 55, 0) && Effect(r, 55, 0, 1, ch) == r.(app := true, preErase := 0)
    ensures Prompt(r) && Accepts(r, 55, 0) ==> R1(r, 55, 0, 1, ch) <= 1
    ensures Next(r, 55, 0, 1, ch).Idle?
  {
  }

  lemma DelayLimit(r: Regs, ch: Choice)
    ensures Prompt(r) ==> Delay(r, ch) < 9
  {
  }

  lemma Responding(c: Card, cmd: byte, arg: ulong, ch: Choice)
    requires cmd < 64
    ensures var d := Execute(c, Frame(cmd, arg), ch);
            && d == c.(frame := [], regs := d.regs, phase := d.phase)
            && d.regs == Effect(c.regs, cmd, arg, Crc(cmd), ch)
            && d.phase == Send(Pad(Delay(c.regs, ch)) + [R1(c.regs, cmd, arg, Crc(cmd), ch)],
                               Next(c.regs, cmd, arg, Crc(cmd), ch))
            && R1(c.regs, cmd, arg, Crc(cmd), ch) < 128
  {
    FrameFields(cmd, arg);
    hide Frame, Effect, Next, Pad, Delay, Accepts, Be32;
  }

  // ---- Phases during data transfer ------------------------------------------------------------

  lemma StopFrame()
    ensures Frame(12, 0)[0] / 64 == 1 && Frame(12, 0)[0] % 64 == 12
  {
  }

  function StopResponse(r: Regs, ch: Choice): byte {
    if Refuses(r, ch) then Code(ch) else 0
  }

  function StopAnswer(r: Regs, ch: Choice): Phase {
    Send([ch.upper] + Pad(Delay(r, ch)) + [StopResponse(r, ch)], Idle(Busy(r, ch)))
  }

  lemma StopAnswerParts(r: Regs, ch: Choice)
    ensures var p := StopAnswer(r, ch);
            && p.Send? && |p.out| > 1 && p.out[1..] == Pad(Delay(r, ch)) + [StopResponse(r, ch)]
            && p.next == Idle(Busy(r, ch))
    ensures StopResponse(r, ch) < 128 && (Prompt(r) ==> StopResponse(r, ch) == 0 && Delay(r, ch) < 9)
  {
    hide Pad;
  }

  /** A byte of CMD12: what streams meanwhile is lost. */
  lemma StopStep(c: Card, b: byte, ch: Choice)
    requires c.selected && (c.phase.Stream? || c.phase.Halt?)
    requires |c.frame| < 5 && (c.frame == [] ==> b / 64 == 1)
    ensures var d := Step(c, b, ch).0;
            d == c.(frame := c.frame + [b], phase := d.phase) && (d.phase.Stream? || d.phase.Halt?)
  {
  }

  lemma StopLast(c: Card, f: seq<byte>, ch: Choice)
    requires c.selected && (c.phase.Stream? || c.phase.Halt?)
    requires |f| == 6 && f[0] % 64 == 12 && c.frame == f[..5]
    ensures Step(c, f[5], ch).0 == c.(frame := [], phase := StopAnswer(c.regs, ch))
  {
    assert f[..5] + [f[5]] == f;
    hide Pad, Delay, StopResponse, Follow;
  }

  /** What follows a queue does not depend on how much of it is left. */
  lemma FollowRest(r: Regs, p: Phase, s: seq<byte>)
    requires Sending(p)
    ensures forall ch :: Follow(r, WithOut(p, s), ch) == Follow(r, p, ch)
  {
  }

  lemma VerdictPhase(c: Card, d: Card, a: nat, multi: bool, data: seq<byte>, ch: Choice)
    requires |data| == SECTOR && c.regs.blockLen == SECTOR
    requires d == Verdict(c.(phase := Receive(a, multi, data + [0xff])), a, multi, data + [0xff, 0xff], ch)
    ensures d == Verdict(c, a, multi, data + [0xff, 0xff], ch)
  {
  }

  lemma VerdictCases(c: Card, a: nat, multi: bool, data: seq<byte>, ch: Choice)
    requires |data| == SECTOR && c.regs.blockLen == SECTOR
    ensures var d := Verdict(c, a, multi, data + [0xff, 0xff], ch);
            && d == c.(regs := d.regs, phase := d.phase) && d.phase.Send? && |d.phase.out| == 1
            && if Fails(c.regs, ch) || !InRange(c.regs, a)
               then && d.regs == c.regs && d.phase.out[0] % 32 == 0x0d && d.phase.next == Halt
                    && (Prompt(c.regs) ==> !InRange(c.regs, a))
               else && d.regs == c.regs.(mem := Put(c.regs.mem, a, data)) && d.phase.out[0] % 32 == 5
                    && d.phase.next == (if multi then Await(a + SECTOR, true, Busy(c.regs, ch))
                                        else Idle(Busy(c.regs, ch)))
    ensures Prompt(c.regs) ==> Busy(c.regs, ch) < LIMIT
  {
    assert (data + [0xff, 0xff])[..SECTOR] == data;
  }

  /** Deselected, with nothing going on but perhaps programming. */
  ghost predicate AtRest(c: Card) {
    !c.selected && c.frame == [] && c.phase.Idle? && (Prompt(c.regs) ==> c.phase.busy < LIMIT)
  }

  lemma BusyLimit(r: Regs, ch: Choice)
    ensures Prompt(r) ==> Busy(r, ch) < LIMIT
  {
  }

  lemma ExecuteFrame(c: Card, f: seq<byte>, ch: Choice)
    requires |f| == 6
    ensures Execute(c.(frame := f[..5]), f, ch) == Execute(c, f, ch)
  {
  }

  lemma FollowSend(r: Regs, p: Phase, ch: Choice)
    requires p.Send?
    ensures Follow(r, p, ch) == p.next
  {
  }

  lemma ShiftOne(r: Regs, p: Phase, i: nat, ch: Choice)
    requires Sending(p) && i < |p.out|
    ensures Shift(r, WithOut(p, p.out[i..]), ch)
         == if i + 1 < |p.out| then WithOut(p, p.out[i + 1..]) else Follow(r, p, ch)
  {
    Drop(p.out, i);
  }
}
