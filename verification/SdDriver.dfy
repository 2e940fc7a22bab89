/** sd.c above the link: identifying a card, and reading and writing sectors of it. */
module SdDriver {
  import opened Words
  import opened SdCard
  import opened SdCsd
  import opened SdLink
  import B = SpiBus

  // ---- Sectors as bytes of the card -----------------------------------------------------

  /** Where a sector starts: byte addresses are shifted left in 32 bits. */
  function FirstByte(t: CardType, sector: ulong): nat {
    if t == SDHC then sector * 512 else sector * 512 % 0x1_0000_0000
  }

  /** How many blocks `do ... while (--count)` transfers. */
  function Blocks(count: ulong): nat {
    if count == 0 then 0x1_0000_0000 else count
  }

  /** The 32-bit loop counter after `k` blocks. */
  predicate Left(count: ulong, left: ulong, k: nat) {
    left == if k == 0 then count else Blocks(count) - k
  }

  lemma LeftStart(count: ulong)
    ensures Left(count, count, 0) && 0 < Blocks(count)
  {
  }

  lemma LeftNext(count: ulong, left: ulong, k: nat)
    requires Left(count, left, k) && k < Blocks(count)
    ensures var l := if left == 0 then 0xffff_ffff else left - 1;
            Left(count, l, k + 1) && (l != 0 <==> k + 1 < Blocks(count))
  {
  }

  /** The first `k` sectors at `a` have been read to the start of the buffer; the rest of it is as it was. */
  ghost predicate Fetched(m: seq<byte>, a: nat, b0: seq<byte>, b1: seq<byte>, k: nat) {
    if k == 0 then b1 == b0
    else a + 512 * k <= |m| && 512 * k <= |b0| && b1 == m[a..a + 512 * k] + b0[512 * k..]
  }

  /**
   The first `k` sectors at `a` hold `data`, and nothing outside the first `w` has changed.
   Those in between may have been erased.
   */
  ghost predicate Landed(m0: seq<byte>, m1: seq<byte>, a: nat, data: seq<byte>, k: nat, w: nat) {
    && k <= w && 512 * k <= |data| && |m1| == |m0| && (k > 0 ==> a + 512 * k <= |m0|)
    && (forall j :: 0 <= j < 512 * k ==> m1[a + j] == data[j])
    && (forall i :: 0 <= i < |m0| && !(a <= i < a + 512 * w) ==> m1[i] == m0[i])
  }

  lemma FetchedNext(m: seq<byte>, a: nat, b0: seq<byte>, b1: seq<byte>, k: nat, b2: seq<byte>)
    requires Fetched(m, a, b0, b1, k) && a + 512 * k + 512 <= |m|
    requires Stored(b1, b2, 512 * k, m[a + 512 * k..a + 512 * k + 512])
    ensures Fetched(m, a, b0, b2, k + 1)
  {
    var mid := m[a + 512 * k..a + 512 * k + 512];
    assert k > 0 ==> b1[..512 * k] == m[a..a + 512 * k];
    assert m[a..a + 512 * k] + mid == m[a..a + 512 * (k + 1)];
    assert b1[512 * k + 512..] == b0[512 * (k + 1)..];
  }

  lemma LandedStart(m: seq<byte>, a: nat, data: seq<byte>, w: nat)
    ensures Landed(m, m, a, data, 0, w)
  {
  }

  lemma LandedErased(r: Regs, a: nat, ch: Choice, data: seq<byte>, w: nat)
    requires r.blockLen == 512 && r.preErase <= w
    ensures Landed(r.mem, Erased(r, a, ch).mem, a, data, 0, w)
    ensures Erased(r, a, ch) == r.(mem := Erased(r, a, ch).mem, preErase := 0)
  {
  }

  lemma LandedNext(m0: seq<byte>, m1: seq<byte>, a: nat, data: seq<byte>, k: nat, w: nat)
    requires Landed(m0, m1, a, data, k, w) && k < w && 512 * k + 512 <= |data| && a + 512 * k + 512 <= |m0|
    ensures Landed(m0, Put(m1, a + 512 * k, data[512 * k..512 * k + 512]), a, data, k + 1, w)
  {
  }

  lemma LandedWider(m0: seq<byte>, m1: seq<byte>, a: nat, data: seq<byte>, k: nat, w: nat, v: nat)
    requires Landed(m0, m1, a, data, k, w) && w <= v
    ensures Landed(m0, m1, a, data, k, v)
  {
  }

  /** Blocks landing on memory that was only erased before. */
  lemma LandedOver(m0: seq<byte>, m1: seq<byte>, m2: seq<byte>, a: nat, data: seq<byte>, k: nat, w: nat)
    requires Landed(m0, m1, a, data, 0, w) && Landed(m1, m2, a, data, k, k) && k <= w
    ensures Landed(m0, m2, a, data, k, w)
  {
  }

  lemma LandedFits(m0: seq<byte>, m1: seq<byte>, a: nat, data: seq<byte>, k: nat, w: nat)
    requires Landed(m0, m1, a, data, k, w)
    ensures k > 0 ==> a + 512 * k <= |m0|
  {
  }

  lemma LandedLength(m0: seq<byte>, m1: seq<byte>, a: nat, data: seq<byte>, k: nat, w: nat)
    requires Landed(m0, m1, a, data, k, w)
    ensures |m1| == |m0|
  {
  }

  /** Only memory and the command flags may differ. */
  ghost predicate Kept(r0: Regs, r: Regs) {
    r == r0.(mem := r.mem, app := r.app, preErase := r.preErase, cut := r.cut) && |r.mem| == |r0.mem|
  }

  /**
   The outcome of a multiple-block write of `n` blocks at `a`, `w` of which may have been erased:
   exactly `k` landed, the card waits for a command only if the transfer has been ended, and with a
   prompt card all land if they fit and the transfer breaks off if only some do.
   */
  ghost predicate Streamed(r: Regs, c: Card, a: nat, data: seq<byte>, n: nat, err: int, k: nat, w: nat) {
    && Kept(r, c.regs) && k <= n && err <= OK && Landed(r.mem, c.regs.mem, a, data, k, w)
    && (err == OK ==> k == n && c.regs.preErase == 0 && c.phase.Idle?)
    && (0 < k < n || err == TIMEOUT ==> !c.phase.Idle?)
    && (Prompt(r) ==> !c.regs.cut && (c.phase.Idle? <==> !(a + 512 <= |r.mem| < a + 512 * n)))
    && (Prompt(r) && a + 512 * n <= |r.mem| ==> err == OK)
  }

  lemma StreamedFrom(r0: Regs, r: Regs, c: Card, a: nat, data: seq<byte>, n: nat, err: int, k: nat, w: nat)
    requires Kept(r0, r) && r.mem == r0.mem && (Prompt(r0) ==> Prompt(r)) && Streamed(r, c, a, data, n, err, k, w)
    ensures Streamed(r0, c, a, data, n, err, k, w)
  {
    hide Landed, Prompt;
  }

  /** A multiple-block write after the card has been deselected. */
  lemma Ended(r0: Regs, c: Card, a: nat, data: seq<byte>, n: nat, err: int, k: nat, w: nat)
    requires Streamed(r0, c, a, data, n, err, k, w) && WF(r0)
    ensures var r := CutBy(c.regs, c.phase);
            && Kept(r0, r) && WF(r) && r.mem == c.regs.mem && r.preErase == c.regs.preErase
            && r.ready == r0.ready && r.blockLen == r0.blockLen && r.kind == r0.kind && |r.mem| == |r0.mem|
            && k <= n && err <= OK && Landed(r0.mem, r.mem, a, data, k, w)
            && (err == OK ==> k == n && r.preErase == 0 && (Prompt(r0) ==> Prompt(r)))
            && (0 < k < n || err == TIMEOUT ==> r.cut)
            && (Prompt(r0) ==> (r.cut <==> a + 512 <= |r.mem| < a + 512 * n))
            && (Prompt(r0) && a + 512 * n <= |r.mem| ==> err == OK)
  {
    hide Landed;
  }

  /**
   The outcome of reading `n` blocks from `a`: exactly `k` have reached the buffer, the card waits
   for a command only if the transfer has been ended, and with a prompt card all arrive if there
   are so many and the transfer breaks off if there are only some.
   */
  ghost predicate Received(r: Regs, c: Card, a: nat, b0: seq<byte>, b1: seq<byte>, n: nat, err: int, k: nat) {
    && c.regs in {r, Quiet(r)} && Fetched(r.mem, a, b0, b1, k)
    && k <= n && (k < n ==> err < OK)
    && (err == OK ==> k == n && c.phase.Idle? && c.regs == Quiet(r))
    && (1 < n && (0 < k < n || err == TIMEOUT) ==> !c.phase.Idle?)
    && (Prompt(r) ==> (c.phase.Idle? <==> !(a + 512 <= |r.mem| < a + 512 * n)))
    && (Prompt(r) && a + 512 * n <= |r.mem| ==> err == OK)
  }

  /** A read after the card has been deselected. */
  lemma ReceivedEnded(r0: Regs, c: Card, a: nat, b0: seq<byte>, b1: seq<byte>, n: nat, err: int, k: nat)
    requires Received(r0, c, a, b0, b1, n, err, k) && WF(r0)
    ensures var r := CutBy(c.regs, c.phase);
            && Kept(r0, r) && WF(r) && r.mem == r0.mem && r.preErase <= r0.preErase
            && r.ready == r0.ready && r.blockLen == r0.blockLen && r.kind == r0.kind
            && k <= n && (k < n ==> err < OK) && Fetched(r.mem, a, b0, b1, k)
            && (err == OK ==> k == n && r.preErase == 0 && r.cut == r0.cut)
            && (1 < n && (0 < k < n || err == TIMEOUT) ==> r.cut)
            && (Prompt(r0) ==> (r.cut <==> a + 512 <= |r.mem| < a + 512 * n))
            && (Prompt(r0) && a + 512 * n <= |r.mem| ==> err == OK)
  {
    hide Fetched;
  }

  lemma AddressOfArgument(r: Regs, t: CardType, sector: ulong)
    requires t == SDHC <==> r.kind == HighCapacity
    ensures Address(r, Argument(t, sector)) == FirstByte(t, sector)
  {
  }

  lemma AnnouncedKept(r0: Regs, r: Regs)
    requires r == r0.(app := r.app, preErase := r.preErase, cut := r.cut)
    ensures Kept(r0, r) && forall arg :: Address(r, arg) == Address(r0, arg)
  {
  }

  /** Waiting for the blocks of a multiple-block write, the next to be stored at `a`. */
  ghost predicate AwaitsAt(c: Card, a: nat) {
    c.phase.Await? && c.phase.a == a && c.phase.multi && (Prompt(c.regs) ==> c.phase.busy < LIMIT)
  }

  /** The argument of a data command. */
  function Argument(t: CardType, sector: ulong): ulong {
    if t == SDHC then sector else sector * 512 % 0x1_0000_0000
  }

  /** A multiple-block transfer that begins on a card of `size` bytes and runs off its end. */
  predicate CutOff(count: ulong, a: nat, size: nat) {
    count != 1 && a + 512 <= size < a + 512 * Blocks(count)
  }

  /** What sd_read issues, from number `n` on, besides the CMD12 of a stream. */
  predicate ReadCommand(i: seq<Issue>, n: nat, cmd: byte, arg: nat) {
    |i| == n + 1 && i[n].cmd == cmd && i[n].arg == arg
  }

  /** What sd_write may issue: CMD24, or the erase count, unless the card is an MMC, and CMD25. */
  ghost predicate WriteCommands(t: CardType, arg: nat, count: ulong, s: seq<Issue>) {
    if count == 1 then |s| == 1 && s[0].cmd == 24 && s[0].arg == arg else MultiCommands(t, arg, count, s)
  }

  ghost predicate MultiCommands(t: CardType, arg: nat, count: ulong, s: seq<Issue>) {
    && |s| >= 1 && s[|s| - 1].cmd == 25 && s[|s| - 1].arg == arg
    && if t in {SD1x, SD20, SDHC} then AppCommands(s[..|s| - 1], 23, count) else |s| == 1
  }

  lemma AppFirst(s: seq<Issue>, cmd: byte, arg: nat)
    requires AppCommands(s, cmd, arg)
    ensures |s| >= 1
  {
  }

  /** Since the log was `i0` and the card `c0`, one command was issued, which led to `mid`. */
  ghost predicate OneCommand(cmd: byte, arg: nat, c0: Regs, i0: seq<Issue>, i1: seq<Issue>, mid: Regs) {
    i0 <= i1 && var s := i1[|i0|..]; |s| == 1 && s[0].cmd == cmd && s[0].arg == arg && Traced(c0, s, mid)
  }

  /** The commands of a write, which led to `mid`; a prompt card hears of the erase count. */
  ghost predicate Commanded(t: CardType, arg: nat, count: ulong, r0: Regs, c0: Regs, i0: seq<Issue>, i1: seq<Issue>,
                            mid: Regs) {
    && i0 <= i1 && WriteCommands(t, arg, count, i1[|i0|..]) && Traced(c0, i1[|i0|..], mid)
    && (Prompt(r0) && count != 1 && t in {SD1x, SD20, SDHC} ==> Heard(i1[|i0|..]))
  }

  /** ACMD23 has been tried: once CMD55 was sent, the erase count does not exceed this write. */
  ghost predicate Announced(r0: Regs, c0: Regs, c: Card, i0: seq<Issue>, i1: seq<Issue>, count: ulong) {
    && i0 <= i1 && AppCommands(i1[|i0|..], 23, count) && Traced(c0, i1[|i0|..], c.regs)
    && (Prompt(r0) ==> i1[|i0|].sent)
    && c.regs.preErase <= (if i1[|i0|].sent then Blocks(count) else c0.preErase)
    && c.regs == r0.(app := c.regs.app, preErase := c.regs.preErase, cut := c.regs.cut) && Stays(r0, c)
  }

  lemma AnnouncedFacts(r0: Regs, c0: Regs, c: Card, i0: seq<Issue>, i1: seq<Issue>, count: ulong)
    requires Announced(r0, c0, c, i0, i1, count)
    ensures i0 <= i1 && |i0| < |i1|
    ensures var n := CutBy(c.regs, c.phase);
            && Kept(r0, n) && n.mem == r0.mem && (Prompt(r0) ==> Prompt(n))
            && (forall arg :: Address(n, arg) == Address(r0, arg))
            && c.regs.ready == r0.ready && c.regs.blockLen == r0.blockLen
    ensures c.regs.preErase <= (if i1[|i0|].sent then Blocks(count) else c0.preErase)
  {
    AppFirst(i1[|i0|..], 23, count);
    AnnouncedKept(r0, CutBy(c.regs, c.phase));
    hide Traced, AppCommands;
  }

  lemma AnnouncedWrite(r0: Regs, c0: Regs, c: Card, i0: seq<Issue>, i1: seq<Issue>, i2: seq<Issue>, arg: nat,
          count: ulong,
                       mid: Regs)
    requires Announced(r0, c0, c, i0, i1, count) && OneCommand(25, arg, c.regs, i1, i2, mid) && count != 1
    ensures Commanded(SD1x, arg, count, r0, c0, i0, i2, mid) && (Heard(i2[|i0|..]) <==> i1[|i0|].sent)
  {
    hide Traced, AppCommands, MultiCommands, Prompt, Stays;
    MultiIssued(i0, i1, i2, arg, count);
    TracedTrans(c0, i0, i1, i2, c.regs, mid);
  }

  /** A single-block write, or one to an MMC. */
  lemma PlainWrite(t: CardType, arg: nat, count: ulong, r0: Regs, c0: Regs, i0: seq<Issue>, i1: seq<Issue>, mid: Regs)
    requires OneCommand(if count == 1 then 24 else 25, arg, c0, i0, i1, mid)
    requires count == 1 || t !in {SD1x, SD20, SDHC}
    ensures Commanded(t, arg, count, r0, c0, i0, i1, mid)
  {
    hide Traced;
  }

  lemma AnnouncedAs(t: CardType, arg: nat, count: ulong, r0: Regs, c0: Regs, i0: seq<Issue>, i1: seq<Issue>, mid: Regs)
    requires Commanded(SD1x, arg, count, r0, c0, i0, i1, mid) && t in {SD1x, SD20, SDHC}
    ensures Commanded(t, arg, count, r0, c0, i0, i1, mid)
  {
    hide Traced, AppCommands, Prompt;
  }

  /** The data has gone to the card `c`, after the commands that led to `mid`. */
  ghost predicate Wrote(r0: Regs, c: Card, mid: Regs, a: nat, data: seq<byte>, count: ulong, err: int, k: nat, w: nat) {
    Landed(mid.mem, c.regs.mem, a, data, k, k) && Streamed(r0, c, a, data, Blocks(count), err, k, w)
  }

  lemma WroteFrom(r0: Regs, r: Regs, c: Card, mid: Regs, a: nat, data: seq<byte>, count: ulong, err: int, k: nat,
          w: nat)
    requires Kept(r0, r) && r.mem == r0.mem && (Prompt(r0) ==> Prompt(r)) && Wrote(r, c, mid, a, data, count, err, k, w)
    ensures Wrote(r0, c, mid, a, data, count, err, k, w)
  {
    hide Landed, Streamed;
    StreamedFrom(r0, r, c, a, data, Blocks(count), err, k, w);
  }

  lemma MultiIssued(i: seq<Issue>, i1: seq<Issue>, i2: seq<Issue>, arg: nat, count: ulong)
    requires i <= i1 <= i2 && AppCommands(i1[|i|..], 23, count)
    requires |i2[|i1|..]| == 1 && i2[|i1|..][0].cmd == 25 && i2[|i1|..][0].arg == arg
    ensures MultiCommands(SD1x, arg, count, i2[|i|..]) && (Heard(i2[|i|..]) <==> i1[|i|].sent)
  {
    Suffixes(i, i1, i2);
    var s := i2[|i|..];
    assert s[..|s| - 1] == i1[|i|..] && s[0] == i1[|i|] && s[|s| - 1] == i2[|i1|..][0];
  }

  /** The CMD55 before a multiple-block write reached the card. */
  predicate Heard(s: seq<Issue>) {
    |s| > 1 && s[0].sent
  }

  /** How many blocks may be erased by a write, with an erase count of `e` left from before. */
  function EraseRange(count: ulong, e: nat, s: seq<Issue>): (w: nat)
    ensures w >= Blocks(count)
  {
    if count == 1 || Heard(s) || e <= Blocks(count) then Blocks(count) else e
  }

  /** The bus calls of a whole driver call. */
  lemma CallLog(i0: seq<Issue>, l0: seq<B.Op>, i1: seq<Issue>, l1: seq<B.Op>)
    requires Grown(i0, l0, i1, l1)
    ensures i0 <= i1 && l1 + [B.Deselect, B.Release] == l0 + B.SdCall(false, Readies(i1[|i0|..]))
  {
    var s := B.SdCommands(Readies(i1[|i0|..]));
    hide B.SdCommands, Readies;
    assert [] + s == s && l0 + s + [B.Deselect, B.Release] == l0 + (s + [B.Deselect, B.Release]);
  }

  lemma OpenLog(i0: seq<Issue>, l0: seq<B.Op>, i1: seq<Issue>, l1: seq<B.Op>)
    requires Grown(i0, l0 + [B.Obtain, B.Deselect], i1, l1)
    ensures i0 <= i1 && l1 + [B.Deselect, B.Release] == l0 + B.SdCall(true, Readies(i1[|i0|..]))
  {
    var s := B.SdCommands(Readies(i1[|i0|..]));
    hide B.SdCommands, Readies;
    assert l0 + [B.Obtain, B.Deselect] + s + [B.Deselect, B.Release]
        == l0 + ([B.Obtain, B.Deselect] + s + [B.Deselect, B.Release]);
  }

  lemma GrownPrefix(i0: seq<Issue>, l0: seq<B.Op>, i1: seq<Issue>, l1: seq<B.Op>)
    requires Grown(i0, l0, i1, l1)
    ensures i0 <= i1
  {
  }

  /** The erase count after CMD55 and perhaps ACMD23. */
  lemma CountAfter(r0: Regs, s: seq<Issue>, r: Regs, count: ulong)
    requires AppCommands(s, 23, count) && Traced(r0, s, r)
    ensures r.preErase <= if s[0].sent then Blocks(count) else r0.preErase
  {
    CountEffect(s[0]);
    hide Outcome;
    if |s| == 2 {
      CountEffect(s[1]);
      assert s[1..][0] == s[1] && s[1..][1..] == [];
      assert Traced(Outcome(s[0]), s[1..], r) && Traced(Outcome(s[1]), s[1..][1..], r);
    } else {
      assert s[1..] == [];
      assert Traced(Outcome(s[0]), s[1..], r);
    }
  }

  lemma CountEffect(x: Issue)
    requires x.cmd in {23, 55}
    ensures Outcome(x).preErase <= if x.sent then (if x.cmd == 23 then x.arg else 0) else x.at.preErase
  {
    assert x.arg % 0x80_0000 <= x.arg;
  }

  // ---- What the answers to single commands say ----------------------------------------------

  lemma BlockQueued(r: Regs, data: seq<byte>, ch: Choice, next: Phase)
    ensures var t, rest := BlockToken(r, ch), BlockRest(r, data, ch);
            Queued(Send(DataBlock(r, data, ch), next), Latency(r, ch), t, rest)
    ensures Prompt(r) ==> Latency(r, ch) < LIMIT && BlockToken(r, ch) == 0xfe
  {
    hide Pad;
    var lead := Pad(Latency(r, ch));
    assert lead + [0xfe] + data + [ch.crc0, ch.crc1] == lead + [0xfe] + (data + [ch.crc0, ch.crc1]);
    assert lead + [ErrorToken(ch)] == lead + [ErrorToken(ch)] + [];
  }

  function BlockToken(r: Regs, ch: Choice): byte {
    if Fails(r, ch) then ErrorToken(ch) else 0xfe
  }

  function BlockRest(r: Regs, data: seq<byte>, ch: Choice): seq<byte> {
    if Fails(r, ch) then [] else data + [ch.crc0, ch.crc1]
  }

  lemma BlockRestParts(r: Regs, data: seq<byte>, ch: Choice)
    ensures BlockToken(r, ch) == 0xfe ==>
              |BlockRest(r, data, ch)| == |data| + 2 && BlockRest(r, data, ch)[..|data|] == data
  {
  }

  function StreamToken(r: Regs, a: nat, ch: Choice): byte {
    if Fails(r, ch) || !InRange(r, a) then ErrorToken(ch) else 0xfe
  }

  function StreamRest(r: Regs, a: nat, ch: Choice): seq<byte> {
    if Fails(r, ch) || !InRange(r, a) then [] else r.mem[a..a + r.blockLen] + [ch.crc0, ch.crc1]
  }

  lemma StreamQueued(r: Regs, a: nat, ch: Choice)
    ensures Queued(StreamFrom(r, a, ch), Latency(r, ch), StreamToken(r, a, ch), StreamRest(r, a, ch))
    ensures StreamToken(r, a, ch) == 0xfe ==>
              InRange(r, a) && |StreamRest(r, a, ch)| == r.blockLen + 2
              && StreamRest(r, a, ch)[..r.blockLen] == r.mem[a..a + r.blockLen]
    ensures Prompt(r) ==> Latency(r, ch) < LIMIT && (InRange(r, a) ==> StreamToken(r, a, ch) == 0xfe)
  {
    hide Pad;
    var lead := Pad(Latency(r, ch));
    if Fails(r, ch) || !InRange(r, a) {
      assert lead + [ErrorToken(ch)] == lead + [ErrorToken(ch)] + [];
    } else {
      var data, crc := r.mem[a..a + r.blockLen], [ch.crc0, ch.crc1];
      assert lead + [0xfe] + data + crc == lead + [0xfe] + (data + crc);
      assert (data + crc)[..r.blockLen] == data;
    }
  }

  /** The block after one that was read to its end. */
  lemma StreamMoves(r: Regs, a: nat, ch: Choice, next: Choice)
    requires StreamToken(r, a, ch) == 0xfe
    ensures Follow(r, StreamFrom(r, a, ch), next) == StreamFrom(r, a + r.blockLen, next)
  {
  }

  lemma StreamReady(r: Regs, a: nat, ch: Choice)
    requires r.blockLen == 512
    ensures Queued(StreamFrom(r, a, ch), Latency(r, ch), StreamToken(r, a, ch), StreamRest(r, a, ch))
    ensures StreamToken(r, a, ch) == 0xfe ==> |StreamRest(r, a, ch)| == 514
    ensures Prompt(r) ==> Latency(r, ch) < LIMIT && (a + 512 <= |r.mem| ==> StreamToken(r, a, ch) == 0xfe)
  {
    StreamQueued(r, a, ch);
  }

  lemma StreamFetched(r: Regs, a: nat, b0: seq<byte>, b1: seq<byte>, b2: seq<byte>, k: nat, was: Choice, ch: Choice)
    requires r.blockLen == 512 && StreamToken(r, a + 512 * k, was) == 0xfe
    requires Fetched(r.mem, a, b0, b1, k) && |StreamRest(r, a + 512 * k, was)| == 514
    requires Stored(b1, b2, 512 * k, StreamRest(r, a + 512 * k, was)[..512])
    ensures Fetched(r.mem, a, b0, b2, k + 1)
    ensures Follow(r, StreamFrom(r, a + 512 * k, was), ch) == StreamFrom(r, a + 512 * (k + 1), ch)
  {
    StreamQueued(r, a + 512 * k, was);
    StreamMoves(r, a + 512 * k, was, ch);
    hide Fetched, Stored, StreamToken, StreamRest, StreamFrom, Follow;
    FetchedNext(r.mem, a, b0, b1, k, b2);
  }

  /** The registers after any command that only reads, or starts a single-block write. */
  function Quiet(r: Regs): Regs {
    r.(app := false, preErase := 0)
  }

  lemma ReadAnswer(r: Regs, c: Card, arg: nat, res: byte, ch: Choice)
    requires Answered(r, c, 17, arg, res, ch) && r.blockLen == 512
    ensures c.regs == Quiet(r)
    ensures res == 0 ==>
              InRange(r, Address(r, arg))
              && c.phase == Send(DataBlock(r, r.mem[Address(r, arg)..Address(r, arg) + 512], ch), Idle(Busy(r, ch)))
    ensures Prompt(r) && r.ready && InRange(r, Address(r, arg)) ==> res == 0
    ensures Prompt(r) && res != 0 ==> c.phase.Idle?
  {
    hide DataBlock, Address;
  }

  lemma StreamAnswer(r: Regs, c: Card, arg: nat, res: byte, ch: Choice)
    requires Answered(r, c, 18, arg, res, ch)
    ensures c.regs == Quiet(r)
    ensures res == 0 ==> InRange(r, Address(r, arg)) && c.phase == StreamFrom(Quiet(r), Address(r, arg), ch)
    ensures Prompt(r) && r.ready && InRange(r, Address(r, arg)) ==> res == 0
    ensures Prompt(r) && res != 0 ==> c.phase.Idle?
  {
    hide Address;
  }

  lemma WriteAnswer(r: Regs, c: Card, arg: nat, res: byte, ch: Choice)
    requires Answered(r, c, 24, arg, res, ch)
    ensures c.regs == Quiet(r)
    ensures res == 0 ==> InRange(r, Address(r, arg)) && c.phase == Await(Address(r, arg), false, Busy(r, ch))
    ensures Prompt(r) && res != 0 ==> c.phase.Idle?
    ensures Prompt(r) && r.ready && InRange(r, Address(r, arg)) ==> res == 0
    ensures Prompt(r) ==> Busy(r, ch) < LIMIT
  {
    hide Address;
  }

  lemma MultiWriteAnswer(r: Regs, c: Card, arg: nat, res: byte, ch: Choice)
    requires Answered(r, c, 25, arg, res, ch)
    ensures c.regs == Quiet(r) || c.regs == Erased(r.(app := false), Address(r, arg), ch)
    ensures res == 0 ==> InRange(r, Address(r, arg)) && c.phase == Await(Address(r, arg), true, Busy(r, ch))
    ensures Prompt(r) && res != 0 ==> c.phase.Idle?
    ensures Prompt(r) && r.ready && InRange(r, Address(r, arg)) ==> res == 0
    ensures Prompt(r) ==> Busy(r, ch) < LIMIT
  {
    hide Address;
  }

  /** CMD24: on success the block is awaited. */
  lemma SingleStarted(r: Regs, c: Card, arg: nat, res: byte, ch: Choice)
    requires Answered(r, c, 24, arg, res, ch) && r.blockLen == 512
    ensures Listening(c) && c.regs == Quiet(r)
    ensures res == 0 ==> c.phase.Await? && c.phase == Await(Address(r, arg), false, c.phase.busy)
                         && (Prompt(r) ==> c.phase.busy < LIMIT)
    ensures Prompt(r) && r.ready && InRange(r, Address(r, arg)) ==> res == 0
    ensures res == 0 ==> InRange(r, Address(r, arg))
    ensures Prompt(r) && res != 0 ==> c.phase.Idle?
  {
    WriteAnswer(r, c, arg, res, ch);
    hide Address, Effect, R1, Next;
  }

  /** CMD25: blocks may have been erased, and on success the first is awaited. */
  lemma WriteStarted(r: Regs, c: Card, arg: nat, res: byte, ch: Choice, data: seq<byte>, w: nat)
    requires Answered(r, c, 25, arg, res, ch) && r.blockLen == 512 && r.preErase <= w
    ensures Listening(c) && Kept(r, c.regs) && c.regs.preErase == 0 && c.regs.cut == r.cut
    ensures Landed(r.mem, c.regs.mem, Address(r, arg), data, 0, w)
    ensures res == 0 ==> AwaitsAt(c, Address(r, arg)) && Address(r, arg) + 512 <= |r.mem|
    ensures Prompt(r) && r.ready && Address(r, arg) + 512 <= |r.mem| ==> res == 0
    ensures Prompt(r) && res != 0 ==> c.phase.Idle?
  {
    MultiWriteAnswer(r, c, arg, res, ch);
    LandedErased(r.(app := false), Address(r, arg), ch, data, w);
    LandedStart(r.mem, Address(r, arg), data, w);
    hide Landed, Erased, Address, Effect, R1, Next;
  }

  lemma AwaitsFacts(c: Card, a: nat)
    requires AwaitsAt(c, a)
    ensures c.phase.Await? && c.phase.multi && (Prompt(c.regs) ==> c.phase.busy < LIMIT)
  {
  }

  lemma EraseCountAnswer(r: Regs, c: Card, count: ulong, res: byte, ch: Choice)
    requires Answered(r, c, 23, count, res, ch)
    ensures c.regs == r.(app := false, preErase := c.regs.preErase) && c.regs.preErase <= count
    ensures Prompt(r) ==> c.phase.Idle?
  {
    assert count % 0x80_0000 <= count;
  }

  lemma CountAnswered(r0: Regs, r: Regs, c: Card, count: ulong, res: byte, sent: bool, ch: Choice)
    requires AppAnswered(r0, r, c, 23, count, res, sent, ch)
    ensures c.regs == r0.(app := c.regs.app, preErase := c.regs.preErase, cut := c.regs.cut) && Stays(r0, c)
  {
    if sent { EraseCountAnswer(r, c, count, res, ch); }
    hide R1, Answered;
  }

  /** The registers after a reset. */
  function Blank(r: Regs): Regs {
    r.(ready := false, initPolls := r.initTime, blockLen := DefaultLen(r), app := false, preErase := 0, cut := false)
  }

  lemma ResetAnswer(r: Regs, c: Card, res: byte, ch: Choice)
    requires Answered(r, c, 0, 0, res, ch)
    ensures c.regs in {Quiet(r), Blank(r)} && (res == 1 ==> c.regs == Blank(r)) && (Prompt(r) ==> res == 1)
  {
  }

  /** Initialisation polls change nothing else. */
  ghost predicate Polled(r0: Regs, r: Regs) {
    && r == r0.(ready := r.ready, initPolls := r.initPolls, app := r.app, preErase := r.preErase, cut := r.cut)
    && r.initPolls <= r0.initPolls
  }

  /** A prompt card has been given its time: nothing was cut off, and nothing is pending. */
  ghost predicate Stays(r0: Regs, c: Card) {
    Prompt(r0) ==> Prompt(c.regs) && c.phase.Idle?
  }

  /** The same card with the same contents. */
  ghost predicate Alike(r0: Regs, r: Regs) {
    WF(r) && SameCard(r0, r) && r.mem == r0.mem
  }

  lemma AlikeTrans(r0: Regs, r1: Regs, r2: Regs)
    requires Alike(r0, r1) && Alike(r1, r2)
    ensures Alike(r0, r2)
  {
  }

  lemma AlikeFacts(r0: Regs, r: Regs)
    requires Alike(r0, r)
    ensures WF(r) && |r.csd| == |r0.csd| == 16 && r.csd == r0.csd && r.kind == r0.kind && r.voltageOk == r0.voltageOk
  {
  }

  lemma AlikeCut(r: Regs, p: Phase)
    requires WF(r)
    ensures Alike(r, CutBy(r, p)) && CutBy(r, p) == r.(cut := CutBy(r, p).cut)
  {
  }

  lemma AlikeAfter(r0: Regs, c: Card)
    requires Alike(r0, c.regs)
    ensures var r := CutBy(c.regs, c.phase);
            && Alike(r0, r) && WF(c.regs) && WF(r) && |r.csd| == |r0.csd| == 16 && r.csd == r0.csd
            && r.kind == r0.kind && r.voltageOk == r0.voltageOk && r.preErase == c.regs.preErase
            && r == c.regs.(cut := r.cut)
  {
  }

  lemma AlikePolled(r0: Regs, r: Regs)
    requires WF(r0) && Polled(r0, r)
    ensures Alike(r0, r) && r.kind == r0.kind && r.blockLen == r0.blockLen
  {
  }

  lemma AlikeQuiet(r0: Regs, r: Regs)
    requires WF(r0) && r in {r0, Quiet(r0), Quiet(r0).(blockLen := 512)}
    ensures Alike(r0, r) && r.ready == r0.ready && r.cut == r0.cut
    ensures r.blockLen == r0.blockLen || r.blockLen == 512
  {
  }

  /** The outcome of one initialisation poll, or of several. */
  ghost predicate Waited(r0: Regs, c: Card, cmd: byte, arg: nat, res: byte, n: nat) {
    && Stays(r0, c) && Polled(r0, c.regs) && (res == 0 ==> c.regs.ready)
    && (c.regs.ready ==> r0.ready || CanStart(r0, arg))
    && (Prompt(r0) && CanInit(r0, cmd, arg) && res > 0 ==> !c.regs.ready && c.regs.initPolls + n < r0.initPolls)
  }

  lemma WaitedAgain(r0: Regs, c: Card, d: Card, cmd: byte, arg: nat, was: byte, res: byte, n: nat)
    requires Waited(r0, c, cmd, arg, was, n) && was > 0 && Waited(CutBy(c.regs, c.phase), d, cmd, arg, res, 0)
    ensures Waited(r0, d, cmd, arg, res, n + 1)
  {
  }

  lemma WaitedPrompt(r0: Regs, c: Card, cmd: byte, arg: nat, res: byte, n: nat)
    requires Waited(r0, c, cmd, arg, res, n)
    ensures Prompt(r0) ==> Prompt(c.regs)
  {
  }

  lemma StaysTrans(r0: Regs, c: Card, d: Card)
    requires Stays(r0, c) && Stays(CutBy(c.regs, c.phase), d)
    ensures Stays(r0, d)
  {
  }

  /** A high-capacity card leaves the idle state only for a host that sets HCS. */
  ghost predicate CanStart(r: Regs, arg: nat) {
    r.kind == HighCapacity ==> arg / 0x4000_0000 % 2 == 1
  }

  /** The card takes the command, and will leave the idle state. */
  ghost predicate CanInit(r: Regs, cmd: byte, arg: nat) {
    (cmd == 41 ==> r.kind != Mmc) && CanStart(r, arg)
  }

  lemma InitAnswer(r: Regs, c: Card, cmd: byte, arg: ulong, res: byte, ch: Choice)
    requires cmd in {1, 41} && Answered(r, c, cmd, arg, res, ch) && (cmd == 41 ==> r.app)
    ensures Stays(r, c)
    ensures Polled(r, c.regs) && (res == 0 ==> c.regs.ready) && (c.regs.ready ==> r.ready || CanStart(r, arg))
    ensures Prompt(r) ==> res <= 1
    ensures Prompt(r) && CanStart(r, arg) && res > 0 ==> !c.regs.ready && c.regs.initPolls < r.initPolls
  {
  }

  lemma InitPolled(r: Regs, c: Card, cmd: byte, arg: ulong, res: byte, ch: Choice)
    requires cmd in {1, 41} && Answered(r, c, cmd, arg, res, ch) && (cmd == 41 ==> r.app)
    ensures Waited(r, c, cmd, arg, res, 0) && (Prompt(r) ==> res <= 1)
  {
    InitAnswer(r, c, cmd, arg, res, ch);
    hide Answered;
  }

  lemma NotPolled(r: Regs, c: Card, arg: ulong, res: byte)
    requires Unanswered(r, c, res)
    ensures Waited(r, c, 1, arg, res, 0)
  {
  }

  lemma AppPolled(r0: Regs, r: Regs, c: Card, arg: ulong, res: byte, sent: bool, ch: Choice)
    requires AppAnswered(r0, r, c, 41, arg, res, sent, ch)
    ensures Waited(r0, c, 41, arg, res, 0) && (Prompt(r0) ==> (res <= 1 <==> r0.kind != Mmc))
  {
    hide R1, Answered;
    if sent {
      InitPolled(r, c, 41, arg, res, ch);
    } else {
      AppRefused(r0, ch);
    }
  }

  lemma AppRefused(r: Regs, ch: Choice)
    ensures !Accepts(r, 55, 0) <==> r.kind == Mmc
    ensures Prompt(r) && r.kind == Mmc ==> R1(r, 55, 0, 1, ch) > 1
  {
  }

  lemma OcrAnswer(r: Regs, c: Card, res: byte, ch: Choice)
    requires Answered(r, c, 58, 0, res, ch)
    ensures c.regs == Quiet(r) && (Prompt(r) && r.ready ==> res == 0)
    ensures res == 0 ==> c.phase.Send? && c.phase.out == Ocr(r) && c.phase.next.Idle?
  {
  }

  /** Bit 30 of the OCR, valid once the card is ready. */
  lemma CcsBit(r: Regs, v: nat)
    requires r.ready && v == Be32(Ocr(r)[0], Ocr(r)[1], Ocr(r)[2], Ocr(r)[3])
    ensures v / 0x4000_0000 % 2 == 1 <==> r.kind == HighCapacity
  {
  }

  lemma LengthAnswer(r: Regs, c: Card, res: byte, ch: Choice)
    requires Answered(r, c, 16, 512, res, ch) && r.ready
    ensures c.regs in {Quiet(r), Quiet(r).(blockLen := 512)}
    ensures res == 0 ==> c.regs == Quiet(r).(blockLen := 512)
    ensures Prompt(r) && r.kind != HighCapacity ==> res == 0
    ensures Prompt(r) ==> c.phase.Idle?
  {
  }

  lemma BlankKeeps(r: Regs)
    requires WF(r)
    ensures WF(Blank(r)) && SameCard(r, Blank(r)) && WF(Quiet(r)) && SameCard(r, Quiet(r))
    ensures r.kind in {V2, HighCapacity} ==> Blank(r).blockLen == 512
  {
    DefaultLenPositive(r);
  }

  /** CMD8: only cards of version 2 answer it, repeating the argument if the voltage suits them. */
  lemma ConditionAnswer(r: Regs, c: Card, res: byte, ch: Choice)
    requires Answered(r, c, 8, 0x1aa, res, ch) && !r.ready
    ensures c.regs == Quiet(r)
    ensures res == 1 ==>
              r.kind in {V2, HighCapacity}
              && c.phase.Send? && c.phase.out == [0, 0, if r.voltageOk then 1 else 0, 0xaa] && c.phase.next.Idle?
    ensures Prompt(r) ==> (res == 1 <==> r.kind in {V2, HighCapacity}) && (res != 1 ==> c.phase.Idle?)
  {
  }

  lemma Echo(ok: bool)
    ensures Be32(0, 0, if ok then 1 else 0, 0xaa) == 0x1aa <==> ok
  {
  }

  lemma RegisterAnswer(r: Regs, c: Card, cmd: byte, res: byte, ch: Choice)
    requires cmd in {9, 10} && Answered(r, c, cmd, 0, res, ch)
    ensures c.regs == Quiet(r)
    ensures res == 0 ==> c.phase == Send(DataBlock(r, if cmd == 9 then r.csd else r.cid, ch), Idle(Busy(r, ch)))
    ensures Prompt(r) && r.ready ==> res == 0
  {
    hide DataBlock;
  }

  /** How section 7.2.1 classifies a card. */
  function Classified(r: Regs): CardType {
    match r.kind
    case V1 => SD1x
    case V2 => if r.voltageOk then SD20 else NoneType
    case HighCapacity => if r.voltageOk then SDHC else NoneType
    case Mmc => MMC
  }

  /** The 32-bit words of a big-endian machine. */
  function BigEndian(b0: byte, b1: byte, b2: byte, b3: byte): ulong {
    Be32(b0, b1, b2, b3)
  }

  function CsdOf(b: seq<byte>): nat
    requires |b| == 16
  {
    Register(BigEndian(b[0], b[1], b[2], b[3]), BigEndian(b[4], b[5], b[6], b[7]),
             BigEndian(b[8], b[9], b[10], b[11]), BigEndian(b[12], b[13], b[14], b[15]))
  }

  // The fields in the sixteen bytes of a register, whose first one holds bits 127 to 120.
  function ReadLen(b: seq<byte>): nat
    requires |b| == 16
  {
    b[5] % 16
  }

  function WriteLen(b: seq<byte>): nat
    requires |b| == 16
  {
    b[12] % 4 * 4 + b[13] / 64
  }

  function Units1(b: seq<byte>): nat
    requires |b| == 16
  {
    b[6] % 4 * 1024 + b[7] as int * 4 + b[8] / 64
  }

  function Multiplier(b: seq<byte>): nat
    requires |b| == 16
  {
    b[9] % 4 * 2 + b[10] / 128
  }

  function Units2(b: seq<byte>): nat
    requires |b| == 16
  {
    b[7] % 64 * 0x1_0000 + b[8] as int * 0x100 + b[9]
  }

  lemma NamedFields(b: seq<byte>)
    requires |b| == 16
    ensures ReadBlLen(CsdOf(b)) == ReadLen(b) && WriteBlLen(CsdOf(b)) == WriteLen(b)
    ensures CSize1(CsdOf(b)) == Units1(b) && CSizeMult(CsdOf(b)) == Multiplier(b) && CSize2(CsdOf(b)) == Units2(b)
  {
    CsdFields(b);
    hide CsdOf, ReadBlLen, WriteBlLen, CSize1, CSizeMult, CSize2;
  }

  /** Read as four big-endian words, the register has its fields where the standard numbers their bits. */
  lemma CsdFields(b: seq<byte>)
    requires |b| == 16
    ensures ReadBlLen(CsdOf(b)) == b[5] % 16 && WriteBlLen(CsdOf(b)) == b[12] % 4 * 4 + b[13] / 64
    ensures CSize1(CsdOf(b)) == b[6] % 4 * 1024 + b[7] as int * 4 + b[8] / 64
    ensures CSizeMult(CsdOf(b)) == b[9] % 4 * 2 + b[10] / 128
    ensures CSize2(CsdOf(b)) == b[7] % 64 * 0x1_0000 + b[8] as int * 0x100 + b[9]
  {
    var w0, w1 := BigEndian(b[0], b[1], b[2], b[3]), BigEndian(b[4], b[5], b[6], b[7]);
    var w2, w3 := BigEndian(b[8], b[9], b[10], b[11]), BigEndian(b[12], b[13], b[14], b[15]);
    assert CsdOf(b) == Register(w0, w1, w2, w3);
    WordParts(b[4], b[5], b[6], b[7]);
    WordParts(b[8], b[9], b[10], b[11]);
    WordParts(b[12], b[13], b[14], b[15]);
    hide Register, CsdOf, BigEndian, Be32, ReadBlLen, WriteBlLen, CSize1, CSizeMult, CSize2;
    ReadBlLenInWord(w0, w1, w2, w3);
    WriteBlLenInWord(w0, w1, w2, w3);
    CSize1InWords(w0, w1, w2, w3);
    CSizeMultInWord(w0, w1, w2, w3);
    CSize2InWords(w0, w1, w2, w3);
  }

  /** The parts of a word that hold fields. */
  lemma WordParts(b0: byte, b1: byte, b2: byte, b3: byte)
    ensures var w := BigEndian(b0, b1, b2, b3);
            && w / 0x1_0000 == b0 as int * 256 + b1 && w / 0x1_0000 % 16 == b1 % 16
            && w % 0x400 == b2 % 4 * 256 + b3 && w % 0x40 == b3 % 64
            && w / 0x4000_0000 == b0 / 64 && w / 0x8000 % 8 == b1 % 4 * 2 + b2 / 128
            && w / 0x40_0000 % 16 == b0 % 4 * 4 + b1 / 64
  {
    HighParts(b0, b1, b2, b3);
    LowParts(b0, b1, b2, b3);
    MiddleParts(b0, b1, b2, b3);
    hide BigEndian;
  }

  lemma HighParts(b0: byte, b1: byte, b2: byte, b3: byte)
    ensures var w := BigEndian(b0, b1, b2, b3);
            && w / 0x1_0000 == b0 as int * 256 + b1 && w / 0x1_0000 % 16 == b1 % 16 && w / 0x4000_0000 == b0 / 64
  {
    var q, r := b0 / 64, b0 % 64;
    assert b0 == 64 * q + r;
  }

  lemma LowParts(b0: byte, b1: byte, b2: byte, b3: byte)
    ensures var w := BigEndian(b0, b1, b2, b3); w % 0x400 == b2 % 4 * 256 + b3 && w % 0x40 == b3 % 64
  {
    var w := BigEndian(b0, b1, b2, b3);
    DivMod(b2, 4, b2 / 4, b2 % 4);
    LowTen(b0 as int * 0x4000 + b1 as int * 64 + b2 / 4, b2 % 4 * 256 + b3, w);
    DivMod(b3, 64, b3 / 64, b3 % 64);
    LowSix(b0 as int * 0x4_0000 + b1 as int * 0x400 + b2 as int * 4 + b3 / 64, b3 % 64, w);
  }

  lemma LowTen(q: nat, r: nat, w: nat)
    requires w == 0x400 * q + r && r < 0x400
    ensures w % 0x400 == r
  {
  }

  lemma LowSix(q: nat, r: nat, w: nat)
    requires w == 0x40 * q + r && r < 0x40
    ensures w % 0x40 == r
  {
  }

  lemma MiddleParts(b0: byte, b1: byte, b2: byte, b3: byte)
    ensures var w := BigEndian(b0, b1, b2, b3);
            w / 0x8000 % 8 == b1 % 4 * 2 + b2 / 128 && w / 0x40_0000 % 16 == b0 % 4 * 4 + b1 / 64
  {
    DivMod(b1, 4, b1 / 4, b1 % 4);
    Modulo(b0 as int * 64 + b1 / 4, b1 % 4 * 2 + b2 / 128, 8);
    Modulo(b0 / 4, b0 % 4 * 4 + b1 / 64, 16);
    Divided(b0, b1, b2, b3);
    hide BigEndian;
  }

  lemma Divided(b0: byte, b1: byte, b2: byte, b3: byte)
    ensures var w := BigEndian(b0, b1, b2, b3);
            && w / 0x8000 == 8 * (b0 as int * 64 + b1 / 4) + (b1 % 4 * 2 + b2 / 128)
            && w / 0x40_0000 == 16 * (b0 / 4) + (b0 % 4 * 4 + b1 / 64)
  {
    var q, r := b2 / 128, b2 % 128;
    assert b2 == 128 * q + r;
    var s, t := b1 / 64, b1 % 64;
    assert b1 == 64 * s + t;
  }

  lemma Modulo(q: nat, r: nat, m: nat)
    requires r < m && m in {8, 16}
    ensures (m * q + r) % m == r
  {
  }

  /** What sd_open returns for a prompt card. */
  function Expected(r: Regs): int
    requires |r.csd| == 16
  {
    if Classified(r) == NoneType then NO_CARD
    else if Classified(r) == MMC || ReadLen(r.csd) != WriteLen(r.csd) then UNSUPPORTED
    else OK
  }

  /** Whether a card can be opened is a matter of what it is. */
  lemma SameExpected(r: Regs, s: Regs)
    requires |r.csd| == 16 && s.kind == r.kind && s.voltageOk == r.voltageOk && s.csd == r.csd
    ensures Expected(s) == Expected(r) && Classified(s) == Classified(r)
  {
  }

  // ---- The commands of sd_open ----------------------------------------------------------------

  /** Whether `y` comes after `x` in the flow chart of section 7.2.1, with `arg` the argument of ACMD41. */
  predicate Follows(x: Issue, y: Issue, arg: nat) {
    match y.cmd
    case 8 => x.cmd == 0 && y.arg == 0x1aa
    case 55 => x.cmd in {8, 55, 41} && y.arg == 0
    case 41 => x.cmd == 55 && x.sent && y.arg == arg
    case 1 => x.cmd in {55, 41, 1} && y.arg == 0
    case 58 => x.cmd == 41 && y.arg == 0
    case 16 => x.cmd in {41, 1} && y.arg == 512
    case 10 => x.cmd in {58, 16} && y.arg == 0
    case 9 => x.cmd == 10 && y.arg == 0
    case _ => false
  }

  /** CMD0, and then one command after the other as the chart has it. */
  predicate Charted(s: seq<Issue>, arg: nat) {
    && s != [] && s[0].cmd == 0 && s[0].arg == 0
    && forall k :: 0 < k < |s| ==> Follows(s[k - 1], s[k], arg)
  }

  /** So are the commands from number `from` on, the last of them one of `last`. */
  predicate Charting(i: seq<Issue>, from: nat, arg: nat, last: set<byte>) {
    from < |i| && Charted(i[from..], arg) && i[|i| - 1].cmd in last
  }

  /** Whichever argument ACMD41 has. */
  predicate EitherChart(i: seq<Issue>, from: nat, last: set<byte>) {
    Charting(i, from, 0, last) || Charting(i, from, 0x4000_0000, last)
  }

  ghost function ChartArg(i: seq<Issue>, from: nat, last: set<byte>): (arg: nat)
    requires EitherChart(i, from, last)
    ensures arg in {0, 0x4000_0000} && Charting(i, from, arg, last)
  {
    if Charting(i, from, 0, last) then 0 else 0x4000_0000
  }

  lemma ChartStart(i: seq<Issue>, x: Issue, arg: nat)
    requires x.cmd == 0 && x.arg == 0
    ensures Charting(i + [x], |i|, arg, {0})
  {
    assert (i + [x])[|i|..] == [x];
  }

  lemma ChartNext(i: seq<Issue>, x: Issue, from: nat, arg: nat, last: set<byte>)
    requires Charting(i, from, arg, last) && Follows(i[|i| - 1], x, arg)
    ensures Charting(i + [x], from, arg, {x.cmd})
  {
    hide Follows;
    var s, t := i[from..], (i + [x])[from..];
    assert t == s + [x] && s[|s| - 1] == i[|i| - 1];
  }

  /** One ACMD41: CMD55, and the command itself if that was taken. */
  lemma ChartApp(i: seq<Issue>, j: seq<Issue>, from: nat, arg: nat)
    requires i <= j && Charting(i, from, arg, {8, 55, 41}) && AppCommands(j[|i|..], 41, arg)
    ensures Charting(j, from, arg, {55, 41}) && (|j| == |i| + 2 ==> Charting(j, from, arg, {41}))
  {
    var s := j[|i|..];
    ChartNext(i, s[0], from, arg, {8, 55, 41});
    if |s| == 2 { ChartNext(i + [s[0]], s[1], from, arg, {55}); }
    hide Charted, Follows;
    assert j == if |s| == 2 then i + [s[0]] + [s[1]] else i + [s[0]];
  }

  /** One CMD1. */
  lemma ChartPoll(i: seq<Issue>, x: Issue, from: nat)
    requires Charting(i, from, 0, {55, 41, 1}) && x.cmd == 1 && x.arg == 0
    ensures Charting(i + [x], from, 0, {1})
  {
    ChartNext(i, x, from, 0, {55, 41, 1});
    hide Charted;
  }

  /** What identification ends with, and sd_open. */
  function Ends(known: bool): set<byte> {
    if known then {58, 16} else {0, 8, 55, 41, 1, 58, 16}
  }

  function OpenEnds(done: bool): (s: set<byte>)
    ensures s == if done then {9} else {0, 8, 55, 41, 1, 58, 16, 10, 9}
  {
    if done then {9} else {0, 8, 55, 41, 1, 58, 16, 10, 9}
  }

  lemma ChartWider(i: seq<Issue>, from: nat, arg: nat, last: set<byte>, wider: set<byte>)
    requires Charting(i, from, arg, last) && last <= wider
    ensures Charting(i, from, arg, wider) && (arg in {0, 0x4000_0000} ==> EitherChart(i, from, wider))
  {
    hide Charted;
  }

  lemma EitherWider(i: seq<Issue>, from: nat, last: set<byte>, wider: set<byte>)
    requires EitherChart(i, from, last) && last <= wider
    ensures EitherChart(i, from, wider)
  {
    hide Charted;
  }

  // ---- Reading and writing --------------------------------------------------------------------

  class Sd {
    const link: Link
    const info: CardInfo
    var fast: bool

    constructor (l: Link, i: CardInfo)
      ensures link == l && info == i && !fast
    {
      link, info, fast := l, i, false;
    }

    /** A card type is set only while it says how the card is addressed, in blocks of 512 bytes. */
    ghost predicate Matched()
      reads this, link, link.slot, info
    {
      var r := link.slot.card.regs;
      info.cardType != NoneType ==>
        r.ready && r.blockLen == SECTOR && (info.cardType == SDHC <==> r.kind == HighCapacity)
    }

    ghost predicate Valid()
      reads this, link, link.slot, info
    {
      && WF(link.slot.card.regs) && Matched() && AtRest(link.slot.card)
      && (info.cardType == MMC ==> link.slot.card.regs.preErase == 0)
    }

    /** A prompt card, known to the driver, that has all the sectors asked for. */
    ghost predicate Promised(count: ulong, a: nat)
      reads this, link, link.slot, info
    {
      var r := link.slot.card.regs;
      info.cardType != NoneType && Prompt(r) && a + 512 * Blocks(count) <= |r.mem|
    }

    /** One more block of a multiple-block read. */
    method ReadStreamed(buf: array<byte>, pos: nat, ghost b0: seq<byte>, ghost a: nat, ghost k: nat, ghost was: Choice)
      returns (err: int, ghost ch: Choice)
      requires |b0| == buf.Length && pos == 512 * k && pos + 512 <= buf.Length
      requires Listening(link.slot.card) && link.slot.card.regs.blockLen == 512
      requires link.slot.card.phase == StreamFrom(link.slot.card.regs, a + 512 * k, was)
      requires Fetched(link.slot.card.regs.mem, a, b0, buf[..], k)
      modifies link.slot, buf
      ensures link.slot.card == old(link.slot.card).(phase := link.slot.card.phase)
      ensures Listening(link.slot.card) && (err == OK || err == TIMEOUT)
      ensures err == OK ==> link.slot.card.phase == StreamFrom(link.slot.card.regs, a + 512 * (k + 1), ch)
                            && Fetched(link.slot.card.regs.mem, a, b0, buf[..], k + 1)
      ensures err != OK ==> buf[..] == old(buf[..]) && !link.slot.card.phase.Idle?
      ensures Prompt(link.slot.card.regs) && a + 512 * (k + 1) <= |link.slot.card.regs.mem| ==> err == OK
    {
      ghost var r, b1 := link.slot.card.regs, buf[..];
      ghost var b := a + 512 * k;
      StreamReady(r, b, was);
      StreamIsStream(r, b, was);
      hide StreamFrom, Fetched, Stored, StreamToken, StreamRest, Follow, Latency, Queued, Prompt, Listening;
      ghost var l, t, rest := Latency(r, was), StreamToken(r, b, was), StreamRest(r, b, was);
      err, ch := link.ReadBlock(buf, pos, 512, l, t, rest);
      if err == OK {
        StreamFetched(r, a, b0, b1, buf[..], k, was, ch);
      }
    }

    /** The data phase of a multiple-block read, up to the first block that does not come. */
    method ReadStream(buf: array<byte>, count: ulong, ghost a: nat, ghost ch0: Choice) returns (err: int, ghost k: nat)
      requires 512 * Blocks(count) <= buf.Length
      requires Listening(link.slot.card) && link.slot.card.regs.blockLen == 512
      requires link.slot.card.phase == StreamFrom(link.slot.card.regs, a, ch0)
      modifies link.slot, buf
      ensures link.slot.card == old(link.slot.card).(phase := link.slot.card.phase)
      ensures k <= Blocks(count) && Fetched(link.slot.card.regs.mem, a, old(buf[..]), buf[..], k)
      ensures err == OK ==> k == Blocks(count) && link.slot.card.phase.Stream?
      ensures err != OK ==> err == TIMEOUT && k < Blocks(count) && !link.slot.card.phase.Idle?
      ensures Prompt(link.slot.card.regs) && a + 512 * Blocks(count) <= |link.slot.card.regs.mem| ==> err == OK
    {
      ghost var c, b0, n := link.slot.card, buf[..], Blocks(count);
      ghost var ch := ch0;
      var left: ulong, pos: nat, more := count, 0, true;
      k, err := 0, OK;
      FetchedStart(c.regs.mem, a, b0);
      hide StreamFrom, Fetched, Blocks, Listening, Left, Prompt, StreamToken, StreamRest;
      LeftStart(count);
      while more
        invariant k <= n && pos == 512 * k && err == OK && Left(count, left, k) && more == (k < n)
        invariant Listening(link.slot.card) && link.slot.card == c.(phase := link.slot.card.phase)
        invariant link.slot.card.phase == StreamFrom(c.regs, a + 512 * k, ch)
        invariant Fetched(c.regs.mem, a, b0, buf[..], k)
        decreases n - k
      {
        err, ch := ReadStreamed(buf, pos, b0, a, k, ch);
        if err < 0 {
          return;
        }
        LeftNext(count, left, k);
        k := k + 1;
        pos := pos + 512;
        left := if left == 0 then 0xffff_ffff else left - 1;
        more := left != 0;
      }
      StreamIsStream(c.regs, a + 512 * k, ch);
    }

    /** The CMD17 branch of sd_read. */
    method ReadSingle(buf: array<byte>, arg: ulong) returns (err: int)
      requires 512 <= buf.Length && link.slot.card.regs.ready && link.slot.card.regs.blockLen == 512
      modifies link, link.slot, buf
      ensures link.Since(old(link.issued), old(link.log))
      ensures Received(old(link.Now()), link.slot.card, Address(old(link.Now()), arg), old(buf[..]), buf[..], 1, err,
                       if err == OK then 1 else 0)
      ensures ReadCommand(link.issued, |old(link.issued)|, 17, arg)
    {
      ghost var r, b0 := link.Now(), buf[..];
      ghost var a := Address(r, arg);
      hide Fetched, Effect, R1, Next;
      FetchedStart(r.mem, a, b0);
      var res;
      ghost var sent, ch;
      res, sent, ch := link.SendCmd(17, arg);
      if res == 0 {
        ReadAnswer(r, link.slot.card, arg, res, ch);
        err := ReadOne(buf, a, ch, r);
      } else {
        if sent { ReadAnswer(r, link.slot.card, arg, res, ch); }
        err := BAD_RESPONSE;
      }
    }

    /** The data phase of a single-block read. */
    method ReadOne(buf: array<byte>, ghost a: nat, ghost ch: Choice, ghost r: Regs) returns (err: int)
      requires 512 <= buf.Length && Listening(link.slot.card) && link.slot.card.regs == Quiet(r) && a + 512 <= |r.mem|
      requires link.slot.card.phase == Send(DataBlock(r, r.mem[a..a + 512], ch), Idle(Busy(r, ch)))
      modifies link.slot, buf
      ensures link.slot.card.regs == Quiet(r) && (err == OK ==> link.slot.card.phase.Idle?)
      ensures err == OK || err == TIMEOUT
      ensures Fetched(r.mem, a, old(buf[..]), buf[..], if err == OK then 1 else 0)
      ensures Prompt(r) ==> err == OK
    {
      ghost var b0 := buf[..];
      FetchedStart(r.mem, a, b0);
      ghost var data := r.mem[a..a + 512];
      BlockQueued(r, data, ch, Idle(Busy(r, ch)));
      BlockRestParts(r, data, ch);
      hide DataBlock, Queued, BlockToken, BlockRest, Latency, Fetched, Stored;
      ghost var c;
      err, c := link.ReadBlock(buf, 0, 512, Latency(r, ch), BlockToken(r, ch), BlockRest(r, data, ch));
      if err == OK {
        FetchedNext(r.mem, a, b0, b0, 0, buf[..]);
      }
    }

    /** The CMD18 branch of sd_read. */
    method ReadMulti(buf: array<byte>, arg: ulong, count: ulong) returns (err: int, ghost k: nat)
      requires 512 * Blocks(count) <= buf.Length && link.slot.card.regs.ready && link.slot.card.regs.blockLen == 512
      modifies link, link.slot, buf
      ensures link.Since(old(link.issued), old(link.log))
      ensures Received(old(link.Now()), link.slot.card, Address(old(link.Now()), arg), old(buf[..]), buf[..],
                       Blocks(count), err, k)
      ensures ReadCommand(link.issued, |old(link.issued)|, 18, arg)
    {
      ghost var r, b0 := link.Now(), buf[..];
      ghost var a := Address(r, arg);
      hide Fetched, Effect, R1, Next, StreamFrom;
      FetchedStart(r.mem, a, b0);
      var res;
      ghost var sent, ch;
      res, sent, ch := link.SendCmd(18, arg);
      if res == 0 {
        StreamAnswer(r, link.slot.card, arg, res, ch);
        err, k := ReadStream(buf, count, a, ch);
        if err == 0 {
          var stopped := link.StopTransmission();
          err := stopped;
        }
      } else {
        if sent { StreamAnswer(r, link.slot.card, arg, res, ch); }
        err, k := BAD_RESPONSE, 0;
      }
    }

    /**
     sd_read: `k` sectors reach the buffer. They are right in every outcome, and the rest of the
     buffer is untouched. A completed read leaves no transaction cut off; one that failed on the
     way does, since CMD12 is sent only after the last block: with a prompt card, exactly a
     multiple-block read that begins on the card and runs off its end.
     */
    method Read(buf: array<byte>, sector: ulong, count: ulong) returns (err: int, ghost k: nat)
      requires Valid() && 512 * Blocks(count) <= buf.Length
      modifies link, link.slot, buf
      ensures Valid() && Kept(old(link.slot.card.regs), link.slot.card.regs)
      ensures link.slot.card.regs.mem == old(link.slot.card.regs.mem)
      ensures err == OK ==> link.slot.card.regs.cut == old(link.slot.card.regs.cut)
      ensures count != 1 && (0 < k < Blocks(count) || err == TIMEOUT) ==> link.slot.card.regs.cut
      ensures Prompt(old(link.slot.card.regs)) && info.cardType != NoneType ==>
                (link.slot.card.regs.cut <==> CutOff(count, FirstByte(info.cardType, sector), |link.slot.card.regs.mem|))
      ensures err == OK ==> link.slot.card.regs.preErase == 0
      ensures link.slot.card.regs.preErase <= old(link.slot.card.regs.preErase)
      ensures info.cardType == NoneType ==> err == NO_CARD && k == 0
      ensures info.cardType != NoneType ==> !link.busTaken
      ensures old(link.issued) <= link.issued
              && link.log == old(link.log) + if info.cardType == NoneType then []
                                             else B.SdCall(false, Readies(link.issued[|old(link.issued)|..]))
      ensures info.cardType != NoneType ==>
                ReadCommand(link.issued, |old(link.issued)|, if count == 1 then 17 else 18,
                            Argument(info.cardType, sector))
      ensures k <= Blocks(count)
      ensures Fetched(link.slot.card.regs.mem, FirstByte(info.cardType, sector), old(buf[..]), buf[..], k)
      ensures err == OK ==> k == Blocks(count)
      ensures k < Blocks(count) ==> err < 0
      ensures old(Promised(count, FirstByte(info.cardType, sector))) ==> err == OK
    {
      ghost var r0, b0 := link.slot.card.regs, buf[..];
      ghost var a := FirstByte(info.cardType, sector);
      k := 0;
      FetchedStart(r0.mem, a, b0);
      if info.cardType == NoneType {
        return NO_CARD, k;
      }
      var arg := sector;
      if info.cardType != SDHC {
        arg := sector * 0x200 % 0x1_0000_0000;
      }
      ghost var i, l := link.issued, link.log;
      AddressOfArgument(r0, info.cardType, sector);
      hide Fetched, Grown, Received, Address, FirstByte, WF;
      if count == 1 {
        err := ReadSingle(buf, arg);
        k := if err == OK then 1 else 0;
      } else {
        err, k := ReadMulti(buf, arg, count);
      }
      CallLog(i, l, link.issued, link.log);
      ReceivedEnded(r0, link.slot.card, a, b0, buf[..], Blocks(count), err, k);
      hide Kept, CutBy, Blocks;
      link.Deselect();
    }

    /** The CMD24 branch of sd_write. */
    method WriteSingle(buf: array<byte>, arg: ulong) returns (err: int, ghost mid: Regs)
      requires 512 <= buf.Length && link.slot.card.regs.ready && link.slot.card.regs.blockLen == 512
      modifies link, link.slot
      ensures link.Since(old(link.issued), old(link.log))
      ensures OneCommand(24, arg, old(link.slot.card.regs), old(link.issued), link.issued, mid)
      ensures link.slot.card.regs.preErase <= old(link.slot.card.regs.preErase)
      ensures Wrote(old(link.Now()), link.slot.card, mid, Address(old(link.Now()), arg), buf[..], 1, err,
                    if err == OK then 1 else 0, 1)
    {
      ghost var r := link.Now();
      ghost var a := Address(r, arg);
      LandedStart(r.mem, a, buf[..], 0);
      LandedStart(r.mem, a, buf[..], 1);
      hide Effect, R1, Next, Landed, Address, Answered, Traced;
      var res;
      ghost var sent, ch;
      res, sent, ch := link.SendCmd(24, arg);
      mid := link.slot.card.regs;
      if sent { SingleStarted(r, link.slot.card, arg, res, ch); }
      if res == 0 {
        err := WriteOne(buf, a, r);
        ghost var k := if err == OK then 1 else 0;
        LandedWider(r.mem, link.slot.card.regs.mem, a, buf[..], k, k, 1);
        LandedLength(r.mem, link.slot.card.regs.mem, a, buf[..], k, k);
      } else {
        err := BAD_RESPONSE;
      }
    }

    /** The data phase of a single-block write. */
    method WriteOne(buf: array<byte>, ghost a: nat, ghost r: Regs) returns (err: int)
      requires 512 <= buf.Length && Listening(link.slot.card) && link.slot.card.regs == Quiet(r) && r.blockLen == 512
      requires link.slot.card.phase.Await? && link.slot.card.phase == Await(a, false, link.slot.card.phase.busy)
      modifies link.slot
      ensures link.slot.card.regs == Quiet(r).(mem := link.slot.card.regs.mem) && err <= OK
      ensures err == OK <==> link.slot.card.phase.Idle?
      ensures var n := if err == OK then 1 else 0; Landed(r.mem, link.slot.card.regs.mem, a, buf[..], n, n)
      ensures Prompt(r) && InRange(r, a) && old(link.slot.card.phase).busy < LIMIT ==> err == OK
    {
      LandedStart(r.mem, a, buf[..], 0);
      ghost var b;
      err, b := link.WriteBlock(buf, 0, 0xfe, a);
      if err == OK {
        assert buf[..][0..512] == buf[0..512];
        LandedStart(r.mem, a, buf[..], 1);
        hide Landed;
        LandedNext(r.mem, r.mem, a, buf[..], 0, 1);
      }
    }

    /** One more block of a multiple-block write. */
    method WriteStreamed(buf: array<byte>, pos: nat, ghost a: nat, ghost m0: seq<byte>, ghost k: nat)
      returns (err: int)
      requires pos == 512 * k && pos + 512 <= buf.Length
      requires Listening(link.slot.card) && link.slot.card.regs.blockLen == 512
      requires AwaitsAt(link.slot.card, a + 512 * k)
      requires Landed(m0, link.slot.card.regs.mem, a, buf[..], k, k)
      modifies link.slot
      ensures Listening(link.slot.card) && err <= OK && (err < OK ==> !link.slot.card.phase.Idle?)
      ensures link.slot.card.regs == old(link.slot.card.regs).(mem := link.slot.card.regs.mem)
      ensures err == OK ==> AwaitsAt(link.slot.card, a + 512 * (k + 1))
      ensures var n := if err == OK then k + 1 else k; Landed(m0, link.slot.card.regs.mem, a, buf[..], n, n)
      ensures Prompt(link.slot.card.regs) && a + 512 * (k + 1) <= |m0| ==> err == OK
    {
      ghost var m := link.slot.card.regs.mem;
      LandedLength(m0, m, a, buf[..], k, k);
      hide Landed;
      ghost var b;
      err, b := link.WriteBlock(buf, pos, 0xfc, a + 512 * k);
      if err == OK {
        assert buf[..][pos..pos + 512] == buf[pos..pos + 512];
        LandedWider(m0, m, a, buf[..], k, k, k + 1);
        LandedNext(m0, m, a, buf[..], k, k + 1);
      }
    }

    /** The data phase of a multiple-block write, up to the first block that is not accepted. */
    method WriteStream(buf: array<byte>, count: ulong, ghost a: nat) returns (err: int, ghost k: nat)
      requires 512 * Blocks(count) <= buf.Length
      requires Listening(link.slot.card) && link.slot.card.regs.blockLen == 512 && AwaitsAt(link.slot.card, a)
      modifies link.slot
      ensures Listening(link.slot.card)
      ensures link.slot.card.regs == old(link.slot.card.regs).(mem := link.slot.card.regs.mem)
      ensures k <= Blocks(count) && Landed(old(link.slot.card.regs.mem), link.slot.card.regs.mem, a, buf[..], k, k)
      ensures err == OK ==> k == Blocks(count) && AwaitsAt(link.slot.card, a + 512 * k)
      ensures err != OK ==> err < 0 && k < Blocks(count) && !link.slot.card.phase.Idle?
      ensures Prompt(link.slot.card.regs) && a + 512 * Blocks(count) <= |link.slot.card.regs.mem| ==> err == OK
    {
      ghost var r, n := link.slot.card.regs, Blocks(count);
      var left: ulong, pos: nat, more := count, 0, true;
      k, err := 0, OK;
      LandedStart(r.mem, a, buf[..], 0);
      hide Landed, Blocks, AwaitsAt, Listening, Left;
      LeftStart(count);
      while more
        invariant k <= n && pos == 512 * k && err == OK && Left(count, left, k) && more == (k < n)
        invariant Listening(link.slot.card) && AwaitsAt(link.slot.card, a + 512 * k)
        invariant link.slot.card.regs == r.(mem := link.slot.card.regs.mem)
        invariant Landed(r.mem, link.slot.card.regs.mem, a, buf[..], k, k)
        decreases n - k
      {
        err := WriteStreamed(buf, pos, a, r.mem, k);
        LandedLength(r.mem, link.slot.card.regs.mem, a, buf[..], if err == OK then k + 1 else k,
                if err == OK then k + 1 else k);
        if err < 0 {
          return;
        }
        LeftNext(count, left, k);
        k := k + 1;
        pos := pos + 512;
        left := if left == 0 then 0xffff_ffff else left - 1;
        more := left != 0;
      }
      LandedLength(r.mem, link.slot.card.regs.mem, a, buf[..], k, k);
    }

    /** CMD25 and what follows it. `mid` is the card between the command and the first block. */
    method WriteBlocks(buf: array<byte>, arg: ulong, count: ulong, ghost w: nat)
      returns (err: int, ghost k: nat, ghost mid: Regs)
      requires 512 * Blocks(count) <= buf.Length && Blocks(count) <= w && link.slot.card.regs.preErase <= w
      requires link.slot.card.regs.ready && link.slot.card.regs.blockLen == 512
      modifies link, link.slot
      ensures link.Since(old(link.issued), old(link.log))
      ensures OneCommand(25, arg, old(link.slot.card.regs), old(link.issued), link.issued, mid)
      ensures link.slot.card.regs.preErase <= old(link.slot.card.regs.preErase)
      ensures Wrote(old(link.Now()), link.slot.card, mid, Address(old(link.Now()), arg), buf[..], count, err, k, w)
    {
      ghost var r := link.Now();
      ghost var a := Address(r, arg);
      LandedStart(r.mem, a, buf[..], w);
      hide Effect, R1, Next, Landed, Erased, Answered, Address, Traced;
      var res;
      ghost var sent, ch;
      k := 0;
      res, sent, ch := link.SendCmd(25, arg);
      mid := link.slot.card.regs;
      LandedStart(mid.mem, a, buf[..], 0);
      if sent {
        WriteStarted(r, link.slot.card, arg, res, ch, buf[..], w);
      }
      if res == 0 {
        hide AwaitsAt;
        err, k := WriteStream(buf, count, a);
        LandedOver(r.mem, mid.mem, link.slot.card.regs.mem, a, buf[..], k, w);
        LandedFits(mid.mem, link.slot.card.regs.mem, a, buf[..], k, k);
        if err == OK {
          AwaitsFacts(link.slot.card, a + 512 * k);
          err := link.StopTran();
        }
      } else {
        err := BAD_RESPONSE;
      }
    }

    /** The multiple-block branch of sd_write for an SD card: the erase count, the blocks and the stop token. */
    method WriteAnnounced(buf: array<byte>, arg: ulong, count: ulong) returns (err: int, ghost k: nat, ghost mid: Regs)
      requires 512 * Blocks(count) <= buf.Length && link.slot.card.regs.ready && link.slot.card.regs.blockLen == 512
      requires count != 1
      modifies link, link.slot
      ensures link.Since(old(link.issued), old(link.log))
      ensures Commanded(SD1x, arg, count, old(link.Now()), old(link.slot.card.regs), old(link.issued), link.issued, mid)
      ensures Wrote(old(link.Now()), link.slot.card, mid, Address(old(link.Now()), arg), buf[..], count, err, k,
                    EraseRange(count, old(link.slot.card.regs.preErase), link.issued[|old(link.issued)|..]))
    {
      ghost var r0, c0 := link.Now(), link.slot.card.regs;
      ghost var i, l := link.issued, link.log;
      hide Grown, Announced, Wrote, OneCommand;
      AnnounceCount(count);
      ghost var i1, l1, c1, n1 := link.issued, link.log, link.slot.card, link.Now();
      AnnouncedFacts(r0, c0, c1, i, i1, count);
      hide Address, Blocks;
      ghost var w := if i1[|i|].sent || r0.preErase <= Blocks(count) then Blocks(count) else r0.preErase;
      err, k, mid := WriteBlocks(buf, arg, count, w);
      GrownTrans(i, l, i1, l1, link.issued, link.log);
      AnnouncedWrite(r0, c0, c1, i, i1, link.issued, arg, count, mid);
      WroteFrom(r0, n1, link.slot.card, mid, Address(r0, arg), buf[..], count, err, k, w);
    }

    /** ACMD23, whose answer is ignored: once CMD55 has been sent, the count does not exceed this write. */
    method AnnounceCount(count: ulong)
      modifies link, link.slot
      ensures link.Since(old(link.issued), old(link.log))
      ensures Announced(old(link.Now()), old(link.slot.card.regs), link.slot.card, old(link.issued), link.issued, count)
    {
      ghost var r0, c0 := link.Now(), link.slot.card.regs;
      ghost var i := link.issued;
      var res;
      ghost var r, sent, ch;
      res, r, sent, ch := link.SendAppCmd(23, count);
      CountAnswered(r0, r, link.slot.card, count, res, sent, ch);
      CountAfter(c0, link.issued[|i|..], link.slot.card.regs, count);
      hide Grown, Traced, Stays;
    }

    /** The commands and the data of sd_write. */
    method WriteBody(buf: array<byte>, arg: ulong, count: ulong) returns (err: int, ghost k: nat, ghost mid: Regs)
      requires 512 * Blocks(count) <= buf.Length && link.slot.card.regs.ready && link.slot.card.regs.blockLen == 512
      requires info.cardType != NoneType && (info.cardType == MMC ==> link.slot.card.regs.preErase == 0)
      modifies link, link.slot
      ensures link.Since(old(link.issued), old(link.log))
      ensures Commanded(info.cardType, arg, count, old(link.Now()), old(link.slot.card.regs),
                        old(link.issued), link.issued, mid)
      ensures info.cardType == MMC ==> link.slot.card.regs.preErase == 0
      ensures Wrote(old(link.Now()), link.slot.card, mid, Address(old(link.Now()), arg), buf[..], count, err, k,
                    EraseRange(count, old(link.slot.card.regs.preErase), link.issued[|old(link.issued)|..]))
    {
      ghost var i, c0 := link.issued, link.slot.card.regs;
      ghost var r0 := link.Now();
      hide Grown, Wrote, OneCommand, Address;
      if count == 1 {
        err, mid := WriteSingle(buf, arg);
        k := if err == OK then 1 else 0;
        PlainWrite(info.cardType, arg, count, r0, c0, i, link.issued, mid);
      } else if info.cardType == SD1x || info.cardType == SD20 || info.cardType == SDHC {
        err, k, mid := WriteAnnounced(buf, arg, count);
        AnnouncedAs(info.cardType, arg, count, r0, c0, i, link.issued, mid);
      } else {
        err, k, mid := WriteBlocks(buf, arg, count, Blocks(count));
        PlainWrite(info.cardType, arg, count, r0, c0, i, link.issued, mid);
      }
      hide Commanded, EraseRange;
    }

    /**
     sd_write: in every outcome the first `k` sectors hold the buffer and nothing outside the
     range written has changed. What the commands may have erased first is `mid`; that range is
     longer only if CMD55 was not sent and an earlier call has left a larger erase count behind.
     With a prompt card exactly a multiple-block write that begins on the card and runs off its
     end is cut off, since no stop token is sent then.
     */
    method Write(buf: array<byte>, sector: ulong, count: ulong) returns (err: int, ghost k: nat, ghost mid: Regs)
      requires Valid() && 512 * Blocks(count) <= buf.Length
      modifies link, link.slot
      ensures Valid() && Kept(old(link.slot.card.regs), link.slot.card.regs)
      ensures info.cardType == NoneType ==> err == NO_CARD && k == 0 && link.slot.card == old(link.slot.card)
      ensures info.cardType != NoneType ==> !link.busTaken
      ensures k <= Blocks(count) && (err == OK ==> k == Blocks(count)) && err <= OK
      ensures err == OK ==> link.slot.card.regs.preErase == 0
      ensures old(link.issued) <= link.issued
      ensures var a, s := FirstByte(info.cardType, sector), link.issued[|old(link.issued)|..];
              && (info.cardType != NoneType ==>
                    && WriteCommands(info.cardType, Argument(info.cardType, sector), count, s)
                    && Traced(old(link.slot.card.regs), s, mid))
              && link.log == old(link.log) + (if info.cardType == NoneType then [] else B.SdCall(false, Readies(s)))
              && Landed(mid.mem, link.slot.card.regs.mem, a, buf[..], k, k)
              && Landed(old(link.slot.card.regs.mem), link.slot.card.regs.mem, a, buf[..], k,
                        EraseRange(count, old(link.slot.card.regs.preErase), s))
              && (Prompt(old(link.slot.card.regs)) ==>
                    EraseRange(count, old(link.slot.card.regs.preErase), s) == Blocks(count) || info.cardType == NoneType)
      ensures err == OK && Prompt(old(link.slot.card.regs)) ==> Prompt(link.slot.card.regs)
      ensures info.cardType != NoneType && (0 < k < Blocks(count) || err == TIMEOUT) ==> link.slot.card.regs.cut
      ensures Prompt(old(link.slot.card.regs)) && info.cardType != NoneType ==>
                (link.slot.card.regs.cut <==> CutOff(count, FirstByte(info.cardType, sector), |link.slot.card.regs.mem|))
      ensures old(Promised(count, FirstByte(info.cardType, sector))) ==> err == OK
    {
      ghost var r0 := link.slot.card.regs;
      ghost var a := FirstByte(info.cardType, sector);
      k, mid := 0, r0;
      LandedStart(r0.mem, a, buf[..], 0);
      LandedWider(r0.mem, r0.mem, a, buf[..], 0, 0, EraseRange(count, r0.preErase, []));
      if info.cardType == NoneType {
        return NO_CARD, k, mid;
      }
      var arg := sector;
      if info.cardType != SDHC {
        arg := sector * 0x200 % 0x1_0000_0000;
      }
      AddressOfArgument(r0, info.cardType, sector);
      ghost var i, l := link.issued, link.log;
      hide Grown, Traced, Landed, WriteCommands, Streamed, Address, FirstByte, WF;
      err, k, mid := WriteBody(buf, arg, count);
      CallLog(i, l, link.issued, link.log);
      Ended(r0, link.slot.card, a, buf[..], Blocks(count), err, k, EraseRange(count, r0.preErase, link.issued[|i|..]));
      hide Kept, CutBy, Blocks;
      link.Deselect();
    }

    // ---- sd_open --------------------------------------------------------------------------

    /** sd_get_r7_resp. */
    method GetR7() returns (v: nat)
      requires Listening(link.slot.card) && link.slot.card.phase.Send? && |link.slot.card.phase.out| == 4
      modifies link.slot
      ensures link.slot.card.regs == old(link.slot.card.regs) && link.slot.card.phase == old(link.slot.card.phase.next)
      ensures var s := old(link.slot.card.phase.out); v == Be32(s[0], s[1], s[2], s[3])
    {
      var buf := new byte[4];
      ghost var out := link.slot.card.phase.out;
      ghost var ch := link.Read(buf, 0, 4);
      assert buf[..] == out[..4];
      v := Be32(buf[0], buf[1], buf[2], buf[3]);
    }

    /** Ten bytes with the card deselected, and CMD0. */
    method Reset() returns (res: byte)
      modifies link, link.slot
      ensures forall arg: nat :: Charting(link.issued, |old(link.issued)|, arg, {0})
      ensures link.Since(old(link.issued), old(link.log) + [B.Obtain, B.Deselect])
      ensures var r0, r := old(link.Now()), link.slot.card.regs;
              && (res == 1 ==> r == Blank(r0) && link.slot.card.phase.Idle?) && (Prompt(r0) ==> res == 1)
              && r in {r0, Quiet(r0), Blank(r0)}
    {
      ghost var r0 := link.Now();
      link.Obtain();
      ghost var ch := link.DeselectCard();
      assert old(link.log) + [B.Obtain] + [B.Deselect] == old(link.log) + [B.Obtain, B.Deselect];
      for n := 0 to 10
        invariant AtRest(link.slot.card) && link.slot.card.regs == r0 && link.slot.card.clocks >= n
        invariant link.issued == old(link.issued) && link.log == old(link.log) + [B.Obtain, B.Deselect]
      {
        var b;
        b, ch := link.slot.Exchange(0xff);
      }
      hide Effect, R1, Next;
      ghost var sent;
      res, sent, ch := link.SendCmd(0, 0);
      if sent { ResetAnswer(r0, link.slot.card, res, ch); }
      hide Charting;
      forall arg: nat ensures Charting(link.issued, |old(link.issued)|, arg, {0}) {
        ChartStart(old(link.issued), link.issued[|old(link.issued)|], arg);
      }
    }

    /** One poll of the initialisation, with ACMD41 or CMD1. */
    method InitPoll(cmd: byte, arg: ulong, ghost i: seq<Issue>, ghost l: seq<B.Op>, ghost from: nat) returns (res: byte)
      requires cmd in {1, 41} && link.Since(i, l)
      requires if cmd == 41 then Charting(link.issued, from, arg, {8, 55, 41})
               else arg == 0 && Charting(link.issued, from, arg, {55, 41, 1})
      modifies link, link.slot
      ensures Charting(link.issued, from, arg, if cmd == 1 then {1} else if res <= 1 then {41} else {55, 41})
      ensures link.Since(i, l)
      ensures Waited(old(link.Now()), link.slot.card, cmd, arg, res, 0)
      ensures Prompt(old(link.Now())) && cmd == 41 ==> (res <= 1 <==> old(link.Now()).kind != Mmc)
    {
      ghost var r0 := link.Now();
      ghost var sent, ch, r;
      ghost var i1, l1 := link.issued, link.log;
      hide Effect, R1, Next, Grown, Waited, Answered, Charting, Traced;
      if cmd == 41 {
        res, r, sent, ch := link.SendAppCmd(41, arg);
        ChartApp(i1, link.issued, from, arg);
        assert res <= 1 ==> sent;
        AppPolled(r0, r, link.slot.card, arg, res, sent, ch);
      } else {
        res, sent, ch := link.SendCmd(1, arg);
        ChartPoll(i1, link.issued[|i1|], from);
        if sent { InitPolled(r0, link.slot.card, 1, arg, res, ch); } else { NotPolled(r0, link.slot.card, arg, res); }
      }
      GrownTrans(i, l, i1, l1, link.issued, link.log);
    }

    /**
     The wait for the card to leave the idle state. The loop does not end on its deadline, which
     only invalidates the type: `hung` says that after `watch` more polls it is still running, and
     `late` that the deadline has passed before the card was ready.
     */
    method WaitInit(cmd: byte, arg: ulong, watch: nat, ghost from: nat) returns (hung: bool, ghost late: bool)
      requires cmd in {1, 41} && (cmd == 1 ==> arg == 0)
      requires Charting(link.issued, from, arg, if cmd == 41 then {8, 55, 41} else {55, 41, 1})
      modifies link, link.slot, info`cardType
      ensures Charting(link.issued, from, arg, if hung then {55, 41, 1} else {cmd})
      ensures link.Since(old(link.issued), old(link.log))
      ensures Stays(old(link.Now()), link.slot.card)
      ensures var r0, r := old(link.Now()), link.slot.card.regs;
              && Polled(r0, r) && (!hung ==> r.ready) && (r.ready ==> r0.ready || CanStart(r0, arg))
              && info.cardType == (if late then NoneType else old(info.cardType)) && (Prompt(r0) ==> !late)
              && (Prompt(r0) && CanInit(r0, cmd, arg) && r0.initPolls < watch ==> !hung)
    {
      ghost var r0 := link.Now();
      ghost var i, l := link.issued, link.log;
      GrownSame(i, l);
      var res := InitPoll(cmd, arg, i, l, from);
      late := false;
      var n := 0;
      while res > 0 && n < watch
        invariant link.Since(i, l)
        invariant n <= watch && Waited(r0, link.slot.card, cmd, arg, res, n)
        invariant Charting(link.issued, from, arg, if cmd == 1 then {1} else if res <= 1 then {41} else {55, 41})
        invariant info.cardType == (if late then NoneType else old(info.cardType)) && (Prompt(r0) ==> !late)
        decreases watch - n
      {
        hide Grown, Waited, Prompt, Polled, Stays, CanStart, CanInit, Charted;
        ghost var c, was := link.slot.card, res;
        var expired := *;
        if expired && !Prompt(link.slot.card.regs) {
          late := true;
          info.cardType := NoneType;
        }
        WaitedPrompt(r0, c, cmd, arg, res, n);
        res := InitPoll(cmd, arg, i, l, from);
        WaitedAgain(r0, c, link.slot.card, cmd, arg, was, res, n);
        n := n + 1;
      }
      hung := res > 0;
    }

    /** The branch of sd_open for cards that answered CMD8. */
    method InitV2(watch: nat, ghost from: nat) returns (hung: bool, ghost late: bool)
      requires Charting(link.issued, from, 0x4000_0000, {8})
      requires var r := link.slot.card.regs; WF(r) && !r.ready && r.blockLen == SECTOR && r.kind in {V2, HighCapacity}
      modifies link, link.slot, info`cardType
      ensures Charting(link.issued, from, 0x4000_0000,
                       if !hung && info.cardType != NoneType then {58} else {55, 41, 1, 58})
      ensures link.Since(old(link.issued), old(link.log))
      ensures Stays(old(link.Now()), link.slot.card)
      ensures !hung && info.cardType != NoneType ==> link.slot.card.regs.preErase == 0
      ensures var r0, r := old(link.Now()), link.slot.card.regs;
              && Alike(r0, r)
              && (!hung ==> Matched())
              && (!hung ==> info.cardType in {NoneType, SD20, SDHC} && (late ==> info.cardType == NoneType))
              && (Prompt(r0) && !hung ==> info.cardType == if r0.kind == V2 then SD20 else SDHC)
              && (Prompt(r0) && r0.initPolls < watch ==> !hung)
    {
      ghost var r0 := link.Now();
      AlikeCut(link.slot.card.regs, link.slot.card.phase);
      info.cardType := SD20;
      ghost var i, l := link.issued, link.log;
      hide Grown;
      hung, late := WaitInit(41, 0x4000_0000, watch, from);
      ghost var c, i1, l1 := link.slot.card, link.issued, link.log;
      AlikePolled(r0, c.regs);
      hide Polled;
      if !hung && info.cardType != NoneType {
        AlikeCut(c.regs, c.phase);
        var known, high := ReadOcr(from);
        GrownTrans(i, l, i1, l1, link.issued, link.log);
        if !known {
          info.cardType := NoneType;
        } else if high {
          info.cardType := SDHC;
        }
        AlikeQuiet(CutBy(c.regs, c.phase), link.slot.card.regs);
        hide Quiet, CutBy, WF, SameCard;
        StaysTrans(r0, c, link.slot.card);
      }
    }

    /** The OCR tells whether the card is of high capacity. */
    method ReadOcr(ghost from: nat) returns (known: bool, high: bool)
      requires link.slot.card.regs.ready && Charting(link.issued, from, 0x4000_0000, {41})
      modifies link, link.slot
      ensures Charting(link.issued, from, 0x4000_0000, {58})
      ensures link.Since(old(link.issued), old(link.log))
      ensures Stays(old(link.Now()), link.slot.card)
      ensures known ==> link.slot.card.regs.preErase == 0
      ensures var r0, r := old(link.Now()), link.slot.card.regs;
              && r in {r0, Quiet(r0)} && (known ==> (high <==> r0.kind == HighCapacity)) && (Prompt(r0) ==> known)
    {
      ghost var r0 := link.Now();
      var res;
      ghost var sent, ch;
      high := false;
      hide Effect, R1, Next, Be32;
      ghost var i := link.issued;
      res, sent, ch := link.SendCmd(58, 0);
      ChartNext(i, link.issued[|i|], from, 0x4000_0000, {41});
      if sent { OcrAnswer(r0, link.slot.card, res, ch); }
      known := res == 0;
      if known {
        var ocr := GetR7();
        CcsBit(r0, ocr);
        high := ocr / 0x4000_0000 % 2 == 1;
      }
    }

    /** The branch for all other cards: SD 1.x if ACMD41 is understood, else MMC. */
    method InitV1(watch: nat, ghost from: nat) returns (hung: bool, ghost late: bool)
      requires Charting(link.issued, from, 0, {8})
      requires var r := link.slot.card.regs; WF(r) && !r.ready
      modifies link, link.slot, info`cardType
      ensures Charting(link.issued, from, 0, if !hung && info.cardType != NoneType then {16} else {55, 41, 1, 16})
      ensures link.Since(old(link.issued), old(link.log))
      ensures Stays(old(link.Now()), link.slot.card)
      ensures !hung && info.cardType != NoneType ==> link.slot.card.regs.preErase == 0
      ensures var r0, r := old(link.Now()), link.slot.card.regs;
              && Alike(r0, r)
              && (!hung ==> Matched())
              && (!hung ==> info.cardType in {NoneType, SD1x, MMC} && (late ==> info.cardType == NoneType))
              && (Prompt(r0) && !hung ==> info.cardType == if r0.kind == Mmc then MMC else SD1x)
              && (Prompt(r0) && r0.kind in {V1, Mmc} && r0.initPolls < watch ==> !hung)
    {
      ghost var r0 := link.Now();
      ghost var i, l := link.issued, link.log;
      GrownSame(i, l);
      hide Grown, Charting;
      ChartWider(link.issued, from, 0, {8}, {8, 55, 41});
      var cmd;
      var res := InitPoll(41, 0, i, l, from);
      ghost var i1, l1 := link.issued, link.log;
      ChartWider(i1, from, 0, if res <= 1 then {41} else {55, 41}, if res <= 1 then {8, 55, 41} else {55, 41, 1});
      if res <= 1 {
        info.cardType := SD1x;
        cmd := 41;
      } else {
        info.cardType := MMC;
        cmd := 1;
      }
      hung, late := WaitReadyAs(cmd, watch, r0, from);
      GrownTrans(i, l, i1, l1, link.issued, link.log);
      if !hung && info.cardType != NoneType {
        ghost var c := link.slot.card;
        i1, l1 := link.issued, link.log;
        FixLength(from);
        hide Quiet, CutBy, WF, SameCard;
        GrownTrans(i, l, i1, l1, link.issued, link.log);
        StaysTrans(r0, c, link.slot.card);
        AlikeTrans(r0, c.regs, link.slot.card.regs);
      } else {
        ChartWider(link.issued, from, 0, if hung then {55, 41, 1} else {41, 1}, {55, 41, 1, 16});
      }
    }

    /** A card that does not take CMD16 loses its type. */
    method FixLength(ghost from: nat)
      requires WF(link.slot.card.regs) && link.slot.card.regs.ready && info.cardType != NoneType
      requires Charting(link.issued, from, 0, {41, 1})
      modifies link, link.slot, info`cardType
      ensures Charting(link.issued, from, 0, if info.cardType != NoneType then {16} else {55, 41, 1, 16})
      ensures link.Since(old(link.issued), old(link.log))
      ensures Stays(old(link.Now()), link.slot.card)
      ensures var r0, r := old(link.slot.card.regs), link.slot.card.regs;
              && Alike(r0, r) && r.ready && info.cardType in {old(info.cardType), NoneType}
              && (info.cardType != NoneType ==> r.blockLen == 512 && r.preErase == 0)
              && (Prompt(old(link.Now())) && r0.kind != HighCapacity ==> info.cardType == old(info.cardType))
    {
      ghost var c := link.slot.card;
      AlikeCut(c.regs, c.phase);
      hide Grown, Charting;
      var ok := SetBlockLength(from);
      ChartWider(link.issued, from, 0, {16}, {55, 41, 1, 16});
      if !ok {
        info.cardType := NoneType;
      }
      AlikeQuiet(CutBy(c.regs, c.phase), link.slot.card.regs);
    }

    /** The wait after the first ACMD41, with `r0` the card before that. */
    method WaitReadyAs(cmd: byte, watch: nat, ghost r0: Regs, ghost from: nat) returns (hung: bool, ghost late: bool)
      requires Charting(link.issued, from, 0, if cmd == 41 then {8, 55, 41} else {55, 41, 1})
      requires cmd in {1, 41} && WF(r0) && !r0.ready && Polled(r0, link.slot.card.regs) && Stays(r0, link.slot.card)
      requires link.slot.card.regs.ready ==> CanStart(r0, 0)
      modifies link, link.slot, info`cardType
      ensures Charting(link.issued, from, 0, if hung then {55, 41, 1} else {41, 1})
      ensures link.Since(old(link.issued), old(link.log))
      ensures Alike(r0, link.slot.card.regs) && Stays(r0, link.slot.card)
      ensures !hung ==> link.slot.card.regs.ready && CanStart(r0, 0)
      ensures info.cardType == (if late then NoneType else old(info.cardType)) && (Prompt(r0) ==> !late)
      ensures Prompt(r0) && CanInit(r0, cmd, 0) && r0.initPolls < watch ==> !hung
    {
      ghost var c := link.slot.card;
      hung, late := WaitInit(cmd, 0, watch, from);
      StaysTrans(r0, c, link.slot.card);
      AlikePolled(r0, link.slot.card.regs);
    }

    /** CMD16 with a length of 512. */
    method SetBlockLength(ghost from: nat) returns (ok: bool)
      requires link.slot.card.regs.ready && Charting(link.issued, from, 0, {41, 1})
      modifies link, link.slot
      ensures Charting(link.issued, from, 0, {16})
      ensures link.Since(old(link.issued), old(link.log))
      ensures Stays(old(link.Now()), link.slot.card)
      ensures var r0, r := old(link.Now()), link.slot.card.regs;
              && r in {r0, Quiet(r0), Quiet(r0).(blockLen := 512)} && (ok ==> r == Quiet(r0).(blockLen := 512))
              && (Prompt(r0) && r0.kind != HighCapacity ==> ok)
    {
      ghost var r0 := link.Now();
      var res;
      ghost var sent, ch;
      hide Effect, R1, Next;
      ghost var i := link.issued;
      res, sent, ch := link.SendCmd(16, SECTOR);
      ChartNext(i, link.issued[|i|], from, 0, {41, 1});
      if sent { LengthAnswer(r0, link.slot.card, res, ch); }
      ok := res == 0;
    }

    /** The commands from number `from` on are as charted, with a type found up to the last one of identification. */
    ghost predicate Identified(from: nat, done: bool)
      reads link, info
    {
      EitherChart(link.issued, from, Ends(done && info.cardType != NoneType))
    }

    /** CMD0, CMD8 and the branch they lead to. */
    method Identify(watch: nat) returns (hung: bool, ghost late: bool)
      requires WF(link.slot.card.regs) && info.cardType == NoneType && !fast
      modifies link, link.slot, info`cardType
      ensures Identified(|old(link.issued)|, !hung)
      ensures link.Since(old(link.issued), old(link.log) + [B.Obtain, B.Deselect])
      ensures Stays(old(link.Now()), link.slot.card)
      ensures !hung && info.cardType != NoneType ==> link.slot.card.regs.preErase == 0
      ensures var r0, r := old(link.Now()), link.slot.card.regs;
              && Alike(r0, r)
              && (!hung ==> Matched())
              && (Prompt(r0) && !hung ==> info.cardType == Classified(r0))
              && (r0.prompt && r0.initTime < watch ==> !hung)
              && (!hung && late ==> info.cardType == NoneType)
    {
      ghost var r0 := link.Now();
      BlankKeeps(r0);
      ghost var i, l := link.issued, link.log + [B.Obtain, B.Deselect];
      hide Grown, Charting, EitherChart;
      hung, late := false, false;
      var res := Reset();
      ChartWider(link.issued, |old(link.issued)|, 0, {0}, Ends(false));
      if res == 1 {
        ghost var c, i1, l1 := link.slot.card, link.issued, link.log;
        AlikeCut(c.regs, c.phase);
        hung, late := Distinguish(watch, |old(link.issued)|);
        GrownTrans(i, l, i1, l1, link.issued, link.log);
        hide Quiet, CutBy, WF, SameCard;
        StaysTrans(r0, c, link.slot.card);
      }
    }

    /** CMD8 and the branch its answer leads to. */
    method Distinguish(watch: nat, ghost from: nat) returns (hung: bool, ghost late: bool)
      requires forall arg: nat :: Charting(link.issued, from, arg, {0})
      requires var r := link.slot.card.regs;
               WF(r) && !r.ready && (r.kind in {V2, HighCapacity} ==> r.blockLen == SECTOR)
      requires info.cardType == NoneType
      modifies link, link.slot, info`cardType
      ensures Identified(from, !hung)
      ensures link.Since(old(link.issued), old(link.log))
      ensures Stays(old(link.Now()), link.slot.card)
      ensures !hung && info.cardType != NoneType ==> link.slot.card.regs.preErase == 0
      ensures var r0, r := old(link.Now()), link.slot.card.regs;
              && Alike(r0, r)
              && (!hung ==> Matched())
              && (Prompt(r0) && !hung ==> info.cardType == Classified(r0))
              && (Prompt(r0) && r0.initPolls < watch ==> !hung)
              && (!hung && late ==> info.cardType == NoneType)
    {
      ghost var r0 := link.Now();
      ghost var i, l := link.issued, link.log;
      AlikeCut(link.slot.card.regs, link.slot.card.phase);
      hide Grown, Charting, EitherChart;
      hung, late := false, false;
      var known, echo := CheckCondition(from);
      ghost var c, i1, l1 := link.slot.card, link.issued, link.log;
      AlikeQuiet(r0, c.regs);
      AlikeCut(c.regs, c.phase);
      ChartWider(i1, from, 0, {8}, Ends(false));
      if known {
        if echo {
          hung, late := InitV2(watch, from);
          ghost var known := !hung && info.cardType != NoneType;
          ChartWider(link.issued, from, 0x4000_0000, if known then {58} else {55, 41, 1, 58}, Ends(known));
          GrownTrans(i, l, i1, l1, link.issued, link.log);
          StaysTrans(r0, c, link.slot.card);
        }
      } else {
        hung, late := InitV1(watch, from);
        ghost var known := !hung && info.cardType != NoneType;
        ChartWider(link.issued, from, 0, if known then {16} else {55, 41, 1, 16}, Ends(known));
        GrownTrans(i, l, i1, l1, link.issued, link.log);
        StaysTrans(r0, c, link.slot.card);
      }
      hide Quiet, CutBy, WF, SameCard, Stays;
    }

    /** CMD8: whether the card knows it, and repeats its argument. */
    method CheckCondition(ghost from: nat) returns (known: bool, echo: bool)
      requires !link.slot.card.regs.ready && forall arg: nat :: Charting(link.issued, from, arg, {0})
      modifies link, link.slot
      ensures forall arg: nat :: Charting(link.issued, from, arg, {8})
      ensures link.Since(old(link.issued), old(link.log))
      ensures Stays(old(link.Now()), link.slot.card)
      ensures var r0, r := old(link.Now()), link.slot.card.regs;
              && r in {r0, Quiet(r0)}
              && (known ==> r0.kind in {V2, HighCapacity} && (echo <==> r0.voltageOk))
              && (Prompt(r0) ==> (known <==> r0.kind in {V2, HighCapacity}))
    {
      ghost var r0 := link.Now();
      hide Effect, R1, Next, Be32, Grown;
      var res;
      ghost var sent, ch;
      echo := false;
      ghost var i := link.issued;
      res, sent, ch := link.SendCmd(8, 0x1aa);
      hide Charted;
      forall arg: nat ensures Charting(link.issued, from, arg, {8}) {
        ChartNext(i, link.issued[|i|], from, arg, {0});
      }
      if sent { ConditionAnswer(r0, link.slot.card, res, ch); }
      known := res == 1;
      if known {
        var ocr := GetR7();
        Echo(r0.voltageOk);
        echo := ocr == 0x1aa;
      }
    }

    /** A register read with CMD9 or CMD10. */
    method ReadRegister(cmd: byte, ghost from: nat, ghost arg: nat) returns (err: int, buf: array<byte>)
      requires cmd in {9, 10} && WF(link.slot.card.regs)
      requires Charting(link.issued, from, arg, if cmd == 9 then {10} else {58, 16})
      modifies link, link.slot
      ensures Charting(link.issued, from, arg, {cmd})
      ensures link.Since(old(link.issued), old(link.log))
      ensures link.slot.card.regs in {old(link.Now()), Quiet(old(link.Now()))}
      ensures err == OK ==> link.slot.card.phase.Idle?
      ensures fresh(buf) && buf.Length == 16 && err in {OK, TIMEOUT, BAD_RESPONSE}
      ensures err == OK ==> buf[..] == if cmd == 9 then link.slot.card.regs.csd else link.slot.card.regs.cid
      ensures Prompt(link.slot.card.regs) && link.slot.card.regs.ready ==> err == OK
    {
      ghost var r := link.Now();
      ghost var data := if cmd == 9 then r.csd else r.cid;
      buf := new byte[16];
      hide Effect, R1, Next, DataBlock;
      var res;
      ghost var sent, ch, c;
      ghost var i := link.issued;
      res, sent, ch := link.SendCmd(cmd, 0);
      ChartNext(i, link.issued[|i|], from, arg, if cmd == 9 then {10} else {58, 16});
      hide Charted;
      if sent { RegisterAnswer(r, link.slot.card, cmd, res, ch); }
      if res == 0 {
        BlockQueued(r, data, ch, Idle(Busy(r, ch)));
        BlockRestParts(r, data, ch);
        hide Queued, BlockToken, BlockRest, Latency;
        err, c := link.ReadBlock(buf, 0, 16, Latency(r, ch), BlockToken(r, ch), BlockRest(r, data, ch));
      } else {
        err := BAD_RESPONSE;
      }
    }

    /**
     sd_open. A return of 0 means one of the three SD types, addressed as the card expects it,
     with equal read and write block lengths, and the size its CSD states. A prompt card is
     classified as section 7.2.1 prescribes, and not waited for in vain; one that is `late` counts as
     none. Without a size, sectors are taken to have 512 bytes.
     */
    method Open(watch: nat) returns (err: int, hung: bool, ghost late: bool)
      requires WF(link.slot.card.regs)
      modifies this, link, link.slot, info
      ensures var r0, r := old(link.Now()), link.slot.card.regs;
              && (Prompt(r0) && !hung ==> Prompt(r))
              && Alike(r0, r)
              && (!hung ==> Valid() && !link.busTaken && fast == (info.cardType != NoneType))
              && (!hung && err == OK ==> info.cardType in {SD1x, SD20, SDHC} && Sized(r0.csd))
              && (!hung && err != OK ==> err < 0 && info.blockSize == 9)
              && (!hung && (err !in {OK, UNSUPPORTED} || info.cardType == MMC) ==> info.totalSectors == 0)
              && (!hung && late ==> info.cardType == NoneType && err == NO_CARD)
              && (Prompt(r0) && !hung ==> info.cardType == Classified(r0) && err == Expected(r0))
              && (r0.prompt && r0.initTime < watch ==> !hung)
              && (!hung && info.cardType != NoneType ==> r.preErase == 0)
      ensures EitherChart(link.issued, |old(link.issued)|,
                          OpenEnds(!hung && err in {OK, UNSUPPORTED}))
      ensures old(link.issued) <= link.issued
      ensures link.log + (if hung then [B.Deselect, B.Release] else [])
              == old(link.log) + B.SdCall(true, Readies(link.issued[|old(link.issued)|..]))
    {
      fast := false;
      info.cardType := NoneType;
      info.totalSectors := 0;
      info.blockSize := 9;
      err := OK;
      ghost var r0 := link.Now();
      ghost var i, l := link.issued, link.log;
      hung, late := Identify(watch);
      GrownPrefix(i, l + [B.Obtain, B.Deselect], link.issued, link.log);
      OpenLog(i, l, link.issued, link.log);
      hide Grown, Sized, Expected, Classified, EitherChart, Stays, Alike, SameCard, WF, Ends, OpenEnds;
      if hung {
        EitherWider(link.issued, |i|, Ends(false), OpenEnds(false));
        return;
      }
      ghost var c, i1, l1 := link.slot.card, link.issued, link.log;
      AlikeAfter(r0, c);
      SameExpected(r0, CutBy(c.regs, c.phase));
      err := Settle(|i|);
      ghost var d := link.slot.card;
      GrownTrans(i, l + [B.Obtain, B.Deselect], i1, l1, link.issued, link.log);
      StaysTrans(r0, c, d);
      AlikeTrans(r0, CutBy(c.regs, c.phase), d.regs);
      AlikeAfter(r0, d);
      OpenLog(i, l, link.issued, link.log);
      link.Deselect();
    }

    /** The end of sd_open: a card with a type is described, at slow speed, and fast from then on. */
    method Settle(ghost from: nat) returns (err: int)
      requires WF(link.slot.card.regs) && Matched() && !fast
      requires EitherChart(link.issued, from, Ends(info.cardType != NoneType))
      modifies this`fast, link, link.slot, info`totalSectors, info`blockSize
      ensures EitherChart(link.issued, from, OpenEnds(err in {OK, UNSUPPORTED}))
      ensures link.Since(old(link.issued), old(link.log))
      ensures old(link.slot.card.regs.preErase) == 0 ==> link.slot.card.regs.preErase == 0
      ensures Stays(old(link.Now()), link.slot.card) || info.cardType == NoneType
      ensures info.cardType == NoneType ==> link.slot.card == old(link.slot.card)
      ensures var r0, r := old(link.Now()), link.slot.card.regs;
              && Alike(r0, r) && r.ready == r0.ready && r.blockLen == r0.blockLen && err <= OK
              && fast == (info.cardType != NoneType)
              && (err == OK ==> info.cardType !in {NoneType, MMC} && Sized(r0.csd))
              && (err != OK ==> info.blockSize == old(info.blockSize))
              && (err !in {OK, UNSUPPORTED} || info.cardType == MMC ==> info.totalSectors == old(info.totalSectors))
              && (info.cardType == NoneType ==> err == NO_CARD)
              && (Prompt(r0) && info.cardType == Classified(r0) ==> err == Expected(r0))
    {
      ghost var i, l := link.issued, link.log;
      AlikeCut(link.slot.card.regs, link.slot.card.phase);
      hide Grown, Sized, ReadLen, WriteLen, Charting, Stays;
      if info.cardType != NoneType {
        ghost var arg := ChartArg(link.issued, from, {58, 16});
        err := Describe(from, arg);
        ghost var done := err in {OK, UNSUPPORTED};
        ChartWider(link.issued, from, arg, if done then {9} else {10, 9}, OpenEnds(done));
        fast := true;
      } else {
        EitherWider(link.issued, from, Ends(false), OpenEnds(false));
        GrownSame(i, l);
        err := NO_CARD;
      }
    }

    /** The CSD of the card has been decoded into the card information. */
    ghost predicate Sized(csd: seq<byte>)
      reads this, info
      requires |csd| == 16
    {
      && info.blockSize == ReadLen(csd) == WriteLen(csd)
      && (info.cardType in {SD1x, SD20} ==> info.totalSectors == (Units1(csd) + 1) * Power2(Multiplier(csd) + 2))
      && (info.cardType == SDHC ==> info.totalSectors == Shl(Units2(csd) % 0x1_0000 + 1, 19 - ReadLen(csd)))
    }

    /** The CID and CSD registers are read, and the CSD parsed. */
    method Describe(ghost from: nat, ghost arg: nat) returns (err: int)
      requires Charting(link.issued, from, arg, {58, 16})
      requires WF(link.slot.card.regs) && Matched() && info.cardType != NoneType
      modifies link, link.slot, info`totalSectors, info`blockSize
      ensures Charting(link.issued, from, arg, if err in {OK, UNSUPPORTED} then {9} else {10, 9})
      ensures link.Since(old(link.issued), old(link.log))
      ensures old(link.slot.card.regs.preErase) == 0 ==> link.slot.card.regs.preErase == 0
      ensures Stays(old(link.Now()), link.slot.card)
      ensures var r0, r := old(link.Now()), link.slot.card.regs;
              && Alike(r0, r) && r.ready == r0.ready && r.blockLen == r0.blockLen && err <= OK
              && (err == OK ==> info.cardType != MMC && Sized(r0.csd))
              && (err != OK ==> info.blockSize == old(info.blockSize))
              && (err !in {OK, UNSUPPORTED} || info.cardType == MMC ==> info.totalSectors == old(info.totalSectors))
              && (Prompt(r0) ==>
                    err == if info.cardType != MMC && ReadLen(r0.csd) == WriteLen(r0.csd) then OK else UNSUPPORTED)
    {
      ghost var r0 := link.Now();
      ghost var i, l := link.issued, link.log;
      hide ReadLen, WriteLen, Units1, Units2, Multiplier, Grown, Charting;
      var resp;
      err, resp := ReadRegister(10, from, arg);
      if err != OK { ChartWider(link.issued, from, arg, {10}, {10, 9}); }
      if err == OK {
        ghost var i1, l1 := link.issued, link.log;
        err, resp := ReadRegister(9, from, arg);
        ChartWider(link.issued, from, arg, {9}, {10, 9});
        GrownTrans(i, l, i1, l1, link.issued, link.log);
      }
      if err == OK {
        assert resp[..] == r0.csd;
        err := ParseWords(resp, r0);
      }
    }

    /** sd_parse_csd on the four words of the buffer. */
    method ParseWords(resp: array<byte>, ghost r: Regs) returns (err: int)
      requires resp.Length == 16 && resp[..] == r.csd
      modifies info`totalSectors, info`blockSize
      ensures err == OK || err == UNSUPPORTED
      ensures err == OK <==> info.cardType in {SD1x, SD20, SDHC} && ReadLen(r.csd) == WriteLen(r.csd)
      ensures err == OK ==> Sized(r.csd)
      ensures err != OK ==> info.blockSize == old(info.blockSize)
      ensures info.cardType == MMC ==> info.totalSectors == old(info.totalSectors)
    {
      hide ReadBlLen, WriteBlLen, CSize1, CSize2, CSizeMult, Power2, Shl, Register, Be32;
      hide ReadLen, WriteLen, Units1, Units2, Multiplier;
      var w0, w1 := BigEndian(resp[0], resp[1], resp[2], resp[3]), BigEndian(resp[4], resp[5], resp[6], resp[7]);
      var w2, w3 := BigEndian(resp[8], resp[9], resp[10], resp[11]), BigEndian(resp[12], resp[13], resp[14], resp[15]);
      assert Register(w0, w1, w2, w3) == CsdOf(resp[..]);
      hide CsdOf, BigEndian;
      err := info.ParseCsd(w0, w1, w2, w3);
      NamedFields(r.csd);
    }
  }

  lemma FetchedStart(m: seq<byte>, a: nat, b: seq<byte>)
    ensures Fetched(m, a, b, b, 0)
  {
  }

  lemma StreamIsStream(r: Regs, a: nat, ch: Choice)
    ensures StreamFrom(r, a, ch).Stream?
  {
  }
}
