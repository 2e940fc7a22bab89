/** The message port, the card state and the task of sspisd.device. */
module SdDevice {
  import opened Words
  import opened ExecList
  import opened SdCard
  import opened SdCsd
  import opened SdLink
  import opened SdDriver
  import opened SdTheorems

  datatype Command = GetGeometry | Format | CmdWrite | CmdRead

  datatype Error = NoError | DiskChanged | NotSpecified | NoCommand

  datatype Geometry = Geometry(sectorSize: nat, totalSectors: nat)

  /** An IOStdReq with the memory its io_Data points to. */
  datatype Request = Request(
    command: Command, offset: ulong, length: ulong, data: seq<byte>, geometry: Geometry, actual: nat, error: Error)

  /**
   What clients, interrupt and task share. `put` and `replied` record what went through the port,
   `hand` what the task has taken from it, and `raised` how often a card change was signalled.
   */
  datatype Port = Port(
    requests: map<Ptr, Request>,
    queue: seq<Ptr>,
    opSignal: bool,
    changeSignal: bool,
    put: seq<Ptr>,
    hand: seq<Ptr>,
    replied: seq<Ptr>,
    raised: nat)

  predicate Pending(p: Port, r: Ptr) {
    r in p.queue || r in p.hand
  }

  /** Every request put is replied, in hand or queued, in that order and exactly once. */
  ghost predicate Accounted(p: Port) {
    && p.put == p.replied + p.hand + p.queue && Distinct(p.hand + p.queue)
    && (forall r :: Pending(p, r) ==> r in p.requests && Fits(p.requests[r]))
  }

  /** io_Length is the length of the buffer, or less. */
  predicate Fits(r: Request) {
    r.command.GetGeometry? || r.length <= |r.data|
  }

  /** A queued request will be noticed. */
  ghost predicate Noticed(p: Port) {
    p.queue != [] ==> p.opSignal
  }

  datatype Event = Prepare(p: Ptr, r: Request) | PutMsg(p: Ptr) | CardChange

  /** begin_io for the commands that the task carries out. PutMsg queues and signals at once. */
  function PutRequest(p: Port, r: Ptr): Port
    requires r in p.requests
  {
    p.(requests := p.requests[r := p.requests[r].(actual := 0, error := NoError)],
       queue := p.queue + [r], put := p.put + [r], opSignal := true)
  }

  function React(p: Port, e: Event): Port {
    match e
    case Prepare(r, q) => if Pending(p, r) then p else p.(requests := p.requests[r := q])
    case PutMsg(r) => if Pending(p, r) || r !in p.requests || !Fits(p.requests[r]) then p else PutRequest(p, r)
    case CardChange => p.(changeSignal := true, raised := p.raised + 1)
  }

  /** What the task can rely on while the others run. */
  ghost predicate Passed(p: Port, q: Port) {
    && q.hand == p.hand && q.replied == p.replied && p.put <= q.put && p.queue <= q.queue
    && (forall r :: r in p.hand && r in p.requests ==> r in q.requests && q.requests[r] == p.requests[r])
    && (p.opSignal ==> q.opSignal) && (p.changeSignal ==> q.changeSignal)
    && p.raised <= q.raised && (q.changeSignal ==> p.changeSignal || p.raised < q.raised)
    && (Noticed(p) ==> Noticed(q))
  }

  lemma PutKeeps(p: Port, r: Ptr)
    requires Accounted(p) && !Pending(p, r) && r in p.requests && Fits(p.requests[r])
    ensures Accounted(PutRequest(p, r)) && Passed(p, PutRequest(p, r))
  {
    var q := PutRequest(p, r);
    assert q.hand + q.queue == (p.hand + p.queue) + [r];
    AppendMembers(p.hand + p.queue, r);
    assert q.put == q.replied + q.hand + q.queue;
    hide Distinct;
  }

  lemma ReactKeeps(p: Port, e: Event)
    requires Accounted(p)
    ensures Accounted(React(p, e)) && Passed(p, React(p, e))
  {
    match e
    case PutMsg(r) =>
      if !Pending(p, r) && r in p.requests && Fits(p.requests[r]) { PutKeeps(p, r); }
      hide PutRequest, Accounted, Fits;
    case _ => hide Fits, Distinct;
  }

  lemma PassedTrans(p: Port, q: Port, r: Port)
    requires Passed(p, q) && Passed(q, r)
    ensures Passed(p, r)
  {
  }

  lemma PassedReplied(p: Port, q: Port)
    requires Passed(p, q)
    ensures q.replied == p.replied && q.hand == p.hand
  {
  }

  lemma PassedChange(p: Port, q: Port)
    requires Passed(p, q)
    ensures p.changeSignal ==> q.changeSignal
    ensures p.raised <= q.raised && (q.changeSignal ==> p.changeSignal || p.raised < q.raised)
  {
  }

  lemma PassedSame(p: Port)
    ensures Passed(p, p)
  {
  }

  lemma TakeKeeps(p: Port)
    requires Accounted(p) && p.queue != [] && p.hand == []
    ensures var q := p.(queue := p.queue[1..], hand := [p.queue[0]]);
            Accounted(q) && q.hand[0] in q.requests && Fits(q.requests[q.hand[0]])
  {
    var q := p.(queue := p.queue[1..], hand := [p.queue[0]]);
    assert [] + p.queue == p.queue && q.hand + q.queue == p.queue;
    assert q.put == q.replied + q.hand + q.queue;
    hide Distinct, Fits;
  }

  lemma ReplyKeeps(p: Port, r: Request)
    requires Accounted(p) && |p.hand| == 1
    ensures var q := p.(requests := p.requests[p.hand[0] := r], hand := [], replied := p.replied + p.hand);
            Accounted(q) && (Noticed(p) ==> Noticed(q))
  {
    var q := p.(requests := p.requests[p.hand[0] := r], hand := [], replied := p.replied + p.hand);
    assert q.put == q.replied + q.hand + q.queue;
    assert p.hand == [p.hand[0]] && q.hand + q.queue == p.queue;
    TailDistinct(p.hand[0], p.queue);
    hide Fits, Distinct;
  }

  lemma TailDistinct(x: Ptr, s: seq<Ptr>)
    requires Distinct([x] + s)
    ensures Distinct(s) && x !in s
  {
    var all := [x] + s;
    forall i, j | 0 <= i < j < |s| ensures s[i] != s[j] {
      assert all[i + 1] == s[i] && all[j + 1] == s[j];
    }
    forall y | y in s ensures y != x {
      var i :| 0 <= i < |s| && s[i] == y;
      assert all[i + 1] == y && all[0] == x;
    }
  }

  lemma ChangeKeeps(p: Port, op: bool, change: bool)
    requires Accounted(p)
    ensures Accounted(p.(opSignal := op, changeSignal := change))
  {
    hide Distinct, Fits;
  }

  lemma AllReplied(p: Port)
    requires Accounted(p) && p.hand == []
    ensures p.put == p.replied + p.queue
  {
    assert p.replied + [] == p.replied;
  }

  /** Where the sector of a byte offset begins. */
  function Start(offset: ulong): nat {
    offset - offset % 512
  }

  /** The device addresses sectors below 2^23, so byte addresses never wrap; it reaches 4 GB. */
  lemma AddressExact(t: CardType, offset: ulong)
    ensures offset / 512 < 0x80_0000
    ensures FirstByte(t, offset / 512) == Start(offset)
  {
    ByteAddressIff(t, offset / 512);
  }

  /**
   What is transferred stays within io_Length exactly if that is at least a sector. Below it the
   sector count is 0, which the driver's loops take for 2^32.
   */
  lemma WithinLengthIff(length: ulong)
    ensures 512 * Blocks(length / 512) <= length <==> length >= 512
    ensures length >= 512 ==> 512 * Blocks(length / 512) == length - length % 512
    ensures length < 512 ==> Blocks(length / 512) == 0x1_0000_0000
  {
  }

  /** The sector and the count that the shifts give. */
  predicate Promised(s: State, r: Request) {
    Promising(s, r.offset / 512, r.length / 512)
  }

  /** io_Actual and io_Error say whether all of the transfer was made, as it is with a prompt card that has it all. */
  ghost predicate Told(at: State, r: Request, s: Request, k: nat) {
    var n := Blocks(r.length / 512);
    && k <= n && (Promised(at, r) ==> s.error == NoError)
    && if k == n && s.error == NoError then s.actual == r.length else s.error == NotSpecified && s.actual == r.actual
  }

  /**
   The reply to a read: the first `k` sectors are in the buffer, all of them if there is no error.
   Behind the buffer lies `x0` before and `x1` afterwards.
   */
  ghost predicate ReadReply(at: State, r: Request, s: Request, k: nat, x0: seq<byte>, x1: seq<byte>) {
    && s == r.(data := s.data, actual := s.actual, error := s.error) && |s.data| == |r.data| && |x1| == |x0|
    && (r.length >= 512 ==> x0 == [])
    && Told(at, r, s, k) && Fetched(at.regs.mem, Start(r.offset), r.data + x0, s.data + x1, k)
  }

  /** The reply to a write: `k` sectors landed on the card. */
  ghost predicate WriteReply(at: State, m: seq<byte>, r: Request, s: Request, k: nat, x0: seq<byte>) {
    && s == r.(actual := s.actual, error := s.error)
    && (r.length >= 512 ==> x0 == [])
    && Told(at, r, s, k)
    && Landed(at.regs.mem, m, Start(r.offset), r.data + x0, k, Reach(r.length / 512, at.regs))
  }

  /**
   The size of the card as the bytes of its CSD state it: sectors of two to the READ_BL_LEN bytes, and as
   many as make up the capacity, that of a high-capacity card if it has less than 2^16 units.
   */
  ghost predicate Measured(at: State, g: Geometry)
    requires |at.regs.csd| == 16
  {
    var b := at.regs.csd;
    && g.sectorSize == Power2(ReadLen(b))
    && (at.t in {SD1x, SD20} ==>
          && g.totalSectors == (Units1(b) + 1) * Power2(Multiplier(b) + 2)
          && g.sectorSize * g.totalSectors == Capacity1(CsdOf(b)))
    && (at.t == SDHC && ReadLen(b) == 9 ==>
          && g.totalSectors == (Units2(b) % 0x1_0000 + 1) * 1024
          && (g.sectorSize * g.totalSectors == Capacity2(CsdOf(b)) <==> Units2(b) < 0x1_0000))
  }

  /** A request that was replied: as it came and as it went, and the card before and after. */
  datatype Record = Record(
    p: Ptr, r: Request, s: Request, present: bool, isOpen: bool, at: State, mem: seq<byte>,
    k: nat, x0: seq<byte>, x1: seq<byte>)

  /** How a request is answered, by the state of the card. */
  ghost predicate Served(x: Record) {
    if !x.present then x.s == x.r.(error := DiskChanged) && x.mem == x.at.regs.mem
    else if !x.isOpen then x.s == x.r.(error := NotSpecified) && x.mem == x.at.regs.mem
    else match x.r.command
      case GetGeometry =>
        && x.s == x.r.(geometry := x.s.geometry, error := NoError) && x.mem == x.at.regs.mem
        && |x.at.regs.csd| == 16 && Measured(x.at, x.s.geometry)
      case CmdRead => x.mem == x.at.regs.mem && ReadReply(x.at, x.r, x.s, x.k, x.x0, x.x1)
      case _ => WriteReply(x.at, x.mem, x.r, x.s, x.k, x.x0)
  }

  /** Every reply is on record, in order and rightly answered, each on the card as the one before left it. */
  ghost predicate Recorded(log: seq<Record>, replied: seq<Ptr>) {
    && |log| == |replied|
    && (forall n :: 0 <= n < |log| ==> log[n].p == replied[n] && Served(log[n]))
    && (forall n :: 0 < n < |log| ==> log[n - 1].mem == log[n].at.regs.mem)
  }

  /** The card holds what the last request left there. */
  ghost predicate UpToDate(log: seq<Record>, m: seq<byte>) {
    log != [] ==> log[|log| - 1].mem == m
  }

  /** A transfer that begins on the card and runs off its end: the card is then cut off. */
  predicate Breaks(x: Record) {
    && x.present && x.isOpen && !x.r.command.GetGeometry?
    && CutOff(x.r.length / 512, Start(x.r.offset), |x.at.regs.mem|)
  }

  predicate Unbroken(log: seq<Record>, m: nat, n: nat)
    requires n <= |log|
  {
    forall i :: m <= i < n ==> !Breaks(log[i])
  }

  /** The card was prompt, in its place if it `was` before, and opened exactly if `fit` to be. */
  predicate Followed(x: Record, was: bool, fit: bool) {
    Prompt(x.at.regs) && (was ==> x.present) && (x.present ==> (x.isOpen <==> fit))
  }

  /** So it is with each record from `from` on, up to one that breaks off a transfer. */
  ghost predicate AllFollowed(log: seq<Record>, from: nat, was: bool, fit: bool) {
    from <= |log| && forall n :: from <= n < |log| && Unbroken(log, from, n) ==> Followed(log[n], was, fit)
  }

  lemma FollowedNext(log: seq<Record>, x: Record, from: nat, was: bool, fit: bool)
    requires AllFollowed(log, from, was, fit) && (Unbroken(log, from, |log|) ==> Followed(x, was, fit))
    ensures AllFollowed(log + [x], from, was, fit)
    ensures Unbroken(log + [x], from, |log| + 1) ==> Unbroken(log, from, |log|) && !Breaks(x)
  {
    hide Followed, Breaks;
    var log' := log + [x];
    forall n | from <= n <= |log| && Unbroken(log', from, n) ensures Followed(log'[n], was, fit) {
      assert Unbroken(log, from, n) by {
        forall i | from <= i < n ensures !Breaks(log[i]) { assert log'[i] == log[i]; }
      }
    }
    if Unbroken(log', from, |log| + 1) {
      assert !Breaks(log'[|log|]);
      forall i | from <= i < |log| ensures !Breaks(log[i]) { assert !Breaks(log'[i]); }
    }
  }

  /** Each request from record `from` on was answered with the card known to be in its place. */
  predicate AllPresent(log: seq<Record>, from: nat) {
    forall n :: from <= n < |log| ==> log[n].present
  }

  lemma RecordNext(log: seq<Record>, replied: seq<Ptr>, x: Record)
    requires Recorded(log, replied) && Served(x) && UpToDate(log, x.at.regs.mem)
    ensures Recorded(log + [x], replied + [x.p]) && UpToDate(log + [x], x.mem)
  {
    hide Served;
  }

  class Device {
    const sd: Sd
    var port: Port
    var cardPresent: bool
    var cardOpened: bool
    var changeNum: nat
    ghost var log: seq<Record>

    constructor (d: Sd, present: bool)
      requires d.Valid()
      ensures sd == d && Valid() && AtRest() && cardPresent == present && !cardOpened && changeNum == 0 && log == []
      ensures port == Port(map[], [], false, false, [], [], [], 0)
    {
      sd, cardPresent, cardOpened, changeNum, log := d, present, false, 0, [];
      port := Port(map[], [], false, false, [], [], [], 0);
    }

    ghost predicate Valid()
      reads this, sd, sd.link, sd.link.slot, sd.info
    {
      Sound() && UpToDate(log, sd.link.slot.card.regs.mem) && Counted(changeNum)
    }

    /** Each of `n` changes, and of those still to be noticed, was signalled. */
    ghost predicate Counted(n: nat)
      reads this
    {
      n + (if port.changeSignal then 1 else 0) <= port.raised
    }

    /** `card_opened` means one of the three SD types with the size of its CSD. */
    ghost predicate Sound()
      reads this, sd, sd.link, sd.link.slot, sd.info
    {
      && Accounted(port) && sd.Valid() && Recorded(log, port.replied)
      && (cardOpened ==> sd.info.cardType in {SD1x, SD20, SDHC} && sd.Sized(sd.link.slot.card.regs.csd))
    }

    ghost predicate AtRest()
      reads this
    {
      port.hand == [] && Noticed(port)
    }

    /** Clients and the card-change interrupt run. */
    method Clients()
      requires Sound()
      modifies this`port
      ensures Sound() && Passed(old(port), port) && forall n :: old(Counted(n)) ==> Counted(n)
    {
      var events: seq<Event> := *;
      hide Accounted, Passed, React, Recorded;
      PassedSame(port);
      for n := 0 to |events|
        invariant Sound() && Passed(old(port), port)
      {
        ReactKeeps(port, events[n]);
        PassedTrans(old(port), port, React(port, events[n]));
        PassedReplied(port, React(port, events[n]));
        port := React(port, events[n]);
      }
      PassedChange(old(port), port);
    }

    /** begin_io for a request of one of the four commands that the task carries out. */
    method BeginIo(r: Ptr)
      requires Valid() && r in port.requests && !Pending(port, r) && Fits(port.requests[r])
      modifies this`port
      ensures Valid()
      ensures var q := old(port).requests[r].(actual := 0, error := NoError);
              port == old(port).(requests := old(port).requests[r := q], queue := old(port).queue + [r],
                                 put := old(port).put + [r], opSignal := true)
    {
      PutKeeps(port, r);
      hide Accounted, Fits;
      port := PutRequest(port, r);
    }

    /** The card is prompt, in its place if it `was` before, and opened exactly if `fit` to be. */
    ghost predicate Known(was: bool, fit: bool)
      reads this, sd, sd.link, sd.link.slot
    {
      var r := sd.link.slot.card.regs;
      && |r.csd| == 16 && Prompt(r) && (fit <==> Expected(r) == OK)
      && (was ==> cardPresent) && (cardPresent ==> (cardOpened <==> fit))
    }

    /** As it is now, unless a transfer has been broken off since record `from`. */
    ghost predicate Follows(from: nat, was: bool, fit: bool)
      reads this, sd, sd.link, sd.link.slot
    {
      AllFollowed(log, from, was, fit) && (Unbroken(log, from, |log|) ==> Known(was, fit))
    }

    /** The card initialises itself within the polls watched. */
    ghost predicate Quick(watch: nat)
      reads sd, sd.link, sd.link.slot
    {
      sd.link.slot.card.regs.prompt && sd.link.slot.card.regs.initTime < watch
    }

    /** The state of the card after sd_open. */
    method Reopen(watch: nat) returns (err: int, hung: bool)
      requires Valid()
      modifies this`cardOpened, sd, sd.link, sd.link.slot, sd.info
      ensures !hung ==> Valid() && (cardOpened <==> err == OK)
      ensures old(Quick(watch)) ==> !hung && Quick(watch)
      ensures Prompt(old(sd.link.slot.card.regs)) && !hung ==>
                && err == Expected(old(sd.link.slot.card.regs)) == Expected(sd.link.slot.card.regs)
                && Prompt(sd.link.slot.card.regs)
    {
      ghost var r0 := sd.link.slot.card.regs;
      hide Accounted, Expected, Classified, Recorded;
      ghost var late;
      err, hung, late := sd.Open(watch);
      SameExpected(r0, sd.link.slot.card.regs);
      if !hung { cardOpened := err == 0; }
    }

    /** handle_changed: debounces, opens the card and counts the change. */
    method HandleChanged(watch: nat) returns (hung: bool)
      requires Valid() && Counted(changeNum + 1)
      modifies this`port, this`cardPresent, this`cardOpened, this`changeNum, sd, sd.link, sd.link.slot, sd.info
      ensures Passed(old(port), port)
      ensures !hung ==> Valid() && cardPresent && changeNum == old(changeNum) + 1
      ensures old(Quick(watch)) ==> !hung && Quick(watch)
      ensures Prompt(old(sd.link.slot.card.regs)) && !hung ==>
                (cardOpened <==> Expected(old(sd.link.slot.card.regs)) == OK)
      ensures forall was, fit :: old(Known(was, fit)) && !hung ==> Known(was, fit)
    {
      hide Accounted, Expected, Recorded, UpToDate;
      Clients();
      var err;
      err, hung := Reopen(watch);
      if hung { return; }
      cardPresent := true;
      changeNum := changeNum + 1;
    }

    /** device_get_geometry: for an opened card, its size by the CSD; for none, what was there before. */
    method DeviceGetGeometry(was: Geometry) returns (g: Geometry, error: Error)
      requires Valid()
      ensures error == DiskChanged ==> g == was
      ensures sd.info.cardType == NoneType <==> error == DiskChanged
      ensures error == DiskChanged || error == NoError
      ensures cardOpened ==> error == NoError && Measured(StateOf(sd), g)
    {
      hide Accounted, Recorded, UpToDate, Capacity1, Capacity2, Shl, ReadLen, WriteLen, Units1, Units2, Multiplier,
        CsdOf;
      g := was;
      if sd.info.cardType == NoneType {
        return g, DiskChanged;
      }
      g := Geometry(Power2(sd.info.blockSize), sd.info.totalSectors);
      error := NoError;
      if cardOpened {
        SizeOf(sd.link.slot.card.regs.csd, sd.info.cardType, sd.info.blockSize, sd.info.totalSectors);
      }
    }

    /** The memory a request's io_Data points to, `n` bytes of it at least. */
    method Memory(data: seq<byte>, n: nat) returns (buf: array<byte>)
      ensures fresh(buf) && |data| <= buf.Length && n <= buf.Length && (n <= |data| ==> buf.Length == |data|)
      ensures buf[..] == data + buf[|data|..]
    {
      buf := new byte[if n <= |data| then |data| else n];
      forall i | 0 <= i < |data| { buf[i] := data[i]; }
    }

    /** A card that was prompt has been cut off exactly by a transfer that runs off its end. */
    ghost predicate Whole(r0: Regs, r: Request)
      reads sd, sd.link, sd.link.slot
    {
      Prompt(r0) ==> (sd.link.slot.card.regs.cut <==> CutOff(r.length / 512, Start(r.offset), |r0.mem|))
    }

    /** CMD_READ. */
    method ReadSectors(r: Request) returns (s: Request, ghost k: nat, ghost x0: seq<byte>, ghost x1: seq<byte>)
      requires Valid() && cardOpened && Fits(r) && !r.command.GetGeometry?
      modifies sd.link, sd.link.slot
      ensures Valid() && Kept(old(sd.link.slot.card.regs), sd.link.slot.card.regs)
      ensures sd.link.slot.card.regs.mem == old(sd.link.slot.card.regs.mem)
      ensures ReadReply(old(StateOf(sd)), r, s, k, x0, x1)
      ensures Whole(old(sd.link.slot.card.regs), r)
    {
      hide Accounted, Recorded, Fetched, Blocks, FirstByte, Start, WF, Power2, ReadLen, WriteLen, Units1, Units2,
        Multiplier, CutOff;
      WithinLengthIff(r.length);
      var buf := Memory(r.data, 512 * Blocks(r.length / 512));
      AddressExact(sd.info.cardType, r.offset);
      var sector, count := r.offset / 512, r.length / 512;
      x0 := buf[|r.data|..];
      var err;
      err, k := sd.Read(buf, sector, count);
      x1 := buf[|r.data|..];
      assert buf[..] == buf[..|r.data|] + x1;
      s := r.(data := buf[..|r.data|]);
      s := if err == 0 then s.(actual := r.length, error := NoError) else s.(error := NotSpecified);
    }

    /** CMD_WRITE and TD_FORMAT. */
    method WriteSectors(r: Request) returns (s: Request, ghost k: nat, ghost x0: seq<byte>)
      requires Valid() && cardOpened && Fits(r) && !r.command.GetGeometry?
      modifies sd.link, sd.link.slot
      ensures Sound() && Kept(old(sd.link.slot.card.regs), sd.link.slot.card.regs)
      ensures WriteReply(old(StateOf(sd)), sd.link.slot.card.regs.mem, r, s, k, x0)
      ensures Whole(old(sd.link.slot.card.regs), r)
    {
      hide Accounted, Recorded, Landed, Blocks, FirstByte, Start, WF, Reach, Power2, ReadLen, WriteLen, Units1, Units2,
        Multiplier, CutOff;
      WithinLengthIff(r.length);
      var buf := Memory(r.data, 512 * Blocks(r.length / 512));
      AddressExact(sd.info.cardType, r.offset);
      var sector, count := r.offset / 512, r.length / 512;
      x0 := buf[|r.data|..];
      var reply;
      reply, k := CallWrite(sd, buf, sector, count);
      s := if reply.err == 0 then r.(actual := r.length, error := NoError) else r.(error := NotSpecified);
    }

    /** ReplyMsg for the request in hand, which goes on record. */
    method Reply(s: Request, ghost x: Record)
      requires Sound() && Counted(changeNum) && |port.hand| == 1 && x.p == port.hand[0] && x.s == s && Served(x)
      requires UpToDate(log, x.at.regs.mem) && x.mem == sd.link.slot.card.regs.mem
      modifies this`port, this`log
      ensures Valid() && port.hand == [] && port.replied == old(port).replied + old(port).hand && log == old(log) + [x]
      ensures x.p in port.requests && port.requests[x.p] == s && port.put == old(port).put
      ensures port.changeSignal == old(port).changeSignal && forall n :: old(Counted(n)) ==> Counted(n)
      ensures Noticed(old(port)) ==> Noticed(port)
    {
      ReplyKeeps(port, s);
      RecordNext(log, port.replied, x);
      assert port.hand == [x.p];
      hide Accounted, Recorded, UpToDate, Served;
      port := port.(requests := port.requests[port.hand[0] := s], hand := [], replied := port.replied + port.hand);
      log := log + [x];
    }

    /** process_request: the request in hand is answered and replied, whatever else is going on. */
    method ProcessRequest()
      requires Valid() && |port.hand| == 1 && port.hand[0] in port.requests && Fits(port.requests[port.hand[0]])
      modifies this`port, this`log, sd.link, sd.link.slot
      ensures Valid() && port.hand == [] && port.replied == old(port).replied + old(port).hand
      ensures Kept(old(sd.link.slot.card.regs), sd.link.slot.card.regs)
      ensures old(port).put <= port.put && log == old(log) + [log[|old(log)|]]
      ensures var x, p := log[|old(log)|], old(port).hand[0];
              && x.p == p && x.r == old(port).requests[p] && p in port.requests && x.s == port.requests[p]
              && x.present == cardPresent && x.isOpen == cardOpened
              && x.at == old(StateOf(sd)) && x.mem == sd.link.slot.card.regs.mem && Served(x)
              && (Prompt(x.at.regs) ==> (Prompt(sd.link.slot.card.regs) <==> !Breaks(x)))
      ensures old(port).changeSignal ==> port.changeSignal
    {
      hide Accounted, Recorded, UpToDate, Served, Noticed, Breaks;
      var r := port.requests[port.hand[0]];
      var s;
      ghost var x;
      s, x := Carry(r, port.hand[0]);
      Clients();
      Reply(s, x);
    }

    /** The switch of process_request. */
    method Carry(r: Request, p: Ptr) returns (s: Request, ghost x: Record)
      requires Valid() && Fits(r)
      modifies sd.link, sd.link.slot
      ensures Sound() && Served(x) && x.p == p && x.r == r && x.s == s && x.present == cardPresent
      ensures x.isOpen == cardOpened
      ensures x.at == old(StateOf(sd)) && x.mem == sd.link.slot.card.regs.mem
      ensures Kept(old(sd.link.slot.card.regs), sd.link.slot.card.regs)
      ensures Prompt(x.at.regs) ==> (Prompt(sd.link.slot.card.regs) <==> !Breaks(x))
    {
      hide Accounted, Recorded, UpToDate, ReadReply, WriteReply, Measured, CutOff;
      ghost var at := StateOf(sd);
      ghost var k, x0, x1 := 0, [], [];
      if !cardPresent {
        s := r.(error := DiskChanged);
      } else if !cardOpened {
        s := r.(error := NotSpecified);
      } else {
        match r.command
        case GetGeometry =>
          var g, error := DeviceGetGeometry(r.geometry);
          s := r.(geometry := g, error := error);
        case CmdRead =>
          s, k, x0, x1 := ReadSectors(r);
        case _ =>
          s, k, x0 := WriteSectors(r);
      }
      x := Record(p, r, s, cardPresent, cardOpened, at, sd.link.slot.card.regs.mem, k, x0, x1);
    }

    /** GetMsg. */
    method GetMsg() returns (found: bool)
      requires Valid() && port.hand == []
      modifies this`port
      ensures Valid() && port.replied == old(port).replied && port.put == old(port).put
      ensures port.changeSignal == old(port).changeSignal
      ensures !found ==> AtRest() && port.queue == []
      ensures found ==> old(port).queue != [] && port.hand == [old(port).queue[0]]
                        && port.hand[0] in port.requests && Fits(port.requests[port.hand[0]])
    {
      found := port.queue != [];
      if found {
        TakeKeeps(port);
        hide Accounted, Fits, Recorded, UpToDate;
        port := port.(queue := port.queue[1..], hand := [port.queue[0]]);
      }
    }

    /** A card change noticed between two requests is handled first, the next request being in hand. */
    method CheckChange(first: bool, watch: nat) returns (hung: bool)
      requires Valid() && |port.hand| == 1 && port.hand[0] in port.requests
      modifies this`port, this`cardPresent, this`cardOpened, this`changeNum, sd, sd.link, sd.link.slot, sd.info
      ensures !hung ==> Valid()
      ensures port.hand == old(port).hand && port.replied == old(port).replied && old(port).put <= port.put
      ensures port.hand[0] in port.requests && port.requests[port.hand[0]] == old(port).requests[port.hand[0]]
      ensures !hung ==> changeNum == old(changeNum) + if !first && old(port).changeSignal then 1 else 0
      ensures first || !old(port).changeSignal ==> port == old(port)
      ensures old(cardPresent) && !hung ==> cardPresent
      ensures old(Quick(watch)) ==> !hung && Quick(watch)
      ensures log == old(log) && forall was, fit :: old(Known(was, fit)) && !hung ==> Known(was, fit)
    {
      hide Accounted, Recorded, UpToDate;
      hung := false;
      if !first && port.changeSignal {
        ChangeKeeps(port, port.opSignal, false);
        port := port.(changeSignal := false);
        hung := HandleChanged(watch);
      }
    }

    /**
     One round of the loop: the oldest request is answered, if there is one. Between two requests a
     card change that was signalled is handled.
     */
    method Round(first: bool, watch: nat) returns (found: bool, hung: bool)
      requires Valid() && port.hand == []
      modifies this, sd, sd.link, sd.link.slot, sd.info
      ensures !hung ==> Valid() && port.hand == []
      ensures Recorded(log, port.replied) && old(log) <= log && old(port).put <= port.put
      ensures !hung ==> |log| == |old(log)| + (if found then 1 else 0) && changeNum >= old(changeNum)
      ensures old(Quick(watch)) ==> !hung && Quick(watch)
      ensures !hung && !found ==> AtRest() && port.queue == []
      ensures !hung && old(port).changeSignal ==>
                changeNum > old(changeNum) || (port.changeSignal && (first || !found))
      ensures old(cardPresent) && !hung ==> cardPresent && AllPresent(log, |old(log)|)
      ensures forall from, was, fit :: old(Follows(from, was, fit)) && !hung ==> Follows(from, was, fit)
    {
      hide Accounted, Noticed, Fits, UpToDate, Served;
      hung := false;
      Clients();
      found := GetMsg();
      if found {
        hung := CheckChange(first, watch);
        if hung { return; }
        hide Recorded;
        ghost var l := log;
        label Before:
        ProcessRequest();
        ghost var x := log[|l|];
        SameExpected(x.at.regs, sd.link.slot.card.regs);
        hide Expected, Breaks, Unbroken, AllFollowed;
        forall from, was, fit | old(Follows(from, was, fit)) ensures Follows(from, was, fit) {
          assert Unbroken(l, from, |l|) ==> old@Before(Known(was, fit));
          FollowedNext(l, x, from, was, fit);
        }
      }
    }

    /**
     The loop over the port, watched for `watch` requests: either every request put so far has been
     answered and later ones will be noticed, or so many have been answered. A card change signalled
     before is handled with the second of them at the latest, and otherwise still signalled.
     */
    method Drain(watch: nat) returns (running: bool, hung: bool)
      requires Valid() && port.hand == []
      modifies this, sd, sd.link, sd.link.slot, sd.info
      ensures !hung ==> Valid() && port.hand == []
      ensures Recorded(log, port.replied) && old(log) <= log
      ensures !hung && !running ==> AtRest() && old(port).put <= port.replied
      ensures !hung && running ==> |log| == |old(log)| + watch
      ensures !hung ==> changeNum >= old(changeNum)
      ensures !hung && old(port).changeSignal ==>
                changeNum > old(changeNum) || (port.changeSignal && |log| < |old(log)| + 2)
      ensures old(cardPresent) && !hung ==> cardPresent && AllPresent(log, |old(log)|)
      ensures old(Quick(watch)) ==> !hung && Quick(watch)
      ensures forall from, was, fit :: old(Follows(from, was, fit)) && !hung ==> Follows(from, was, fit)
    {
      hide Accounted, Noticed, Fits, Recorded, UpToDate;
      running, hung := true, false;
      var first, n := true, 0;
      while running && n < watch
        invariant Valid() && port.hand == [] && !hung && old(log) <= log && old(port).put <= port.put
        invariant old(Quick(watch)) ==> Quick(watch)
        invariant changeNum >= old(changeNum) && first == (n == 0)
        invariant old(port).changeSignal ==> changeNum > old(changeNum) || (port.changeSignal && |log| < |old(log)| + 2)
        invariant n == 0 ==> |log| == |old(log)|
        invariant old(cardPresent) ==> cardPresent && AllPresent(log, |old(log)|)
        invariant forall from, was, fit :: old(Follows(from, was, fit)) ==> Follows(from, was, fit)
        invariant n <= watch && (running ==> |log| == |old(log)| + n)
        invariant !running ==> AtRest() && port.queue == []
        decreases watch - n
      {
        running, hung := Round(first, watch);
        if hung { return; }
        first := false;
        n := n + 1;
      }
      if !running { AllReplied(port); }
    }

    /** Wait: the signals received are cleared. */
    method Wait() returns (change: bool, op: bool)
      requires Valid() && AtRest()
      modifies this`port
      ensures Valid() && port.hand == [] && port.replied == old(port).replied && old(port).put <= port.put
      ensures !op ==> AtRest() && port.queue == []
      ensures old(port).changeSignal ==> change
      ensures !port.changeSignal && !port.opSignal && Counted(changeNum + if change then 1 else 0)
    {
      hide Accounted, Recorded, UpToDate;
      Clients();
      change, op := port.changeSignal, port.opSignal;
      ChangeKeeps(port, false, false);
      port := port.(changeSignal := false, opSignal := false);
    }

    /**
     One turn of task_run: every request put before it is answered, unless the task is still at
     work, having answered `watch` of them, or sd_open is waiting for a card that does not answer.
     A card change signalled before it has been handled, before any of them. Asleep, no request
     waits; every later one will be noticed.
     */
    method Turn(watch: nat) returns (asleep: bool, running: bool, hung: bool)
      requires Valid() && AtRest()
      modifies this, sd, sd.link, sd.link.slot, sd.info
      ensures !hung ==> Valid() && port.hand == []
      ensures Recorded(log, port.replied) && old(log) <= log
      ensures !hung && !running ==> AtRest() && old(port).put <= port.replied
      ensures !hung && running ==> |log| == |old(log)| + watch
      ensures asleep ==> !hung && !running && AtRest() && port.queue == []
      ensures !hung ==> changeNum >= old(changeNum) && (old(port).changeSignal ==> changeNum > old(changeNum))
      ensures !hung && old(port).changeSignal ==> AllPresent(log, |old(log)|)
      ensures old(Quick(watch)) ==> !hung && Quick(watch)
      ensures forall from, was, fit :: old(Follows(from, was, fit)) && !hung ==> Follows(from, was, fit)
    {
      hide Accounted, Recorded, UpToDate;
      running, hung := false, false;
      var change, op := Wait();
      asleep := !change && !op;
      if !op { AllReplied(port); }
      if change {
        hung := HandleChanged(watch);
        if hung { return; }
      }
      if op {
        running, hung := Drain(watch);
      }
    }

    /**
     Any number of turns. Requests are replied in the order they were put, each once and with its
     answer, which the log has, on the card as the request before it left it. After a turn, all
     that had been put before it have been replied. A card that was prompt counts as opened exactly
     if it can be, from the first reply on and until a transfer is broken off. No more changes are
     counted than were signalled.
     */
    method Task(turns: nat, watch: nat) returns (running: bool, hung: bool)
      requires Valid() && AtRest() && !cardOpened
      modifies this, sd, sd.link, sd.link.slot, sd.info
      ensures Recorded(log, port.replied) && old(log) <= log
      ensures !hung ==> Valid() && port.put == port.replied + port.hand + port.queue && port.hand == []
      ensures !hung && !running ==> AtRest() && (turns > 0 ==> old(port).put <= port.replied)
      ensures !hung && running ==> |log| >= |old(log)| + watch
      ensures old(Quick(watch)) ==> !hung
      ensures !hung ==> changeNum <= port.raised
      ensures Prompt(old(sd.link.slot.card.regs)) && !hung ==>
                AllFollowed(log, |old(log)|, old(cardPresent), Expected(old(sd.link.slot.card.regs)) == OK)
    {
      ghost var from, was, fit := |log|, cardPresent, Expected(sd.link.slot.card.regs) == OK;
      ghost var prompt := Prompt(sd.link.slot.card.regs);
      hide Accounted, Expected, Classified, Noticed, Recorded, UpToDate;
      running, hung := false, false;
      var err := 0;
      if cardPresent {
        err, hung := Reopen(watch);
        if hung { return; }
      }
      for n := 0 to turns
        invariant Valid() && AtRest() && !running && !hung && old(log) <= log
        invariant old(Quick(watch)) ==> Quick(watch)
        invariant if n == 0 then port == old(port) else old(port).put <= port.replied
        invariant prompt ==> Follows(from, was, fit)
      {
        AllReplied(port);
        var asleep;
        asleep, running, hung := Turn(watch);
        if hung || running { break; }
      }
      if !hung { InOrder(port); }
    }
  }

  lemma InOrder(p: Port)
    requires Accounted(p)
    ensures p.put == p.replied + p.hand + p.queue
  {
  }

  /** What the driver has decoded is the size that the CSD states. */
  lemma SizeOf(b: seq<byte>, t: CardType, blockSize: nat, totalSectors: nat)
    requires |b| == 16 && blockSize == ReadLen(b)
    requires t in {SD1x, SD20} ==> totalSectors == (Units1(b) + 1) * Power2(Multiplier(b) + 2)
    requires t == SDHC ==> totalSectors == Shl(Units2(b) % 0x1_0000 + 1, 19 - ReadLen(b))
    ensures t in {SD1x, SD20} ==> Power2(blockSize) * totalSectors == Capacity1(CsdOf(b))
    ensures t == SDHC && ReadLen(b) == 9 ==>
              && totalSectors == (Units2(b) % 0x1_0000 + 1) * 1024
              && (Power2(blockSize) * totalSectors == Capacity2(CsdOf(b)) <==> Units2(b) < 0x1_0000)
  {
    NamedFields(b);
    var csd := CsdOf(b);
    hide CsdOf, ReadBlLen, CSize1, CSize2, CSizeMult, Shl, Capacity1, Capacity2, Power2, ReadLen, Units1, Units2;
    if t in {SD1x, SD20} { StandardCapacity(csd); }
    if t == SDHC && ReadLen(b) == 9 {
      HighCapacityIff(csd);
      LowUnits(Units2(b) % 0x1_0000);
    }
  }

  lemma LowUnits(n: nat)
    requires n < 0x1_0000
    ensures Shl(n + 1, 10) == (n + 1) * 1024
  {
    Shift10();
  }
}
