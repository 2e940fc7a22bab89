/** The handler task of sspinet.device, on top of the ENC28J60 driver. */
module NetDevice {
  import opened Words
  import Enc28j60Chip
  import Enc28j60Driver
  import Enc28j60Ring
  import Enc28j60Wire
  import opened ExecList
  import opened NetQueue
  import opened NetClient

  /** The frame built from a write request: as it is, or behind an Ethernet header. */
  function Assembled(mac: seq<byte>, r: Request): seq<byte>
    requires Sendable(r)
  {
    if r.raw then r.data[..r.length]
    else r.dst + mac + [Hi(r.packetType), Lo(r.packetType)] + r.data[..r.length]
  }

  /** The type field of a received frame. */
  function TypeOf(f: seq<byte>): nat
    requires |f| >= HEADER
  {
    Word(f[13], f[12])
  }

  /** What a reader is given of a frame. */
  function Delivered(f: seq<byte>, raw: bool): seq<byte>
    requires |f| >= HEADER
  {
    if raw then f else f[HEADER..]
  }

  /** A read request as it is replied. */
  function Completed(r: Request, f: seq<byte>): Request
    requires |f| >= HEADER
  {
    r.(length := |Delivered(f, r.raw)|, data := Delivered(f, r.raw), dst := f[..6], src := f[6..12],
       packetType := TypeOf(f), broadcast := f[..6] == BROADCAST, quick := false, error := NoError)
  }

  /** Where the parts of a frame sent stand: destination, source, type with its high byte first, data. */
  lemma AssembledBytes(mac: seq<byte>, r: Request)
    requires Sendable(r) && |mac| == 6 && !r.raw
    ensures var f := Assembled(mac, r);
            && |f| == 14 + r.length && f[12] as int * 256 + f[13] == r.packetType % 0x10000
            && (forall k :: 0 <= k < 6 ==> f[k] == r.dst[k] && f[6 + k] == mac[k])
            && (forall k :: 0 <= k < r.length ==> f[14 + k] == r.data[k])
  {
    WordRoundTrip(r.packetType % 0x10000);
    hide Lo, Hi;
    assert Lo(r.packetType) == Lo(r.packetType % 0x10000) && Hi(r.packetType) == Hi(r.packetType % 0x10000) by {
      SameLowWord(r.packetType);
    }
  }

  lemma SameLowWord(n: nat)
    ensures Lo(n) == Lo(n % 0x10000) && Hi(n) == Hi(n % 0x10000)
  {
    var q, w := n / 0x10000, n % 0x10000;
    assert n == 256 * (256 * q + w / 256) + w % 256;
    assert n / 256 == 256 * q + w / 256;
  }

  /** Where the parts of a frame received are looked for. */
  lemma CompletedBytes(q: Request, f: seq<byte>)
    requires |f| >= HEADER
    ensures var d := Completed(q, f);
            && d.packetType == f[12] as int * 256 + f[13] && |d.dst| == 6 && |d.src| == 6 && d.length == |d.data|
            && (forall k :: 0 <= k < 6 ==> d.dst[k] == f[k] && d.src[k] == f[6 + k])
            && (d.broadcast <==> forall k :: 0 <= k < 6 ==> f[k] == 0xff)
            && (if q.raw then d.data == f
                else d.length == |f| - 14 && forall k :: 0 <= k < d.length ==> d.data[k] == f[14 + k])
  {
    assert f[..6] == BROADCAST <==> forall k :: 0 <= k < 6 ==> f[k] == BROADCAST[k];
  }

  /** A reader gets from a frame what its writer put in: type, addresses and data. */
  lemma SentIsReceived(mac: seq<byte>, r: Request, q: Request)
    requires Sendable(r) && |mac| == 6 && !r.raw
    ensures var d := Completed(q, Assembled(mac, r));
            && d.packetType == r.packetType % 0x10000 && d.dst == r.dst && d.src == mac
            && (d.broadcast <==> r.dst == BROADCAST)
            && d.data == if q.raw then Assembled(mac, r) else r.data[..r.length]
  {
    AssembledBytes(mac, r);
    CompletedBytes(q, Assembled(mac, r));
    hide Completed, Assembled;
    var d := Completed(q, Assembled(mac, r));
    assert d.dst == r.dst && d.src == mac;
    assert r.dst == BROADCAST <==> forall k :: 0 <= k < 6 ==> r.dst[k] == BROADCAST[k];
  }

  /** The length of the frame nic_send is given: every accepted request fits the frame buffer. */
  lemma AssembledLength(mac: seq<byte>, r: Request)
    requires Sendable(r) && |mac| == 6
    ensures |Assembled(mac, r)| == (if r.raw then r.length else r.length + HEADER) <= MTU + HEADER
  {
  }

  /**
   The control byte goes to 0x1a00 and the frame behind it, so the data of every accepted request
   ends by 0x1ffc; the chip's seven status bytes then fit below 0x2000 exactly for frames of at
   most 1528 bytes.
   */
  lemma AcceptedFrameFits(mac: seq<byte>, r: Request)
    requires Sendable(r) && |mac| == 6
    ensures var n := |Assembled(mac, r)|;
            && 0x1a00 + n <= 0x1ffc
            && (0x1a00 + n + 7 <= 0x1fff <==> r.length <= if r.raw then 1528 else 1514)
  {
  }

  /** One byte more of data is accepted by begin_io all the same. */
  lemma StatusVectorCanOverflow(data: seq<byte>, mac: seq<byte>)
    requires |data| == 1515 && |mac| == 6
    ensures var r := Request(0x0800, false, false, false, true, 1515, data, mac, mac, NoError);
            Sendable(r) && 0x1a00 + |Assembled(mac, r)| + 7 == 0x2000
  {
  }

  // ---- What the handler leaves behind -----------------------------------------------------------

  /** Every completed read was given a frame of its type, whole or without its header. */
  ghost predicate Genuine(served: seq<Service>, arrived: seq<seq<byte>>) {
    forall k :: 0 <= k < |served| ==>
      served[k].frame < |arrived|
      && var f := arrived[served[k].frame];
         |f| >= HEADER && served[k].packetType == TypeOf(f) && served[k].payload == Delivered(f, served[k].raw)
  }

  /** The frames sent are those of the writes taken, in the order these were queued, as begin_io let them through. */
  ghost predicate SentAre(mac: seq<byte>, sent: seq<seq<byte>>, taken: seq<nat>, posted: seq<Request>) {
    |sent| <= |taken| && forall k :: 0 <= k < |sent| ==>
      taken[k] < |posted| && Sendable(posted[taken[k]]) && sent[k] == Assembled(mac, posted[taken[k]])
  }

  /** Records grow. */
  ghost predicate Onward(b: Book, e: Book) {
    && b.posted <= e.posted && b.dropped <= e.dropped && b.taken <= e.taken
    && b.served <= e.served && b.arrived <= e.arrived
  }

  /** All writes queued when the record was `b` are settled. */
  ghost predicate AllDone(b: Book, e: Book) {
    forall n :: 0 <= n < |b.posted| ==> Settled(e, n)
  }

  lemma OnwardTrans(b: Book, e: Book, f: Book)
    requires Onward(b, e) && Onward(e, f)
    ensures Onward(b, f)
    ensures AllDone(b, e) || AllDone(e, f) ==> AllDone(b, f)
  {
    assert forall n :: Settled(e, n) ==> Settled(f, n);
  }

  lemma PassedOnward(c: Ctx, b: Book, d: Ctx, e: Book)
    requires Passed(c, b, d, e)
    ensures Onward(b, e) && e.taken == b.taken && e.hand == b.hand && e.draining == b.draining
    ensures e.arrived == b.arrived && e.served == b.served
  {
  }

  lemma SentStill(mac: seq<byte>, sent: seq<seq<byte>>, taken: seq<nat>, posted: seq<Request>, taken': seq<nat>,
          posted': seq<Request>)
    requires SentAre(mac, sent, taken, posted) && taken <= taken' && posted <= posted'
    ensures SentAre(mac, sent, taken', posted')
  {
    hide Sendable, Assembled;
  }

  lemma SentNext(mac: seq<byte>, sent: seq<seq<byte>>, taken: seq<nat>, posted: seq<Request>, r: Request)
    requires SentAre(mac, sent, taken, posted) && |taken| == |sent| + 1 && taken[|sent|] < |posted|
    requires Sendable(r) && SameButQuick(posted[taken[|sent|]], r)
    ensures Sendable(posted[taken[|sent|]]) && Assembled(mac, posted[taken[|sent|]]) == Assembled(mac, r)
    ensures SentAre(mac, sent + [Assembled(mac, r)], taken, posted)
  {
  }

  /** Request `p` is in the handler's hands; it is the latest write taken, number `n`. */
  ghost predicate AsPosted(c: Ctx, b: Book, p: Ptr, n: nat) {
    && b.hand == {p} && p in c.requests && Sendable(c.requests[p])
    && |b.taken| > 0 && b.taken[|b.taken| - 1] == n < |b.posted| && SameButQuick(b.posted[n], c.requests[p])
  }

  /**
   From `c` to `d` the first reader of type `t` was taken off the list, and the queues of other types are as
   before.
   */
  ghost predicate FirstFor(c: Ctx, d: Ctx, t: nat, p: Ptr) {
    && (forall q :: q in c.readList ==> q in c.requests) && (forall q :: q in d.readList ==> q in d.requests)
    && d == c.(readList := d.readList) && p in d.requests
    && OfType(c.requests, c.readList, t) == [p] + OfType(d.requests, d.readList, t)
    && (forall u :: u != t ==> OfType(d.requests, d.readList, u) == OfType(c.requests, c.readList, u))
  }

  /** Nobody waits for a frame of type `t`. */
  ghost predicate NoneFor(c: Ctx, t: nat) {
    (forall q :: q in c.readList ==> q in c.requests) && OfType(c.requests, c.readList, t) == []
  }

  /** The record of reads served once the latest frame has gone to `p`. */
  function ServedNext(b: Book, p: Ptr, t: nat, raw: bool, payload: seq<byte>): seq<Service>
    requires b.arrived != []
  {
    b.served + [Service(Count(b.serial, p), t, |b.arrived| - 1, raw, payload)]
  }

  ghost predicate OnlyServed(b: Book, e: Book, p: Ptr, t: nat, raw: bool, payload: seq<byte>) {
    b.arrived != [] && e == b.(hand := {p}, served := ServedNext(b, p, t, raw, payload))
  }

  lemma EmptyConsistent()
    ensures var c := Ctx(map[], [], [], false, false);
            var b := Book({}, {}, {}, {}, false, map[], map[], map[], 0, [], [], [], map[], [], {});
            Consistent(c, b) && Genuine([], [])
  {
  }

  lemma GenuineServe(c: Ctx, b: Book, i: nat, f: seq<byte>)
    requires Genuine(b.served, b.arrived) && b.arrived != [] && b.arrived[|b.arrived| - 1] == f && |f| >= HEADER
    requires i < |c.readList| && c.readList[i] in c.requests
    ensures var raw := c.requests[c.readList[i]].raw;
            Genuine(Serve(c, b, i, TypeOf(f), Delivered(f, raw)).1.served, b.arrived)
  {
    hide TypeOf, Delivered;
  }

  lemma GenuineArrival(b: Book, f: seq<byte>)
    requires Genuine(b.served, b.arrived)
    ensures Genuine(b.served, b.arrived + [f])
  {
    hide TypeOf, Delivered;
  }

  class Device {
    const nic: Enc28j60Driver.Nic
    var ctx: Ctx
    var book: Book
    const frame: array<byte>
    const mac: seq<byte>
    var interval: nat
    /** A frame over 1528 bytes has been sent: from then on nothing is assumed of the chip. */
    var overrun: bool
    ghost var sent: seq<seq<byte>>
    ghost var earlier: seq<seq<byte>>      // frames received before the chip was last set up
    ghost var before: seq<seq<byte>>       // frames sent before then
    ghost var rxTurns: nat
    ghost var keptAlive: nat

    constructor (n: Enc28j60Driver.Nic, address: seq<byte>)
      requires |address| == 6 && n.Valid() && n.results == [] && n.wire.chip.sent == []
      ensures Valid() && AtRest() && fresh(frame) && mac == address && nic == n && !overrun && sent == []
    {
      EmptyConsistent();
      hide Consistent, Genuine;
      nic := n;
      ctx := Ctx(map[], [], [], false, false);
      book := Book({}, {}, {}, {}, false, map[], map[], map[], 0, [], [], [], map[], [], {});
      frame := new byte[MTU + HEADER];
      mac, interval, overrun, sent, earlier, before, rxTurns, keptAlive := address, 0, false, [], [], [], 0, 0;
    }

    ghost predicate Valid()
      reads this, nic, nic.wire
    {
      && Consistent(ctx, book) && frame.Length == MTU + HEADER && |mac| == 6
      && interval == rxTurns % 64 && keptAlive == rxTurns / 64 && FromChip() && Genuine(book.served, book.arrived)
      && SentAre(mac, sent, book.taken, book.posted)
    }

    /** The frames received are those the driver took off the chip, those sent are the ones it finished, in order. */
    ghost predicate FromChip()
      reads this, nic, nic.wire
    {
      !overrun ==> nic.Valid() && book.arrived == earlier + nic.results && sent == before + OnWire()
    }

    /** The packets whose transmission the chip has finished since it was set up. */
    ghost function OnWire(): seq<seq<byte>>
      reads nic, nic.wire
    {
      Enc28j60Chip.Packets(nic.wire.chip.sent)
    }

    /** The handler holds no request, and what it has taken it has sent. */
    ghost predicate Empty()
      reads this
    {
      book.hand == {} && |sent| == |book.taken|
    }

    /** Nor is it at work on the write list. */
    ghost predicate AtRest()
      reads this
    {
      Empty() && !book.draining
    }

    /** One step of a client or of the interrupt server. */
    method ClientStep(e: Event)
      requires Valid()
      modifies this`ctx, this`book
      ensures Valid() && Passed(old(ctx), old(book), ctx, book)
    {
      ReactKeeps(ctx, book, e);
      hide Consistent, Genuine, React, SentAre;
      var next := React(ctx, book, e);
      PassedOnward(ctx, book, next.0, next.1);
      SentStill(mac, sent, book.taken, book.posted, next.1.taken, next.1.posted);
      ctx, book := next.0, next.1;
    }

    /** The clients and the interrupt server run. */
    method Clients()
      requires Valid()
      modifies this`ctx, this`book
      ensures Valid() && Passed(old(ctx), old(book), ctx, book) && Onward(old(book), book)
      ensures book.taken == old(book).taken && book.draining == old(book).draining && book.hand == old(book).hand
      ensures book.arrived == old(book).arrived && book.served == old(book).served
    {
      var events: seq<Event> := *;
      hide Consistent, Genuine, Passed, SentAre, Onward;
      PassedSame(ctx, book);
      for n := 0 to |events|
        invariant Valid() && Passed(old(ctx), old(book), ctx, book)
      {
        ghost var c, b := ctx, book;
        ClientStep(events[n]);
        PassedTrans(old(ctx), old(book), c, b, ctx, book);
      }
      PassedOnward(old(ctx), old(book), ctx, book);
    }

    // ---- Sending -------------------------------------------------------------------------------

    /** RemHead on the write list, in its semaphore. */
    method RemHead() returns (found: bool, p: Ptr, ghost n: nat)
      requires Valid() && Empty() && book.draining
      modifies this`ctx, this`book
      ensures Valid() && (ctx, book) == TakeHead(old(ctx), old(book)) && Onward(old(book), book)
      ensures !found ==> old(ctx).writeList == [] && AtRest() && AllDone(old(book), book)
      ensures found ==> old(ctx).writeList != [] && p == old(ctx).writeList[0] && AsPosted(ctx, book, p, n)
                        && book.draining && book.taken == old(book).taken + [n]
    {
      hide Consistent, Genuine, SentAre, Sendable, Onward, AllDone, SameButQuick;
      found := ctx.writeList != [];
      TakeHeadKeeps(ctx, book);
      HeadTaken(ctx, book);
      p, n := 0, 0;
      if found { p, n := ctx.writeList[0], book.place[ctx.writeList[0]]; }
      var next := TakeHead(ctx, book);
      SentStill(mac, sent, book.taken, book.posted, next.1.taken, next.1.posted);
      ctx, book := next.0, next.1;
    }

    /** The client's copy function, from its data into the frame. */
    method CopyFrom(off: nat, data: seq<byte>)
      requires off + |data| <= frame.Length
      modifies frame
      ensures frame[..] == old(frame[..off]) + data + old(frame[off + |data|..])
    {
      forall i | 0 <= i < |data| { frame[off + i] := data[i]; }
    }

    /** Assembles a packet in the frame buffer. */
    method Assemble(r: Request) returns (n: nat)
      requires Sendable(r) && frame.Length == MTU + HEADER && |mac| == 6
      modifies frame
      ensures n == |Assembled(mac, r)| && n <= frame.Length && frame[..n] == Assembled(mac, r)
    {
      AssembledLength(mac, r);
      if r.raw {
        CopyFrom(0, r.data[..r.length]);
        n := r.length;
      } else {
        frame[12], frame[13] := Hi(r.packetType), Lo(r.packetType);
        CopyFrom(6, mac);
        CopyFrom(0, r.dst);
        assert frame[..14] == r.dst + mac + [Hi(r.packetType), Lo(r.packetType)];
        CopyFrom(14, r.data[..r.length]);
        n := r.length + HEADER;
        assert frame[..n] == frame[..14] + r.data[..r.length];
      }
    }

    /** ReplyMsg for the request in the handler's hands. */
    method Reply(p: Ptr, r: Request)
      requires Valid() && book.hand == {p} && p in ctx.requests
      modifies this`ctx, this`book
      ensures Valid() && book.hand == {} && (ctx, book) == Answer(old(ctx), old(book), p, r)
      ensures p in ctx.requests && ctx.requests[p] == r && !InDevice(ctx, book, p)
      ensures Count(book.submitted, p) == Count(book.answered, p)
    {
      AnswerKeeps(ctx, book, p, r);
      hide Consistent, Genuine, InDevice, Count, Bump, SentAre;
      var next := Answer(ctx, book, p, r);
      ctx, book := next.0, next.1;
    }

    /** Nothing was received since the driver had taken so many frames of at least so many accepted. */
    ghost predicate Pending(taken: nat, accepted: nat)
      reads this, nic, nic.wire
    {
      !overrun ==> nic.taken == taken && |nic.wire.chip.accepted| >= accepted
    }

    /** nic_send. */
    method NicSend(n: nat)
      requires n <= frame.Length == MTU + HEADER && FromChip()
      modifies this`sent, this`overrun, nic, nic.wire
      ensures FromChip() && sent == old(sent) + [frame[..n]] && overrun == (old(overrun) || n > 1528)
      ensures !old(overrun) ==> OnWire() == old(OnWire()) + [frame[..n]]
      ensures Pending(old(nic.taken), old(|nic.wire.chip.accepted|))
    {
      sent := sent + [frame[..n]];
      if !overrun {
        var r, t := nic.Send(frame[..n]);
        overrun := n > 1528;
      }
    }

    /** The request taken goes out as begin_io let it through, byte for byte on the wire. */
    method SendTaken(p: Ptr, ghost n: nat)
      requires Valid() && AsPosted(ctx, book, p, n) && |book.taken| == |sent| + 1
      modifies this`sent, this`overrun, frame, nic, nic.wire
      ensures Valid() && Sendable(book.posted[n]) && sent == old(sent) + [Assembled(mac, book.posted[n])]
      ensures overrun == (old(overrun) || |Assembled(mac, book.posted[n])| > 1528)
      ensures !old(overrun) ==> OnWire() == old(OnWire()) + [Assembled(mac, book.posted[n])]
      ensures Pending(old(nic.taken), old(|nic.wire.chip.accepted|))
    {
      hide Consistent, Genuine, Sendable, Assembled, SentAre, SameButQuick;
      var r := ctx.requests[p];
      var length := Assemble(r);
      SentNext(mac, sent, book.taken, book.posted, r);
      NicSend(length);
    }

    /** A write taken is sent and replied, while others run. */
    method SendAndReply(p: Ptr, ghost n: nat)
      requires Valid() && AsPosted(ctx, book, p, n) && |book.taken| == |sent| + 1
      modifies this`ctx, this`book, this`sent, this`overrun, frame, nic, nic.wire
      ensures Valid() && Empty() && Onward(old(book), book) && book.taken == old(book).taken
      ensures book.draining == old(book).draining
      ensures n < |book.posted| && Sendable(book.posted[n]) && sent == old(sent) + [Assembled(mac, book.posted[n])]
      ensures overrun == (old(overrun) || |Assembled(mac, book.posted[n])| > 1528)
      ensures !old(overrun) ==> OnWire() == old(OnWire()) + [Assembled(mac, book.posted[n])]
      ensures Pending(old(nic.taken), old(|nic.wire.chip.accepted|))
    {
      hide Consistent, Genuine, Sendable, Assembled, SentAre, Passed, Count, InDevice, SameButQuick;
      ghost var c, b := ctx, book;
      Clients();
      AsPostedStill(c, b, ctx, book, p, n);
      SendTaken(p, n);
      c, b := ctx, book;
      Clients();
      AsPostedStill(c, b, ctx, book, p, n);
      Reply(p, ctx.requests[p].(error := NoError));
    }

    /**
     One round of the send loop: the write at the head of the list, if there is one, is sent as
     begin_io let it through and replied once; if there is none, every write queued is settled.
     */
    method SendNext() returns (more: bool, ghost n: nat)
      requires Valid() && Empty() && book.draining
      modifies this`ctx, this`book, this`sent, this`overrun, frame, nic, nic.wire
      ensures Valid() && Empty() && Onward(old(book), book)
      ensures !more ==> AtRest() && AllDone(old(book), book)
                        && sent == old(sent) && overrun == old(overrun) && nic.wire.chip == old(nic.wire.chip)
      ensures more ==>
                && book.draining && book.taken == old(book).taken + [n] && n < |book.posted| && Sendable(book.posted[n])
                && sent == old(sent) + [Assembled(mac, book.posted[n])]
                && overrun == (old(overrun) || |Assembled(mac, book.posted[n])| > 1528)
                && (!old(overrun) ==> OnWire() == old(OnWire()) + [Assembled(mac, book.posted[n])])
      ensures Pending(old(nic.taken), old(|nic.wire.chip.accepted|))
    {
      hide Consistent, Genuine, Sendable, Assembled, SentAre, Onward, AllDone, TakeHead, Passed, AsPosted;
      ghost var b0 := book;
      Clients();
      ghost var b1 := book;
      var p;
      more, p, n := RemHead();
      ghost var b2 := book;
      OnwardTrans(b0, b1, b2);
      if more {
        SendAndReply(p, n);
        OnwardTrans(b0, b2, book);
      }
    }

    /**
     The send loop, watched for `watch` rounds: either every write queued so far is settled, or so
     many have been sent.
     */
    method Drain(watch: nat) returns (running: bool)
      requires Valid() && Empty() && book.draining
      modifies this`ctx, this`book, this`sent, this`overrun, frame, nic, nic.wire
      ensures Valid() && Empty() && Onward(old(book), book) && old(sent) <= sent
      ensures !running ==> AtRest() && AllDone(old(book), book)
      ensures running ==> |sent| == |old(sent)| + watch
      ensures Pending(old(nic.taken), old(|nic.wire.chip.accepted|))
    {
      hide Consistent, Genuine, Sendable, Assembled, SentAre, Onward, AllDone;
      running := true;
      var n := 0;
      OnwardSame(book);
      while running && n < watch
        invariant Valid() && Empty() && Onward(old(book), book) && old(sent) <= sent
        invariant n <= watch && (running ==> book.draining && |sent| == |old(sent)| + n)
        invariant Pending(old(nic.taken), old(|nic.wire.chip.accepted|)) && (old(overrun) ==> overrun)
        invariant !running ==> AtRest() && AllDone(old(book), book)
        decreases watch - n
      {
        ghost var at, b := 0, book;
        running, at := SendNext();
        OnwardTrans(old(book), b, book);
        n := n + 1;
      }
    }

    // ---- Receiving -------------------------------------------------------------------------------

    /** nic_recv: a frame, at least as long as its header, or -1. */
    method NicRecv() returns (len: int)
      requires Valid() && AtRest()
      modifies this`book, frame, nic, nic.wire
      ensures Valid() && AtRest() && -1 <= len <= MTU
      ensures len < 0 ==> book == old(book)
      ensures len >= 0 ==> HEADER <= len && Unserved(book)
                           && book == old(book).(arrived := old(book).arrived + [frame[..len]])
      ensures Taking(old(nic.taken), old(|nic.wire.chip.accepted| > nic.taken)) && SameSetup(old(nic.setups))
    {
      hide Consistent, Genuine, Unserved, SentAre;
      len := FromNic();
      if len >= 0 {
        ArrivalKeeps(ctx, book, frame[..len]);
        GenuineArrival(book, frame[..len]);
        book := book.(arrived := book.arrived + [frame[..len]]);
      }
    }

    /** The driver, which had taken so many frames, has taken no fewer, and one more if one was waiting. */
    ghost predicate Taking(taken: nat, waiting: bool)
      reads this, nic
    {
      !overrun ==> nic.taken >= taken && (waiting ==> nic.taken > taken)
    }

    ghost predicate SameSetup(setups: nat)
      reads this, nic
    {
      !overrun ==> nic.setups == setups
    }

    /** The frame comes from the chip; after an overrun it can be anything. */
    method FromNic() returns (len: int)
      requires frame.Length == MTU + HEADER && FromChip()
      modifies frame, nic, nic.wire
      ensures -1 <= len <= MTU && (len >= 0 ==> HEADER <= len)
      ensures !overrun ==>
                nic.Valid() && OnWire() == old(OnWire())
                && nic.results == if len < 0 then old(nic.results) else old(nic.results) + [frame[..len]]
      ensures Taking(old(nic.taken), old(|nic.wire.chip.accepted| > nic.taken)) && SameSetup(old(nic.setups))
    {
      if !overrun {
        len := nic.Recv(frame, MTU);
      } else {
        len := *;
        if len < HEADER || len > MTU { len := -1; }
        var f: seq<byte> := *;
        if |f| <= frame.Length { CopyFrom(0, f); }
      }
    }

    /** The search of the read list, in its semaphore: the first request of the frame's type is taken. */
    method Match(t: nat, f: seq<byte>) returns (found: bool, p: Ptr)
      requires Valid() && AtRest() && Unserved(book) && |f| >= HEADER && t == TypeOf(f)
      requires book.arrived[|book.arrived| - 1] == f
      modifies this`ctx, this`book
      ensures Valid() && |sent| == |book.taken| && !book.draining
      ensures !found ==> ctx == old(ctx) && book == old(book) && NoneFor(ctx, t)
      ensures found ==> FirstFor(old(ctx), ctx, t, p) && book.hand == {p}
                        && OnlyServed(old(book), book, p, t, ctx.requests[p].raw, Delivered(f, ctx.requests[p].raw))
    {
      ReadsKnown(ctx, book);
      hide Consistent, Genuine, OfType, RemoveAt, FirstOf, Delivered, Unserved, SentAre, FirstFor, NoneFor;
      var i := FindFirst(t);
      p := 0;
      found := i < |ctx.readList|;
      if found {
        p := ctx.readList[i];
        Remove(i, t, f);
      } else {
        ServedNone(ctx, i, t);
      }
    }

    /** Remove. */
    method Remove(i: nat, t: nat, f: seq<byte>)
      requires Valid() && AtRest() && Unserved(book) && |f| >= HEADER && t == TypeOf(f)
      requires book.arrived[|book.arrived| - 1] == f
      requires (forall p :: p in ctx.readList ==> p in ctx.requests) && i < |ctx.readList| && FirstOf(ctx, t, i)
      modifies this`ctx, this`book
      ensures Valid() && |sent| == |book.taken| && !book.draining
      ensures var p := old(ctx).readList[i];
              && FirstFor(old(ctx), ctx, t, p) && book.hand == {p}
              && OnlyServed(old(book), book, p, t, ctx.requests[p].raw, Delivered(f, ctx.requests[p].raw))
    {
      hide Consistent, Genuine, OfType, RemoveAt, FirstOf, Delivered, SentAre, FirstFor, TypeOf;
      var p := ctx.readList[i];
      var payload := Delivered(f, ctx.requests[p].raw);
      ServeKeeps(ctx, book, i, t, payload);
      ServedFirst(ctx, i, t);
      GenuineServe(ctx, book, i, f);
      assert book.hand + {p} == {p};
      var next := Serve(ctx, book, i, t, payload);
      book := next.1;
      ctx := ctx.(readList := RemoveAt(ctx.readList, i));
    }

    /** The loop over the read list. */
    method FindFirst(t: nat) returns (i: nat)
      requires forall p :: p in ctx.readList ==> p in ctx.requests
      ensures FirstOf(ctx, t, i)
    {
      i := 0;
      while i < |ctx.readList| && ctx.requests[ctx.readList[i]].packetType != t
        invariant i <= |ctx.readList|
        invariant forall j :: 0 <= j < i ==> ctx.requests[ctx.readList[j]].packetType != t
      {
        i := i + 1;
      }
    }

    /** The loop over the destination address. */
    method IsBroadcast() returns (b: bool)
      requires frame.Length >= 6
      ensures b <==> frame[..6] == BROADCAST
    {
      b := true;
      for n := 0 to 6
        invariant b && forall k :: 0 <= k < n ==> frame[k] == 0xff
      {
        if frame[n] != 0xff {
          assert frame[..6][n] != BROADCAST[n];
          return false;
        }
      }
    }

    /** The request taken is filled in from the frame and replied. */
    method Deliver(p: Ptr, len: nat)
      requires Valid() && book.hand == {p} && p in ctx.requests && HEADER <= len <= MTU
      modifies this`ctx, this`book
      ensures Valid() && book.hand == {} && Onward(old(book), book)
      ensures p in ctx.requests && ctx.requests[p] == Completed(old(ctx).requests[p], frame[..len])
      ensures Count(book.submitted, p) == Count(book.answered, p) && !InDevice(ctx, book, p)
      ensures book.served == old(book).served && book.arrived == old(book).arrived
      ensures book.taken == old(book).taken && book.draining == old(book).draining
    {
      hide Consistent, Genuine, InDevice, Count, SentAre, Completed;
      var r := FillIn(ctx.requests[p], len);
      OnwardSame(book);
      Reply(p, r);
    }

    /** The fields of a read request. */
    method FillIn(q: Request, len: nat) returns (r: Request)
      requires HEADER <= len <= frame.Length
      ensures r == Completed(q, frame[..len])
    {
      r := q;
      if r.raw {
        r := r.(length := len, data := frame[..len]);
      } else {
        r := r.(length := len - HEADER, data := frame[HEADER..len]);
        assert frame[..len][HEADER..] == frame[HEADER..len];
      }
      assert frame[..len][..6] == frame[..6] && frame[..len][6..12] == frame[6..12];
      var all := IsBroadcast();
      r := r.(src := frame[6..12], dst := frame[..6], broadcast := all, quick := false, error := NoError);
      r := r.(packetType := Word(frame[13], frame[12]));
    }

    /** The latest frame finds its reader, if there is one. */
    method Dispatch(len: nat) returns (ghost p: Ptr, ghost at: Ctx)
      requires Valid() && AtRest() && Unserved(book) && HEADER <= len <= MTU
      requires book.arrived != [] && book.arrived[|book.arrived| - 1] == frame[..len]
      modifies this`ctx, this`book
      ensures Valid() && AtRest() && Onward(old(book), book) && book.arrived == old(book).arrived
      ensures forall q :: q in at.readList ==> q in at.requests
      ensures Dispatched(old(book), at, frame[..len], p)
    {
      at := ctx;
      ReadsKnown(ctx, book);
      hide Consistent, Genuine, Delivered, InDevice, Count, Completed, Unserved, SentAre, Passed, FirstFor, NoneFor,
        OfType;
      var found, q := Match(Word(frame[13], frame[12]), frame[..len]);
      p := q;
      ghost var c, b := ctx, book;
      OnwardSame(old(book));
      if found {
        FirstForKnown(at, c, TypeOf(frame[..len]), p);
        ServedOnward(old(book), b, p, TypeOf(frame[..len]), c.requests[p].raw, Delivered(frame[..len],
                c.requests[p].raw));
        Finish(q, len);
        OnwardTrans(old(book), b, book);
      } else {
        NoneForKnown(at, TypeOf(frame[..len]));
      }
    }

    /** A read taken is completed from the frame and replied, while others run. */
    method Finish(p: Ptr, len: nat)
      requires Valid() && book.hand == {p} && p in ctx.requests && HEADER <= len <= MTU
      modifies this`ctx, this`book
      ensures Valid() && book.hand == {} && Onward(old(book), book) && !InDevice(ctx, book, p)
      ensures p in ctx.requests && ctx.requests[p] == Completed(old(ctx).requests[p], frame[..len])
      ensures book.served == old(book).served && book.arrived == old(book).arrived
      ensures book.taken == old(book).taken && book.draining == old(book).draining
    {
      hide Consistent, Genuine, InDevice, Count, SentAre, Completed, Passed, Onward;
      ghost var c, b := ctx, book;
      Clients();
      CompletedSame(c, b, ctx, book, p, frame[..len]);
      ghost var b2 := book;
      Deliver(p, len);
      OnwardTrans(b, b2, book);
    }

    /** Frame `f` went to the first request of its type in the list as it was at `at`, or to nobody. */
    ghost predicate Dispatched(before: Book, at: Ctx, f: seq<byte>, p: Ptr)
      reads this
      requires forall q :: q in at.readList ==> q in at.requests
    {
      |f| >= HEADER
      && var waiting := OfType(at.requests, at.readList, TypeOf(f));
         if waiting == [] then book.served == before.served
         else && p == waiting[0] && p in at.requests && p in ctx.requests
              && ctx.requests[p] == Completed(at.requests[p], f) && !InDevice(ctx, book, p)
              && before.arrived != []
              && var raw := at.requests[p].raw;
                 book.served == ServedNext(before, p, TypeOf(f), raw, Delivered(f, raw))
    }

    /**
     One round of the receive loop. A frame goes to the longest-waiting request of its type, which
     is replied with it; a frame nobody waits for changes no request. `at` and `before` are the
     moment the list is searched.
     */
    method ReceiveNext() returns (more: bool, ghost f: seq<byte>, ghost p: Ptr, ghost at: Ctx, ghost before: Book)
      requires Valid() && AtRest()
      modifies this`ctx, this`book, frame, nic, nic.wire
      ensures Valid() && AtRest() && Onward(old(book), book)
      ensures forall q :: q in at.readList ==> q in at.requests
      ensures !more ==> book == old(book) && ctx == old(ctx)
      ensures more ==> before.served == old(book).served && before.arrived == book.arrived == old(book).arrived + [f]
                       && Dispatched(before, at, f, p)
      ensures Taking(old(nic.taken), old(|nic.wire.chip.accepted| > nic.taken)) && SameSetup(old(nic.setups))
    {
      hide Consistent, Genuine, OfType, Delivered, InDevice, Count, Completed, Unserved, SentAre, Passed;
      f, p := [], 0;
      var len := NicRecv();
      at, before := ctx, book;
      ReadsKnown(ctx, book);
      more := len >= 0;
      ghost var b1 := book;
      assert Onward(old(book), b1);
      hide Onward;
      if more {
        f := frame[..len];
        Clients();
        UnservedAgain(before, book);
        before := book;
        OnwardTrans(old(book), b1, before);
        p, at := Dispatch(len);
        OnwardTrans(old(book), before, book);
      }
    }

    /** The receive loop, watched for `watch` rounds: a frame that was waiting in the chip has been taken. */
    method Receive(watch: nat) returns (running: bool)
      requires Valid() && AtRest()
      modifies this`ctx, this`book, frame, nic, nic.wire
      ensures Valid() && AtRest() && Onward(old(book), book)
      ensures running ==> |book.arrived| == |old(book).arrived| + watch
      ensures watch > 0 ==> Taking(old(nic.taken), old(|nic.wire.chip.accepted| > nic.taken))
      ensures SameSetup(old(nic.setups))
    {
      hide Consistent, Genuine, SentAre, Onward;
      ghost var taken, waiting := nic.taken, |nic.wire.chip.accepted| > nic.taken;
      running := true;
      var n := 0;
      OnwardSame(book);
      while running && n < watch
        invariant Valid() && AtRest() && Onward(old(book), book)
        invariant n <= watch && (running ==> |book.arrived| == |old(book).arrived| + n)
        invariant SameSetup(old(nic.setups))
        invariant if n == 0 then running && nic.taken == taken && waiting == (|nic.wire.chip.accepted| > nic.taken)
                  else Taking(taken, waiting)
        decreases watch - n
      {
        ghost var f, p, at, before, b := [], 0, ctx, book, book;
        running, f, p, at, before := ReceiveNext();
        OnwardTrans(old(book), b, book);
        n := n + 1;
      }
    }

    // ---- The task ------------------------------------------------------------------------------------

    /** Wait, as long as it takes the clients to run; the signals received are cleared. */
    method Wait() returns (tx: bool, rx: bool)
      requires Valid() && AtRest()
      modifies this`ctx, this`book
      ensures Valid() && Empty() && Onward(old(book), book) && book.draining == tx
      ensures !ctx.txSignal && !ctx.rxSignal
      ensures !tx ==> (book.signalling == {} ==> ctx.writeList == [])
      ensures !tx && old(book).signalling == {} ==> AllDone(old(book), book)
      ensures old(ctx).rxSignal ==> rx
    {
      hide Genuine, SentAre, Posted, Ordered, Accounted, Onward, AllDone;
      SettledNow(ctx, book);
      OnwardSame(book);
      Clients();
      OnwardTrans(old(book), old(book), book);
      tx, rx := ctx.txSignal, ctx.rxSignal;
      WakeKeeps(ctx, book);
      ghost var b := book;
      var next := Wake(ctx, book);
      OnwardSameRecord(b, next.1);
      OnwardTrans(old(book), b, next.1);
      ctx, book := next.0, next.1;
    }

    /** nic_keep_alive: a receiver found disabled when ECON1 was read, at `at`, is set up again. */
    method KeepAlive() returns (ghost at: Enc28j60Chip.Chip)
      requires FromChip()
      modifies this`keptAlive, this`earlier, this`before, nic, nic.wire
      ensures FromChip() && keptAlive == old(keptAlive) + 1
      ensures !overrun ==> Enc28j60Ring.Drift(old(nic.wire.chip), at) && Restarted(at, old(nic.setups))
      ensures !overrun ==> Bit(nic.wire.chip.econ1, 2)
      ensures Bit(at.econ1, 2) ==> Pending(old(nic.taken), old(|nic.wire.chip.accepted|))
    {
      hide Enc28j60Ring.Drift;
      at := nic.wire.chip;
      keptAlive := keptAlive + 1;
      if !overrun {
        var r;
        r, at := nic.KeepAlive();
        if r == 1 { earlier, before := book.arrived, sent; }
      }
    }

    /** nic_init has run once more if reception was off at `at`, and not otherwise. */
    ghost predicate Restarted(at: Enc28j60Chip.Chip, setups: nat)
      reads nic
    {
      nic.setups == setups + if Bit(at.econ1, 2) then 0 else 1
    }

    /**
     The part of a turn that the vertical blank asks for. In every 64th one the chip is looked after
     first, at `at`. A frame that waits then is taken, unless the receiver was found disabled.
     */
    method Listen(watch: nat) returns (receiving: bool, ghost at: Enc28j60Chip.Chip)
      requires Valid() && AtRest()
      modifies this`interval, this`rxTurns, this`keptAlive, this`earlier, this`before, this`ctx, this`book
      modifies frame, nic, nic.wire
      ensures Valid() && AtRest() && Onward(old(book), book) && rxTurns == old(rxTurns) + 1
      ensures !overrun && rxTurns % 64 == 0 ==>
                Enc28j60Ring.Drift(old(nic.wire.chip), at) && Restarted(at, old(nic.setups))
      ensures !overrun && rxTurns % 64 != 0 ==> nic.setups == old(nic.setups)
      ensures watch > 0 && (rxTurns % 64 != 0 || Bit(at.econ1, 2)) ==>
                Taking(old(nic.taken), old(|nic.wire.chip.accepted| > nic.taken))
    {
      hide Consistent, Genuine, SentAre, Onward, Enc28j60Ring.Drift;
      interval := (interval + 1) % 64;
      rxTurns := rxTurns + 1;
      at := nic.wire.chip;
      if interval == 0 {
        at := KeepAlive();
      }
      receiving := Receive(watch);
    }

    /**
     One turn of device_task, whose loops are watched for `watch` rounds: every write signalled
     before it has been sent or aborted, or so many have been sent. On the vertical blank a frame that
     waits in the chip is taken; in every 64th such turn the chip is looked after first. If it sleeps
     on, then no write is queued but those whose clients have yet to signal.
     */
    method Turn(watch: nat) returns (asleep: bool, sending: bool, receiving: bool)
      requires Valid() && AtRest()
      modifies this, frame, nic, nic.wire
      ensures Valid() && Empty() && Onward(old(book), book) && old(sent) <= sent
      ensures !sending ==> AtRest() && (old(book).signalling == {} ==> AllDone(old(book), book))
      ensures sending ==> |sent| == |old(sent)| + watch && rxTurns == old(rxTurns)
      ensures !sending && old(ctx).rxSignal ==> rxTurns == old(rxTurns) + 1
      ensures !sending && old(ctx).rxSignal && watch > 0 && rxTurns % 64 != 0 ==>
                Taking(old(nic.taken), old(|nic.wire.chip.accepted| > nic.taken))
      ensures asleep ==> AtRest() && !ctx.txSignal && !ctx.rxSignal && (book.signalling == {} ==> ctx.writeList == [])
    {
      hide Consistent, Genuine, SentAre, Onward, AllDone;
      sending, receiving := false, false;
      var tx, rx := Wait();
      ghost var b := book;
      asleep := !tx && !rx;
      if tx {
        sending := Drain(watch);
        OnwardTrans(old(book), b, book);
        if sending { return; }
        b := book;
      }
      if rx {
        ghost var at;
        receiving, at := Listen(watch);
        OnwardTrans(old(book), b, book);
      }
    }

    /**
     Any number of turns among any client activity. The writes sent are those taken off the list, in
     the order in which they were queued and as begin_io let them through; of those signalled before
     a turn none is left after it. Reads of each type complete in the order they were queued, frames
     are handed out in the order they arrived, each to a read of its type, and each request is
     answered once, or still in the device. Unless an over-long frame was sent, the frames are the
     good ones the chip accepted, in its order, and those sent the ones whose transmission it finished.
     */
    method Task(turns: nat, watch: nat) returns (sending: bool)
      requires Valid() && AtRest()
      modifies this, frame, nic, nic.wire
      ensures Valid() && Empty() && (!sending ==> AtRest()) && Onward(old(book), book) && old(sent) <= sent
      ensures |sent| == |book.taken| && SentAre(mac, sent, book.taken, book.posted) && Ascending(book.taken)
      ensures !sending && turns > 0 && old(book).signalling == {} ==> AllDone(old(book), book)
      ensures sending ==> |sent| >= |old(sent)| + watch
      ensures InOrder(book.served) && Genuine(book.served, book.arrived)
      ensures forall p :: Count(book.submitted, p) == Count(book.answered, p) + if InDevice(ctx, book, p) then 1 else 0
      ensures !overrun ==> Enc28j60Driver.History(nic.wire.chip, nic.taken, nic.lengths, nic.results)
                           && book.arrived == earlier + nic.results && sent == before + OnWire()
    {
      sending := false;
      hide Consistent, Genuine, SentAre, Onward, AllDone;
      OnwardSame(book);
      for n := 0 to turns
        invariant Valid() && AtRest() && !sending && Onward(old(book), book) && old(sent) <= sent
        invariant n == 0 ==> book == old(book)
        invariant n > 0 && old(book).signalling == {} ==> AllDone(old(book), book)
      {
        ghost var b := book;
        var asleep, receiving;
        asleep, sending, receiving := Turn(watch);
        OnwardTrans(old(book), b, book);
        if sending { break; }
      }
      Known(ctx, book);
    }
  }

  lemma ServedFirst(c: Ctx, i: nat, t: nat)
    requires (forall p :: p in c.readList ==> p in c.requests) && FirstOf(c, t, i) && i < |c.readList|
    ensures FirstFor(c, c.(readList := RemoveAt(c.readList, i)), t, c.readList[i])
  {
    RemoveFirstMatch(c.requests, c.readList, i, t, t);
    forall u | u != t ensures OfType(c.requests, RemoveAt(c.readList, i), u) == OfType(c.requests, c.readList, u) {
      RemoveFirstMatch(c.requests, c.readList, i, t, u);
    }
    assert c.readList[i] in c.readList;
    hide OfType, RemoveAt;
  }

  lemma ServedNone(c: Ctx, i: nat, t: nat)
    requires (forall p :: p in c.readList ==> p in c.requests) && FirstOf(c, t, i) && i == |c.readList|
    ensures NoneFor(c, t)
  {
    NoneOfType(c.requests, c.readList, t);
  }

  lemma FirstForKnown(c: Ctx, d: Ctx, t: nat, p: Ptr)
    requires FirstFor(c, d, t, p)
    ensures (forall q :: q in c.readList ==> q in c.requests) && p in c.requests && d.requests == c.requests
    ensures OfType(c.requests, c.readList, t) != [] && OfType(c.requests, c.readList, t)[0] == p
  {
    hide OfType;
  }

  lemma NoneForKnown(c: Ctx, t: nat)
    requires NoneFor(c, t)
    ensures (forall q :: q in c.readList ==> q in c.requests) && OfType(c.requests, c.readList, t) == []
  {
    hide OfType;
  }

  lemma Known(c: Ctx, b: Book)
    requires Consistent(c, b)
    ensures InOrder(b.served) && Ascending(b.taken)
    ensures forall p :: Count(b.submitted, p) == Count(b.answered, p) + if InDevice(c, b, p) then 1 else 0
  {
    hide InOrder, Ascending;
  }

  lemma SettledNow(c: Ctx, b: Book)
    requires Consistent(c, b)
    ensures c.writeList == [] ==> AllDone(b, b)
    ensures !c.txSignal && b.signalling == {} && !b.draining ==> AllDone(b, b)
  {
    if c.writeList == [] {
      forall n | 0 <= n < |b.posted| ensures Settled(b, n) { AllSettled(c, b, n); }
    }
    hide Accounted, Ordered, Posted;
  }

  lemma HeadTaken(c: Ctx, b: Book)
    requires Consistent(c, b) && b.hand == {} && b.draining
    ensures var (d, e) := TakeHead(c, b);
            && Onward(b, e) && e.draining == (c.writeList != [])
            && if c.writeList == [] then e.hand == {} && e.taken == b.taken && AllDone(b, e)
               else var p := c.writeList[0];
                    p in b.place && AsPosted(d, e, p, b.place[p]) && e.taken == b.taken + [b.place[p]]
  {
    SettledNow(c, b);
    TakeHeadKeeps(c, b);
    hide Consistent, Sendable;
  }

  lemma AsPostedStill(c: Ctx, b: Book, d: Ctx, e: Book, p: Ptr, n: nat)
    requires AsPosted(c, b, p, n) && Passed(c, b, d, e)
    ensures AsPosted(d, e, p, n) && e.posted[n] == b.posted[n]
  {
  }

  lemma CompletedSame(c: Ctx, b: Book, d: Ctx, e: Book, p: Ptr, f: seq<byte>)
    requires Passed(c, b, d, e) && b.hand == {p} && p in c.requests && |f| >= HEADER
    ensures p in d.requests && Completed(d.requests[p], f) == Completed(c.requests[p], f)
  {
    hide Delivered, TypeOf;
  }

  lemma ServedOnward(b: Book, e: Book, p: Ptr, t: nat, raw: bool, payload: seq<byte>)
    requires OnlyServed(b, e, p, t, raw, payload)
    ensures Onward(b, e)
  {
  }

  lemma OnwardSame(b: Book)
    ensures Onward(b, b)
  {
  }

  lemma OnwardSameRecord(b: Book, e: Book)
    requires e == b.(draining := e.draining)
    ensures Onward(b, e)
  {
  }

  lemma UnservedAgain(b: Book, e: Book)
    requires Unserved(b) && e.served == b.served && e.arrived == b.arrived
    ensures Unserved(e)
  {
  }
}
