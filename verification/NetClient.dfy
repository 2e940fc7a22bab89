/** begin_io and abort_io of sspinet.device, while the handler task and other clients are at work. */
module NetClient {
  import opened Words
  import opened ExecList
  import opened NetQueue

  datatype Command = CmdRead | CmdWrite | CmdBroadcast | CmdOther(known: bool)

  const BROADCAST: seq<byte> := [0xff, 0xff, 0xff, 0xff, 0xff, 0xff]

  /** A step of another client, of the interrupt server or of the handler. */
  datatype Step = ByClient(e: Event) | ByHandler(w: Work)

  /** A client's step on request `p`. */
  predicate Names(e: Event, p: Ptr) {
    !e.VerticalBlank? && e.p == p
  }

  /** A step that the owner of `p` does not take itself. Nobody else submits or aborts its request. */
  function Other(c: Ctx, b: Book, p: Ptr, s: Step): (Ctx, Book) {
    match s
    case ByClient(e) => if Names(e, p) then (c, b) else React(c, b, e)
    case ByHandler(w) => Handle(c, b, w)
  }

  /** What the owner of request `p` can rely on across any number of such steps. */
  ghost predicate Beside(p: Ptr, c: Ctx, b: Book, d: Ctx, e: Book) {
    && (p in c.requests ==> p in d.requests)
    && (p in e.clearing <==> p in b.clearing) && (p in e.signalling <==> p in b.signalling)
    && (p in e.aborting <==> p in b.aborting)
    && Count(e.submitted, p) == Count(b.submitted, p)
    && (p in d.readList ==> p in c.readList) && (p in d.writeList ==> p in c.writeList)
    && (!InDevice(c, b, p) ==> !InDevice(d, e, p) && Count(e.answered, p) == Count(b.answered, p))
    && (!InDevice(c, b, p) || p in b.aborting ==> p in c.requests ==> d.requests[p] == c.requests[p])
    && (p in c.requests && !c.requests[p].quick ==> !d.requests[p].quick)
  }

  lemma BesideSame(p: Ptr, c: Ctx, b: Book)
    ensures Beside(p, c, b, c, b)
  {
  }

  lemma OwnedStays(p: Ptr, c: Ctx, b: Book, d: Ctx, e: Book)
    requires Owned(c, b, p) && Beside(p, c, b, d, e)
    ensures Owned(d, e, p) && d.requests[p] == c.requests[p] && Count(e.submitted, p) == Count(b.submitted, p)
  {
  }

  lemma BesideTrans(p: Ptr, c: Ctx, b: Book, d: Ctx, e: Book, f: Ctx, g: Book)
    requires Accounted(c, b) && Accounted(d, e) && Beside(p, c, b, d, e) && Beside(p, d, e, f, g)
    ensures Beside(p, c, b, f, g)
  {
    hide Distinct, Count;
  }

  lemma OtherBeside(c: Ctx, b: Book, p: Ptr, s: Step)
    requires Consistent(c, b)
    ensures var (d, e) := Other(c, b, p, s); Beside(p, c, b, d, e)
  {
    hide Posted, Ordered, Distinct, Beside, React, Handle;
    BesideSame(p, c, b);
    match s
    case ByClient(e) => if !Names(e, p) { ReactBeside(c, b, p, e); }
    case ByHandler(w) => HandleBeside(c, b, p, w);
  }

  lemma ReactBeside(c: Ctx, b: Book, p: Ptr, e: Event)
    requires Accounted(c, b) && !Names(e, p)
    ensures var (d, f) := React(c, b, e); Beside(p, c, b, d, f)
  {
    hide Distinct, Count, Beside;
    BesideSame(p, c, b);
    match e
    case VerticalBlank => SignalBeside(c, b, p, c.(rxSignal := true), b);
    case Prepare(q, r) => SignalBeside(c, b, p, c.(requests := c.requests[q := r]), b);
    case Read(q) => if Owned(c, b, q) { QueueBeside(c, b, p, q); }
    case Write(q) => if Owned(c, b, q) { QueueBeside(c, b, p, q); }
    case Clear(q) => if q in c.requests { SignalBeside(c, b, p, ClearQuick(c, b, q).0, ClearQuick(c, b, q).1); }
    case Signal(q) => SignalBeside(c, b, p, SignalTx(c, b, q).0, SignalTx(c, b, q).1);
    case Abort(q) => if q in c.readList || q in c.writeList { AbortBeside(c, b, p, q); }
    case AbortReply(q) =>
      if q in b.aborting && q in c.requests { AnswerBeside(c, b, p, q, c.requests[q].(error := Aborted)); }
  }

  /** Steps that move no request and leave that of `p` alone. */
  lemma SignalBeside(c: Ctx, b: Book, p: Ptr, d: Ctx, e: Book)
    requires d.readList == c.readList && d.writeList == c.writeList
    requires p in c.requests ==> p in d.requests && d.requests[p] == c.requests[p]
    requires e == b.(clearing := e.clearing, signalling := e.signalling)
    requires (p in e.clearing <==> p in b.clearing) && (p in e.signalling <==> p in b.signalling)
    ensures Beside(p, c, b, d, e)
  {
    hide Count;
  }

  lemma QueueBeside(c: Ctx, b: Book, p: Ptr, q: Ptr)
    requires q != p && q in c.requests
    ensures Beside(p, c, b, QueueRead(c, b, q).0, QueueRead(c, b, q).1)
    ensures Beside(p, c, b, QueueWrite(c, b, q).0, QueueWrite(c, b, q).1)
  {
    assert Count(Bump(b.submitted, q), p) == Count(b.submitted, p);
    hide Count, Bump;
  }

  lemma AbortBeside(c: Ctx, b: Book, p: Ptr, q: Ptr)
    requires q != p && (q in c.readList || q in c.writeList)
    ensures Beside(p, c, b, AbortTake(c, b, q).0, AbortTake(c, b, q).1)
  {
    if q in c.readList { RemoveOther(c.readList, q, p); } else { RemoveOther(c.writeList, q, p); }
    hide RemoveAt, IndexOf, Count;
  }

  lemma AnswerBeside(c: Ctx, b: Book, p: Ptr, q: Ptr, r: Request)
    requires Accounted(c, b) && (q in b.hand || q in b.aborting) && q in c.requests
    requires q == p ==> p !in b.aborting && (r.quick ==> c.requests[q].quick)
    ensures Beside(p, c, b, Answer(c, b, q, r).0, Answer(c, b, q, r).1)
  {
    assert q != p ==> Count(Bump(b.answered, q), p) == Count(b.answered, p);
    hide Count, Bump, Distinct;
  }

  lemma RemoveOther(s: seq<Ptr>, q: Ptr, p: Ptr)
    requires q in s && p != q
    ensures p in RemoveAt(s, IndexOf(s, q)) <==> p in s
  {
    var i := IndexOf(s, q);
    RemoveAtElements(s, i);
    if p in s {
      var k :| 0 <= k < |s| && s[k] == p;
      assert RemoveAt(s, i)[if k < i then k else k - 1] == p;
    }
  }

  lemma HandleBeside(c: Ctx, b: Book, p: Ptr, w: Work)
    requires Accounted(c, b)
    ensures var (d, f) := Handle(c, b, w); Beside(p, c, b, d, f)
  {
    assert Unserved(b) ==> b.arrived != [];
    hide Distinct, Unserved, Beside;
    BesideSame(p, c, b);
    match w
    case Sleep => IdleBeside(c, b, p, Wake(c, b).0, Wake(c, b).1);
    case Arrive(f) => IdleBeside(c, b, p, c, b.(arrived := b.arrived + [f]));
    case Fetch => FetchBeside(c, b, p);
    case Give(t, payload) =>
      var i := FirstIndex(c.requests, c.readList, t);
      if Unserved(b) && i < |c.readList| { GiveBeside(c, b, p, i, t, payload); }
    case Done(q, r) =>
      if q in b.hand && q in c.requests && (r.quick ==> c.requests[q].quick) { AnswerBeside(c, b, p, q, r); }
  }

  lemma IdleBeside(c: Ctx, b: Book, p: Ptr, d: Ctx, e: Book)
    requires d.readList == c.readList && d.writeList == c.writeList && d.requests == c.requests
    requires e == b.(arrived := e.arrived, draining := e.draining)
    ensures Beside(p, c, b, d, e)
  {
    hide Count;
  }

  lemma FetchBeside(c: Ctx, b: Book, p: Ptr)
    ensures Beside(p, c, b, TakeHead(c, b).0, TakeHead(c, b).1)
  {
    hide Count;
  }

  lemma GiveBeside(c: Ctx, b: Book, p: Ptr, i: nat, t: nat, payload: seq<byte>)
    requires b.arrived != [] && i < |c.readList| && c.readList[i] in c.requests
    ensures Beside(p, c, b, Serve(c, b, i, t, payload).0, Serve(c, b, i, t, payload).1)
  {
    RemoveAtElements(c.readList, i);
    assert forall q :: q in RemoveAt(c.readList, i) ==> q in c.readList;
    hide RemoveAt, Count;
  }

  // ---- The entry points -----------------------------------------------------------------------

  /**
   A read was queued last, in the list as it was at `c`, `b`; its QUICK flag was cleared at `d`, `e`, and others
   have run before and since.
   */
  ghost predicate ReadQueued(p: Ptr, c: Ctx, b: Book, d: Ctx, e: Book, f: Ctx, g: Book) {
    && Consistent(c, b) && Owned(c, b, p)
    && var q := QueueRead(c, b, p);
       && q.0.readList == c.readList + [p] && q.0.requests == c.requests[p := c.requests[p].(error := NoError)]
       && Consistent(q.0, q.1) && Beside(p, q.0, q.1, d, e)
       && p in d.requests && Beside(p, ClearQuick(d, e, p).0, ClearQuick(d, e, p).1, f, g)
  }

  /**
   A write was queued last and put on record at `c`, `b`; with QUICK cleared, the handler was signalled at
   `d`, `e`.
   */
  ghost predicate WriteQueued(p: Ptr, c: Ctx, b: Book, d: Ctx, e: Book, f: Ctx, g: Book) {
    && Consistent(c, b) && Owned(c, b, p)
    && var q := QueueWrite(c, b, p);
       && q.0.writeList == c.writeList + [p] && q.0.requests == c.requests[p := c.requests[p].(error := NoError)]
       && q.1.posted == b.posted + [c.requests[p].(error := NoError)]
       && Consistent(q.0, q.1) && Consistent(d, e) && p in d.requests && !d.requests[p].quick
       && SignalTx(d, e, p).0.txSignal && Beside(p, SignalTx(d, e, p).0, SignalTx(d, e, p).1, f, g)
  }

  lemma QueuedLast(c: Ctx, b: Book, p: Ptr)
    requires Consistent(c, b) && Owned(c, b, p) && Sendable(c.requests[p])
    ensures var q := QueueWrite(c, b, p);
            && q.0.writeList == c.writeList + [p] && q.0.requests == c.requests[p := c.requests[p].(error := NoError)]
            && q.1.posted == b.posted + [c.requests[p].(error := NoError)]
            && Consistent(q.0, q.1) && p in q.0.requests && Count(q.1.submitted, p) == Count(b.submitted, p) + 1
  {
    QueueWriteKeeps(c, b, p);
    hide Consistent;
  }

  lemma AllQueued(p: Ptr, c: Ctx, b: Book, d: Ctx, e: Book, f: Ctx, g: Book)
    requires Consistent(c, b) && Owned(c, b, p) && Sendable(c.requests[p])
    requires Consistent(d, e) && p in d.requests && !d.requests[p].quick
    requires Beside(p, SignalTx(d, e, p).0, SignalTx(d, e, p).1, f, g)
    ensures WriteQueued(p, c, b, d, e, f, g)
  {
    QueuedLast(c, b, p);
    hide Consistent, QueueWrite, Beside;
  }

  lemma ReadLast(c: Ctx, b: Book, p: Ptr)
    requires Consistent(c, b) && Owned(c, b, p)
    ensures var q := QueueRead(c, b, p);
            && q.0.readList == c.readList + [p] && q.0.requests == c.requests[p := c.requests[p].(error := NoError)]
            && Consistent(q.0, q.1) && p in q.0.requests && Count(q.1.submitted, p) == Count(b.submitted, p) + 1
            && p !in q.1.signalling
  {
    QueueReadKeeps(c, b, p);
    hide Consistent;
  }

  lemma AllRead(p: Ptr, c: Ctx, b: Book, d: Ctx, e: Book, f: Ctx, g: Book)
    requires Consistent(c, b) && Owned(c, b, p)
    requires Beside(p, QueueRead(c, b, p).0, QueueRead(c, b, p).1, d, e) && p in d.requests
    requires Beside(p, ClearQuick(d, e, p).0, ClearQuick(d, e, p).1, f, g)
    ensures ReadQueued(p, c, b, d, e, f, g)
  {
    ReadLast(c, b, p);
    hide Consistent, QueueRead, Beside;
  }

  /** One client in begin_io or abort_io. */
  class Entry {
    var ctx: Ctx
    var book: Book

    /** Everybody else runs. */
    method World(p: Ptr)
      requires Consistent(ctx, book)
      modifies this
      ensures Consistent(ctx, book) && Beside(p, old(ctx), old(book), ctx, book)
    {
      var steps: seq<Step> := *;
      hide Posted, Ordered, Accounted, Beside, React, Handle;
      BesideSame(p, ctx, book);
      for n := 0 to |steps|
        invariant Consistent(ctx, book) && Beside(p, old(ctx), old(book), ctx, book)
      {
        match steps[n] {
          case ByClient(e) => ReactKeeps(ctx, book, e);
          case ByHandler(w) => HandleKeeps(ctx, book, w);
        }
        OtherBeside(ctx, book, p, steps[n]);
        var next := Other(ctx, book, p, steps[n]);
        BesideTrans(p, old(ctx), old(book), ctx, book, next.0, next.1);
        ctx, book := next.0, next.1;
      }
    }

    /** The request is back with its client as `r`, its account settled; nothing else has changed since `c`. */
    ghost predicate Finished(p: Ptr, r: Request, c: Ctx)
      reads this
    {
      && Owned(ctx, book, p) && ctx == c.(requests := c.requests[p := r])
      && Count(book.submitted, p) == Count(book.answered, p)
    }

    /** A request that is not deferred is finished at once. */
    method Finish(p: Ptr, error: Error)
      requires Consistent(ctx, book) && Owned(ctx, book, p)
      modifies this
      ensures Consistent(ctx, book) && Finished(p, old(ctx).requests[p].(error := error), old(ctx))
      ensures Count(book.submitted, p) == Count(old(book).submitted, p) + 1
    {
      PrepareKeeps(ctx, book, p, ctx.requests[p].(error := error));
      ctx := ctx.(requests := ctx.requests[p := ctx.requests[p].(error := error)]);
      FinishKeeps(ctx, book, p);
      hide Consistent;
      book := book.(submitted := Bump(book.submitted, p), answered := Bump(book.answered, p));
    }

    /** What the client of a deferred request, submitted `n` times before, knows when begin_io returns. */
    ghost predicate Deferred(p: Ptr, n: nat)
      reads this
    {
      && p in ctx.requests && !ctx.requests[p].quick && p !in book.clearing && p !in book.signalling
      && Count(book.submitted, p) == n + 1
      && Count(book.submitted, p) == Count(book.answered, p) + if InDevice(ctx, book, p) then 1 else 0
    }

    /**
     The CMD_READ case: refused, or queued last in the list as it was at the moment `c`, `b`. The
     QUICK flag is cleared later, at `d`, `e`, when the request may already have been replied.
     */
    method BeginRead(p: Ptr) returns (ghost c: Ctx, ghost b: Book, ghost d: Ctx, ghost e: Book)
      requires Consistent(ctx, book) && Owned(ctx, book, p)
      modifies this
      ensures Consistent(ctx, book)
      ensures var r := old(ctx).requests[p];
              if !r.buffers then Finished(p, r.(error := BadArgument), old(ctx))
              else && Beside(p, old(ctx), old(book), c, b) && p in c.requests && c.requests[p] == r
                   && ReadQueued(p, c, b, d, e, ctx, book) && Deferred(p, Count(old(book).submitted, p))
    {
      c, b, d, e := ctx, book, ctx, book;
      assert p in ctx.requests;
      hide Consistent, Beside, Owned, InDevice, Count, ReadQueued;
      if !ctx.requests[p].buffers {
        Finish(p, BadArgument);
      } else {
        c, b := Approach(p);
        d, e := EnqueueRead(p);
      }
    }

    /** Until the list's semaphore is obtained others may run; the request stays its owner's. */
    method Approach(p: Ptr) returns (ghost c: Ctx, ghost b: Book)
      requires Consistent(ctx, book) && Owned(ctx, book, p)
      modifies this
      ensures c == ctx && b == book && Consistent(ctx, book) && Owned(ctx, book, p)
      ensures Beside(p, old(ctx), old(book), ctx, book) && ctx.requests[p] == old(ctx).requests[p]
      ensures Count(book.submitted, p) == Count(old(book).submitted, p)
    {
      hide Consistent, Count, InDevice;
      World(p);
      OwnedStays(p, old(ctx), old(book), ctx, book);
      hide Beside, Owned;
      c, b := ctx, book;
    }

    /** A read is queued, and then its QUICK flag cleared. */
    method EnqueueRead(p: Ptr) returns (ghost d: Ctx, ghost e: Book)
      requires Consistent(ctx, book) && Owned(ctx, book, p)
      modifies this
      ensures Consistent(ctx, book)
      ensures ReadQueued(p, old(ctx), old(book), d, e, ctx, book) && Deferred(p, Count(old(book).submitted, p))
    {
      ghost var c, b := ctx, book;
      ReadLast(ctx, book, p);
      hide Consistent, QueueRead, Owned, Count, InDevice, ReadQueued;
      var next := QueueRead(ctx, book, p);
      ctx, book := next.0, next.1;
      World(p);
      d, e := ctx, book;
      Clear(p);
      World(p);
      Balance(ctx, book, p);
      AllRead(p, c, b, d, e, ctx, book);
    }

    /** The QUICK flag is cleared. */
    method Clear(p: Ptr)
      requires Consistent(ctx, book) && p in ctx.requests
      modifies this
      ensures Consistent(ctx, book) && (ctx, book) == ClearQuick(old(ctx), old(book), p)
    {
      ClearKeeps(ctx, book, p);
      hide Consistent;
      var next := ClearQuick(ctx, book, p);
      ctx, book := next.0, next.1;
    }

    /** The handler is signalled. */
    method Signal(p: Ptr)
      requires Consistent(ctx, book)
      modifies this
      ensures Consistent(ctx, book) && (ctx, book) == SignalTx(old(ctx), old(book), p) && ctx.txSignal
    {
      SignalsKeep(ctx, book, true, ctx.rxSignal, book.signalling - {p}, book.draining);
      hide Accounted, Ordered, Posted;
      var next := SignalTx(ctx, book, p);
      ctx, book := next.0, next.1;
    }

    /**
     The S2_BROADCAST and CMD_WRITE cases: refused, or queued last at the moment `c`, `b`, with the
     data as submitted; the handler is signalled at `d`, `e`.
     */
    method BeginWrite(p: Ptr, broadcast: bool) returns (ghost c: Ctx, ghost b: Book, ghost d: Ctx, ghost e: Book)
      requires Consistent(ctx, book) && Owned(ctx, book, p)
      requires ctx.requests[p].length <= |ctx.requests[p].data| && |ctx.requests[p].dst| == 6
      modifies this
      ensures Consistent(ctx, book)
      ensures var r := old(ctx).requests[p].(dst := if broadcast then BROADCAST else old(ctx).requests[p].dst);
              if r.length > MTU || !r.buffers then
                Finished(p, r.(error := if r.length > MTU then MtuExceeded else BadArgument), old(ctx))
              else && p in c.requests && c.requests[p] == r
                   && WriteQueued(p, c, b, d, e, ctx, book) && Deferred(p, Count(old(book).submitted, p))
    {
      c, b, d, e := ctx, book, ctx, book;
      hide Posted, Ordered, Distinct;
      if broadcast {
        PrepareKeeps(ctx, book, p, ctx.requests[p].(dst := BROADCAST));
        ctx := ctx.(requests := ctx.requests[p := ctx.requests[p].(dst := BROADCAST)]);
      }
      if ctx.requests[p].length > MTU {
        Finish(p, MtuExceeded);
      } else if !ctx.requests[p].buffers {
        Finish(p, BadArgument);
      } else {
        hide Consistent, Beside, Owned, InDevice, Count, WriteQueued;
        c, b := Approach(p);
        d, e := Enqueue(p);
      }
    }

    /** A write is queued; its QUICK flag is cleared, and the handler signalled. */
    method Enqueue(p: Ptr) returns (ghost d: Ctx, ghost e: Book)
      requires Consistent(ctx, book) && Owned(ctx, book, p) && Sendable(ctx.requests[p])
      modifies this
      ensures Consistent(ctx, book)
      ensures WriteQueued(p, old(ctx), old(book), d, e, ctx, book) && Deferred(p, Count(old(book).submitted, p))
    {
      ghost var c, b := ctx, book;
      QueuedLast(ctx, book, p);
      hide Consistent, QueueWrite, Owned, SignalTx, Beside, Count, InDevice, WriteQueued, Sendable;
      var next := QueueWrite(ctx, book, p);
      ctx, book := next.0, next.1;
      d, e := Announce(p);
      Balance(ctx, book, p);
      AllQueued(p, c, b, d, e, ctx, book);
    }

    /** The QUICK flag of a queued write is cleared, and then the handler signalled. */
    method Announce(p: Ptr) returns (ghost d: Ctx, ghost e: Book)
      requires Consistent(ctx, book) && p in ctx.requests
      modifies this
      ensures Consistent(ctx, book)
      ensures p in d.requests && !d.requests[p].quick && Consistent(d, e)
      ensures Beside(p, SignalTx(d, e, p).0, SignalTx(d, e, p).1, ctx, book)
      ensures p in ctx.requests && !ctx.requests[p].quick && p !in book.clearing && p !in book.signalling
      ensures Count(book.submitted, p) == Count(old(book).submitted, p)
    {
      hide Consistent, InDevice, Count;
      World(p);
      Clear(p);
      World(p);
      d, e := ctx, book;
      Signal(p);
      World(p);
    }

    /**
     begin_io. A read is queued on the read list, and a write, to the address given or to all, on the
     write list, with the handler signalled; each is last in its list as it was at `c`, `b`, as the
     client had filled it in, and deferred with its flag cleared. What is refused and every other
     command is finished at once, with its result, and changes no list.
     */
    method BeginIo(p: Ptr, command: Command) returns (ghost c: Ctx, ghost b: Book, ghost d: Ctx, ghost e: Book)
      requires Consistent(ctx, book) && Owned(ctx, book, p)
      requires command.CmdWrite? || command.CmdBroadcast? ==>
                 ctx.requests[p].length <= |ctx.requests[p].data| && |ctx.requests[p].dst| == 6
      modifies this
      ensures Consistent(ctx, book)
      ensures var r := old(ctx).requests[p];
              match command
              case CmdRead =>
                if !r.buffers then Finished(p, r.(error := BadArgument), old(ctx))
                else p in c.requests && c.requests[p] == r && ReadQueued(p, c, b, d, e, ctx, book)
                     && Deferred(p, Count(old(book).submitted, p))
              case CmdOther(known) => Finished(p, r.(error := if known then NoError else NoCommand), old(ctx))
              case _ =>
                var w := if command.CmdBroadcast? then r.(dst := BROADCAST) else r;
                if w.length > 1518 then Finished(p, w.(error := MtuExceeded), old(ctx))
                else if !w.buffers then Finished(p, w.(error := BadArgument), old(ctx))
                else p in c.requests && c.requests[p] == w && WriteQueued(p, c, b, d, e, ctx, book)
                     && Deferred(p, Count(old(book).submitted, p))
    {
      hide Consistent, Beside, Owned, ReadQueued, WriteQueued;
      c, b, d, e := ctx, book, ctx, book;
      match command
      case CmdRead => c, b, d, e := BeginRead(p);
      case CmdOther(known) => Finish(p, if known then NoError else NoCommand);
      case _ => c, b, d, e := BeginWrite(p, command.CmdBroadcast?);
    }

    /**
     abort_io, for a request that nobody else is aborting: it is looked for in the read list at
     `c`, and then in the write list at `d`, with others running in between, and replied whether or
     not it was found. The accounts are right after that exactly if it was; otherwise it has been
     answered once too often.
     */
    method AbortIo(p: Ptr) returns (ghost c: Ctx, ghost d: Ctx)
      requires Consistent(ctx, book) && p in ctx.requests && p !in book.aborting
      modifies this
      ensures Accounted(ctx, book) <==> p in c.readList || p in d.writeList
      ensures p in c.readList || p in d.writeList ==> Consistent(ctx, book) && !InDevice(ctx, book, p)
                                                      && Count(book.submitted, p) == Count(book.answered, p)
      ensures p in ctx.requests && ctx.requests[p].error == Aborted
      ensures p in c.readList ==> p in old(ctx).readList
      ensures p in d.writeList ==> p in old(ctx).writeList
    {
      hide RemoveAt, IndexOf, Distinct, Posted, Ordered;
      World(p);
      c := ctx;
      if p in ctx.readList { Take(p); }
      hide Accounted;
      World(p);
      d := ctx;
      if p in ctx.writeList { Take(p); }
      World(p);
      AbortReply(p);
    }

    /** A queued request is taken off its list. */
    method Take(p: Ptr)
      requires Consistent(ctx, book) && (p in ctx.readList || p in ctx.writeList)
      modifies this
      ensures Consistent(ctx, book) && (ctx, book) == AbortTake(old(ctx), old(book), p) && p in book.aborting
    {
      AbortTakeKeeps(ctx, book, p);
      hide Consistent, RemoveAt, IndexOf;
      var next := AbortTake(ctx, book, p);
      ctx, book := next.0, next.1;
    }

    /** The reply of abort_io. */
    method AbortReply(p: Ptr)
      requires Consistent(ctx, book) && p in ctx.requests
      modifies this
      ensures Accounted(ctx, book) <==> p in old(book).aborting
      ensures p in old(book).aborting ==> Consistent(ctx, book) && !InDevice(ctx, book, p)
                                          && Count(book.submitted, p) == Count(book.answered, p)
      ensures p in ctx.requests && ctx.requests[p].error == Aborted
    {
      if p in book.aborting {
        AnswerKeeps(ctx, book, p, ctx.requests[p].(error := Aborted));
        hide Posted, Ordered, Accounted;
        var next := Answer(ctx, book, p, ctx.requests[p].(error := Aborted));
        ctx, book := next.0, next.1;
      } else {
        hide Posted, Ordered;
        ctx := ctx.(requests := ctx.requests[p := ctx.requests[p].(error := Aborted)]);
        book := book.(answered := Bump(book.answered, p));
        Overpaid(old(ctx), old(book), ctx, book, p);
      }
    }
  }

  lemma Balance(c: Ctx, b: Book, p: Ptr)
    requires Consistent(c, b)
    ensures Count(b.submitted, p) == Count(b.answered, p) + if InDevice(c, b, p) then 1 else 0
  {
    hide Posted, Ordered, Distinct;
  }

  lemma FinishKeeps(c: Ctx, b: Book, p: Ptr)
    requires Consistent(c, b) && Owned(c, b, p)
    ensures var e := b.(submitted := Bump(b.submitted, p), answered := Bump(b.answered, p));
            && Consistent(c, e) && Count(e.submitted, p) == Count(e.answered, p) && Owned(c, e, p)
            && Count(e.submitted, p) == Count(b.submitted, p) + 1
  {
    var e := b.(submitted := Bump(b.submitted, p), answered := Bump(b.answered, p));
    assert Accounted(c, e) && Count(e.submitted, p) == Count(e.answered, p) by {
      hide Ordered, Posted, Distinct;
      forall q ensures Count(e.submitted, q) == Count(e.answered, q) + if InDevice(c, e, q) then 1 else 0 {
        assert InDevice(c, e, q) == InDevice(c, b, q);
        assert Count(b.submitted, q) == Count(b.answered, q) + if InDevice(c, b, q) then 1 else 0;
      }
    }
    OrderedSame(c, b, c, e);
    PostedSame(c, b, c, e);
    hide Accounted, Ordered, Posted;
  }

  /** A second answer cannot be accounted for. */
  lemma Overpaid(c: Ctx, b: Book, d: Ctx, e: Book, p: Ptr)
    requires Accounted(c, b) && e == b.(answered := Bump(b.answered, p))
    requires d.readList == c.readList && d.writeList == c.writeList
    ensures !Accounted(d, e)
  {
    assert InDevice(d, e, p) == InDevice(c, b, p);
    assert Count(e.answered, p) == Count(b.answered, p) + 1;
    hide Distinct;
  }
}
