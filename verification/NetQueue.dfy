/** The lists, signals and requests shared by the clients and the handler task of sspinet.device. */
module NetQueue {
  import opened Words
  import opened ExecList

  const MTU := 1518
  const HEADER := 14

  datatype Error = NoError | MtuExceeded | BadArgument | NoCommand | Aborted

  /** An IOSana2Req. */
  datatype Request = Request(
    packetType: nat, raw: bool, quick: bool, broadcast: bool, buffers: bool,
    length: nat, data: seq<byte>, src: seq<byte>, dst: seq<byte>, error: Error)

  /** What clients and handler share: requests by address, the two lists, the pending signals. */
  datatype Ctx = Ctx(
    requests: map<Ptr, Request>,
    readList: seq<Ptr>,
    writeList: seq<Ptr>,
    txSignal: bool,
    rxSignal: bool)

  /** A completed read: which submission, of which type, got which arriving frame, as what. */
  datatype Service = Service(serial: nat, packetType: nat, frame: nat, raw: bool, payload: seq<byte>)

  /** A record of the run, which no branch of the driver depends on. */
  datatype Book = Book(
    hand: set<Ptr>,               // taken off a list by the handler, not yet replied
    aborting: set<Ptr>,           // taken off a list by abort_io, not yet replied
    clearing: set<Ptr>,           // queued by begin_io, which has yet to clear the QUICK flag
    signalling: set<Ptr>,         // writes queued by begin_io, which has yet to signal
    draining: bool,               // the handler got the signal, and has yet to find the write list empty
    submitted: map<Ptr, nat>,
    answered: map<Ptr, nat>,
    serial: map<Ptr, nat>,        // when a read was queued
    next: nat,
    arrived: seq<seq<byte>>,
    served: seq<Service>,
    posted: seq<Request>,         // the writes queued so far, as begin_io let them through
    place: map<Ptr, nat>,         // the number of a queued write among them
    taken: seq<nat>,              // the numbers of those the handler has taken
    dropped: set<nat>)            // and of those aborted

  function Count(m: map<Ptr, nat>, p: Ptr): nat {
    if p in m then m[p] else 0
  }

  function Bump(m: map<Ptr, nat>, p: Ptr): map<Ptr, nat> {
    m[p := Count(m, p) + 1]
  }

  predicate InDevice(c: Ctx, b: Book, p: Ptr) {
    p in c.readList || p in c.writeList || p in b.hand || p in b.aborting
  }

  /** The requests of one type, in list order. */
  function OfType(requests: map<Ptr, Request>, s: seq<Ptr>, t: nat): seq<Ptr>
    requires forall p :: p in s ==> p in requests
  {
    if s == [] then []
    else (if requests[s[0]].packetType == t then [s[0]] else []) + OfType(requests, s[1..], t)
  }

  lemma {:induction false} OfTypeConcat(requests: map<Ptr, Request>, s: seq<Ptr>, u: seq<Ptr>, t: nat)
    requires forall p :: p in s + u ==> p in requests
    ensures OfType(requests, s + u, t) == OfType(requests, s, t) + OfType(requests, u, t)
    decreases |s|
  {
    if s == [] {
      assert s + u == u;
    } else {
      assert (s + u)[1..] == s[1..] + u && (s + u)[0] == s[0];
      OfTypeConcat(requests, s[1..], u, t);
    }
  }

  lemma {:induction false} NoneOfType(requests: map<Ptr, Request>, s: seq<Ptr>, t: nat)
    requires forall p :: p in s ==> p in requests && requests[p].packetType != t
    ensures OfType(requests, s, t) == []
    decreases |s|
  {
    if s != [] { NoneOfType(requests, s[1..], t); }
  }

  /** Taking the first request of a type serves that type's queue from the front, and no other queue. */
  lemma RemoveFirstMatch(requests: map<Ptr, Request>, s: seq<Ptr>, i: nat, t: nat, u: nat)
    requires forall p :: p in s ==> p in requests
    requires i < |s| && requests[s[i]].packetType == t
    requires forall j :: 0 <= j < i ==> requests[s[j]].packetType != t
    ensures forall p :: p in RemoveAt(s, i) ==> p in requests
    ensures OfType(requests, s, t) == [s[i]] + OfType(requests, RemoveAt(s, i), t)
    ensures u != t ==> OfType(requests, RemoveAt(s, i), u) == OfType(requests, s, u)
  {
    var before, p, after := s[..i], s[i], s[i + 1..];
    Parts(s, i);
    NoneBefore(requests, s, i, t);
    hide OfType, RemoveAt;
    OfTypeAround(requests, before, p, after, t);
    OfTypeAround(requests, before, p, after, u);
  }

  lemma Parts(s: seq<Ptr>, i: nat)
    requires i < |s|
    ensures s == s[..i] + ([s[i]] + s[i + 1..]) && RemoveAt(s, i) == s[..i] + s[i + 1..]
    ensures forall q :: q in s <==> q in s[..i] || q == s[i] || q in s[i + 1..]
    ensures forall q :: q in RemoveAt(s, i) <==> q in s[..i] || q in s[i + 1..]
  {
  }

  lemma NoneBefore(requests: map<Ptr, Request>, s: seq<Ptr>, i: nat, t: nat)
    requires i <= |s| && forall p :: p in s ==> p in requests
    requires forall j :: 0 <= j < i ==> requests[s[j]].packetType != t
    ensures forall p :: p in s[..i] ==> p in requests
    ensures OfType(requests, s[..i], t) == []
  {
    forall p | p in s[..i] ensures p in requests && requests[p].packetType != t {
      var j :| 0 <= j < i && s[..i][j] == p;
      assert s[j] in s;
    }
    NoneOfType(requests, s[..i], t);
  }

  lemma OfTypeAround(requests: map<Ptr, Request>, before: seq<Ptr>, p: Ptr, after: seq<Ptr>, t: nat)
    requires forall q :: q in before || q == p || q in after ==> q in requests
    ensures OfType(requests, before + ([p] + after), t)
         == OfType(requests, before, t) + (if requests[p].packetType == t then [p] else []) + OfType(requests, after, t)
    ensures OfType(requests, before + after, t) == OfType(requests, before, t) + OfType(requests, after, t)
  {
    OfTypeConcat(requests, before, [p] + after, t);
    OfTypeConcat(requests, before, after, t);
    assert ([p] + after)[1..] == after;
  }

  // ---- What holds between atomic steps ----------------------------------------------------

  /** Every deferred request is in exactly one place, and everything submitted is answered once or still there. */
  ghost predicate Accounted(c: Ctx, b: Book) {
    && Distinct(c.readList) && Distinct(c.writeList)
    && (forall p :: p in c.readList ==> p !in c.writeList && p !in b.hand && p !in b.aborting)
    && (forall p :: p in c.writeList ==> p !in b.hand && p !in b.aborting)
    && (forall p :: p in b.hand ==> p !in b.aborting)
    && (forall p :: InDevice(c, b, p) ==> p in c.requests)
    && (forall p :: Count(b.submitted, p) == Count(b.answered, p) + if InDevice(c, b, p) then 1 else 0)
  }

  /** A queued write has data that begin_io let through. */
  ghost predicate Sendable(r: Request) {
    r.length <= MTU && r.length <= |r.data| && |r.dst| == 6
  }

  ghost predicate SameButQuick(r: Request, s: Request) {
    s == r.(quick := s.quick)
  }

  /** Reads are queued in the order of their serial numbers, and of each type the oldest have been served. */
  ghost predicate Ordered(c: Ctx, b: Book) {
    && Numbered(c, b) && Younger(c, b) && InOrder(b.served)
    && (forall k :: 0 <= k < |b.served| ==> b.served[k].serial < b.next && b.served[k].frame < |b.arrived|)
  }

  ghost predicate Numbered(c: Ctx, b: Book) {
    && (forall p :: p in c.readList ==> p in c.requests && p in b.serial && b.serial[p] < b.next)
    && (forall i, j :: 0 <= i < j < |c.readList| ==> b.serial[c.readList[i]] < b.serial[c.readList[j]])
  }

  ghost predicate Younger(c: Ctx, b: Book)
    requires Numbered(c, b)
  {
    forall k, p :: 0 <= k < |b.served| && p in c.readList && c.requests[p].packetType == b.served[k].packetType ==>
      b.served[k].serial < b.serial[p]
  }

  /** Reads of one type complete in the order queued, and frames are handed out in the order they arrived. */
  ghost predicate InOrder(served: seq<Service>) {
    forall i, j :: 0 <= i < j < |served| ==>
      served[i].frame < served[j].frame
      && (served[i].packetType == served[j].packetType ==> served[i].serial < served[j].serial)
  }

  /** Write number `n` has been taken by the handler or aborted. */
  predicate Settled(b: Book, n: nat) {
    n in b.taken || n in b.dropped
  }

  /** Writes are taken in the order in which they were queued, and none is lost: each is taken, aborted or queued. */
  ghost predicate Posted(c: Ctx, b: Book) {
    && (forall n :: 0 <= n < |b.posted| ==> Sendable(b.posted[n]))
    && Listed(c, b) && TakenInOrder(b, c.writeList)
    && (forall n :: 0 <= n < |b.posted| ==> Settled(b, n) || Waits(c.writeList, b.place, n))
  }

  /** The writes queued are as they were posted, and in that order. */
  ghost predicate Listed(c: Ctx, b: Book) {
    && (forall p :: p in c.writeList ==> p in c.requests && p in b.place && b.place[p] < |b.posted|
                                         && SameButQuick(b.posted[b.place[p]], c.requests[p]))
    && (forall i, j :: 0 <= i < j < |c.writeList| ==> b.place[c.writeList[i]] < b.place[c.writeList[j]])
  }

  /** Those taken came before those queued, and none of either was aborted. */
  ghost predicate TakenInOrder(b: Book, s: seq<Ptr>) {
    && Ascending(b.taken)
    && (forall n :: n in b.taken ==> n < |b.posted| && n !in b.dropped)
    && (forall n :: n in b.dropped ==> n < |b.posted|)
    && (forall p :: p in s && p in b.place ==> b.place[p] !in b.dropped && forall n :: n in b.taken ==> n < b.place[p])
  }

  /** Write number `n` is in the list. */
  ghost predicate Waits(s: seq<Ptr>, place: map<Ptr, nat>, n: nat) {
    exists p :: p in s && p in place && place[p] == n
  }

  ghost predicate Ascending(s: seq<nat>) {
    forall i, j :: 0 <= i < j < |s| ==> s[i] < s[j]
  }

  /** A queued write will be noticed: the handler is at it, or signalled, or a client is about to signal. */
  ghost predicate Wakeable(c: Ctx, b: Book) {
    c.writeList != [] ==> c.txSignal || b.signalling != {} || b.draining
  }

  ghost predicate Consistent(c: Ctx, b: Book) {
    Accounted(c, b) && Ordered(c, b) && Posted(c, b) && Wakeable(c, b)
  }

  /** Steps that leave the read list, what is asked for in it and the record of reads alone. */
  ghost predicate SameReads(c: Ctx, b: Book, d: Ctx, e: Book) {
    && d.readList == c.readList && e.serial == b.serial && e.next == b.next && e.arrived == b.arrived
    && e.served == b.served
    && (forall p :: p in c.readList && p in c.requests ==>
          p in d.requests && d.requests[p].packetType == c.requests[p].packetType)
  }

  lemma OrderedSame(c: Ctx, b: Book, d: Ctx, e: Book)
    requires Ordered(c, b) && SameReads(c, b, d, e)
    ensures Ordered(d, e)
  {
    hide InOrder;
  }

  /** Steps that leave the write list, its requests and the record of writes alone. */
  ghost predicate SameWrites(c: Ctx, b: Book, d: Ctx, e: Book) {
    && d.writeList == c.writeList && e.posted == b.posted && e.place == b.place && e.taken == b.taken
    && e.dropped == b.dropped
    && (forall p :: p in c.writeList && p in c.requests ==> p in d.requests && SameButQuick(c.requests[p], d.requests[p]))
  }

  lemma PostedSame(c: Ctx, b: Book, d: Ctx, e: Book)
    requires Posted(c, b) && SameWrites(c, b, d, e)
    ensures Posted(d, e)
  {
    hide Ascending, Sendable;
  }

  // ---- Steps of the clients -----------------------------------------------------------------

  /** A request that its client may fill in and submit: neither in the device nor still in begin_io. */
  predicate Owned(c: Ctx, b: Book, p: Ptr) {
    !InDevice(c, b, p) && p !in b.clearing && p !in b.signalling && p in c.requests
  }

  /** Queueing a read, in the read list's semaphore. */
  function QueueRead(c: Ctx, b: Book, p: Ptr): (Ctx, Book)
    requires p in c.requests
  {
    (c.(readList := c.readList + [p], requests := c.requests[p := c.requests[p].(error := NoError)]),
     b.(submitted := Bump(b.submitted, p), serial := b.serial[p := b.next], next := b.next + 1,
        clearing := b.clearing + {p}))
  }

  /** Queueing a write, in the write list's semaphore; its client has yet to clear QUICK and to signal. */
  function QueueWrite(c: Ctx, b: Book, p: Ptr): (Ctx, Book)
    requires p in c.requests
  {
    var r := c.requests[p].(error := NoError);
    (c.(writeList := c.writeList + [p], requests := c.requests[p := r]),
     b.(submitted := Bump(b.submitted, p), clearing := b.clearing + {p}, signalling := b.signalling + {p},
        posted := b.posted + [r], place := b.place[p := |b.posted|]))
  }

  /** begin_io clears QUICK after it has released the list, wherever the request is by then. */
  function ClearQuick(c: Ctx, b: Book, p: Ptr): (Ctx, Book)
    requires p in c.requests
  {
    (c.(requests := c.requests[p := c.requests[p].(quick := false)]), b.(clearing := b.clearing - {p}))
  }

  /** Signal, after that. */
  function SignalTx(c: Ctx, b: Book, p: Ptr): (Ctx, Book) {
    (c.(txSignal := true), b.(signalling := b.signalling - {p}))
  }

  /** abort_io finding a queued request. */
  function AbortTake(c: Ctx, b: Book, p: Ptr): (Ctx, Book)
    requires p in c.readList || p in c.writeList
  {
    if p in c.readList
    then (c.(readList := RemoveAt(c.readList, IndexOf(c.readList, p))), b.(aborting := b.aborting + {p}))
    else (c.(writeList := RemoveAt(c.writeList, IndexOf(c.writeList, p))),
          b.(aborting := b.aborting + {p}, dropped := b.dropped + if p in b.place then {b.place[p]} else {}))
  }

  function Answer(c: Ctx, b: Book, p: Ptr, r: Request): (Ctx, Book) {
    (c.(requests := c.requests[p := r]),
     b.(hand := b.hand - {p}, aborting := b.aborting - {p}, answered := Bump(b.answered, p)))
  }

  datatype Event =
    | Prepare(p: Ptr, r: Request)    // a client fills in a request it owns
    | Read(p: Ptr)
    | Write(p: Ptr)
    | Clear(p: Ptr)
    | Signal(p: Ptr)
    | VerticalBlank
    | Abort(p: Ptr)
    | AbortReply(p: Ptr)

  /** Anything a client or the interrupt server may do next. Aborts are for queued requests only. */
  function React(c: Ctx, b: Book, e: Event): (Ctx, Book) {
    match e
    case Prepare(p, r) =>
      if InDevice(c, b, p) || p in b.clearing || p in b.signalling then (c, b)
      else (c.(requests := c.requests[p := r]), b)
    case Read(p) => if Owned(c, b, p) then QueueRead(c, b, p) else (c, b)
    case Write(p) =>
      if Owned(c, b, p) && c.requests[p].length <= MTU && c.requests[p].length <= |c.requests[p].data|
         && |c.requests[p].dst| == 6 then QueueWrite(c, b, p)
      else (c, b)
    case Clear(p) => if p in b.clearing && p in c.requests then ClearQuick(c, b, p) else (c, b)
    case Signal(p) => if p in b.signalling && p !in b.clearing then SignalTx(c, b, p) else (c, b)
    case VerticalBlank => (c.(rxSignal := true), b)
    case Abort(p) => if p in c.readList || p in c.writeList then AbortTake(c, b, p) else (c, b)
    case AbortReply(p) =>
      if p in b.aborting && p in c.requests then Answer(c, b, p, c.requests[p].(error := Aborted)) else (c, b)
  }

  /** What the handler can rely on across any number of such steps. */
  ghost predicate Passed(c: Ctx, b: Book, d: Ctx, e: Book) {
    && e.hand == b.hand && e.served == b.served && e.arrived == b.arrived && e.taken == b.taken
    && e.draining == b.draining
    && b.posted <= e.posted && b.dropped <= e.dropped
    && (forall p :: p in b.hand && p in c.requests ==> p in d.requests && SameButQuick(c.requests[p], d.requests[p]))
    && (c.txSignal ==> d.txSignal) && (c.rxSignal ==> d.rxSignal)
  }

  lemma QueueReadAccounted(c: Ctx, b: Book, p: Ptr)
    requires Accounted(c, b) && Owned(c, b, p)
    ensures var (d, e) := QueueRead(c, b, p); Accounted(d, e)
  {
    AppendMembers(c.readList, p);
    hide Distinct;
  }

  lemma QueueReadOrdered(c: Ctx, b: Book, p: Ptr)
    requires Ordered(c, b) && p in c.requests && p !in c.readList
    ensures var (d, e) := QueueRead(c, b, p); Ordered(d, e)
  {
    hide InOrder;
    var (d, e) := QueueRead(c, b, p);
    assert forall q :: q in d.readList <==> q in c.readList || q == p;
  }

  lemma QueueWriteAccounted(c: Ctx, b: Book, p: Ptr)
    requires Accounted(c, b) && Owned(c, b, p)
    ensures var (d, e) := QueueWrite(c, b, p); Accounted(d, e)
  {
    AppendMembers(c.writeList, p);
    hide Distinct;
  }

  lemma QueueReadKeeps(c: Ctx, b: Book, p: Ptr)
    requires Consistent(c, b) && Owned(c, b, p)
    ensures var (d, e) := QueueRead(c, b, p); Consistent(d, e) && Passed(c, b, d, e)
  {
    var (d, e) := QueueRead(c, b, p);
    assert p !in c.readList && p !in c.writeList && p !in b.hand;
    QueueReadAccounted(c, b, p);
    hide Distinct, InOrder, Accounted, Ordered, Posted;
    QueueReadOrdered(c, b, p);
    PostedSame(c, b, d, e);
  }

  lemma QueueWriteKeeps(c: Ctx, b: Book, p: Ptr)
    requires Consistent(c, b) && Owned(c, b, p) && Sendable(c.requests[p])
    ensures var (d, e) := QueueWrite(c, b, p); Consistent(d, e) && Passed(c, b, d, e)
  {
    var (d, e) := QueueWrite(c, b, p);
    assert p !in c.readList && p !in c.writeList && p !in b.hand;
    QueueWriteAccounted(c, b, p);
    hide Distinct, InOrder, Accounted, Ordered, Posted;
    QueuePosted(c, b, p);
    OrderedSame(c, b, d, e);
  }

  lemma QueuePosted(c: Ctx, b: Book, p: Ptr)
    requires Posted(c, b) && p in c.requests && p !in c.writeList && Sendable(c.requests[p])
    ensures var (d, e) := QueueWrite(c, b, p); Posted(d, e)
  {
    var (d, e) := QueueWrite(c, b, p);
    hide Ascending;
    assert Listed(d, e) by { assert d.writeList[|c.writeList|] == p; }
    assert TakenInOrder(e, d.writeList);
    hide Listed, TakenInOrder, Sendable;
    forall n | 0 <= n < |e.posted| ensures Settled(e, n) || Waits(d.writeList, e.place, n) {
      if n == |b.posted| {
        assert p in d.writeList && e.place[p] == n;
      } else if !Settled(b, n) {
        var q :| q in c.writeList && q in b.place && b.place[q] == n;
        assert q in d.writeList && e.place[q] == n;
      }
    }
  }

  /** A request taken off a list is in the hands of the handler or of abort_io. */
  ghost predicate InHand(b: Book, e: Book, p: Ptr) {
    && ((e.hand == b.hand + {p} && e.aborting == b.aborting) || (e.hand == b.hand && e.aborting == b.aborting + {p}))
    && e.submitted == b.submitted && e.answered == b.answered
  }

  lemma TakeReadAccounted(c: Ctx, b: Book, e: Book, i: nat)
    requires Accounted(c, b) && i < |c.readList| && InHand(b, e, c.readList[i])
    ensures Accounted(c.(readList := RemoveAt(c.readList, i)), e)
  {
    RemoveAtMembers(c.readList, i);
    hide RemoveAt, Distinct;
  }

  lemma TakeWriteAccounted(c: Ctx, b: Book, e: Book, i: nat)
    requires Accounted(c, b) && i < |c.writeList| && InHand(b, e, c.writeList[i])
    ensures Accounted(c.(writeList := RemoveAt(c.writeList, i)), e)
  {
    RemoveAtMembers(c.writeList, i);
    hide RemoveAt, Distinct;
  }

  lemma TakeReadOrdered(c: Ctx, b: Book, e: Book, i: nat)
    requires Ordered(c, b) && i < |c.readList|
    requires e.serial == b.serial && e.next == b.next && e.arrived == b.arrived && e.served == b.served
    ensures Ordered(c.(readList := RemoveAt(c.readList, i)), e)
  {
    RemoveAtElements(c.readList, i);
    hide RemoveAt, InOrder;
  }

  /** Write number `n`, which is at the head of the list or aborted, is no longer queued. */
  ghost predicate TakenOff(b: Book, e: Book, i: nat, n: nat) {
    && e.posted == b.posted && e.place == b.place
    && ((i == 0 && e.taken == b.taken + [n] && e.dropped == b.dropped)
        || (e.taken == b.taken && e.dropped == b.dropped + {n}))
  }

  lemma TakeWritePosted(c: Ctx, b: Book, e: Book, i: nat)
    requires Posted(c, b) && Distinct(c.writeList) && i < |c.writeList| && c.writeList[i] in b.place
    requires TakenOff(b, e, i, b.place[c.writeList[i]])
    ensures Posted(c.(writeList := RemoveAt(c.writeList, i)), e)
  {
    var d, p := c.(writeList := RemoveAt(c.writeList, i)), c.writeList[i];
    RemoveAtElements(c.writeList, i);
    RemoveAtMembers(c.writeList, i);
    hide RemoveAt, Distinct, Sendable, SameButQuick;
    Others(c, b, i);
    assert Listed(d, e) by { hide TakenInOrder; }
    assert TakenInOrder(e, d.writeList) by { TakenInOrderStill(c, b, e, i, d.writeList); }
    hide Listed, TakenInOrder;
    forall n | 0 <= n < |e.posted| ensures Settled(e, n) || Waits(d.writeList, e.place, n) {
      StillThere(c.writeList, d.writeList, b, e, i, p, n);
    }
  }

  lemma Others(c: Ctx, b: Book, i: nat)
    requires Listed(c, b) && i < |c.writeList|
    ensures forall q :: q in c.writeList && q != c.writeList[i] ==>
              b.place[q] != b.place[c.writeList[i]] && (i == 0 ==> b.place[c.writeList[0]] < b.place[q])
  {
    forall q | q in c.writeList && q != c.writeList[i]
      ensures b.place[q] != b.place[c.writeList[i]] && (i == 0 ==> b.place[c.writeList[0]] < b.place[q])
    {
      var k :| 0 <= k < |c.writeList| && c.writeList[k] == q;
    }
  }

  lemma TakenInOrderStill(c: Ctx, b: Book, e: Book, i: nat, s: seq<Ptr>)
    requires Listed(c, b) && TakenInOrder(b, c.writeList) && i < |c.writeList|
    requires TakenOff(b, e, i, b.place[c.writeList[i]])
    requires forall q :: q in s <==> q in c.writeList && q != c.writeList[i]
    requires forall q :: q in s ==> b.place[q] != b.place[c.writeList[i]]
    requires i == 0 ==> forall q :: q in s ==> b.place[c.writeList[0]] < b.place[q]
    ensures TakenInOrder(e, s)
  {
    hide SameButQuick;
    var p := c.writeList[i];
    assert p in c.writeList && p in b.place;
    var n := b.place[p];
    assert forall m :: m in b.taken ==> m < n;
    if e.taken == b.taken + [n] {
      forall j, k | 0 <= j < k < |e.taken| ensures e.taken[j] < e.taken[k] {
        assert b.taken[j] in b.taken;
      }
      assert forall m :: m in e.taken <==> m in b.taken || m == n;
    }
  }

  lemma StillThere(s: seq<Ptr>, t: seq<Ptr>, b: Book, e: Book, i: nat, p: Ptr, n: nat)
    requires Settled(b, n) || Waits(s, b.place, n)
    requires p in b.place && TakenOff(b, e, i, b.place[p]) && forall q :: q in s && q != p ==> q in t
    ensures Settled(e, n) || Waits(t, e.place, n)
  {
    if !Settled(b, n) {
      var q :| q in s && q in b.place && b.place[q] == n;
      if q != p { assert q in t; }
    }
  }

  lemma AbortTakeKeeps(c: Ctx, b: Book, p: Ptr)
    requires Consistent(c, b) && (p in c.readList || p in c.writeList)
    ensures var (d, e) := AbortTake(c, b, p); Consistent(d, e) && Passed(c, b, d, e)
  {
    assert p !in b.hand by { hide Ordered, Posted, Distinct; }
    if p in c.readList {
      AbortReadKeeps(c, b, p);
    } else {
      AbortWriteKeeps(c, b, p);
    }
    hide Consistent, RemoveAt, IndexOf;
  }

  lemma AbortReadKeeps(c: Ctx, b: Book, p: Ptr)
    requires Consistent(c, b) && p in c.readList
    ensures var (d, e) := AbortTake(c, b, p); Consistent(d, e)
  {
    var (d, e) := AbortTake(c, b, p);
    var i := IndexOf(c.readList, p);
    hide RemoveAt, IndexOf, Accounted, Ordered, Posted;
    TakeReadAccounted(c, b, e, i);
    TakeReadOrdered(c, b, e, i);
    PostedSame(c, b, d, e);
  }

  lemma AbortWriteKeeps(c: Ctx, b: Book, p: Ptr)
    requires Consistent(c, b) && p in c.writeList && p !in c.readList
    ensures var (d, e) := AbortTake(c, b, p); Consistent(d, e)
  {
    var (d, e) := AbortTake(c, b, p);
    var i := IndexOf(c.writeList, p);
    assert p in b.place && Distinct(c.writeList) by { hide Ordered; }
    hide RemoveAt, IndexOf, Accounted, Ordered, Posted, Distinct;
    RemoveAtElements(c.writeList, i);
    TakeWriteAccounted(c, b, e, i);
    TakeWritePosted(c, b, e, i);
    OrderedSame(c, b, d, e);
  }

  lemma PrepareKeeps(c: Ctx, b: Book, p: Ptr, r: Request)
    requires Consistent(c, b) && !InDevice(c, b, p)
    ensures var d := c.(requests := c.requests[p := r]); Consistent(d, b) && Passed(c, b, d, b)
  {
    var d := c.(requests := c.requests[p := r]);
    assert Accounted(d, b) by { hide Distinct, Ordered, Posted; }
    assert SameReads(c, b, d, b) && SameWrites(c, b, d, b) by { hide Distinct, Ordered, Posted, Accounted; }
    OrderedSame(c, b, d, b);
    PostedSame(c, b, d, b);
    hide Accounted, Ordered, Posted, Distinct;
  }

  /** Clearing QUICK touches neither accounts nor orders, wherever the request is. */
  lemma ClearKeeps(c: Ctx, b: Book, p: Ptr)
    requires Consistent(c, b) && p in c.requests
    ensures var (d, e) := ClearQuick(c, b, p); Consistent(d, e) && Passed(c, b, d, e)
  {
    var (d, e) := ClearQuick(c, b, p);
    assert Accounted(d, e) by {
      hide Distinct, Ordered, Posted;
      assert forall q :: InDevice(d, e, q) <==> InDevice(c, b, q);
    }
    assert SameReads(c, b, d, e) && SameWrites(c, b, d, e) by { hide Distinct, Ordered, Posted, Accounted; }
    OrderedSame(c, b, d, e);
    PostedSame(c, b, d, e);
    hide Accounted, Ordered, Posted;
  }

  /** Signals touch neither requests nor lists. */
  lemma SignalsKeep(c: Ctx, b: Book, tx: bool, rx: bool, signalling: set<Ptr>, draining: bool)
    requires Consistent(c, b)
    ensures var d, e := c.(txSignal := tx, rxSignal := rx), b.(signalling := signalling, draining := draining);
            Accounted(d, e) && Ordered(d, e) && Posted(d, e)
  {
    var d, e := c.(txSignal := tx, rxSignal := rx), b.(signalling := signalling, draining := draining);
    assert Accounted(d, e) by {
      hide Distinct, Ordered, Posted;
      assert forall q :: InDevice(d, e, q) <==> InDevice(c, b, q);
    }
    assert SameReads(c, b, d, e) && SameWrites(c, b, d, e) by { hide Distinct, Ordered, Posted, Accounted; }
    OrderedSame(c, b, d, e);
    PostedSame(c, b, d, e);
    hide Accounted, Ordered, Posted;
  }

  lemma AnswerKeeps(c: Ctx, b: Book, p: Ptr, r: Request)
    requires Consistent(c, b) && p in c.requests && (p in b.hand || p in b.aborting)
    ensures var (d, e) := Answer(c, b, p, r);
            && Consistent(d, e) && !InDevice(d, e, p) && e.hand == b.hand - {p}
            && Count(e.submitted, p) == Count(e.answered, p)
  {
    var (d, e) := Answer(c, b, p, r);
    AnswerAccounted(c, b, p, r);
    assert p !in c.readList && p !in c.writeList by { hide Ordered, Posted, Distinct; }
    assert SameReads(c, b, d, e) && SameWrites(c, b, d, e) by { hide Distinct, Ordered, Posted, Accounted; }
    OrderedSame(c, b, d, e);
    PostedSame(c, b, d, e);
    hide Accounted, Ordered, Posted;
  }

  lemma AnswerAccounted(c: Ctx, b: Book, p: Ptr, r: Request)
    requires Accounted(c, b) && p in c.requests && (p in b.hand || p in b.aborting)
    ensures var (d, e) := Answer(c, b, p, r);
            Accounted(d, e) && !InDevice(d, e, p) && Count(e.submitted, p) == Count(e.answered, p)
  {
    hide Distinct;
    var (d, e) := Answer(c, b, p, r);
    assert forall q :: q != p ==> InDevice(d, e, q) == InDevice(c, b, q);
    assert forall q :: q != p ==> Count(e.answered, q) == Count(b.answered, q);
    assert !InDevice(d, e, p) && InDevice(c, b, p) && Count(e.answered, p) == Count(b.answered, p) + 1;
    hide InDevice, Count, Bump;
  }

  /** Whatever the clients do next, everything stays accounted for, in order and noticed. */
  lemma ReactKeeps(c: Ctx, b: Book, e: Event)
    requires Consistent(c, b)
    ensures var (d, f) := React(c, b, e); Consistent(d, f) && Passed(c, b, d, f)
  {
    hide Accounted, Ordered, Posted, InDevice;
    match e
    case Prepare(p, r) => if !InDevice(c, b, p) { PrepareKeeps(c, b, p, r); }
    case Read(p) => if Owned(c, b, p) { QueueReadKeeps(c, b, p); }
    case Write(p) => if Owned(c, b, p) && Sendable(c.requests[p]) { QueueWriteKeeps(c, b, p); }
    case Clear(p) => if p in b.clearing && p in c.requests { ClearKeeps(c, b, p); }
    case Signal(p) => SignalsKeep(c, b, true, c.rxSignal, b.signalling - {p}, b.draining);
    case VerticalBlank => SignalsKeep(c, b, c.txSignal, true, b.signalling, b.draining);
    case Abort(p) => if p in c.readList || p in c.writeList { AbortTakeKeeps(c, b, p); }
    case AbortReply(p) => if p in b.aborting && p in c.requests { AbortReplyKeeps(c, b, p); }
  }

  lemma AbortReplyKeeps(c: Ctx, b: Book, p: Ptr)
    requires Consistent(c, b) && p in c.requests && p in b.aborting
    ensures var (d, e) := Answer(c, b, p, c.requests[p].(error := Aborted)); Consistent(d, e) && Passed(c, b, d, e)
  {
    AnswerKeeps(c, b, p, c.requests[p].(error := Aborted));
    assert p !in b.hand by { hide Ordered, Posted, Distinct; }
    hide Accounted, Ordered, Posted;
  }

  lemma PassedTrans(c: Ctx, b: Book, d: Ctx, e: Book, f: Ctx, g: Book)
    requires Passed(c, b, d, e) && Passed(d, e, f, g)
    ensures Passed(c, b, f, g)
  {
  }

  lemma PassedSame(c: Ctx, b: Book)
    ensures Passed(c, b, c, b)
  {
  }

  // ---- Steps of the handler -----------------------------------------------------------------

  /** The position of the first read request of type `t`, or the length of the list. */
  ghost predicate FirstOf(c: Ctx, t: nat, i: nat)
    requires forall p :: p in c.readList ==> p in c.requests
  {
    && i <= |c.readList|
    && (forall j :: 0 <= j < i ==> c.requests[c.readList[j]].packetType != t)
    && (i < |c.readList| ==> c.requests[c.readList[i]].packetType == t)
  }

  /** The latest frame goes to the reader at `i` of the list. */
  function Serve(c: Ctx, b: Book, i: nat, t: nat, payload: seq<byte>): (Ctx, Book)
    requires b.arrived != [] && i < |c.readList| && c.readList[i] in c.requests
  {
    var p := c.readList[i];
    (c.(readList := RemoveAt(c.readList, i)),
     b.(hand := b.hand + {p},
        served := b.served + [Service(Count(b.serial, p), t, |b.arrived| - 1, c.requests[p].raw, payload)]))
  }

  /** No frame but earlier ones have been handed out. */
  predicate Unserved(b: Book) {
    |b.arrived| > 0 && forall k :: 0 <= k < |b.served| ==> b.served[k].frame < |b.arrived| - 1
  }

  /** RemHead on the write list. */
  function TakeHead(c: Ctx, b: Book): (Ctx, Book) {
    if c.writeList == [] then (c, b.(draining := false))
    else (c.(writeList := c.writeList[1..]),
          b.(hand := b.hand + {c.writeList[0]}, taken := b.taken + [Count(b.place, c.writeList[0])]))
  }

  /** Wait returns: the signals received are cleared. */
  function Wake(c: Ctx, b: Book): (Ctx, Book) {
    (c.(txSignal := false, rxSignal := false), b.(draining := b.draining || c.txSignal))
  }

  lemma ServeKeeps(c: Ctx, b: Book, i: nat, t: nat, payload: seq<byte>)
    requires Consistent(c, b) && Unserved(b) && i < |c.readList| && FirstOf(c, t, i)
    ensures var (d, e) := Serve(c, b, i, t, payload); Consistent(d, e)
  {
    var p := c.readList[i];
    var (d, e) := Serve(c, b, i, t, payload);
    assert p in c.readList;
    assert InHand(b, e, p) by { hide Ordered, Posted, Distinct; }
    TakeReadAccounted(c, b, e, i);
    ServeOrdered(c, b, i, t, payload);
    PostedSame(c, b, d, e);
    hide Accounted, Ordered, Posted, RemoveAt, InHand, FirstOf;
  }

  lemma ServeOrdered(c: Ctx, b: Book, i: nat, t: nat, payload: seq<byte>)
    requires Ordered(c, b) && Unserved(b) && i < |c.readList| && FirstOf(c, t, i)
    ensures var (d, e) := Serve(c, b, i, t, payload); Ordered(d, e)
  {
    var (d, e) := Serve(c, b, i, t, payload);
    assert Numbered(d, e) by {
      RemoveAtElements(c.readList, i);
      hide RemoveAt, Younger, InOrder;
    }
    ServeInOrder(c, b, i, t, e);
    ServeOldest(c, b, i, t, payload);
    assert c.readList[i] in c.readList;
    hide InOrder, FirstOf, Numbered, Younger, RemoveAt;
  }

  /** What is left in the list was queued after everything served of its type. */
  lemma ServeOldest(c: Ctx, b: Book, i: nat, t: nat, payload: seq<byte>)
    requires Ordered(c, b) && b.arrived != [] && i < |c.readList| && FirstOf(c, t, i)
    requires var (d, e) := Serve(c, b, i, t, payload); Numbered(d, e)
    ensures var (d, e) := Serve(c, b, i, t, payload); Younger(d, e)
  {
    var (d, e) := Serve(c, b, i, t, payload);
    RemoveAtElements(c.readList, i);
    hide RemoveAt, InOrder;
    forall k, p | 0 <= k < |e.served| && p in d.readList && d.requests[p].packetType == e.served[k].packetType
      ensures e.served[k].serial < e.serial[p]
    {
      var j :| 0 <= j < |d.readList| && d.readList[j] == p;
      assert p == c.readList[if j < i then j else j + 1];
    }
  }

  lemma ServeInOrder(c: Ctx, b: Book, i: nat, t: nat, e: Book)
    requires Ordered(c, b) && Unserved(b) && i < |c.readList| && FirstOf(c, t, i)
    requires exists payload :: e == Serve(c, b, i, t, payload).1
    ensures InOrder(e.served)
  {
    assert c.readList[i] in c.readList;
    hide RemoveAt;
  }

  /** The head of the write list passes to the handler, and the others keep their order; nothing was lost. */
  lemma TakeHeadKeeps(c: Ctx, b: Book)
    requires Consistent(c, b) && (c.writeList != [] ==> b.draining)
    ensures var (d, e) := TakeHead(c, b); Consistent(d, e)
    ensures c.writeList != [] ==> var p := c.writeList[0];
                                  p in c.requests && p in b.place && b.place[p] < |b.posted|
                                  && SameButQuick(b.posted[b.place[p]], c.requests[p]) && Sendable(c.requests[p])
  {
    var (d, e) := TakeHead(c, b);
    hide Distinct, InOrder, Ascending;
    if c.writeList == [] {
      SignalsKeep(c, b, c.txSignal, c.rxSignal, b.signalling, false);
      hide Accounted, Ordered, Posted;
    } else {
      var p := c.writeList[0];
      assert p in c.writeList;
      assert InHand(b, e, p) by { hide Ordered, Posted; }
      assert RemoveAt(c.writeList, 0) == c.writeList[1..];
      TakeWriteAccounted(c, b, e, 0);
      TakeWritePosted(c, b, e, 0);
      OrderedSame(c, b, d, e);
      hide Accounted, Ordered, RemoveAt, InHand;
    }
  }

  lemma WakeKeeps(c: Ctx, b: Book)
    requires Consistent(c, b)
    ensures var (d, e) := Wake(c, b); Consistent(d, e)
  {
    SignalsKeep(c, b, false, false, b.signalling, b.draining || c.txSignal);
    hide Accounted, Ordered, Posted;
  }

  lemma ArrivalKeeps(c: Ctx, b: Book, f: seq<byte>)
    requires Consistent(c, b)
    ensures var e := b.(arrived := b.arrived + [f]); Consistent(c, e) && (Unserved(e))
  {
    var e := b.(arrived := b.arrived + [f]);
    assert Accounted(c, e) by {
      hide Distinct, Ordered, Posted;
      assert forall q :: InDevice(c, e, q) <==> InDevice(c, b, q);
    }
    assert Ordered(c, e) && Unserved(e) by { hide InOrder, Posted, Accounted; }
    PostedSame(c, b, c, e);
    hide Accounted, Ordered, Posted;
  }

  /** The loop over the read list. */
  function FirstIndex(requests: map<Ptr, Request>, s: seq<Ptr>, t: nat): (i: nat)
    ensures i <= |s|
    ensures forall j :: 0 <= j < i && s[j] in requests ==> requests[s[j]].packetType != t
    ensures i < |s| ==> s[i] in requests && requests[s[i]].packetType == t
  {
    if s == [] || (s[0] in requests && requests[s[0]].packetType == t) then 0 else 1 + FirstIndex(requests, s[1..], t)
  }

  datatype Work =
    | Sleep                                // Wait returns
    | Fetch                                // RemHead on the write list
    | Arrive(f: seq<byte>)                 // nic_recv
    | Give(t: nat, payload: seq<byte>)     // the search of the read list
    | Done(p: Ptr, r: Request)             // ReplyMsg

  /** Anything the handler may do next. It sets no QUICK flag. */
  function Handle(c: Ctx, b: Book, w: Work): (Ctx, Book) {
    match w
    case Sleep => Wake(c, b)
    case Fetch => if b.draining then TakeHead(c, b) else (c, b)
    case Arrive(f) => (c, b.(arrived := b.arrived + [f]))
    case Give(t, payload) =>
      var i := FirstIndex(c.requests, c.readList, t);
      if Unserved(b) && i < |c.readList| then Serve(c, b, i, t, payload) else (c, b)
    case Done(p, r) =>
      if p in b.hand && p in c.requests && (r.quick ==> c.requests[p].quick) then Answer(c, b, p, r) else (c, b)
  }

  /** Whatever the handler does next, everything stays accounted for, in order and noticed. */
  lemma HandleKeeps(c: Ctx, b: Book, w: Work)
    requires Consistent(c, b)
    ensures var (d, e) := Handle(c, b, w); Consistent(d, e)
  {
    hide Consistent, InDevice;
    match w
    case Sleep => WakeKeeps(c, b);
    case Fetch => if b.draining { TakeHeadKeeps(c, b); }
    case Arrive(f) => ArrivalKeeps(c, b, f);
    case Give(t, payload) =>
      ReadsKnown(c, b);
      var i := FirstIndex(c.requests, c.readList, t);
      if Unserved(b) && i < |c.readList| { ServeKeeps(c, b, i, t, payload); }
    case Done(p, r) =>
      if p in b.hand && p in c.requests { AnswerKeeps(c, b, p, r); }
  }

  lemma ReadsKnown(c: Ctx, b: Book)
    requires Consistent(c, b)
    ensures forall p :: p in c.readList ==> p in c.requests
  {
    hide Posted, Accounted;
  }

  /** When the handler finds the write list empty, every write queued so far is settled. */
  lemma AllSettled(c: Ctx, b: Book, n: nat)
    requires Posted(c, b) && c.writeList == [] && n < |b.posted|
    ensures Settled(b, n)
  {
    hide Ascending, Sendable;
  }
}
