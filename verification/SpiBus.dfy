/**
 The bus that the SD and the network driver share: one semaphore, one chip-select port, and a
 copy of the library in each driver, whose calls interleave arbitrarily.
 */
module SpiBus {
  datatype Id = Sd | Nic

  function Other(d: Id): Id {
    if d == Sd then Nic else Sd
  }

  /** The channel numbers passed to spi_initialize. */
  function Channel(d: Id): nat {
    if d == Sd then 1 else 2
  }

  datatype Op = Obtain | Release | Select | Deselect

  datatype Holder = Free | HeldBy(d: Id)

  /** The semaphore and the chip-select port. */
  datatype Bus = Bus(holder: Holder, cs: nat)

  /** A driver's bus_taken flag, and whether it is between spi_select and spi_deselect. */
  datatype Client = Client(taken: bool, selected: bool)

  /** What a library call does to the bus. */
  function BusAfter(b: Bus, c: Client, d: Id, op: Op): Bus {
    match op
    case Obtain => if c.taken then b else b.(holder := HeldBy(d))
    case Release => if c.taken then b.(holder := Free) else b
    case Select => b.(cs := Channel(d))
    case Deselect => b.(cs := 0)
  }

  function ClientAfter(c: Client, op: Op): Client {
    match op
    case Obtain => c.(taken := true)
    case Release => c.(taken := false)
    case Select => c.(selected := true)
    case Deselect => c.(selected := false)
  }

  /** The resource that spi_initialize opens or creates. */
  class Resource {
    var bus: Bus

    constructor ()
      ensures bus == Bus(Free, 0)
    {
      bus := Bus(Free, 0);
    }
  }

  /** The library as linked into one driver. */
  class Library {
    const id: Id
    const sspi: Resource
    var busTaken: bool
    var channel: nat
    ghost var selected: bool

    constructor (d: Id, r: Resource)
      ensures id == d && sspi == r && Here() == Client(false, false)
      ensures channel == Channel(d) == if d == Sd then 1 else 2
    {
      id, sspi, busTaken, channel, selected := d, r, false, Channel(d), false;
    }

    ghost function Here(): Client
      reads this
    {
      Client(busTaken, selected)
    }

    /** spi_obtain: returns once no other driver holds the semaphore. */
    method ObtainBus()
      requires !busTaken ==> sspi.bus.holder == Free
      modifies this, sspi
      ensures sspi.bus == BusAfter(old(sspi.bus), old(Here()), id, Obtain) && Here() == ClientAfter(old(Here()), Obtain)
      ensures channel == old(channel)
    {
      if !busTaken {
        sspi.bus := sspi.bus.(holder := HeldBy(id));
        busTaken := true;
      }
    }

    /** spi_release. */
    method ReleaseBus()
      modifies this, sspi
      ensures sspi.bus == BusAfter(old(sspi.bus), old(Here()), id, Release)
      ensures Here() == ClientAfter(old(Here()), Release)
      ensures channel == old(channel)
    {
      if busTaken {
        sspi.bus := sspi.bus.(holder := Free);
        busTaken := false;
      }
    }

    /** spi_select. */
    method SelectChip()
      requires channel == Channel(id)
      modifies this, sspi
      ensures sspi.bus == BusAfter(old(sspi.bus), old(Here()), id, Select) && Here() == ClientAfter(old(Here()), Select)
      ensures channel == old(channel)
    {
      sspi.bus := sspi.bus.(cs := channel);
      selected := true;
    }

    /** spi_deselect. */
    method DeselectChip()
      modifies this, sspi
      ensures sspi.bus == BusAfter(old(sspi.bus), old(Here()), id, Deselect)
      ensures Here() == ClientAfter(old(Here()), Deselect)
      ensures channel == old(channel)
    {
      sspi.bus := sspi.bus.(cs := 0);
      selected := false;
    }
  }

  // ---- What the drivers do with it -----------------------------------------------------------

  /** spi_select only with the bus, and spi_release only with the chip deselected. Deselecting is free. */
  predicate Disciplined(c: Client, op: Op) {
    match op
    case Select => c.taken
    case Release => !c.selected
    case _ => true
  }

  predicate DisciplinedRun(c: Client, ops: seq<Op>)
    decreases |ops|
  {
    ops == [] || (Disciplined(c, ops[0]) && DisciplinedRun(ClientAfter(c, ops[0]), ops[1..]))
  }

  function ClientEnd(c: Client, ops: seq<Op>): Client
    decreases |ops|
  {
    if ops == [] then c else ClientEnd(ClientAfter(c, ops[0]), ops[1..])
  }

  lemma {:induction false} RunConcat(c: Client, s: seq<Op>, t: seq<Op>)
    ensures ClientEnd(c, s + t) == ClientEnd(ClientEnd(c, s), t)
    ensures DisciplinedRun(c, s + t) <==> DisciplinedRun(c, s) && DisciplinedRun(ClientEnd(c, s), t)
    decreases |s|
  {
    if s == [] {
      assert s + t == t;
    } else {
      assert (s + t)[1..] == s[1..] + t;
      RunConcat(ClientAfter(c, s[0]), s[1..], t);
    }
  }

  /** Each sd_send_cmd deselects and gives the bus up, takes it and selects; a busy card is deselected again. */
  function SdCommand(ready: bool): seq<Op> {
    [Deselect, Release, Obtain, Select] + if ready then [] else [Deselect]
  }

  function SdCommands(rs: seq<bool>): seq<Op> {
    if rs == [] then [] else SdCommand(rs[0]) + SdCommands(rs[1..])
  }

  lemma {:induction false} SdCommandsConcat(rs: seq<bool>, qs: seq<bool>)
    ensures SdCommands(rs + qs) == SdCommands(rs) + SdCommands(qs)
    decreases |rs|
  {
    hide SdCommand;
    if rs == [] {
      assert rs + qs == qs;
    } else {
      assert (rs + qs)[1..] == rs[1..] + qs && (rs + qs)[0] == rs[0];
      SdCommandsConcat(rs[1..], qs);
    }
  }

  lemma SdCommandsOne(ready: bool)
    ensures SdCommands([ready]) == SdCommand(ready)
  {
    assert [ready][1..] == [];
  }

  /** sd_open, sd_read and sd_write. */
  function SdCall(open: bool, rs: seq<bool>): seq<Op> {
    (if open then [Obtain, Deselect] else []) + SdCommands(rs) + [Deselect, Release]
  }

  function Transactions(n: nat): seq<Op> {
    if n == 0 then [] else [Select, Deselect] + Transactions(n - 1)
  }

  /** Every nic_ function: the bus is kept for all its register and buffer accesses. */
  function NicCall(n: nat): seq<Op> {
    [Obtain] + Transactions(n) + [Release]
  }

  lemma {:induction false} SdCommandsDisciplined(c: Client, rs: seq<bool>)
    ensures DisciplinedRun(c, SdCommands(rs))
    decreases |rs|
  {
    if rs != [] {
      var s := SdCommand(rs[0]);
      SdCommandDisciplined(c, rs[0]);
      hide SdCommand, DisciplinedRun, ClientEnd;
      SdCommandsDisciplined(ClientEnd(c, s), rs[1..]);
      RunConcat(c, s, SdCommands(rs[1..]));
    }
  }

  lemma SdCommandDisciplined(c: Client, ready: bool)
    ensures DisciplinedRun(c, SdCommand(ready))
  {
    var d := [Deselect, Release, Obtain, Select];
    assert d[1..] == [Release, Obtain, Select] && d[1..][1..] == [Obtain, Select] && d[1..][1..][1..] == [Select];
    assert DisciplinedRun(ClientAfter(ClientAfter(c, Deselect), Release), [Obtain, Select]) by {
      assert [Obtain, Select][1..] == [Select] && [Select][1..] == [];
    }
    assert DisciplinedRun(c, d);
    hide DisciplinedRun, ClientEnd;
    assert DisciplinedRun(ClientEnd(c, d), if ready then [] else [Deselect]) by { Finish(ClientEnd(c, d)); }
    RunConcat(c, d, if ready then [] else [Deselect]);
  }

  lemma Finish(c: Client)
    ensures DisciplinedRun(c, []) && DisciplinedRun(c, [Deselect]) && DisciplinedRun(c, [Deselect, Release])
    ensures ClientEnd(c, [Deselect, Release]) == Client(false, false)
  {
    assert [Deselect][1..] == [] && [Deselect, Release][1..] == [Release] && [Release][1..] == [];
    assert ClientEnd(ClientAfter(c, Deselect), [Release]) == Client(false, false);
  }

  /** Every SD call keeps the rules, and ends with the bus free. */
  lemma SdCallDisciplined(open: bool, rs: seq<bool>)
    ensures DisciplinedRun(Client(false, false), SdCall(open, rs))
    ensures ClientEnd(Client(false, false), SdCall(open, rs)) == Client(false, false)
  {
    var c := Client(false, false);
    var s := if open then [Obtain, Deselect] else [];
    assert DisciplinedRun(c, s) by { assert [Obtain, Deselect][1..] == [Deselect] && [Deselect][1..] == []; }
    var t := SdCommands(rs);
    SdCommandsDisciplined(ClientEnd(c, s), rs);
    hide DisciplinedRun, ClientEnd, SdCommands;
    RunConcat(c, s, t);
    Finish(ClientEnd(c, s + t));
    RunConcat(c, s + t, [Deselect, Release]);
  }

  lemma {:induction false} TransactionsDisciplined(n: nat)
    ensures DisciplinedRun(Client(true, false), Transactions(n))
    ensures ClientEnd(Client(true, false), Transactions(n)) == Client(true, false)
  {
    if n > 0 {
      TransactionsDisciplined(n - 1);
      var c, s := Client(true, false), [Select, Deselect];
      assert s[1..] == [Deselect] && s[1..][1..] == [];
      assert DisciplinedRun(c, s) && ClientEnd(c, s) == c;
      hide DisciplinedRun, ClientEnd;
      RunConcat(c, s, Transactions(n - 1));
    }
  }

  /** So does every call of the network driver. */
  lemma NicCallDisciplined(n: nat)
    ensures DisciplinedRun(Client(false, false), NicCall(n))
    ensures ClientEnd(Client(false, false), NicCall(n)) == Client(false, false)
  {
    var c, held := Client(false, false), Client(true, false);
    TransactionsDisciplined(n);
    assert [Obtain][1..] == [] && [Release][1..] == [];
    assert DisciplinedRun(c, [Obtain]) && ClientEnd(c, [Obtain]) == held;
    assert DisciplinedRun(held, [Release]) && ClientEnd(held, [Release]) == c;
    hide DisciplinedRun, ClientEnd, Transactions;
    RunConcat(c, [Obtain], Transactions(n));
    RunConcat(c, [Obtain] + Transactions(n), [Release]);
  }

  // ---- Whole runs of one driver ------------------------------------------------------------------

  /** A call of sd_open or of sd_read or sd_write, and which of its commands the card was ready for. */
  datatype Call = Call(open: bool, ready: seq<bool>)

  /** Any number of SD calls. */
  function SdOps(calls: seq<Call>): seq<Op> {
    if calls == [] then [] else SdCall(calls[0].open, calls[0].ready) + SdOps(calls[1..])
  }

  /** Any number of network calls, by their numbers of transactions. */
  function NicOps(ns: seq<nat>): seq<Op> {
    if ns == [] then [] else NicCall(ns[0]) + NicOps(ns[1..])
  }

  lemma {:induction false} SdOpsConcat(s: seq<Call>, t: seq<Call>)
    ensures SdOps(s + t) == SdOps(s) + SdOps(t)
    decreases |s|
  {
    hide SdCall;
    if s == [] {
      assert s + t == t;
    } else {
      assert (s + t)[1..] == s[1..] + t && (s + t)[0] == s[0];
      SdOpsConcat(s[1..], t);
    }
  }

  lemma Assoc(a: seq<Op>, b: seq<Op>, c: seq<Op>)
    ensures a + b + c == a + (b + c)
  {
  }

  lemma SdOpsNext(s: seq<Call>, c: Call)
    ensures SdOps(s + [c]) == SdOps(s) + SdCall(c.open, c.ready)
  {
    SdOpsConcat(s, [c]);
    assert [c][1..] == [];
    hide SdCall;
  }

  lemma {:induction false} SdOpsDisciplined(calls: seq<Call>)
    ensures DisciplinedRun(Client(false, false), SdOps(calls))
    decreases |calls|
  {
    if calls != [] {
      SdCallDisciplined(calls[0].open, calls[0].ready);
      SdOpsDisciplined(calls[1..]);
      hide DisciplinedRun, ClientEnd, SdCall;
      RunConcat(Client(false, false), SdCall(calls[0].open, calls[0].ready), SdOps(calls[1..]));
    }
  }

  lemma {:induction false} NicOpsDisciplined(ns: seq<nat>)
    ensures DisciplinedRun(Client(false, false), NicOps(ns))
    decreases |ns|
  {
    if ns != [] {
      NicCallDisciplined(ns[0]);
      NicOpsDisciplined(ns[1..]);
      hide DisciplinedRun, ClientEnd, NicCall;
      RunConcat(Client(false, false), NicCall(ns[0]), NicOps(ns[1..]));
    }
  }

  /** A run cut short anywhere. */
  lemma PrefixDisciplined(ops: seq<Op>, all: seq<Op>)
    requires ops <= all && DisciplinedRun(Client(false, false), all)
    ensures DisciplinedRun(Client(false, false), ops)
  {
    assert all == ops + all[|ops|..];
    RunConcat(Client(false, false), ops, all[|ops|..]);
    hide DisciplinedRun, ClientEnd;
  }

  /** The rules of a driver that takes the bus once for each call. */
  predicate Strict(c: Client, op: Op) {
    match op
    case Obtain => !c.taken && !c.selected
    case Select => c.taken && !c.selected
    case Deselect => c.taken && c.selected
    case Release => c.taken && !c.selected
  }

  predicate StrictRun(c: Client, ops: seq<Op>)
    decreases |ops|
  {
    ops == [] || (Strict(c, ops[0]) && StrictRun(ClientAfter(c, ops[0]), ops[1..]))
  }

  /** What such a driver has called so far, and where that has left it. */
  ghost predicate Logged(ops: seq<Op>, c: Client) {
    StrictRun(Client(false, false), ops) && ClientEnd(Client(false, false), ops) == c
  }

  lemma {:induction false} StrictNext(c: Client, ops: seq<Op>, op: Op)
    requires StrictRun(c, ops) && Strict(ClientEnd(c, ops), op)
    ensures StrictRun(c, ops + [op]) && ClientEnd(c, ops + [op]) == ClientAfter(ClientEnd(c, ops), op)
    decreases |ops|
  {
    if ops == [] {
      assert [] + [op] == [op] && [op][1..] == [];
    } else {
      assert (ops + [op])[1..] == ops[1..] + [op];
      StrictNext(ClientAfter(c, ops[0]), ops[1..], op);
    }
  }

  lemma LoggedNext(ops: seq<Op>, c: Client, op: Op)
    requires Logged(ops, c) && Strict(c, op)
    ensures Logged(ops + [op], ClientAfter(c, op))
  {
    StrictNext(Client(false, false), ops, op);
    hide StrictRun, ClientEnd;
  }

  /** Taken apart into transactions, the release and the rest. */
  lemma {:induction false} HeldRun(ops: seq<Op>) returns (n: nat, rest: seq<Op>)
    requires StrictRun(Client(true, false), ops) && ClientEnd(Client(true, false), ops) == Client(false, false)
    ensures ops == Transactions(n) + [Release] + rest
    ensures Logged(rest, Client(false, false))
    decreases |ops|
  {
    if ops[0] == Release {
      n, rest := 0, ops[1..];
      assert ops == [] + [Release] + rest;
    } else {
      assert ops[0] == Select && ops[1..][0] == Deselect && ops[1..][1..] == ops[2..];
      n, rest := HeldRun(ops[2..]);
      assert ops == [Select, Deselect] + ops[2..];
      assert ops == [Select, Deselect] + Transactions(n) + [Release] + rest;
      assert Transactions(n + 1) == [Select, Deselect] + Transactions(n);
      n := n + 1;
    }
  }

  /** Whenever such a driver is idle, its log is that of whole calls. */
  lemma {:induction false} LoggedIsCalls(ops: seq<Op>) returns (ns: seq<nat>)
    requires Logged(ops, Client(false, false))
    ensures ops == NicOps(ns)
    decreases |ops|
  {
    ns := [];
    if ops != [] {
      assert ops[0] == Obtain;
      var n, rest := HeldRun(ops[1..]);
      var more := LoggedIsCalls(rest);
      ns := [n] + more;
      assert ns[1..] == more && ns[0] == n;
      hide Transactions, StrictRun, ClientEnd;
      assert ops == [Obtain] + ops[1..];
      Regroup([Obtain], Transactions(n), [Release], rest);
    }
  }

  lemma Regroup(a: seq<Op>, b: seq<Op>, c: seq<Op>, d: seq<Op>)
    ensures a + (b + c + d) == a + b + c + d
  {
  }

  // ---- Interleavings ----------------------------------------------------------------------------

  datatype System = System(bus: Bus, sd: Client, nic: Client)

  function At(s: System, d: Id): Client {
    if d == Sd then s.sd else s.nic
  }

  function Apply(s: System, d: Id, op: Op): System {
    var b, c := BusAfter(s.bus, At(s, d), d, op), ClientAfter(At(s, d), op);
    if d == Sd then s.(bus := b, sd := c) else s.(bus := b, nic := c)
  }

  /** A driver waits in spi_obtain while the other holds the semaphore. */
  predicate Enabled(s: System, d: Id, op: Op) {
    Disciplined(At(s, d), op) && (op == Obtain && !At(s, d).taken ==> s.bus.holder == Free)
  }

  datatype Event = Event(d: Id, op: Op)

  /** What one driver did, in order. */
  function Projection(es: seq<Event>, d: Id): seq<Op> {
    if es == [] then [] else (if es[0].d == d then [es[0].op] else []) + Projection(es[1..], d)
  }

  /** Nothing but the semaphore orders the events: spi_obtain returns only once it is free. */
  predicate Granted(s: System, es: seq<Event>)
    decreases |es|
  {
    es == [] || (var e := es[0];
                 (e.op == Obtain && !At(s, e.d).taken ==> s.bus.holder == Free) && Granted(Apply(s, e.d, e.op), es[1..]))
  }

  /** Events of drivers in the middle of any calls, in any order that the semaphore allows. */
  ghost predicate Interleaved(es: seq<Event>, calls: seq<Call>, ns: seq<nat>) {
    Granted(Start(), es) && Projection(es, Sd) <= SdOps(calls) && Projection(es, Nic) <= NicOps(ns)
  }

  predicate Possible(s: System, es: seq<Event>)
    decreases |es|
  {
    es == [] || (Enabled(s, es[0].d, es[0].op) && Possible(Apply(s, es[0].d, es[0].op), es[1..]))
  }

  function After(s: System, es: seq<Event>): System
    decreases |es|
  {
    if es == [] then s else After(Apply(s, es[0].d, es[0].op), es[1..])
  }

  function Start(): System {
    System(Bus(Free, 0), Client(false, false), Client(false, false))
  }

  /** The flags tell who holds the semaphore, and an asserted select is the holder's. */
  ghost predicate Owned(s: System) {
    && (forall d :: At(s, d).taken <==> s.bus.holder == HeldBy(d))
    && (forall d :: At(s, d).selected ==> At(s, d).taken)
    && (s.bus.cs == 0 || (s.bus.holder.HeldBy? && s.bus.cs == Channel(s.bus.holder.d) && At(s, s.bus.holder.d).selected))
  }

  lemma OwnedStep(s: System, d: Id, op: Op)
    requires Owned(s) && Enabled(s, d, op)
    ensures Owned(Apply(s, d, op))
    ensures op == Release && At(s, d).taken ==> Apply(s, d, op).bus.cs == 0
  {
    var t := Apply(s, d, op);
    assert At(t, Other(d)) == At(s, Other(d)) && At(t, d) == ClientAfter(At(s, d), op);
  }

  /**
   In every interleaving: if a channel is selected then its driver holds the semaphore, and no
   driver thinks it holds the semaphore when it does not.
   */
  lemma SelectIsOwned(es: seq<Event>, calls: seq<Call>, ns: seq<nat>)
    requires Interleaved(es, calls, ns)
    ensures Owned(After(Start(), es))
    ensures forall d :: After(Start(), es).bus.cs == Channel(d) ==> After(Start(), es).bus.holder == HeldBy(d)
  {
    InterleavedPossible(es, calls, ns);
    StartOwned();
    OwnedAfter(Start(), es);
  }

  /** What the semaphore orders is possible exactly if each driver keeps to the rules on its own. */
  lemma {:induction false} PossibleIff(s: System, es: seq<Event>)
    ensures Possible(s, es) <==> Granted(s, es) && DisciplinedRun(s.sd, Projection(es, Sd))
                                 && DisciplinedRun(s.nic, Projection(es, Nic))
    decreases |es|
  {
    if es != [] {
      var e := es[0];
      PossibleIff(Apply(s, e.d, e.op), es[1..]);
      var rest := Projection(es[1..], e.d);
      assert Projection(es, e.d) == [e.op] + rest && ([e.op] + rest)[1..] == rest;
      assert Projection(es, Other(e.d)) == Projection(es[1..], Other(e.d));
    }
  }

  lemma InterleavedPossible(es: seq<Event>, calls: seq<Call>, ns: seq<nat>)
    requires Interleaved(es, calls, ns)
    ensures Possible(Start(), es)
  {
    SdOpsDisciplined(calls);
    NicOpsDisciplined(ns);
    PrefixDisciplined(Projection(es, Sd), SdOps(calls));
    PrefixDisciplined(Projection(es, Nic), NicOps(ns));
    PossibleIff(Start(), es);
    hide DisciplinedRun, Granted, Possible, SdOps, NicOps;
  }

  lemma {:induction false} OwnedAfter(s: System, es: seq<Event>)
    requires Owned(s) && Possible(s, es)
    ensures Owned(After(s, es))
    decreases |es|
  {
    if es != [] {
      OwnedStep(s, es[0].d, es[0].op);
      OwnedAfter(Apply(s, es[0].d, es[0].op), es[1..]);
    }
  }

  lemma {:induction false} Onwards(s: System, es: seq<Event>, fs: seq<Event>)
    requires Possible(s, es + fs)
    ensures Possible(s, es) && Possible(After(s, es), fs) && After(s, es + fs) == After(After(s, es), fs)
    decreases |es|
  {
    if es == [] {
      assert es + fs == fs;
    } else {
      assert (es + fs)[1..] == es[1..] + fs && (es + fs)[0] == es[0];
      Onwards(Apply(s, es[0].d, es[0].op), es[1..], fs);
    }
  }

  lemma StartOwned()
    ensures Owned(Start())
  {
  }

  /** The semaphore changes hands only with no chip selected. */
  lemma ReleasedDeselected(es: seq<Event>, d: Id, calls: seq<Call>, ns: seq<nat>)
    requires Interleaved(es + [Event(d, Release)], calls, ns) && At(After(Start(), es), d).taken
    ensures After(Start(), es).bus.cs == 0
  {
    InterleavedPossible(es + [Event(d, Release)], calls, ns);
    Onwards(Start(), es, [Event(d, Release)]);
    StartOwned();
    OwnedAfter(Start(), es);
  }

  /**
   A driver inside a transaction, which it does not itself end, still has its chip selected
   exactly if the other driver, which does not hold the bus, did not call spi_deselect meanwhile.
   */
  lemma {:induction false} SelectSurvivesIff(s: System, d: Id, es: seq<Event>)
    requires Owned(s) && Possible(s, es) && At(s, d).selected && s.bus.cs == Channel(d)
    requires forall e :: e in es && e.d == d ==> e.op == Obtain
    ensures At(After(s, es), d).selected
    ensures After(s, es).bus.cs == Channel(d) <==> Event(Other(d), Deselect) !in es
    ensures Event(Other(d), Deselect) in es ==> After(s, es).bus.cs == 0
    decreases |es|
  {
    if es != [] {
      var e, t := es[0], Apply(s, es[0].d, es[0].op);
      OwnedStep(s, e.d, e.op);
      assert es == [e] + es[1..];
      assert e.d == d || e.d == Other(d);
      if e == Event(Other(d), Deselect) {
        Dropped(t, d, es[1..]);
      } else {
        assert t.bus.cs == Channel(d) && At(t, d).selected;
        SelectSurvivesIff(t, d, es[1..]);
      }
    }
  }

  /** Once dropped, the select is not asserted again. */
  lemma {:induction false} Dropped(s: System, d: Id, es: seq<Event>)
    requires Owned(s) && Possible(s, es) && At(s, d).selected && s.bus.cs == 0
    requires forall e :: e in es && e.d == d ==> e.op == Obtain
    ensures At(After(s, es), d).selected && After(s, es).bus.cs == 0
    decreases |es|
  {
    if es != [] {
      var e, t := es[0], Apply(s, es[0].d, es[0].op);
      OwnedStep(s, e.d, e.op);
      assert es == [e] + es[1..];
      assert e.d == d || e.d == Other(d);
      Dropped(t, d, es[1..]);
    }
  }

  /** The SD driver starts a command, and the network driver's running transaction loses its select. */
  lemma SdCommandDropsNic()
    ensures var es := [Event(Nic, Obtain), Event(Nic, Select), Event(Sd, SdCommand(true)[0])];
            && Interleaved(es, [Call(false, [true])], [1])
            && After(Start(), es).nic == Client(true, true)
            && After(Start(), es).bus == Bus(HeldBy(Nic), 0)
  {
    var es := [Event(Nic, Obtain), Event(Nic, Select), Event(Sd, Deselect)];
    assert SdCommand(true)[0] == Deselect;
    assert es[1..] == [Event(Nic, Select), Event(Sd, Deselect)] && es[1..][1..] == [Event(Sd, Deselect)];
    assert es[1..][1..][1..] == [];
    assert Projection(es[1..][1..], Sd) == [Deselect] && Projection(es[1..][1..], Nic) == [];
    assert Projection(es, Sd) == [Deselect] && Projection(es[1..], Nic) == [Select] && Projection(es, Nic) == [Obtain, Select];
    SdCommandsOne(true);
    assert SdOps([Call(false, [true])]) == SdCall(false, [true]) + SdOps([]);
    assert SdCall(false, [true])[0] == Deselect;
    assert Transactions(1) == [Select, Deselect] + Transactions(0);
    assert NicOps([1]) == NicCall(1) + NicOps([]);
    assert Granted(Start(), es);
  }
}
