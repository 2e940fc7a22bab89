/** timer.c: a 24-bit counter, read through a latch and compared in signed 32-bit arithmetic. */
module Timer {
  import opened Words

  const WRAP := 0x100_0000

  /** The value of a 32-bit word taken as signed. */
  function Signed(x: ulong): int {
    if x < 0x8000_0000 then x else x - 0x1_0000_0000
  }

  function Plus(x: ulong, y: ulong): ulong {
    (x + y) % 0x1_0000_0000
  }

  function Minus(x: ulong, y: ulong): ulong {
    (x - y) % 0x1_0000_0000
  }

  /** The loop condition of timer_delay. */
  predicate Waits(reading: ulong, timeout: ulong) {
    Signed(Minus(reading, timeout)) < 0
  }

  /** The loop goes on exactly while the deadline is 1 to 2^31 ticks ahead, modulo 2^32. */
  lemma WaitsIff(reading: ulong, timeout: ulong)
    ensures Waits(reading, timeout) <==> 1 <= Minus(timeout, reading) <= 0x8000_0000
  {
    var d := reading - timeout;
    assert Minus(reading, timeout) == if d < 0 then d + 0x1_0000_0000 else d;
    assert Minus(timeout, reading) == if d > 0 then 0x1_0000_0000 - d else -d;
  }

  /** Before the counter wraps, the deadline is met when it is reached and not sooner. */
  lemma ReachedIff(start: ulong, ticks: ulong, reading: ulong)
    requires start + ticks < WRAP && reading < WRAP
    ensures Waits(reading, Plus(start, ticks)) <==> reading < start + ticks
  {
    WaitsIff(reading, start + ticks);
  }

  /**
   No reading of the counter ever ends the loop exactly if the deadline lies from 2^24 to 2^31:
   the counter has wrapped by then, and the comparison does not know.
   */
  lemma HangsIff(start: ulong, ticks: ulong)
    requires start < WRAP
    ensures (forall r: ulong :: r < WRAP ==> Waits(r, Plus(start, ticks))) <==> WRAP <= start + ticks <= 0x8000_0000
  {
    var timeout := Plus(start, ticks);
    if start + ticks < WRAP {
      ReachedIff(start, ticks, start + ticks);
      assert !Waits(timeout, timeout);
    } else if start + ticks <= 0x8000_0000 {
      forall r: ulong | r < WRAP ensures Waits(r, timeout) { WaitsIff(r, timeout); }
    } else if start + ticks < 0x1_0000_0000 {
      WaitsIff(0, timeout);
      assert !Waits(0, timeout);
    } else {
      WaitsIff(timeout, timeout);
      assert timeout < WRAP && !Waits(timeout, timeout);
    }
  }

  /** The time-of-day counter of the 8520: reading the high byte latches it, reading the low byte frees it. */
  class Counter {
    ghost var time: nat       // ticks since some beginning
    var tod: nat
    var latch: nat
    var latched: bool

    ghost predicate Valid()
      reads this
    {
      tod < WRAP && latch < WRAP && tod == time % WRAP
    }

    constructor (now: nat)
      requires now < WRAP
      ensures Valid() && !latched && time == now
    {
      time, tod, latch, latched := now, now, 0, false;
    }

    /** The counter may move on by a tick. */
    method Pass(due: bool)
      requires Valid()
      modifies this
      ensures Valid() && latch == old(latch) && latched == old(latched)
      ensures time == old(time) + if due then 1 else 0
    {
      if due {
        time := time + 1;
        tod := if tod == 0xff_ffff then 0 else tod + 1;
      }
    }

    method High() returns (b: nat)
      requires Valid()
      modifies this
      ensures Valid() && latched && latch == old(tod) && time == old(time) && b == old(tod) / 0x1_0000
    {
      latch, latched := tod, true;
      b := latch / 0x1_0000;
    }

    method Middle() returns (b: nat)
      requires Valid()
      ensures b == (if latched then latch else tod) / 0x100 % 0x100
    {
      b := (if latched then latch else tod) / 0x100 % 0x100;
    }

    method Low() returns (b: nat)
      requires Valid()
      modifies this
      ensures Valid() && !latched && time == old(time) && b == old(if latched then latch else tod) % 0x100
    {
      b := (if latched then latch else tod) % 0x100;
      latched := false;
    }

    /**
     timer_get_tick_count: the counter as it was when the high byte was read, wherever among
     the register reads a tick falls.
     */
    method GetTickCount() returns (r: ulong)
      requires Valid()
      modifies this
      ensures Valid() && r == old(tod) && old(time) <= time <= old(time) + 1
    {
      var gap: nat := *;
      var h := High();
      Pass(gap == 1);
      var m := Middle();
      Pass(gap == 2);
      var l := Low();
      Pass(gap == 3);
      Reassemble(old(tod));
      r := h * 0x1_0000 + m * 0x100 + l;
    }

    /**
     timer_delay, watched for `watch` polls of a counter that is polled every tick. Before the
     wrap it ends on the first reading `ticks` ticks after the first one (for no ticks, on the
     next reading); with a deadline from 2^24 to 2^31 it does not end.
     */
    method Delay(ticks: ulong, watch: nat) returns (done: bool, ghost end: nat)
      requires Valid()
      modifies this
      ensures Valid() && old(time) <= end
      ensures old(tod) + Max(ticks, 1) < WRAP ==>
                if done then ticks <= end - old(time) <= Max(ticks, 1) else end - old(time) < Max(ticks, 1)
      ensures WRAP <= old(tod) + ticks <= 0x8000_0000 ==> !done
    {
      ghost var start := time;
      var base := GetTickCount();
      var timeout := Plus(base, ticks);
      end := start;
      done := false;
      var n := 0;
      while n < watch && !done
        invariant Valid() && start <= end <= time <= end + 1 && n <= watch
        invariant base + Max(ticks, 1) < WRAP ==>
                    if done then ticks <= end - start <= Max(ticks, 1) else end - start < Max(ticks, 1)
        invariant WRAP <= base + ticks <= 0x8000_0000 ==> !done
        decreases watch - n
      {
        end := time;
        var now := GetTickCount();
        Elapsed(start, end, base, now, ticks);
        done := !Waits(now, timeout);
        n := n + 1;
      }
    }
  }

  lemma Reassemble(t: nat)
    requires t < WRAP
    ensures t / 0x1_0000 * 0x1_0000 + t / 0x100 % 0x100 * 0x100 + t % 0x100 == t
  {
    assert t / 0x100 / 0x100 == t / 0x1_0000;
  }

  /** What a reading `end - start` ticks later says about the deadline. */
  lemma Elapsed(start: nat, end: nat, base: nat, now: nat, ticks: ulong)
    requires base == start % WRAP && now == end % WRAP && start <= end
    ensures base + Max(ticks, 1) < WRAP && end - start <= Max(ticks, 1) ==>
              (Waits(now, Plus(base, ticks)) <==> end - start < ticks)
    ensures WRAP <= base + ticks <= 0x8000_0000 ==> Waits(now, Plus(base, ticks))
  {
    Below(start);
    Below(end);
    if base + Max(ticks, 1) < WRAP && end - start <= Max(ticks, 1) {
      SameTurn(start, end);
      assert now == base + (end - start);
      ReachedIff(base, ticks, now);
    } else if WRAP <= base + ticks <= 0x8000_0000 {
      Beyond(base, ticks, now);
    }
    hide Waits, Plus;
  }

  lemma Below(n: nat)
    ensures 0 <= n % WRAP < WRAP
  {
  }

  lemma Beyond(base: nat, ticks: ulong, now: nat)
    requires base < WRAP && now < WRAP && WRAP <= base + ticks <= 0x8000_0000
    ensures Waits(now, Plus(base, ticks))
  {
    WaitsIff(now, base + ticks);
    hide Waits;
  }

  lemma SameTurn(start: nat, end: nat)
    requires start <= end && start % WRAP + (end - start) < WRAP
    ensures end % WRAP == start % WRAP + (end - start)
  {
    var q := start / 0x100_0000;
    assert end == q * 0x100_0000 + (start % 0x100_0000 + (end - start));
  }
}
