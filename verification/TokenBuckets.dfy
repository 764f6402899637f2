/** The rate limiter's buckets (producer/throttling.py): GCRA over real time, and the bounded map of
    them. Times are reals; rounding is not modelled. */
module TokenBuckets {

  /** How a bucket paces: the time between slots, and how far back a claim may start. */
  datatype Pace = Pace(interval: real, burst: real) {
    ghost predicate Valid() { interval > 0.0 && burst >= 0.0 }
  }

  /** `rate` calls a second, `capacity` of them at once. */
  function PaceOf(rate: real, capacity: real): (p: Pace)
    requires rate > 0.0
    ensures p.Valid()
  {
    var interval := 1.0 / rate;
    var credit := (capacity - 1.0) * interval;
    Pace(interval, if credit > 0.0 then credit else 0.0)
  }

  function Max(a: real, b: real): real { if a >= b then a else b }

  /** The slot a call at `now` claims, the bucket being free from `nextFree` on. */
  function Slot(p: Pace, nextFree: real, now: real): real { Max(nextFree, now - p.burst) }

  /** `is_idle`: it owes nothing at `now`. */
  predicate Idle(p: Pace, nextFree: real, now: real) { nextFree <= now - p.burst }

  /** The slots successive calls claim, in the order they claim them. */
  function Slots(p: Pace, nextFree: real, nows: seq<real>): (r: seq<real>)
    ensures |r| == |nows|
    decreases |nows|
  {
    if nows == [] then [] else
      var slot := Slot(p, nextFree, nows[0]);
      [slot] + Slots(p, slot + p.interval, nows[1..])
  }

  lemma SlotsNext(p: Pace, nextFree: real, nows: seq<real>, i: nat)
    requires i < |nows|
    ensures var slot := Slot(p, nextFree, nows[i]);
            Slots(p, nextFree, nows[i..]) == [slot] + Slots(p, slot + p.interval, nows[i + 1..])
  {
    assert nows[i..][0] == nows[i] && nows[i..][1..] == nows[i + 1..];
  }

  class TokenBucket {
    const pace: Pace
    var nextFree: real

    /** A fresh bucket owes nothing: the whole burst is available at once. */
    constructor (rate: real, capacity: real, now: real)
      requires rate > 0.0
      ensures pace == PaceOf(rate, capacity) && nextFree == now - pace.burst
    {
      pace := PaceOf(rate, capacity);
      nextFree := now - PaceOf(rate, capacity).burst;
    }

    /** `acquire`: claim the next free slot under the guard, then sleep until it, from a later reading. */
    method Acquire(now: real, later: real) returns (slot: real, wait: real)
      modifies this`nextFree
      ensures slot == Slot(pace, old(nextFree), now) && nextFree == slot + pace.interval
      ensures wait == Max(0.0, slot - later)
    {
      slot := Max(nextFree, now - pace.burst);
      nextFree := slot + pace.interval;
      wait := Max(0.0, slot - later);
    }

    /** Calls one after another claim the slots the specification lists, whatever the clock reads. */
    method AcquireAll(nows: seq<real>) returns (slots: seq<real>)
      modifies this`nextFree
      ensures slots == Slots(pace, old(nextFree), nows)
    {
      slots := [];
      var i := 0;
      while i < |nows|
        invariant 0 <= i <= |nows|
        invariant slots + Slots(pace, nextFree, nows[i..]) == Slots(pace, old(nextFree), nows)
      {
        SlotsNext(pace, nextFree, nows, i);
        ghost var done := slots;
        var slot, _ := Acquire(nows[i], nows[i]);
        hide Slots, Slot;
        slots := slots + [slot];
        assert slots + Slots(pace, nextFree, nows[i + 1..]) == done + ([slot] + Slots(pace, nextFree, nows[i + 1..]));
        i := i + 1;
      }
      assert nows[i..] == [];
    }
  }

  // ------------------------------------------------------------------ one bucket over a whole run

  /** `k` times `x`, counted up. */
  function Times(k: nat, x: real): real { if k == 0 then 0.0 else Times(k - 1, x) + x }

  lemma {:induction false} TimesIs(k: nat, x: real)
    ensures Times(k, x) == k as real * x
  {
    if k > 0 {
      TimesIs(k - 1, x);
      assert k as real * x == (k - 1) as real * x + x;
    }
  }

  lemma {:induction false} SlotsSpread(p: Pace, nextFree: real, nows: seq<real>, i: nat, j: nat)
    requires p.Valid() && i <= j < |nows|
    ensures Slots(p, nextFree, nows)[j] >= Slots(p, nextFree, nows)[i] + Times(j - i, p.interval)
    ensures Slots(p, nextFree, nows)[i] >= nows[i] - p.burst && Slots(p, nextFree, nows)[i] >= nextFree
    decreases |nows|, j
  {
    var slot := Slot(p, nextFree, nows[0]);
    if i > 0 {
      SlotsSpread(p, slot + p.interval, nows[1..], i - 1, j - 1);
    } else if j > 0 {
      SlotsSpread(p, slot + p.interval, nows[1..], 0, j - 1);
    }
  }

  /** When each call went out: at its slot, or at once where the slot was past, up to `delay` late. */
  ghost predicate WokenWithin(p: Pace, nextFree: real, nows: seq<real>, at: seq<real>, delay: real) {
    && |at| == |nows|
    && forall i | 0 <= i < |nows| ::
         var due := Max(Slots(p, nextFree, nows)[i], nows[i]); due <= at[i] <= due + delay
  }

  /** The calls that went out in a closed window. */
  ghost function InWindow(at: seq<real>, start: real, length: real): set<nat> {
    set k: nat | k < |at| && start <= at[k] <= start + length
  }

  lemma PairBound(p: Pace, nextFree: real, nows: seq<real>, at: seq<real>, delay: real, start: real, length: real,
                  i: nat, j: nat)
    requires p.Valid() && WokenWithin(p, nextFree, nows, at, delay)
    requires i <= j && i in InWindow(at, start, length) && j in InWindow(at, start, length)
    ensures Times(j - i, p.interval) <= length + delay + p.burst
  {
    SlotsSpread(p, nextFree, nows, i, j);
  }

  lemma BoundInCalls(rate: real, capacity: real, calls: nat, room: real)
    requires rate > 0.0 && Times(calls, PaceOf(rate, capacity).interval) <= room + PaceOf(rate, capacity).burst
    ensures calls as real + 1.0 <= room * rate + Max(1.0, capacity)
  {
    var i, c, burst := 1.0 / rate, calls as real, PaceOf(rate, capacity).burst;
    TimesIs(calls, i);
    assert i * rate == 1.0;
    assert (c * i) * rate == c * (i * rate);
    Scale(c * i, room + burst, rate);
    assert (room + burst) * rate == room * rate + burst * rate;
    assert ((capacity - 1.0) * i) * rate == (capacity - 1.0) * (i * rate);
    if capacity <= 1.0 { Scale((capacity - 1.0) * i, 0.0, rate); Sign(capacity - 1.0, i); }
  }

  lemma Scale(a: real, b: real, x: real)
    requires a <= b && x > 0.0
    ensures a * x <= b * x
  {
  }

  lemma Sign(a: real, x: real)
    requires x > 0.0
    ensures a * x > 0.0 <==> a > 0.0
  {
  }

  lemma {:induction false} SpanSize(lo: nat, hi: nat, s: set<nat>)
    requires lo <= hi && forall k | k in s :: lo <= k < hi
    ensures |s| <= hi - lo
    ensures (forall k: nat | lo <= k < hi :: k in s) ==> |s| == hi - lo
    decreases hi - lo
  {
    if lo < hi {
      SpanSize(lo + 1, hi, s - {lo});
      assert s - {lo} + {lo} == s + {lo};
    } else {
      assert s == {};
    }
  }

  lemma Ends(s: set<nat>, n: nat) returns (i: nat, j: nat)
    requires s != {} && forall k | k in s :: k < n
    ensures i in s && j in s && i <= j && |s| <= j - i + 1
  {
    var some :| some in s;
    i := 0;
    while i !in s
      invariant forall k | k in s :: i <= k
      decreases n - i
    {
      i := i + 1;
    }
    j := n - 1;
    while j !in s
      invariant i <= j && forall k | k in s :: k <= j
      decreases j
    {
      j := j - 1;
    }
    SpanSize(i, j + 1, s);
  }

  /** However the calls arrive, a closed window of this length sees at most `length * rate + max(1, capacity)`
      of them go out, and `delay * rate` more where a wake-up may come that late. */
  lemma WindowBound(rate: real, capacity: real, nextFree: real, nows: seq<real>, at: seq<real>, delay: real,
                    start: real, length: real)
    requires rate > 0.0 && WokenWithin(PaceOf(rate, capacity), nextFree, nows, at, delay)
    requires delay >= 0.0 && length >= 0.0
    ensures |InWindow(at, start, length)| as real <= (length + delay) * rate + Max(1.0, capacity)
  {
    hide PaceOf, WokenWithin, Max, Times;
    if InWindow(at, start, length) == {} {
      NoneInWindow(rate, capacity, length + delay);
    } else {
      var i, j := Ends(InWindow(at, start, length), |at|);
      PairBound(PaceOf(rate, capacity), nextFree, nows, at, delay, start, length, i, j);
      InCalls(rate, capacity, |InWindow(at, start, length)|, j - i, length + delay);
    }
  }

  lemma InCalls(rate: real, capacity: real, n: nat, calls: nat, room: real)
    requires rate > 0.0 && Times(calls, PaceOf(rate, capacity).interval) <= room + PaceOf(rate, capacity).burst
    requires n <= calls + 1
    ensures n as real <= room * rate + Max(1.0, capacity)
  {
    hide Max, Times;
    BoundInCalls(rate, capacity, calls, room);
  }

  lemma NoneInWindow(rate: real, capacity: real, room: real)
    requires rate > 0.0 && room >= 0.0
    ensures 0.0 <= room * rate + Max(1.0, capacity)
  {
    Scale(0.0, room, rate);
  }

  /** Calls go out in the order they claimed, the clock not going back. */
  lemma FirstClaimedFirstOut(p: Pace, nextFree: real, nows: seq<real>, i: nat, j: nat)
    requires p.Valid() && i <= j < |nows| && nows[i] <= nows[j]
    ensures var slots := Slots(p, nextFree, nows); Max(slots[i], nows[i]) <= Max(slots[j], nows[j])
  {
    SlotsSpread(p, nextFree, nows, i, j);
    TimesGrow(j - i, p.interval);
    hide Slots, Times;
  }

  lemma {:induction false} TimesGrow(k: nat, x: real)
    requires x > 0.0
    ensures Times(k, x) >= 0.0
  {
    if k > 0 { TimesGrow(k - 1, x); }
  }

  // ------------------------------------------------------------------ a burst on an idle bucket

  lemma {:induction false} BurstSlots(p: Pace, nextFree: real, nows: seq<real>, now: real, k: nat)
    requires p.Valid() && k < |nows| && nextFree >= now - p.burst && forall i | 0 <= i < |nows| :: nows[i] == now
    ensures Slots(p, nextFree, nows)[k] == nextFree + Times(k, p.interval)
    decreases k
  {
    if k > 0 {
      assert Slot(p, nextFree, nows[0]) == nextFree;
      BurstSlots(p, nextFree + p.interval, nows[1..], now, k - 1);
    }
  }

  lemma Divides(x: real, rate: real)
    requires rate > 0.0
    ensures x * (1.0 / rate) == x / rate
  {
  }

  /** What a bucket's pace is, in calls a second and in calls at once. */
  lemma PaceMeans(rate: real, capacity: real)
    requires rate > 0.0
    ensures var p := PaceOf(rate, capacity);
            && p.interval == 1.0 / rate
            && p.burst == (if capacity > 1.0 then capacity - 1.0 else 0.0) / rate
  {
    Divides(capacity - 1.0, rate);
    Sign(capacity - 1.0, 1.0 / rate);
  }

  /** The calls of a burst on an idle bucket: the first `capacity` of them claim slots that are past, and from
      there on they go out `rate` a second, neither sooner nor later. */
  lemma BurstTimes(rate: real, capacity: real, nextFree: real, nows: seq<real>, now: real, k: nat)
    requires rate > 0.0 && k < |nows| && forall i | 0 <= i < |nows| :: nows[i] == now
    requires nextFree <= now - (if capacity > 1.0 then capacity - 1.0 else 0.0) / rate
    ensures Slots(PaceOf(rate, capacity), nextFree, nows)[k] ==
            now + k as real / rate - (if capacity > 1.0 then capacity - 1.0 else 0.0) / rate
  {
    var p := PaceOf(rate, capacity);
    PaceMeans(rate, capacity);
    hide PaceOf;
    IdleSame(p, nextFree, now - p.burst, nows);
    BurstSlots(p, now - p.burst, nows, now, k);
    TimesIs(k, p.interval);
    Divides(k as real, rate);
  }

  /** How many calls an idle bucket lets through without a wait. */
  function Free(capacity: real): nat {
    if capacity.Floor >= 1 then capacity.Floor else 1
  }

  lemma SleepsFrom(rate: real, capacity: real, k: nat)
    requires rate > 0.0
    ensures Times(k, PaceOf(rate, capacity).interval) > PaceOf(rate, capacity).burst <==> k >= Free(capacity)
  {
    var i := 1.0 / rate;
    TimesIs(k, i);
    Sign(capacity - 1.0, i);
    Sign(k as real, i);
    Sign(k as real - (capacity - 1.0), i);
    assert (k as real - (capacity - 1.0)) * i == k as real * i - (capacity - 1.0) * i;
  }

  /** `n` calls at one moment on an idle bucket make exactly `max(0, n - max(1, floor(capacity)))` of them sleep. */
  lemma BurstSleepers(rate: real, capacity: real, nextFree: real, nows: seq<real>, now: real)
    requires rate > 0.0 && nextFree <= now - PaceOf(rate, capacity).burst
    requires forall i | 0 <= i < |nows| :: nows[i] == now
    ensures |Sleepers(PaceOf(rate, capacity), nextFree, nows, now)|
         == if |nows| > Free(capacity) then |nows| - Free(capacity) else 0
  {
    var p, free, n := PaceOf(rate, capacity), Free(capacity), |nows|;
    hide PaceOf;
    IdleSame(p, nextFree, now - p.burst, nows);
    forall k: nat | k < n ensures k in Sleepers(p, nextFree, nows, now) <==> k >= free {
      BurstSlots(p, now - p.burst, nows, now, k);
      SleepsFrom(rate, capacity, k);
    }
    SpanSize(if n > free then free else n, n, Sleepers(p, nextFree, nows, now));
  }

  ghost function Sleepers(p: Pace, nextFree: real, nows: seq<real>, now: real): set<nat> {
    set k: nat | k < |nows| && Slots(p, nextFree, nows)[k] > now
  }

  // ------------------------------------------------------------------ forgetting a bucket

  /** Two buckets that both owe nothing at the next call pace every later call alike. */
  lemma IdleSame(p: Pace, one: real, other: real, nows: seq<real>)
    requires nows != [] ==> one <= nows[0] - p.burst && other <= nows[0] - p.burst
    ensures Slots(p, one, nows) == Slots(p, other, nows)
  {
  }

  /** A bucket may be forgotten at `now` without changing any later slot exactly when it is idle then. */
  lemma ForgettableIffIdle(p: Pace, nextFree: real, now: real)
    requires p.Valid()
    ensures Idle(p, nextFree, now)
       <==> forall nows | nows != [] && nows[0] >= now :: Slots(p, nextFree, nows) == Slots(p, nows[0] - p.burst, nows)
  {
    if Idle(p, nextFree, now) {
      forall nows | nows != [] && nows[0] >= now
        ensures Slots(p, nextFree, nows) == Slots(p, nows[0] - p.burst, nows)
      {
        IdleSame(p, nextFree, nows[0] - p.burst, nows);
      }
    } else {
      var nows := [now];
      assert Slots(p, nextFree, nows)[0] == nextFree;
      assert Slots(p, nows[0] - p.burst, nows)[0] == now - p.burst;
    }
  }
}
