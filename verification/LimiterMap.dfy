/** The bounded, least-recently-used map of per-chat buckets (producer/throttling.py), and when it
    paces exactly like one that forgets nothing.

    A paced call looks its bucket up under the limiter's lock, lets the lock go, waits for the overall
    bucket, and only then claims a slot. Between the two, other calls look up, claim and evict; so the
    two are separate steps here, and a bucket is known by its number, which outlives the map's entry. */
module LimiterMap {
  import opened TokenBuckets

  const MAX_TRACKED_CHATS: nat := 4096
  const EVICTION_CANDIDATES: nat := 8

  /** An ordered dict: the keys, least recently used first, and each one's bucket. */
  datatype Tracked = Tracked(order: seq<int>, bucket: map<int, nat>) {
    ghost predicate Valid() {
      && (forall i, j | 0 <= i < j < |order| :: order[i] != order[j])
      && (forall k :: k in order <==> k in bucket)
    }
  }

  ghost predicate Kept(t: Tracked) { t.Valid() && |t.order| <= MAX_TRACKED_CHATS }

  // ------------------------------------------------------------------ the victim

  /** The one to go, `idle` being what each of the oldest eight answered: the first idle, or the oldest. */
  ghost predicate IsVictim(idle: seq<bool>, v: nat) {
    && v < EVICTION_CANDIDATES == |idle|
    && if exists i :: 0 <= i < |idle| && idle[i] then idle[v] && forall i | 0 <= i < v :: !idle[i] else v == 0
  }

  function Victim(idle: seq<bool>, from: nat): (v: nat)
    requires from <= |idle| == EVICTION_CANDIDATES
    ensures v < EVICTION_CANDIDATES
    decreases |idle| - from
  {
    if from == |idle| then 0 else if idle[from] then from else Victim(idle, from + 1)
  }

  lemma {:induction false} VictimIs(idle: seq<bool>, from: nat)
    requires from <= |idle| == EVICTION_CANDIDATES && forall i | 0 <= i < from :: !idle[i]
    ensures IsVictim(idle, Victim(idle, from))
    decreases |idle| - from
  {
    if from < |idle| && !idle[from] { VictimIs(idle, from + 1); }
  }

  // ------------------------------------------------------------------ the order

  function Without(order: seq<int>, i: nat): seq<int>
    requires i < |order|
  {
    order[..i] + order[i + 1..]
  }

  lemma WithoutHolds(order: seq<int>, i: nat)
    requires i < |order| && forall a, b | 0 <= a < b < |order| :: order[a] != order[b]
    ensures var left := Without(order, i);
            && (forall a, b | 0 <= a < b < |left| :: left[a] != left[b])
            && (forall k :: k in left <==> k in order && k != order[i])
  {
    var left := Without(order, i);
    forall k | k in order && k != order[i] ensures k in left {
      var a :| 0 <= a < |order| && order[a] == k;
      assert left[if a < i then a else a - 1] == k;
    }
  }

  /** One bucket's entry gone. */
  function Dropped(t: Tracked, v: nat): Tracked
    requires v < |t.order|
  {
    Tracked(Without(t.order, v), t.bucket - {t.order[v]})
  }

  lemma DroppedValid(t: Tracked, v: nat)
    requires t.Valid() && v < |t.order|
    ensures Dropped(t, v).Valid()
  {
    WithoutHolds(t.order, v);
    hide Without;
  }

  function IndexOf(order: seq<int>, key: int): (i: nat)
    requires key in order
    ensures i < |order| && order[i] == key
  {
    if order[0] == key then 0 else 1 + IndexOf(order[1..], key)
  }

  /** The key moved to the end. */
  function Moved(t: Tracked, key: int): Tracked
    requires key in t.order
  {
    t.(order := Without(t.order, IndexOf(t.order, key)) + [key])
  }

  lemma MovedValid(t: Tracked, key: int)
    requires t.Valid() && key in t.order
    ensures Moved(t, key).Valid() && |Moved(t, key).order| == |t.order|
  {
    WithoutHolds(t.order, IndexOf(t.order, key));
    hide Without, IndexOf;
  }

  function Grown(t: Tracked, key: int, id: nat): Tracked { Tracked(t.order + [key], t.bucket[key := id]) }

  lemma GrownValid(t: Tracked, key: int, id: nat)
    requires t.Valid() && key !in t.bucket
    ensures Grown(t, key, id).Valid()
  {
  }

  /** What `_for` leaves: the key last, and where it is new and the map full, one entry fewer. */
  function Touched(t: Tracked, key: int, id: nat, idle: seq<bool>): Tracked
    requires |idle| == EVICTION_CANDIDATES && (key in t.bucket ==> key in t.order)
  {
    if key in t.bucket then Moved(t, key)
    else if |t.order| + 1 > MAX_TRACKED_CHATS then Dropped(Grown(t, key, id), Victim(idle, 0))
    else Grown(t, key, id)
  }

  /** The victim is gone, the new chat is last, and everybody else is where they were. */
  ghost predicate ReplacedOne(t: Tracked, key: int, id: nat, idle: seq<bool>, u: Tracked)
    requires |t.order| >= EVICTION_CANDIDATES
  {
    exists v: nat :: IsVictim(idle, v)
      && u == Tracked(Without(t.order, v) + [key], (t.bucket - {t.order[v]})[key := id])
  }

  /** At most the cap, the key last, nobody else out of order, and a victim only where one is due. */
  lemma TouchedShape(t: Tracked, key: int, id: nat, idle: seq<bool>)
    requires Kept(t) && |idle| == EVICTION_CANDIDATES
    ensures var u := Touched(t, key, id, idle);
            && Kept(u) && u.order != [] && u.order[|u.order| - 1] == key && key in u.bucket
            && |u.order| <= 4096
            && (key in t.bucket ==> u == Moved(t, key))
            && (key !in t.bucket && |t.order| < 4096 ==> u == Grown(t, key, id))
            && (key !in t.bucket && |t.order| == 4096 ==> ReplacedOne(t, key, id, idle, u))
  {
    if key in t.bucket {
      MovedValid(t, key);
    } else {
      GrownValid(t, key, id);
      if |t.order| == MAX_TRACKED_CHATS {
        var v := Victim(idle, 0);
        VictimIs(idle, 0);
        DroppedValid(Grown(t, key, id), v);
        DroppedGrown(t, key, id, v);
      }
    }
  }

  lemma DroppedGrown(t: Tracked, key: int, id: nat, v: nat)
    requires t.Valid() && v < |t.order| && key !in t.bucket
    ensures Dropped(Grown(t, key, id), v) == Tracked(Without(t.order, v) + [key], (t.bucket - {t.order[v]})[key := id])
  {
    assert t.order[v] in t.order;
    assert Without(t.order + [key], v) == Without(t.order, v) + [key];
  }

  // ------------------------------------------------------------------ looking up and claiming

  /** A call between its look-up and its claim. */
  datatype Hold = Hold(key: int, id: nat)

  /** The entries, when each bucket ever made is next free, and the calls under way. */
  datatype Pool = Pool(bucket: map<int, nat>, free: seq<real>, waiting: map<nat, Hold>)

  /** A map that forgets nothing needs no numbers: a chat's bucket is the chat's. */
  datatype Ledger = Ledger(free: map<int, real>, waiting: map<nat, int>)

  datatype Event =
    | Look(call: nat, key: int, at: real)
    | Claim(call: nat, at: real)
    | Quit(call: nat, at: real)              // cancelled before its claim
    | Forget(key: int, at: real)             // evicted

  function Looked(p: Pace, b: Pool, call: nat, key: int, at: real): Pool {
    if key in b.bucket then b.(waiting := b.waiting[call := Hold(key, b.bucket[key])])
    else Pool(b.bucket[key := |b.free|], b.free + [at - p.burst], b.waiting[call := Hold(key, |b.free|)])
  }

  function Forgotten(b: Pool, key: int): Pool { b.(bucket := b.bucket - {key}) }

  /** The slot a waiting call claims. */
  function SlotIn(p: Pace, b: Pool, call: nat, at: real): real
    requires call in b.waiting && b.waiting[call].id < |b.free|
  {
    Slot(p, b.free[b.waiting[call].id], at)
  }

  function Claimed(p: Pace, b: Pool, call: nat, at: real): Pool
    requires call in b.waiting && b.waiting[call].id < |b.free|
  {
    b.(free := b.free[b.waiting[call].id := SlotIn(p, b, call, at) + p.interval], waiting := b.waiting - {call})
  }

  ghost predicate Sound(b: Pool) {
    && (forall k | k in b.bucket :: b.bucket[k] < |b.free|)
    && (forall c | c in b.waiting :: b.waiting[c].id < |b.free|)
  }

  function After(p: Pace, b: Pool, e: Event): Pool
    requires e.Claim? ==> e.call in b.waiting && b.waiting[e.call].id < |b.free|
  {
    match e
    case Look(call, key, at) => Looked(p, b, call, key, at)
    case Claim(call, at) => Claimed(p, b, call, at)
    case Quit(call, _) => b.(waiting := b.waiting - {call})
    case Forget(key, _) => Forgotten(b, key)
  }

  function LedgerAfter(p: Pace, u: Ledger, e: Event): Ledger
    requires e.Claim? ==> e.call in u.waiting && u.waiting[e.call] in u.free
  {
    match e
    case Look(call, key, at) =>
      Ledger(if key in u.free then u.free else u.free[key := at - p.burst], u.waiting[call := key])
    case Claim(call, at) =>
      var key := u.waiting[call];
      Ledger(u.free[key := Slot(p, u.free[key], at) + p.interval], u.waiting - {call})
    case Quit(call, _) => u.(waiting := u.waiting - {call})
    case Forget(_, _) => u
  }

  /** A run: the clock does not go back, a call looks up once and claims after. */
  ghost predicate IsRun(calls: set<nat>, from: real, events: seq<Event>)
    decreases |events|
  {
    events != [] ==>
      var e := events[0];
      && from <= e.at
      && (e.Look? ==> e.call !in calls) && (e.Claim? || e.Quit? ==> e.call in calls)
      && IsRun(CallsAfter(calls, e), e.at, events[1..])
  }

  ghost function CallsAfter(calls: set<nat>, e: Event): set<nat> {
    if e.Look? then calls + {e.call} else if e.Forget? then calls else calls - {e.call}
  }

  /** The slots the claims of a run get, in order. */
  ghost function PoolSlots(p: Pace, b: Pool, events: seq<Event>, from: real): seq<real>
    requires Sound(b) && IsRun(b.waiting.Keys, from, events)
    decreases |events|
  {
    if events == [] then []
    else
      SoundAfter(p, b, events[0]);
      var rest := PoolSlots(p, After(p, b, events[0]), events[1..], events[0].at);
      if events[0].Claim? then [SlotIn(p, b, events[0].call, events[0].at)] + rest else rest
  }

  lemma SoundAfter(p: Pace, b: Pool, e: Event)
    requires Sound(b) && (e.Claim? ==> e.call in b.waiting)
    ensures Sound(After(p, b, e)) && After(p, b, e).waiting.Keys == CallsAfter(b.waiting.Keys, e)
  {
  }

  ghost predicate LedgerSound(u: Ledger) { forall c | c in u.waiting :: u.waiting[c] in u.free }

  ghost function LedgerSlots(p: Pace, u: Ledger, events: seq<Event>, from: real): seq<real>
    requires LedgerSound(u) && IsRun(u.waiting.Keys, from, events)
    decreases |events|
  {
    if events == [] then []
    else
      LedgerSoundAfter(p, u, events[0]);
      var rest := LedgerSlots(p, LedgerAfter(p, u, events[0]), events[1..], events[0].at);
      if events[0].Claim? then [Slot(p, u.free[u.waiting[events[0].call]], events[0].at)] + rest else rest
  }

  lemma LedgerSoundAfter(p: Pace, u: Ledger, e: Event)
    requires LedgerSound(u) && (e.Claim? ==> e.call in u.waiting)
    ensures LedgerSound(LedgerAfter(p, u, e)) && LedgerAfter(p, u, e).waiting.Keys == CallsAfter(u.waiting.Keys, e)
  {
  }

  // ------------------------------------------------------------------ when forgetting shows

  /** The condition on an eviction: the bucket owes nothing, and nobody who looked it up has yet to claim. */
  ghost predicate Harmless(p: Pace, b: Pool, key: int, at: real)
    requires Sound(b)
  {
    key in b.bucket ==>
      Idle(p, b.free[b.bucket[key]], at) && forall c | c in b.waiting :: b.waiting[c].id != b.bucket[key]
  }

  /** Every eviction of a run is harmless. */
  ghost predicate Careful(p: Pace, b: Pool, events: seq<Event>, from: real)
    requires Sound(b) && IsRun(b.waiting.Keys, from, events)
    decreases |events|
  {
    events != [] ==>
      && (events[0].Forget? ==> Harmless(p, b, events[0].key, events[0].at))
      && (SoundAfter(p, b, events[0]); Careful(p, After(p, b, events[0]), events[1..], events[0].at))
  }

  /** Two readings of one bucket that no call from `now` on can tell apart. */
  predicate Alike(p: Pace, a: real, b: real, now: real) { a == b || (Idle(p, a, now) && Idle(p, b, now)) }

  /** The bounded map tracks what still matters of the unbounded one. */
  ghost predicate Refines(p: Pace, b: Pool, u: Ledger, now: real) {
    && Sound(b) && LedgerSound(u)
    && b.waiting.Keys == u.waiting.Keys
    && (forall c | c in b.waiting ::
          && b.waiting[c].key == u.waiting[c] && b.waiting[c].key in b.bucket
          && b.bucket[b.waiting[c].key] == b.waiting[c].id)
    && (forall k | k in b.bucket :: k in u.free && Alike(p, b.free[b.bucket[k]], u.free[k], now))
    && Unshared(b.bucket)
    && (forall k | k in u.free && k !in b.bucket :: Idle(p, u.free[k], now))
  }

  /** No two chats have one bucket. */
  ghost predicate Unshared(bucket: map<int, nat>) {
    forall k, l | k in bucket && l in bucket && bucket[k] == bucket[l] :: k == l
  }

  lemma UnsharedMore(bucket: map<int, nat>, key: int, id: nat)
    requires Unshared(bucket) && forall k | k in bucket :: bucket[k] < id
    ensures Unshared(bucket[key := id])
  {
  }

  lemma UnsharedLess(bucket: map<int, nat>, key: int)
    requires Unshared(bucket)
    ensures Unshared(bucket - {key})
  {
  }

  /** No call can tell them apart later either. */
  lemma AlikeLater(p: Pace, a: real, b: real, from: real, now: real)
    requires Alike(p, a, b, from) && from <= now
    ensures Alike(p, a, b, now) && Slot(p, a, now) == Slot(p, b, now) && (Idle(p, a, now) <==> Idle(p, b, now))
  {
  }

  lemma RefinesLater(p: Pace, b: Pool, u: Ledger, from: real, now: real)
    requires Refines(p, b, u, from) && from <= now
    ensures Refines(p, b, u, now)
  {
    forall k | k in b.bucket ensures Alike(p, b.free[b.bucket[k]], u.free[k], now) {
      AlikeLater(p, b.free[b.bucket[k]], u.free[k], from, now);
    }
  }

  /** A look-up, in two: an entry where there is none, and the call holding it. */
  function Entered(p: Pace, b: Pool, key: int, at: real): Pool {
    if key in b.bucket then b else Pool(b.bucket[key := |b.free|], b.free + [at - p.burst], b.waiting)
  }

  function LedgerEntered(p: Pace, u: Ledger, key: int, at: real): Ledger {
    if key in u.free then u else u.(free := u.free[key := at - p.burst])
  }

  lemma LookRefines(p: Pace, b: Pool, u: Ledger, call: nat, key: int, at: real)
    requires Refines(p, b, u, at) && call !in b.waiting
    ensures Refines(p, Looked(p, b, call, key, at), LedgerAfter(p, u, Look(call, key, at)), at)
  {
    LookParts(p, b, u, call, key, at);
    hide Refines, Looked, LedgerAfter;
    if key in b.bucket { InLedger(p, b, u, at, key); } else { NewEntryRefines(p, b, u, key, at); }
    HoldRefines(p, Entered(p, b, key, at), LedgerEntered(p, u, key, at), call, key, at);
  }

  lemma LookParts(p: Pace, b: Pool, u: Ledger, call: nat, key: int, at: real)
    ensures var c, v := Entered(p, b, key, at), LedgerEntered(p, u, key, at);
            && key in c.bucket
            && Looked(p, b, call, key, at) == c.(waiting := c.waiting[call := Hold(key, c.bucket[key])])
            && LedgerAfter(p, u, Look(call, key, at)) == v.(waiting := v.waiting[call := key])
  {
  }

  lemma InLedger(p: Pace, b: Pool, u: Ledger, at: real, key: int)
    requires Refines(p, b, u, at) && key in b.bucket
    ensures key in u.free
  {
  }

  /** A chat not tracked: a fresh bucket is as good as one that was forgotten idle. */
  lemma NewEntryRefines(p: Pace, b: Pool, u: Ledger, key: int, at: real)
    requires Refines(p, b, u, at) && key !in b.bucket
    ensures Refines(p, Pool(b.bucket[key := |b.free|], b.free + [at - p.burst], b.waiting),
                    if key in u.free then u else u.(free := u.free[key := at - p.burst]), at)
  {
    var c := Pool(b.bucket[key := |b.free|], b.free + [at - p.burst], b.waiting);
    var v := if key in u.free then u else u.(free := u.free[key := at - p.burst]);
    hide Unshared;
    UnsharedMore(b.bucket, key, |b.free|);
    assert Alike(p, at - p.burst, v.free[key], at);
    hide Idle, Alike;
    forall k | k in c.bucket ensures k in v.free && Alike(p, c.free[c.bucket[k]], v.free[k], at) {
      if k != key { assert c.free[c.bucket[k]] == b.free[b.bucket[k]] && v.free[k] == u.free[k]; }
    }
  }

  lemma HoldRefines(p: Pace, b: Pool, u: Ledger, call: nat, key: int, at: real)
    requires Refines(p, b, u, at) && key in b.bucket
    ensures Refines(p, b.(waiting := b.waiting[call := Hold(key, b.bucket[key])]),
                    u.(waiting := u.waiting[call := key]), at)
  {
  }

  lemma ClaimRefines(p: Pace, b: Pool, u: Ledger, call: nat, at: real)
    requires Refines(p, b, u, at) && call in b.waiting
    ensures SlotIn(p, b, call, at) == Slot(p, u.free[u.waiting[call]], at)
    ensures Refines(p, Claimed(p, b, call, at), LedgerAfter(p, u, Claim(call, at)), at)
  {
    var key := u.waiting[call];
    AlikeLater(p, b.free[b.bucket[key]], u.free[key], at, at);
  }

  lemma ForgetRefines(p: Pace, b: Pool, u: Ledger, key: int, at: real)
    requires Refines(p, b, u, at) && Harmless(p, b, key, at)
    ensures Refines(p, Forgotten(b, key), u, at)
  {
    var c := Forgotten(b, key);
    hide Idle, Alike, Unshared;
    UnsharedLess(b.bucket, key);
    if key in b.bucket {
      ForgottenWasIdle(p, b.free[b.bucket[key]], u.free[key], at);
      assert forall call | call in b.waiting :: b.waiting[call].key != key;
    }
    assert forall k | k in c.bucket :: k in b.bucket && c.bucket[k] == b.bucket[k];
  }

  lemma ForgottenWasIdle(p: Pace, a: real, b: real, at: real)
    requires Idle(p, a, at) && Alike(p, a, b, at)
    ensures Idle(p, b, at)
  {
  }

  /** For every run whose evictions are harmless, every call gets the slot it would have had of a map
      that forgets nothing, however look-ups and claims overlap. */
  lemma {:induction false} BoundedRefinesUnbounded(p: Pace, b: Pool, u: Ledger, events: seq<Event>, from: real)
    requires Refines(p, b, u, from) && IsRun(b.waiting.Keys, from, events) && Careful(p, b, events, from)
    ensures PoolSlots(p, b, events, from) == LedgerSlots(p, u, events, from)
    decreases |events|
  {
    if events != [] {
      var e := events[0];
      SoundAfter(p, b, e);
      LedgerSoundAfter(p, u, e);
      RefinesLater(p, b, u, from, e.at);
      hide Refines;
      StepRefines(p, b, u, e);
      BoundedRefinesUnbounded(p, After(p, b, e), LedgerAfter(p, u, e), events[1..], e.at);
    }
  }

  lemma StepRefines(p: Pace, b: Pool, u: Ledger, e: Event)
    requires Refines(p, b, u, e.at) && (e.Look? ==> e.call !in b.waiting) && (e.Claim? ==> e.call in b.waiting)
    requires e.Forget? ==> Harmless(p, b, e.key, e.at)
    ensures Refines(p, After(p, b, e), LedgerAfter(p, u, e), e.at)
    ensures e.Claim? ==> SlotIn(p, b, e.call, e.at) == Slot(p, u.free[u.waiting[e.call]], e.at)
  {
    match e
    case Look(call, key, at) => LookRefines(p, b, u, call, key, at);
    case Claim(call, at) => ClaimRefines(p, b, u, call, at);
    case Quit(call, at) =>
    case Forget(key, at) => ForgetRefines(p, b, u, key, at);
  }

  lemma {:induction false} NewCall(calls: set<nat>) returns (c: nat)
    ensures c !in calls && forall d | d in calls :: d < c
  {
    if calls == {} {
      c := 0;
    } else {
      var d :| d in calls;
      var above := NewCall(calls - {d});
      c := if d < above then above else d + 1;
      forall x | x in calls ensures x < c { assert x == d || x in calls - {d}; }
    }
  }

  ghost predicate NoForget(events: seq<Event>) { forall i | 0 <= i < |events| :: !events[i].Forget? }

  lemma {:induction false} NoForgetIsCareful(p: Pace, b: Pool, events: seq<Event>, from: real)
    requires Sound(b) && IsRun(b.waiting.Keys, from, events) && NoForget(events)
    ensures Careful(p, b, events, from)
    decreases |events|
  {
    if events != [] {
      SoundAfter(p, b, events[0]);
      NoForgetIsCareful(p, After(p, b, events[0]), events[1..], events[0].at);
    }
  }

  /** What can follow an eviction, no slot of it changed. */
  ghost predicate NeverShows(p: Pace, b: Pool, u: Ledger, now: real)
    requires Sound(b) && LedgerSound(u) && b.waiting.Keys == u.waiting.Keys
  {
    forall events | IsRun(b.waiting.Keys, now, events) && NoForget(events) ::
      PoolSlots(p, b, events, now) == LedgerSlots(p, u, events, now)
  }

  /** An eviction never shows if and only if the bucket is idle and no look-up of it is outstanding. */
  lemma ForgettingNeverShowsIff(p: Pace, b: Pool, u: Ledger, key: int, now: real)
    requires p.Valid() && Refines(p, b, u, now) && key in b.bucket
    ensures NeverShows(p, Forgotten(b, key), u, now) <==> Harmless(p, b, key, now)
  {
    var c := Forgotten(b, key);
    if Harmless(p, b, key, now) {
      ForgetRefines(p, b, u, key, now);
      forall events | IsRun(c.waiting.Keys, now, events) && NoForget(events)
        ensures PoolSlots(p, c, events, now) == LedgerSlots(p, u, events, now)
      {
        NoForgetIsCareful(p, c, events, now);
        BoundedRefinesUnbounded(p, c, u, events, now);
      }
    } else if !Idle(p, b.free[b.bucket[key]], now) {
      OwingShows(p, b, u, key, now);
    } else {
      var call :| call in b.waiting && b.waiting[call].id == b.bucket[key];
      OutstandingShows(p, b, u, key, now, call);
    }
  }

  /** One event more in front, in either map. */
  lemma OneMore(p: Pace, b: Pool, u: Ledger, e: Event, rest: seq<Event>, from: real)
    requires Sound(b) && LedgerSound(u) && b.waiting.Keys == u.waiting.Keys && from <= e.at
    requires (e.Look? ==> e.call !in b.waiting) && (e.Claim? || e.Quit? ==> e.call in b.waiting)
    requires IsRun(CallsAfter(b.waiting.Keys, e), e.at, rest)
    ensures IsRun(b.waiting.Keys, from, [e] + rest)
    ensures Sound(After(p, b, e)) && After(p, b, e).waiting.Keys == CallsAfter(b.waiting.Keys, e)
    ensures LedgerSound(LedgerAfter(p, u, e)) && LedgerAfter(p, u, e).waiting.Keys == CallsAfter(b.waiting.Keys, e)
    ensures PoolSlots(p, b, [e] + rest, from) ==
            (if e.Claim? then [SlotIn(p, b, e.call, e.at)] else []) + PoolSlots(p, After(p, b, e), rest, e.at)
    ensures LedgerSlots(p, u, [e] + rest, from) ==
            (if e.Claim? then [Slot(p, u.free[u.waiting[e.call]], e.at)] else []) +
              LedgerSlots(p, LedgerAfter(p, u, e), rest, e.at)
  {
    SoundAfter(p, b, e);
    LedgerSoundAfter(p, u, e);
    assert ([e] + rest)[1..] == rest;
  }

  /** What a bucket that owes a wait shows: the chat's next call would have had to wait for it. */
  lemma OwingShows(p: Pace, b: Pool, u: Ledger, key: int, now: real)
    requires p.Valid() && Refines(p, b, u, now) && key in b.bucket && !Idle(p, b.free[b.bucket[key]], now)
    ensures !NeverShows(p, Forgotten(b, key), u, now)
  {
    var c := Forgotten(b, key);
    var call := NewCall(b.waiting.Keys);
    assert Sound(c) && LedgerSound(u) && c.waiting.Keys == u.waiting.Keys && key in u.free
      && u.free[key] > now - p.burst;
    hide Refines;
    LookThenClaim(p, c, u, call, key, now);
  }

  /** The slots of a look-up and its claim at once. */
  lemma LookThenClaim(p: Pace, c: Pool, u: Ledger, call: nat, key: int, now: real)
    requires Sound(c) && LedgerSound(u) && c.waiting.Keys == u.waiting.Keys && call !in c.waiting
    requires key !in c.bucket && key in u.free && u.free[key] > now - p.burst
    ensures !NeverShows(p, c, u, now)
  {
    var look, claim := Look(call, key, now), Claim(call, now);
    SoundAfter(p, c, look);
    LedgerSoundAfter(p, u, look);
    var d, v := After(p, c, look), LedgerAfter(p, u, look);
    assert IsRun(CallsAfter(d.waiting.Keys, claim), now, []);
    OneMore(p, d, v, claim, [], now);
    assert SlotIn(p, d, call, now) == now - p.burst && Slot(p, v.free[v.waiting[call]], now) == u.free[key];
    OneMore(p, c, u, look, [claim] + [], now);
    var events := [look] + ([claim] + []);
    hide After, LedgerAfter, IsRun, PoolSlots, LedgerSlots, SlotIn, Slot, Sound, LedgerSound;
    assert NoForget(events);
    assert PoolSlots(p, c, events, now)[0] != LedgerSlots(p, u, events, now)[0];
  }

  /** What a look-up outstanding on an idle bucket shows: it and the next call of the chat claim from two
      buckets, where one would have put them an interval apart. */
  lemma OutstandingShows(p: Pace, b: Pool, u: Ledger, key: int, now: real, early: nat)
    requires p.Valid() && Refines(p, b, u, now) && key in b.bucket && Idle(p, b.free[b.bucket[key]], now)
    requires early in b.waiting && b.waiting[early].id == b.bucket[key]
    ensures !NeverShows(p, Forgotten(b, key), u, now)
  {
    var c := Forgotten(b, key);
    var call := NewCall(b.waiting.Keys);
    SecondSlots(p, b, u, key, now, early, call);
    assert Sound(c) && LedgerSound(u) && c.waiting.Keys == u.waiting.Keys;
    hide Refines;
    LookThenTwoClaims(p, c, u, call, key, now, early);
  }

  lemma LookThenTwoClaims(p: Pace, c: Pool, u: Ledger, call: nat, key: int, now: real, early: nat)
    requires Sound(c) && LedgerSound(u) && c.waiting.Keys == u.waiting.Keys && call !in c.waiting && early in c.waiting
    requires var d, v := Looked(p, c, call, key, now), LedgerAfter(p, u, Look(call, key, now));
             && d.waiting[early].id < |d.free| && v.waiting[early] in v.free
             && d.waiting[call].id < |d.free| && v.waiting[call] in v.free
             && SlotIn(p, Claimed(p, d, early, now), call, now) !=
                Slot(p, LedgerAfter(p, v, Claim(early, now)).free[v.waiting[call]], now)
    ensures !NeverShows(p, c, u, now)
  {
    var look := Look(call, key, now);
    SoundAfter(p, c, look);
    LedgerSoundAfter(p, u, look);
    var d, v := After(p, c, look), LedgerAfter(p, u, look);
    TwoClaims(p, d, v, early, call, now);
    var claims := [Claim(early, now)] + ([Claim(call, now)] + []);
    OneMore(p, c, u, look, claims, now);
    hide After, LedgerAfter, IsRun, PoolSlots, LedgerSlots, SlotIn, Slot, Sound, LedgerSound, Looked, Claimed;
    assert NoForget([look] + claims);
    assert PoolSlots(p, c, [look] + claims, now) == [] + PoolSlots(p, d, claims, now);
    assert LedgerSlots(p, u, [look] + claims, now) == [] + LedgerSlots(p, v, claims, now);
  }

  /** The slots of two claims at once. */
  lemma TwoClaims(p: Pace, d: Pool, v: Ledger, early: nat, call: nat, now: real)
    requires Sound(d) && LedgerSound(v) && d.waiting.Keys == v.waiting.Keys
    requires early in d.waiting && call in d.waiting && early != call
    ensures var claims := [Claim(early, now)] + ([Claim(call, now)] + []);
            && IsRun(d.waiting.Keys, now, claims)
            && |PoolSlots(p, d, claims, now)| == 2 == |LedgerSlots(p, v, claims, now)|
            && PoolSlots(p, d, claims, now)[1] == SlotIn(p, Claimed(p, d, early, now), call, now)
            && LedgerSlots(p, v, claims, now)[1] ==
               Slot(p, LedgerAfter(p, v, Claim(early, now)).free[v.waiting[call]], now)
  {
    var first, second := Claim(early, now), Claim(call, now);
    SoundAfter(p, d, first);
    LedgerSoundAfter(p, v, first);
    var f, w := After(p, d, first), LedgerAfter(p, v, first);
    assert IsRun(CallsAfter(f.waiting.Keys, second), now, []);
    OneMore(p, f, w, second, [], now);
    OneMore(p, d, v, first, [second] + [], now);
  }

  lemma SecondSlots(p: Pace, b: Pool, u: Ledger, key: int, now: real, early: nat, call: nat)
    requires p.Valid() && Refines(p, b, u, now) && key in b.bucket && Idle(p, b.free[b.bucket[key]], now)
    requires early in b.waiting && b.waiting[early].id == b.bucket[key] && call !in b.waiting
    ensures var d, v := Looked(p, Forgotten(b, key), call, key, now), LedgerAfter(p, u, Look(call, key, now));
            && SlotIn(p, Claimed(p, d, early, now), call, now) == now - p.burst
            && v.waiting[early] == key
            && Slot(p, LedgerAfter(p, v, Claim(early, now)).free[key], now) == now - p.burst + p.interval
  {
    assert b.bucket[b.waiting[early].key] == b.bucket[key];
  }

  // chat 7 by steps, in the bounded map and in the other; one call a second, no burst

  const EachSecond: Pace := Pace(1.0, 0.0)
  const B0: Pool := Pool(map[], [], map[])
  const B1: Pool := Pool(map[7 := 0], [0.0], map[0 := Hold(7, 0)])
  const B2: Pool := Pool(map[], [0.0], map[0 := Hold(7, 0)])
  const B3: Pool := Pool(map[7 := 1], [0.0, 6.0], map[0 := Hold(7, 0), 1 := Hold(7, 1)])
  const B4: Pool := Pool(map[7 := 1], [11.0, 6.0], map[1 := Hold(7, 1)])
  const U0: Ledger := Ledger(map[], map[])
  const U1: Ledger := Ledger(map[7 := 0.0], map[0 := 7])
  const U3: Ledger := Ledger(map[7 := 0.0], map[0 := 7, 1 := 7])
  const U4: Ledger := Ledger(map[7 := 11.0], map[1 := 7])

  lemma FirstLook()
    ensures After(EachSecond, B0, Look(0, 7, 0.0)) == B1 && LedgerAfter(EachSecond, U0, Look(0, 7, 0.0)) == U1
    ensures Refines(EachSecond, B0, U0, 0.0) && B0.waiting.Keys == {} == U0.waiting.Keys
  {
    assert U0.free[7 := 0.0] == map[7 := 0.0];
  }

  lemma Evicted()
    ensures After(EachSecond, B1, Forget(7, 5.0)) == B2 && LedgerAfter(EachSecond, U1, Forget(7, 5.0)) == U1
    ensures Sound(B1) && LedgerSound(U1) && Idle(EachSecond, B1.free[0], 5.0)
  {
    assert B1.bucket - {7} == map[];
  }

  lemma SecondLook()
    ensures After(EachSecond, B2, Look(1, 7, 6.0)) == B3 && LedgerAfter(EachSecond, U1, Look(1, 7, 6.0)) == U3
    ensures Sound(B2)
  {
    assert B2.free + [6.0] == B3.free;
  }

  lemma FirstClaim()
    ensures Sound(B3) && LedgerSound(U3)
            && SlotIn(EachSecond, B3, 0, 10.0) == 10.0 == Slot(EachSecond, U3.free[7], 10.0)
    ensures After(EachSecond, B3, Claim(0, 10.0)) == B4 && LedgerAfter(EachSecond, U3, Claim(0, 10.0)) == U4
  {
    assert B3.waiting - {0} == B4.waiting && U3.waiting - {0} == U4.waiting;
    assert B3.free[0 := 11.0] == B4.free;
  }

  /** From here the two maps give the two calls different slots. */
  ghost predicate Differ(b: Pool, u: Ledger, calls: set<nat>, from: real, events: seq<Event>, bounded: seq<real>,
                         unbounded: seq<real>) {
    && Sound(b) && LedgerSound(u) && b.waiting.Keys == calls == u.waiting.Keys && IsRun(calls, from, events)
    && PoolSlots(EachSecond, b, events, from) == bounded && LedgerSlots(EachSecond, u, events, from) == unbounded
  }

  lemma LastClaim()
    ensures Differ(B4, U4, {1}, 10.0, [Claim(1, 10.0)], [10.0], [11.0])
  {
    var e := Claim(1, 10.0);
    assert B4.waiting.Keys == {1} && IsRun(CallsAfter({1}, e), 10.0, []);
    OneMore(EachSecond, B4, U4, e, [], 10.0);
    assert [e] + [] == [e];
  }

  /** A claim, or anything else, in front of a stretch that differs. */
  lemma DifferMore(b: Pool, u: Ledger, calls: set<nat>, from: real, e: Event, c: Pool, v: Ledger, events: seq<Event>,
                   bounded: seq<real>, unbounded: seq<real>, slot: real)
    requires Sound(b) && LedgerSound(u) && b.waiting.Keys == calls == u.waiting.Keys && from <= e.at
    requires (e.Look? ==> e.call !in calls) && (e.Claim? || e.Quit? ==> e.call in calls)
    requires After(EachSecond, b, e) == c && LedgerAfter(EachSecond, u, e) == v
    requires Differ(c, v, CallsAfter(calls, e), e.at, events, bounded, unbounded)
    requires e.Claim? ==>
               SlotIn(EachSecond, b, e.call, e.at) == slot == Slot(EachSecond, u.free[u.waiting[e.call]], e.at)
    ensures Differ(b, u, calls, from, [e] + events, (if e.Claim? then [slot] else []) + bounded,
                   (if e.Claim? then [slot] else []) + unbounded)
  {
    OneMore(EachSecond, b, u, e, events, from);
  }

  const Story: seq<Event> := [Look(0, 7, 0.0), Forget(7, 5.0), Look(1, 7, 6.0), Claim(0, 10.0), Claim(1, 10.0)]

  /** And it happens to a bucket that is idle when it goes: chat 7 is looked up at 0 and waits for its
      overall slot, is evicted at 5, looked up again at 6, and both calls claim at 10. */
  lemma OverlappingCallsDiffer()
    ensures Differ(B0, U0, {}, 0.0, Story, [10.0, 10.0], [10.0, 11.0])
  {
    hide Differ;
    FromClaims();
    FromSecondLook();
    FromEviction();
    FirstLook();
    hide Refines;
    assert CallsAfter({}, Look(0, 7, 0.0)) == {0};
    DifferMore(B0, U0, {}, 0.0, Look(0, 7, 0.0), B1, U1, Story[1..], [10.0, 10.0], [10.0, 11.0], 0.0);
    assert [Look(0, 7, 0.0)] + Story[1..] == Story;
    assert [] + [10.0, 10.0] == [10.0, 10.0] && [] + [10.0, 11.0] == [10.0, 11.0];
  }

  lemma FromEviction()
    requires Differ(B2, U1, {0}, 5.0, Story[2..], [10.0, 10.0], [10.0, 11.0])
    ensures Differ(B1, U1, {0}, 0.0, Story[1..], [10.0, 10.0], [10.0, 11.0])
  {
    hide Differ;
    Evicted();
    assert CallsAfter({0}, Forget(7, 5.0)) == {0} && B1.waiting.Keys == {0} == U1.waiting.Keys;
    DifferMore(B1, U1, {0}, 0.0, Forget(7, 5.0), B2, U1, Story[2..], [10.0, 10.0], [10.0, 11.0], 0.0);
    assert [Forget(7, 5.0)] + Story[2..] == Story[1..];
    assert [] + [10.0, 10.0] == [10.0, 10.0] && [] + [10.0, 11.0] == [10.0, 11.0];
  }

  lemma FromClaims()
    ensures Differ(B3, U3, {0, 1}, 6.0, Story[3..], [10.0, 10.0], [10.0, 11.0])
  {
    FirstClaim();
    LastClaim();
    hide Differ;
    assert CallsAfter({0, 1}, Claim(0, 10.0)) == {1} && B3.waiting.Keys == {0, 1} == U3.waiting.Keys;
    DifferMore(B3, U3, {0, 1}, 6.0, Claim(0, 10.0), B4, U4, [Claim(1, 10.0)], [10.0], [11.0], 10.0);
    assert [Claim(0, 10.0)] + [Claim(1, 10.0)] == Story[3..];
    assert [10.0] + [10.0] == [10.0, 10.0] && [10.0] + [11.0] == [10.0, 11.0];
  }

  lemma FromSecondLook()
    requires Differ(B3, U3, {0, 1}, 6.0, Story[3..], [10.0, 10.0], [10.0, 11.0])
    ensures Differ(B2, U1, {0}, 5.0, Story[2..], [10.0, 10.0], [10.0, 11.0])
  {
    SecondLook();
    Evicted();
    hide Differ;
    assert CallsAfter({0}, Look(1, 7, 6.0)) == {0, 1} && B2.waiting.Keys == {0} == U1.waiting.Keys;
    DifferMore(B2, U1, {0}, 5.0, Look(1, 7, 6.0), B3, U3, Story[3..], [10.0, 10.0], [10.0, 11.0], 0.0);
    assert [Look(1, 7, 6.0)] + Story[3..] == Story[2..];
    assert [] + [10.0, 10.0] == [10.0, 10.0] && [] + [10.0, 11.0] == [10.0, 11.0];
  }

  // ------------------------------------------------------------------ the limiter's map

  class ChatBuckets {
    const pace: Pace
    var order: seq<int>
    var bucket: map<int, nat>
    var free: seq<real>                  // when each bucket ever made is next free, in or out of the map
    var waiting: map<nat, Hold>

    ghost function Now(): Tracked
      reads this`order, this`bucket
    {
      Tracked(order, bucket)
    }

    ghost function InPool(): Pool
      reads this`bucket, this`free, this`waiting
    {
      Pool(bucket, free, waiting)
    }

    ghost predicate Valid()
      reads this
    {
      Kept(Now()) && Sound(InPool())
    }

    constructor (pace: Pace)
      ensures Valid() && order == [] && InPool() == Pool(map[], [], map[]) && this.pace == pace
    {
      this.pace, order, bucket, free, waiting := pace, [], map[], [], map[];
    }

    /** The first idle of the oldest eight, or the oldest. */
    method Choose(readings: seq<real>) returns (evict: nat)
      requires |readings| == EVICTION_CANDIDATES
      ensures evict == Victim(Answers(pace, InPool(), order, readings), 0) && evict < EVICTION_CANDIDATES
    {
      evict := 0;
      while evict < EVICTION_CANDIDATES && !IdleAt(pace, bucket, free, order, evict, readings[evict])
        invariant 0 <= evict <= EVICTION_CANDIDATES
        invariant Victim(Answers(pace, InPool(), order, readings), evict) ==
                  Victim(Answers(pace, InPool(), order, readings), 0)
      {
        evict := evict + 1;
      }
      if evict == EVICTION_CANDIDATES { evict := 0; }
    }

    /** `_evict`: the oldest eight are popped, the victim left out, the others put back in front. */
    method Evict(evict: nat)
      requires |order| > EVICTION_CANDIDATES > evict
      modifies this`order, this`bucket
      ensures Now() == Dropped(old(Now()), evict)
    {
      ghost var before := Now();
      var candidates := order[..EVICTION_CANDIDATES];
      ghost var newer := order[EVICTION_CANDIDATES..];
      order, bucket := order[EVICTION_CANDIDATES..], bucket - {candidates[evict]};
      candidates := candidates[..evict] + candidates[evict + 1..];
      var k := |candidates|;
      while k > 0
        invariant 0 <= k <= |candidates|
        invariant order == candidates[k..] + newer && bucket == before.bucket - {before.order[evict]}
      {
        k := k - 1;
        assert candidates[k..] == [candidates[k]] + candidates[k + 1..];
        order := [candidates[k]] + order;
      }
      assert candidates[0..] == candidates;
      Rejoined(before.order, evict);
    }

    /** `_for`, for a call: its bucket found or made, marked as the most recently used, and one entry
        evicted where a new one is one too many. */
    method For(call: nat, key: int, made: real, readings: seq<real>)
      requires Valid() && |readings| == EVICTION_CANDIDATES && call !in waiting
      modifies this`order, this`bucket, this`free, this`waiting
      ensures Valid()
      ensures var idle := Answers(pace, old(InPool()), old(order), readings);
              && Now() == Touched(old(Now()), key, |old(free)|, idle)
              && InPool() == Pooled(pace, old(InPool()), old(order), call, key, made, idle)
    {
      ghost var was, held, idle := Now(), InPool(), Answers(pace, InPool(), order, readings);
      TouchedShape(was, key, |free|, idle);
      PooledSound(pace, held, order, call, key, made, idle);
      var id: nat;
      if key in bucket {
        assert key in order;
        id := bucket[key];
        hide Kept, Sound, Without, Victim, Answers, IndexOf;
        order := MovedLast(order, key);
      } else {
        id := |free|;
        hide Kept, Sound, Without, Victim, Answers;
        Make(key, made, readings);
      }
      waiting := waiting[call := Hold(key, id)];
    }

    method MovedLast(order: seq<int>, key: int) returns (moved: seq<int>)
      requires key in order
      ensures moved == Without(order, IndexOf(order, key)) + [key]
    {
      var i := IndexOf(order, key);
      moved := order[..i] + order[i + 1..] + [key];
    }

    /** A new entry, and where it is one too many, a victim. */
    method Make(key: int, made: real, readings: seq<real>)
      requires Valid() && |readings| == EVICTION_CANDIDATES && key !in bucket
      modifies this`order, this`bucket, this`free
      ensures free == old(free) + [made - pace.burst]
      ensures Now() == Touched(old(Now()), key, |old(free)|, Answers(pace, old(InPool()), old(order), readings))
      ensures bucket == if |old(order)| < MAX_TRACKED_CHATS then old(bucket)[key := |old(free)|]
                        else old(bucket)[key := |old(free)|] -
                             {old(order)[Victim(Answers(pace, old(InPool()), old(order), readings), 0)]}
    {
      if |order| == MAX_TRACKED_CHATS { SameAnswers(pace, InPool(), order, key, made, readings); }
      hide Kept, Sound, Without, Victim, Answers;
      var id := |free|;
      order, bucket, free := order + [key], bucket[key := id], free + [made - pace.burst];
      if |order| > MAX_TRACKED_CHATS {
        var evict := Choose(readings);
        assert order[evict] == old(order)[evict];
        Evict(evict);
      }
    }

    /** `acquire` of the bucket a call looked up, whether or not the map still has it. */
    method Claim(call: nat, now: real) returns (slot: real)
      requires Valid() && call in waiting
      modifies this`free, this`waiting
      ensures Valid() && call in old(waiting) && old(waiting)[call].id < |old(free)|
      ensures slot == SlotIn(pace, old(InPool()), call, now) && InPool() == Claimed(pace, old(InPool()), call, now)
    {
      hide Kept;
      var id := waiting[call].id;
      slot := Max(free[id], now - pace.burst);
      free, waiting := free[id := slot + pace.interval], waiting - {call};
    }
  }

  /** What `_for` does to the buckets: a look-up, and where it evicts, a forgetting. */
  ghost function Pooled(p: Pace, b: Pool, order: seq<int>, call: nat, key: int, made: real, idle: seq<bool>): Pool
    requires |idle| == EVICTION_CANDIDATES
  {
    if key !in b.bucket && |order| >= MAX_TRACKED_CHATS then
      Forgotten(Looked(p, b, call, key, made), order[Victim(idle, 0)])
    else Looked(p, b, call, key, made)
  }

  lemma PooledSound(p: Pace, b: Pool, order: seq<int>, call: nat, key: int, made: real, idle: seq<bool>)
    requires Sound(b) && |idle| == EVICTION_CANDIDATES
    ensures Sound(Pooled(p, b, order, call, key, made, idle))
  {
  }

  /** What a candidate answers `is_idle` at its own reading of the clock. */
  predicate IdleAt(p: Pace, bucket: map<int, nat>, free: seq<real>, order: seq<int>, i: nat, reading: real) {
    i < |order| && order[i] in bucket && bucket[order[i]] < |free| && Idle(p, free[bucket[order[i]]], reading)
  }

  ghost function Answers(p: Pace, b: Pool, order: seq<int>, readings: seq<real>): (idle: seq<bool>)
    ensures |idle| == |readings|
  {
    seq(|readings|, i requires 0 <= i < |readings| => IdleAt(p, b.bucket, b.free, order, i, readings[i]))
  }

  /** A new chat changes nothing of what the oldest eight answer. */
  lemma SameAnswers(p: Pace, b: Pool, order: seq<int>, key: int, made: real, readings: seq<real>)
    requires Sound(b) && key !in b.bucket && |order| >= EVICTION_CANDIDATES == |readings|
    requires forall k :: k in order <==> k in b.bucket
    ensures Answers(p, Pool(b.bucket[key := |b.free|], b.free + [made - p.burst], b.waiting), order + [key], readings)
         == Answers(p, b, order, readings)
  {
    var c := Pool(b.bucket[key := |b.free|], b.free + [made - p.burst], b.waiting);
    forall i: nat | i < |readings|
      ensures IdleAt(p, c.bucket, c.free, order + [key], i, readings[i]) ==
              IdleAt(p, b.bucket, b.free, order, i, readings[i])
    {
      assert (order + [key])[i] == order[i] && order[i] in order;
    }
  }

  /** The oldest without the victim, and the rest behind them, are everybody without the victim. */
  lemma Rejoined(order: seq<int>, v: nat)
    requires v < EVICTION_CANDIDATES <= |order|
    ensures var oldest := order[..EVICTION_CANDIDATES];
            oldest[..v] + oldest[v + 1..] + order[EVICTION_CANDIDATES..] == Without(order, v)
  {
  }
}
