/** The event recorder (eventlog/recorder.py) and its drop ledger (eventlog/bookkeeping.py).

    Any number of threads record, drain, flush and stop at once. A method here is one thread's, and
    `Others` is what the rest may do between two of its lock regions or queue operations: any number
    of the same atomic steps, each on another thread's hand. What a method promises therefore holds
    in every interleaving. */
module EventRecorder {
  import opened EventWriter
  import opened Options

  datatype Event = Event(id: nat, kind: string)

  /** What a queue carries: an event, or a marker that ends the writer's wait. */
  datatype Item = Recorded(event: Event) | Wake

  const FAILURE_LIMIT: nat := 5

  function One(item: Item): multiset<Event> {
    if item.Recorded? then multiset{item.event} else multiset{}
  }

  function EventsIn(q: seq<Item>): multiset<Event> {
    if q == [] then multiset{} else One(q[0]) + EventsIn(q[1..])
  }

  /** Every event in any queue there ever was, live or detached. */
  function Queued(qs: seq<seq<Item>>): multiset<Event> {
    if qs == [] then multiset{} else EventsIn(qs[0]) + Queued(qs[1..])
  }

  lemma {:induction false} EventsAppend(q: seq<Item>, item: Item)
    ensures EventsIn(q + [item]) == EventsIn(q) + One(item)
  {
    if q == [] {
      assert (q + [item])[1..] == [];
    } else {
      EventsAppend(q[1..], item);
      assert (q + [item])[0] == q[0] && (q + [item])[1..] == q[1..] + [item];
      assert EventsIn(q + [item]) == One(q[0]) + EventsIn(q[1..] + [item]);
      Regroup(One(q[0]), EventsIn(q[1..]), One(item));
      hide One;
    }
  }

  lemma Regroup(a: multiset<Event>, b: multiset<Event>, c: multiset<Event>)
    ensures a + (b + c) == (a + b) + c
  {
  }

  lemma Swap(a: multiset<Event>, b: multiset<Event>, c: multiset<Event>, x: multiset<Event>, y: multiset<Event>)
    requires b + x == c + y
    ensures (a + b) + x == (a + c) + y
  {
    assert (a + b) + x == a + (b + x);
  }

  lemma {:induction false} QueuedUpdate(qs: seq<seq<Item>>, i: nat, q: seq<Item>)
    requires i < |qs|
    ensures Queued(qs[i := q]) + EventsIn(qs[i]) == Queued(qs) + EventsIn(q)
  {
    var after := qs[i := q];
    if i == 0 {
      assert after[1..] == qs[1..];
    } else {
      QueuedUpdate(qs[1..], i - 1, q);
      assert after[1..] == qs[1..][i - 1 := q];
      Swap(EventsIn(qs[0]), Queued(after[1..]), Queued(qs[1..]), EventsIn(qs[i]), EventsIn(q));
    }
  }

  lemma Cancel(a: multiset<Event>, b: multiset<Event>, x: multiset<Event>, y: multiset<Event>)
    requires a + x == b + (x + y) || b + (y + x) == a + x
    ensures a == b + y
  {
    assert b + (x + y) == (b + y) + x && b + (y + x) == (b + y) + x;
    assert a == (a + x) - x && b + y == ((b + y) + x) - x;
  }

  lemma {:induction false} QueuedAppend(qs: seq<seq<Item>>)
    ensures Queued(qs + [[]]) == Queued(qs)
  {
    if qs != [] {
      QueuedAppend(qs[1..]);
      assert (qs + [[]])[1..] == qs[1..] + [[]];
    }
  }

  /** The rows at these positions of a batch. */
  function Picked(batch: seq<Event>, rows: seq<nat>): multiset<Event>
    requires forall i | 0 <= i < |rows| :: rows[i] < |batch|
  {
    if rows == [] then multiset{} else multiset{batch[rows[|rows| - 1]]} + Picked(batch, rows[..|rows| - 1])
  }

  lemma {:induction false} PickedOnce(batch: seq<Event>, rows: seq<nat>, hi: nat)
    requires hi <= |batch| && Choice(rows, 0, hi)
    ensures Picked(batch, rows) <= multiset(batch[..hi]) && |Picked(batch, rows)| == |rows|
    decreases hi
  {
    if rows != [] {
      var last := rows[|rows| - 1];
      PickedOnce(batch, rows[..|rows| - 1], last);
      assert batch[..last + 1] == batch[..last] + [batch[last]];
      assert batch[..hi] == batch[..last + 1] + batch[last + 1..hi];
    }
  }

  ghost predicate Balanced(admitted: multiset<Event>, rows: multiset<Event>, queued: multiset<Event>,
                           hand: multiset<Event>, elsewhere: multiset<Event>, lost: multiset<Event>)
  {
    admitted == rows + queued + hand + elsewhere + lost
  }

  /** Events moving between this thread's hand and a queue, the table or the lost. */
  lemma Moves(admitted: multiset<Event>, rows: multiset<Event>, queued: multiset<Event>, hand: multiset<Event>,
              elsewhere: multiset<Event>, lost: multiset<Event>, x: multiset<Event>)
    ensures Balanced(admitted, rows, queued + x, hand, elsewhere, lost)
       <==> Balanced(admitted, rows, queued, hand + x, elsewhere, lost)
    ensures Balanced(admitted, rows + x, queued, hand, elsewhere, lost)
       <==> Balanced(admitted, rows, queued, hand + x, elsewhere, lost)
    ensures Balanced(admitted, rows, queued, hand, elsewhere, lost + x)
       <==> Balanced(admitted, rows, queued, hand + x, elsewhere, lost)
    ensures Balanced(admitted, rows, queued, hand, elsewhere, lost)
        ==> Balanced(admitted + x, rows, queued, hand + x, elsewhere, lost)
  {
  }

  lemma PutMoves(admitted: multiset<Event>, rows: multiset<Event>, queues: seq<seq<Item>>, i: nat, item: Item,
                 elsewhere: multiset<Event>, lost: multiset<Event>)
    requires i < |queues| && Balanced(admitted, rows, Queued(queues), One(item), elsewhere, lost)
    ensures Balanced(admitted, rows, Queued(queues[i := queues[i] + [item]]), multiset{}, elsewhere, lost)
  {
    hide Balanced, Queued, EventsIn;
    var after := queues[i := queues[i] + [item]];
    EventsAppend(queues[i], item);
    QueuedUpdate(queues, i, queues[i] + [item]);
    Cancel(Queued(after), Queued(queues), EventsIn(queues[i]), One(item));
    assert multiset{} + One(item) == One(item);
    Moves(admitted, rows, Queued(queues), multiset{}, elsewhere, lost, One(item));
  }

  lemma GetMoves(admitted: multiset<Event>, rows: multiset<Event>, queues: seq<seq<Item>>, i: nat,
                 hand: multiset<Event>, elsewhere: multiset<Event>, lost: multiset<Event>)
    requires i < |queues| && queues[i] != [] && Balanced(admitted, rows, Queued(queues), hand, elsewhere, lost)
    ensures Balanced(admitted, rows, Queued(queues[i := queues[i][1..]]), hand + One(queues[i][0]), elsewhere, lost)
  {
    var after, first := queues[i := queues[i][1..]], One(queues[i][0]);
    assert EventsIn(queues[i]) == first + EventsIn(queues[i][1..]);
    hide Balanced, Queued, EventsIn;
    QueuedUpdate(queues, i, queues[i][1..]);
    Cancel(Queued(queues), Queued(after), EventsIn(queues[i][1..]), first);
    Moves(admitted, rows, Queued(after), hand, elsewhere, lost, first);
  }

  /** What draining a queue yields, an item at a time: the events in order, a wake-up ending it or not. */
  function Drained(q: seq<Item>, limit: nat, stopAtWake: bool): seq<Event>
    decreases limit
  {
    if limit == 0 || q == [] then []
    else if q[0].Wake? then (if stopAtWake then [] else Drained(q[1..], limit - 1, stopAtWake))
    else [q[0].event] + Drained(q[1..], limit - 1, stopAtWake)
  }

  /** And what it leaves. */
  function Left(q: seq<Item>, limit: nat, stopAtWake: bool): seq<Item>
    decreases limit
  {
    if limit == 0 || q == [] then q
    else if q[0].Wake? && stopAtWake then q[1..]
    else Left(q[1..], limit - 1, stopAtWake)
  }

  ghost predicate SoFar(q: seq<Item>, limit: nat, stopAtWake: bool, batch: seq<Event>, rest: seq<Item>, left: nat) {
    && Drained(q, limit, stopAtWake) == batch + Drained(rest, left, stopAtWake)
    && Left(q, limit, stopAtWake) == Left(rest, left, stopAtWake)
  }

  lemma SoFarNext(q: seq<Item>, limit: nat, stopAtWake: bool, batch: seq<Event>, rest: seq<Item>, left: nat)
    requires SoFar(q, limit, stopAtWake, batch, rest, left) && left > 0 && rest != []
    ensures rest[0].Recorded? ==> SoFar(q, limit, stopAtWake, batch + [rest[0].event], rest[1..], left - 1)
    ensures rest[0].Wake? && !stopAtWake ==> SoFar(q, limit, stopAtWake, batch, rest[1..], left - 1)
    ensures rest[0].Wake? && stopAtWake ==> SoFar(q, limit, stopAtWake, batch, rest[1..], 0)
  {
    if rest[0].Recorded? {
      assert batch + ([rest[0].event] + Drained(rest[1..], left - 1, stopAtWake)) ==
             batch + [rest[0].event] + Drained(rest[1..], left - 1, stopAtWake);
    }
  }

  lemma SoFarDone(q: seq<Item>, limit: nat, stopAtWake: bool, batch: seq<Event>, rest: seq<Item>, left: nat)
    requires SoFar(q, limit, stopAtWake, batch, rest, left) && (left == 0 || rest == [])
    ensures batch == Drained(q, limit, stopAtWake) && rest == Left(q, limit, stopAtWake)
  {
  }

  /** Given items enough, draining past the wake-ups empties the queue and yields every event in it. */
  /** What is drained and what is left are the queue's events. */
  lemma {:induction false} DrainSplits(q: seq<Item>, limit: nat, stopAtWake: bool)
    ensures multiset(Drained(q, limit, stopAtWake)) + EventsIn(Left(q, limit, stopAtWake)) == EventsIn(q)
    ensures |Left(q, limit, stopAtWake)| <= |q|
    decreases limit
  {
    if limit > 0 && q != [] && !(q[0].Wake? && stopAtWake) {
      DrainSplits(q[1..], limit - 1, stopAtWake);
      var rest, left := Drained(q[1..], limit - 1, stopAtWake), Left(q[1..], limit - 1, stopAtWake);
      assert Drained(q, limit, stopAtWake) == if q[0].Wake? then rest else [q[0].event] + rest;
      FirstSplits(q[0], rest, EventsIn(left), EventsIn(q[1..]));
      hide One, Drained, Left;
    }
  }

  lemma FirstSplits(item: Item, rest: seq<Event>, left: multiset<Event>, events: multiset<Event>)
    requires multiset(rest) + left == events
    ensures multiset(if item.Wake? then rest else [item.event] + rest) + left == One(item) + events
  {
    FirstDrained(item, rest, multiset(rest));
  }

  lemma {:induction false} DrainsAll(q: seq<Item>, limit: nat)
    requires limit >= |q|
    ensures Left(q, limit, false) == [] && multiset(Drained(q, limit, false)) == EventsIn(q)
    decreases limit
  {
    if q != [] {
      DrainsAll(q[1..], limit - 1);
      FirstDrained(q[0], Drained(q[1..], limit - 1, false), EventsIn(q[1..]));
      hide One;
    }
  }

  lemma FirstDrained(item: Item, rest: seq<Event>, events: multiset<Event>)
    requires multiset(rest) == events
    ensures multiset(if item.Wake? then rest else [item.event] + rest) == One(item) + events
  {
    if item.Recorded? {
      assert multiset([item.event] + rest) == multiset{item.event} + multiset(rest);
    }
  }

  /** The same for another thread's hand. */
  lemma ElsewhereMoves(admitted: multiset<Event>, rows: multiset<Event>, queued: multiset<Event>, hand: multiset<Event>,
                       elsewhere: multiset<Event>, lost: multiset<Event>, x: multiset<Event>)
    ensures Balanced(admitted, rows, queued, hand, elsewhere, lost) ==>
              Balanced(admitted + x, rows, queued, hand, elsewhere + x, lost)
    ensures Balanced(admitted, rows, queued, hand, elsewhere + x, lost) ==>
              && Balanced(admitted, rows + x, queued, hand, elsewhere, lost)
              && Balanced(admitted, rows, queued, hand, elsewhere, lost + x)
  {
    var sum := rows + queued + hand + elsewhere + lost;
    assert rows + queued + hand + (elsewhere + x) + lost == sum + x;
    assert rows + x + queued + hand + elsewhere + lost == sum + x;
    assert rows + queued + hand + elsewhere + (lost + x) == sum + x;
  }

  /** Books are the same whichever thread's hand is called its own. */
  lemma Sides(admitted: multiset<Event>, rows: multiset<Event>, queued: multiset<Event>, hand: multiset<Event>,
              rest: multiset<Event>, x: multiset<Event>, lost: multiset<Event>)
    ensures Balanced(admitted, rows, queued, hand, rest + x, lost) <==>
            Balanced(admitted, rows, queued, x, hand + rest, lost)
  {
    assert rows + queued + hand + (rest + x) + lost == rows + queued + x + (hand + rest) + lost;
  }

  lemma Together(admitted: multiset<Event>, rows: multiset<Event>, queued: multiset<Event>, hand: multiset<Event>,
                 rest: multiset<Event>, lost: multiset<Event>)
    ensures Balanced(admitted, rows, queued, multiset{}, hand + rest, lost) <==>
            Balanced(admitted, rows, queued, hand, rest, lost)
  {
    assert rows + queued + multiset{} + (hand + rest) + lost == rows + queued + hand + rest + lost;
  }

  lemma MadeGrows(a: View, b: View)
    requires Onward(a, b)
    ensures a.made <= b.made
  {
  }

  lemma EmptiedStays(a: View, b: View)
    requires Onward(a, b)
    ensures a.emptied <= b.emptied
  {
  }

  lemma OthersPutMoves(admitted: multiset<Event>, rows: multiset<Event>, queues: seq<seq<Item>>, i: nat, item: Item,
                       hand: multiset<Event>, rest: multiset<Event>, lost: multiset<Event>)
    requires i < |queues| && Balanced(admitted, rows, Queued(queues), hand, rest + One(item), lost)
    ensures Balanced(admitted, rows, Queued(queues[i := queues[i] + [item]]), hand, rest, lost)
  {
    hide Balanced, Queued;
    Sides(admitted, rows, Queued(queues), hand, rest, One(item), lost);
    PutMoves(admitted, rows, queues, i, item, hand + rest, lost);
    Together(admitted, rows, Queued(queues[i := queues[i] + [item]]), hand, rest, lost);
  }

  lemma OthersGetMoves(admitted: multiset<Event>, rows: multiset<Event>, queues: seq<seq<Item>>, i: nat,
                       hand: multiset<Event>, elsewhere: multiset<Event>, lost: multiset<Event>)
    requires i < |queues| && queues[i] != [] && Balanced(admitted, rows, Queued(queues), hand, elsewhere, lost)
    ensures Balanced(admitted, rows, Queued(queues[i := queues[i][1..]]), hand, elsewhere + One(queues[i][0]), lost)
  {
    GetMoves(admitted, rows, queues, i, hand, elsewhere, lost);
    var first, left := One(queues[i][0]), Queued(queues[i := queues[i][1..]]);
    assert rows + left + (hand + first) + elsewhere + lost == rows + left + hand + (elsewhere + first) + lost;
  }

  lemma OnwardSelf(a: View)
    ensures Onward(a, a)
  {
  }

  /** What one write took of a batch. */
  ghost function Take(batch: seq<Event>, db: Database, first: First): (took: multiset<Event>)
    ensures took <= multiset(batch) && |took| == |Attempt(db, first, |batch|).landed|
  {
    WritesWhatItSays(db, first, |batch|);
    PickedOnce(batch, Attempt(db, first, |batch|).landed, |batch|);
    assert batch[..|batch|] == batch;
    Picked(batch, Attempt(db, first, |batch|).landed)
  }

  /** What only ever grows, and which queue producers are using. */
  datatype View = View(live: Option<nat>, made: nat, admitted: multiset<Event>, rows: multiset<Event>,
                       lost: multiset<Event>, reported: nat, emptied: set<nat>)

  datatype Frame = Frame(live: Option<nat>, dropped: int, reported: nat, rows: multiset<Event>, lost: multiset<Event>,
                         writes: nat)

  /** Between these, each of these events became a row, or was counted. */
  ghost predicate AllTold(was: Frame, now: Frame, events: multiset<Event>) {
    && now.rows + now.lost == was.rows + was.lost + events
    && now.dropped + now.reported - |now.lost| == was.dropped + was.reported - |was.lost|
  }

  /** And all of them became rows, nothing being counted lost. */
  ghost predicate AllRows(was: Frame, now: Frame, events: multiset<Event>) {
    now.rows == was.rows + events && now.lost == was.lost && now.dropped + now.reported == was.dropped + was.reported
  }

  /** What is gone from a queue was told of between these. */
  ghost predicate ToldOf(was: Frame, now: Frame, before: seq<Item>, after: seq<Item>) {
    && now.rows + now.lost + EventsIn(after) == was.rows + was.lost + EventsIn(before)
    && now.dropped + now.reported - |now.lost| == was.dropped + was.reported - |was.lost|
  }

  /** And became rows. */
  ghost predicate RowsOf(was: Frame, now: Frame, before: seq<Item>, after: seq<Item>) {
    && now.rows + EventsIn(after) == was.rows + EventsIn(before) && now.lost == was.lost
    && now.dropped + now.reported == was.dropped + was.reported
  }

  lemma NothingDone(was: Frame, q: seq<Item>)
    ensures ToldOf(was, was, q, q) && RowsOf(was, was, q, q)
  {
  }

  lemma DoneMore(start: Frame, was: Frame, now: Frame, whole: seq<Item>, q: seq<Item>, limit: nat, stopAtWake: bool)
    ensures var left, events := Left(q, limit, stopAtWake), multiset(Drained(q, limit, stopAtWake));
            && |left| <= |q| && (!stopAtWake && limit >= |q| ==> left == [])
            && (ToldOf(start, was, whole, q) && AllTold(was, now, events) ==> ToldOf(start, now, whole, left))
            && (RowsOf(start, was, whole, q) && AllRows(was, now, events) ==> RowsOf(start, now, whole, left))
  {
    DrainSplits(q, limit, stopAtWake);
    if !stopAtWake && limit >= |q| { DrainsAll(q, limit); }
    var left, events := Left(q, limit, stopAtWake), multiset(Drained(q, limit, stopAtWake));
    MoveOn(start, was, now, whole, q, left, events);
    hide *;
  }

  lemma MoveOn(start: Frame, was: Frame, now: Frame, whole: seq<Item>, q: seq<Item>, left: seq<Item>,
               events: multiset<Event>)
    requires events + EventsIn(left) == EventsIn(q)
    ensures ToldOf(start, was, whole, q) && AllTold(was, now, events) ==> ToldOf(start, now, whole, left)
    ensures RowsOf(start, was, whole, q) && AllRows(was, now, events) ==> RowsOf(start, now, whole, left)
  {
    hide EventsIn;
    if AllTold(was, now, events) {
      assert now.rows + now.lost + EventsIn(left) == was.rows + was.lost + (events + EventsIn(left));
    }
    if AllRows(was, now, events) { assert now.rows + EventsIn(left) == was.rows + (events + EventsIn(left)); }
  }

  /** What one write meets: something other than the database raising, the first insert's answer, the others'. */
  datatype Weather = Weather(broke: bool, first: First, db: Database)

  /** The rows that land of a batch. */
  ghost function Taking(batch: seq<Event>, w: Weather): multiset<Event> {
    if w.broke then multiset{} else Take(batch, w.db, w.first)
  }

  /** The write says that nothing landed. */
  predicate Fails(count: nat, w: Weather) { w.broke || WriteBatch(w.db, w.first, count).RefusedAll? }

  /** One row written under this weather is in the table. */
  predicate OneLands(w: Weather) { !w.broke && WriteBatch(w.db, w.first, 1) == Returned(0) }

  lemma OneLandsOrFails(event: Event, w: Weather)
    ensures Taking([event], w) == if OneLands(w) then multiset{event} else multiset{}
    ensures Fails(1, w) <==> !OneLands(w)
  {
    assert multiset([event]) == multiset{event};
    if !w.broke {
      WritesWhatItSays(w.db, w.first, 1);
      hide Attempt, WriteBatch, Choice, Take;
      var took := Take([event], w.db, w.first);
      if |took| == 1 { assert multiset{event} == took + (multiset{event} - took); }
    }
  }

  /** A database that accepts everything: the whole batch lands, and nothing is refused. */
  lemma AllLand(batch: seq<Event>, w: Weather)
    requires !w.broke && w.first == Landed
    ensures Taking(batch, w) == multiset(batch) && !Fails(|batch|, w) && OneLands(w)
  {
    var took := Take(batch, w.db, w.first);
    assert |took| == |batch|;
    assert multiset(batch) == took + (multiset(batch) - took);
  }

  /** After `_deliver` and the count of what did not land. */
  ghost function Wrote(was: Frame, batch: seq<Event>, w: Weather): Frame {
    var left := multiset(batch) - Taking(batch, w);
    was.(rows := was.rows + Taking(batch, w), lost := was.lost + left, dropped := was.dropped + |left|,
         writes := was.writes + 1)
  }

  /** After a gap row was tried. */
  function Reported(was: Frame, gap: nat, w: Weather): Frame {
    if gap == 0 then was
    else if OneLands(w) then
      was.(dropped := was.dropped - gap, reported := was.reported + gap, writes := was.writes + 1)
    else was.(writes := was.writes + 1)
  }

  /** After one flush: the batch, and the gap there was before it where the batch did not fail. */
  ghost function Flushed(was: Frame, batch: seq<Event>, sky: nat -> Weather): Frame {
    var after := Wrote(was, batch, sky(was.writes));
    if Fails(|batch|, sky(was.writes)) || was.dropped < 0 then after
    else Reported(after, was.dropped, sky(after.writes))
  }

  lemma TakingIsPart(batch: seq<Event>, w: Weather)
    ensures Taking(batch, w) <= multiset(batch)
    ensures multiset(batch) == Taking(batch, w) + (multiset(batch) - Taking(batch, w))
  {
  }

  /** What a write says of a batch is how much of it landed. */
  lemma WriteSays(batch: seq<Event>, w: Weather)
    ensures var left := multiset(batch) - Taking(batch, w);
            && multiset(batch) == left + Taking(batch, w)
            && (Fails(|batch|, w) ==> |left| == |batch|)
            && (!Fails(|batch|, w) && batch != [] ==> |left| == WriteBatch(w.db, w.first, |batch|).refused < |batch|)
  {
    TakingIsPart(batch, w);
    if !w.broke {
      WritesWhatItSays(w.db, w.first, |batch|);
      assert |Taking(batch, w)| == |Attempt(w.db, w.first, |batch|).landed|;
      hide Attempt, WriteBatch, Choice, Take;
    }
  }

  /** Every event of a flushed batch is a row or counted, and a gap told of is counted no more. */
  lemma FlushTells(was: Frame, batch: seq<Event>, sky: nat -> Weather)
    ensures AllTold(was, Wrote(was, batch, sky(was.writes)), multiset(batch))
    ensures AllTold(was, Flushed(was, batch, sky), multiset(batch)) && Flushed(was, batch, sky).live == was.live
    ensures Wrote(was, batch, sky(was.writes)).live == was.live
  {
    TakingIsPart(batch, sky(was.writes));
    hide Taking, Fails, OneLands;
  }

  /** Against a database that accepts everything a flush makes its whole batch rows and loses nothing; and the
      gap there was is told of. */
  lemma HealthyFlush(was: Frame, batch: seq<Event>, sky: nat -> Weather)
    requires forall n: nat :: !sky(n).broke && sky(n).first == Landed
    ensures AllRows(was, Flushed(was, batch, sky), multiset(batch)) && !Fails(|batch|, sky(was.writes))
    ensures was.dropped >= 0 ==> Flushed(was, batch, sky).dropped == 0
    ensures AllRows(was, Wrote(was, batch, sky(was.writes)), multiset(batch))
  {
    AllLand(batch, sky(was.writes));
    AllLand(batch, sky(was.writes + 1));
    hide Taking, Fails, OneLands;
    assert multiset(batch) - multiset(batch) == multiset{};
  }

  ghost function WroteOne(was: Frame, event: Event, w: Weather): Frame {
    if OneLands(w) then was.(rows := was.rows + multiset{event}, writes := was.writes + 1)
    else was.(lost := was.lost + multiset{event}, dropped := was.dropped + 1, writes := was.writes + 1)
  }

  lemma IsWrote(was: Frame, now: Frame, batch: seq<Event>, w: Weather, left: multiset<Event>)
    requires left == multiset(batch) - Taking(batch, w)
    requires now == was.(rows := was.rows + Taking(batch, w), lost := was.lost + left,
                         dropped := was.dropped + |left|, writes := was.writes + 1)
    ensures now == Wrote(was, batch, w) && AllTold(was, now, multiset(batch))
  {
    TakingIsPart(batch, w);
    hide Taking;
  }

  /** One event alone: a row, or counted. */
  lemma OneWrites(was: Frame, event: Event, w: Weather)
    ensures Wrote(was, [event], w) == WroteOne(was, event, w)
  {
    OneLandsOrFails(event, w);
    hide Taking, Fails, OneLands;
    assert multiset([event]) == multiset{event};
    assert multiset{event} - multiset{} == multiset{event} && multiset{event} - multiset{event} == multiset{};
    assert was.rows + multiset{} == was.rows && was.lost + multiset{} == was.lost;
  }

  /** Nothing is taken back, and a detached queue is never used again. */
  ghost predicate Onward(a: View, b: View) {
    && a.made <= b.made && a.admitted <= b.admitted && a.rows <= b.rows && a.lost <= b.lost
    && a.reported <= b.reported && a.emptied <= b.emptied
    && (b.live.Some? && b.live.value < a.made ==> a.live == b.live)
  }

  lemma OnwardTwice(a: View, b: View, c: View)
    requires Onward(a, b) && Onward(b, c)
    ensures Onward(a, c) && a.made <= c.made && a.admitted <= c.admitted
    ensures c.live.Some? && c.live.value < a.made ==> a.live == c.live
  {
  }

  class EventRecorder {
    const capacity: nat
    /** Whether no other thread takes a step: then a method does all it promises by itself. */
    const alone: bool
    /** What this thread's writes meet, in their order. */
    const sky: nat -> Weather
    /** `self._queue`, as an index into every queue ever made. */
    var live: Option<nat>
    var queues: seq<seq<Item>>
    var stopping: bool
    /** `DropLedger._dropped`. */
    var dropped: int
    /** How many writes this thread has tried. */
    var writes: nat
    ghost var admitted: multiset<Event>
    ghost var rows: multiset<Event>
    ghost var lost: multiset<Event>
    ghost var reported: nat
    /** The queues somebody draining has seen empty. */
    ghost var emptied: set<nat>
    /** What the other threads have in their hands, and the claims they have in progress. */
    var elsewhere: multiset<Event>
    var claimsElsewhere: nat

    /** Every admitted event is a row, queued, in somebody's hand, or lost; and every lost one is
        counted once: in the ledger, in a claim on it, or in a gap row that landed. */
    ghost predicate Books(hand: multiset<Event>, claim: nat)
      reads this`live, this`queues, this`dropped, this`admitted, this`rows, this`lost, this`reported
      reads this`elsewhere, this`claimsElsewhere
    {
      && Balanced(admitted, rows, Queued(queues), hand, elsewhere, lost)
      && |lost| == dropped + claim + claimsElsewhere + reported
      && dropped >= 0
      && (live.Some? ==> live.value < |queues|)
      && (forall i | 0 <= i < |queues| :: |queues[i]| <= capacity)
    }

    ghost function Now(): View
      reads this`live, this`queues, this`admitted, this`rows, this`lost, this`reported, this`emptied
    {
      View(live, |queues|, admitted, rows, lost, reported, emptied)
    }

    /** Whatever this thread writes lands. */
    ghost predicate Healthy() { forall n: nat :: !sky(n).broke && sky(n).first == Landed }

    constructor (capacity: nat, alone: bool, sky: nat -> Weather)
      ensures Books(multiset{}, 0) && admitted == multiset{} && live == None && dropped == 0
      ensures this.capacity == capacity && this.alone == alone && this.sky == sky
    {
      this.capacity, this.alone, live, queues, stopping, dropped := capacity, alone, None, [], false, 0;
      this.sky, writes := sky, 0;
      admitted, rows, lost, reported, emptied := multiset{}, multiset{}, multiset{}, 0, {};
      elsewhere, claimsElsewhere := multiset{}, 0;
    }

    // ---------------------------------------------------------------- other threads

    /** Any number of the other threads' steps: nothing of this thread's hand is touched. */
    method Others(ghost hand: multiset<Event>, ghost claim: nat, ghost since: View)
      requires Books(hand, claim) && Onward(since, Now())
      modifies this
      ensures Books(hand, claim) && Onward(old(Now()), Now()) && Onward(since, Now())
      ensures alone ==> Rest() == old(Rest()) && queues == old(queues)
    {
      hide Books, Onward;
      OnwardSelf(Now());
      if alone { return; }
      var steps: nat :| true;
      while steps > 0
        invariant Books(hand, claim) && Onward(old(Now()), Now())
      {
        steps := steps - 1;
        ghost var was := Now();
        OtherStep(hand, claim);
        OnwardTwice(old(Now()), was, Now());
      }
      OnwardTwice(since, old(Now()), Now());
    }

    /** Everything but the queues. */
    ghost function Rest(): Frame
      reads this`live, this`dropped, this`reported, this`rows, this`lost, this`writes
    {
      Frame(live, dropped, reported, rows, lost, writes)
    }

    /** One step of another thread: the very lock regions and queue operations below, on its own hand. */
    method OtherStep(ghost hand: multiset<Event>, ghost claim: nat)
      requires Books(hand, claim)
      modifies this
      ensures Books(hand, claim) && Onward(old(Now()), Now())
    {
      var choice: nat, i: nat, n: nat := *, *, *;
      var some: multiset<Event> := *;
      var item: Item := *;
      if choice == 0 {
        OthersAdmit(item, hand, claim);
      } else if choice == 1 && i < |queues| && |queues[i]| < capacity && One(item) <= elsewhere {
        OthersPut(i, item, hand, claim);
      } else if choice == 2 && i < |queues| && queues[i] != [] {
        OthersGet(i, hand, claim);
      } else if choice == 3 && some <= elsewhere {
        OthersWrite(some, hand, claim);
      } else if choice == 4 && some <= elsewhere {
        OthersLose(some, hand, claim);
      } else if choice == 5 {
        OthersClaim(n, hand, claim);
      } else if choice == 6 {
        OthersMove(n, hand, claim);
      }
    }

    /** `record`, as far as admitting goes. */
    method OthersAdmit(item: Item, ghost hand: multiset<Event>, ghost claim: nat)
      requires Books(hand, claim)
      modifies this`admitted, this`elsewhere
      ensures Books(hand, claim) && Onward(old(Now()), Now())
    {
      hide Balanced, Queued;
      ElsewhereMoves(admitted, rows, Queued(queues), hand, elsewhere, lost, One(item));
      admitted, elsewhere := admitted + One(item), elsewhere + One(item);
    }

    method OthersPut(i: nat, item: Item, ghost hand: multiset<Event>, ghost claim: nat)
      requires Books(hand, claim) && i < |queues| && |queues[i]| < capacity && One(item) <= elsewhere
      modifies this`queues, this`elsewhere
      ensures Books(hand, claim) && Onward(old(Now()), Now())
    {
      hide Balanced, Queued, EventsIn;
      var rest := elsewhere - One(item);
      assert elsewhere == rest + One(item);
      OthersPutMoves(admitted, rows, queues, i, item, hand, rest, lost);
      queues, elsewhere := queues[i := queues[i] + [item]], rest;
    }

    method OthersGet(i: nat, ghost hand: multiset<Event>, ghost claim: nat)
      requires Books(hand, claim) && i < |queues| && queues[i] != []
      modifies this`queues, this`elsewhere
      ensures Books(hand, claim) && Onward(old(Now()), Now())
    {
      hide Balanced, Queued, EventsIn;
      OthersGetMoves(admitted, rows, queues, i, hand, elsewhere, lost);
      queues, elsewhere := queues[i := queues[i][1..]], elsewhere + One(queues[i][0]);
    }

    method OthersWrite(some: multiset<Event>, ghost hand: multiset<Event>, ghost claim: nat)
      requires Books(hand, claim) && some <= elsewhere
      modifies this`rows, this`elsewhere
      ensures Books(hand, claim) && Onward(old(Now()), Now())
    {
      hide Balanced, Queued;
      assert elsewhere == elsewhere - some + some;
      ElsewhereMoves(admitted, rows, Queued(queues), hand, elsewhere - some, lost, some);
      elsewhere, rows := elsewhere - some, rows + some;
    }

    method OthersLose(some: multiset<Event>, ghost hand: multiset<Event>, ghost claim: nat)
      requires Books(hand, claim) && some <= elsewhere
      modifies this`lost, this`dropped, this`elsewhere
      ensures Books(hand, claim) && Onward(old(Now()), Now())
    {
      hide Balanced, Queued;
      assert elsewhere == elsewhere - some + some;
      ElsewhereMoves(admitted, rows, Queued(queues), hand, elsewhere - some, lost, some);
      Forgo(some);
    }

    method Forgo(some: multiset<Event>)
      modifies this`elsewhere, this`lost, this`dropped
      ensures elsewhere == old(elsewhere) - some && lost == old(lost) + some && dropped == old(dropped) + |some|
    {
      elsewhere, lost, dropped := elsewhere - some, lost + some, dropped + |some|;
    }

    /** `claim`, then `give_back` or the gap row that landed. */
    method OthersClaim(n: nat, ghost hand: multiset<Event>, ghost claim: nat)
      requires Books(hand, claim)
      modifies this`dropped, this`claimsElsewhere, this`reported
      ensures Books(hand, claim) && Onward(old(Now()), Now())
    {
      hide Queued, Balanced;
      var landed: bool, back: bool := *, *;
      if n <= dropped && !landed && !back {
        dropped, claimsElsewhere := dropped - n, claimsElsewhere + n;
      } else if n <= claimsElsewhere && back {
        dropped, claimsElsewhere := dropped + n, claimsElsewhere - n;
      } else if n <= claimsElsewhere && landed {
        reported, claimsElsewhere := reported + n, claimsElsewhere - n;
      }
    }

    /** `_buffer` making a queue, `stop` and a writer on its way out detaching one. */
    method OthersMove(n: nat, ghost hand: multiset<Event>, ghost claim: nat)
      requires Books(hand, claim)
      modifies this`live, this`queues, this`stopping
      ensures Books(hand, claim) && Onward(old(Now()), Now())
    {
      hide Queued, Balanced;
      if live.None? {
        QueuedAppend(queues);
        queues := queues + [[]];
        live, stopping := Some(|queues| - 1), false;
      } else {
        live, stopping := None, n == 0;
      }
    }

    // ---------------------------------------------------------------- the ledger

    /** `lost` and `lost_quietly`: count events nobody will write. */
    method Lost(count: nat, ghost gone: multiset<Event>, ghost since: View)
      requires Books(gone, 0) && |gone| == count && Onward(since, Now())
      modifies this`dropped, this`lost
      ensures Books(multiset{}, 0) && dropped == old(dropped) + count && lost == old(lost) + gone
      ensures Onward(since, Now())
    {
      hide Balanced, Queued;
      assert multiset{} + gone == gone;
      Moves(admitted, rows, Queued(queues), multiset{}, elsewhere, lost, gone);
      dropped := dropped + count;
      lost := lost + gone;
    }

    /** `claim`: take out what this flush will report, and no more than is there. */
    method Claim(upto: nat, ghost since: View) returns (claimed: nat)
      requires Books(multiset{}, 0) && Onward(since, Now())
      modifies this`dropped
      ensures Onward(since, Now())
      ensures Books(multiset{}, claimed) && claimed <= upto && dropped == old(dropped) - claimed
      ensures claimed == if upto < old(dropped) then upto else old(dropped)
    {
      hide Balanced, Queued;
      claimed := if upto < dropped then upto else dropped;
      dropped := dropped - claimed;
    }

    /** `give_back`: a gap nobody could record survives to be recorded. */
    method GiveBack(claimed: nat, ghost since: View)
      requires Books(multiset{}, claimed) && Onward(since, Now())
      modifies this`dropped
      ensures Onward(since, Now()) && Books(multiset{}, 0) && dropped == old(dropped) + claimed
    {
      hide Balanced, Queued;
      dropped := dropped + claimed;
    }

    // ---------------------------------------------------------------- queues

    /** `put_nowait`. */
    method Put(i: nat, item: Item) returns (ok: bool)
      requires i < |queues| && Books(One(item), 0)
      modifies this`queues
      ensures ok <==> |old(queues)[i]| < capacity
      ensures queues == if ok then old(queues)[i := old(queues)[i] + [item]] else old(queues)
      ensures Books(if ok then multiset{} else One(item), 0) && Now() == old(Now())
    {
      hide Balanced, Queued, EventsIn;
      ok := |queues[i]| < capacity;
      if ok {
        PutMoves(admitted, rows, queues, i, item, elsewhere, lost);
        queues := queues[i := queues[i] + [item]];
      }
    }

    /** `get_nowait`. */
    method Get(i: nat, ghost hand: multiset<Event>) returns (item: Option<Item>)
      requires i < |queues| && Books(hand, 0)
      modifies this`queues
      ensures item == if old(queues)[i] == [] then None else Some(old(queues)[i][0])
      ensures queues == if item.None? then old(queues) else old(queues)[i := old(queues)[i][1..]]
      ensures Books(if item.None? then hand else hand + One(item.value), 0) && Now() == old(Now())
    {
      hide Balanced, Queued, EventsIn;
      if queues[i] == [] { return None; }
      item := Some(queues[i][0]);
      GetMoves(admitted, rows, queues, i, hand, elsewhere, lost);
      queues := queues[i := queues[i][1..]];
    }

    /** `_buffer`: the live queue, with a new one and its writer where there is none. */
    method Buffer(ghost hand: multiset<Event>, ghost since: View) returns (i: nat)
      requires Books(hand, 0) && Onward(since, Now())
      modifies this`queues, this`live, this`stopping
      ensures Books(hand, 0) && Onward(since, Now()) && i < |queues|
      ensures live == Some(i) && |old(queues)| <= |queues|
      ensures if old(live).Some? then live == old(live) && queues == old(queues)
              else queues == old(queues) + [[]] && i == |old(queues)|
    {
      hide Balanced, Queued;
      if live.Some? { return live.value; }
      QueuedAppend(queues);
      queues := queues + [[]];
      live, stopping := Some(|queues| - 1), false;
      i := live.value;
    }

    // ---------------------------------------------------------------- producers

    /** `record`: hand one event over, to the table at once or to a queue, or count it lost. */
    method Record(event: Event, here: bool, rounds: nat)
      requires Books(multiset{}, 0)
      modifies this
      ensures Books(multiset{}, 0) && Onward(old(Now()), Now()) && event in admitted
      ensures alone && here ==>
                && queues == old(queues)
                && Rest() == WroteOne(old(Rest()), event, sky(old(writes)))
      ensures alone && !here ==>
                && live.Some? && live.value < |queues| && rows == old(rows)
                && Buffered(event, old(LiveQueue()), old(dropped))
    {
      Admit(event);
      hide Books;
      ghost var since := Now();
      assert since.admitted[event] > 0;
      OneWrites(Rest(), event, sky(writes));
      hide Wrote, WroteOne, Rest, Onward, Buffered, LiveQueue;
      if here { RecordHere(event); } else { RecordQueued(event, rounds); }
      OnwardTwice(old(Now()), since, Now());
    }

    ghost function LiveQueue(): seq<Item>
      reads this`live, this`queues
    {
      if live.Some? && live.value < |queues| then queues[live.value] else []
    }

    /** The event is last in the live queue, or counted where that is full. */
    ghost predicate Buffered(event: Event, q: seq<Item>, dropped: int)
      reads this`live, this`queues, this`dropped
    {
      if |q| < capacity then LiveQueue() == q + [Recorded(event)] && this.dropped == dropped
      else LiveQueue() == q && this.dropped == dropped + 1
    }

    ghost method Admit(event: Event)
      requires Books(multiset{}, 0)
      modifies this`admitted
      ensures Books(multiset{event}, 0) && Onward(old(Now()), Now()) && admitted == old(admitted) + multiset{event}
    {
      hide Balanced, Queued;
      Moves(admitted, rows, Queued(queues), multiset{}, elsewhere, lost, multiset{event});
      assert multiset{} + multiset{event} == multiset{event};
      admitted := admitted + multiset{event};
    }

    /** The synchronous path: one row lands or raises. */
    method RecordHere(event: Event)
      requires Books(multiset{event}, 0)
      modifies this
      ensures Books(multiset{}, 0) && Onward(old(Now()), Now())
      ensures alone ==> queues == old(queues) && Rest() == Wrote(old(Rest()), [event], sky(old(writes)))
    {
      assert multiset([event]) == multiset{event};
      hide Books, Onward, Wrote;
      OnwardSelf(Now());
      var _ := WriteOrCount([event], Now());
    }

    method RecordQueued(event: Event, rounds: nat)
      requires Books(multiset{event}, 0)
      modifies this
      ensures Books(multiset{}, 0) && Onward(old(Now()), Now())
      ensures alone ==>
                && live.Some? && live.value < |queues| && rows == old(rows)
                && Buffered(event, old(LiveQueue()), old(dropped))
    {
      hide Books, Onward;
      var i, ok := PutLive(event);
      if ok {
        LookAgain(i, rounds, old(Now()));
      } else {
        Lost(1, multiset{event}, old(Now()));
      }
    }

    /** The first look and the put. */
    method PutLive(event: Event) returns (i: nat, ok: bool)
      requires Books(multiset{event}, 0)
      modifies this
      ensures Books(if ok then multiset{} else multiset{event}, 0) && Onward(old(Now()), Now()) && i < |queues|
      ensures alone ==>
                && live == Some(i) && rows == old(rows) && dropped == old(dropped)
                && (ok <==> |old(LiveQueue())| < capacity)
                && queues[i] == if ok then old(LiveQueue()) + [Recorded(event)] else old(LiveQueue())
    {
      hide Books, Onward, One, LiveQueue;
      i := FindLive(multiset{event});
      OneIs(event);
      ok := Put(i, Recorded(event));
    }

    method FindLive(ghost hand: multiset<Event>) returns (i: nat)
      requires Books(hand, 0)
      modifies this
      ensures Books(hand, 0) && Onward(old(Now()), Now()) && i < |queues| && |old(queues)| <= |queues|
      ensures alone ==>
                && live == Some(i) && rows == old(rows) && dropped == old(dropped) && queues[i] == old(LiveQueue())
                && Apart(old(live), old(queues))
    {
      BooksBound(hand, 0);
      hide Books, Onward;
      OnwardSelf(Now());
      i := Buffer(hand, old(Now()));
      ghost var made := Now();
      Others(hand, 0, old(Now()));
      MadeGrows(made, Now());
    }

    /** No queue but the live one has changed. */
    ghost predicate Apart(was: Option<nat>, qs: seq<seq<Item>>)
      reads this`live, this`queues
    {
      forall q: nat | q < |qs| && was != Some(q) :: q < |queues| && queues[q] == qs[q] && live != Some(q)
    }

    lemma OneIs(event: Event)
      ensures One(Recorded(event)) == multiset{event}
    {
    }

    lemma BooksBound(hand: multiset<Event>, claim: nat)
      requires Books(hand, claim)
      ensures (live.Some? ==> live.value < |queues|) && dropped >= 0
    {
    }

    /** The second look: a queue that was detached meanwhile has its events moved. */
    method LookAgain(i: nat, rounds: nat, ghost since: View)
      requires Books(multiset{}, 0) && i < |queues| && Onward(since, Now())
      modifies this
      ensures Books(multiset{}, 0) && Onward(since, Now())
      ensures alone && old(live) == Some(i) ==> Rest() == old(Rest()) && queues == old(queues)
      ensures alone && old(live) != Some(i) && rounds >= |old(queues)[i]| ==>
                MovedOut(i, old(queues)[i], old(LiveQueue()))
    {
      hide Books, Onward, LiveQueue, MovedOut;
      Others(multiset{}, 0, since);
      MadeGrows(old(Now()), Now());
      if live != Some(i) {
        Rehome(i, rounds, since);
      }
    }

    /** A detached queue is empty, and its items are behind what the live one held, as far as there is room. */
    ghost predicate MovedOut(orphan: nat, items: seq<Item>, before: seq<Item>)
      reads this`live, this`queues
    {
      && orphan < |queues| && queues[orphan] == []
      && (|before| + |items| <= capacity ==> LiveQueue() == before + items || items == [])
    }

    /** `_rehome`: move what is in a detached queue onto the live one, an item at a time. */
    method Rehome(orphan: nat, rounds: nat, ghost since: View)
      requires Books(multiset{}, 0) && orphan < |queues| && Onward(since, Now())
      modifies this
      ensures Books(multiset{}, 0) && Onward(since, Now())
      ensures alone && rounds >= |old(queues)[orphan]| && old(live) != Some(orphan) ==>
                rows == old(rows) && MovedOut(orphan, old(queues)[orphan], old(LiveQueue()))
    {
      ghost var items, before := queues[orphan], LiveQueue();
      ghost var detached := alone && live != Some(orphan);
      MovingStarts(orphan);
      hide Books, Onward, LiveQueue, Moving, MovedOut;
      for k := 0 to rounds
        invariant Books(multiset{}, 0) && orphan < |queues| && Onward(since, Now())
        invariant detached ==> rows == old(rows) && Moving(orphan, items, before, k)
      {
        var dry := RehomeNext(orphan, items, before, k, detached, since);
        if dry { return; }
      }
      if detached && rounds >= |items| { MovingEnds(orphan, items, before, rounds); }
    }

    /** The next item, or the queue found empty. */
    method RehomeNext(orphan: nat, ghost items: seq<Item>, ghost before: seq<Item>, ghost k: nat, ghost detached: bool,
                      ghost since: View)
      returns (dry: bool)
      requires Books(multiset{}, 0) && orphan < |queues| && Onward(since, Now())
      requires detached ==> alone && Moving(orphan, items, before, k)
      modifies this
      ensures Books(multiset{}, 0) && Onward(since, Now()) && orphan < |queues|
      ensures detached ==> rows == old(rows)
      ensures detached ==> if dry then MovedOut(orphan, items, before) else Moving(orphan, items, before, k + 1)
    {
      MovingMeans(orphan, items, before, k);
      hide Books, Onward, LiveQueue, Moving, MovedOut, One;
      dry := false;
      ghost var qs, was := queues, LiveQueue();
      LiveQueueIs();
      var item := Get(orphan, multiset{});
      if item.None? {
        if detached { MovingStays(orphan, items, before, k, qs); }
        dry := true;
        return;
      }
      if detached { MovingTakes(orphan, items, before, k, qs); }
      LiveQueueIs();
      ghost var rest := queues[orphan];
      assert multiset{} + One(item.value) == One(item.value);
      RehomeOne(item.value, since);
      if detached { MovingPuts(orphan, items, before, k, was, rest); }
    }

    lemma MovingMeans(orphan: nat, items: seq<Item>, before: seq<Item>, k: nat)
      ensures Moving(orphan, items, before, k) ==>
                && orphan < |queues| && live != Some(orphan)
                && queues[orphan] == items[if k < |items| then k else |items|..]
                && (|before| + |items| <= capacity && k < |items| ==> LiveQueue() == before + items[..k])
                && (queues[orphan] == [] ==> MovedOut(orphan, items, before))
    {
      assert items[..0] == [] && before + [] == before && items[..|items|] == items;
    }

    lemma MovingStays(orphan: nat, items: seq<Item>, before: seq<Item>, k: nat, qs: seq<seq<Item>>)
      requires queues == qs && orphan < |queues| && queues[orphan] == []
      requires queues[orphan] == [] ==> MovedOut(orphan, items, before)
      ensures MovedOut(orphan, items, before)
    {
    }

    /** So many of the items are moved. */
    ghost predicate Moving(orphan: nat, items: seq<Item>, before: seq<Item>, k: nat)
      reads this`live, this`queues
    {
      && orphan < |queues| && live != Some(orphan) && queues[orphan] == items[if k < |items| then k else |items|..]
      && (|before| + |items| <= capacity && k > 0 && items != [] ==>
            LiveQueue() == before + items[..if k < |items| then k else |items|])
      && (k == 0 ==> LiveQueue() == before)
    }

    lemma MovingStarts(orphan: nat)
      requires orphan < |queues|
      ensures live != Some(orphan) ==> Moving(orphan, queues[orphan], LiveQueue(), 0)
    {
    }

    lemma MovingEnds(orphan: nat, items: seq<Item>, before: seq<Item>, k: nat)
      requires Moving(orphan, items, before, k) && (k >= |items| || queues[orphan] == [])
      ensures MovedOut(orphan, items, before)
    {
      assert items[..|items|] == items;
    }

    lemma MovingTakes(orphan: nat, items: seq<Item>, before: seq<Item>, k: nat, qs: seq<seq<Item>>)
      requires orphan < |qs| && qs[orphan] != [] && queues == qs[orphan := qs[orphan][1..]]
      requires live != Some(orphan) && qs[orphan] == items[if k < |items| then k else |items|..]
      ensures k < |items| && qs[orphan][0] == items[k] && queues[orphan] == items[k + 1..]
    {
    }

    lemma MovingPuts(orphan: nat, items: seq<Item>, before: seq<Item>, k: nat, was: seq<Item>, rest: seq<Item>)
      requires k < |items| && orphan < |queues| && live != Some(orphan) && queues[orphan] == rest == items[k + 1..]
      requires |before| + |items| <= capacity ==> was == before + items[..k]
      requires LiveQueue() == if |was| < capacity then was + [items[k]] else was
      ensures Moving(orphan, items, before, k + 1)
    {
      assert items[..k + 1] == items[..k] + [items[k]];
    }

    method RehomeOne(item: Item, ghost since: View)
      requires Books(One(item), 0) && Onward(since, Now())
      modifies this
      ensures Books(multiset{}, 0) && Onward(since, Now()) && |old(queues)| <= |queues|
      ensures alone ==>
                && rows == old(rows) && Apart(old(live), old(queues))
                && LiveQueue() ==
                   (if |old(LiveQueue())| < capacity then old(LiveQueue()) + [item] else old(LiveQueue()))
    {
      hide Books, Onward, One, LiveQueue;
      Others(One(item), 0, since);
      OnwardSelf(Now());
      ghost var begun := Now();
      MadeGrows(old(Now()), begun);
      var i := FindLive(One(item));
      OnwardTwice(since, begun, Now());
      ghost var was := queues;
      var ok := Put(i, item);
      if alone {
        PutApart(old(live), old(queues), was, i);
        LiveIs(i);
      }
      if !ok { Forgone(item, since); }
    }

    lemma LiveQueueIs()
      ensures LiveQueue() == if live.Some? && live.value < |queues| then queues[live.value] else []
    {
    }

    lemma LiveIs(i: nat)
      requires live == Some(i) && i < |queues|
      ensures LiveQueue() == queues[i]
    {
    }

    lemma PutApart(was: Option<nat>, qs: seq<seq<Item>>, found: seq<seq<Item>>, i: nat)
      requires i < |found| && live == Some(i) && |queues| == |found|
      requires forall q | 0 <= q < |found| && q != i :: queues[q] == found[q]
      requires forall q: nat | q < |qs| && was != Some(q) :: q < |found| && found[q] == qs[q] && live != Some(q)
      ensures Apart(was, qs)
    {
    }

    /** An item for which the live queue has no room: an event is counted, a wake-up is nothing. */
    method Forgone(item: Item, ghost since: View)
      requires Books(One(item), 0) && Onward(since, Now())
      modifies this`dropped, this`lost
      ensures Books(multiset{}, 0) && Onward(since, Now())
      ensures dropped == old(dropped) + if item.Recorded? then 1 else 0
    {
      hide Books, Onward;
      if item.Recorded? {
        Lost(1, One(item), since);
      } else {
        assert One(item) == multiset{};
      }
    }

    // ---------------------------------------------------------------- the writer

    /** `_deliver`: what the database took becomes rows, and the rest is still in this thread's hand. It raises
        exactly where the write says that nothing landed, or something else broke. */
    method Deliver(batch: seq<Event>, ghost claim: nat)
      returns (refused: nat, raised: bool, ghost left: multiset<Event>)
      requires batch != [] && Books(multiset(batch), claim)
      modifies this`rows, this`writes
      ensures Books(left, claim) && writes == old(writes) + 1 && Onward(old(Now()), Now())
      ensures if raised then |left| == |batch| else |left| == refused < |batch|
      ensures raised <==> Fails(|batch|, sky(old(writes)))
      ensures rows == old(rows) + Taking(batch, sky(old(writes)))
      ensures left == multiset(batch) - Taking(batch, sky(old(writes)))
    {
      var w := sky(writes);
      writes := writes + 1;
      ghost var took := Taking(batch, w);
      left := multiset(batch) - took;
      WriteSays(batch, w);
      hide Books, Onward, Taking, WriteBatch;
      BecomeRows(took, left, claim);
      raised := Fails(|batch|, w);
      refused := if raised then 0 else WriteBatch(w.db, w.first, |batch|).refused;
    }

    /** Events out of this thread's hand become rows. */
    method BecomeRows(ghost took: multiset<Event>, ghost left: multiset<Event>, ghost claim: nat)
      requires Books(left + took, claim)
      modifies this`rows
      ensures Books(left, claim) && rows == old(rows) + took && Onward(old(Now()), Now())
    {
      hide Balanced, Queued;
      Moves(admitted, rows, Queued(queues), left, elsewhere, lost, took);
      rows := rows + took;
    }

    /** `_flush`: write one batch, count what did not land, and report the gap there was before it.

        Returns the failures in a row, and whether the writer is to stop trying for a while. */
    method Flush(batch: seq<Event>, failures: nat, ghost since: View) returns (failed: nat, suspended: bool)
      requires batch != [] && Books(multiset(batch), 0) && Onward(since, Now())
      modifies this
      ensures Books(multiset{}, 0) && Onward(since, Now())
      ensures suspended ==> failures + 1 >= 5 && failed == 0
      ensures failed == 0 || (failed == failures + 1 && failed < 5)
      ensures alone ==> queues == old(queues) && Rest() == Flushed(old(Rest()), batch, sky)
      ensures alone ==> AllTold(old(Rest()), Rest(), multiset(batch))
      ensures alone ==>
                if Fails(|batch|, sky(old(writes))) then suspended <==> failed == 0 else failed == 0 && !suspended
      ensures alone && Healthy() ==> failed == 0 && !suspended && AllRows(old(Rest()), Rest(), multiset(batch))
    {
      FlushTells(Rest(), batch, sky);
      if Healthy() { HealthyFlush(Rest(), batch, sky); }
      BooksBound(multiset(batch), 0);
      hide Books, Onward, Fails, OneLands, Taking, Healthy, AllTold, AllRows, Wrote, Reported;
      var before := dropped;
      Others(multiset(batch), 0, since);
      var raised := WriteOrCount(batch, since);
      if raised {
        suspended := failures + 1 >= FAILURE_LIMIT;
        failed := if suspended then 0 else failures + 1;
      } else {
        failed, suspended := 0, false;
        WrittenSince(old(Rest()), batch, sky(old(writes)));
        Tell(before, since);
      }
    }

    lemma WrittenSince(was: Frame, batch: seq<Event>, w: Weather)
      ensures Wrote(was, batch, w).dropped >= was.dropped && Wrote(was, batch, w).writes == was.writes + 1
    {
    }

    /** The gap there was before the batch, where there was one. */
    method Tell(before: int, ghost since: View)
      requires Books(multiset{}, 0) && Onward(since, Now()) && before >= 0
      modifies this
      ensures Books(multiset{}, 0) && Onward(since, Now())
      ensures alone && before <= old(dropped) ==>
                queues == old(queues) && Rest() == Reported(old(Rest()), before, sky(old(writes)))
    {
      hide Books, Onward, OneLands;
      Others(multiset{}, 0, since);
      if before > 0 { RecordGap(before, since); }
    }

    /** `_deliver`, and the count of what did not land, whichever way that is told. */
    method WriteOrCount(batch: seq<Event>, ghost since: View) returns (raised: bool)
      requires batch != [] && Books(multiset(batch), 0) && Onward(since, Now())
      modifies this
      ensures Books(multiset{}, 0) && Onward(since, Now())
      ensures alone ==> queues == old(queues) && Rest() == Wrote(old(Rest()), batch, sky(old(writes)))
      ensures alone ==> AllTold(old(Rest()), Rest(), multiset(batch))
      ensures raised <==> Fails(|batch|, sky(old(writes)))
    {
      hide Books, Onward, Fails, Taking, AllTold, Wrote;
      ghost var was := Rest();
      var unlanded, broke, left := TryBatch(batch, since);
      raised := broke;
      Lost(unlanded, left, since);
      if alone { IsWrote(was, Rest(), batch, sky(old(writes)), left); }
    }

    /** The write, and how much of the batch did not land. */
    method TryBatch(batch: seq<Event>, ghost since: View)
      returns (unlanded: nat, raised: bool, ghost left: multiset<Event>)
      requires batch != [] && Books(multiset(batch), 0) && Onward(since, Now())
      modifies this
      ensures Books(left, 0) && Onward(since, Now()) && |left| == unlanded
      ensures left == multiset(batch) - Taking(batch, sky(old(writes)))
      ensures raised <==> Fails(|batch|, sky(old(writes)))
      ensures alone ==> queues == old(queues) && live == old(live) && dropped == old(dropped) && lost == old(lost)
      ensures alone ==> reported == old(reported) && writes == old(writes) + 1
      ensures alone ==> rows == old(rows) + Taking(batch, sky(old(writes)))
    {
      hide Books, Onward, Fails, Taking;
      ghost var begun := Now();
      var refused: nat;
      refused, raised, left := Deliver(batch, 0);
      unlanded := if raised then |batch| else refused;
      OnwardTwice(since, begun, Now());
      Others(left, 0, since);
    }

    lemma IfHealthy(batch: seq<Event>)
      ensures Healthy() ==> AllRows(Rest(), Wrote(Rest(), batch, sky(writes)), multiset(batch))
    {
      if Healthy() { HealthyFlush(Rest(), batch, sky); }
    }

    lemma NoneTold()
      ensures AllTold(Rest(), Rest(), multiset{}) && AllRows(Rest(), Rest(), multiset{})
    {
    }

    /** A gathered batch, which may be empty: then there is nothing to flush. */
    method FlushAny(batch: seq<Event>, failures: nat, suspended: bool, ghost since: View)
      returns (failed: nat, suspending: bool)
      requires Books(multiset(batch), 0) && Onward(since, Now())
      modifies this
      ensures Books(multiset{}, 0) && Onward(since, Now())
      ensures alone ==> queues == old(queues) && live == old(live) && AllTold(old(Rest()), Rest(), multiset(batch))
      ensures alone && Healthy() ==> AllRows(old(Rest()), Rest(), multiset(batch)) && (!suspended ==> !suspending)
    {
      FlushTells(Rest(), batch, sky);
      hide Books, Onward, AllTold, AllRows, Flushed, Fails, Healthy, Wrote;
      failed, suspending := failures, suspended;
      if batch == [] {
        assert multiset(batch) == multiset{};
        NoneTold();
      } else {
        failed, suspending := Flush(batch, failures, since);
      }
    }

    /** `_record_gap`: claimed, then written, and given back if the row does not land. */
    method RecordGap(upto: nat, ghost since: View)
      requires Books(multiset{}, 0) && Onward(since, Now())
      modifies this
      ensures Books(multiset{}, 0) && Onward(since, Now())
      ensures alone && 0 < upto <= old(dropped) ==>
                queues == old(queues) && Rest() == Reported(old(Rest()), upto, sky(old(writes)))
    {
      hide Books, Onward, OneLands;
      var claimed := Claim(upto, since);
      Others(multiset{}, claimed, since);
      if claimed == 0 { return; }
      var landed := OneLands(sky(writes));
      writes := writes + 1;
      if landed {
        GapLanded(claimed, since);
      } else {
        GiveBack(claimed, since);
      }
    }

    /** The gap row landed: what was claimed is reported. */
    ghost method GapLanded(claimed: nat, since: View)
      requires Books(multiset{}, claimed) && Onward(since, Now())
      modifies this`reported
      ensures Books(multiset{}, 0) && Onward(since, Now()) && reported == old(reported) + claimed
    {
      hide Balanced, Queued;
      reported := reported + claimed;
    }

    /** Gather a batch: `_collect` stops at a wake-up, `_empty` and `drain_once` go on past it. */
    method Gather(i: nat, limit: nat, stopAtWake: bool, ghost since: View) returns (batch: seq<Event>, dry: bool)
      requires i < |queues| && Books(multiset{}, 0) && Onward(since, Now())
      modifies this
      ensures Books(multiset(batch), 0) && Onward(since, Now()) && |batch| <= limit && i < |queues|
      ensures dry ==> queues[i] == [] && i in emptied
      ensures alone && !stopAtWake && limit > |old(queues)[i]| ==> dry
      ensures alone ==> batch == Drained(old(queues)[i], limit, stopAtWake)
      ensures alone ==> Rest() == old(Rest()) && queues == old(queues)[i := Left(old(queues)[i], limit, stopAtWake)]
    {
      hide Books, Drained, Left, Rest, Onward;
      batch, dry := [], false;
      var left: nat := limit;
      assert multiset(batch) == multiset{};
      ghost var q, whole, frame := queues[i], queues, Rest();
      GatheringStarts(i, limit, stopAtWake);
      hide Gathering;
      while left > 0
        invariant Books(multiset(batch), 0) && Onward(since, Now()) && |batch| <= limit - left && i < |queues| && !dry
        invariant Gathering(i, q, whole, frame, limit, stopAtWake, batch, left)
        decreases left
      {
        batch, left, dry := GatherOne(i, batch, left, stopAtWake, limit, q, whole, frame, since);
        if dry { return; }
      }
      GatheringEnds(i, q, whole, frame, limit, stopAtWake, batch, 0);
    }

    /** Part of the way through gathering from queue `i`, as it is with nobody else about. */
    ghost predicate Gathering(i: nat, q: seq<Item>, whole: seq<seq<Item>>, frame: Frame, limit: nat, stopAtWake: bool,
                              batch: seq<Event>, left: nat)
      reads this
    {
      alone ==>
        && i < |queues| && i < |whole|
        && SoFar(q, limit, stopAtWake, batch, queues[i], left) && (!stopAtWake ==> left + |q| == limit + |queues[i]|)
        && Rest() == frame && queues == whole[i := queues[i]]
    }

    lemma GatheringStarts(i: nat, limit: nat, stopAtWake: bool)
      requires i < |queues|
      ensures Gathering(i, queues[i], queues, Rest(), limit, stopAtWake, [], limit)
    {
      assert [] + Drained(queues[i], limit, stopAtWake) == Drained(queues[i], limit, stopAtWake);
      assert queues[i := queues[i]] == queues;
    }

    lemma GatheringEnds(i: nat, q: seq<Item>, whole: seq<seq<Item>>, frame: Frame, limit: nat, stopAtWake: bool,
                        batch: seq<Event>, left: nat)
      requires Gathering(i, q, whole, frame, limit, stopAtWake, batch, left)
               && (left == 0 || (i < |queues| && queues[i] == []))
      ensures alone ==> batch == Drained(q, limit, stopAtWake) && i < |whole| && Rest() == frame
      ensures alone ==> queues == whole[i := Left(q, limit, stopAtWake)]
      ensures alone && !stopAtWake && limit > |q| ==> left > 0
    {
      if alone { SoFarDone(q, limit, stopAtWake, batch, queues[i], left); }
    }

    /** One item more: an event into the batch, a wake-up passed or stopped at, or the queue seen empty. */
    method GatherOne(i: nat, batch: seq<Event>, left: nat, stopAtWake: bool, ghost limit: nat, ghost q: seq<Item>,
                     ghost whole: seq<seq<Item>>, ghost frame: Frame, ghost since: View)
      returns (more: seq<Event>, rest: nat, dry: bool)
      requires left > 0 && Books(multiset(batch), 0) && Onward(since, Now()) && i < |queues|
      requires Gathering(i, q, whole, frame, limit, stopAtWake, batch, left)
      modifies this
      ensures Books(multiset(more), 0) && Onward(since, Now()) && i < |queues|
      ensures if dry then more == batch && queues[i] == [] && i in emptied && rest == left
              else rest < left && |more| + rest <= |batch| + left
      ensures Gathering(i, q, whole, frame, limit, stopAtWake, more, rest)
      ensures dry && alone ==> more == Drained(q, limit, stopAtWake) && i < |whole| && Rest() == frame
      ensures dry && alone ==> queues == whole[i := Left(q, limit, stopAtWake)]
    {
      more, rest, dry := batch, left, false;
      hide Books, Drained, Left, Onward, SoFar, Gathering, Rest;
      ghost var was := queues;
      GatheringOpen(i, q, whole, frame, limit, stopAtWake, batch, left);
      var item := Get(i, multiset(batch));
      if item.None? {
        GatheringEnds(i, q, whole, frame, limit, stopAtWake, batch, left);
        SawEmpty(i, multiset(batch), since);
        GatheringAgain(i, q, whole, frame, limit, stopAtWake, batch, left, was);
        dry := true;
        return;
      }
      rest := if item.value.Wake? && stopAtWake then 0 else left - 1;
      if item.value.Recorded? { more := batch + [item.value.event]; }
      assert multiset(more) == multiset(batch) + One(item.value);
      GatheringWent(i, q, whole, frame, limit, stopAtWake, batch, left, was, more, rest);
      if !alone {
        ghost var made := Now();
        Others(multiset(more), 0, since);
        MadeGrows(made, Now());
        NotAlone(i, q, whole, frame, limit, stopAtWake, more, rest);
      }
    }

    lemma NotAlone(i: nat, q: seq<Item>, whole: seq<seq<Item>>, frame: Frame, limit: nat, stopAtWake: bool,
                   batch: seq<Event>, left: nat)
      requires !alone
      ensures Gathering(i, q, whole, frame, limit, stopAtWake, batch, left)
    {
    }

    /** What gathering so far says of the queues and the rest. */
    ghost predicate Opened(i: nat, q: seq<Item>, whole: seq<seq<Item>>, frame: Frame, limit: nat, stopAtWake: bool,
                           batch: seq<Event>, left: nat, qs: seq<seq<Item>>)
      reads this`live, this`dropped, this`reported, this`rows, this`lost, this`writes
    {
      && i < |qs| && i < |whole| && SoFar(q, limit, stopAtWake, batch, qs[i], left)
      && (!stopAtWake ==> left + |q| == limit + |qs[i]|) && Rest() == frame && qs == whole[i := qs[i]]
    }

    lemma GatheringOpen(i: nat, q: seq<Item>, whole: seq<seq<Item>>, frame: Frame, limit: nat, stopAtWake: bool,
                        batch: seq<Event>, left: nat)
      requires Gathering(i, q, whole, frame, limit, stopAtWake, batch, left)
      ensures alone ==> Opened(i, q, whole, frame, limit, stopAtWake, batch, left, queues)
    {
    }

    lemma GatheringAgain(i: nat, q: seq<Item>, whole: seq<seq<Item>>, frame: Frame, limit: nat, stopAtWake: bool,
                         batch: seq<Event>, left: nat, was: seq<seq<Item>>)
      requires alone ==> Opened(i, q, whole, frame, limit, stopAtWake, batch, left, was) && queues == was
      ensures Gathering(i, q, whole, frame, limit, stopAtWake, batch, left)
    {
    }

    lemma GatheringWent(i: nat, q: seq<Item>, whole: seq<seq<Item>>, frame: Frame, limit: nat, stopAtWake: bool,
                        batch: seq<Event>, left: nat, was: seq<seq<Item>>, more: seq<Event>, rest: nat)
      requires left > 0 && i < |was| && was[i] != [] && queues == was[i := was[i][1..]]
      requires alone ==> Opened(i, q, whole, frame, limit, stopAtWake, batch, left, was)
      requires more == if was[i][0].Recorded? then batch + [was[i][0].event] else batch
      requires rest == if was[i][0].Wake? && stopAtWake then 0 else left - 1
      ensures Gathering(i, q, whole, frame, limit, stopAtWake, more, rest)
    {
      if alone { SoFarNext(q, limit, stopAtWake, batch, was[i], left); }
      hide SoFar;
      assert alone ==> queues == whole[i := queues[i]];
    }

    /** What a drainer knows at the moment its queue answers that it is empty. */
    ghost method SawEmpty(i: nat, hand: multiset<Event>, since: View)
      requires Books(hand, 0) && Onward(since, Now()) && i < |queues|
      modifies this`emptied
      ensures Books(hand, 0) && Onward(since, Now()) && i in emptied
    {
      emptied := emptied + {i};
    }

    /** `_run`: drain one queue until it is empty and no longer anybody's, then write what is left. */
    method WriterRun(i: nat, limit: nat, turns: nat, ghost since: View) returns (dry: bool)
      requires i < |queues| && Books(multiset{}, 0) && Onward(since, Now())
      modifies this
      ensures Books(multiset{}, 0) && Onward(since, Now()) && live != Some(i) && (dry ==> i in emptied)
      ensures alone && limit > |old(queues)[i]| ==>
                && dry && queues == old(queues)[i := []] && AllTold(old(Rest()), Rest(), EventsIn(old(queues)[i]))
                && (Healthy() ==> AllRows(old(Rest()), Rest(), EventsIn(old(queues)[i])))
    {
      ghost var start, qs := Rest(), queues;
      BeginsRun(i);
      hide Books, Onward, Running, AllTold, AllRows, Healthy;
      var failures: nat, suspended := 0, false;
      for k := 0 to turns
        invariant Books(multiset{}, 0) && Onward(since, Now()) && i < |queues|
        invariant Running(i, start, qs, suspended)
      {
        failures, suspended := TurnOn(i, limit, failures, suspended, start, qs, since);
        if queues[i] == [] && (stopping || live != Some(i)) { break; }
      }
      dry := EndRun(i, limit, suspended, start, qs, since);
    }

    /** Part of the way through a writer's run, as it is with nobody else about. */
    ghost predicate Running(i: nat, start: Frame, qs: seq<seq<Item>>, suspended: bool)
      reads this`live, this`queues, this`dropped, this`reported, this`rows, this`lost, this`writes
    {
      alone ==>
        && i < |queues| && i < |qs| && |queues[i]| <= |qs[i]| && queues == qs[i := queues[i]]
        && ToldOf(start, Rest(), qs[i], queues[i])
        && (Healthy() ==> !suspended && RowsOf(start, Rest(), qs[i], queues[i]))
    }

    lemma BeginsRun(i: nat)
      requires i < |queues|
      ensures Running(i, Rest(), queues, false)
    {
      NothingDone(Rest(), queues[i]);
      assert queues[i := queues[i]] == queues;
    }

    method TurnOn(i: nat, limit: nat, failures: nat, suspended: bool, ghost start: Frame, ghost qs: seq<seq<Item>>,
                  ghost since: View)
      returns (failed: nat, suspending: bool)
      requires i < |queues| && Books(multiset{}, 0) && Onward(since, Now()) && Running(i, start, qs, suspended)
      modifies this
      ensures Books(multiset{}, 0) && Onward(since, Now()) && i < |queues| && Running(i, start, qs, suspending)
    {
      hide Books, Onward, ToldOf, RowsOf, Drained, Left, AllTold, AllRows, Healthy, Rest;
      ghost var was, q := Rest(), queues[i];
      failed, suspending := WriterTurn(i, limit, failures, suspended, since);
      if alone { DoneMore(start, was, Rest(), qs[i], q, limit, true); }
    }

    method EndRun(i: nat, limit: nat, suspended: bool, ghost start: Frame, ghost qs: seq<seq<Item>>, ghost since: View)
      returns (dry: bool)
      requires i < |queues| && Books(multiset{}, 0) && Onward(since, Now()) && Running(i, start, qs, suspended)
      modifies this
      ensures Books(multiset{}, 0) && Onward(since, Now()) && live != Some(i) && (dry ==> i in emptied)
      ensures alone && i < |qs| && limit > |qs[i]| ==>
                && dry && queues == qs[i := []] && AllTold(start, Rest(), EventsIn(qs[i]))
                && (Healthy() ==> AllRows(start, Rest(), EventsIn(qs[i])))
    {
      hide Books, Onward, Drained, Left, AllTold, AllRows, Healthy, ToldOf, RowsOf;
      Detach(i, since);
      ghost var was, q := Rest(), queues[i];
      if alone { LiveAside(start, was, old(Rest()), qs[i], q); }
      dry := Abandon(i, limit, since);
      if alone {
        DoneMore(start, was, Rest(), qs[i], q, limit, false);
        NoneQueuedMore(start, Rest(), qs[i]);
      }
    }

    lemma LiveAside(start: Frame, now: Frame, before: Frame, whole: seq<Item>, q: seq<Item>)
      requires now == before.(live := now.live)
      ensures ToldOf(start, before, whole, q) ==> ToldOf(start, now, whole, q)
      ensures RowsOf(start, before, whole, q) ==> RowsOf(start, now, whole, q)
    {
    }

    lemma NoneQueuedMore(start: Frame, now: Frame, whole: seq<Item>)
      ensures ToldOf(start, now, whole, []) ==> AllTold(start, now, EventsIn(whole))
      ensures RowsOf(start, now, whole, []) ==> AllRows(start, now, EventsIn(whole))
    {
    }

    /** The slot is cleared where it is still this writer's. */
    method Detach(i: nat, ghost since: View)
      requires i < |queues| && Books(multiset{}, 0) && Onward(since, Now())
      modifies this`live
      ensures Books(multiset{}, 0) && Onward(since, Now()) && live == if old(live) == Some(i) then None else old(live)
      ensures Rest() == old(Rest()).(live := live)
    {
      hide Balanced, Queued;
      if live == Some(i) { live := None; }
    }

    /** One turn: gather, then write, or while the database is being left alone count the batch lost. */
    method WriterTurn(i: nat, limit: nat, failures: nat, suspended: bool, ghost since: View)
      returns (failed: nat, suspending: bool)
      requires i < |queues| && Books(multiset{}, 0) && Onward(since, Now())
      modifies this
      ensures Books(multiset{}, 0) && Onward(since, Now()) && i < |queues|
      ensures alone ==>
                && queues == old(queues)[i := Left(old(queues)[i], limit, true)] && live == old(live)
                && AllTold(old(Rest()), Rest(), multiset(Drained(old(queues)[i], limit, true)))
      ensures alone && Healthy() && !suspended ==>
                !suspending && AllRows(old(Rest()), Rest(), multiset(Drained(old(queues)[i], limit, true)))
    {
      hide Books, Drained, Left, AllTold, AllRows, Healthy;
      ghost var entered := Now();
      failed, suspending := failures, suspended;
      var batch, _ := Gather(i, limit, true, entered);
      hide Onward;
      var still: bool := *;
      if batch != [] && suspended && still {
        ghost var was := Rest();
        Lost(|batch|, multiset(batch), entered);
        if alone { LostTells(was, multiset(batch)); }
      } else {
        failed, suspending := FlushAny(batch, failures, suspended, entered);
      }
      Others(multiset{}, 0, entered);
      OnwardTwice(since, entered, Now());
    }

    lemma LostTells(was: Frame, events: multiset<Event>)
      requires Rest() == was.(dropped := was.dropped + |events|, lost := was.lost + events)
      ensures AllTold(was, Rest(), events)
    {
    }

    /** `_abandon`: write what is left in a queue nobody will drain again, or count it lost. */
    method Abandon(i: nat, limit: nat, ghost since: View) returns (dry: bool)
      requires i < |queues| && Books(multiset{}, 0) && Onward(since, Now())
      modifies this
      ensures Books(multiset{}, 0) && Onward(since, Now())
      ensures old(live) != Some(i) ==> live != Some(i)
      ensures dry ==> i in emptied
      ensures alone && limit > |old(queues)[i]| ==> dry
      ensures alone ==> queues == old(queues)[i := Left(old(queues)[i], limit, false)] && live == old(live)
      ensures alone ==> AllTold(old(Rest()), Rest(), multiset(Drained(old(queues)[i], limit, false)))
      ensures alone && Healthy() ==> AllRows(old(Rest()), Rest(), multiset(Drained(old(queues)[i], limit, false)))
    {
      hide Books, Drained, Left, AllTold, AllRows, Wrote, Healthy;
      ghost var entered := Now();
      var leftover, saw := Gather(i, limit, false, entered);
      dry := saw;
      ghost var gathered := Now();
      hide Onward;
      if leftover == [] {
        assert multiset(leftover) == multiset{};
        NoneTold();
      } else {
        OnwardSelf(gathered);
        IfHealthy(leftover);
        FlushTells(Rest(), leftover, sky);
        var _ := WriteOrCount(leftover, gathered);
        EmptiedStays(gathered, Now());
        OnwardTwice(entered, gathered, Now());
      }
      OnwardTwice(since, entered, Now());
      OnwardTwice(entered, entered, Now());
    }

    /** `drain_once`, on whichever thread calls it. */
    method DrainOnce(limit: nat) returns (processed: nat, dry: bool)
      requires Books(multiset{}, 0)
      modifies this
      ensures Books(multiset{}, 0) && Onward(old(Now()), Now()) && processed <= limit
      ensures old(live).Some? && dry ==> old(live).value in emptied
      ensures alone && old(live).Some? && old(live).value < |old(queues)| ==>
                var q := old(LiveQueue());
                && live == old(live) && queues == old(queues)[live.value := Left(q, limit, false)]
                && processed == |Drained(q, limit, false)|
                && AllTold(old(Rest()), Rest(), multiset(Drained(q, limit, false)))
                && (Healthy() ==> AllRows(old(Rest()), Rest(), multiset(Drained(q, limit, false))))
    {
      if live.None? { return 0, true; }
      var i := live.value;
      Others(multiset{}, 0, old(Now()));
      hide Books, AllTold, AllRows, Drained, Left, Onward, Healthy;
      var batch, saw := Gather(i, limit, false, old(Now()));
      ghost var gathered := Now();
      OnwardSelf(gathered);
      var _, _ := FlushAny(batch, 0, false, gathered);
      EmptiedStays(gathered, Now());
      OnwardTwice(old(Now()), gathered, Now());
      processed, dry := |batch|, saw;
    }

    /** `stop`: detach the queue, wake its writer, and drain what a late producer left in it. */
    method Stop(limit: nat) returns (dry: bool)
      requires Books(multiset{}, 0)
      modifies this
      ensures Books(multiset{}, 0) && Onward(old(Now()), Now())
      ensures old(live).Some? ==> live != old(live) && (dry ==> old(live).value in emptied)
      ensures alone && old(live).Some? && old(live).value < |old(queues)| && limit > |old(LiveQueue())| + 1 ==>
                && dry && live.None? && queues == old(queues)[old(live).value := []]
                && AllTold(old(Rest()), Rest(), EventsIn(old(LiveQueue())))
                && (Healthy() ==> AllRows(old(Rest()), Rest(), EventsIn(old(LiveQueue()))))
    {
      hide Balanced, Queued;
      if live.None? { return true; }
      var i := live.value;
      live := None;
      stopping := true;
      ghost var detached := Now();
      hide Books;
      Others(multiset{}, 0, detached);
      dry := WakeAndAbandon(i, limit, detached);
    }

    /** The rest of `stop`, the queue nobody's any more. */
    method WakeAndAbandon(i: nat, limit: nat, ghost since: View) returns (dry: bool)
      requires Books(multiset{}, 0) && Onward(since, Now()) && i < |queues| && live != Some(i)
      modifies this
      ensures Books(multiset{}, 0) && Onward(since, Now()) && live != Some(i) && (dry ==> i in emptied)
      ensures alone && limit > |old(queues)[i]| + 1 ==> dry
      ensures alone && limit > |old(queues)[i]| ==>
                && queues == old(queues)[i := []] && live == old(live)
                && AllTold(old(Rest()), Rest(), EventsIn(old(queues)[i]))
                && (Healthy() ==> AllRows(old(Rest()), Rest(), EventsIn(old(queues)[i])))
    {
      hide Books, Drained, Left, EventsIn, AllTold, AllRows, Healthy;
      assert multiset{} == One(Wake);
      var _ := Put(i, Wake);
      DrainsEither(old(queues)[i], queues[i], limit);
      ghost var after := Now();
      Others(multiset{}, 0, since);
      OnwardTwice(after, after, Now());
      assert alone ==> queues[i := []] == old(queues)[i := []];
      dry := Abandon(i, limit, since);
    }
  }

  lemma DrainsEither(q: seq<Item>, woken: seq<Item>, limit: nat)
    requires woken == q || woken == q + [Wake]
    ensures limit > |q| ==> Left(woken, limit, false) == [] && multiset(Drained(woken, limit, false)) == EventsIn(q)
  {
    hide Drained, Left, EventsIn;
    EventsAppend(q, Wake);
    assert EventsIn(q) + One(Wake) == EventsIn(q);
    if limit > |q| { DrainsAll(woken, limit); }
  }

  /** With nothing queued and nobody's hands full, every admitted event is a row or is counted. */
  lemma NothingVanishes(r: EventRecorder)
    requires r.Books(multiset{}, 0) && r.elsewhere == multiset{} && r.claimsElsewhere == 0
    requires forall i | 0 <= i < |r.queues| :: r.queues[i] == []
    ensures |r.admitted| == |r.rows| + r.dropped + r.reported && r.rows <= r.admitted
  {
    NothingQueued(r.queues);
  }

  lemma {:induction false} NothingQueued(qs: seq<seq<Item>>)
    requires forall i | 0 <= i < |qs| :: qs[i] == []
    ensures Queued(qs) == multiset{}
  {
    if qs != [] { NothingQueued(qs[1..]); }
  }
}
