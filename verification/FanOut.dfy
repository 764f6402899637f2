/** One message per chat, a chunk per round trip, published where the caller stands or by a hook when
    its transaction commits (producer/client.py, producer/queueing.py). */
module FanOut {

  /** One call, under the id its rows will carry. */
  datatype Message = Message(id: nat, chat: string)

  /** What one publish carries: the payloads of a chunk, in order. */
  type Write = seq<Message>

  datatype Stage = Serialising | Queueing

  datatype Row = Queued(id: nat) | Dropped(id: nat, stage: Stage)

  // ------------------------------------------------------------------ chunks

  function Concat(chunks: seq<Write>): (all: Write)
    decreases |chunks|
  {
    if chunks == [] then [] else Concat(chunks[..|chunks| - 1]) + chunks[|chunks| - 1]
  }

  function Ids(w: Write): seq<nat> { seq(|w|, i requires 0 <= i < |w| => w[i].id) }

  lemma OneLonger(done: Write, chunk: Write, messages: Write, i: nat)
    requires i < |messages| && done + chunk == messages[..i]
    ensures done + (chunk + [messages[i]]) == messages[..i + 1]
  {
    assert messages[..i + 1] == messages[..i] + [messages[i]];
  }

  lemma ConcatLast(chunks: seq<Write>, c: Write)
    ensures Concat(chunks + [c]) == Concat(chunks) + c
  {
    assert (chunks + [c])[..|chunks|] == chunks;
  }

  lemma IdsOfMore(chunks: seq<Write>, i: nat)
    requires i < |chunks|
    ensures Ids(Concat(chunks[..i + 1])) == Ids(Concat(chunks[..i])) + Ids(chunks[i])
  {
    assert chunks[..i + 1][..i] == chunks[..i];
  }

  /** Every chunk but the last is full, and no chunk is empty. */
  ghost predicate Grouped(chunks: seq<Write>, size: nat) {
    && (forall i | 0 <= i < |chunks| :: 0 < |chunks[i]| <= size)
    && (forall i | 0 <= i < |chunks| - 1 :: |chunks[i]| == size)
  }

  /** `chunks`: a size that is not positive counts as one. */
  method Chunks(messages: Write, chunkSize: int) returns (chunks: seq<Write>)
    ensures Concat(chunks) == messages
    ensures Grouped(chunks, if chunkSize < 1 then 1 else chunkSize)
  {
    var size := if chunkSize < 1 then 1 else chunkSize;
    chunks := [];
    var chunk: Write := [];
    assert Concat([]) == [];
    hide Concat, AllFull, Grouped;
    FullMeans(chunks, size);
    for i := 0 to |messages|
      invariant Concat(chunks) + chunk == messages[..i] && |chunk| < size && AllFull(chunks, size)
    {
      OneLonger(Concat(chunks), chunk, messages, i);
      chunk := chunk + [messages[i]];
      if |chunk| >= size {
        ConcatLast(chunks, chunk);
        FullMore(chunks, chunk, size);
        chunks, chunk := chunks + [chunk], [];
      }
    }
    assert messages[..|messages|] == messages;
    FullMeans(chunks, size);
    if chunk != [] {
      ConcatLast(chunks, chunk);
      FullAndOne(chunks, chunk, size);
      chunks := chunks + [chunk];
    }
  }

  ghost predicate AllFull(chunks: seq<Write>, size: nat) { forall k | 0 <= k < |chunks| :: |chunks[k]| == size }

  lemma FullMeans(chunks: seq<Write>, size: nat)
    requires size > 0
    ensures (chunks == [] ==> AllFull(chunks, size)) && (AllFull(chunks, size) ==> Grouped(chunks, size))
  {
  }

  lemma FullMore(chunks: seq<Write>, c: Write, size: nat)
    requires AllFull(chunks, size) && |c| == size
    ensures AllFull(chunks + [c], size)
  {
  }

  lemma FullAndOne(chunks: seq<Write>, c: Write, size: nat)
    requires AllFull(chunks, size) && 0 < |c| <= size
    ensures Grouped(chunks + [c], size)
  {
  }

  /** The length of so many full chunks. */
  function Times(n: nat, size: nat): nat { if n == 0 then 0 else Times(n - 1, size) + size }

  lemma {:induction false} GroupedLength(chunks: seq<Write>, size: nat)
    requires Grouped(chunks, size) && chunks != []
    ensures |Concat(chunks)| == Times(|chunks| - 1, size) + |chunks[|chunks| - 1]|
    decreases |chunks|
  {
    var most := chunks[..|chunks| - 1];
    if most != [] {
      GroupedLength(most, size);
      assert most[|most| - 1] == chunks[|most| - 1];
    }
  }

  /** There is one such grouping: how many round trips, and what each carries, follow from the messages. */
  lemma {:induction false} GroupingIsUnique(a: seq<Write>, b: seq<Write>, size: nat)
    requires Grouped(a, size) && Grouped(b, size) && Concat(a) == Concat(b)
    ensures a == b
    decreases |a|
  {
    if a == [] || b == [] {
      if a != [] { GroupedLength(a, size); SmallestConcat(a, size); }
      if b != [] { GroupedLength(b, size); SmallestConcat(b, size); }
    } else {
      GroupedLength(a, size);
      GroupedLength(b, size);
      var la, lb := a[|a| - 1], b[|b| - 1];
      SameQuotient(|a| - 1, |la|, |b| - 1, |lb|, size);
      var n := |Concat(a)| - |la|;
      assert Concat(a)[n..] == la && Concat(b)[n..] == lb;
      assert Concat(a)[..n] == Concat(a[..|a| - 1]) && Concat(b)[..n] == Concat(b[..|b| - 1]);
      GroupingIsUnique(a[..|a| - 1], b[..|b| - 1], size);
      assert a == a[..|a| - 1] + [la] && b == b[..|b| - 1] + [lb];
    }
  }

  lemma SmallestConcat(a: seq<Write>, size: nat)
    requires Grouped(a, size) && a != []
    ensures Concat(a) != []
  {
    assert |a[|a| - 1]| > 0;
  }

  lemma SameQuotient(p: nat, r: nat, q: nat, s: nat, size: nat)
    requires 0 < r <= size && 0 < s <= size && Times(p, size) + r == Times(q, size) + s
    ensures p == q && r == s
  {
    if p < q {
      OneMoreTimes(p, q, size);
    } else if q < p {
      OneMoreTimes(q, p, size);
    }
  }

  lemma {:induction false} OneMoreTimes(p: nat, q: nat, size: nat)
    requires p < q
    ensures Times(q, size) >= Times(p, size) + size
    decreases q
  {
    if p < q - 1 { OneMoreTimes(p, q - 1, size); }
  }

  // ------------------------------------------------------------------ what each path does

  datatype End = Fine | BadChunk | Refused

  /** What reached the broker, the rows written, and how it ended. */
  datatype Trace = Trace(landed: seq<Write>, rows: seq<Row>, end: End)

  function Rows(w: Write, stage: Stage): (rows: seq<Row>) {
    seq(|w|, i requires 0 <= i < |w| => Dropped(w[i].id, stage))
  }

  function QueuedRows(w: Write): (rows: seq<Row>) { seq(|w|, i requires 0 <= i < |w| => Queued(w[i].id)) }

  predicate AllGood(w: Write, good: Message -> bool) { forall m | m in w :: good(m) }

  function Then(landed: seq<Write>, rows: seq<Row>, t: Trace): Trace { Trace(landed + t.landed, rows + t.rows, t.end) }

  lemma ThenThen(a: seq<Write>, r: seq<Row>, b: seq<Write>, q: seq<Row>, t: Trace)
    ensures Then(a, r, Then(b, q, t)) == Then(a + b, r + q, t)
  {
    assert a + (b + t.landed) == a + b + t.landed && r + (q + t.rows) == r + q + t.rows;
  }

  /** Where it stands: each chunk serialised, then published, and the first failure ends it. */
  function Straight(chunks: seq<Write>, good: Message -> bool, refuses: nat -> bool, k: nat): Trace {
    if chunks == [] then Trace([], [], Fine)
    else if !AllGood(chunks[0], good) then Trace([], Rows(chunks[0], Serialising), BadChunk)
    else if refuses(k) then Trace([], Rows(chunks[0], Queueing), Refused)
    else
      Then([chunks[0]], QueuedRows(chunks[0]), Straight(chunks[1..], good, refuses, k + 1))
  }

  /** What a deferring call leaves on its hook: the chunks before the first it cannot serialise. */
  function Held(chunks: seq<Write>, good: Message -> bool): seq<Write> {
    if chunks == [] || !AllGood(chunks[0], good) then [] else [chunks[0]] + Held(chunks[1..], good)
  }

  /** And the rows it writes itself: the drops of the chunk that stopped it. */
  function CallRows(chunks: seq<Write>, good: Message -> bool): seq<Row> {
    var n := |Held(chunks, good)|;
    if n < |chunks| then Rows(chunks[n], Serialising) else []
  }

  /** The hook: the held writes in order, stopping at the first refusal. */
  function Hook(writes: seq<Write>, refuses: nat -> bool, k: nat): Trace {
    if writes == [] then Trace([], [], Fine)
    else if refuses(k) then Trace([], Rows(writes[0], Queueing), Refused)
    else
      Then([writes[0]], QueuedRows(writes[0]), Hook(writes[1..], refuses, k + 1))
  }

  lemma {:induction false} HeldIsAPrefix(chunks: seq<Write>, good: Message -> bool)
    ensures var n := |Held(chunks, good)|;
            && n <= |chunks| && Held(chunks, good) == chunks[..n]
            && (forall i | 0 <= i < n :: AllGood(chunks[i], good))
            && (n < |chunks| ==> !AllGood(chunks[n], good))
  {
    if chunks != [] && AllGood(chunks[0], good) { HeldIsAPrefix(chunks[1..], good); }
  }

  /** The hook publishes exactly what the immediate path would, whichever chunk cannot be serialised
      and whichever publish is refused; the rows differ only in where a bad chunk behind a refused
      publish is heard of. */
  lemma {:induction false} DeferredPublishesTheSame(chunks: seq<Write>, good: Message -> bool, refuses: nat -> bool,
                                                    k: nat)
    ensures Agree(Straight(chunks, good, refuses, k), Hook(Held(chunks, good), refuses, k), CallRows(chunks, good),
                  |Held(chunks, good)| < |chunks|)
  {
    if chunks != [] && AllGood(chunks[0], good) {
      HeldOneMore(chunks, good);
      hide Held, CallRows, Agree, Rows, QueuedRows, AllGood, Then;
      if refuses(k) {
        RefusedAgrees(Rows(chunks[0], Queueing), CallRows(chunks, good), |Held(chunks, good)| < |chunks|);
      } else {
        DeferredPublishesTheSame(chunks[1..], good, refuses, k + 1);
        AgreeThen(Straight(chunks[1..], good, refuses, k + 1), Hook(Held(chunks[1..], good), refuses, k + 1),
                  CallRows(chunks[1..], good), |Held(chunks, good)| < |chunks|, [chunks[0]], QueuedRows(chunks[0]));
      }
    }
  }

  /** The same writes; the rows of the immediate path are the hook's and, where nothing was refused, those
      the call wrote itself; and it ends as it would have, given whether a chunk was bad. */
  ghost predicate Agree(now: Trace, later: Trace, rows: seq<Row>, bad: bool) {
    && later.landed == now.landed
    && now.rows == later.rows + (if later.end.Fine? then rows else [])
    && !later.end.BadChunk?
    && now.end == (if later.end.Refused? then Refused else if bad then BadChunk else Fine)
  }

  lemma AgreeThen(now: Trace, later: Trace, rows: seq<Row>, bad: bool, a: seq<Write>, r: seq<Row>)
    requires Agree(now, later, rows, bad)
    ensures Agree(Then(a, r, now), Then(a, r, later), rows, bad)
  {
    assert r + (later.rows + rows) == r + later.rows + rows;
  }

  lemma RefusedAgrees(dropped: seq<Row>, rows: seq<Row>, bad: bool)
    ensures Agree(Trace([], dropped, Refused), Trace([], dropped, Refused), rows, bad)
  {
  }

  lemma HeldOneMore(chunks: seq<Write>, good: Message -> bool)
    requires chunks != [] && AllGood(chunks[0], good)
    ensures Held(chunks, good) == [chunks[0]] + Held(chunks[1..], good)
    ensures Held(chunks, good)[1..] == Held(chunks[1..], good) && Held(chunks, good)[0] == chunks[0]
    ensures CallRows(chunks, good) == CallRows(chunks[1..], good)
    ensures |Held(chunks, good)| < |chunks| <==> |Held(chunks[1..], good)| < |chunks[1..]|
  {
    hide Rows;
  }

  lemma {:induction false} ConcatFirst(c: Write, chunks: seq<Write>)
    ensures Concat([c] + chunks) == c + Concat(chunks)
    decreases |chunks|
  {
    var all := [c] + chunks;
    if chunks == [] {
      assert all[..0] == [];
    } else {
      assert all[..|all| - 1] == [c] + chunks[..|chunks| - 1];
      ConcatFirst(c, chunks[..|chunks| - 1]);
    }
  }

  /** And the rows: one queued row for each message that landed, in order, under its own id; then one drop row for
      each message of the chunk that failed, saying where; and no other. */
  lemma {:induction false} WhatIsWritten(chunks: seq<Write>, good: Message -> bool, refuses: nat -> bool, k: nat)
    ensures var t := Straight(chunks, good, refuses, k);
            var n := |t.landed|;
            && (!t.end.Fine? ==> n < |chunks|)
            && QueuedThenDropped(t.rows, Concat(t.landed), if t.end.Fine? then [] else chunks[n],
                                 if t.end.BadChunk? then Serialising else Queueing)
  {
    NothingQueued(if chunks == [] then [] else chunks[0]);
    assert Concat([]) == [];
    hide Concat, QueuedThenDropped, QueuedRows, AllGood, Rows;
    if chunks != [] && AllGood(chunks[0], good) && !refuses(k) {
      WhatIsWritten(chunks[1..], good, refuses, k + 1);
      var t := Straight(chunks[1..], good, refuses, k + 1);
      ConcatFirst(chunks[0], t.landed);
      QueuedBefore(chunks[0], t.rows, Concat(t.landed), if t.end.Fine? then [] else chunks[1..][|t.landed|],
                   if t.end.BadChunk? then Serialising else Queueing);
    }
  }

  ghost predicate QueuedThenDropped(rows: seq<Row>, sent: Write, bad: Write, stage: Stage) {
    && |rows| == |sent| + |bad|
    && (forall i | 0 <= i < |sent| :: rows[i] == Queued(sent[i].id))
    && (forall i | 0 <= i < |bad| :: rows[|sent| + i] == Dropped(bad[i].id, stage))
  }

  lemma NothingQueued(bad: Write)
    ensures forall stage :: QueuedThenDropped([], [], [], stage) && QueuedThenDropped(Rows(bad, stage), [], bad, stage)
  {
  }

  lemma QueuedBefore(c: Write, rows: seq<Row>, sent: Write, bad: Write, stage: Stage)
    requires QueuedThenDropped(rows, sent, bad, stage)
    ensures QueuedThenDropped(QueuedRows(c) + rows, c + sent, bad, stage)
  {
    var all := QueuedRows(c) + rows;
    forall i | 0 <= i < |c + sent| ensures all[i] == Queued((c + sent)[i].id) {
      if i >= |c| { assert all[i] == rows[i - |c|]; }
    }
    forall i | 0 <= i < |bad| ensures all[|c + sent| + i] == Dropped(bad[i].id, stage) {
      assert all[|c + sent| + i] == rows[|sent| + i];
    }
  }

  /** Said outright: the chunks before the first that cannot be serialised or is refused land, in
      order and whole, and nothing behind it does. */
  lemma {:induction false} WhatLands(chunks: seq<Write>, good: Message -> bool, refuses: nat -> bool, k: nat)
    ensures var t := Straight(chunks, good, refuses, k);
            var n := |t.landed|;
            && n <= |chunks| && t.landed == chunks[..n]
            && (forall i: nat | i < n :: AllGood(chunks[i], good) && !refuses(k + i))
            && (n < |chunks| <==> !t.end.Fine?)
            && (t.end.BadChunk? ==> !AllGood(chunks[n], good))
            && (t.end.Refused? ==> AllGood(chunks[n], good) && refuses(k + n))
  {
    if chunks != [] && AllGood(chunks[0], good) && !refuses(k) {
      WhatLands(chunks[1..], good, refuses, k + 1);
      var t := Straight(chunks[1..], good, refuses, k + 1);
      forall i: nat | i < |t.landed| + 1 ensures AllGood(chunks[i], good) && !refuses(k + i) {
        if i > 0 {
          assert chunks[i] == chunks[1..][i - 1];
          assert !refuses(k + 1 + (i - 1));
        }
      }
    }
  }

  // ------------------------------------------------------------------ part of the way

  /** `i` chunks out and `done` written, the rest to come from publish `k` on. */
  ghost predicate SoFar(chunks: seq<Write>, good: Message -> bool, refuses: nat -> bool, k0: nat, i: nat,
                        done: seq<Row>, k: nat) {
    && i <= |chunks|
    && Straight(chunks, good, refuses, k0) == Then(chunks[..i], done, Straight(chunks[i..], good, refuses, k))
  }

  lemma SoFarStarts(chunks: seq<Write>, good: Message -> bool, refuses: nat -> bool, k0: nat)
    ensures SoFar(chunks, good, refuses, k0, 0, [], k0)
  {
    assert chunks[0..] == chunks;
  }

  lemma SoFarGoesOn(chunks: seq<Write>, good: Message -> bool, refuses: nat -> bool, k0: nat, i: nat, done: seq<Row>,
                    k: nat)
    requires i < |chunks| && SoFar(chunks, good, refuses, k0, i, done, k) && AllGood(chunks[i], good) && !refuses(k)
    ensures SoFar(chunks, good, refuses, k0, i + 1, done + QueuedRows(chunks[i]), k + 1)
  {
    assert chunks[i..][0] == chunks[i] && chunks[i..][1..] == chunks[i + 1..]
      && chunks[..i + 1] == chunks[..i] + [chunks[i]];
    ThenThen(chunks[..i], done, [chunks[i]], QueuedRows(chunks[i]), Straight(chunks[i + 1..], good, refuses, k + 1));
  }

  lemma SoFarStops(chunks: seq<Write>, good: Message -> bool, refuses: nat -> bool, k0: nat, i: nat, done: seq<Row>,
                   k: nat)
    requires i < |chunks| && SoFar(chunks, good, refuses, k0, i, done, k) && (!AllGood(chunks[i], good) || refuses(k))
    ensures Straight(chunks, good, refuses, k0) ==
            if !AllGood(chunks[i], good) then Trace(chunks[..i], done + Rows(chunks[i], Serialising), BadChunk)
            else Trace(chunks[..i], done + Rows(chunks[i], Queueing), Refused)
  {
    assert chunks[i..][0] == chunks[i];
  }

  lemma SoFarEnds(chunks: seq<Write>, good: Message -> bool, refuses: nat -> bool, k0: nat, done: seq<Row>, k: nat)
    requires SoFar(chunks, good, refuses, k0, |chunks|, done, k)
    ensures Straight(chunks, good, refuses, k0) == Trace(chunks, done, Fine)
  {
  }

  lemma HeldStops(chunks: seq<Write>, good: Message -> bool, i: nat)
    requires i <= |chunks| && (forall j | 0 <= j < i :: AllGood(chunks[j], good))
             && (i < |chunks| ==> !AllGood(chunks[i], good))
    ensures Held(chunks, good) == chunks[..i]
            && CallRows(chunks, good) == if i < |chunks| then Rows(chunks[i], Serialising) else []
  {
    HeldIsAPrefix(chunks, good);
  }

  ghost predicate HookSoFar(writes: seq<Write>, refuses: nat -> bool, k0: nat, i: nat, done: seq<Row>, k: nat) {
    i <= |writes| && Hook(writes, refuses, k0) == Then(writes[..i], done, Hook(writes[i..], refuses, k))
  }

  lemma HookStarts(writes: seq<Write>, refuses: nat -> bool, k0: nat)
    ensures HookSoFar(writes, refuses, k0, 0, [], k0)
  {
    assert writes[0..] == writes;
  }

  lemma HookGoesOn(writes: seq<Write>, refuses: nat -> bool, k0: nat, i: nat, done: seq<Row>, k: nat)
    requires i < |writes| && HookSoFar(writes, refuses, k0, i, done, k) && !refuses(k)
    ensures HookSoFar(writes, refuses, k0, i + 1, done + QueuedRows(writes[i]), k + 1)
  {
    assert writes[i..][0] == writes[i] && writes[i..][1..] == writes[i + 1..]
      && writes[..i + 1] == writes[..i] + [writes[i]];
    ThenThen(writes[..i], done, [writes[i]], QueuedRows(writes[i]), Hook(writes[i + 1..], refuses, k + 1));
  }

  lemma HookStops(writes: seq<Write>, refuses: nat -> bool, k0: nat, i: nat, done: seq<Row>, k: nat)
    requires i < |writes| && HookSoFar(writes, refuses, k0, i, done, k) && refuses(k)
    ensures Hook(writes, refuses, k0) == Trace(writes[..i], done + Rows(writes[i], Queueing), Refused)
  {
    assert writes[i..][0] == writes[i];
  }

  lemma HookEnds(writes: seq<Write>, refuses: nat -> bool, k0: nat, done: seq<Row>, k: nat)
    requires HookSoFar(writes, refuses, k0, |writes|, done, k)
    ensures Hook(writes, refuses, k0) == Trace(writes, done, Fine)
  {
  }

  /** What a fan-out writes to: the broker, the event log and its own list. */
  datatype Desk = Desk(landed: seq<Write>, rows: seq<Row>, publishes: nat, held: seq<Write>)

  /** What one chunk does. */
  ghost predicate ChunkDone(d: Desk, e: Desk, chunk: Write, good: Message -> bool, refuses: nat -> bool,
                            waiting: bool, raised: bool) {
    if !AllGood(chunk, good) then
      raised && e == d.(rows := d.rows + Rows(chunk, Serialising))
    else if waiting then
      !raised && e == d.(held := d.held + [chunk])
    else if refuses(d.publishes) then
      raised && e == d.(rows := d.rows + Rows(chunk, Queueing), publishes := d.publishes + 1)
    else
      !raised && e == d.(landed := d.landed + [chunk], rows := d.rows + QueuedRows(chunk), publishes := d.publishes + 1)
  }

  /** `i` writes of a hook out. */
  ghost predicate HookPart(d: Desk, e: Desk, writes: seq<Write>, refuses: nat -> bool, i: nat, done: seq<Row>) {
    && i <= |writes| && e.landed == d.landed + writes[..i] && e.rows == d.rows + done
    && HookSoFar(writes, refuses, d.publishes, i, done, e.publishes)
  }

  ghost predicate HookDone(d: Desk, e: Desk, writes: seq<Write>, refuses: nat -> bool, refused: bool) {
    var t := Hook(writes, refuses, d.publishes);
    e.landed == d.landed + t.landed && e.rows == d.rows + t.rows && refused == t.end.Refused?
  }

  lemma HookPartStarts(d: Desk, writes: seq<Write>, refuses: nat -> bool)
    ensures HookPart(d, d, writes, refuses, 0, [])
  {
    HookStarts(writes, refuses, d.publishes);
  }

  lemma HookPartGoesOn(d: Desk, e: Desk, f: Desk, writes: seq<Write>, refuses: nat -> bool, i: nat, done: seq<Row>)
    requires i < |writes| && HookPart(d, e, writes, refuses, i, done) && !refuses(e.publishes)
    requires f.landed == e.landed + [writes[i]] && f.rows == e.rows + QueuedRows(writes[i])
             && f.publishes == e.publishes + 1
    ensures HookPart(d, f, writes, refuses, i + 1, done + QueuedRows(writes[i]))
  {
    hide HookSoFar, QueuedRows;
    HookGoesOn(writes, refuses, d.publishes, i, done, e.publishes);
    assert writes[..i + 1] == writes[..i] + [writes[i]];
  }

  lemma HookPartStops(d: Desk, e: Desk, f: Desk, writes: seq<Write>, refuses: nat -> bool, i: nat, done: seq<Row>)
    requires i < |writes| && HookPart(d, e, writes, refuses, i, done) && refuses(e.publishes)
    requires f.landed == e.landed && f.rows == e.rows + Rows(writes[i], Queueing)
    ensures HookDone(d, f, writes, refuses, true)
  {
    hide HookSoFar, Rows, Hook;
    HookStops(writes, refuses, d.publishes, i, done, e.publishes);
  }

  lemma HookPartEnds(d: Desk, e: Desk, writes: seq<Write>, refuses: nat -> bool, done: seq<Row>)
    requires HookPart(d, e, writes, refuses, |writes|, done)
    ensures HookDone(d, e, writes, refuses, false)
  {
    hide HookSoFar, Hook;
    assert writes[..|writes|] == writes;
    HookEnds(writes, refuses, d.publishes, done, e.publishes);
  }

  lemma HookDoneMeans(d: Desk, e: Desk, writes: seq<Write>, refuses: nat -> bool, refused: bool)
    requires HookDone(d, e, writes, refuses, refused)
    ensures var t := Hook(writes, refuses, d.publishes);
            e.landed == d.landed + t.landed && e.rows == d.rows + t.rows && refused == t.end.Refused?
  {
  }

  /** What the whole call does: nothing but a list and its own drops where the hook will publish, the
      immediate path's writes and rows where nothing waits. */
  ghost predicate CallDone(d: Desk, e: Desk, chunks: seq<Write>, good: Message -> bool, refuses: nat -> bool,
                           waiting: bool, raised: bool) {
    if waiting then
      && e == Desk(d.landed, d.rows + CallRows(chunks, good), d.publishes, Held(chunks, good))
      && raised == (|Held(chunks, good)| < |chunks|)
    else
      var t := Straight(chunks, good, refuses, d.publishes);
      && e.landed == d.landed + t.landed && e.rows == d.rows + t.rows && e.held == d.held
      && raised == !t.end.Fine?
  }

  ghost predicate PartDone(d: Desk, e: Desk, chunks: seq<Write>, good: Message -> bool, refuses: nat -> bool,
                           waiting: bool, i: nat, done: seq<Row>) {
    && i <= |chunks| && (forall j | 0 <= j < i :: AllGood(chunks[j], good))
    && if waiting then e == d.(held := chunks[..i])
       else e.landed == d.landed + chunks[..i] && e.rows == d.rows + done && e.held == d.held
            && SoFar(chunks, good, refuses, d.publishes, i, done, e.publishes)
  }

  lemma PartStarts(d: Desk, chunks: seq<Write>, good: Message -> bool, refuses: nat -> bool, waiting: bool)
    requires d.held == []
    ensures PartDone(d, d, chunks, good, refuses, waiting, 0, [])
  {
    SoFarStarts(chunks, good, refuses, d.publishes);
  }

  lemma PartGoesOn(d: Desk, e: Desk, f: Desk, chunks: seq<Write>, good: Message -> bool, refuses: nat -> bool,
                   waiting: bool, i: nat, done: seq<Row>)
    requires i < |chunks| && PartDone(d, e, chunks, good, refuses, waiting, i, done)
    requires ChunkDone(e, f, chunks[i], good, refuses, waiting, false)
    ensures PartDone(d, f, chunks, good, refuses, waiting, i + 1, done + QueuedRows(chunks[i]))
  {
    hide AllGood, SoFar, Rows, QueuedRows;
    assert chunks[..i + 1] == chunks[..i] + [chunks[i]];
    if !waiting { SoFarGoesOn(chunks, good, refuses, d.publishes, i, done, e.publishes); }
  }

  lemma PartStops(d: Desk, e: Desk, f: Desk, chunks: seq<Write>, good: Message -> bool, refuses: nat -> bool,
                  waiting: bool, i: nat, done: seq<Row>)
    requires i < |chunks| && PartDone(d, e, chunks, good, refuses, waiting, i, done)
    requires ChunkDone(e, f, chunks[i], good, refuses, waiting, true)
    ensures CallDone(d, f, chunks, good, refuses, waiting, true)
  {
    hide AllGood, SoFar, Rows, QueuedRows, Straight, CallRows, Held;
    if waiting {
      HeldStops(chunks, good, i);
    } else {
      SoFarStops(chunks, good, refuses, d.publishes, i, done, e.publishes);
    }
  }

  lemma PartEnds(d: Desk, e: Desk, chunks: seq<Write>, good: Message -> bool, refuses: nat -> bool, waiting: bool,
                 done: seq<Row>)
    requires PartDone(d, e, chunks, good, refuses, waiting, |chunks|, done)
    ensures CallDone(d, e, chunks, good, refuses, waiting, false)
  {
    hide AllGood, SoFar, Straight, CallRows, Held;
    assert chunks[..|chunks|] == chunks;
    if waiting {
      HeldStops(chunks, good, |chunks|);
    } else {
      SoFarEnds(chunks, good, refuses, d.publishes, done, e.publishes);
    }
  }

  // ------------------------------------------------------------------ the producer

  /** The list a hook was handed, read when the hook runs. */
  class HeldWrites {
    var writes: seq<Write>
    constructor () ensures writes == [] { writes := []; }
  }

  class Producer {
    const good: Message -> bool
    const refuses: nat -> bool      // whether the n-th publish raises
    var landed: seq<Write>
    var rows: seq<Row>
    var publishes: nat
    var hooks: seq<HeldWrites>      // registered with the caller's transaction

    constructor (good: Message -> bool, refuses: nat -> bool)
      ensures landed == [] && rows == [] && publishes == 0 && hooks == [] && this.good == good
              && this.refuses == refuses
    {
      this.good, this.refuses := good, refuses;
      landed, rows, publishes, hooks := [], [], 0, [];
    }

    /** `publishing` around one publish. */
    method Publish(w: Write) returns (raised: bool)
      modifies this`landed, this`rows, this`publishes
      ensures raised == refuses(old(publishes)) && publishes == old(publishes) + 1
      ensures landed == if raised then old(landed) else old(landed) + [w]
      ensures rows == old(rows) + if raised then Rows(w, Queueing) else QueuedRows(w)
      ensures |rows| == |old(rows)| + |w|
      ensures forall i | 0 <= i < |w| ::
                rows[|old(rows)| + i] == if raised then Dropped(w[i].id, Queueing) else Row.Queued(w[i].id)
    {
      raised := refuses(publishes);
      publishes := publishes + 1;
      if raised {
        rows := rows + Rows(w, Queueing);
      } else {
        landed, rows := landed + [w], rows + QueuedRows(w);
      }
    }

    ghost function Now(held: HeldWrites): Desk
      reads this, held
    {
      Desk(landed, rows, publishes, held.writes)
    }

    /** `send_many` past its checks: `waiting` where a transaction took the hook. There is one grouping
        of the messages, so what is said of any is said of the one used. */
    method SendMany(messages: Write, chunkSize: int, waiting: bool)
      returns (ids: seq<nat>, raised: bool, held: HeldWrites)
      modifies this
      ensures fresh(held) && hooks == if waiting then old(hooks) + [held] else old(hooks)
      ensures forall chunks: seq<Write> |
                Grouped(chunks, if chunkSize < 1 then 1 else chunkSize) && Concat(chunks) == messages ::
                CallDone(Desk(old(landed), old(rows), old(publishes), []), Now(held), chunks, good, refuses, waiting,
                         raised)
      ensures !raised ==> ids == Ids(messages)
    {
      hide CallDone, Ids;
      held := new HeldWrites();
      if waiting { hooks := hooks + [held]; }
      var chunks := Chunks(messages, chunkSize);
      ghost var size: nat := if chunkSize < 1 then 1 else chunkSize;
      ids, raised := SendChunks(chunks, waiting, held);
      forall other: seq<Write> | Grouped(other, size) && Concat(other) == messages ensures other == chunks {
        GroupingIsUnique(other, chunks, size);
      }
    }

    /** The loop over the chunks. */
    method SendChunks(chunks: seq<Write>, waiting: bool, held: HeldWrites) returns (ids: seq<nat>, raised: bool)
      requires held.writes == []
      modifies this`landed, this`rows, this`publishes, held
      ensures CallDone(old(Now(held)), Now(held), chunks, good, refuses, waiting, raised)
      ensures !raised ==> ids == Ids(Concat(chunks))
    {
      hide CallDone, PartDone, ChunkDone, QueuedRows;
      ghost var d, done := Now(held), [];
      PartStarts(d, chunks, good, refuses, waiting);
      ids, raised := [], false;
      for i := 0 to |chunks|
        invariant PartDone(d, Now(held), chunks, good, refuses, waiting, i, done)
        invariant ids == Ids(Concat(chunks[..i]))
      {
        ghost var e := Now(held);
        raised := OneChunk(chunks[i], waiting, held);
        if raised {
          PartStops(d, e, Now(held), chunks, good, refuses, waiting, i, done);
          return;
        }
        PartGoesOn(d, e, Now(held), chunks, good, refuses, waiting, i, done);
        done := done + QueuedRows(chunks[i]);
        IdsOfMore(chunks, i);
        ids := ids + Ids(chunks[i]);
      }
      raised := false;
      assert chunks[..|chunks|] == chunks;
      PartEnds(d, Now(held), chunks, good, refuses, waiting, done);
    }

    /** One chunk of the loop: serialised here, then held or published. */
    method OneChunk(chunk: Write, waiting: bool, held: HeldWrites) returns (raised: bool)
      modifies this`landed, this`rows, this`publishes, held
      ensures ChunkDone(old(Now(held)), Now(held), chunk, good, refuses, waiting, raised)
    {
      hide Rows, QueuedRows;
      if !AllGood(chunk, good) {
        rows := rows + Rows(chunk, Serialising);
        return true;
      }
      raised := false;
      if waiting {
        held.writes := held.writes + [chunk];
      } else {
        raised := Publish(chunk);
      }
    }

    /** `publish_after_commit`: what `SendMany` left on the hook, once the transaction landed. An exception
        leaves it only where failures are asked to raise. */
    method RunHook(held: HeldWrites, raiseFailures: bool) returns (raised: bool)
      modifies this`landed, this`rows, this`publishes
      ensures var t := Hook(held.writes, refuses, old(publishes));
              && landed == old(landed) + t.landed && rows == old(rows) + t.rows
              && raised == (raiseFailures && t.end.Refused?)
    {
      var writes := held.writes;
      ghost var d, done := Now(held), [];
      HookPartStarts(d, writes, refuses);
      hide HookPart, HookDone, Hook, QueuedRows, Rows;
      for i := 0 to |writes|
        invariant HookPart(d, Now(held), writes, refuses, i, done)
      {
        ghost var e := Now(held);
        var refused := Publish(writes[i]);
        if refused {
          HookPartStops(d, e, Now(held), writes, refuses, i, done);
          HookDoneMeans(d, Now(held), writes, refuses, true);
          return raiseFailures;
        }
        HookPartGoesOn(d, e, Now(held), writes, refuses, i, done);
        done := done + QueuedRows(writes[i]);
      }
      HookPartEnds(d, Now(held), writes, refuses, done);
      HookDoneMeans(d, Now(held), writes, refuses, false);
      raised := false;
    }

    /** A deferred fan-out and the commit after it: the writes that would have gone out on the spot. */
    method SendThenCommit(messages: Write, chunkSize: int, raiseFailures: bool)
      modifies this
      ensures var size := if chunkSize < 1 then 1 else chunkSize;
              forall chunks: seq<Write> | Grouped(chunks, size) && Concat(chunks) == messages ::
                landed == old(landed) + Straight(chunks, good, refuses, old(publishes)).landed
    {
      ghost var size: nat := if chunkSize < 1 then 1 else chunkSize;
      ghost var before, k := landed, publishes;
      var ids, failed, held := SendMany(messages, chunkSize, true);
      ghost var kept := held.writes;
      var raised := RunHook(held, raiseFailures);
      forall chunks: seq<Write> | Grouped(chunks, size) && Concat(chunks) == messages
        ensures landed == before + Straight(chunks, good, refuses, k).landed
      {
        assert kept == Held(chunks, good);
        DeferredPublishesTheSame(chunks, good, refuses, k);
      }
    }
  }
}
