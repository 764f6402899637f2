/** What the event log knows about one correlation id (eventlog/outcomes.py). */
module Outcomes {
  import opened Options

  /** The kinds an outcome is decided from. */
  datatype Kind = Sent | Failed | Dropped | Queued | Consumed | Retried

  /** One row, as far as the decision reads it. `maxRetries` is whether the detail carries that key. */
  datatype Row = Row(kind: Kind, attempt: nat, error: string, errorCode: string,
                     maxRetries: bool, stage: Option<string>,
                     chat: Option<int>, message: Option<int>, messages: seq<int>, at: int)

  datatype State = SENT | FAILED | PENDING | UNKNOWN

  datatype SentMessage = SentMessage(chat: Option<int>, message: Option<int>, at: int)

  datatype Outcome = Outcome(state: State, sent: seq<SentMessage>, error: string, attempt: nat)

  /** `_cannot_come_back`. */
  predicate CannotComeBack(row: Row, queued: bool) {
    if row.maxRetries then true
    else if row.stage.Some? then row.stage.value != "queueing"
    else !queued
  }

  predicate IsEnding(row: Row, queued: bool) {
    row.kind.Failed? || (row.kind.Dropped? && CannotComeBack(row, queued))
  }

  /** The messages one sent row stands for: an album's, in the order Telegram gave them, or one. */
  function MessagesIn(row: Row): (m: seq<SentMessage>)
    ensures m != []
  {
    if row.messages != [] then
      seq(|row.messages|, i requires 0 <= i < |row.messages| => SentMessage(row.chat, Some(row.messages[i]), row.at))
    else [SentMessage(row.chat, row.message, row.at)]
  }

  predicate Has(rows: seq<Row>, kind: Kind) { exists r | r in rows :: r.kind == kind }

  function Delivered(rows: seq<Row>): seq<Row> {
    if rows == [] then [] else (if rows[0].kind.Sent? then [rows[0]] else []) + Delivered(rows[1..])
  }

  function AllMessages(rows: seq<Row>): seq<SentMessage> {
    if rows == [] then [] else MessagesIn(rows[0]) + AllMessages(rows[1..])
  }

  function FirstEnding(rows: seq<Row>, queued: bool): Option<Row> {
    if rows == [] then None else if IsEnding(rows[0], queued) then Some(rows[0]) else FirstEnding(rows[1..], queued)
  }

  /** `_decide`, the rows newest first. */
  function Decide(rows: seq<Row>): Outcome {
    var delivered := Delivered(rows);
    if delivered != [] then Outcome(SENT, AllMessages(delivered), "", delivered[0].attempt)
    else
      match FirstEnding(rows, Has(rows, Queued))
      case Some(ended) => Outcome(FAILED, [], if ended.error != "" then ended.error else ended.errorCode, ended.attempt)
      case None => if rows != [] then Outcome(PENDING, [], "", rows[0].attempt) else Outcome(UNKNOWN, [], "", 0)
  }

  // ------------------------------------------------------------------ what the walks find

  lemma {:induction false} DeliveredMeans(rows: seq<Row>)
    ensures forall r :: r in Delivered(rows) <==> r in rows && r.kind.Sent?
  {
    if rows != [] { DeliveredMeans(rows[1..]); }
  }

  /** The newest ending row, and nothing ending before it. */
  lemma {:induction false} FirstEndingMeans(rows: seq<Row>, queued: bool)
    ensures match FirstEnding(rows, queued)
            case Some(e) =>
              exists i :: 0 <= i < |rows| && rows[i] == e && IsEnding(e, queued) && NoneEnds(rows[..i], queued)
            case None => NoneEnds(rows, queued)
  {
    if rows != [] && !IsEnding(rows[0], queued) {
      FirstEndingMeans(rows[1..], queued);
      if FirstEnding(rows, queued).Some? {
        var e := FirstEnding(rows, queued).value;
        var i :| 0 <= i < |rows[1..]| && rows[1..][i] == e && IsEnding(e, queued) && NoneEnds(rows[1..][..i], queued);
        assert rows[..i + 1] == [rows[0]] + rows[1..][..i];
        assert rows[i + 1] == e && NoneEnds(rows[..i + 1], queued);
      }
    } else if rows != [] {
      assert NoneEnds(rows[..0], queued);
    }
  }

  ghost predicate NoneEnds(rows: seq<Row>, queued: bool) { forall r | r in rows :: !IsEnding(r, queued) }

  // ------------------------------------------------------------------ the state by what is there

  /** Says the message will never arrive whatever else is known: a failure, exhausted retries, or a
      loss anywhere but at the publish. */
  predicate HardEnding(row: Row) {
    row.kind.Failed? || (row.kind.Dropped? && (row.maxRetries || (row.stage.Some? && row.stage.value != "queueing")))
  }

  /** A drop at shutdown, the end only of a send that was never queued. */
  predicate SoftEnding(row: Row) { row.kind.Dropped? && !row.maxRetries && row.stage.None? }

  /** The state as the feed's contents decide it, no order in it. */
  ghost function StateOf(rows: set<Row>): State {
    if exists r | r in rows :: r.kind.Sent? then SENT
    else if (exists r | r in rows :: HardEnding(r))
            || ((exists r | r in rows :: SoftEnding(r)) && !exists r | r in rows :: r.kind.Queued?) then FAILED
    else if rows != {} then PENDING
    else UNKNOWN
  }

  ghost function Contents(rows: seq<Row>): set<Row> { set r | r in rows }

  lemma StateByContents(rows: seq<Row>)
    ensures Decide(rows).state == StateOf(Contents(rows))
  {
    var q := Has(rows, Queued);
    DeliveredMeans(rows);
    FirstEndingMeans(rows, q);
    assert forall r :: IsEnding(r, q) <==> HardEnding(r) || (SoftEnding(r) && !q);
    assert forall r :: r in Contents(rows) <==> r in rows;
    if Delivered(rows) != [] { assert Delivered(rows)[0] in Delivered(rows); }
    if rows != [] { assert rows[0] in Contents(rows); }
  }

  /** The order of the rows, and how often one is repeated, does not matter to the state. */
  lemma OrderDoesNotMatter(a: seq<Row>, b: seq<Row>)
    requires multiset(a) == multiset(b)
    ensures Decide(a).state == Decide(b).state
  {
    StateByContents(a);
    StateByContents(b);
    forall r ensures r in a <==> r in b { assert r in multiset(a) <==> r in multiset(b); }
    assert Contents(a) == Contents(b);
  }

  /** A sent row is absorbing: whatever rows join it, before or after. */
  lemma SentStays(a: seq<Row>, b: seq<Row>, c: seq<Row>)
    requires Decide(b).state == SENT
    ensures Decide(a + b + c).state == SENT
  {
    StateByContents(b);
    StateByContents(a + b + c);
    assert forall r :: r in b ==> r in a + b + c;
  }

  // ------------------------------------------------------------------ what a narrowed log costs

  /** The rows a log keeps that drops the kinds nobody needs for a right answer. */
  function Narrowed(rows: seq<Row>): seq<Row> {
    if rows == [] then []
    else (if rows[0].kind.Consumed? || rows[0].kind.Retried? then [] else [rows[0]]) + Narrowed(rows[1..])
  }

  lemma {:induction false} NarrowedHolds(rows: seq<Row>)
    ensures forall r :: r in Narrowed(rows) <==> r in rows && !r.kind.Consumed? && !r.kind.Retried?
  {
    if rows != [] {
      NarrowedHolds(rows[1..]);
      assert rows == [rows[0]] + rows[1..];
    }
  }

  lemma {:induction false} NarrowedDelivers(rows: seq<Row>)
    ensures Delivered(Narrowed(rows)) == Delivered(rows)
  {
    if rows != [] {
      NarrowedDelivers(rows[1..]);
      var rest := Narrowed(rows[1..]);
      if !rows[0].kind.Consumed? && !rows[0].kind.Retried? {
        assert Narrowed(rows)[0] == rows[0] && Narrowed(rows)[1..] == rest;
      } else {
        assert Narrowed(rows) == rest;
      }
    }
  }

  lemma {:induction false} NarrowedEnds(rows: seq<Row>, queued: bool)
    ensures FirstEnding(Narrowed(rows), queued) == FirstEnding(rows, queued)
  {
    if rows != [] {
      NarrowedEnds(rows[1..], queued);
      var rest := Narrowed(rows[1..]);
      if !rows[0].kind.Consumed? && !rows[0].kind.Retried? {
        assert Narrowed(rows)[0] == rows[0] && Narrowed(rows)[1..] == rest;
      } else {
        assert Narrowed(rows) == rest && !IsEnding(rows[0], queued);
      }
    }
  }

  /** Without `consumed` and `retried` rows an answer of sent or failed is the same to the letter, and
      the only one that moves is pending, to unknown, where those rows were all there was. */
  lemma NarrowingCostsOnlyPending(rows: seq<Row>)
    ensures var was, now := Decide(rows), Decide(Narrowed(rows));
            && (was.state == SENT || was.state == FAILED || was.state == UNKNOWN ==> now == was)
            && (was.state == PENDING ==> now.state == if Narrowed(rows) == [] then UNKNOWN else PENDING)
  {
    NarrowedHolds(rows);
    NarrowedDelivers(rows);
    NarrowedEnds(rows, Has(rows, Queued));
    assert Has(Narrowed(rows), Queued) == Has(rows, Queued);
  }

  /** A row saying the message was queued never makes one failed, and clears a failure exactly where the
      failure was a shutdown's drop of what nobody had seen queued. */
  lemma QueuedNeverFails(a: seq<Row>, queued: Row, b: seq<Row>)
    requires queued.kind.Queued?
    ensures var was, now := Decide(a + b).state, Decide(a + [queued] + b).state;
            && (now == FAILED ==> was == FAILED)
            && (now == SENT <==> was == SENT)
            && (was == FAILED ==> (now == FAILED <==> exists r | r in a + b :: HardEnding(r)))
  {
    StateByContents(a + b);
    StateByContents(a + [queued] + b);
    assert Contents(a + [queued] + b) == Contents(a + b) + {queued};
    hide Decide;
    OneQueuedMore(Contents(a + b), queued);
  }

  lemma OneQueuedMore(rows: set<Row>, queued: Row)
    requires queued.kind.Queued?
    ensures var was, now := StateOf(rows), StateOf(rows + {queued});
            && (now == FAILED ==> was == FAILED) && (now == SENT <==> was == SENT)
            && (was == FAILED ==> (now == FAILED <==> exists r | r in rows :: HardEnding(r)))
  {
    var more := rows + {queued};
    assert queued in more && !HardEnding(queued) && !SoftEnding(queued);
    assert (exists r | r in more :: r.kind.Sent?) <==> (exists r | r in rows :: r.kind.Sent?);
    assert (exists r | r in more :: HardEnding(r)) <==> (exists r | r in rows :: HardEnding(r));
  }

  /** Error and attempt are the newest qualifying row's. */
  lemma FailureSpeaksForTheNewest(rows: seq<Row>)
    requires Decide(rows).state == FAILED
    ensures var q := Has(rows, Queued);
            exists i :: 0 <= i < |rows| && IsEnding(rows[i], q) && NoneEnds(rows[..i], q)
                        && Decide(rows) == Outcome(FAILED, [],
                             if rows[i].error != "" then rows[i].error else rows[i].errorCode, rows[i].attempt)
  {
    FirstEndingMeans(rows, Has(rows, Queued));
  }

  /** A delivery's messages are the newest sent row's first, row by row, none left out. */
  lemma {:induction false} SentSpeaksForTheNewest(rows: seq<Row>, i: nat)
    requires i < |rows| && rows[i].kind.Sent? && forall r | r in rows[..i] :: !r.kind.Sent?
    ensures Decide(rows).state == SENT && Decide(rows).attempt == rows[i].attempt
    ensures Decide(rows).sent == MessagesIn(rows[i]) + AllMessages(Delivered(rows[i + 1..]))
  {
    SkipToSent(rows, i);
    assert Delivered(rows)[0] == rows[i] && Delivered(rows)[1..] == Delivered(rows[i + 1..]);
  }

  /** An album is a message an id, in the order Telegram gave them; any other sent row is one message. */
  lemma AlbumInOrder(rows: seq<Row>, i: nat)
    requires i < |rows| && rows[i].kind.Sent? && forall r | r in rows[..i] :: !r.kind.Sent?
    ensures var ids, sent := rows[i].messages, Decide(rows).sent;
            if ids == [] then sent != [] && sent[0] == SentMessage(rows[i].chat, rows[i].message, rows[i].at)
            else |sent| >= |ids| && forall k | 0 <= k < |ids| ::
                   sent[k] == SentMessage(rows[i].chat, Some(ids[k]), rows[i].at)
  {
    SentSpeaksForTheNewest(rows, i);
  }

  /** As many messages as the sent rows stand for, and no other. */
  lemma NoneLeftOut(rows: seq<Row>)
    ensures |Decide(rows).sent| == Count(rows)
  {
    DeliveredMeans(rows);
    CountDelivered(rows);
  }

  /** An id each where a sent row has ids, and one where it has none. */
  function Count(rows: seq<Row>): nat {
    if rows == [] then 0
    else Count(rows[1..]) +
         if !rows[0].kind.Sent? then 0 else if |rows[0].messages| > 0 then |rows[0].messages| else 1
  }

  lemma {:induction false} CountDelivered(rows: seq<Row>)
    ensures |AllMessages(Delivered(rows))| == Count(rows)
  {
    if rows != [] {
      CountDelivered(rows[1..]);
      if rows[0].kind.Sent? {
        assert Delivered(rows)[0] == rows[0] && Delivered(rows)[1..] == Delivered(rows[1..]);
      } else {
        assert Delivered(rows) == Delivered(rows[1..]);
      }
    }
  }

  /** With nothing sent and nothing ended the answer is the newest row's attempt, pending; with no row at all
      it is unknown. */
  lemma PendingSpeaksForTheNewest(rows: seq<Row>)
    requires Decide(rows).state != SENT && Decide(rows).state != FAILED
    ensures rows == [] ==> Decide(rows) == Outcome(UNKNOWN, [], "", 0)
    ensures rows != [] ==> Decide(rows) == Outcome(PENDING, [], "", rows[0].attempt)
  {
  }

  lemma {:induction false} SkipToSent(rows: seq<Row>, i: nat)
    requires i < |rows| && rows[i].kind.Sent? && forall r | r in rows[..i] :: !r.kind.Sent?
    ensures Delivered(rows) == [rows[i]] + Delivered(rows[i + 1..])
  {
    if i > 0 {
      assert rows[0] in rows[..i];
      forall r | r in rows[1..][..i - 1] ensures !r.kind.Sent? { assert r in rows[..i]; }
      SkipToSent(rows[1..], i - 1);
      assert rows[1..][i - 1 + 1..] == rows[i + 1..];
    }
  }
}
