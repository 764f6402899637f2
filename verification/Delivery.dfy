/** The delivery consumer (consumer/delivery.py) on its own thread, with everybody else running too.

    `Environment` is what other threads may do between two of this thread's steps: handlers'
    callbacks winning latches and queueing settlements, `serve` and `stop`. It is called wherever
    the program takes a lock, a queue operation or a call out, so what a method promises holds
    under every interleaving. A waiting loop takes how many rounds of it to observe. */
module DeliveryConsumer {
  import opened DeliveryBooks
  import opened Options

  // ------------------------------------------------------------------ what others may change

  /** A phase another thread may have moved a message to. */
  predicate Moved(p: Phase, q: Phase) {
    || q == p
    || (p.Live? && q.Settling? && q.at != Consumer && (q.how.Completed? || q.how.Refused?))
    || (p.Settling? && p.at == Callback && q == Settling(p.how, Queue))
  }

  /** Counts after `serve` calls: the old ones untouched, the new ones at zero. */
  ghost predicate Grown(before: map<string, int>, after: map<string, int>) {
    && (forall q | q in before :: q in after && after[q] == before[q])
    && (forall q | q in after && q !in before :: after[q] == 0)
  }

  ghost predicate Interfered(b: Books, c: Books) {
    && c.sending == b.sending && c.held == b.held && c.issued == b.issued
    && c.handed == b.handed && c.acks == b.acks && c.next == b.next
    && b.latched <= c.latched && b.finished <= c.finished && Grown(b.inFlight, c.inFlight)
    && c.phase.Keys == b.phase.Keys && (forall s | s in b.phase :: Moved(b.phase[s], c.phase[s]))
  }

  lemma PhaseInterferes(b: Books, s: Slot, c: Books)
    requires s in b.phase && s in c.phase && Moved(b.phase[s], c.phase[s]) && c.phase == b.phase[s := c.phase[s]]
    requires c == b.(latched := c.latched, finished := c.finished, reports := c.reports, phase := c.phase)
    requires b.latched <= c.latched && b.finished <= c.finished
    ensures Interfered(b, c)
  {
  }

  lemma ClaimInterferes(b: Books, s: Slot, delivered: bool)
    requires Reached(b) && s in b.issued && s !in b.latched
    ensures Reached(Claimed(b, s, delivered)) && Interfered(b, Claimed(b, s, delivered))
  {
    ReachedInv(b);
    assert s in b.phase && b.phase[s] == Live;
    hide Inv;
    Goes(b, Step.Claim(s, delivered));
    hide Reached;
    PhaseInterferes(b, s, Claimed(b, s, delivered));
  }

  lemma ReportInterferes(b: Books, s: Slot)
    requires Reached(b) && s in b.reports
    ensures Reached(Reported(b, s)) && Interfered(b, Reported(b, s))
  {
    ReachedInv(b);
    assert s in b.phase && b.phase[s] == Settling(HowOf(b.reports[s]), Callback);
    hide Inv;
    Goes(b, Step.Report(s));
    hide Reached;
    PhaseInterferes(b, s, Reported(b, s));
  }

  lemma WidenInterferes(b: Books, names: seq<string>)
    ensures Interfered(b, Widened(b, names)) && Interfered(b, b)
  {
    forall s | s in b.phase ensures Moved(b.phase[s], b.phase[s]) {}
  }

  lemma InterferedTwice(b: Books, c: Books, d: Books)
    requires Interfered(b, c) && Interfered(c, d)
    ensures Interfered(b, d)
  {
    forall s | s in b.phase ensures Moved(b.phase[s], d.phase[s]) {
      assert Moved(b.phase[s], c.phase[s]) && Moved(c.phase[s], d.phase[s]);
    }
  }

  /** No queue's count rose, but for `extra` on one of them. */
  ghost predicate Charged(before: map<string, int>, after: map<string, int>, q: string, extra: int) {
    && (forall x | x in before :: x in after)
    && (forall x | x in after ::
          after[x] <= (if x in before then before[x] else 0) + (if x == q then extra else 0))
  }

  /** What has ended stays ended the way it did. */
  ghost predicate Settles(before: map<Slot, Phase>, after: map<Slot, Phase>) {
    forall s | s in before && before[s].Ended? :: s in after && after[s] == before[s]
  }

  lemma ReopenSettles(phase: map<Slot, Phase>, s: Slot, p: Phase)
    requires s in phase ==> !phase[s].Ended?
    ensures Settles(phase, phase[s := p])
  {
  }

  lemma SettlesThrough(a: map<Slot, Phase>, m: map<Slot, Phase>, b: map<Slot, Phase>, c: map<Slot, Phase>, s: Slot)
    requires Settles(a, m) && Settles(m, b) && Settles(b, c)
    ensures Settles(a, c)
    ensures s in b && b[s].Ended? ==> s in c && c[s] == b[s]
  {
  }

  lemma InterferedKeeps(b: Books, c: Books)
    requires Interfered(b, c)
    ensures c.sending == b.sending && c.handed == b.handed && c.acks == b.acks && c.next == b.next
    ensures Settles(b.phase, c.phase) && Charged(b.inFlight, c.inFlight, "", 0)
    ensures forall q :: CountsBy(b.inFlight, c.inFlight, q, 0)
  {
    forall s | s in b.phase && b.phase[s].Ended? ensures c.phase[s] == b.phase[s] {
      assert Moved(b.phase[s], c.phase[s]);
    }
  }

  /** Nobody else un-ends anything. */
  lemma MoveSettles(a: map<Slot, Phase>, b: map<Slot, Phase>)
    requires forall s | s in a :: s in b && Moved(a[s], b[s])
    ensures Settles(a, b)
  {
  }

  function CountOf(counts: map<string, int>, q: string): int { if q in counts then counts[q] else 0 }

  /** Every queue's count is what it was, but for `n` more of one. */
  ghost predicate CountsBy(before: map<string, int>, after: map<string, int>, q: string, n: int) {
    forall x :: CountOf(after, x) == CountOf(before, x) + if x == q then n else 0
  }

  lemma CountsMoved(a: map<string, int>, q: string)
    ensures CountsBy(a, a, q, 0) && (q in a ==> CountsBy(a, a[q := a[q] + 1], q, 1))
  {
  }

  lemma CountsTwice(a: map<string, int>, b: map<string, int>, c: map<string, int>, q: string, m: int, n: int)
    requires CountsBy(a, b, q, m) && CountsBy(b, c, q, n)
    ensures CountsBy(a, c, q, m + n)
  {
  }

  /** What others do to the counts is nothing. */
  lemma CountsAlike(a: map<string, int>, b: map<string, int>, c: map<string, int>, q: string, n: int)
    requires forall x :: CountOf(b, x) == CountOf(a, x)
    requires CountsBy(b, c, q, n)
    ensures CountsBy(a, c, q, n)
  {
  }

  /** One send begun, and ended again or not. */
  lemma OneOrNone(a: map<Bot, int>, b: map<Bot, int>, c: map<Bot, int>, bot: Bot, over: bool)
    requires b == OneMore(a, bot) && (over ==> SendingOf(b, bot) > 0) && c == if over then OneLess(b, bot) else b
    ensures forall x :: SendingOf(c, x) == SendingOf(a, x) + if x == bot && !over then 1 else 0
  {
    CountsMove(a, bot);
    CountsMove(b, bot);
    hide OneMore, OneLess;
  }

  lemma ChargedOne(a: map<string, int>, q: string)
    requires q in a
    ensures Charged(a, a[q := a[q] + 1], q, 1)
  {
  }

  lemma AnyCharge(a: map<string, int>, b: map<string, int>, q: string)
    requires Charged(a, b, q, 0)
    ensures forall r :: Charged(a, b, r, 0)
  {
  }

  lemma SameSettles(a: map<Slot, Phase>)
    ensures Settles(a, a)
  {
  }

  lemma SettlesBoth(a: map<Slot, Phase>, b: map<Slot, Phase>, c: map<Slot, Phase>)
    requires Settles(a, b) && Settles(b, c)
    ensures Settles(a, c)
  {
  }

  lemma SameCharge(a: map<string, int>, q: string)
    ensures Charged(a, a, q, 0)
  {
  }

  lemma ChargedTwice(a: map<string, int>, b: map<string, int>, c: map<string, int>, q: string, extra: nat)
    requires Charged(a, b, q, extra) && exists r :: Charged(b, c, r, 0)
    ensures Charged(a, c, q, extra)
  {
  }

  /** One message along, the walk has the same messages before and behind it. */
  lemma OneAlong(done: seq<Slot>, waiting: seq<Slot>)
    requires waiting != []
    ensures (done + [waiting[0]]) + waiting[1..] == done + waiting && (done + waiting)[|done|] == waiting[0]
  {
  }

  /** The sends that are not over. */
  ghost function Unsettled(phase: map<Slot, Phase>): set<Slot> {
    set s | s in phase && HoldsSend(phase[s])
  }

  /** Acknowledging a message in the books is nothing to a newer one. */
  lemma NewestStays(b: Books, s: Slot)
    requires s in b.phase
    ensures forall p | Newest(b, p) :: Newest(Acked(b, s.ticket), p)
  {
  }

  /** The consumer's own settlement aside, what others moved is what others may move. */
  lemma MovedThrough(a: map<Slot, Phase>, b: map<Slot, Phase>, c: map<Slot, Phase>, s: Slot, delivered: bool)
    requires s in a && b == a[s := Settling(HowOf(delivered), Consumer)]
    requires forall t | t in b && t != s :: t in c && Moved(b[t], c[t])
    ensures forall t | t in a && t != s :: t in c && Moved(a[t], c[t])
  {
    hide Moved;
  }

  lemma SameUnsettled(phase: map<Slot, Phase>, s: Slot, p: Phase)
    requires s in phase && HoldsSend(phase[s]) && HoldsSend(p)
    ensures Unsettled(phase[s := p]) == Unsettled(phase)
  {
  }

  lemma InterferedUnsettled(b: Books, c: Books)
    requires Interfered(b, c)
    ensures Unsettled(c.phase) == Unsettled(b.phase)
  {
    forall s | s in b.phase ensures HoldsSend(b.phase[s]) == HoldsSend(c.phase[s]) {
      assert Moved(b.phase[s], c.phase[s]);
    }
  }

  /** `named_queues`: each name once, in the order first given. */
  function NamedQueues(names: seq<string>): (r: seq<string>)
    ensures forall q :: q in r <==> q in names
    ensures forall i, j | 0 <= i < j < |r| :: r[i] != r[j]
  {
    if names == [] then [] else
      var earlier, last := NamedQueues(names[..|names| - 1]), names[|names| - 1];
      if last in earlier then earlier else earlier + [last]
  }

  /** Of two names, the one whose first mention is earlier comes earlier. */
  lemma {:induction false} NamedInOrder(names: seq<string>, i: nat, j: nat)
    requires i < j < |NamedQueues(names)|
    ensures exists k ::
              0 <= k < |names| && names[k] == NamedQueues(names)[i] && NamedQueues(names)[j] !in names[..k + 1]
  {
    var n := |names| - 1;
    var most, last := NamedQueues(names[..n]), names[n];
    var k: nat;
    if j < |most| {
      NamedInOrder(names[..n], i, j);
      k :| k < n && names[..n][k] == most[i] && most[j] !in names[..n][..k + 1];
    } else {
      assert most[i] in most && most[i] in names[..n];
      k :| k < n && names[..n][k] == most[i];
      assert last !in names[..n];
    }
    assert names[..n][..k + 1] == names[..k + 1];
  }

  lemma CountsMove(sending: map<Bot, int>, bot: Bot)
    ensures forall b :: SendingOf(OneMore(sending, bot), b) == SendingOf(sending, b) + (if b == bot then 1 else 0)
    ensures SendingOf(sending, bot) > 0 ==>
              forall b :: SendingOf(OneLess(sending, bot), b) == SendingOf(sending, b) - (if b == bot then 1 else 0)
  {
  }

  lemma BeforeHandOver(b: Books, s: Slot)
    requires Reached(b) && s in b.held
    ensures s.ticket !in b.acks && s in b.phase && b.phase[s] == Waiting
  {
    ReachedInv(b);
  }

  lemma OnlyOne(b: Books, s: Slot)
    requires Reached(b) && s in b.phase
    ensures s.ticket < b.next && forall t | t in b.phase && t.ticket == s.ticket :: t == s
  {
    ReachedInv(b);
  }

  lemma IssuedLatch(b: Books, s: Slot)
    requires Reached(b) && s in b.issued
    ensures s in b.phase && (s !in b.latched ==> b.phase[s] == Live && SendingOf(b.sending, s.bot) > 0)
  {
    ReachedInv(b);
    if s !in b.latched {
      assert s in SendsOf(b.phase, s.bot);
    }
  }

  lemma PopFacts(b: Books)
    requires Reached(b) && b.finished != []
    ensures var s := b.finished[0].slot; s in b.phase && HoldsSend(b.phase[s]) && s.ticket !in b.acks
  {
    ReachedInv(b);
  }

  lemma QueuedFacts(b: Books)
    requires Reached(b)
    ensures forall i | 0 <= i < |b.finished| ::
              b.finished[i].slot in b.phase
              && b.phase[b.finished[i].slot] == Settling(HowOf(b.finished[i].delivered), Queue)
    ensures b.finished == [] ==> forall s | s in b.phase :: !Queued(b.phase[s])
  {
    ReachedInv(b);
  }

  /** A settlement still on the queue, or dealt with: slots back, and acknowledged if delivered. */
  ghost predicate Pending(e: Settled, phase: map<Slot, Phase>, acks: seq<nat>) {
    e.slot in phase && (phase[e.slot] == Settling(HowOf(e.delivered), Queue) || Dealt(e, phase, acks))
  }

  ghost predicate Dealt(e: Settled, phase: map<Slot, Phase>, acks: seq<nat>) {
    e.slot in phase && phase[e.slot] == Ended(HowOf(e.delivered)) && (e.delivered ==> e.slot.ticket in acks)
  }

  ghost predicate AllPending(owed: seq<Settled>, phase: map<Slot, Phase>, acks: seq<nat>) {
    forall i | 0 <= i < |owed| :: Pending(owed[i], phase, acks)
  }

  ghost predicate AllDealt(owed: seq<Settled>, phase: map<Slot, Phase>, acks: seq<nat>) {
    forall i | 0 <= i < |owed| :: Dealt(owed[i], phase, acks)
  }

  lemma AllOnQueue(b: Books)
    requires Reached(b)
    ensures AllPending(b.finished, b.phase, b.acks)
  {
    QueuedFacts(b);
    hide Reached;
  }

  /** What others do leaves a settlement on its queue, or dealt with. */
  lemma StayPending(owed: seq<Settled>, a: map<Slot, Phase>, b: map<Slot, Phase>, told: seq<nat>, tell: seq<nat>)
    requires AllPending(owed, a, told) && told <= tell && forall s | s in a :: s in b && Moved(a[s], b[s])
    ensures AllPending(owed, b, tell)
  {
    forall i | 0 <= i < |owed| ensures Pending(owed[i], b, tell) {
      assert Pending(owed[i], a, told);
    }
  }

  /** The consumer deals with the oldest settlement, and the others are as they were. */
  lemma OnePendingLess(owed: seq<Settled>, first: Settled, a: map<Slot, Phase>, b: map<Slot, Phase>,
                       told: seq<nat>, tell: seq<nat>)
    requires AllPending(owed, a, told) && first.slot in a && a[first.slot] == Settling(HowOf(first.delivered), Queue)
    requires Dealt(first, b, tell) && told <= tell
    requires forall s | s in a && s != first.slot :: s in b && Moved(a[s], b[s])
    ensures AllPending(owed, b, tell)
  {
    forall i | 0 <= i < |owed| ensures Pending(owed[i], b, tell) {
      assert Pending(owed[i], a, told);
    }
  }

  lemma OneStaysDealt(e: Settled, a: map<Slot, Phase>, b: map<Slot, Phase>, told: seq<nat>, tell: seq<nat>)
    requires Dealt(e, a, told) && Settles(a, b) && told <= tell
    ensures Dealt(e, b, tell)
  {
  }

  /** The oldest settlement dealt with, and the others as others may leave them. */
  lemma OneSettles(a: map<Slot, Phase>, b: map<Slot, Phase>, e: Settled)
    requires e.slot in a && a[e.slot] == Settling(HowOf(e.delivered), Queue)
    requires forall s | s in a && s != e.slot :: s in b && Moved(a[s], b[s])
    ensures Settles(a, b)
  {
  }

  /** What was settled and acknowledged stays so. */
  lemma StayDealt(owed: seq<Settled>, a: map<Slot, Phase>, b: map<Slot, Phase>, told: seq<nat>, tell: seq<nat>)
    requires AllDealt(owed, a, told) && Settles(a, b) && told <= tell
    ensures AllDealt(owed, b, tell)
  {
    forall i | 0 <= i < |owed| ensures Dealt(owed[i], b, tell) {
      assert Dealt(owed[i], a, told);
    }
  }

  lemma NoSends(b: Books)
    requires Reached(b)
    ensures b.issued == {} ==> forall bot :: SendingOf(b.sending, bot) == 0
  {
    ReachedInv(b);
    if b.issued == {} {
      forall bot ensures SendsOf(b.phase, bot) == {} {}
    }
  }

  /** The next message taken is newer than every one in the books. */
  lemma NextIsNewest(b: Books)
    requires Reached(b)
    ensures Reached(b.(next := b.next + 1))
    ensures forall bot, q | q in b.inFlight :: Newest(b.(next := b.next + 1), Slot(b.next, bot, q))
  {
    ReachedInv(b);
    hide Reached;
    Goes(b, Step.Take);
  }

  /** A message in the consumer's hands has a slot and a send to give back. */
  lemma ToGiveBack(b: Books, s: Slot)
    requires Reached(b) && s in b.phase && b.phase[s].Settling? && b.phase[s].at == Consumer
    ensures s.queue in b.inFlight && b.inFlight[s.queue] > 0 && SendingOf(b.sending, s.bot) > 0
    ensures Reached(GaveBack(b, s))
  {
    hide Reached, Inv;
    ReachedInv(b);
    GaveBackKeeps(b, s);
    Goes(b, Step.GiveBack(s));
    hide GaveBack;
  }

  // ------------------------------------------------------------------ the gate and the read

  /** `hold_for_capacity` lets the loop read: some queue served has room. */
  predicate GateOpen(counts: map<string, int>, queues: seq<string>, limit: nat)
    requires forall q | q in queues :: q in counts
  {
    limit == 0 || exists q | q in queues :: counts[q] < limit
  }

  /** A read that answered: the queues it asked for, if any, the queue the answer names, the counts when it went
      out, the lane by the time it was counted, the queue it was counted under, and whether it was a call
      with a slot to take. */
  datatype Answer = Answer(
    asked: Option<seq<string>>,
    named: string,
    counts: map<string, int>,
    lane: seq<string>,
    under: string,
    call: bool)

  /** A transport that keeps to what it was asked: a read of several queues, or of another than its own, names
      one of those asked for; a read that asks for none may name the transport's own, or nothing. */
  predicate Answers(asked: Option<seq<string>>, named: string, own: string) {
    if asked.Some? then named in asked.value else named == "" || named == own
  }

  /** The one way past a bound: a call is counted under a queue that `readable` did not name, and that queue is
      at its bound. From a transport that keeps to what it was asked, that is a read that asked for none. */
  predicate PastItsBound(a: Answer, limit: nat) {
    limit > 0 && a.call && !(a.asked.Some? && a.under in a.asked.value) && CountOf(a.counts, a.under) >= limit
  }

  /** Of these queues the ones below their bound, in their order. */
  function WithRoom(queues: seq<string>, counts: map<string, int>, limit: nat): (r: seq<string>)
    ensures forall q :: q in r <==> q in queues && (limit == 0 || CountOf(counts, q) < limit)
  {
    if queues == [] then [] else
      var earlier, last := WithRoom(queues[..|queues| - 1], counts, limit), queues[|queues| - 1];
      if limit == 0 || CountOf(counts, last) < limit then earlier + [last] else earlier
  }

  lemma NoneWithRoom(counts: map<string, int>, limit: nat)
    ensures WithRoom([], counts, limit) == []
  {
  }

  lemma OneWithRoom(all: seq<string>, i: nat, counts: map<string, int>, limit: nat)
    requires i < |all|
    ensures WithRoom(all[..i + 1], counts, limit) ==
            WithRoom(all[..i], counts, limit) + if limit == 0 || CountOf(counts, all[i]) < limit then [all[i]] else []
  {
    assert all[..i + 1][..i] == all[..i];
  }

  /** The same counts, and these queues among them. */
  ghost predicate AllAlike(all: seq<string>, a: map<string, int>, b: map<string, int>) {
    (forall q :: CountOf(b, q) == CountOf(a, q)) && forall k | 0 <= k < |all| :: all[k] in b
  }

  lemma RoomMeans(all: seq<string>, a: map<string, int>, b: map<string, int>, limit: nat)
    requires AllAlike(all, a, b)
    ensures forall q | q in WithRoom(all, a, limit) :: q in b && (limit > 0 ==> b[q] < limit)
  {
    forall q | q in WithRoom(all, a, limit) ensures q in b && (limit > 0 ==> b[q] < limit) {
      var k :| 0 <= k < |all| && all[k] == q;
      assert CountOf(b, q) == CountOf(a, q);
    }
  }

  /** What one payload turns out to be: unreadable, not an API method, not this process's bot, a call. */
  datatype Message = Unreadable(acknowledge: bool) | NotAMethod | Unserved | Call(bot: Bot)

  /** What the transport answers a read with; the queue is empty where it reads its own. */
  datatype Taken = Taken(message: Message, queue: string)

  type Transport = Option<seq<string>> -> Option<Taken>

  datatype HandlerEnd = Returned | Threw | WasCancelled

  class Delivery {
    const ownQueue: string
    const limit: nat
    const perBot: nat
    const defers: bool
    const releases: bool
    const multiplexes: bool
    /** Whether `serve` may land in the middle of a turn of the read loop. */
    const servesMidTurn: bool
    /** Whether the transport keeps to what it was asked. */
    const honest: bool
    /** How the handler ends when it is called with a message. */
    const ends: Slot -> HandlerEnd

    var queues: seq<string>
    var asked: Option<seq<string>>
    var inFlight: map<string, int>
    var sending: map<Bot, int>
    var parked: seq<Slot>
    var finished: seq<Settled>
    var issued: set<Slot>
    var latched: set<Slot>
    var reports: map<Slot, bool>
    var stopping: bool
    ghost var phase: map<Slot, Phase>
    ghost var handed: seq<Slot>
    ghost var acks: seq<nat>
    /** Whether some queue has ever been counted past its bound. */
    ghost var past: bool
    var next: nat

    /** The books, with `aside` the messages an unfinished walk of the park has set aside. */
    ghost function Now(aside: seq<Slot>): Books
      reads this`inFlight, this`sending, this`parked, this`finished, this`issued, this`latched, this`reports
      reads this`phase, this`handed, this`acks, this`next
    {
      Books(inFlight, sending, parked + aside, finished, issued, latched, reports, phase, handed, acks, next)
    }

    ghost predicate Valid(aside: seq<Slot>)
      reads this`inFlight, this`sending, this`parked, this`finished, this`issued, this`latched, this`reports
      reads this`phase, this`handed, this`acks, this`next, this`queues, this`asked
    {
      Reached(Now(aside)) && Serving() && BotsWithin() && Fitting(aside)
    }

    /** No bot is past a budget that is set. */
    ghost predicate BotsWithin()
      reads this`sending
    {
      perBot > 0 ==> forall b :: SendingOf(sending, b) <= perBot
    }

    /** Without callbacks nothing is live, and without a queue bound nothing is parked. */
    ghost predicate Fitting(aside: seq<Slot>)
      reads this`issued, this`parked
    {
      (!defers ==> issued == {}) && (!defers || limit == 0 ==> parked + aside == [])
    }

    /** What being valid says, to one who does not look into it. */
    lemma Facts(aside: seq<Slot>)
      requires Valid(aside)
      ensures Reached(Now(aside)) && Serving() && BotsWithin() && Fitting(aside)
    {
      hide Reached, Serving, BotsWithin, Fitting;
    }

    ghost predicate Serving()
      reads this`queues, this`asked, this`inFlight
    {
      && queues != [] && "" !in inFlight && (forall i | 0 <= i < |queues| :: queues[i] in inFlight)
      && asked == (if queues == [ownQueue] then None else Some(queues))
    }

    predicate AtItsOwnCapacity(bot: Bot)
      reads this`sending
    {
      perBot > 0 && SendingOf(sending, bot) >= perBot
    }

    /** A bound is set, and that queue is at it. */
    predicate Full(counts: map<string, int>, q: string) { limit > 0 && CountOf(counts, q) >= limit }

    /** One more on a queue at its bound is one past it. */
    lemma OneOver(counts: map<string, int>, q: string)
      requires q in counts
      ensures Full(counts, q) <==> limit > 0 && CountOf(counts[q := counts[q] + 1], q) > limit
    {
    }

    /** Every parked message waits for one of its own bot's sends. */
    ghost predicate NoStall()
      reads this`parked, this`sending
    {
      Stalled(parked, sending)
    }

    ghost predicate Stalled(park: seq<Slot>, sends: map<Bot, int>) {
      (park == [] || perBot > 0) && forall i | 0 <= i < |park| :: SendingOf(sends, park[i].bot) >= perBot
    }

    /** More sends leave the park stalled, and so do fewer of a bot that has nothing in it. */
    lemma StalledStill(park: seq<Slot>, sends: map<Bot, int>, after: map<Bot, int>, bot: Bot)
      requires Stalled(park, sends) && forall b | b != bot :: SendingOf(after, b) == SendingOf(sends, b)
      requires SendingOf(after, bot) >= SendingOf(sends, bot) || forall i | 0 <= i < |park| :: park[i].bot != bot
      ensures Stalled(park, after)
    {
      forall i | 0 <= i < |park| ensures SendingOf(after, park[i].bot) >= perBot {
        assert SendingOf(sends, park[i].bot) >= perBot;
        if park[i].bot != bot { assert SendingOf(after, park[i].bot) == SendingOf(sends, park[i].bot); }
      }
    }

    /** No queue is past a bound that is set. */
    ghost predicate Within()
      reads this`inFlight
    {
      limit > 0 ==> forall q | q in inFlight :: inFlight[q] <= limit
    }

    /** Built for the queues named, or for the transport's own where none is; several need multiplexing. */
    constructor (served: seq<string>, own: string, limit: nat, perBot: nat, defers: bool, releases: bool,
                 multiplexes: bool, servesMidTurn: bool, honest: bool, ends: Slot -> HandlerEnd)
      requires served != [] && "" !in served && (|served| > 1 ==> multiplexes)
      ensures Valid([]) && NoStall() && !past && Within() && handed == [] && acks == [] && next == 0
      ensures queues == served && !stopping && inFlight == map q | q in served :: 0
      ensures ownQueue == own && this.limit == limit && this.perBot == perBot && this.defers == defers
      ensures this.multiplexes == multiplexes && this.servesMidTurn == servesMidTurn && this.honest == honest
    {
      ownQueue, this.limit, this.perBot := own, limit, perBot;
      this.defers, this.releases, this.multiplexes := defers, releases, multiplexes;
      this.servesMidTurn, this.honest, this.ends := servesMidTurn, honest, ends;
      queues, asked := served, if served == [own] then None else Some(served);
      inFlight, sending, parked, finished := map q | q in served :: 0, map[], [], [];
      issued, latched, reports, stopping := {}, {}, map[], false;
      phase, handed, acks, next, past := map[], [], [], 0, false;
      new;
      hide Reached;
      ReachedFresh(served);
      assert parked + [] == [] && Now([]) == Fresh(served);
    }

    // ---------------------------------------------------------------- other threads

    /** Read exactly these queues from the next read on; a refusal changes nothing. */
    method Serve(asking: seq<string>, ghost aside: seq<Slot>) returns (refused: bool)
      requires Valid(aside) && "" !in asking
      modifies this`queues, this`asked, this`inFlight
      ensures Valid(aside)
      ensures refused <==> |NamedQueues(asking)| > 1 && !multiplexes
      ensures Now(aside) == if refused || asking == [] then old(Now(aside))
              else Widened(old(Now(aside)), NamedQueues(asking))
      ensures queues == if refused || asking == [] then old(queues) else NamedQueues(asking)
    {
      hide Reached, BotsWithin, Fitting;
      var names := NamedQueues(asking);
      refused := |names| > 1 && !multiplexes;
      if asking == [] || refused { return; }
      assert asking[0] in names;
      Goes(Now(aside), Step.Serve(names));
      WriteLane(names, (map q | q in names :: 0) + inFlight);
    }

    method WriteLane(names: seq<string>, counts: map<string, int>)
      modifies this`queues, this`asked, this`inFlight
      ensures queues == names && inFlight == counts && asked == if names == [ownQueue] then None else Some(names)
    {
      queues, inFlight, asked := names, counts, if names == [ownQueue] then None else Some(names);
    }

    /** `on_complete` or `on_refused` of a message whose latch is open: the latch. */
    method Claim(s: Slot, delivered: bool, ghost aside: seq<Slot>)
      modifies this`latched, this`reports, this`phase
      ensures Now(aside) == Claimed(old(Now(aside)), s, delivered)
    {
      latched := latched + {s};
      reports := reports[s := delivered];
      phase := phase[s := Settling(HowOf(delivered), Callback)];
    }

    /** And its put. */
    method Report(s: Slot, ghost aside: seq<Slot>)
      requires s in reports
      modifies this`finished, this`reports, this`phase
      ensures Now(aside) == Reported(old(Now(aside)), s)
    {
      phase := phase[s := Settling(HowOf(reports[s]), Queue)];
      finished := finished + [Settled(s, reports[s])];
      reports := reports - {s};
    }

    /** One step of another thread. */
    method OtherStep(ghost aside: seq<Slot>)
      requires Valid(aside)
      modifies this
      ensures Valid(aside) && parked == old(parked) && Interfered(old(Now(aside)), Now(aside))
      ensures !servesMidTurn ==> queues == old(queues) && asked == old(asked) && inFlight == old(inFlight)
      ensures past == old(past) && (old(stopping) ==> stopping)
    {
      WidenInterferes(Now(aside), []);
      hide Reached, Serving, BotsWithin, Fitting, Interfered, Claimed, Reported, Widened;
      var s: Slot := *;
      var delivered: bool := *;
      var choice: nat := *;
      if choice == 0 && s in issued && s !in latched && (delivered || releases) {
        ClaimInterferes(Now(aside), s, delivered);
        Claim(s, delivered, aside);
      } else if choice == 1 && s in reports {
        ReportInterferes(Now(aside), s);
        Report(s, aside);
      } else if choice == 2 && servesMidTurn {
        var names: seq<string> := *;
        if "" !in names {
          WidenInterferes(Now(aside), NamedQueues(names));
          var _ := Serve(names, aside);
        }
      } else if choice == 3 {
        stopping := true;
      }
    }

    /** Any number of other threads' steps. */
    method Environment(ghost aside: seq<Slot>)
      requires Valid(aside)
      modifies this
      ensures Valid(aside) && parked == old(parked) && Interfered(old(Now(aside)), Now(aside))
      ensures !servesMidTurn ==> queues == old(queues) && asked == old(asked) && inFlight == old(inFlight)
      ensures past == old(past) && (old(stopping) ==> stopping)
    {
      var steps :| 0 <= steps;
      for i := 0 to steps
        invariant Valid(aside) && parked == old(parked) && Interfered(old(Now(aside)), Now(aside))
        invariant !servesMidTurn ==> queues == old(queues) && asked == old(asked) && inFlight == old(inFlight)
        invariant past == old(past) && (old(stopping) ==> stopping)
      {
        ghost var before := Now(aside);
        OtherStep(aside);
        InterferedTwice(old(Now(aside)), before, Now(aside));
      }
    }

    // ---------------------------------------------------------------- settling

    /** `_took_a_slot_back`, for a message the consumer has in hand. */
    method TookASlotBack(s: Slot, ghost aside: seq<Slot>)
      requires Valid(aside) && s in phase && phase[s].Settling? && phase[s].at == Consumer
      modifies this`inFlight, this`sending, this`phase
      ensures Valid(aside) && s.queue in old(inFlight) && Now(aside) == GaveBack(old(Now(aside)), s)
      ensures inFlight[s.queue] >= 0
    {
      hide Reached;
      ToGiveBack(Now(aside), s);
      CountsMove(sending, s.bot);
      inFlight := inFlight[s.queue := inFlight[s.queue] - 1];
      sending := OneLess(sending, s.bot);
      phase := phase[s := Ended(phase[s].how)];
    }

    /** `acknowledge`. */
    method Acknowledge(ticket: nat, ghost aside: seq<Slot>)
      requires Valid(aside) && Ackable(ticket)
      modifies this`acks
      ensures Valid(aside) && acks == old(acks) + [ticket]
    {
      hide Reached;
      Goes(Now(aside), Step.Acknowledge(ticket));
      acks := acks + [ticket];
    }

    /** A taken message that may be acknowledged and has not been. */
    ghost predicate Ackable(ticket: nat)
      reads this`next, this`acks, this`phase
    {
      && ticket < next && ticket !in acks
      && forall s | s in phase && s.ticket == ticket :: MayAck(phase[s])
    }

    // ---------------------------------------------------------------- handing over

    /** What a hand-over to a deferring handler moves before the handler runs: both counts. */
    method BeginNew(p: Slot)
      requires defers && Ready(p, false, [])
      modifies this`inFlight, this`sending, this`issued, this`phase, this`handed, this`past
      ensures past == (old(past) || Full(old(inFlight), p.queue))
      ensures Full(old(inFlight), p.queue) <==> limit > 0 && CountOf(inFlight, p.queue) > limit
      ensures Valid([]) && NoStall() && forall i | 0 <= i < |parked| :: parked[i].bot != p.bot
      ensures sending == OneMore(old(sending), p.bot) && issued == old(issued) + {p}
      ensures phase == old(phase)[p := Live] && handed == old(handed) + [p]
      ensures Charged(old(inFlight), inFlight, p.queue, 1) && p.queue in old(inFlight)
      ensures inFlight == old(inFlight)[p.queue := old(inFlight)[p.queue] + 1]
    {
      hide *;
      CanHandNew(p);
      ChargedOne(inFlight, p.queue);
      past := past || Full(inFlight, p.queue);
      OneOver(inFlight, p.queue);
      WriteNew(p);
      ValidAgain();
    }

    /** A message just taken, its bot with room: nothing of that bot's is parked, and the step may be taken. */
    lemma CanHandNew(p: Slot)
      requires defers && Ready(p, false, [])
      ensures Serving() && p.queue in inFlight && Reached(HandedNew(Now([]), p)) && BotsWithin()
      ensures NoStall() && !AtItsOwnCapacity(p.bot)
      ensures forall i | 0 <= i < |parked| :: parked[i].bot != p.bot
      ensures limit == 0 ==> parked == []
    {
      assert parked + [] == parked;
      hide Reached, Serving, BotsWithin;
      Goes(Now([]), HandNew(p));
    }

    /** And what it leaves is valid again. */
    lemma ValidAgain()
      requires Reached(Now([])) && defers && Serving() && BotsWithin() && (limit == 0 ==> parked == [])
      ensures Valid([])
    {
      hide Reached, Serving, BotsWithin;
    }

    method WriteNew(p: Slot)
      requires p.queue in inFlight
      modifies this`inFlight, this`sending, this`issued, this`phase, this`handed
      ensures inFlight == old(inFlight)[p.queue := old(inFlight)[p.queue] + 1]
              && sending == OneMore(old(sending), p.bot)
      ensures issued == old(issued) + {p} && phase == old(phase)[p := Live] && handed == old(handed) + [p]
      ensures old(BotsWithin()) && !old(AtItsOwnCapacity(p.bot)) ==> BotsWithin()
      ensures (old(NoStall()) ==> NoStall()) && (old(Serving()) ==> Serving())
      ensures Now([]) == HandedNew(old(Now([])), p)
    {
      hide Reached, OneMore, NoStall, AtItsOwnCapacity, BotsWithin;
      WriteHand(p);
      inFlight := inFlight[p.queue := inFlight[p.queue] + 1];
    }

    method WriteHand(p: Slot)
      modifies this`sending, this`issued, this`phase, this`handed
      ensures sending == OneMore(old(sending), p.bot)
      ensures issued == old(issued) + {p} && phase == old(phase)[p := Live] && handed == old(handed) + [p]
      ensures old(BotsWithin()) && !old(AtItsOwnCapacity(p.bot)) ==> BotsWithin()
      ensures old(NoStall()) ==> NoStall()
    {
      CountsMove(sending, p.bot);
      if Stalled(parked, sending) { StalledStill(parked, sending, OneMore(sending, p.bot), p.bot); }
      sending := OneMore(sending, p.bot);
      issued, phase, handed := issued + {p}, phase[p := Live], handed + [p];
    }

    /** And only the bot's own count for a message off the park, which holds its queue's slot already. */
    method BeginParked(p: Slot, ghost aside: seq<Slot>)
      requires defers && Ready(p, true, aside)
      modifies this`sending, this`issued, this`phase, this`handed
      ensures Valid(aside) && NoStall() && forall i | 0 <= i < |parked| :: parked[i].bot != p.bot
      ensures sending == OneMore(old(sending), p.bot) && issued == old(issued) + {p}
      ensures phase == old(phase)[p := Live] && handed == old(handed) + [p]
    {
      CanHandParked(p, aside);
      hide Reached, Serving, BotsWithin, Ready, NoStall, AtItsOwnCapacity, OneMore;
      WriteHand(p);
    }

    /** A message off the park, its bot with room: the step may be taken, and nothing of that bot's is before it. */
    lemma CanHandParked(p: Slot, aside: seq<Slot>)
      requires defers && Ready(p, true, aside)
      ensures Serving() && BotsWithin() && NoStall() && !AtItsOwnCapacity(p.bot) && limit > 0
      ensures Reached(Now(aside).(sending := OneMore(sending, p.bot), issued := issued + {p},
                                  phase := phase[p := Live], handed := handed + [p]))
      ensures forall i | 0 <= i < |parked| :: parked[i].bot != p.bot
    {
      ghost var b := Now([p] + aside);
      assert b.held == parked + [p] + aside && b.held[|parked|] == p;
      assert b.held[..|parked|] + b.held[|parked| + 1..] == parked + aside;
      hide Reached, Serving, BotsWithin, OneMore;
      Goes(b, HandParked(|parked|));
    }

    /** A message that may be handed over: just taken, or off the park and still holding its slot. */
    ghost predicate Ready(p: Slot, counted: bool, aside: seq<Slot>)
      reads this`inFlight, this`sending, this`parked, this`finished, this`issued, this`latched, this`reports
      reads this`phase, this`handed, this`acks, this`next, this`queues, this`asked
    {
      && NoStall() && !AtItsOwnCapacity(p.bot)
      && if counted then Valid([p] + aside) else Valid(aside) && aside == [] && Newest(Now(aside), p)
    }

    /** A callback of this message has won its latch, and `collect` has yet to see it. */
    ghost predicate Told(p: Slot)
      reads this`reports, this`finished
    {
      p in reports || Settled(p, true) in finished || Settled(p, false) in finished
    }

    /** Whether a message handed over may be acknowledged there and then. With callbacks: only where the handler
        raised and none of them had been called. Without: unless it was cancelled. */
    ghost predicate Yes(p: Slot)
      reads this`reports, this`finished
    {
      if defers then ends(p) == Threw && !Told(p) else ends(p) != WasCancelled
    }

    /** Whether it holds its slots after that: it was handed on, or a callback has it. */
    ghost predicate StillHeld(p: Slot)
      reads this`reports, this`finished
    {
      defers && (ends(p) == Returned || Told(p))
    }

    /** A message handed on is reported exactly while a callback, or the queue of finished sends, has it. */
    lemma ReportedIs(aside: seq<Slot>, p: Slot)
      requires Valid(aside) && p in phase && !(phase[p].Settling? && phase[p].at == Consumer)
      ensures Told(p) <==> phase[p].Settling?
    {
      ReachedInv(Now(aside));
      hide Reached;
      if phase[p].Settling? && phase[p].at == Queue {
        var i :| 0 <= i < |finished| && finished[i].slot == p;
        assert finished[i] == Settled(p, finished[i].delivered);
      }
    }

    /** `_hand_over`: call the handler, and say whether the message may be acknowledged.

        The park is as it was afterwards, although the exception paths walk it again. */
    method HandOver(p: Slot, counted: bool, ghost aside: seq<Slot>) returns (ack: bool)
      requires Ready(p, counted, aside)
      modifies this
      ensures Valid(aside) && NoStall() && parked == old(parked)
      ensures handed == old(handed) + [p] && acks == old(acks) && next == old(next)
      ensures forall b :: SendingOf(sending, b) >= SendingOf(old(sending), b)
      ensures p in phase && (ack <==> MayAck(phase[p])) && (ack ==> Ackable(p.ticket)) && Settles(old(phase), phase)
      ensures ack <==> Yes(p)
      ensures forall b :: SendingOf(sending, b) ==
                          SendingOf(old(sending), b) + if b == p.bot && StillHeld(p) then 1 else 0
      ensures CountsBy(old(inFlight), inFlight, p.queue,
                       (if counted || !defers then 0 else 1) - (if defers && !StillHeld(p) then 1 else 0))
      ensures Charged(old(inFlight), inFlight, p.queue, if counted || !defers then 0 else 1)
      ensures !servesMidTurn ==> queues == old(queues) && asked == old(asked)
      ensures past == (old(past) || (!counted && defers && Full(old(inFlight), p.queue)))
              && (old(stopping) ==> stopping)
      decreases |parked|, 3, 0
    {
      hide *;
      HeldOrYes(p);
      if !defers {
        PlainReady(p, counted, aside);
        ack := CallPlain(p);
        SameSends(old(sending));
      } else {
        ack := HandOn(p, counted, aside);
      }
      HeldOrYes(p);
    }

    lemma SameSends(before: map<Bot, int>)
      requires sending == before
      ensures forall b :: SendingOf(sending, b) == SendingOf(before, b)
    {
    }

    /** With callbacks: counted, called, and given up where it failed with none of them called. */
    method HandOn(p: Slot, counted: bool, ghost aside: seq<Slot>) returns (ack: bool)
      requires defers && Ready(p, counted, aside)
      modifies this
      ensures Valid(aside) && NoStall() && parked == old(parked)
      ensures handed == old(handed) + [p] && acks == old(acks) && next == old(next)
      ensures p in phase && (ack <==> MayAck(phase[p])) && (ack ==> Ackable(p.ticket)) && Settles(old(phase), phase)
      ensures ack <==> ends(p) == Threw && !Told(p)
      ensures forall b :: SendingOf(sending, b) ==
                          SendingOf(old(sending), b) + if b == p.bot && (ends(p) == Returned || Told(p)) then 1 else 0
      ensures CountsBy(old(inFlight), inFlight, p.queue,
                       (if counted then 0 else 1) - (if ends(p) != Returned && !Told(p) then 1 else 0))
      ensures Charged(old(inFlight), inFlight, p.queue, if counted then 0 else 1)
      ensures !servesMidTurn ==> queues == old(queues) && asked == old(asked)
      ensures past == (old(past) || (!counted && Full(old(inFlight), p.queue)))
              && (old(stopping) ==> stopping)
      decreases |parked|, 2, 1
    {
      hide *;
      Begin(p, counted, aside);
      ghost var counts, phases, sends := inFlight, phase, sending;
      ack := CallDeferring(p, aside);
      ghost var over := ends(p) != Returned && !Told(p);
      OneOrNone(old(sending), sends, sending, p.bot, over);
      CountsTwice(old(inFlight), counts, inFlight, p.queue, if counted then 0 else 1, if over then -1 else 0);
      ChargedTwice(old(inFlight), counts, inFlight, p.queue, if counted then 0 else 1);
      SettlesBoth(old(phase), phases, phase);
    }

    lemma HeldOrYes(p: Slot)
      ensures Yes(p) <==> if defers then ends(p) == Threw && !Told(p) else ends(p) != WasCancelled
      ensures StillHeld(p) <==> defers && (ends(p) == Returned || Told(p))
    {
    }

    /** What is counted before a deferring handler is called. */
    method Begin(p: Slot, counted: bool, ghost aside: seq<Slot>)
      requires defers && Ready(p, counted, aside)
      modifies this`inFlight, this`sending, this`issued, this`phase, this`handed, this`past
      ensures Valid(aside) && NoStall() && forall i | 0 <= i < |parked| :: parked[i].bot != p.bot
      ensures sending == OneMore(old(sending), p.bot) && p in issued && handed == old(handed) + [p]
      ensures p in phase && phase[p] == Live && p.ticket !in acks && Settles(old(phase), phase)
      ensures Charged(old(inFlight), inFlight, p.queue, if counted then 0 else 1)
      ensures CountsBy(old(inFlight), inFlight, p.queue, if counted then 0 else 1)
      ensures past == (old(past) || (!counted && Full(old(inFlight), p.queue)))
    {
      hide *;
      TicketNew(p, counted, aside);
      ReopenSettles(phase, p, Live);
      SameCharge(inFlight, p.queue);
      BareReady(p, counted, aside);
      CountsMoved(inFlight, p.queue);
      if counted { BeginParked(p, aside); } else { BeginNew(p); }
    }

    /** A message just taken is handed over with nothing set aside. */
    lemma BareReady(p: Slot, counted: bool, aside: seq<Slot>)
      requires Ready(p, counted, aside)
      ensures !counted ==> aside == [] && Ready(p, false, [])
      ensures counted ==> Ready(p, true, aside)
    {
      hide Valid, Newest, NoStall, AtItsOwnCapacity;
    }

    /** Without callbacks nothing is ever parked, so what is handed over was just taken. */
    lemma PlainReady(p: Slot, counted: bool, aside: seq<Slot>)
      requires Ready(p, counted, aside) && !defers
      ensures !counted && aside == [] && Valid([]) && Newest(Now([]), p)
    {
      hide Reached, Serving, BotsWithin;
      assert counted ==> |parked + ([p] + aside)| > 0;
    }

    /** Whatever is handed over has not been acknowledged. */
    lemma TicketNew(p: Slot, counted: bool, aside: seq<Slot>)
      requires Ready(p, counted, aside)
      ensures p.ticket !in acks && (p in phase ==> !phase[p].Ended?)
    {
      hide Reached, Serving, BotsWithin, Fitting;
      if counted {
        assert (parked + ([p] + aside))[|parked|] == p;
        BeforeHandOver(Now([p] + aside), p);
      }
    }

    /** The call itself, and what an exception out of it settles. */
    method CallDeferring(p: Slot, ghost aside: seq<Slot>) returns (ack: bool)
      requires Valid(aside) && NoStall() && p in issued && p in phase && phase[p] == Live && p.ticket !in acks
      requires forall i | 0 <= i < |parked| :: parked[i].bot != p.bot
      modifies this
      ensures Valid(aside) && NoStall() && parked == old(parked)
      ensures handed == old(handed) && acks == old(acks) && next == old(next)
      ensures ends(p) == Returned || Told(p) || SendingOf(old(sending), p.bot) > 0
      ensures p in phase && (ack <==> MayAck(phase[p])) && (ack ==> Ackable(p.ticket)) && Settles(old(phase), phase)
      ensures ack <==> ends(p) == Threw && !Told(p)
      ensures sending == if ends(p) != Returned && !Told(p) then OneLess(old(sending), p.bot) else old(sending)
      ensures CountsBy(old(inFlight), inFlight, p.queue, if ends(p) != Returned && !Told(p) then -1 else 0)
      ensures Charged(old(inFlight), inFlight, p.queue, 0)
      ensures !servesMidTurn ==> queues == old(queues) && asked == old(asked)
      ensures past == old(past) && (old(stopping) ==> stopping)
      decreases |parked|, 2, 0
    {
      hide Reached, Serving, BotsWithin, Fitting, Valid, NoStall, OneLess, Newest, Charged, CountsBy, Settles;
      hide Unsettled;
      LetOthersRun(aside);
      assert Moved(Live, phase[p]);
      if ends(p) == Returned { SameSettles(phase); }
      SameCharge(inFlight, p.queue);
      ghost var counts, phases := inFlight, phase;
      ack := false;
      if ends(p) == Returned {
        CountsMoved(inFlight, p.queue);
      } else {
        ack := Fails(p, aside);
      }
      CountsAlike(old(inFlight), counts, inFlight, p.queue, if ends(p) != Returned && !Told(p) then -1 else 0);
      AnyCharge(old(inFlight), counts, "");
      ChargedTwice(old(inFlight), counts, inFlight, p.queue, 0);
      MoveSettles(old(phase), phases);
      SettlesBoth(old(phase), phases, phase);
    }

    /** An exception out of the handler, which may have called one of its callbacks before. */
    method Fails(p: Slot, ghost aside: seq<Slot>) returns (ack: bool)
      requires Valid(aside) && NoStall() && p in issued && p in phase && Moved(Live, phase[p]) && p.ticket !in acks
      requires ends(p) != Returned && forall i | 0 <= i < |parked| :: parked[i].bot != p.bot
      modifies this
      ensures Valid(aside) && NoStall() && parked == old(parked)
      ensures handed == old(handed) && acks == old(acks) && next == old(next)
      ensures Told(p) || SendingOf(old(sending), p.bot) > 0
      ensures sending == if Told(p) then old(sending) else OneLess(old(sending), p.bot)
      ensures p in phase && (ack <==> MayAck(phase[p])) && (ack ==> Ackable(p.ticket)) && Settles(old(phase), phase)
      ensures ack <==> ends(p) == Threw && !Told(p)
      ensures CountsBy(old(inFlight), inFlight, p.queue, if Told(p) then 0 else -1)
      ensures Charged(old(inFlight), inFlight, p.queue, 0)
      ensures !servesMidTurn ==> queues == old(queues) && asked == old(asked)
      ensures past == old(past) && (old(stopping) ==> stopping)
      decreases |parked|, 1, 1
    {
      LatchIs(aside, p);
      hide Reached, Serving, BotsWithin, Fitting, Valid, NoStall, OneLess, Charged, CountsBy, Settles, Told;
      var ours := GiveUp(p, if ends(p) == Threw then Raised else Cancelled, aside);
      ack := ours && ends(p) == Threw;
      Facts(aside);
      OnlyOne(Now(aside), p);
      ReportedIs(aside, p);
    }

    /** A latch is open exactly while its message is live. */
    lemma LatchIs(aside: seq<Slot>, p: Slot)
      requires Valid(aside) && p in issued
      ensures p in phase && (p in latched <==> phase[p] != Live)
    {
      ReachedInv(Now(aside));
      hide Reached;
    }

    /** `Environment`, said in fields: what a call into the handler leaves of this thread's own. */
    method LetOthersRun(ghost aside: seq<Slot>)
      requires Valid(aside)
      modifies this
      ensures Valid(aside) && parked == old(parked) && sending == old(sending) && issued == old(issued)
      ensures handed == old(handed) && acks == old(acks) && next == old(next)
      ensures phase.Keys == old(phase).Keys && Charged(old(inFlight), inFlight, "", 0)
      ensures forall q :: CountOf(inFlight, q) == CountOf(old(inFlight), q)
      ensures forall s | s in old(phase) :: s in phase && Moved(old(phase)[s], phase[s])
      ensures Unsettled(phase) == Unsettled(old(phase))
      ensures forall p | Newest(old(Now(aside)), p) :: Newest(Now(aside), p)
      ensures !servesMidTurn ==> queues == old(queues) && asked == old(asked)
      ensures past == old(past) && (old(stopping) ==> stopping) && old(finished) <= finished
    {
      hide Reached;
      Environment(aside);
      InterferedUnsettled(old(Now(aside)), Now(aside));
    }

    /** A handler that takes no callback: acknowledged once it returns or raises, not if cancelled. */
    method CallPlain(p: Slot) returns (ack: bool)
      requires !defers && Valid([]) && Newest(Now([]), p)
      modifies this
      ensures Valid([]) && NoStall() && parked == old(parked)
      ensures handed == old(handed) + [p] && acks == old(acks) && next == old(next) && sending == old(sending)
      ensures p in phase && (ack <==> MayAck(phase[p])) && (ack ==> Ackable(p.ticket)) && Settles(old(phase), phase)
      ensures (ack <==> ends(p) != WasCancelled) && CountsBy(old(inFlight), inFlight, p.queue, 0)
      ensures Charged(old(inFlight), inFlight, p.queue, 0) && Charged(old(inFlight), inFlight, p.queue, 1)
      ensures !servesMidTurn ==> queues == old(queues) && asked == old(asked)
      ensures past == old(past) && (old(stopping) ==> stopping)
    {
      hide Reached, Serving, BotsWithin;
      ghost var was := Now([]);
      Environment([]);
      InterferedKeeps(was, Now([]));
      ghost var how := if ends(p) == Returned then Completed else if ends(p) == Threw then Raised else Cancelled;
      hide Interfered, Charged;
      PlainEnds(p, how);
      ack := ends(p) != WasCancelled;
    }

    /** The call over and done with, nothing having been counted. */
    ghost method PlainEnds(p: Slot, how: How)
      requires !defers && Valid([]) && Newest(Now([]), p)
      modifies this`phase, this`handed
      ensures Valid([]) && phase == old(phase)[p := Ended(how)] && handed == old(handed) + [p]
      ensures p !in old(phase) && (how.Completed? || how.Raised? ==> Ackable(p.ticket))
    {
      assert parked + [] == parked;
      Goes(Now([]), HandPlain(p, how));
      hide Reached, Serving, BotsWithin;
      phase, handed := phase[p := Ended(how)], handed + [p];
      OnlyOne(Now([]), p);
    }

    /** The exception paths: give the slots back where nothing has settled the message already. */
    method GiveUp(p: Slot, how: How, ghost aside: seq<Slot>) returns (ours: bool)
      requires Valid(aside) && NoStall() && p in issued && p in phase && !phase[p].Ended?
      requires forall i | 0 <= i < |parked| :: parked[i].bot != p.bot
      modifies this
      ensures Valid(aside) && NoStall() && parked == old(parked)
      ensures handed == old(handed) && acks == old(acks) && next == old(next)
      ensures sending == if ours then OneLess(old(sending), p.bot) else old(sending)
      ensures ours ==> SendingOf(old(sending), p.bot) > 0
      ensures p in phase && (if ours then phase[p] == Ended(how) else phase == old(phase)) && Settles(old(phase), phase)
      ensures ours <==> p !in old(latched)
      ensures CountsBy(old(inFlight), inFlight, p.queue, if ours then -1 else 0)
      ensures Charged(old(inFlight), inFlight, p.queue, 0)
      ensures !servesMidTurn ==> queues == old(queues) && asked == old(asked)
      ensures past == old(past) && (old(stopping) ==> stopping)
      decreases |parked|, 1, 0
    {
      Facts(aside);
      IssuedLatch(Now(aside), p);
      hide *;
      ours := p !in latched;
      if !ours {
        SameCharge(inFlight, p.queue);
        CountsMoved(inFlight, p.queue);
        SameSettles(phase);
        return;
      }
      CatchIt(p, how, aside);
      ghost var caught := phase;
      ReturnAndWalk(p, how, aside);
      SettlesThrough(old(phase), caught, phase, phase, p);
    }

    /** The slots go back, and whatever they made room for is looked for: there is none. */
    method ReturnAndWalk(p: Slot, how: How, ghost aside: seq<Slot>)
      requires Valid(aside) && NoStall() && p in phase && phase[p] == Settling(how, Consumer)
      requires forall i | 0 <= i < |parked| :: parked[i].bot != p.bot
      modifies this
      ensures Valid(aside) && NoStall() && parked == old(parked)
      ensures handed == old(handed) && acks == old(acks) && next == old(next)
      ensures sending == OneLess(old(sending), p.bot) && SendingOf(old(sending), p.bot) > 0
      ensures p in phase && phase[p] == Ended(how) && Settles(old(phase), phase) && Settles(phase, phase)
      ensures CountsBy(old(inFlight), inFlight, p.queue, -1)
      ensures Charged(old(inFlight), inFlight, p.queue, 0)
      ensures !servesMidTurn ==> queues == old(queues) && asked == old(asked)
      ensures past == old(past) && (old(stopping) ==> stopping)
      decreases |parked|, 0, 1
    {
      hide Reached, Serving, BotsWithin, Fitting, Valid, Charged, OneLess, Settles, Interfered, CountsBy;
      ReturnSlots(p, how, aside);
      StalledStill(parked, old(sending), sending, p.bot);
      ghost var returned := Now(aside);
      HandOverParked(aside);
      InterferedKeeps(returned, Now(aside));
      CountsTwice(old(inFlight), returned.inFlight, inFlight, p.queue, -1, 0);
      ChargedTwice(old(inFlight), returned.inFlight, inFlight, p.queue, 0);
      SettlesThrough(old(phase), old(phase), returned.phase, phase, p);
      SameSettles(phase);
    }

    /** The exception path wins the latch. */
    method CatchIt(p: Slot, how: How, ghost aside: seq<Slot>)
      requires Valid(aside) && p in issued && p !in latched && p in phase && !phase[p].Ended?
      modifies this`latched, this`phase
      ensures Valid(aside) && latched == old(latched) + {p} && phase == old(phase)[p := Settling(how, Consumer)]
      ensures Settles(old(phase), phase)
    {
      Goes(Now(aside), Catch(p, how));
      ReopenSettles(phase, p, Settling(how, Consumer));
      hide Reached, Serving, BotsWithin, Fitting;
      latched, phase := latched + {p}, phase[p := Settling(how, Consumer)];
    }

    /** The latch won, the slots go back. */
    method ReturnSlots(p: Slot, how: How, ghost aside: seq<Slot>)
      requires Valid(aside) && p in phase && phase[p] == Settling(how, Consumer)
      modifies this
      ensures Valid(aside) && parked == old(parked) && sending == OneLess(old(sending), p.bot)
      ensures handed == old(handed) && acks == old(acks) && next == old(next)
      ensures SendingOf(old(sending), p.bot) > 0
      ensures forall b | b != p.bot :: SendingOf(sending, b) == SendingOf(old(sending), b)
      ensures p in phase && phase[p] == Ended(how) && phase.Keys == old(phase).Keys
      ensures forall s | s in old(phase) && s != p :: s in phase && Moved(old(phase)[s], phase[s])
      ensures Settles(old(phase), phase)
      ensures |Unsettled(phase)| < |Unsettled(old(phase))|
      ensures forall s | Newest(old(Now(aside)), s) :: Newest(Now(aside), s)
      ensures CountsBy(old(inFlight), inFlight, p.queue, -1)
      ensures Charged(old(inFlight), inFlight, p.queue, 0) && Charged(old(inFlight), inFlight, "", 0)
      ensures !servesMidTurn ==> queues == old(queues) && asked == old(asked)
      ensures past == old(past) && (old(stopping) ==> stopping)
    {
      hide Reached, Serving, BotsWithin, Fitting, Valid, OneLess, Charged, Unsettled, Newest, SendingOf, Settles;
      LetOthersRun(aside);
      assert Moved(Settling(how, Consumer), phase[p]);
      MoveSettles(old(phase), phase);
      ghost var counts, phases := inFlight, phase;
      GiveItBack(p, how, aside);
      CountsAlike(old(inFlight), counts, inFlight, p.queue, -1);
      AnyCharge(old(inFlight), counts, "");
      ChargedTwice(old(inFlight), counts, inFlight, "", 0);
      AnyCharge(old(inFlight), inFlight, "");
      SettlesBoth(old(phase), phases, phase);
    }

    method GiveItBack(p: Slot, how: How, ghost aside: seq<Slot>)
      requires Valid(aside) && p in phase && phase[p] == Settling(how, Consumer)
      modifies this`inFlight, this`sending, this`phase
      ensures Valid(aside) && sending == OneLess(old(sending), p.bot) && phase == old(phase)[p := Ended(how)]
      ensures SendingOf(old(sending), p.bot) > 0
      ensures forall b | b != p.bot :: SendingOf(sending, b) == SendingOf(old(sending), b)
      ensures |Unsettled(phase)| < |Unsettled(old(phase))| && Settles(old(phase), phase)
      ensures forall s | Newest(old(Now(aside)), s) :: Newest(Now(aside), s)
      ensures Charged(old(inFlight), inFlight, "", 0) && CountsBy(old(inFlight), inFlight, p.queue, -1)
    {
      hide Reached, Serving, BotsWithin, Fitting, Valid, OneLess;
      Facts(aside);
      ToGiveBack(Now(aside), p);
      CountsMove(sending, p.bot);
      assert Unsettled(phase[p := Ended(how)]) == Unsettled(phase) - {p} && p in Unsettled(phase);
      TookASlotBack(p, aside);
    }

    /** `_hand_over_parked`: hand over every parked message whose bot has room, oldest first.

        Where every parked message's bot is at its budget, as on every re-entrant walk, it hands
        over nothing at all. */
    method HandOverParked(ghost aside: seq<Slot>)
      requires Valid(aside)
      modifies this
      ensures Valid(aside) && NoStall()
      ensures old(NoStall()) ==> parked == old(parked) && Interfered(old(Now(aside)), Now(aside))
      ensures old(handed) <= handed && old(acks) <= acks && next == old(next) && Settles(old(phase), phase)
      ensures Charged(old(inFlight), inFlight, "", 0)
      ensures !servesMidTurn ==> queues == old(queues) && asked == old(asked)
      ensures past == old(past) && (old(stopping) ==> stopping)
      decreases |parked|, 0, 0
    {
      hide *;
      if parked == [] { StartWalk(old(Now(aside)), aside); return; }
      var waiting := LiftPark(aside);
      StartWalk(old(Now(aside)), waiting + aside);
      while waiting != []
        invariant Valid(waiting + aside) && NoStall() && |parked| + |waiting| <= |old(parked)|
        invariant old(NoStall()) ==> Unmoved(old(Now(aside)), old(parked), waiting, aside)
        invariant old(handed) <= handed && old(acks) <= acks && next == old(next) && Settles(old(phase), phase)
        invariant Charged(old(inFlight), inFlight, "", 0)
        invariant !servesMidTurn ==> queues == old(queues) && asked == old(asked)
        invariant past == old(past) && (old(stopping) ==> stopping)
        decreases |waiting|
      {
        ghost var counts, phases := inFlight, phase;
        waiting := WalkOne(waiting, aside);
        ChargedTwice(old(inFlight), counts, inFlight, "", 0);
        SettlesBoth(old(phase), phases, phase);
      }
      assert waiting + aside == aside;
      if old(NoStall()) { EndWalk(old(Now(aside)), old(parked), aside); }
    }

    /** A walk that has handed nothing over: the park is what is done and what is ahead, its bots at their budget. */
    ghost predicate Unmoved(b: Books, park: seq<Slot>, waiting: seq<Slot>, aside: seq<Slot>)
      reads this
    {
      parked + waiting == park && Stalled(park, sending) && Interfered(b, Now(waiting + aside))
    }

    lemma IsStuck(b: Books, park: seq<Slot>, waiting: seq<Slot>, aside: seq<Slot>)
      requires waiting != [] && Unmoved(b, park, waiting, aside)
      ensures AtItsOwnCapacity(waiting[0].bot)
    {
      hide Interfered;
      assert park[|parked|] == waiting[0];
    }

    lemma StaysStuck(b: Books, park: seq<Slot>, before: seq<Slot>, now: Books, waiting: seq<Slot>, aside: seq<Slot>)
      requires waiting != [] && before + waiting == park && parked == before + [waiting[0]]
      requires Stalled(park, sending) && Interfered(b, now) && Now(waiting[1..] + aside) == now
      ensures Unmoved(b, park, waiting[1..], aside)
    {
      hide Interfered, Stalled;
      OneAlong(before, waiting);
    }

    lemma EndWalk(b: Books, park: seq<Slot>, aside: seq<Slot>)
      requires Unmoved(b, park, [], aside)
      ensures parked == park && Interfered(b, Now(aside))
    {
      hide Interfered, Stalled;
      assert [] + aside == aside && parked + [] == parked;
    }

    /** The walk has begun with nothing changed. */
    lemma StartWalk(b: Books, aside: seq<Slot>)
      requires Now(aside) == b && parked == []
      ensures Interfered(b, Now(aside)) && Charged(b.inFlight, inFlight, "", 0) && Settles(b.phase, phase)
      ensures b.inFlight == inFlight && b.phase == phase && NoStall()
    {
      forall s | s in b.phase ensures Moved(b.phase[s], b.phase[s]) {}
    }

    /** The park taken up whole, to be walked. */
    method LiftPark(ghost aside: seq<Slot>) returns (waiting: seq<Slot>)
      requires Valid(aside)
      modifies this`parked
      ensures parked == [] && waiting == old(parked) && Valid(waiting + aside)
              && Now(waiting + aside) == old(Now(aside))
      ensures old(NoStall()) ==> Unmoved(old(Now(aside)), old(parked), waiting, aside)
    {
      hide Reached, Serving, BotsWithin;
      WidenInterferes(Now(aside), []);
      hide Interfered;
      waiting := parked;
      parked := [];
      assert parked + (waiting + aside) == waiting + aside;
    }

    /** One message of the walk: back into the park where its bot has no room, or handed over. */
    method WalkOne(waiting: seq<Slot>, ghost aside: seq<Slot>) returns (left: seq<Slot>)
      requires waiting != [] && Valid(waiting + aside) && NoStall()
      modifies this
      ensures left == waiting[1..] && Valid(left + aside) && NoStall() && |parked| <= |old(parked)| + 1
      ensures forall b, park | old(Unmoved(b, park, waiting, aside)) :: Unmoved(b, park, left, aside)
      ensures old(AtItsOwnCapacity(waiting[0].bot)) ==>
                parked == old(parked) + [waiting[0]] && handed == old(handed) && acks == old(acks)
      ensures !old(AtItsOwnCapacity(waiting[0].bot)) ==>
                && parked == old(parked) && handed == old(handed) + [waiting[0]]
                && acks == old(acks) + if Yes(waiting[0]) then [waiting[0].ticket] else []
      ensures old(handed) <= handed && old(acks) <= acks && next == old(next) && Settles(old(phase), phase)
      ensures Charged(old(inFlight), inFlight, "", 0)
      ensures !servesMidTurn ==> queues == old(queues) && asked == old(asked)
      ensures past == old(past) && (old(stopping) ==> stopping)
      decreases |parked|, 4, 0
    {
      hide Reached, Serving, BotsWithin, Fitting, Valid, Charged, Settles;
      var p := waiting[0];
      left := waiting[1..];
      ghost var rest := left + aside;
      assert waiting + aside == [p] + rest;
      if AtItsOwnCapacity(p.bot) {
        SameCharge(inFlight, "");
        SameSettles(phase);
        PutBack(p, rest);
        forall b, park | old(Unmoved(b, park, waiting, aside)) ensures Unmoved(b, park, left, aside) {
          StaysStuck(b, park, old(parked), old(Now(waiting + aside)), waiting, aside);
        }
      } else {
        forall b, park ensures !Unmoved(b, park, waiting, aside) {
          if Unmoved(b, park, waiting, aside) { IsStuck(b, park, waiting, aside); }
        }
        var ack := HandOver(p, true, rest);
        AnyCharge(old(inFlight), inFlight, p.queue);
        if ack { Acknowledge(p.ticket, rest); }
        HeldOrYes(p);
      }
    }

    method PutBack(p: Slot, ghost rest: seq<Slot>)
      requires Valid([p] + rest)
      modifies this`parked
      ensures parked == old(parked) + [p] && Valid(rest) && Now(rest) == old(Now([p] + rest))
    {
      hide Reached, Serving, BotsWithin;
      assert parked + [p] + rest == parked + ([p] + rest);
      parked := parked + [p];
    }

    // ---------------------------------------------------------------- collecting

    /** Take the oldest finished send off the queue, give its slots back, acknowledge it if delivered. */
    method SettleOldest()
      requires Valid([]) && finished != []
      modifies this
      ensures Valid([]) && |Unsettled(phase)| < |Unsettled(old(phase))|
      ensures parked == old(parked) && handed == old(handed) && next == old(next)
      ensures acks == old(acks) + if old(finished)[0].delivered then [old(finished)[0].slot.ticket] else []
      ensures var e := old(finished)[0];
              && e.slot in old(phase) && old(phase)[e.slot] == Settling(HowOf(e.delivered), Queue)
              && Dealt(e, phase, acks)
      ensures forall s | s in old(phase) && s != old(finished)[0].slot :: s in phase && Moved(old(phase)[s], phase[s])
      ensures forall p | Newest(old(Now([])), p) :: Newest(Now([]), p)
      ensures Charged(old(inFlight), inFlight, "", 0)
      ensures !servesMidTurn ==> queues == old(queues) && asked == old(asked)
      ensures past == old(past) && (old(stopping) ==> stopping)
    {
      hide Reached, Serving, BotsWithin, Fitting, Valid, Newest, Charged, Unsettled, OneLess, SendingOf, Settles, Moved;
      var first := finished[0];
      var s, delivered := first.slot, first.delivered;
      PopOldest();
      ghost var popped := phase;
      ReturnSlots(s, HowOf(delivered), []);
      MovedThrough(old(phase), popped, phase, s, delivered);
      if delivered {
        ghost var b := Now([]);
        Acknowledge(s.ticket, []);
        NewestStays(b, s);
      }
    }

    /** The oldest settlement comes into the consumer's hands. */
    method PopOldest()
      requires Valid([]) && finished != []
      modifies this`finished, this`phase
      ensures var s, how := old(finished)[0].slot, HowOf(old(finished)[0].delivered);
              && s in old(phase) && old(phase)[s] == Settling(how, Queue) && s.ticket !in acks && s.ticket < next
              && finished == old(finished)[1..] && phase == old(phase)[s := Settling(how, Consumer)]
              && (forall t | t in phase && t.ticket == s.ticket :: t == s)
      ensures Valid([]) && Unsettled(phase) == Unsettled(old(phase))
      ensures forall p | Newest(old(Now([])), p) :: Newest(Now([]), p)
    {
      var first := finished[0];
      PopFacts(Now([]));
      QueuedFacts(Now([]));
      OnlyOne(Now([]), first.slot);
      Goes(Now([]), Pop);
      SameUnsettled(phase, first.slot, Settling(HowOf(first.delivered), Consumer));
      hide Reached, Serving, BotsWithin, Fitting, Unsettled;
      finished, phase := finished[1..], phase[first.slot := Settling(HowOf(first.delivered), Consumer)];
    }

    /** `collect`: settle everything finished, then hand over what that made room for. */
    method Collect()
      requires Valid([])
      modifies this
      ensures Valid([]) && NoStall() && AllDealt(old(finished), phase, acks)
      ensures old(handed) <= handed && old(acks) <= acks && next == old(next)
      ensures Charged(old(inFlight), inFlight, "", 0)
      ensures !servesMidTurn ==> queues == old(queues) && asked == old(asked)
      ensures past == old(past) && (old(stopping) ==> stopping)
    {
      Facts([]);
      AllOnQueue(Now([]));
      hide *;
      LetOthersRun([]);
      StayPending(old(finished), old(phase), phase, old(acks), acks);
      ghost var counts := inFlight;
      CollectAll(old(finished));
      ChargedTwice(old(inFlight), counts, inFlight, "", 0);
      counts := inFlight;
      ghost var phases, told := phase, acks;
      HandOverParked([]);
      ChargedTwice(old(inFlight), counts, inFlight, "", 0);
      StayDealt(old(finished), phases, phase, told, acks);
    }

    /** The loop of `collect`, until the queue of finished sends answers that it is empty. */
    method CollectAll(ghost owed: seq<Settled>)
      requires Valid([]) && AllPending(owed, phase, acks)
      modifies this
      ensures Valid([]) && AllDealt(owed, phase, acks)
      ensures handed == old(handed) && old(acks) <= acks && next == old(next) && Charged(old(inFlight), inFlight, "", 0)
      ensures !servesMidTurn ==> queues == old(queues) && asked == old(asked)
      ensures past == old(past) && (old(stopping) ==> stopping)
    {
      hide *;
      SameCharge(inFlight, "");
      while finished != []
        invariant Valid([]) && AllPending(owed, phase, acks)
        invariant handed == old(handed) && old(acks) <= acks && next == old(next)
        invariant Charged(old(inFlight), inFlight, "", 0)
        invariant !servesMidTurn ==> queues == old(queues) && asked == old(asked)
        invariant past == old(past) && (old(stopping) ==> stopping)
        decreases |Unsettled(phase)|
      {
        ghost var counts := inFlight;
        CollectOne(owed);
        ChargedTwice(old(inFlight), counts, inFlight, "", 0);
      }
      EmptyMeansDealt(owed);
    }

    lemma EmptyMeansDealt(owed: seq<Settled>)
      requires Valid([]) && finished == [] && AllPending(owed, phase, acks)
      ensures AllDealt(owed, phase, acks)
    {
      QueuedFacts(Now([]));
      hide Valid;
    }

    method CollectOne(ghost owed: seq<Settled>)
      requires Valid([]) && finished != [] && AllPending(owed, phase, acks)
      modifies this
      ensures Valid([]) && AllPending(owed, phase, acks)
      ensures |Unsettled(phase)| < |Unsettled(old(phase))|
      ensures handed == old(handed) && old(acks) <= acks && next == old(next)
      ensures Charged(old(inFlight), inFlight, "", 0)
      ensures !servesMidTurn ==> queues == old(queues) && asked == old(asked)
      ensures past == old(past) && (old(stopping) ==> stopping)
    {
      Facts([]);
      AllOnQueue(Now([]));
      hide *;
      SettleOldest();
      OnePendingLess(owed, old(finished)[0], old(phase), phase, old(acks), acks);
      ghost var counts, phases, told := inFlight, phase, acks;
      LetOthersRun([]);
      ChargedTwice(old(inFlight), counts, inFlight, "", 0);
      StayPending(owed, phases, phase, told, acks);
    }

    /** One round of that wait: what finished first is settled. */
    method SettleOne()
      requires Valid([])
      modifies this
      ensures Valid([]) && parked == old(parked) && handed == old(handed) && old(acks) <= acks && next == old(next)
      ensures forall p | Newest(old(Now([])), p) :: Newest(Now([]), p)
      ensures Charged(old(inFlight), inFlight, "", 0)
      ensures !servesMidTurn ==> queues == old(queues) && asked == old(asked)
      ensures past == old(past) && (old(stopping) ==> stopping)
      ensures Settles(old(phase), phase) && (old(finished) != [] ==> Dealt(old(finished)[0], phase, acks))
    {
      hide Reached, Serving, BotsWithin, Fitting, Valid, Charged, Newest, Settles, Moved, Dealt;
      LetOthersRun([]);
      MoveSettles(old(phase), phase);
      if finished != [] {
        ghost var counts, phases, first := inFlight, phase, finished[0];
        SettleOldest();
        OneSettles(phases, phase, first);
        SettlesBoth(old(phase), phases, phase);
        ChargedTwice(old(inFlight), counts, inFlight, "", 0);
      }
    }

    /** `_waited_for_room`: with no queue bound, wait for one of this bot's own sends to end. It says no
        only where a stop came first; `waiting` where it has not come back in the rounds observed. */
    method WaitedForRoom(bot: Bot, rounds: nat) returns (room: bool, waiting: bool)
      requires Valid([]) && limit == 0
      modifies this
      ensures Valid([]) && parked == [] && handed == old(handed) && old(acks) <= acks && next == old(next)
      ensures room ==> !AtItsOwnCapacity(bot) && !waiting
      ensures !room && !waiting ==> stopping
      ensures waiting ==> AtItsOwnCapacity(bot) && !stopping
      ensures forall p | Newest(old(Now([])), p) :: Newest(Now([]), p)
      ensures Charged(old(inFlight), inFlight, "", 0)
      ensures !servesMidTurn ==> queues == old(queues) && asked == old(asked)
      ensures past == old(past) && (old(stopping) ==> stopping && !room)
      ensures old(AtItsOwnCapacity(bot)) && !old(stopping) && rounds > 0 && old(finished) != [] ==>
                Dealt(old(finished)[0], phase, acks)
    {
      hide Reached, Serving, Newest, Dealt, Settles, Moved;
      assert parked + [] == parked;
      var left := rounds;
      while AtItsOwnCapacity(bot) && !stopping && left > 0
        invariant Valid([]) && parked == [] && handed == old(handed) && old(acks) <= acks && next == old(next)
        invariant forall p | Newest(old(Now([])), p) :: Newest(Now([]), p)
        invariant Charged(old(inFlight), inFlight, "", 0)
        invariant !servesMidTurn ==> queues == old(queues) && asked == old(asked)
        invariant past == old(past) && (old(stopping) ==> stopping)
        invariant left == rounds ==> finished == old(finished) && stopping == old(stopping) && sending == old(sending)
        invariant left < rounds && old(finished) != [] ==> Dealt(old(finished)[0], phase, acks)
        decreases left
      {
        ghost var phases, told := phase, acks;
        SettleOne();
        if left < rounds && old(finished) != [] { OneStaysDealt(old(finished)[0], phases, phase, told, acks); }
        left := left - 1;
      }
      room := !AtItsOwnCapacity(bot) && !stopping;
      waiting := AtItsOwnCapacity(bot) && !stopping;
    }

    /** Every queue this consumer serves is at its own bound. */
    predicate AtCapacity()
      requires Serving()
      reads this`queues, this`asked, this`inFlight
    {
      limit > 0 && forall i | 0 <= i < |queues| :: inFlight[queues[i]] >= limit
    }

    /** `hold_for_capacity`: stop taking messages while too many are in flight. */
    method HoldForCapacity(rounds: nat) returns (open: bool)
      requires Valid([]) && NoStall()
      modifies this
      ensures Valid([]) && NoStall()
      ensures open <==> !AtCapacity() && !stopping
      ensures old(handed) <= handed && old(acks) <= acks && next == old(next)
      ensures Charged(old(inFlight), inFlight, "", 0)
      ensures !servesMidTurn ==> queues == old(queues) && asked == old(asked)
      ensures past == old(past) && (open <==> GateOpen(inFlight, queues, limit) && !stopping)
      ensures old(AtCapacity()) && !old(stopping) && rounds > 0 && old(finished) != [] ==>
                Dealt(old(finished)[0], phase, acks)
    {
      hide Reached, BotsWithin, Fitting, Valid, Charged, NoStall, Dealt, Settles;
      Facts([]);
      SameCharge(inFlight, "");
      var left := rounds;
      while AtCapacity() && !stopping && left > 0
        invariant Valid([]) && NoStall() && Serving()
        invariant old(handed) <= handed && old(acks) <= acks && next == old(next)
        invariant Charged(old(inFlight), inFlight, "", 0)
        invariant !servesMidTurn ==> queues == old(queues) && asked == old(asked)
        invariant past == old(past)
        invariant left == rounds ==> finished == old(finished) && stopping == old(stopping)
        invariant left == rounds ==> AtCapacity() == old(AtCapacity())
        invariant left < rounds && old(finished) != [] ==> Dealt(old(finished)[0], phase, acks)
        decreases left
      {
        ghost var counts, phases, told := inFlight, phase, acks;
        HoldOnce();
        if left < rounds && old(finished) != [] { OneStaysDealt(old(finished)[0], phases, phase, told, acks); }
        ChargedTwice(old(inFlight), counts, inFlight, "", 0);
        Facts([]);
        left := left - 1;
      }
      open := IsOpen();
    }

    /** The last look of the wait. */
    method IsOpen() returns (open: bool)
      requires Serving()
      ensures open <==> !AtCapacity() && !stopping
      ensures open <==> GateOpen(inFlight, queues, limit) && !stopping
    {
      open := !AtCapacity() && !stopping;
    }

    /** One round of the wait: what finished is settled, and what that made room for handed over. */
    method HoldOnce()
      requires Valid([]) && NoStall()
      modifies this
      ensures Valid([]) && NoStall()
      ensures old(handed) <= handed && old(acks) <= acks && next == old(next)
      ensures Charged(old(inFlight), inFlight, "", 0)
      ensures !servesMidTurn ==> queues == old(queues) && asked == old(asked)
      ensures past == old(past)
      ensures Settles(old(phase), phase) && (old(finished) != [] ==> Dealt(old(finished)[0], phase, acks))
    {
      hide Reached, Serving, BotsWithin, Fitting, Valid, Charged, Newest, Settles, Moved, Dealt;
      LetOthersRun([]);
      MoveSettles(old(phase), phase);
      if finished != [] {
        ghost var one, first, phases := inFlight, finished[0], phase;
        SettleOldest();
        OneSettles(phases, phase, first);
        ghost var two, settled, told := inFlight, phase, acks;
        HandOverParked([]);
        OneStaysDealt(first, settled, phase, told, acks);
        SettlesBoth(phases, settled, phase);
        SettlesBoth(old(phase), phases, phase);
        ChargedTwice(one, two, inFlight, "", 0);
        ChargedTwice(old(inFlight), one, inFlight, "", 0);
      }
    }

    // ---------------------------------------------------------------- reading

    /** `_forget_retired`: drop the count of a queue no longer served that has nothing in flight. */
    method ForgetRetired()
      requires Valid([])
      modifies this`inFlight
      ensures Valid([])
      ensures forall q :: q in inFlight <==> q in old(inFlight) && (q in queues || old(inFlight)[q] > 0)
      ensures forall q | q in inFlight :: inFlight[q] == old(inFlight)[q]
    {
      hide Reached;
      var retired := set q | q in inFlight && q !in queues && inFlight[q] <= 0;
      Goes(Now([]), Forget(retired));
      inFlight := inFlight - retired;
    }

    /** `readable`: the queues a read may ask for, or `None` for the one the transport addresses. */
    method Readable() returns (names: Option<seq<string>>)
      requires Valid([])
      modifies this
      ensures Valid([]) && parked == old(parked) && sending == old(sending) && handed == old(handed)
              && acks == old(acks)
      ensures next == old(next) && past == old(past) && Charged(old(inFlight), inFlight, "", 0)
      ensures names.None? <==> old(asked).None?
      ensures names.None? ==> unchanged(this) && queues == [ownQueue] && ownQueue in inFlight
      ensures names.Some? ==> forall q | q in names.value :: q in inFlight && (limit > 0 ==> inFlight[q] < limit)
      ensures names.Some? ==> names.value == WithRoom(old(asked).value, old(inFlight), limit)
      ensures !servesMidTurn ==> queues == old(queues) && asked == old(asked)
    {
      Facts([]);
      SameCharge(inFlight, "");
      hide Reached, BotsWithin, Fitting, Valid, Newest, Charged, WithRoom, CountOf;
      names := asked;
      assert queues[0] in inFlight;
      if names.None? { return; }
      var all, room := names.value, [];
      assert forall k | 0 <= k < |all| :: all[k] in inFlight;
      NoneWithRoom(inFlight, limit);
      hide Serving;
      for i := 0 to |all|
        invariant Valid([]) && parked == old(parked) && sending == old(sending) && handed == old(handed)
                  && acks == old(acks)
        invariant next == old(next) && past == old(past) && Charged(old(inFlight), inFlight, "", 0)
        invariant AllAlike(all, old(inFlight), inFlight) && room == WithRoom(all[..i], old(inFlight), limit)
        invariant !servesMidTurn ==> queues == old(queues) && asked == old(asked)
      {
        var roomy := Look(all, i, old(inFlight));
        OneWithRoom(all, i, old(inFlight), limit);
        if roomy { room := room + [all[i]]; }
      }
      assert all[..|all|] == all;
      RoomMeans(all, old(inFlight), inFlight, limit);
      names := Some(room);
    }

    /** Whether one queue is below its bound, others running before the look. */
    method Look(all: seq<string>, i: nat, ghost start: map<string, int>) returns (roomy: bool)
      requires Valid([]) && i < |all| && AllAlike(all, start, inFlight) && Charged(start, inFlight, "", 0)
      modifies this
      ensures Valid([]) && parked == old(parked) && sending == old(sending) && handed == old(handed)
              && acks == old(acks)
      ensures next == old(next) && past == old(past) && AllAlike(all, start, inFlight)
      ensures Charged(start, inFlight, "", 0) && (roomy <==> limit == 0 || CountOf(start, all[i]) < limit)
      ensures !servesMidTurn ==> queues == old(queues) && asked == old(asked)
    {
      hide Reached, Serving, BotsWithin, Fitting, Valid, Newest;
      ghost var counts := inFlight;
      LetOthersRun([]);
      ChargedTwice(start, counts, inFlight, "", 0);
      assert CountOf(inFlight, all[i]) == CountOf(start, all[i]);
      roomy := limit == 0 || inFlight[all[i]] < limit;
    }

    /** A transport, by what it would answer each read with; an honest one keeps to what it was asked. */
    ghost predicate Keeps(answers: Transport) {
      honest ==> forall asked | answers(asked).Some? :: Answers(asked, answers(asked).value.queue, ownQueue)
    }

    /** `_park`: hold one of the queue's slots, and none of the bot's sends. */
    method Park(p: Slot)
      requires Valid([]) && NoStall() && Newest(Now([]), p) && AtItsOwnCapacity(p.bot) && limit > 0
      modifies this`inFlight, this`parked, this`phase, this`past
      ensures past == (old(past) || Full(old(inFlight), p.queue))
      ensures Full(old(inFlight), p.queue) <==> limit > 0 && CountOf(inFlight, p.queue) > limit
      ensures Valid([]) && NoStall() && parked == old(parked) + [p]
      ensures phase == old(phase)[p := Waiting]
      ensures Charged(old(inFlight), inFlight, p.queue, 1)
    {
      hide *;
      CanPark(p);
      ChargedOne(inFlight, p.queue);
      past := past || Full(inFlight, p.queue);
      OneOver(inFlight, p.queue);
      WritePark(p);
      ValidAgain();
    }

    lemma CanPark(p: Slot)
      requires Valid([]) && Newest(Now([]), p) && AtItsOwnCapacity(p.bot)
      ensures Serving() && p.queue in inFlight && Reached(ParkedNew(Now([]), p)) && BotsWithin() && defers
    {
      NoSends(Now([]));
      hide Reached, Serving;
      Goes(Now([]), Step.Park(p));
    }

    method WritePark(p: Slot)
      requires p.queue in inFlight
      modifies this`inFlight, this`parked, this`phase
      ensures inFlight == old(inFlight)[p.queue := old(inFlight)[p.queue] + 1]
      ensures parked == old(parked) + [p] && phase == old(phase)[p := Waiting]
      ensures Now([]) == ParkedNew(old(Now([])), p)
      ensures (old(NoStall()) && AtItsOwnCapacity(p.bot) ==> NoStall()) && (old(Serving()) ==> Serving())
    {
      assert parked + [p] + [] == parked + [] + [p];
      inFlight, parked, phase := inFlight[p.queue := inFlight[p.queue] + 1], parked + [p], phase[p := Waiting];
    }

    /** `dispatch`: say whether the message should be acknowledged now. `waiting` where, with no queue bound,
        the thread is still held for the bot. */
    method Dispatch(message: Message, ticket: nat, onQueue: string) returns (ack: bool, waiting: bool)
      requires Valid([]) && NoStall() && forall b :: Newest(Now([]), Slot(ticket, b, onQueue))
      modifies this
      ensures Valid([]) && NoStall() && next == old(next)
      ensures !message.Call? ==> ack == (message.NotAMethod? || (message.Unreadable? && message.acknowledge))
      ensures !message.Call? ==> handed == old(handed) && parked == old(parked) && phase == old(phase)
      ensures message.Call? && !old(AtItsOwnCapacity(message.bot)) ==>
                handed == old(handed) + [Slot(ticket, message.bot, onQueue)] && parked == old(parked)
      ensures message.Call? && (perBot == 0 || old(SendingOf(sending, message.bot)) < perBot) ==>
                handed == old(handed) + [Slot(ticket, message.bot, onQueue)]
      ensures message.Call? && old(AtItsOwnCapacity(message.bot)) && limit > 0 ==>
                handed == old(handed) && parked == old(parked) + [Slot(ticket, message.bot, onQueue)] && !ack
      ensures message.Call? && old(AtItsOwnCapacity(message.bot)) && limit == 0 ==>
                && parked == []
                && if waiting || handed == old(handed) then handed == old(handed) && !ack && (waiting || stopping)
                   else handed == old(handed) + [Slot(ticket, message.bot, onQueue)]
      ensures waiting ==> limit == 0 && message.Call? && old(AtItsOwnCapacity(message.bot))
      ensures message.Call? && |handed| > |old(handed)| ==> (ack <==> Yes(Slot(ticket, message.bot, onQueue)))
      ensures old(acks) <= acks
      ensures !message.Call? || !old(AtItsOwnCapacity(message.bot)) || limit > 0 ==> acks == old(acks)
      ensures ack ==> Ackable(ticket)
      ensures past == (old(past) || (message.Call? && defers && Full(old(inFlight), onQueue)))
      ensures Charged(old(inFlight), inFlight, onQueue, if message.Call? && defers then 1 else 0)
      ensures !servesMidTurn ==> queues == old(queues) && asked == old(asked)
    {
      hide Reached, Serving, Yes;
      assert Newest(Now([]), Slot(ticket, None, onQueue));
      NoSends(Now([]));
      SameCharge(inFlight, onQueue);
      waiting := false;
      match message
      case Unreadable(acknowledge) => ack := acknowledge;
      case NotAMethod => ack := true;
      case Unserved => ack := false;
      case Call(bot) =>
        var p := Slot(ticket, bot, onQueue);
        assert Newest(Now([]), p);
        if !AtItsOwnCapacity(bot) {
          ack := HandOver(p, false, []);
        } else if limit > 0 {
          Park(p);
          ack := false;
        } else {
          ack, waiting := WaitThenHandOver(p);
        }
    }

    method WaitThenHandOver(p: Slot) returns (ack: bool, waiting: bool)
      requires Valid([]) && limit == 0 && defers && Newest(Now([]), p)
      modifies this
      ensures Valid([]) && NoStall() && next == old(next) && parked == [] && past == old(past)
      ensures if waiting || handed == old(handed) then handed == old(handed) && !ack && (waiting || stopping)
              else handed == old(handed) + [p] && (ack <==> Yes(p))
      ensures old(acks) <= acks && (ack ==> Ackable(p.ticket))
      ensures Charged(old(inFlight), inFlight, p.queue, 1)
      ensures !servesMidTurn ==> queues == old(queues) && asked == old(asked)
    {
      hide Reached, Serving, Newest, Yes;
      var rounds: nat :| true;
      var room, held := WaitedForRoom(p.bot, rounds);
      ack, waiting := false, held;
      if room {
        ack := HandOver(p, false, []);
      }
    }

    /** No queue is past its bound unless one was counted past it. */
    ghost predicate Bounded()
      reads this`inFlight, this`past
    {
      past || Within()
    }

    /** One turn of the read loop. A queue goes past its bound exactly in the way `PastItsBound` says, and
        not at all where the transport keeps to what it was asked and the lane does not change within the turn.
        A transport that has a message for every read has one taken, unless a stop came or, for the rounds
        observed, every queue was at its bound. */
    method Turn(answers: Transport) returns (ghost read: Option<Answer>, open: bool)
      requires Valid([]) && NoStall() && Bounded() && Keeps(answers)
      modifies this
      ensures Valid([]) && NoStall() && Bounded()
      ensures read.Some? ==> open && Counted(read.value) && AnswersIt(answers, read.value)
      ensures next == old(next) + if read.Some? then 1 else 0
      ensures !open ==> stopping || AtCapacity()
      ensures open && !servesMidTurn && (forall asked :: answers(asked).Some?) ==> read.Some?
      ensures past == (old(past) || (read.Some? && PastItsBound(read.value, limit)))
      ensures !servesMidTurn && honest ==> past == old(past)
    {
      hide Reached, Serving, BotsWithin, Fitting, Valid, NoStall, GateOpen, Charged, PastItsBound, AtCapacity, Counted;
      hide Keeps, SomeRoom, AnswersIt;
      read := None;
      Collect();
      NoneCharged(old(inFlight));
      ghost var counts := inFlight;
      var rounds: nat :| true;
      open := HoldForCapacity(rounds);
      NoneCharged(counts);
      Facts([]);
      if open {
        RoomToRead();
        read := ReadOnce(answers);
      }
    }

    /** What was read is the transport's answer to what was asked. */
    ghost predicate AnswersIt(answers: Transport, a: Answer) {
      && answers(a.asked).Some? && a.named == answers(a.asked).value.queue
      && a.call == (answers(a.asked).value.message.Call? && defers)
    }

    /** An answer is counted under the queue it names, or the first of the lane by then. */
    ghost predicate Counted(a: Answer) {
      && a.lane != [] && (a.under == a.named || a.under == a.lane[0])
      && (a.named in a.counts ==> a.under == a.named) && (a.named == "" ==> a.under == a.lane[0])
      && (honest ==> Answers(a.asked, a.named, ownQueue))
    }

    /** Counts that only fell are within the bounds still. */
    lemma NoneCharged(before: map<string, int>)
      requires Charged(before, inFlight, "", 0)
      ensures (limit > 0 ==> forall q | q in before :: before[q] <= limit) ==> Within()
    {
    }

    /** Some queue of the lane has room. */
    ghost predicate SomeRoom()
      reads this`queues, this`inFlight
    {
      limit == 0 || exists i :: 0 <= i < |queues| && CountOf(inFlight, queues[i]) < limit
    }

    lemma RoomToRead()
      requires Serving() && GateOpen(inFlight, queues, limit)
      ensures SomeRoom()
    {
      if limit > 0 {
        var q :| q in queues && inFlight[q] < limit;
        var i :| 0 <= i < |queues| && queues[i] == q;
        assert CountOf(inFlight, queues[i]) < limit;
      }
    }

    /** So a read of the lane asks for some queue of it, or is of the transport's own, which has the room. */
    lemma RoomIsAsked()
      requires Serving() && SomeRoom()
      ensures asked.Some? ==> WithRoom(asked.value, inFlight, limit) != []
      ensures asked.None? && limit > 0 ==> queues == [ownQueue] && CountOf(inFlight, queues[0]) < limit
    {
      var i :| 0 <= i < |queues| && (limit == 0 || CountOf(inFlight, queues[i]) < limit);
      assert asked.Some? ==> queues[i] in WithRoom(asked.value, inFlight, limit);
    }

    /** The read: which queues it may ask for, what the transport answers, and what becomes of that. Others run
        before and after each look at the books. */
    method ReadOnce(answers: Transport) returns (ghost read: Option<Answer>)
      requires Valid([]) && NoStall() && Bounded() && Keeps(answers) && (!servesMidTurn ==> SomeRoom())
      modifies this
      ensures Valid([]) && NoStall() && Bounded()
      ensures read.Some? ==> Counted(read.value) && AnswersIt(answers, read.value)
      ensures next == old(next) + if read.Some? then 1 else 0
      ensures !servesMidTurn && (forall asked :: answers(asked).Some?) ==> read.Some?
      ensures past == (old(past) || (read.Some? && PastItsBound(read.value, limit)))
      ensures !servesMidTurn && honest ==> past == old(past)
    {
      hide Reached, Serving, BotsWithin, Fitting, Valid, NoStall, SomeRoom, WithRoom;
      read := None;
      Tidy();
      Facts([]);
      if !servesMidTurn { RoomIsAsked(); }
      ghost var counts := inFlight;
      var names := Readable();
      NoneCharged(counts);
      if names == Some([]) { return; }
      var taken := answers(names);
      if taken.None? { return; }
      ghost var answer, _ := TakeOne(names, taken.value);
      read := Some(answer);
    }

    /** `_forget_retired`, with the others running before and after it. */
    method Tidy()
      requires Valid([]) && NoStall() && Bounded() && (!servesMidTurn ==> SomeRoom())
      modifies this
      ensures Valid([]) && NoStall() && Bounded() && (!servesMidTurn ==> SomeRoom())
      ensures past == old(past) && next == old(next)
    {
      hide Reached, Serving, BotsWithin, Fitting, Valid, NoStall, Newest, Charged;
      ghost var counts := inFlight;
      LetOthersRun([]);
      NoneCharged(counts);
      Facts([]);
      ghost var mid := inFlight;
      ForgetRetired();
      assert forall i | 0 <= i < |queues| :: CountOf(inFlight, queues[i]) == CountOf(mid, queues[i]);
      counts := inFlight;
      LetOthersRun([]);
      NoneCharged(counts);
    }

    /** The end of a turn: count the message under the queue it came off, dispatch it, acknowledge it. */
    method TakeOne(names: Option<seq<string>>, taken: Taken) returns (ghost a: Answer, ack: bool)
      requires Valid([]) && NoStall() && Bounded()
      requires names.Some? ==> forall q | q in names.value :: q in inFlight && (limit > 0 ==> inFlight[q] < limit)
      requires honest ==> Answers(names, taken.queue, ownQueue)
      modifies this
      ensures Valid([]) && NoStall() && Bounded() && Counted(a) && next == old(next) + 1
      ensures a.asked == names && a.named == taken.queue
      ensures a.counts == old(inFlight) && a.call == (taken.message.Call? && defers)
      ensures past == (old(past) || PastItsBound(a, limit))
      ensures Answered(taken.message, a.under, old(next), old(handed), ack)
      ensures !taken.message.Call? || !old(AtItsOwnCapacity(taken.message.bot)) || limit > 0 ==>
                acks == old(acks) + if ack then [old(next)] else []
      ensures old(acks) <= acks && (ack ==> old(next) in acks)
      ensures !servesMidTurn ==> a.lane == old(queues)
    {
      hide Reached, Serving, BotsWithin, Fitting, Valid, NoStall;
      var onQueue := QueueOf(taken);
      a := Answer(names, taken.queue, old(inFlight), queues, onQueue, taken.message.Call? && defers);
      assert CountOf(inFlight, onQueue) == CountOf(old(inFlight), onQueue);
      StillWithin(old(inFlight));
      hide Answered;
      ack := TakeUnder(taken.message, onQueue);
    }

    lemma StillWithin(before: map<string, int>)
      requires forall q :: CountOf(inFlight, q) == CountOf(before, q)
      ensures (limit > 0 ==> forall q | q in before :: before[q] <= limit) ==> Within()
    {
      forall q | q in inFlight && q !in before ensures inFlight[q] == 0 {
        assert CountOf(inFlight, q) == CountOf(before, q);
      }
      forall q | q in inFlight && q in before ensures inFlight[q] == before[q] {
        assert CountOf(inFlight, q) == CountOf(before, q);
      }
    }

    /** Dispatched under that queue, and past its bound exactly where it was at it. */
    method TakeUnder(message: Message, onQueue: string) returns (ack: bool)
      requires Valid([]) && NoStall() && Bounded() && onQueue in inFlight
      modifies this
      ensures Valid([]) && NoStall() && Bounded() && next == old(next) + 1
      ensures Answered(message, onQueue, old(next), old(handed), ack)
      ensures !message.Call? || !old(AtItsOwnCapacity(message.bot)) || limit > 0 ==>
                acks == old(acks) + if ack then [old(next)] else []
      ensures old(acks) <= acks && (ack ==> old(next) in acks)
      ensures message.Call? && !old(AtItsOwnCapacity(message.bot)) ==> |handed| > |old(handed)|
      ensures past == (old(past) || (message.Call? && defers && Full(old(inFlight), onQueue)))
    {
      hide Reached, Serving, BotsWithin, Fitting, Valid, Charged, Newest, Ackable, NoStall;
      var ticket := DrawTicket(onQueue);
      hide Yes, AtItsOwnCapacity;
      var waiting: bool;
      ack, waiting := Dispatch(message, ticket, onQueue);
      if ack { Acknowledge(ticket, []); }
      StaysBounded(old(inFlight), onQueue, old(past), message.Call? && defers);
    }

    /** Whether a message taken is acknowledged at once: a payload nobody can use, by its kind; one handed over, as
        its handler ended; one parked or left, not. */
    ghost predicate Answered(message: Message, onQueue: string, ticket: nat, before: seq<Slot>, ack: bool)
      reads this`reports, this`finished, this`handed
    {
      match message
      case Unreadable(acknowledge) => ack == acknowledge
      case NotAMethod => ack
      case Unserved => !ack
      case Call(bot) => if |handed| > |before| then ack <==> Yes(Slot(ticket, bot, onQueue)) else !ack
    }

    /** `_queue_of`: the queue the answer names where it is counted, or the first of the lane as it then is. */
    method QueueOf(taken: Taken) returns (onQueue: string)
      requires Valid([]) && NoStall()
      modifies this
      ensures Valid([]) && NoStall() && past == old(past) && onQueue in inFlight && queues != []
      ensures handed == old(handed) && acks == old(acks) && next == old(next) && sending == old(sending)
      ensures onQueue == taken.queue || onQueue == queues[0]
      ensures (taken.queue in old(inFlight) ==> onQueue == taken.queue) && (taken.queue == "" ==> onQueue == queues[0])
      ensures forall q :: CountOf(inFlight, q) == CountOf(old(inFlight), q)
      ensures !servesMidTurn ==> queues == old(queues)
    {
      hide Reached, BotsWithin, Fitting, Valid, Newest, NoStall;
      LetOthersRun([]);
      Facts([]);
      onQueue := taken.queue;
      if onQueue !in inFlight {
        LetOthersRun([]);
        Facts([]);
        onQueue := queues[0];
      }
    }

    method DrawTicket(onQueue: string) returns (ticket: nat)
      requires Valid([]) && onQueue in inFlight
      modifies this`next
      ensures Valid([]) && ticket == old(next) && next == old(next) + 1
      ensures forall b :: Newest(Now([]), Slot(ticket, b, onQueue))
    {
      ticket := next;
      NextIsNewest(Now([]));
      hide Reached, Serving, BotsWithin, Fitting, Newest;
      next := next + 1;
    }

    /** Counted where there was room, no queue is past its bound. */
    lemma StaysBounded(before: map<string, int>, q: string, was: bool, call: bool)
      requires was || limit == 0 || forall x | x in before :: before[x] <= limit
      requires Charged(before, inFlight, q, if call then 1 else 0)
      requires past == (was || (call && Full(before, q)))
      ensures Bounded()
    {
    }

    /** There is always something to read. */
    ghost predicate Eager(transport: nat -> Transport) {
      forall i: nat, asked: Option<seq<string>> :: transport(i)(asked).Some?
    }

    /** `run`, observed for any number of turns, with `serve` called between them, against any transport, which
        may answer each turn differently. */
    method Run(turns: nat, transport: nat -> Transport)
      requires Valid([]) && NoStall() && !past && Within() && forall i :: Keeps(transport(i))
      modifies this
      ensures Valid([]) && NoStall() && Bounded()
      ensures !servesMidTurn && honest ==> !past && Within()
      ensures limit == 0 && !servesMidTurn && !stopping && Eager(transport) ==> next == old(next) + turns
      ensures turns == 0 || old(stopping) ==> AllDealt(old(finished), phase, acks)
    {
      hide Reached, AllDealt;
      var left := turns;
      while left > 0 && !stopping
        invariant Valid([]) && NoStall() && Bounded() && (!servesMidTurn && honest ==> !past)
        invariant limit == 0 && !servesMidTurn && !stopping && Eager(transport) ==> next == old(next) + turns - left
        invariant 0 <= left <= turns
        invariant turns == 0 || old(stopping) ==> finished == old(finished) && (old(stopping) ==> stopping)
        decreases left
      {
        var asking: seq<string> := *;
        if "" !in asking {
          var _ := Serve(asking, []);
        }
        ghost var read, _ := Turn(transport(left));
        left := left - 1;
      }
      Collect();
    }
  }

  // ------------------------------------------------------------------ and both ways past a bound happen

  /** A message of `q` with the handler, which has not come back. */
  method HandOne(d: Delivery, q: string)
    requires d.Valid([]) && d.NoStall() && d.defers && d.perBot == 0 && q in d.inFlight
    modifies d
    ensures d.Valid([]) && d.NoStall() && d.queues == old(d.queues) && d.asked == old(d.asked)
    ensures d.stopping == old(d.stopping) && d.inFlight == old(d.inFlight)[q := old(d.inFlight)[q] + 1]
    ensures d.past == (old(d.past) || d.Full(old(d.inFlight), q))
  {
    hide Reached, Newest, Delivery.Serving, Delivery.BotsWithin, Delivery.Fitting, Delivery.Valid, Delivery.NoStall;
    var ticket := d.DrawTicket(q);
    var p := Slot(ticket, None, q);
    assert Newest(d.Now([]), p);
    d.BeginNew(p);
  }

  /** How the consumers of the two runs are set: one message a queue, a transport that keeps to what it is asked. */
  ghost predicate OneEach(d: Delivery)
    reads d`stopping
  {
    d.limit == 1 && d.perBot == 0 && d.defers && d.multiplexes && d.servesMidTurn && d.honest && !d.stopping
  }

  /** A consumer of two queues, the first at its bound and the second empty. */
  method FirstOfTwoFull(full: string, free: string, own: string) returns (d: Delivery)
    requires full != free && full != "" && free != ""
    ensures fresh(d) && d.Valid([]) && d.NoStall() && OneEach(d) && d.ownQueue == own && d.queues == [full, free]
    ensures d.inFlight == map[full := 1, free := 0] && !d.past
  {
    hide Reached, Delivery.Serving, Delivery.BotsWithin, Delivery.Fitting, Delivery.Valid, Delivery.NoStall;
    d := new Delivery([full, free], own, 1, 0, true, true, true, true, true, _ => Returned);
    assert full in [full, free] && free in [full, free];
    assert d.inFlight == map[full := 0, free := 0];
    HandOne(d, full);
  }

  /** `serve` of queues that are all counted already. */
  method ServeKnown(d: Delivery, lane: seq<string>)
    requires d.Valid([]) && d.multiplexes && lane != [] && "" !in lane && NamedQueues(lane) == lane
    requires forall q | q in lane :: q in d.inFlight
    modifies d`queues, d`asked, d`inFlight
    ensures d.Valid([]) && d.queues == lane && d.inFlight == old(d.inFlight)
    ensures d.asked.None? <==> lane == [d.ownQueue]
  {
    hide Reached, Delivery.BotsWithin, Delivery.Fitting, Delivery.Valid;
    assert (map q | q in lane :: 0) + d.inFlight == d.inFlight;
    var refused := d.Serve(lane, []);
    d.Facts([]);
  }

  lemma NamedOnce(p: string, q: string)
    requires p != q
    ensures NamedQueues([p]) == [p] && NamedQueues([p, q]) == [p, q]
  {
    assert [p][..0] == [] && [p, q][..1] == [p];
  }

  /** The gate opens where one queue of the lane has room. */
  method Opens(d: Delivery, free: string) returns (open: bool)
    requires d.Valid([]) && OneEach(d) && free in d.queues && free in d.inFlight && d.inFlight[free] == 0
    ensures open
  {
    d.Facts([]);
    hide Delivery.Valid;
    open := d.IsOpen();
  }

  /** From the gate to the read of a lane that is the own queue alone: it asks for none. */
  method AsksForNone(d: Delivery) returns (names: Option<seq<string>>)
    requires d.Valid([]) && d.asked.None?
    modifies d
    ensures d.Valid([]) && names.None? && d.queues == old(d.queues) == [d.ownQueue] && d.asked == old(d.asked)
    ensures d.stopping == old(d.stopping) && d.past == old(d.past) && (old(d.NoStall()) ==> d.NoStall())
    ensures d.ownQueue in d.inFlight && d.ownQueue in old(d.inFlight) && "" !in d.inFlight
    ensures forall q | q in old(d.inFlight) && (q == d.ownQueue || old(d.inFlight)[q] > 0) ::
              q in d.inFlight && d.inFlight[q] == old(d.inFlight)[q]
  {
    d.Facts([]);
    hide Reached, Delivery.BotsWithin, Delivery.Fitting, Delivery.Valid, Delivery.NoStall;
    d.ForgetRetired();
    names := d.Readable();
    d.Facts([]);
  }

  /** The lane shrinks: the gate opens for another queue, `serve` takes that away, and the own queue, at its
      bound, is read unasked. Whether the answer names it or not, it is counted past its bound. */
  method ShrinkingLaneOverruns(own: string, other: string, named: bool)
    returns (open: bool, d: Delivery, ghost a: Answer)
    requires own != other && own != "" && other != ""
    ensures open && fresh(d) && d.Valid([]) && OneEach(d) && d.ownQueue == own && d.past
    ensures d.Counted(a) && a.asked.None? && a.named == (if named then own else "") && PastItsBound(a, d.limit)
    ensures d.queues == [own] && own in d.inFlight && d.inFlight[own] == 2
  {
    hide Reached, NamedQueues, Delivery.Serving, Delivery.BotsWithin, Delivery.Fitting, Delivery.Valid;
    hide Delivery.NoStall;
    d := FirstOfTwoFull(own, other, own);
    open := Opens(d, other);
    NamedOnce(own, other);
    ServeKnown(d, [own]);
    var names := AsksForNone(d);
    a := Answer(names, if named then own else "", d.inFlight, d.queues, own, true);
    HandOne(d, own);
  }

  /** The lane grows: it is the own queue alone, with room, and the read goes out unasked. While that blocks
      `serve` puts another back in front, still at its bound, and an answer that names no queue is counted there. */
  method GrowingLaneOverruns(own: string, other: string) returns (open: bool, d: Delivery, ghost a: Answer)
    requires own != other && own != "" && other != ""
    ensures open && fresh(d) && d.Valid([]) && OneEach(d) && d.ownQueue == own && d.past
    ensures d.Counted(a) && a.asked.None? && a.named == "" && a.under == other && PastItsBound(a, d.limit)
    ensures d.queues == [other, own] && other in d.inFlight && d.inFlight[other] == 2
  {
    hide Reached, NamedQueues, Delivery.Serving, Delivery.BotsWithin, Delivery.Fitting, Delivery.Valid;
    hide Delivery.NoStall;
    d := FirstOfTwoFull(other, own, own);
    NamedOnce(own, other);
    ServeKnown(d, [own]);
    open := Opens(d, own);
    var names := AsksForNone(d);
    ghost var counts := d.inFlight;
    NamedOnce(other, own);
    ServeKnown(d, [other, own]);
    a := Answer(names, "", counts, d.queues, other, true);
    HandOne(d, other);
  }
}
