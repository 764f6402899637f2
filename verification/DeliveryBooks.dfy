/** The consumer's books as a value: what every atomic step does to them and what every step keeps.

    A message holds one slot of its queue from the moment it is parked or handed over until
    somebody gives that slot back, and one send of its bot from the hand-over on. Callbacks run
    on other threads, so winning a message's latch, queueing its settlement and giving its slots
    back are separate steps here, as they are in the program. */
module DeliveryBooks {
  import opened Options

  /** `None` is a payload that names no bot. */
  type Bot = Option<int>

  /** One taken message: its handle (in the order taken), its bot, the queue it is counted under. */
  datatype Slot = Slot(ticket: nat, bot: Bot, queue: string)

  /** One entry of the queue of finished sends. */
  datatype Settled = Settled(slot: Slot, delivered: bool)

  datatype How = Completed | Refused | Raised | Cancelled

  /** Who has the settlement: a callback between its latch and its put, the queue, the consumer. */
  datatype Where = Callback | Queue | Consumer

  datatype Phase = Waiting | Live | Settling(how: How, at: Where) | Ended(how: How)

  datatype Books = Books(
    inFlight: map<string, int>,
    sending: map<Bot, int>,
    held: seq<Slot>,
    finished: seq<Settled>,
    issued: set<Slot>,
    latched: set<Slot>,
    reports: map<Slot, bool>,
    phase: map<Slot, Phase>,
    handed: seq<Slot>,
    acks: seq<nat>,
    next: nat)

  predicate HoldsSlot(p: Phase) { !p.Ended? }

  predicate HoldsSend(p: Phase) { p.Live? || p.Settling? }

  function HowOf(delivered: bool): How { if delivered then Completed else Refused }

  /** The messages holding one of this queue's slots. */
  ghost function SlotsOn(phase: map<Slot, Phase>, q: string): set<Slot> {
    set s | s in phase && HoldsSlot(phase[s]) && s.queue == q
  }

  /** This bot's messages that are with the handler or not yet settled. */
  ghost function SendsOf(phase: map<Slot, Phase>, b: Bot): set<Slot> {
    set s | s in phase && HoldsSend(phase[s]) && s.bot == b
  }

  function SendingOf(sending: map<Bot, int>, b: Bot): int {
    if b in sending then sending[b] else 0
  }

  /** `_one_less_sending`: a count that reaches zero is dropped from the map. */
  function OneLess(sending: map<Bot, int>, b: Bot): map<Bot, int> {
    var held := SendingOf(sending, b) - 1;
    if held > 0 then sending[b := held] else sending - {b}
  }

  function OneMore(sending: map<Bot, int>, b: Bot): map<Bot, int> {
    sending[b := SendingOf(sending, b) + 1]
  }

  // ------------------------------------------------------------------ what every step keeps

  ghost predicate QueueBooks(inFlight: map<string, int>, phase: map<Slot, Phase>) {
    && (forall q | q in inFlight :: inFlight[q] == |SlotsOn(phase, q)|)
    && (forall s | s in phase && HoldsSlot(phase[s]) :: s.queue in inFlight)
  }

  ghost predicate BotBooks(sending: map<Bot, int>, phase: map<Slot, Phase>) {
    && (forall bot :: SendingOf(sending, bot) == |SendsOf(phase, bot)|)
    && (forall bot | bot in sending :: sending[bot] > 0)
  }

  ghost predicate OldestFirst(held: seq<Slot>) {
    forall i, j | 0 <= i < j < |held| :: held[i].ticket < held[j].ticket
  }

  /** The parked messages are exactly the waiting ones, oldest first. */
  ghost predicate HeldBooks(held: seq<Slot>, phase: map<Slot, Phase>) {
    && OldestFirst(held)
    && (forall s | s in held :: s in phase && phase[s] == Waiting)
    && (forall s | s in phase && phase[s] == Waiting :: s in held)
  }

  predicate Queued(p: Phase) { p.Settling? && p.at == Queue }

  /** The queue of finished sends holds exactly the queued settlements, each once. */
  ghost predicate FinishedBooks(finished: seq<Settled>, phase: map<Slot, Phase>) {
    && (forall i | 0 <= i < |finished| ::
          finished[i].slot in phase
          && phase[finished[i].slot] == Settling(HowOf(finished[i].delivered), Queue))
    && (forall i, j | 0 <= i < j < |finished| :: finished[i].slot != finished[j].slot)
    && (forall s | s in phase && Queued(phase[s]) :: exists i :: 0 <= i < |finished| && finished[i].slot == s)
  }

  /** A latch is open exactly while its message is live: one winner settles, and only one. */
  ghost predicate Latches(issued: set<Slot>, latched: set<Slot>, phase: map<Slot, Phase>) {
    && (forall s | s in issued :: s in phase && phase[s] != Waiting && (s in latched <==> phase[s] != Live))
    && (forall s | s in phase && HoldsSend(phase[s]) :: s in issued)
    && latched <= issued
  }

  /** A callback between its latch and its put. */
  ghost predicate Reports(reports: map<Slot, bool>, phase: map<Slot, Phase>) {
    && (forall s | s in reports :: s in phase && phase[s] == Settling(HowOf(reports[s]), Callback))
    && (forall s | s in phase && phase[s].Settling? && phase[s].at == Callback :: s in reports)
  }

  /** A message that ended this way may be acknowledged. */
  predicate MayAck(p: Phase) { p == Ended(Completed) || p == Ended(Raised) }

  /** No message is acknowledged twice, and none that was refused or cancelled is at all. */
  ghost predicate AckBooks(acks: seq<nat>, next: nat, phase: map<Slot, Phase>) {
    && (forall i, j | 0 <= i < j < |acks| :: acks[i] != acks[j])
    && (forall i | 0 <= i < |acks| :: acks[i] < next)
    && (forall s | s in phase && s.ticket in acks :: MayAck(phase[s]))
  }

  /** One bot's messages reach the handler in the order they were taken. */
  ghost predicate Fifo(handed: seq<Slot>, held: seq<Slot>) {
    && (forall i, j | 0 <= i < j < |handed| && handed[i].bot == handed[j].bot :: handed[i].ticket < handed[j].ticket)
    && (forall i, j | 0 <= i < |handed| && 0 <= j < |held| && handed[i].bot == held[j].bot ::
          handed[i].ticket < held[j].ticket)
  }

  ghost predicate Tickets(phase: map<Slot, Phase>, handed: seq<Slot>, next: nat) {
    && (forall s | s in phase :: s.ticket < next)
    && (forall i | 0 <= i < |handed| :: handed[i] in phase)
    && (forall s, t | s in phase && t in phase && s.ticket == t.ticket :: s == t)
  }

  ghost predicate Inv(b: Books) {
    && QueueBooks(b.inFlight, b.phase) && BotBooks(b.sending, b.phase)
    && HeldBooks(b.held, b.phase) && FinishedBooks(b.finished, b.phase)
    && Latches(b.issued, b.latched, b.phase) && Reports(b.reports, b.phase)
    && AckBooks(b.acks, b.next, b.phase) && Fifo(b.handed, b.held) && Tickets(b.phase, b.handed, b.next)
  }

  /** A message just taken and not yet in the books. */
  ghost predicate Newest(b: Books, s: Slot) {
    && s.ticket < b.next && s.ticket !in b.acks && s.queue in b.inFlight
    && forall t | t in b.phase :: t.ticket < s.ticket
  }

  // ------------------------------------------------------------------ one message changing phase

  function SlotHeld(phase: map<Slot, Phase>, s: Slot): int {
    if s in phase && HoldsSlot(phase[s]) then 1 else 0
  }

  function SendHeld(phase: map<Slot, Phase>, s: Slot): int {
    if s in phase && HoldsSend(phase[s]) then 1 else 0
  }

  lemma OneElement(a: set<Slot>, s: Slot)
    ensures |a| == |a - {s}| + (if s in a then 1 else 0)
  {
    assert a == if s in a then (a - {s}) + {s} else a - {s};
  }

  lemma OneApart(a: set<Slot>, b: set<Slot>, s: Slot)
    requires forall t | t != s :: t in b <==> t in a
    ensures |b| == |a| + (if s in b then 1 else 0) - (if s in a then 1 else 0)
  {
    OneElement(a, s);
    OneElement(b, s);
    assert a - {s} == b - {s};
  }

  lemma SlotsMove(phase: map<Slot, Phase>, s: Slot, p: Phase, q: string)
    ensures |SlotsOn(phase[s := p], q)| == |SlotsOn(phase, q)|
         + (if s.queue != q then 0 else (if HoldsSlot(p) then 1 else 0) - SlotHeld(phase, s))
  {
    var before, after := SlotsOn(phase, q), SlotsOn(phase[s := p], q);
    assert s in before <==> s.queue == q && SlotHeld(phase, s) == 1;
    assert s in after <==> s.queue == q && HoldsSlot(p);
    assert forall t | t != s :: t in after <==> t in before;
    OneApart(before, after, s);
  }

  lemma SendsMove(phase: map<Slot, Phase>, s: Slot, p: Phase, bot: Bot)
    ensures |SendsOf(phase[s := p], bot)| == |SendsOf(phase, bot)|
         + (if s.bot != bot then 0 else (if HoldsSend(p) then 1 else 0) - SendHeld(phase, s))
  {
    var before, after := SendsOf(phase, bot), SendsOf(phase[s := p], bot);
    assert s in before <==> s.bot == bot && SendHeld(phase, s) == 1;
    assert s in after <==> s.bot == bot && HoldsSend(p);
    assert forall t | t != s :: t in after <==> t in before;
    OneApart(before, after, s);
  }

  /** A queue's count follows its slots through any one change of phase. */
  lemma QueueMove(inFlight: map<string, int>, phase: map<Slot, Phase>, s: Slot, p: Phase)
    requires QueueBooks(inFlight, phase) && s.queue in inFlight
    ensures QueueBooks(
              inFlight[s.queue := inFlight[s.queue] + (if HoldsSlot(p) then 1 else 0) - SlotHeld(phase, s)],
              phase[s := p])
  {
    hide SlotsOn;
    var after := inFlight[s.queue := inFlight[s.queue] + (if HoldsSlot(p) then 1 else 0) - SlotHeld(phase, s)];
    forall q | q in after ensures after[q] == |SlotsOn(phase[s := p], q)| {
      SlotsMove(phase, s, p, q);
      assert inFlight[q] == |SlotsOn(phase, q)|;
    }
    forall t | t in phase[s := p] && HoldsSlot(phase[s := p][t]) ensures t.queue in after {
      assert t != s ==> t in phase && HoldsSlot(phase[t]);
    }
  }

  /** And a bot's count follows its sends, dropping out of the map at zero. */
  lemma BotMove(sending: map<Bot, int>, after: map<Bot, int>, phase: map<Slot, Phase>, s: Slot, p: Phase)
    requires BotBooks(sending, phase)
    requires forall bot | bot != s.bot ::
             (bot in after <==> bot in sending) && (bot in after ==> after[bot] == sending[bot])
    requires SendingOf(after, s.bot)
          == SendingOf(sending, s.bot) + (if HoldsSend(p) then 1 else 0) - SendHeld(phase, s)
    requires s.bot in after ==> after[s.bot] > 0
    ensures BotBooks(after, phase[s := p])
  {
    hide SendsOf;
    forall bot ensures SendingOf(after, bot) == |SendsOf(phase[s := p], bot)| {
      SendsMove(phase, s, p, bot);
      assert SendingOf(sending, bot) == |SendsOf(phase, bot)|;
      assert bot != s.bot ==> SendingOf(after, bot) == SendingOf(sending, bot);
    }
    forall bot | bot in after ensures after[bot] > 0 { assert bot != s.bot ==> sending[bot] > 0; }
  }

  lemma BooksKept(inFlight: map<string, int>, sending: map<Bot, int>, phase: map<Slot, Phase>, s: Slot, p: Phase)
    requires QueueBooks(inFlight, phase) && BotBooks(sending, phase)
    requires s in phase && HoldsSend(phase[s]) && HoldsSend(p)
    ensures QueueBooks(inFlight, phase[s := p]) && BotBooks(sending, phase[s := p])
  {
    QueueMove(inFlight, phase, s, p);
    assert inFlight[s.queue := inFlight[s.queue]] == inFlight;
    BotMove(sending, sending, phase, s, p);
  }

  lemma HeldKept(held: seq<Slot>, phase: map<Slot, Phase>, s: Slot, p: Phase)
    requires HeldBooks(held, phase) && p != Waiting && (s in phase ==> phase[s] != Waiting)
    ensures HeldBooks(held, phase[s := p])
  {
  }

  lemma FinishedKept(finished: seq<Settled>, phase: map<Slot, Phase>, s: Slot, p: Phase)
    requires FinishedBooks(finished, phase) && !Queued(p) && (s in phase ==> !Queued(phase[s]))
    ensures FinishedBooks(finished, phase[s := p])
  {
    forall i | 0 <= i < |finished| ensures finished[i].slot != s {}
  }

  lemma ReportsKept(reports: map<Slot, bool>, phase: map<Slot, Phase>, s: Slot, p: Phase)
    requires Reports(reports, phase) && s !in reports && !(p.Settling? && p.at == Callback)
    ensures Reports(reports, phase[s := p])
  {
  }

  lemma AckKept(acks: seq<nat>, next: nat, phase: map<Slot, Phase>, s: Slot, p: Phase)
    requires AckBooks(acks, next, phase) && (s.ticket in acks ==> MayAck(p))
    ensures AckBooks(acks, next, phase[s := p])
  {
  }

  lemma TicketsKept(phase: map<Slot, Phase>, handed: seq<Slot>, next: nat, s: Slot, p: Phase)
    requires Tickets(phase, handed, next) && s.ticket < next
    requires s in phase || forall t | t in phase :: t.ticket < s.ticket
    ensures Tickets(phase[s := p], handed, next) && Tickets(phase[s := p], handed + [s], next)
  {
  }

  lemma LatchMove(issued: set<Slot>, latched: set<Slot>, phase: map<Slot, Phase>, s: Slot, p: Phase)
    requires Latches(issued, latched, phase) && s in issued && p != Waiting && p != Live
    ensures Latches(issued, latched + {s}, phase[s := p])
  {
  }

  lemma LatchIssue(issued: set<Slot>, latched: set<Slot>, phase: map<Slot, Phase>, s: Slot)
    requires Latches(issued, latched, phase) && s !in issued
    ensures Latches(issued + {s}, latched, phase[s := Live])
  {
  }

  /** What a settled message's next move leaves alone, whoever makes it. */
  lemma SettledMoves(b: Books, s: Slot, p: Phase)
    requires Inv(b) && s in b.issued && p != Waiting && p != Live
    requires s.ticket in b.acks ==> MayAck(p)
    ensures HeldBooks(b.held, b.phase[s := p])
    ensures Latches(b.issued, b.latched + {s}, b.phase[s := p])
    ensures b.phase[s] != Live ==> b.latched == b.latched + {s}
    ensures AckBooks(b.acks, b.next, b.phase[s := p]) && Tickets(b.phase[s := p], b.handed, b.next)
    ensures HoldsSend(p) && HoldsSend(b.phase[s]) ==>
              QueueBooks(b.inFlight, b.phase[s := p]) && BotBooks(b.sending, b.phase[s := p])
  {
    if HoldsSend(p) && HoldsSend(b.phase[s]) {
      BooksKept(b.inFlight, b.sending, b.phase, s, p);
    }
    HeldKept(b.held, b.phase, s, p);
    LatchMove(b.issued, b.latched, b.phase, s, p);
    AckKept(b.acks, b.next, b.phase, s, p);
    TicketsKept(b.phase, b.handed, b.next, s, p);
  }

  /** What a message just taken leaves alone, whatever becomes of it. */
  lemma NewMoves(b: Books, s: Slot, p: Phase)
    requires Inv(b) && Newest(b, s) && !p.Settling?
    ensures s !in b.phase && s !in b.issued
    ensures FinishedBooks(b.finished, b.phase[s := p]) && Reports(b.reports, b.phase[s := p])
    ensures AckBooks(b.acks, b.next, b.phase[s := p])
    ensures Tickets(b.phase[s := p], b.handed, b.next) && Tickets(b.phase[s := p], b.handed + [s], b.next)
    ensures QueueBooks(if HoldsSlot(p) then b.inFlight[s.queue := b.inFlight[s.queue] + 1] else b.inFlight,
                       b.phase[s := p])
  {
    FinishedKept(b.finished, b.phase, s, p);
    ReportsKept(b.reports, b.phase, s, p);
    AckKept(b.acks, b.next, b.phase, s, p);
    TicketsKept(b.phase, b.handed, b.next, s, p);
    QueueMove(b.inFlight, b.phase, s, p);
    assert b.inFlight[s.queue := b.inFlight[s.queue]] == b.inFlight;
  }

  // ------------------------------------------------------------------ the steps

  /** `_hand_over` of a message just taken: both counts move before the handler runs. */
  function HandedNew(b: Books, s: Slot): Books
    requires s.queue in b.inFlight
  {
    b.(inFlight := b.inFlight[s.queue := b.inFlight[s.queue] + 1], sending := OneMore(b.sending, s.bot),
       issued := b.issued + {s}, phase := b.phase[s := Live], handed := b.handed + [s])
  }

  lemma FifoAppend(handed: seq<Slot>, held: seq<Slot>, s: Slot)
    requires Fifo(handed, held)
    requires forall i | 0 <= i < |handed| && handed[i].bot == s.bot :: handed[i].ticket < s.ticket
    requires forall j | 0 <= j < |held| && held[j].bot == s.bot :: s.ticket < held[j].ticket
    ensures Fifo(handed + [s], held)
  {
  }

  lemma HandedNewKeeps(b: Books, s: Slot)
    requires Inv(b) && Newest(b, s)
    requires forall i | 0 <= i < |b.held| :: b.held[i].bot != s.bot
    ensures Inv(HandedNew(b, s))
  {
    NewMoves(b, s, Live);
    HeldKept(b.held, b.phase, s, Live);
    LatchIssue(b.issued, b.latched, b.phase, s);
    BotMove(b.sending, OneMore(b.sending, s.bot), b.phase, s, Live);
    FifoAppend(b.handed, b.held, s);
  }

  /** `_hand_over` with `counted`: a parked message already holds its queue's slot. */
  function HandedParked(b: Books, i: nat): Books
    requires i < |b.held|
  {
    var s := b.held[i];
    b.(sending := OneMore(b.sending, s.bot), held := b.held[..i] + b.held[i + 1..],
       issued := b.issued + {s}, phase := b.phase[s := Live], handed := b.handed + [s])
  }

  lemma SeqWithout(held: seq<Slot>, i: nat)
    requires OldestFirst(held) && i < |held|
    ensures var left := held[..i] + held[i + 1..];
            OldestFirst(left) && forall s :: s in left <==> s in held && s != held[i]
  {
    var left := held[..i] + held[i + 1..];
    assert held == held[..i] + [held[i]] + held[i + 1..];
    assert forall j | 0 <= j < |left| :: left[j] == held[if j < i then j else j + 1];
  }

  lemma HeldWithout(held: seq<Slot>, phase: map<Slot, Phase>, i: nat)
    requires HeldBooks(held, phase) && i < |held|
    ensures HeldBooks(held[..i] + held[i + 1..], phase[held[i] := Live])
  {
    SeqWithout(held, i);
  }

  lemma FifoWithout(handed: seq<Slot>, held: seq<Slot>, i: nat)
    requires Fifo(handed, held) && i < |held|
    requires OldestFirst(held)
    requires forall j | 0 <= j < i :: held[j].bot != held[i].bot
    ensures Fifo(handed + [held[i]], held[..i] + held[i + 1..])
  {
    var left := held[..i] + held[i + 1..];
    assert forall j | 0 <= j < |left| :: left[j] == if j < i then held[j] else held[j + 1];
    FifoAppend(handed, left, held[i]);
  }

  lemma HandedParkedKeeps(b: Books, i: nat)
    requires Inv(b) && i < |b.held|
    requires forall j | 0 <= j < i :: b.held[j].bot != b.held[i].bot
    ensures Inv(HandedParked(b, i))
  {
    var s := b.held[i];
    WaitingFacts(b, s);
    hide QueueBooks, BotBooks, HeldBooks, OldestFirst, FinishedBooks, Latches, Reports, AckBooks, Fifo, Tickets;
    hide OneMore, SendingOf;
    CountsMore(b.inFlight, b.sending, b.phase, s);
    HeldWithout(b.held, b.phase, i);
    FifoWithout(b.handed, b.held, i);
    LiveMoves(b, s);
  }

  /** What a parked message handed over leaves alone. */
  lemma LiveMoves(b: Books, s: Slot)
    requires Inv(b) && s in b.phase && b.phase[s] == Waiting && s.ticket < b.next
    requires s !in b.issued && s !in b.reports && s.ticket !in b.acks
    ensures Latches(b.issued + {s}, b.latched, b.phase[s := Live]) && FinishedBooks(b.finished, b.phase[s := Live])
    ensures Reports(b.reports, b.phase[s := Live]) && AckBooks(b.acks, b.next, b.phase[s := Live])
    ensures Tickets(b.phase[s := Live], b.handed + [s], b.next)
  {
    hide QueueBooks, BotBooks, HeldBooks, FinishedBooks, Latches, Reports, AckBooks, Fifo, Tickets;
    LatchIssue(b.issued, b.latched, b.phase, s);
    FinishedKept(b.finished, b.phase, s, Live);
    ReportsKept(b.reports, b.phase, s, Live);
    AckKept(b.acks, b.next, b.phase, s, Live);
    TicketsKept(b.phase, b.handed, b.next, s, Live);
  }

  /** A message that held its queue's slot already takes one more of its bot's sends. */
  lemma CountsMore(inFlight: map<string, int>, sending: map<Bot, int>, phase: map<Slot, Phase>, s: Slot)
    requires QueueBooks(inFlight, phase) && BotBooks(sending, phase)
    requires s in phase && phase[s] == Waiting && s.queue in inFlight
    ensures QueueBooks(inFlight, phase[s := Live]) && BotBooks(OneMore(sending, s.bot), phase[s := Live])
  {
    QueueMove(inFlight, phase, s, Live);
    assert inFlight[s.queue := inFlight[s.queue]] == inFlight;
    BotMove(sending, OneMore(sending, s.bot), phase, s, Live);
  }

  /** A parked message waits, holds its queue's slot, and nothing else knows of it. */
  lemma WaitingFacts(b: Books, s: Slot)
    requires Inv(b) && s in b.held
    ensures s in b.phase && b.phase[s] == Waiting && s.queue in b.inFlight && s.ticket < b.next
    ensures s !in b.issued && s !in b.reports && s.ticket !in b.acks
    ensures OldestFirst(b.held)
  {
  }

  lemma NewLatches(b: Books, s: Slot, p: Phase)
    requires Inv(b) && Newest(b, s) && !HoldsSend(p)
    ensures Latches(b.issued, b.latched, b.phase[s := p])
  {
    assert s !in b.phase;
  }

  lemma NewestLast(b: Books, s: Slot)
    requires Inv(b) && Newest(b, s)
    ensures forall i | 0 <= i < |b.handed| :: b.handed[i].ticket < s.ticket
  {
  }

  /** A handler that takes no callback: nothing is counted, and returning settles. */
  function HandedPlain(b: Books, s: Slot, how: How): Books {
    b.(phase := b.phase[s := Ended(how)], handed := b.handed + [s])
  }

  lemma HandedPlainKeeps(b: Books, s: Slot, how: How)
    requires Inv(b) && Newest(b, s)
    requires forall i | 0 <= i < |b.held| :: b.held[i].bot != s.bot
    ensures Inv(HandedPlain(b, s, how))
  {
    assert Latches(b.issued, b.latched, b.phase[s := Ended(how)]) by { NewLatches(b, s, Ended(how)); }
    assert Fifo(b.handed + [s], b.held) by { NewestLast(b, s); FifoAppend(b.handed, b.held, s); }
    assert s !in b.phase;
    hide Latches, Fifo, AckBooks, Tickets, FinishedBooks, Reports, QueueBooks;
    HeldKept(b.held, b.phase, s, Ended(how));
    hide HeldBooks;
    BotMove(b.sending, b.sending, b.phase, s, Ended(how));
    hide BotBooks;
    NewMoves(b, s, Ended(how));
  }

  /** `_park`: one slot of the queue, and none of the bot's sends. */
  function ParkedNew(b: Books, s: Slot): Books
    requires s.queue in b.inFlight
  {
    b.(inFlight := b.inFlight[s.queue := b.inFlight[s.queue] + 1], held := b.held + [s],
       phase := b.phase[s := Waiting])
  }

  lemma ParkedNewKeeps(b: Books, s: Slot)
    requires Inv(b) && Newest(b, s)
    ensures Inv(ParkedNew(b, s))
  {
    assert BotBooks(b.sending, b.phase[s := Waiting]) by { BotMove(b.sending, b.sending, b.phase, s, Waiting); }
    assert HeldBooks(b.held + [s], b.phase[s := Waiting]) by { HeldAppend(b.held, b.phase, s); }
    assert Fifo(b.handed, b.held + [s]) by { FifoPark(b.handed, b.held, b.phase, s); }
    assert Latches(b.issued, b.latched, b.phase[s := Waiting]) by { NewLatches(b, s, Waiting); }
    hide Latches, Fifo, AckBooks, Tickets, FinishedBooks, Reports, QueueBooks, HeldBooks, BotBooks;
    NewMoves(b, s, Waiting);
  }

  lemma FifoPark(handed: seq<Slot>, held: seq<Slot>, phase: map<Slot, Phase>, s: Slot)
    requires Fifo(handed, held) && forall t | t in phase :: t.ticket < s.ticket
    requires forall i | 0 <= i < |handed| :: handed[i] in phase
    ensures Fifo(handed, held + [s])
  {
  }

  lemma HeldAppend(held: seq<Slot>, phase: map<Slot, Phase>, s: Slot)
    requires HeldBooks(held, phase) && forall t | t in phase :: t.ticket < s.ticket
    ensures HeldBooks(held + [s], phase[s := Waiting])
  {
    assert (held + [s])[|held|] == s;
    forall t | t in phase && phase[t] == Waiting ensures t in held + [s] {}
  }

  /** `on_complete` or `on_refused` winning the latch. */
  function Claimed(b: Books, s: Slot, delivered: bool): Books {
    b.(latched := b.latched + {s}, reports := b.reports[s := delivered],
       phase := b.phase[s := Settling(HowOf(delivered), Callback)])
  }

  lemma ClaimedKeeps(b: Books, s: Slot, delivered: bool)
    requires Inv(b) && s in b.issued && s !in b.latched
    ensures Inv(Claimed(b, s, delivered))
  {
    SettledMoves(b, s, Settling(HowOf(delivered), Callback));
    FinishedKept(b.finished, b.phase, s, Settling(HowOf(delivered), Callback));
    ReportsAdd(b.reports, b.phase, s, delivered);
  }

  lemma ReportsAdd(reports: map<Slot, bool>, phase: map<Slot, Phase>, s: Slot, delivered: bool)
    requires Reports(reports, phase)
    ensures Reports(reports[s := delivered], phase[s := Settling(HowOf(delivered), Callback)])
  {
  }

  /** The callback that won putting its settlement on the queue. */
  function Reported(b: Books, s: Slot): Books
    requires s in b.reports
  {
    b.(reports := b.reports - {s}, finished := b.finished + [Settled(s, b.reports[s])],
       phase := b.phase[s := Settling(HowOf(b.reports[s]), Queue)])
  }

  lemma ReportedKeeps(b: Books, s: Slot)
    requires Inv(b) && s in b.reports
    ensures Inv(Reported(b, s))
  {
    SettledMoves(b, s, Settling(HowOf(b.reports[s]), Queue));
    FinishedAppend(b.finished, b.phase, s, b.reports[s]);
    ReportsDrop(b.reports, b.phase, s);
  }

  lemma ReportsDrop(reports: map<Slot, bool>, phase: map<Slot, Phase>, s: Slot)
    requires Reports(reports, phase) && s in reports
    ensures Reports(reports - {s}, phase[s := Settling(HowOf(reports[s]), Queue)])
  {
  }

  lemma FinishedAppend(finished: seq<Settled>, phase: map<Slot, Phase>, s: Slot, delivered: bool)
    requires FinishedBooks(finished, phase) && s in phase && !Queued(phase[s])
    ensures FinishedBooks(finished + [Settled(s, delivered)], phase[s := Settling(HowOf(delivered), Queue)])
  {
    var longer := finished + [Settled(s, delivered)];
    assert longer[|finished|].slot == s;
    forall t | t in phase && Queued(phase[t])
      ensures exists i :: 0 <= i < |longer| && longer[i].slot == t
    {
      var i :| 0 <= i < |finished| && finished[i].slot == t;
      assert longer[i].slot == t;
    }
  }

  /** The exception path of `_hand_over` winning the latch. */
  function Caught(b: Books, s: Slot, how: How): Books {
    b.(latched := b.latched + {s}, phase := b.phase[s := Settling(how, Consumer)])
  }

  lemma CaughtKeeps(b: Books, s: Slot, how: How)
    requires Inv(b) && s in b.issued && s !in b.latched
    ensures Inv(Caught(b, s, how))
  {
    SettledMoves(b, s, Settling(how, Consumer));
    FinishedKept(b.finished, b.phase, s, Settling(how, Consumer));
    ReportsKept(b.reports, b.phase, s, Settling(how, Consumer));
  }

  /** The consumer taking the oldest settlement off the queue. */
  function Popped(b: Books): Books
    requires b.finished != []
  {
    var first := b.finished[0];
    b.(finished := b.finished[1..], phase := b.phase[first.slot := Settling(HowOf(first.delivered), Consumer)])
  }

  lemma PoppedKeeps(b: Books)
    requires Inv(b) && b.finished != []
    ensures Inv(Popped(b))
  {
    var s, p := b.finished[0].slot, Settling(HowOf(b.finished[0].delivered), Consumer);
    SettledMoves(b, s, p);
    ReportsKept(b.reports, b.phase, s, p);
    FinishedPop(b.finished, b.phase, p);
  }

  lemma FinishedPop(finished: seq<Settled>, phase: map<Slot, Phase>, p: Phase)
    requires FinishedBooks(finished, phase) && finished != [] && !Queued(p)
    ensures FinishedBooks(finished[1..], phase[finished[0].slot := p])
  {
    var left, s := finished[1..], finished[0].slot;
    forall t | t in phase && Queued(phase[t]) && t != s
      ensures exists i :: 0 <= i < |left| && left[i].slot == t
    {
      var i :| 0 <= i < |finished| && finished[i].slot == t;
      assert left[i - 1].slot == t;
    }
  }

  /** `_took_a_slot_back`. */
  function GaveBack(b: Books, s: Slot): Books
    requires s.queue in b.inFlight && s in b.phase && b.phase[s].Settling?
  {
    b.(inFlight := b.inFlight[s.queue := b.inFlight[s.queue] - 1], sending := OneLess(b.sending, s.bot),
       phase := b.phase[s := Ended(b.phase[s].how)])
  }

  /** A message in the consumer's hands holds both its counts, and nothing else will settle it. */
  lemma SettlingFacts(b: Books, s: Slot)
    requires Inv(b) && s in b.phase && b.phase[s].Settling? && b.phase[s].at == Consumer
    ensures s in b.issued && s in b.latched && s !in b.reports && s.ticket !in b.acks
    ensures s.queue in b.inFlight && b.inFlight[s.queue] > 0 && SendingOf(b.sending, s.bot) > 0
    ensures b.latched + {s} == b.latched
  {
    assert s in SlotsOn(b.phase, s.queue) && s in SendsOf(b.phase, s.bot);
  }

  /** The slots given back are there to give: neither count can go below zero. */
  lemma GaveBackKeeps(b: Books, s: Slot)
    requires Inv(b) && s in b.phase && b.phase[s].Settling? && b.phase[s].at == Consumer
    ensures s.queue in b.inFlight && b.inFlight[s.queue] > 0 && SendingOf(b.sending, s.bot) > 0
    ensures Inv(GaveBack(b, s))
  {
    SettlingFacts(b, s);
    var p := Ended(b.phase[s].how);
    hide QueueBooks, BotBooks, HeldBooks, OldestFirst, FinishedBooks, Latches, Reports, AckBooks, Fifo, Tickets;
    hide OneLess, SendingOf;
    SettledMoves(b, s, p);
    FinishedKept(b.finished, b.phase, s, p);
    ReportsKept(b.reports, b.phase, s, p);
    CountsLess(b.inFlight, b.sending, b.phase, s, p);
  }

  lemma CountsLess(inFlight: map<string, int>, sending: map<Bot, int>, phase: map<Slot, Phase>, s: Slot, p: Phase)
    requires QueueBooks(inFlight, phase) && BotBooks(sending, phase) && s.queue in inFlight
    requires s in phase && HoldsSend(phase[s]) && p.Ended?
    ensures QueueBooks(inFlight[s.queue := inFlight[s.queue] - 1], phase[s := p])
    ensures BotBooks(OneLess(sending, s.bot), phase[s := p])
  {
    hide QueueBooks, BotBooks, OneLess, SendingOf;
    QueueMove(inFlight, phase, s, p);
    BotLess(sending, phase, s, p);
  }

  lemma BotLess(sending: map<Bot, int>, phase: map<Slot, Phase>, s: Slot, p: Phase)
    requires BotBooks(sending, phase) && s in phase && HoldsSend(phase[s]) && !HoldsSend(p)
    ensures BotBooks(OneLess(sending, s.bot), phase[s := p])
  {
    assert s in SendsOf(phase, s.bot);
    BotMove(sending, OneLess(sending, s.bot), phase, s, p);
  }

  /** `acknowledge`, the one call that lets a message leave the transport. */
  function Acked(b: Books, ticket: nat): Books { b.(acks := b.acks + [ticket]) }

  lemma AckedKeeps(b: Books, ticket: nat)
    requires Inv(b) && ticket < b.next && ticket !in b.acks
    requires forall s | s in b.phase && s.ticket == ticket :: MayAck(b.phase[s])
    ensures Inv(Acked(b, ticket))
  {
    assert AckBooks(b.acks + [ticket], b.next, b.phase);
  }

  /** `serve` on the counts: a queue that arrives starts at zero, the others keep theirs. */
  function Widened(b: Books, names: seq<string>): Books {
    b.(inFlight := (map q | q in names :: 0) + b.inFlight)
  }

  lemma WidenedKeeps(b: Books, names: seq<string>)
    requires Inv(b)
    ensures Inv(Widened(b, names))
  {
    forall q | q in names && q !in b.inFlight ensures SlotsOn(b.phase, q) == {} {}
    assert QueueBooks(Widened(b, names).inFlight, b.phase);
  }

  /** `_forget_retired` on the counts. */
  function Forgotten(b: Books, names: set<string>): Books { b.(inFlight := b.inFlight - names) }

  /** Only a queue with nothing outstanding may be forgotten, and then nothing is lost. */
  lemma ForgottenKeeps(b: Books, names: set<string>)
    requires Inv(b)
    requires forall q | q in names && q in b.inFlight :: b.inFlight[q] <= 0
    ensures Inv(Forgotten(b, names))
  {
    forall s | s in b.phase && HoldsSlot(b.phase[s]) ensures s.queue !in names {
      assert s in SlotsOn(b.phase, s.queue);
    }
    assert QueueBooks(Forgotten(b, names).inFlight, b.phase);
  }

  // ------------------------------------------------------------------ whole runs

  datatype Step =
    | Take
    | HandNew(s: Slot) | HandParked(i: nat) | HandPlain(s: Slot, how: How) | Park(s: Slot)
    | Claim(s: Slot, delivered: bool) | Report(s: Slot) | Catch(s: Slot, how: How)
    | Pop | GiveBack(s: Slot) | Acknowledge(ticket: nat)
    | Serve(names: seq<string>) | Forget(retired: set<string>)

  /** When a thread may take the step; which thread does, and in which order, is nobody's promise. */
  ghost predicate Enabled(b: Books, step: Step) {
    match step
    case Take => true
    case HandNew(s) => Newest(b, s) && forall i | 0 <= i < |b.held| :: b.held[i].bot != s.bot
    case HandParked(i) => i < |b.held| && forall j | 0 <= j < i :: b.held[j].bot != b.held[i].bot
    case HandPlain(s, how) => Newest(b, s) && forall i | 0 <= i < |b.held| :: b.held[i].bot != s.bot
    case Park(s) => Newest(b, s)
    case Claim(s, _) => s in b.issued && s !in b.latched
    case Report(s) => s in b.reports
    case Catch(s, _) => s in b.issued && s !in b.latched
    case Pop => b.finished != []
    case GiveBack(s) => s.queue in b.inFlight && s in b.phase && b.phase[s].Settling? && b.phase[s].at == Consumer
    case Acknowledge(ticket) =>
      ticket < b.next && ticket !in b.acks && forall s | s in b.phase && s.ticket == ticket :: MayAck(b.phase[s])
    case Serve(_) => true
    case Forget(retired) => forall q | q in retired && q in b.inFlight :: b.inFlight[q] <= 0
  }

  ghost function After(b: Books, step: Step): Books
    requires Enabled(b, step)
  {
    match step
    case Take => b.(next := b.next + 1)
    case HandNew(s) => HandedNew(b, s)
    case HandParked(i) => HandedParked(b, i)
    case HandPlain(s, how) => HandedPlain(b, s, how)
    case Park(s) => ParkedNew(b, s)
    case Claim(s, delivered) => Claimed(b, s, delivered)
    case Report(s) => Reported(b, s)
    case Catch(s, how) => Caught(b, s, how)
    case Pop => Popped(b)
    case GiveBack(s) => GaveBack(b, s)
    case Acknowledge(ticket) => Acked(b, ticket)
    case Serve(names) => Widened(b, names)
    case Forget(retired) => Forgotten(b, retired)
  }

  lemma TakenKeeps(b: Books)
    requires Inv(b)
    ensures Inv(b.(next := b.next + 1))
  {
    assert AckBooks(b.acks, b.next + 1, b.phase) && Tickets(b.phase, b.handed, b.next + 1);
  }

  lemma StepKeeps(b: Books, step: Step)
    requires Inv(b) && Enabled(b, step)
    ensures Inv(After(b, step))
  {
    hide Inv, HandedNew, HandedParked, HandedPlain, ParkedNew, Claimed, Reported, Caught, Popped, GaveBack, Acked,
      Widened, Forgotten;
    match step
    case Take => TakenKeeps(b);
    case HandNew(s) => HandedNewKeeps(b, s);
    case HandParked(i) => HandedParkedKeeps(b, i);
    case HandPlain(s, how) => HandedPlainKeeps(b, s, how);
    case Park(s) => ParkedNewKeeps(b, s);
    case Claim(s, delivered) => ClaimedKeeps(b, s, delivered);
    case Report(s) => ReportedKeeps(b, s);
    case Catch(s, how) => CaughtKeeps(b, s, how);
    case Pop => PoppedKeeps(b);
    case GiveBack(s) => GaveBackKeeps(b, s);
    case Acknowledge(ticket) => AckedKeeps(b, ticket);
    case Serve(names) => WidenedKeeps(b, names);
    case Forget(retired) => ForgottenKeeps(b, retired);
  }

  /** The books a consumer starts with. */
  function Fresh(queues: seq<string>): Books {
    Books(map q | q in queues :: 0, map[], [], [], {}, {}, map[], map[], [], [], 0)
  }

  ghost predicate IsRun(states: seq<Books>, steps: seq<Step>) {
    && |states| == |steps| + 1
    && forall i | 0 <= i < |steps| :: Enabled(states[i], steps[i]) && states[i + 1] == After(states[i], steps[i])
  }

  /** Every state of every run: the slots, the latches, the acknowledgements and the order are right. */
  lemma {:induction false} EveryReachableState(queues: seq<string>, states: seq<Books>, steps: seq<Step>, i: nat)
    requires IsRun(states, steps) && states[0] == Fresh(queues) && i < |states|
    ensures Inv(states[i])
  {
    hide Inv, Fresh, Enabled, After;
    if i == 0 {
      FreshInv(queues);
    } else {
      EveryReachableState(queues, states, steps, i - 1);
      StepKeeps(states[i - 1], steps[i - 1]);
    }
  }

  lemma FreshInv(queues: seq<string>)
    ensures Inv(Fresh(queues))
  {
    forall q ensures SlotsOn(map[], q) == {} {}
    forall bot ensures SendsOf(map[], bot) == {} {}
  }

  /** The books some run from a fresh consumer leads to. */
  ghost predicate Reached(b: Books) {
    exists queues: seq<string>, states: seq<Books>, steps: seq<Step> :: Leads(queues, states, steps, b)
  }

  ghost predicate Leads(queues: seq<string>, states: seq<Books>, steps: seq<Step>, b: Books) {
    IsRun(states, steps) && states[0] == Fresh(queues) && states[|steps|] == b
  }

  lemma ReachedFresh(queues: seq<string>)
    ensures Reached(Fresh(queues))
  {
    assert Leads(queues, [Fresh(queues)], [], Fresh(queues));
  }

  /** A step that is enabled leads on. */
  lemma Goes(b: Books, step: Step)
    requires Reached(b) && Enabled(b, step)
    ensures Reached(After(b, step))
  {
    hide Enabled, After;
    var queues, states, steps :| Leads(queues, states, steps, b);
    var more, then_ := states + [After(b, step)], steps + [step];
    forall i | 0 <= i < |then_| ensures Enabled(more[i], then_[i]) && more[i + 1] == After(more[i], then_[i]) {
      if i < |steps| { assert more[i] == states[i] && more[i + 1] == states[i + 1] && then_[i] == steps[i]; }
    }
    assert Leads(queues, more, then_, After(b, step));
  }

  lemma ReachedInv(b: Books)
    requires Reached(b)
    ensures Inv(b)
  {
    hide Inv;
    var queues, states, steps :| Leads(queues, states, steps, b);
    EveryReachableState(queues, states, steps, |steps|);
  }

  /** Messages of one queue that a thread is sending or settling outside the two queues. */
  ghost function InHands(phase: map<Slot, Phase>, q: string): set<Slot> {
    set s | s in phase && HoldsSend(phase[s]) && !Queued(phase[s]) && s.queue == q
  }

  ghost function Uncollected(finished: seq<Settled>, q: string): set<Slot> {
    set e | e in finished && e.slot.queue == q :: e.slot
  }

  ghost function ParkedOn(held: seq<Slot>, q: string): set<Slot> {
    set s | s in held && s.queue == q
  }

  lemma UncollectedAre(finished: seq<Settled>, phase: map<Slot, Phase>, q: string)
    requires FinishedBooks(finished, phase)
    ensures Uncollected(finished, q) == set s | s in phase && Queued(phase[s]) && s.queue == q
  {
    forall s | s in phase && Queued(phase[s]) && s.queue == q ensures s in Uncollected(finished, q) {
      var i :| 0 <= i < |finished| && finished[i].slot == s;
      assert finished[i] in finished;
    }
  }

  lemma SlotsSplit(phase: map<Slot, Phase>, q: string, queued: set<Slot>, waiting: set<Slot>)
    requires queued == set s | s in phase && Queued(phase[s]) && s.queue == q
    requires waiting == set s | s in phase && phase[s] == Waiting && s.queue == q
    ensures |SlotsOn(phase, q)| == |InHands(phase, q)| + |queued| + |waiting|
  {
    assert SlotsOn(phase, q) == InHands(phase, q) + queued + waiting;
  }

  /** A queue's count is its sends not yet settled, its settlements not yet collected and its parked messages. */
  lemma WhereTheSlotsAre(b: Books, q: string)
    requires Inv(b) && q in b.inFlight
    ensures b.inFlight[q] == |InHands(b.phase, q)| + |Uncollected(b.finished, q)| + |ParkedOn(b.held, q)|
  {
    UncollectedAre(b.finished, b.phase, q);
    assert ParkedOn(b.held, q) == set s | s in b.phase && b.phase[s] == Waiting && s.queue == q;
    SlotsSplit(b.phase, q, Uncollected(b.finished, q), ParkedOn(b.held, q));
  }

  ghost function InHandsOf(phase: map<Slot, Phase>, bot: Bot): set<Slot> {
    set s | s in phase && HoldsSend(phase[s]) && !Queued(phase[s]) && s.bot == bot
  }

  ghost function UncollectedOf(finished: seq<Settled>, bot: Bot): set<Slot> {
    set e | e in finished && e.slot.bot == bot :: e.slot
  }

  /** A bot's count is its sends not yet settled and its settlements not yet collected; nothing parked is in it. */
  lemma WhereTheSendsAre(b: Books, bot: Bot)
    requires Inv(b)
    ensures SendingOf(b.sending, bot) == |InHandsOf(b.phase, bot)| + |UncollectedOf(b.finished, bot)|
  {
    UncollectedOfAre(b.finished, b.phase, bot);
    SendsSplit(b.phase, bot, UncollectedOf(b.finished, bot));
  }

  lemma UncollectedOfAre(finished: seq<Settled>, phase: map<Slot, Phase>, bot: Bot)
    requires FinishedBooks(finished, phase)
    ensures UncollectedOf(finished, bot) == set s | s in phase && Queued(phase[s]) && s.bot == bot
  {
    forall s | s in phase && Queued(phase[s]) && s.bot == bot ensures s in UncollectedOf(finished, bot) {
      var i :| 0 <= i < |finished| && finished[i].slot == s;
      assert finished[i] in finished;
    }
  }

  lemma SendsSplit(phase: map<Slot, Phase>, bot: Bot, queued: set<Slot>)
    requires queued == set s | s in phase && Queued(phase[s]) && s.bot == bot
    ensures |SendsOf(phase, bot)| == |InHandsOf(phase, bot)| + |queued|
  {
    assert SendsOf(phase, bot) == InHandsOf(phase, bot) + queued;
  }

  /** A bot at its budget has a send that will free it, so nothing parked for it waits on nothing. */
  lemma SomethingWillFreeIt(b: Books, bot: Bot, perBot: nat)
    requires Inv(b) && perBot > 0 && SendingOf(b.sending, bot) >= perBot
    ensures exists s :: s in b.phase && s.bot == bot && HoldsSend(b.phase[s])
  {
    assert SendsOf(b.phase, bot) != {};
    var s :| s in SendsOf(b.phase, bot);
  }
}
