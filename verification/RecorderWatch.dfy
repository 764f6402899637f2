/** Who still looks at the recorder's queues (eventlog/recorder.py): producers that put and look again,
    rehomers, writers and whoever stops them. An event in a queue nobody looks at again is neither a row
    nor a count. Every step is one queue operation, one read or write of `self._queue`, or one movement
    of the ledger. */
module RecorderWatch {
  import opened Options

  /** Where a thread is, with the queue it holds. */
  datatype Role =
    | Putting(queue: nat, event: nat)                   // `record`, the queue looked up
    | Checking(queue: nat)                              // put, and not yet looked whether it is still live
    | Rehoming(queue: nat)                              // `_rehome`, taking from the detached queue
    | Carrying(queue: nat, event: nat)                  // took one
    | Placing(queue: nat, event: nat, target: nat)      // and looked the live queue up for it
    | Writing(queue: nat)                               // the queue's writer, in its loop
    | Abandoning(queue: nat)                            // a writer on its way out, or `stop`: draining to empty

  /** How many events were admitted, are with a drainer on their way to the database, are rows, are counted lost
      and not yet told of, are claimed by somebody about to tell, and were told of. */
  datatype Ledger = Ledger(admitted: nat, batch: nat, rows: nat, dropped: nat, claimed: nat, reported: nat)

  datatype State = State(live: Option<nat>, queues: seq<seq<nat>>, actors: map<nat, Role>, next: nat, books: Ledger)

  datatype Step =
    | Record(event: nat) | Put(a: nat) | Look(a: nat)
    | Get(a: nat) | Find(a: nat) | Place(a: nat)
    | Write(a: nat) | Leave(a: nat) | Drain(a: nat)
    | Stop
    | Take(queue: nat)                                  // `drain_once`, on any thread
    | Land | Lose                                       // an event out of a batch: a row, or counted
    | Claim(upto: nat) | Tell(count: nat) | GiveBack(count: nat)

  /** Will look at its queue again, until it has seen it empty. One that is only putting will not. */
  predicate Watches(r: Role, i: nat) { !r.Putting? && r.queue == i }

  ghost predicate Watched(s: State, i: nat) { exists a :: a in s.actors && Watches(s.actors[a], i) }

  /** `_buffer`: the live queue, or a new one with its writer. */
  function Buffered(s: State): State {
    if s.live.Some? then s
    else State(Some(|s.queues|), s.queues + [[]], s.actors[s.next := Writing(|s.queues|)], s.next + 1, s.books)
  }

  function Plays(s: State, a: nat, r: Role): State { s.(actors := s.actors[a := r]) }

  function Gone(s: State, a: nat): State { s.(actors := s.actors - {a}) }

  function Added(s: State, i: nat, event: nat): State
    requires i < |s.queues|
  {
    s.(queues := s.queues[i := s.queues[i] + [event]])
  }

  function Popped(s: State, i: nat): State
    requires i < |s.queues| && s.queues[i] != []
  {
    s.(queues := s.queues[i := s.queues[i][1..]])
  }

  /** A drainer's get: the event joins its batch. */
  function Drawn(s: State, i: nat): State
    requires i < |s.queues| && s.queues[i] != []
  {
    Popped(s, i).(books := s.books.(batch := s.books.batch + 1))
  }

  /** An event a full queue does not take, counted. */
  function Dropped(s: State): State { s.(books := s.books.(dropped := s.books.dropped + 1)) }

  predicate Holds(s: State, i: nat) { i < |s.queues| && s.queues[i] != [] }

  predicate Enabled(s: State, step: Step) {
    match step
    case Record(_) => true
    case Put(a) => a in s.actors && s.actors[a].Putting? && s.actors[a].queue < |s.queues|
    case Look(a) => a in s.actors && s.actors[a].Checking?
    case Get(a) => a in s.actors && s.actors[a].Rehoming?
    case Find(a) => a in s.actors && s.actors[a].Carrying?
    case Place(a) => a in s.actors && s.actors[a].Placing? && s.actors[a].target < |s.queues|
    case Write(a) => a in s.actors && s.actors[a].Writing? && Holds(s, s.actors[a].queue)
    case Leave(a) => a in s.actors && s.actors[a].Writing?
    case Drain(a) => a in s.actors && s.actors[a].Abandoning?
    case Stop => s.live.Some?
    case Take(i) => Holds(s, i)
    case Land => s.books.batch > 0
    case Lose => s.books.batch > 0
    case Claim(_) => true
    case Tell(count) => count <= s.books.claimed
    case GiveBack(count) => count <= s.books.claimed
  }

  /** What a movement of the ledger alone leaves in it. */
  function Moved(b: Ledger, step: Step): Ledger
    requires step.Land? || step.Lose? ==> b.batch > 0
    requires step.Tell? || step.GiveBack? ==> step.count <= b.claimed
  {
    match step
    case Land => b.(batch := b.batch - 1, rows := b.rows + 1)
    case Lose => b.(batch := b.batch - 1, dropped := b.dropped + 1)
    case Claim(upto) =>
      var n := if upto < b.dropped then upto else b.dropped;
      b.(dropped := b.dropped - n, claimed := b.claimed + n)
    case Tell(count) => b.(claimed := b.claimed - count, reported := b.reported + count)
    case GiveBack(count) => b.(claimed := b.claimed - count, dropped := b.dropped + count)
    case _ => b
  }

  /** `capacity` is what a queue takes; an event it has no room for is counted, and so nobody's. */
  function Next(s: State, step: Step, capacity: nat): State
    requires Enabled(s, step)
  {
    match step
    case Record(event) =>
      var t := Buffered(s);
      Plays(t, t.next, Putting(t.live.value, event)).(next := t.next + 1,
                                                      books := t.books.(admitted := t.books.admitted + 1))
    case Put(a) =>
      var r := s.actors[a];
      if |s.queues[r.queue]| < capacity then Plays(Added(s, r.queue, r.event), a, Checking(r.queue))
      else Gone(Dropped(s), a)
    case Look(a) => if s.live == Some(s.actors[a].queue) then Gone(s, a) else Plays(s, a, Rehoming(s.actors[a].queue))
    case Get(a) =>
      var i := s.actors[a].queue;
      if Holds(s, i) then Plays(Popped(s, i), a, Carrying(i, s.queues[i][0])) else Gone(s, a)
    case Find(a) =>
      var t := Buffered(s);
      Plays(t, a, Placing(s.actors[a].queue, s.actors[a].event, t.live.value))
    case Place(a) =>
      var r := s.actors[a];
      Plays(if |s.queues[r.target]| < capacity then Added(s, r.target, r.event) else Dropped(s), a,
            Rehoming(r.queue))
    case Write(a) => Drawn(s, s.actors[a].queue)
    case Leave(a) =>
      var i := s.actors[a].queue;
      Plays(s.(live := if s.live == Some(i) then None else s.live), a, Abandoning(i))
    case Drain(a) => if Holds(s, s.actors[a].queue) then Drawn(s, s.actors[a].queue) else Gone(s, a)
    case Stop => s.(live := None, actors := s.actors[s.next := Abandoning(s.live.value)], next := s.next + 1)
    case Take(i) => Drawn(s, i)
    case _ => s.(books := Moved(s.books, step))
  }

  // ------------------------------------------------------------------ what every step keeps

  /** The live queue has its writer, and nobody holds a queue there is not. */
  ghost predicate Shape(s: State) {
    && (s.live.Some? ==> s.live.value < |s.queues| && exists a :: a in s.actors && s.actors[a] == Writing(s.live.value))
    && (forall a | a in s.actors :: a < s.next && s.actors[a].queue < |s.queues|)
    && (forall a | a in s.actors && s.actors[a].Placing? :: s.actors[a].target < |s.queues|)
  }

  /** Every event in a queue, live or detached, has somebody who will look at that queue again. */
  ghost predicate AllWatched(s: State) { forall i | Holds(s, i) :: Watched(s, i) }

  ghost predicate Inv(s: State) { Shape(s) && AllWatched(s) }

  lemma LiveIsWatched(s: State)
    requires Shape(s) && s.live.Some?
    ensures Watched(s, s.live.value)
  {
    var a :| a in s.actors && s.actors[a] == Writing(s.live.value);
    assert Watches(s.actors[a], s.live.value);
  }

  /** One actor's change of role: every other watcher stays. */
  lemma WatchersStay(s: State, t: State, a: nat, i: nat)
    requires Watched(s, i) && forall b | b in s.actors && b != a :: b in t.actors && t.actors[b] == s.actors[b]
    requires a in s.actors && Watches(s.actors[a], i) ==> a in t.actors && Watches(t.actors[a], i)
    ensures Watched(t, i)
  {
    var b :| b in s.actors && Watches(s.actors[b], i);
    assert b in t.actors && Watches(t.actors[b], i);
  }

  /** Nobody but `a` changes, and `a` keeps its watch unless its queue is left empty, or live. */
  lemma OneChanges(s: State, t: State, a: nat)
    requires Inv(s) && Shape(t)
    requires forall b | b in s.actors && b != a :: b in t.actors && t.actors[b] == s.actors[b]
    requires forall i | Holds(t, i) && !Holds(s, i) :: Watched(t, i)
    requires forall i | Holds(t, i) && a in s.actors && Watches(s.actors[a], i) :: Watched(t, i)
    ensures Inv(t)
  {
    forall i | Holds(t, i) ensures Watched(t, i) {
      if Holds(s, i) && !(a in s.actors && Watches(s.actors[a], i)) { WatchersStay(s, t, a, i); }
    }
  }

  lemma BufferedKeeps(s: State)
    requires Inv(s)
    ensures Inv(Buffered(s)) && Buffered(s).live.Some?
    ensures forall a | a in s.actors :: a in Buffered(s).actors && Buffered(s).actors[a] == s.actors[a]
    ensures Buffered(s).next !in Buffered(s).actors && |s.queues| <= |Buffered(s).queues|
  {
    if s.live.None? {
      var t := Buffered(s);
      assert t.actors[s.next] == Writing(|s.queues|);
      forall i: nat | Holds(t, i) ensures Holds(s, i) { assert t.queues[i] == s.queues[i]; }
      OneChanges(s, t, s.next);
    }
  }

  lemma RecordKeeps(s: State, event: nat, capacity: nat)
    requires Inv(s)
    ensures Inv(Next(s, Record(event), capacity))
  {
    BufferedKeeps(s);
    var t := Buffered(s);
    var u := Next(s, Record(event), capacity);
    var w :| w in t.actors && t.actors[w] == Writing(t.live.value);
    assert u.actors[w] == Writing(u.live.value);
    OneChanges(t, u, t.next);
  }

  lemma PutKeeps(s: State, a: nat, capacity: nat)
    requires Inv(s) && Enabled(s, Put(a))
    ensures Inv(Next(s, Put(a), capacity))
  {
    var t := Next(s, Put(a), capacity);
    WriterStays(s, t, a);
    if |s.queues[s.actors[a].queue]| < capacity { assert Watches(t.actors[a], s.actors[a].queue); }
    OneChanges(s, t, a);
  }

  /** A step of somebody who is not the live queue's writer leaves that writer where it is. */
  lemma WriterStays(s: State, t: State, a: nat)
    requires Shape(s) && t.live == s.live && |s.queues| <= |t.queues|
    requires a in s.actors && !s.actors[a].Writing?
    requires forall b | b in s.actors && b != a :: b in t.actors && t.actors[b] == s.actors[b]
    ensures t.live.Some? ==>
              t.live.value < |t.queues| && exists w :: w in t.actors && t.actors[w] == Writing(t.live.value)
  {
    if s.live.Some? {
      var w :| w in s.actors && s.actors[w] == Writing(s.live.value);
      assert t.actors[w] == Writing(t.live.value);
    }
  }

  lemma LookKeeps(s: State, a: nat, capacity: nat)
    requires Inv(s) && Enabled(s, Look(a))
    ensures Inv(Next(s, Look(a), capacity))
  {
    var t := Next(s, Look(a), capacity);
    WriterStays(s, t, a);
    if s.live == Some(s.actors[a].queue) { LiveIsWatched(t); } else { assert Watches(t.actors[a], s.actors[a].queue); }
    OneChanges(s, t, a);
  }

  lemma GetKeeps(s: State, a: nat, capacity: nat)
    requires Inv(s) && Enabled(s, Get(a))
    ensures Inv(Next(s, Get(a), capacity))
  {
    var t := Next(s, Get(a), capacity);
    WriterStays(s, t, a);
    if Holds(s, s.actors[a].queue) { assert Watches(t.actors[a], s.actors[a].queue); }
    OneChanges(s, t, a);
  }

  lemma FindKeeps(s: State, a: nat, capacity: nat)
    requires Inv(s) && Enabled(s, Find(a))
    ensures Inv(Next(s, Find(a), capacity))
  {
    BufferedKeeps(s);
    var t, u := Buffered(s), Next(s, Find(a), capacity);
    WriterStays(t, u, a);
    assert Watches(u.actors[a], s.actors[a].queue);
    OneChanges(t, u, a);
  }

  /** An event rehomed is left to nobody exactly where its new queue has room and nobody looks at that
      queue any more. */
  lemma PlaceKeepsIff(s: State, a: nat, capacity: nat)
    requires Inv(s) && Enabled(s, Place(a))
    ensures var r := s.actors[a];
            Inv(Next(s, Place(a), capacity)) <==> Watched(s, r.target) || |s.queues[r.target]| >= capacity
  {
    var r, t := s.actors[a], Next(s, Place(a), capacity);
    WriterStays(s, t, a);
    assert Watches(t.actors[a], r.queue);
    if |s.queues[r.target]| < capacity {
      assert Holds(t, r.target);
      if Watched(s, r.target) {
        WatchersStay(s, t, a, r.target);
        OneChanges(s, t, a);
      } else {
        assert forall b | b in t.actors ::
          b in s.actors && Watches(t.actors[b], r.target) == Watches(s.actors[b], r.target);
      }
    } else {
      OneChanges(s, t, a);
    }
  }

  lemma LeaveKeeps(s: State, a: nat, capacity: nat)
    requires Inv(s) && Enabled(s, Leave(a))
    ensures Inv(Next(s, Leave(a), capacity))
  {
    var t := Next(s, Leave(a), capacity);
    if t.live.Some? {
      var w :| w in s.actors && s.actors[w] == Writing(s.live.value);
      assert t.actors[w] == Writing(t.live.value);
    }
    assert Watches(t.actors[a], s.actors[a].queue);
    OneChanges(s, t, a);
  }

  lemma DrainKeeps(s: State, a: nat, capacity: nat)
    requires Inv(s) && Enabled(s, Drain(a))
    ensures Inv(Next(s, Drain(a), capacity))
  {
    var t := Next(s, Drain(a), capacity);
    WriterStays(s, t, a);
    if Holds(s, s.actors[a].queue) { assert Watches(t.actors[a], s.actors[a].queue); }
    OneChanges(s, t, a);
  }

  lemma StopKeeps(s: State, capacity: nat)
    requires Inv(s) && Enabled(s, Stop)
    ensures Inv(Next(s, Stop, capacity))
  {
    OneChanges(s, Next(s, Stop, capacity), s.next);
  }

  /** Taking from a queue, by its writer or by anybody. */
  lemma PopKeeps(s: State, i: nat)
    requires Inv(s) && Holds(s, i)
    ensures Inv(Drawn(s, i))
  {
    var t := Drawn(s, i);
    forall j: nat | Holds(t, j) ensures Watched(t, j) {
      assert Holds(s, j) && Watched(s, j);
      var b :| b in s.actors && Watches(s.actors[b], j);
      assert b in t.actors && Watches(t.actors[b], j);
    }
  }

  /** This step leaves an event to nobody. */
  ghost predicate Strands(s: State, step: Step, capacity: nat)
    requires Enabled(s, step)
  {
    step.Place? && |s.queues[s.actors[step.a].target]| < capacity && !Watched(s, s.actors[step.a].target)
  }

  /** A step keeps every event watched if and only if it is not a rehoming into a queue nobody looks at. */
  lemma StepKeepsIff(s: State, step: Step, capacity: nat)
    requires Inv(s) && Enabled(s, step)
    ensures Inv(Next(s, step, capacity)) <==> !Strands(s, step, capacity)
  {
    hide Inv, Next;
    match step
    case Record(event) => RecordKeeps(s, event, capacity);
    case Put(a) => PutKeeps(s, a, capacity);
    case Look(a) => LookKeeps(s, a, capacity);
    case Get(a) => GetKeeps(s, a, capacity);
    case Find(a) => FindKeeps(s, a, capacity);
    case Place(a) => PlaceKeepsIff(s, a, capacity);
    case Write(a) => WriteKeeps(s, a, capacity);
    case Leave(a) => LeaveKeeps(s, a, capacity);
    case Drain(a) => DrainKeeps(s, a, capacity);
    case Stop => StopKeeps(s, capacity);
    case Take(i) => TakeKeeps(s, i, capacity);
    case _ => MovedKeeps(s, step, capacity);
  }

  /** The ledger is nothing to the watchers. */
  lemma MovedKeeps(s: State, step: Step, capacity: nat)
    requires Inv(s) && Enabled(s, step) && (step.Land? || step.Lose? || step.Claim? || step.Tell? || step.GiveBack?)
    ensures Inv(Next(s, step, capacity))
  {
    var t := Next(s, step, capacity);
    if t.live.Some? {
      var w :| w in s.actors && s.actors[w] == Writing(s.live.value);
      assert t.actors[w] == Writing(t.live.value);
    }
    OneChanges(s, t, s.next);
  }

  lemma WriteKeeps(s: State, a: nat, capacity: nat)
    requires Inv(s) && Enabled(s, Write(a))
    ensures Inv(Next(s, Write(a), capacity))
  {
    PopKeeps(s, s.actors[a].queue);
  }

  lemma TakeKeeps(s: State, i: nat, capacity: nat)
    requires Inv(s) && Enabled(s, Take(i))
    ensures Inv(Next(s, Take(i), capacity))
  {
    PopKeeps(s, i);
  }

  /** What a rehomer can see before its put: a target that is still live strands nothing. */
  lemma LiveTargetIsSafe(s: State, step: Step, capacity: nat)
    requires Inv(s) && Enabled(s, step) && step.Place? && s.live == Some(s.actors[step.a].target)
    ensures !Strands(s, step, capacity)
  {
    LiveIsWatched(s);
  }

  // ------------------------------------------------------------------ whole runs

  const Start: State := State(None, [], map[], 0, Ledger(0, 0, 0, 0, 0, 0))

  ghost predicate IsRun(s: State, steps: seq<Step>, capacity: nat)
    decreases |steps|
  {
    steps == [] || (Enabled(s, steps[0]) && IsRun(Next(s, steps[0], capacity), steps[1..], capacity))
  }

  ghost function Final(s: State, steps: seq<Step>, capacity: nat): State
    requires IsRun(s, steps, capacity)
    decreases |steps|
  {
    if steps == [] then s else Final(Next(s, steps[0], capacity), steps[1..], capacity)
  }

  ghost predicate NeverStrands(s: State, steps: seq<Step>, capacity: nat)
    requires IsRun(s, steps, capacity)
    decreases |steps|
  {
    steps == [] || (!Strands(s, steps[0], capacity) && NeverStrands(Next(s, steps[0], capacity), steps[1..], capacity))
  }

  /** On every run without such a rehoming, every event in any queue has somebody to look at it again; and
      once everybody is done, every event admitted is a row, counted, or told of. */
  lemma {:induction false} NobodyIsForgotten(s: State, steps: seq<Step>, capacity: nat)
    requires Inv(s) && Balanced(s) && IsRun(s, steps, capacity) && NeverStrands(s, steps, capacity)
    ensures AllWatched(Final(s, steps, capacity))
    ensures Done(Final(s, steps, capacity)) ==> Settled(Final(s, steps, capacity).books)
    decreases |steps|
  {
    if steps == [] {
      if Done(s) {
        forall i ensures !Holds(s, i) { assert !Watched(s, i); }
        SettledIffEmpty(s);
      }
    } else {
      StepKeepsIff(s, steps[0], capacity);
      StepBalances(s, steps[0], capacity);
      hide Inv, Balanced, Next;
      NobodyIsForgotten(Next(s, steps[0], capacity), steps[1..], capacity);
    }
  }

  // ------------------------------------------------------------------ the ledger

  function InQueues(queues: seq<seq<nat>>): nat { if queues == [] then 0 else |queues[0]| + InQueues(queues[1..]) }

  /** The threads with an event in hand. */
  predicate Carries(r: Role) { r.Putting? || r.Carrying? || r.Placing? }

  ghost function Carriers(actors: map<nat, Role>): set<nat> { set a | a in actors && Carries(actors[a]) }

  /** Every event admitted is in a hand, in a queue, in a batch, a row, counted, claimed or told of. */
  ghost predicate Balanced(s: State) {
    var b := s.books;
    && (forall a | a in s.actors :: a < s.next)
    && b.admitted == b.batch + b.rows + b.dropped + b.claimed + b.reported + InQueues(s.queues) + |Carriers(s.actors)|
  }

  /** Nobody is left with anything to do. */
  predicate Done(s: State) { s.actors == map[] && s.books.batch == 0 && s.books.claimed == 0 }

  /** Every event admitted is a row, counted, or told of. */
  predicate Settled(b: Ledger) { b.admitted == b.rows + b.dropped + b.reported }

  lemma {:induction false} QueueChanges(queues: seq<seq<nat>>, i: nat, q: seq<nat>)
    requires i < |queues|
    ensures InQueues(queues[i := q]) == InQueues(queues) - |queues[i]| + |q|
  {
    if i == 0 {
      assert queues[0 := q][1..] == queues[1..];
    } else {
      assert queues[i := q][1..] == queues[1..][i - 1 := q];
      QueueChanges(queues[1..], i - 1, q);
    }
  }

  lemma {:induction false} QueueOpens(queues: seq<seq<nat>>)
    ensures InQueues(queues + [[]]) == InQueues(queues)
  {
    if queues == [] {
      assert (queues + [[]])[1..] == queues;
    } else {
      assert (queues + [[]])[1..] == queues[1..] + [[]];
      QueueOpens(queues[1..]);
    }
  }

  lemma {:induction false} NoneQueued(queues: seq<seq<nat>>)
    ensures InQueues(queues) == 0 <==> forall i | 0 <= i < |queues| :: queues[i] == []
  {
    if queues != [] {
      NoneQueued(queues[1..]);
      if forall i | 0 <= i < |queues[1..]| :: queues[1..][i] == [] {
        forall i | 1 <= i < |queues| ensures queues[i] == [] { assert queues[i] == queues[1..][i - 1]; }
      } else {
        var i :| 0 <= i < |queues[1..]| && queues[1..][i] != [];
        assert queues[i + 1] != [];
      }
    }
  }

  function Held(actors: map<nat, Role>, a: nat): nat { if a in actors && Carries(actors[a]) then 1 else 0 }

  lemma CarriersChange(actors: map<nat, Role>, a: nat, r: Role)
    ensures |Carriers(actors[a := r])| == |Carriers(actors)| - Held(actors, a) + (if Carries(r) then 1 else 0)
  {
    var rest := Carriers(actors) - {a};
    assert Carriers(actors) == if Held(actors, a) == 1 then rest + {a} else rest;
    assert Carriers(actors[a := r]) == if Carries(r) then rest + {a} else rest;
  }

  lemma CarrierGoes(actors: map<nat, Role>, a: nat)
    ensures |Carriers(actors - {a})| == |Carriers(actors)| - Held(actors, a)
  {
    var rest := Carriers(actors) - {a};
    assert Carriers(actors) == if Held(actors, a) == 1 then rest + {a} else rest;
    assert Carriers(actors - {a}) == rest;
  }

  lemma BufferedBalances(s: State)
    requires Balanced(s)
    ensures Balanced(Buffered(s)) && Held(Buffered(s).actors, Buffered(s).next) == 0
    ensures forall a | a in s.actors :: Held(Buffered(s).actors, a) == Held(s.actors, a)
  {
    if s.live.None? {
      QueueOpens(s.queues);
      CarriersChange(s.actors, s.next, Writing(|s.queues|));
    }
  }

  /** Every step, the stranding one too, keeps the balance. */
  lemma StepBalances(s: State, step: Step, capacity: nat)
    requires Balanced(s) && Enabled(s, step)
    ensures Balanced(Next(s, step, capacity))
  {
    hide InQueues, Carriers;
    match step
    case Record(event) =>
      BufferedBalances(s);
      CarriersChange(Buffered(s).actors, Buffered(s).next, Putting(Buffered(s).live.value, event));
    case Put(a) => PutBalances(s, a, capacity);
    case Look(a) =>
      CarrierGoes(s.actors, a);
      CarriersChange(s.actors, a, Rehoming(s.actors[a].queue));
    case Get(a) => GetBalances(s, a, capacity);
    case Find(a) =>
      BufferedBalances(s);
      CarriersChange(Buffered(s).actors, a, Placing(s.actors[a].queue, s.actors[a].event, Buffered(s).live.value));
    case Place(a) => PlaceBalances(s, a, capacity);
    case Write(a) => DrawnBalances(s, s.actors[a].queue);
    case Leave(a) => CarriersChange(s.actors, a, Abandoning(s.actors[a].queue));
    case Drain(a) =>
      CarrierGoes(s.actors, a);
      if Holds(s, s.actors[a].queue) { DrawnBalances(s, s.actors[a].queue); }
    case Stop => CarriersChange(s.actors, s.next, Abandoning(s.live.value));
    case Take(i) => DrawnBalances(s, i);
    case _ =>
  }

  lemma DrawnBalances(s: State, i: nat)
    requires Balanced(s) && Holds(s, i)
    ensures Balanced(Drawn(s, i))
  {
    QueueChanges(s.queues, i, s.queues[i][1..]);
  }

  lemma PutBalances(s: State, a: nat, capacity: nat)
    requires Balanced(s) && Enabled(s, Put(a))
    ensures Balanced(Next(s, Put(a), capacity))
  {
    hide InQueues, Carriers;
    var r := s.actors[a];
    QueueChanges(s.queues, r.queue, s.queues[r.queue] + [r.event]);
    CarriersChange(s.actors, a, Checking(r.queue));
    CarrierGoes(s.actors, a);
  }

  lemma GetBalances(s: State, a: nat, capacity: nat)
    requires Balanced(s) && Enabled(s, Get(a))
    ensures Balanced(Next(s, Get(a), capacity))
  {
    hide InQueues, Carriers;
    var i := s.actors[a].queue;
    CarrierGoes(s.actors, a);
    if Holds(s, i) {
      QueueChanges(s.queues, i, s.queues[i][1..]);
      CarriersChange(s.actors, a, Carrying(i, s.queues[i][0]));
    }
  }

  lemma PlaceBalances(s: State, a: nat, capacity: nat)
    requires Balanced(s) && Enabled(s, Place(a))
    ensures Balanced(Next(s, Place(a), capacity))
  {
    hide InQueues, Carriers;
    var r := s.actors[a];
    QueueChanges(s.queues, r.target, s.queues[r.target] + [r.event]);
    CarriersChange(s.actors, a, Rehoming(r.queue));
  }

  lemma {:induction false} RunBalances(s: State, steps: seq<Step>, capacity: nat)
    requires Balanced(s) && IsRun(s, steps, capacity)
    ensures Balanced(Final(s, steps, capacity))
    decreases |steps|
  {
    if steps != [] {
      StepBalances(s, steps[0], capacity);
      hide Balanced, Next;
      RunBalances(Next(s, steps[0], capacity), steps[1..], capacity);
    }
  }

  lemma SettledIffEmpty(s: State)
    requires Balanced(s) && Done(s)
    ensures Settled(s.books) <==> forall i :: !Holds(s, i)
  {
    NoneQueued(s.queues);
    assert Carriers(map[]) == {};
    if forall i :: !Holds(s, i) {
      forall i | 0 <= i < |s.queues| ensures s.queues[i] == [] { assert !Holds(s, i); }
    }
  }

  /** On every run at all, once everybody is done, the ledger accounts for every event admitted if and only if
      no queue was left with one. */
  lemma VanishedIffLeft(steps: seq<Step>, capacity: nat)
    requires IsRun(Start, steps, capacity) && Done(Final(Start, steps, capacity))
    ensures Settled(Final(Start, steps, capacity).books) <==> forall i :: !Holds(Final(Start, steps, capacity), i)
  {
    StartHolds();
    RunBalances(Start, steps, capacity);
    SettledIffEmpty(Final(Start, steps, capacity));
  }

  lemma StartHolds()
    ensures Inv(Start) && Balanced(Start)
  {
    assert Carriers(map[]) == {};
  }

  // ------------------------------------------------------------------ and the run that forgets one

  /** One event admitted, and nothing yet said of it. */
  const One: Ledger := Ledger(1, 0, 0, 0, 0, 0)

  ghost predicate Leads(steps: seq<Step>, s: State) { IsRun(Start, steps, 10) && Final(Start, steps, 10) == s }

  lemma {:induction false} OneMore(s: State, steps: seq<Step>, step: Step)
    requires IsRun(s, steps, 10) && Enabled(Final(s, steps, 10), step)
    ensures IsRun(s, steps + [step], 10) && Final(s, steps + [step], 10) == Next(Final(s, steps, 10), step, 10)
    decreases |steps|
  {
    hide Next, Enabled;
    if steps == [] {
      assert steps + [step] == [step] && [step][1..] == [];
      assert IsRun(Next(s, step, 10), [], 10);
    } else {
      assert (steps + [step])[1..] == steps[1..] + [step];
      OneMore(Next(s, steps[0], 10), steps[1..], step);
    }
  }

  lemma Go(steps: seq<Step>, s: State, step: Step) returns (all: seq<Step>, t: State)
    requires Leads(steps, s) && Enabled(s, step)
    ensures Leads(all, t) && t == Next(s, step, 10)
  {
    hide Next, Enabled;
    OneMore(Start, steps, step);
    all, t := steps + [step], Next(s, step, 10);
  }

  /** A producer about to put event 7 into a queue that was stopped and drained to its end. */
  const LatePut: State := State(None, [[]], map[1 := Putting(0, 7)], 3, One)

  lemma ToLatePut() returns (steps: seq<Step>)
    ensures Leads(steps, LatePut)
  {
    steps := ToStopped();
    var s := Stopped;
    hide Leads;
    steps, s := Go(steps, s, Drain(0));
    steps, s := Go(steps, s, Drain(2));
    assert s == LatePut;
  }

  const Stopped: State := State(None, [[]], map[0 := Abandoning(0), 1 := Putting(0, 7), 2 := Abandoning(0)], 3, One)

  lemma ToStopped() returns (steps: seq<Step>)
    ensures Leads(steps, Stopped)
  {
    var s := Start;
    steps := [];
    assert Leads(steps, s);
    hide Leads;
    steps, s := Go(steps, s, Record(7));
    assert s == State(Some(0), [[]], map[0 := Writing(0), 1 := Putting(0, 7)], 2, One);
    steps, s := Go(steps, s, Stop);
    steps, s := Go(steps, s, Leave(0));
    assert s == Stopped;
  }

  /** It put, saw the queue detached, took the event out again and found a new queue for it. */
  const Rehomed: State := State(Some(1), [[], []], map[1 := Placing(0, 7, 1), 3 := Writing(1)], 4, One)

  lemma ToRehomed() returns (steps: seq<Step>)
    ensures Leads(steps, Rehomed)
  {
    hide Leads;
    steps := ToLatePut();
    var s := LatePut;
    steps, s := Go(steps, s, Put(1));
    assert s.queues[0] == [7] && s.queues == [[7]];
    assert s == State(None, [[7]], map[1 := Checking(0)], 3, One);
    steps, s := Go(steps, s, Look(1));
    steps, s := Go(steps, s, Get(1));
    assert s.queues[0] == [] && s.queues == [[]];
    assert s == State(None, [[]], map[1 := Carrying(0, 7)], 3, One);
    steps, s := Go(steps, s, Find(1));
    assert s == Rehomed;
  }

  /** The new queue is stopped and drained in its turn, and the event put into it after that: every thread
      is done, and the event sits in a queue nobody looks at. */
  lemma RehomingForgetsOne() returns (steps: seq<Step>)
    ensures IsRun(Start, steps, 10) && Final(Start, steps, 10) == State(None, [[], [7]], map[], 5, One)
    ensures !AllWatched(Final(Start, steps, 10)) && Done(Final(Start, steps, 10))
    ensures !Settled(Final(Start, steps, 10).books)
  {
    hide Leads;
    steps := ToRehomed();
    var s := Rehomed;
    steps, s := Go(steps, s, Stop);
    steps, s := Go(steps, s, Leave(3));
    assert s == State(None, [[], []], map[1 := Placing(0, 7, 1), 3 := Abandoning(1), 4 := Abandoning(1)], 5, One);
    steps, s := Go(steps, s, Drain(3));
    steps, s := Go(steps, s, Drain(4));
    assert s == State(None, [[], []], map[1 := Placing(0, 7, 1)], 5, One);
    steps, s := Go(steps, s, Place(1));
    assert s.queues[1] == [7] && s.queues == [[], [7]];
    assert s == State(None, [[], [7]], map[1 := Rehoming(0)], 5, One);
    steps, s := Go(steps, s, Get(1));
    assert s == State(None, [[], [7]], map[], 5, One);
    assert Holds(s, 1) && !Watched(s, 1);
    LeadsMeans(steps, s);
  }

  lemma LeadsMeans(steps: seq<Step>, s: State)
    requires Leads(steps, s)
    ensures IsRun(Start, steps, 10) && Final(Start, steps, 10) == s
  {
  }
}
