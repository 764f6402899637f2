/** The consumers of one container, started and stopped by lane (consumer/serving.py).

    Every operation holds the one lock, so nothing interleaves with it but threads ending on their own. */
module ConsumerSet {

  /** A lane: the queues that share a connection, or one queue by itself. */
  datatype Lane = Connection(name: string) | Queue(name: string)

  // ------------------------------------------------------------------ lanes

  function Distinct(queues: seq<string>): seq<string> {
    if queues == [] then []
    else
      var most := Distinct(queues[..|queues| - 1]);
      var last := queues[|queues| - 1];
      if last in most then most else most + [last]
  }

  /** The members of a list in one lane, in order. */
  function InLane(queues: seq<string>, laneOf: string -> Lane, lane: Lane): seq<string> {
    if queues == [] then []
    else
      var most := InLane(queues[..|queues| - 1], laneOf, lane);
      if laneOf(queues[|queues| - 1]) == lane then most + [queues[|queues| - 1]] else most
  }

  lemma {:induction false} DistinctMeans(queues: seq<string>)
    ensures forall q :: q in Distinct(queues) <==> q in queues
    ensures forall i, j | 0 <= i < j < |Distinct(queues)| :: Distinct(queues)[i] != Distinct(queues)[j]
  {
    if queues != [] {
      DistinctMeans(queues[..|queues| - 1]);
      assert queues == queues[..|queues| - 1] + [queues[|queues| - 1]];
    }
  }

  lemma {:induction false} InLaneMeans(queues: seq<string>, laneOf: string -> Lane, lane: Lane)
    ensures forall q :: q in InLane(queues, laneOf, lane) <==> q in queues && laneOf(q) == lane
  {
    if queues != [] {
      InLaneMeans(queues[..|queues| - 1], laneOf, lane);
      assert queues == queues[..|queues| - 1] + [queues[|queues| - 1]];
    }
  }

  /** `lanes`: each queue once, in its own lane and in the order given; no lane without a queue.
      `laneOf` answers `Queue(q)` for a queue whose settings do not resolve. */
  method Lanes(queues: seq<string>, laneOf: string -> Lane) returns (grouped: map<Lane, seq<string>>)
    ensures forall lane :: lane in grouped <==> exists q :: q in queues && laneOf(q) == lane
    ensures forall lane | lane in grouped ::
            grouped[lane] == InLane(Distinct(queues), laneOf, lane) && grouped[lane] != []
  {
    grouped := map[];
    var seen: seq<string> := [];
    for i := 0 to |queues|
      invariant seen == Distinct(queues[..i])
      invariant forall lane | lane !in grouped :: InLane(seen, laneOf, lane) == []
      invariant forall lane | lane in grouped :: grouped[lane] == InLane(seen, laneOf, lane) && grouped[lane] != []
    {
      assert queues[..i + 1][..i] == queues[..i] && queues[..i + 1][i] == queues[i];
      if queues[i] !in seen {
        var key := laneOf(queues[i]);
        assert (seen + [queues[i]])[..|seen|] == seen;
        grouped := grouped[key := (if key in grouped then grouped[key] else []) + [queues[i]]];
        seen := seen + [queues[i]];
      }
    }
    assert queues[..|queues|] == queues;
    DistinctMeans(queues);
    forall lane ensures lane in grouped <==> exists q :: q in queues && laneOf(q) == lane {
      InLaneMeans(seen, laneOf, lane);
      if lane in grouped { assert grouped[lane][0] in InLane(seen, laneOf, lane); }
    }
  }

  // ------------------------------------------------------------------ the books

  /** Where a consumer is, by which lane. */
  datatype Place = Ready(lane: Lane) | Running(lane: Lane) | Stopped(lane: Lane) | Settled(lane: Lane)

  /** One `collect` of a consumer, and whether its own thread was inside `run` meanwhile: two threads then
      settle one in-flight list. */
  datatype Settling = Settling(consumer: nat, live: bool)

  /** The log went on, and never under a live thread. */
  ghost predicate Quietly(was: seq<Settling>, now: seq<Settling>) {
    was <= now && forall k | |was| <= k < |now| :: !now[k].live
  }

  lemma QuietlyThen(a: seq<Settling>, b: seq<Settling>, c: seq<Settling>)
    requires Quietly(a, b) && Quietly(b, c)
    ensures Quietly(a, c)
  {
  }

  /** This consumer was settled between these. */
  ghost predicate SettledSince(was: seq<Settling>, now: seq<Settling>, c: nat) {
    exists k :: |was| <= k < |now| && now[k].consumer == c
  }

  lemma SinceLater(a: seq<Settling>, b: seq<Settling>, c: seq<Settling>)
    requires a <= b <= c
    ensures forall x | SettledSince(a, b, x) || SettledSince(b, c, x) :: SettledSince(a, c, x)
  {
    forall x | SettledSince(a, b, x) ensures SettledSince(a, c, x) {
      var k :| |a| <= k < |b| && b[k].consumer == x;
      assert c[k] == b[k];
    }
  }

  lemma OneSettled(was: seq<Settling>, s: Settling)
    ensures SettledSince(was, was + [s], s.consumer)
  {
    assert (was + [s])[|was|] == s;
  }

  type Places = map<nat, Place>

  ghost predicate ReadyBooks(ready: map<Lane, nat>, place: Places) {
    && (forall l | l in ready :: ready[l] in place && place[ready[l]] == Ready(l))
    && (forall c | c in place && place[c].Ready? :: place[c].lane in ready && ready[place[c].lane] == c)
  }

  ghost predicate RunningBooks(running: map<Lane, nat>, place: Places) {
    && (forall l | l in running :: running[l] in place && place[running[l]] == Running(l))
    && (forall c | c in place && place[c].Running? :: place[c].lane in running && running[place[c].lane] == c)
  }

  ghost predicate StoppedBooks(stopped: seq<(Lane, nat)>, place: Places) {
    && (forall e | e in stopped :: e.1 in place && place[e.1] == Stopped(e.0))
    && (forall c | c in place && place[c].Stopped? :: (place[c].lane, c) in stopped)
    && (forall i, j | 0 <= i < j < |stopped| :: stopped[i] != stopped[j])
  }

  /** Every number handed out is a consumer's, and its queues are known. */
  ghost predicate Numbered(built: nat, serving: map<nat, seq<string>>, place: Places) {
    && (forall c: nat :: c in place <==> c < built)
    && serving.Keys == place.Keys
  }

  /** At most one live thread a lane, wherever its consumer is now. */
  ghost predicate OneThreadEach(alive: set<nat>, place: Places) {
    && (forall c | c in alive :: c in place && (place[c].Running? || place[c].Stopped?))
    && (forall c, d | c in alive && d in alive && place[c].lane == place[d].lane :: c == d)
  }

  // moving one consumer, book by book

  lemma ReadyKept(ready: map<Lane, nat>, place: Places, c: nat, p: Place)
    requires ReadyBooks(ready, place) && !p.Ready? && (c in place ==> !place[c].Ready?)
    ensures ReadyBooks(ready, place[c := p])
  {
  }

  lemma ReadyJoined(ready: map<Lane, nat>, place: Places, l: Lane, c: nat)
    requires ReadyBooks(ready, place) && l !in ready && c !in place
    ensures ReadyBooks(ready[l := c], place[c := Ready(l)])
  {
  }

  lemma ReadyLeft(ready: map<Lane, nat>, place: Places, l: Lane, p: Place)
    requires ReadyBooks(ready, place) && l in ready && !p.Ready?
    ensures ReadyBooks(ready - {l}, place[ready[l] := p])
  {
  }

  lemma ThreadsKept(alive: set<nat>, place: Places, c: nat, p: Place)
    requires OneThreadEach(alive, place) && c !in alive
    ensures OneThreadEach(alive, place[c := p])
  {
  }

  lemma ThreadStarted(alive: set<nat>, place: Places, c: nat, l: Lane)
    requires OneThreadEach(alive, place) && forall d | d in alive :: d in place && place[d].lane != l
    ensures OneThreadEach(alive + {c}, place[c := Running(l)])
  {
  }

  lemma RunningKept(running: map<Lane, nat>, place: Places, c: nat, p: Place)
    requires RunningBooks(running, place) && !p.Running? && (c in place ==> !place[c].Running?)
    ensures RunningBooks(running, place[c := p])
  {
  }

  lemma RunningLeft(running: map<Lane, nat>, place: Places, l: Lane, p: Place)
    requires RunningBooks(running, place) && l in running && !p.Running?
    ensures RunningBooks(running - {l}, place[running[l] := p])
  {
  }

  lemma RunningJoined(running: map<Lane, nat>, place: Places, l: Lane, c: nat)
    requires RunningBooks(running, place) && l !in running && (c in place ==> !place[c].Running?)
    ensures RunningBooks(running[l := c], place[c := Running(l)])
  {
  }

  lemma StoppedKept(stopped: seq<(Lane, nat)>, place: Places, c: nat, p: Place)
    requires StoppedBooks(stopped, place) && !p.Stopped? && (c in place ==> !place[c].Stopped?)
    ensures StoppedBooks(stopped, place[c := p])
  {
  }

  lemma StoppedJoined(stopped: seq<(Lane, nat)>, place: Places, l: Lane, c: nat)
    requires StoppedBooks(stopped, place) && (c in place ==> !place[c].Stopped?)
    ensures StoppedBooks(stopped + [(l, c)], place[c := Stopped(l)])
  {
    var s, q := stopped + [(l, c)], place[c := Stopped(l)];
    forall e | e in s ensures e.1 in q && q[e.1] == Stopped(e.0) { assert e in stopped || e == (l, c); }
    forall d | d in q && q[d].Stopped? ensures (q[d].lane, d) in s { assert d == c || (q[d].lane, d) in stopped; }
  }

  lemma Without(s: seq<(Lane, nat)>, i: nat)
    requires i < |s| && forall j, k | 0 <= j < k < |s| :: s[j] != s[k]
    ensures var t := s[..i] + s[i + 1..];
            && (forall e :: e in t <==> e in s && e != s[i])
            && (forall j, k | 0 <= j < k < |t| :: t[j] != t[k])
  {
    var t := s[..i] + s[i + 1..];
    forall e | e in s && e != s[i] ensures e in t {
      var k :| 0 <= k < |s| && s[k] == e;
      assert t[if k < i then k else k - 1] == e;
    }
  }

  lemma StoppedLeft(stopped: seq<(Lane, nat)>, place: Places, i: nat)
    requires StoppedBooks(stopped, place) && i < |stopped|
    ensures StoppedBooks(stopped[..i] + stopped[i + 1..], place[stopped[i].1 := Settled(stopped[i].0)])
  {
    Without(stopped, i);
    assert stopped[i] in stopped;
  }

  function ReadyFrom(lanes: seq<Lane>): map<Lane, nat>
    requires forall i, j | 0 <= i < j < |lanes| :: lanes[i] != lanes[j]
  {
    map i: nat | i < |lanes| :: lanes[i] := i
  }

  function ServingFrom(queues: seq<seq<string>>): map<nat, seq<string>> { map i: nat | i < |queues| :: queues[i] }

  function PlaceFrom(lanes: seq<Lane>): Places { map i: nat | i < |lanes| :: Ready(lanes[i]) }

  lemma StartReady(lanes: seq<Lane>)
    requires forall i, j | 0 <= i < j < |lanes| :: lanes[i] != lanes[j]
    ensures ReadyBooks(ReadyFrom(lanes), PlaceFrom(lanes))
    ensures forall i: nat | i < |lanes| :: lanes[i] in ReadyFrom(lanes) && ReadyFrom(lanes)[lanes[i]] == i
  {
    var ready, place := ReadyFrom(lanes), PlaceFrom(lanes);
    forall i: nat | i < |lanes| ensures lanes[i] in ready && ready[lanes[i]] == i {}
    forall l | l in ready ensures ready[l] in place && place[ready[l]] == Ready(l) {}
  }

  lemma StartOthers(lanes: seq<Lane>, queues: seq<seq<string>>)
    requires |lanes| == |queues|
    ensures var place := PlaceFrom(lanes);
            && Numbered(|lanes|, ServingFrom(queues), place) && RunningBooks(map[], place) && StoppedBooks([], place)
            && OneThreadEach({}, place)
    ensures forall i: nat | i < |lanes| :: i in ServingFrom(queues) && ServingFrom(queues)[i] == queues[i]
  {
  }

  lemma StartBooks(lanes: seq<Lane>, queues: seq<seq<string>>)
    requires |lanes| == |queues| && forall i, j | 0 <= i < j < |lanes| :: lanes[i] != lanes[j]
    ensures var ready, serving, place := ReadyFrom(lanes), ServingFrom(queues), PlaceFrom(lanes);
            && Numbered(|lanes|, serving, place) && ReadyBooks(ready, place) && RunningBooks(map[], place)
            && StoppedBooks([], place) && OneThreadEach({}, place)
            && forall i: nat | i < |lanes| ::
              lanes[i] in ready && ready[lanes[i]] == i && i in serving && serving[i] == queues[i]
  {
    hide *;
    StartReady(lanes);
    StartOthers(lanes, queues);
  }

  // ------------------------------------------------------------------ what a pass does to a lane

  datatype Snap = Snap(ready: map<Lane, nat>, running: map<Lane, nat>, stopped: seq<(Lane, nat)>,
                       serving: map<nat, seq<string>>, alive: set<nat>)

  /** A consumer stopped for this lane is still inside `run`. */
  ghost predicate Turning(s: Snap, l: Lane) { exists e | e in s.stopped :: e.0 == l && e.1 in s.alive }

  ghost predicate Reads(s: Snap, l: Lane, queues: seq<string>) {
    l in s.running && s.running[l] in s.serving && s.serving[s.running[l]] == queues
  }

  /** Nothing of this lane changed but that a thread stopped before may have ended; where threads do not end
      by themselves (`calm`) a live one is live. */
  ghost predicate LaneSame(l: Lane, a: Snap, b: Snap, calm: bool) {
    && (l in b.running <==> l in a.running)
    && (l in a.running ==>
          && b.running[l] == a.running[l]
          && (a.running[l] in b.serving <==> a.running[l] in a.serving)
          && (a.running[l] in a.serving ==> b.serving[a.running[l]] == a.serving[a.running[l]])
          && (calm && a.running[l] in a.alive ==> a.running[l] in b.alive))
    && (l in b.ready ==> l in a.ready && b.ready[l] == a.ready[l])
    && (!Turning(a, l) ==> !Turning(b, l))
  }

  /** A lane asked for, once a pass has been through it. One that ran goes on exactly where it read the set
      already or could be told it, with the same consumer; another is started exactly where its build and
      start succeed and no old thread of its own turns. What runs reads the set asked for, unless its
      consumer is the startup one just started. */
  ghost predicate LaneDone(l: Lane, queues: seq<string>, starts: bool, serves: bool, a: Snap, b: Snap, calm: bool) {
    && (if l in a.running then
          && (l in b.running <==> serves || Reads(a, l, queues)) && (l in b.running ==> b.running[l] == a.running[l])
        else
          && (l in b.running ==> starts) && (starts && !Turning(a, l) ==> l in b.running)
          && (calm && l in b.running ==> b.running[l] in b.alive))
    && (l in b.running ==>
          && b.running[l] in b.serving
          && (b.serving[b.running[l]] == queues || (l !in a.running && l in a.ready && b.running[l] == a.ready[l])))
  }

  lemma SameThen(l: Lane, a: Snap, b: Snap, c: Snap, calm: bool)
    requires LaneSame(l, a, b, calm) && LaneSame(l, b, c, calm)
    ensures LaneSame(l, a, c, calm)
  {
    hide Turning;
  }

  lemma SameThenDone(l: Lane, queues: seq<string>, starts: bool, serves: bool, a: Snap, b: Snap, c: Snap, calm: bool)
    requires LaneSame(l, a, b, calm) && LaneDone(l, queues, starts, serves, b, c, calm)
    ensures LaneDone(l, queues, starts, serves, a, c, calm)
  {
    hide Turning;
  }

  lemma DoneThenSame(l: Lane, queues: seq<string>, starts: bool, serves: bool, a: Snap, b: Snap, c: Snap, calm: bool)
    requires LaneDone(l, queues, starts, serves, a, b, calm) && LaneSame(l, b, c, calm)
    ensures LaneDone(l, queues, starts, serves, a, c, calm)
  {
    hide Turning;
  }

  lemma Followed(l: Lane, queues: seq<string>, starts: bool, serves: bool, a: Snap, b: Snap, calm: bool)
    requires l in a.running && a.running[l] in a.serving && b.ready == a.ready
    requires forall m | m in a.running && a.running[m] == a.running[l] :: m == l
    requires b.alive <= a.alive && (calm ==> b.alive == a.alive)
    requires b.running == if serves || a.serving[a.running[l]] == queues then a.running else a.running - {l}
    requires b.stopped == if l in b.running then a.stopped else a.stopped + [(l, a.running[l])]
    requires forall c | c != a.running[l] ::
             (c in b.serving <==> c in a.serving) && (c in b.serving ==> b.serving[c] == a.serving[c])
    requires l in b.running ==> a.running[l] in b.serving && b.serving[a.running[l]] == queues
    ensures LaneDone(l, queues, starts, serves, a, b, calm) && forall m | m != l :: LaneSame(m, a, b, calm)
  {
  }

  lemma Started(l: Lane, queues: seq<string>, starts: bool, serves: bool, a: Snap, b: Snap, calm: bool)
    requires l !in a.running && a.alive <= b.alive && (l in b.running ==> b.running[l] in b.alive)
    requires if starts then l in b.running && b.running == a.running[l := b.running[l]] else b.running == a.running
    requires forall m | m in b.ready && m != l :: m in a.ready && b.ready[m] == a.ready[m]
    requires forall m | m != l && !Turning(a, m) :: !Turning(b, m)
    requires forall m | m in a.running :: a.running[m] in a.serving
    requires forall c | c in a.serving :: c in b.serving && b.serving[c] == a.serving[c]
    requires l in b.running ==> b.running[l] in b.serving
    requires l in b.running ==> b.serving[b.running[l]] == queues || (l in a.ready && b.running[l] == a.ready[l])
    ensures LaneDone(l, queues, starts, serves, a, b, calm) && forall m | m != l :: LaneSame(m, a, b, calm)
  {
    hide Turning;
  }

  lemma LeftTurning(l: Lane, queues: seq<string>, starts: bool, serves: bool, a: Snap, calm: bool)
    requires l !in a.running && Turning(a, l)
    ensures LaneDone(l, queues, starts, serves, a, a, calm)
  {
  }

  lemma StoppingIsSame(lane: Lane, a: Snap, b: Snap, calm: bool)
    requires lane in a.running && b.running == a.running - {lane} && b.stopped == a.stopped + [(lane, a.running[lane])]
    requires b.ready == a.ready && b.serving == a.serving && b.alive <= a.alive && (calm ==> b.alive == a.alive)
    ensures forall l | l != lane :: LaneSame(l, a, b, calm)
  {
  }

  lemma SettlingIsSame(a: Snap, b: Snap, calm: bool)
    requires b.running == a.running && b.ready == a.ready && b.serving == a.serving
    requires b.alive <= a.alive && (calm ==> b.alive == a.alive) && forall e | e in b.stopped :: e in a.stopped
    ensures forall l :: LaneSame(l, a, b, calm)
  {
  }

  /** Consumers are numbered as they are built; a consumer has one thread, known by its number. */
  class Consumers {
    /** Whether no thread ends by itself while an operation runs. */
    const calm: bool
    var ready: map<Lane, nat>
    var running: map<Lane, nat>
    var stopped: seq<(Lane, nat)>
    var done: bool
    var serving: map<nat, seq<string>>      // the queues each consumer reads
    var alive: set<nat>                     // the threads inside `run`
    var built: nat
    var log: seq<Settling>                  // every `collect` of a consumer, in order
    ghost var place: map<nat, Place>

    /** Each consumer ever built is in exactly one place, each place holds what it says, and no lane has
        two live threads. */
    ghost predicate Books()
      reads this`ready, this`running, this`stopped, this`serving, this`alive, this`built, this`place
    {
      && Numbered(built, serving, place) && ReadyBooks(ready, place) && RunningBooks(running, place)
      && StoppedBooks(stopped, place) && OneThreadEach(alive, place)
    }

    /** And once `stop` has run, nothing runs. */
    ghost predicate Valid()
      reads this
    {
      Books() && (done ==> running == map[])
    }

    predicate IsReady(c: nat) reads this { exists l | l in ready :: ready[l] == c }
    predicate IsRunning(c: nat) reads this { exists l | l in running :: running[l] == c }
    predicate IsStopped(c: nat) reads this { exists e | e in stopped :: e.1 == c }

    /** What the books mean for a consumer: one of the four homes, and one only. */
    lemma OneHome(c: nat)
      requires Books() && c < built
      ensures place[c].Ready? <==> IsReady(c)
      ensures place[c].Running? <==> IsRunning(c)
      ensures place[c].Stopped? <==> IsStopped(c)
      ensures place[c].Settled? <==> !IsReady(c) && !IsRunning(c) && !IsStopped(c)
    {
      if place[c].Stopped? { assert (place[c].lane, c) in stopped; }
    }

    /** And for a lane: its running thread is the only live one, and two live ones are one. */
    lemma OneLive(l: Lane, e: (Lane, nat), f: (Lane, nat))
      requires Books() && e in stopped && f in stopped && e.0 == l && f.0 == l && e.1 in alive
      ensures l in running ==> running[l] !in alive
      ensures f.1 in alive ==> f == e
    {
    }

    /** The startup set: built, one a lane, none started. */
    constructor (lanes: seq<Lane>, queues: seq<seq<string>>, calm: bool)
      requires |lanes| == |queues| && forall i, j | 0 <= i < j < |lanes| :: lanes[i] != lanes[j]
      ensures Valid() && !done && running == map[] && stopped == [] && log == [] && alive == {} && built == |lanes|
      ensures this.calm == calm
      ensures forall i | 0 <= i < |lanes| :: lanes[i] in ready && ready[lanes[i]] == i && serving[i] == queues[i]
    {
      this.calm := calm;
      running, stopped, done, alive, log, built := map[], [], false, {}, [], |lanes|;
      ready, serving, place := ReadyFrom(lanes), ServingFrom(queues), PlaceFrom(lanes);
      new;
      hide *;
      StartBooks(lanes, queues);
      StartIsValid();
    }

    lemma StartIsValid()
      requires Numbered(built, serving, place) && ReadyBooks(ready, place) && RunningBooks(running, place)
      requires StoppedBooks(stopped, place) && OneThreadEach(alive, place) && running == map[]
      ensures Valid()
    {
      hide ReadyBooks, RunningBooks, StoppedBooks, OneThreadEach, Numbered;
    }

    /** Any threads may end, at any time. */
    method Exits()
      requires Books()
      modifies this`alive
      ensures Books() && alive <= old(alive) && (calm ==> alive == old(alive))
    {
      if calm { return; }
      var gone: set<nat> := *;
      alive := alive - gone;
    }

    /** `collect` of one consumer, which looks at nothing. */
    method SettleOne(c: nat)
      modifies this`log
      ensures log == old(log) + [Settling(c, c in alive)]
    {
      log := log + [Settling(c, c in alive)];
    }

    predicate StillTurning(lane: Lane)
      reads this
    {
      exists e | e in stopped :: e.0 == lane && e.1 in alive
    }

    /** `_stop`: out of the running set and onto the list, whatever the stop and the join did. */
    method StopLane(lane: Lane) returns (refused: bool)
      requires Books() && lane in running
      modifies this`running, this`stopped, this`alive, this`place
      ensures Books() && alive <= old(alive) && (calm ==> alive == old(alive))
      ensures running == old(running) - {lane} && stopped == old(stopped) + [(lane, old(running)[lane])]
    {
      StopKeeps(lane);
      hide ReadyBooks, RunningBooks, StoppedBooks, Numbered, OneThreadEach;
      ToStopped(lane, running[lane]);
      refused := *;
      Exits();
    }

    lemma StopKeeps(lane: Lane)
      requires Books() && lane in running
      ensures var q := place[running[lane] := Stopped(lane)];
              && Numbered(built, serving, q) && ReadyBooks(ready, q) && RunningBooks(running - {lane}, q)
              && StoppedBooks(stopped + [(lane, running[lane])], q) && OneThreadEach(alive, q)
    {
      var c := running[lane];
      ReadyKept(ready, place, c, Stopped(lane));
      RunningLeft(running, place, lane, Stopped(lane));
      StoppedJoined(stopped, place, lane, c);
      hide ReadyBooks, StoppedBooks;
    }

    method ToStopped(lane: Lane, c: nat)
      modifies this`running, this`stopped, this`place
      ensures running == old(running) - {lane} && stopped == old(stopped) + [(lane, c)]
      ensures place == old(place)[c := Stopped(lane)]
    {
      running, stopped, place := running - {lane}, stopped + [(lane, c)], place[c := Stopped(lane)];
    }

    /** `_settle_what_has_stopped`: settled and forgotten where the thread has gone, kept in order where
        it has not. A live thread's consumer is never touched. */
    method SettleStopped()
      requires Books()
      modifies this`stopped, this`alive, this`place, this`log
      ensures Books() && alive <= old(alive) && (calm ==> alive == old(alive)) && Quietly(old(log), log)
      ensures forall e | e in stopped :: e in old(stopped)
      ensures forall e | e in old(stopped) && e !in stopped :: e.1 in place && place[e.1].Settled? && e.1 !in alive
      ensures forall e | e in old(stopped) && e !in stopped :: SettledSince(old(log), log, e.1)
      ensures forall e | e in stopped :: e.1 in old(alive)
    {
      hide ReadyBooks, RunningBooks, StoppedBooks, Numbered, OneThreadEach, Books, SettledSince;
      var i := 0;
      while i < |stopped|
        invariant 0 <= i <= |stopped| && Books() && alive <= old(alive) && (calm ==> alive == old(alive))
        invariant Quietly(old(log), log)
        invariant forall e | e in stopped :: e in old(stopped)
        invariant forall e | e in old(stopped) && e !in stopped :: e.1 in place && place[e.1].Settled? && e.1 !in alive
        invariant forall e | e in old(stopped) && e !in stopped :: SettledSince(old(log), log, e.1)
        invariant forall j | 0 <= j < i :: stopped[j].1 in old(alive)
        decreases |stopped| - i
      {
        Exits();
        if stopped[i].1 in alive {
          i := i + 1;
        } else {
          ghost var was, one := log, Settling(stopped[i].1, false);
          Settle(i);
          assert !log[|log| - 1].live;
          OneSettled(was, one);
          SinceLater(old(log), was, log);
        }
      }
    }

    method Settle(i: nat)
      requires Books() && i < |stopped| && stopped[i].1 !in alive
      modifies this`stopped, this`place, this`log
      ensures log == old(log) + [Settling(old(stopped[i].1), false)]
      ensures Books() && stopped == old(stopped[..i] + stopped[i + 1..])
      ensures place == old(place)[old(stopped[i].1) := Settled(old(stopped[i].0))]
    {
      SettleKeeps(i);
      hide ReadyBooks, RunningBooks, StoppedBooks, Numbered, OneThreadEach;
      SettleOne(stopped[i].1);
      place, stopped := place[stopped[i].1 := Settled(stopped[i].0)], stopped[..i] + stopped[i + 1..];
    }

    lemma SettleKeeps(i: nat)
      requires Books() && i < |stopped| && stopped[i].1 !in alive
      ensures var q := place[stopped[i].1 := Settled(stopped[i].0)];
              && Numbered(built, serving, q) && ReadyBooks(ready, q) && RunningBooks(running, q)
              && StoppedBooks(stopped[..i] + stopped[i + 1..], q) && OneThreadEach(alive, q)
    {
      assert stopped[i] in stopped && place[stopped[i].1].Stopped?;
      ReadyKept(ready, place, stopped[i].1, Settled(stopped[i].0));
      RunningKept(running, place, stopped[i].1, Settled(stopped[i].0));
      StoppedLeft(stopped, place, i);
      ThreadsKept(alive, place, stopped[i].1, Settled(stopped[i].0));
      hide ReadyBooks, RunningBooks, StoppedBooks, OneThreadEach;
    }

    /** `_follow`: the consumer is told the set, and stopped for a rebuild where it cannot take it. */
    method Follow(lane: Lane, queues: seq<string>, serves: bool) returns (refused: bool)
      requires Books() && lane in running
      modifies this`running, this`stopped, this`alive, this`place, this`serving
      ensures Books() && alive <= old(alive) && (calm ==> alive == old(alive))
      ensures running == if serves || old(running)[lane] !in old(serving) || old(serving)[old(running)[lane]] == queues
                         then old(running) else old(running) - {lane}
      ensures ready == old(ready)
      ensures forall c | c != old(running)[lane] ::
              (c in serving <==> c in old(serving)) && (c in serving ==> serving[c] == old(serving)[c])
      ensures stopped == if lane in running then old(stopped) else old(stopped) + [(lane, old(running)[lane])]
      ensures lane in running ==> old(running)[lane] in serving && serving[old(running)[lane]] == queues
    {
      hide ReadyBooks, StoppedBooks;
      var c := running[lane];
      if serving[c] == queues { return false; }
      if !serves {
        refused := StopLane(lane);
        return;
      }
      serving := serving[c := queues];
      refused := false;
    }

    /** A lane with nobody on it: the consumer built for it at startup, or a new one. One that cannot be
        started is settled at once; one that cannot be built leaves nothing behind. */
    method StartLane(lane: Lane, queues: seq<string>, starts: bool)
      requires Books() && lane !in running && !StillTurning(lane)
      modifies this`ready, this`running, this`alive, this`place, this`serving, this`built, this`log
      ensures Books() && built >= old(built) && Quietly(old(log), log) && old(alive) <= alive
      ensures lane in running ==> running[lane] in alive
      ensures forall l | l in ready && l != lane :: l in old(ready) && ready[l] == old(ready)[l]
      ensures if starts then lane in running && running == old(running)[lane := running[lane]]
              else running == old(running)
      ensures forall l | l != lane && !Turning(old(Look()), l) :: !Turning(Look(), l)
      ensures lane in running ==>
                && running[lane] in serving
                && (serving[running[lane]] == queues || (lane in old(ready) && running[lane] == old(ready)[lane]))
      ensures forall c | c in old(serving) :: c in serving && serving[c] == old(serving)[c]
      ensures log == if starts then old(log)
                     else if lane in old(ready) then old(log) + [Settling(old(ready)[lane], false)]
                     else if built > old(built) then old(log) + [Settling(old(built), false)] else old(log)
    {
      var builds: bool := *;
      if lane in ready {
        Begin(lane, ready[lane], starts);
      } else if starts || builds {
        var c := built;
        Build(lane, queues);
        Begin(lane, c, starts);
      }
    }

    /** A consumer built where it is needed is, for a moment, ready. */
    method Build(lane: Lane, queues: seq<string>)
      requires Books() && lane !in ready
      modifies this`ready, this`built, this`serving, this`place
      ensures Books() && built == old(built) + 1 && serving == old(serving)[old(built) := queues]
      ensures ready == old(ready)[lane := old(built)]
    {
      BuildKeeps(lane, queues);
      hide ReadyBooks, RunningBooks, StoppedBooks, Numbered, OneThreadEach;
      place, serving, ready, built := place[built := Ready(lane)], serving[built := queues], ready[lane := built],
        built + 1;
    }

    lemma BuildKeeps(lane: Lane, queues: seq<string>)
      requires Books() && lane !in ready
      ensures var q := place[built := Ready(lane)];
              && Numbered(built + 1, serving[built := queues], q) && ReadyBooks(ready[lane := built], q)
              && RunningBooks(running, q) && StoppedBooks(stopped, q) && OneThreadEach(alive, q)
    {
      ReadyJoined(ready, place, lane, built);
      RunningKept(running, place, built, Ready(lane));
      StoppedKept(stopped, place, built, Ready(lane));
      ThreadsKept(alive, place, built, Ready(lane));
      hide ReadyBooks, RunningBooks, StoppedBooks, OneThreadEach;
    }

    lemma NobodyTurns(lane: Lane)
      requires Books() && lane !in running && !StillTurning(lane)
      ensures forall d | d in alive :: d in place && place[d].lane != lane
    {
      assert forall d | d in alive && place[d].Stopped? :: (place[d].lane, d) in stopped;
    }

    /** The books as `Begin` leaves them. */
    lemma BeginKeeps(lane: Lane, starts: bool, p: Place)
      requires Books() && lane in ready && lane !in running && !StillTurning(lane)
      requires p == if starts then Running(lane) else Settled(lane)
      ensures ready[lane] in place && ready[lane] !in alive && (forall e | e in stopped :: e.1 != ready[lane])
      ensures var c, q := ready[lane], place[ready[lane] := p];
              && ReadyBooks(ready - {lane}, q) && StoppedBooks(stopped, q)
              && RunningBooks(if starts then running[lane := c] else running, q)
              && OneThreadEach(if starts then alive + {c} else alive, q)
    {
      var c := ready[lane];
      NobodyTurns(lane);
      ReadyLeft(ready, place, lane, p);
      StoppedKept(stopped, place, c, p);
      if starts {
        RunningJoined(running, place, lane, c);
        ThreadStarted(alive, place, c, lane);
      } else {
        RunningKept(running, place, c, p);
        ThreadsKept(alive, place, c, p);
      }
    }

    method Begin(lane: Lane, c: nat, starts: bool)
      requires Books() && lane in ready && ready[lane] == c && lane !in running && !StillTurning(lane)
      modifies this`ready, this`running, this`alive, this`place, this`log
      ensures Books() && ready == old(ready) - {lane}
      ensures log == if starts then old(log) else old(log) + [Settling(c, false)]
      ensures alive == if starts then old(alive) + {c} else old(alive)
      ensures running == if starts then old(running)[lane := c] else old(running)
      ensures forall l | l != lane && !Turning(old(Look()), l) :: !Turning(Look(), l)
    {
      ghost var p := if starts then Running(lane) else Settled(lane);
      hide ReadyBooks, RunningBooks, StoppedBooks, OneThreadEach;
      BeginKeeps(lane, starts, p);
      place := place[c := p];
      if starts {
        running := running[lane := c];
        alive := alive + {c};
      } else {
        SettleOne(c);
      }
      ready := ready - {lane};
    }

    ghost function Look(): Snap
      reads this`ready, this`running, this`stopped, this`serving, this`alive
    {
      Snap(ready, running, stopped, serving, alive)
    }

    /** `reconcile`: afterwards no lane runs that was not asked for, and each that was is where `LaneDone` puts
        it. Nobody is settled under a live thread. After `stop` it does nothing. */
    method Reconcile(wanted: seq<string>, laneOf: string -> Lane, canStart: set<Lane>, canServe: set<Lane>)
      returns (refused: bool, ghost asked: map<Lane, seq<string>>)
      requires Valid()
      modifies this`ready, this`running, this`stopped, this`alive, this`place, this`serving, this`built, this`log
      ensures Valid() && Quietly(old(log), log)
      ensures forall l | l in asked :: asked[l] == InLane(Distinct(wanted), laneOf, l)
      ensures forall l :: l in asked <==> exists q :: q in wanted && laneOf(q) == l
      ensures done ==> running == map[] && built == old(built) && stopped == old(stopped)
      ensures !done ==> running.Keys <= asked.Keys
      ensures !done ==> forall e | e in old(stopped) && e.1 !in old(alive) :: SettledSince(old(log), log, e.1)
      ensures !done ==> forall l | l in asked ::
                LaneDone(l, asked[l], l in canStart, l in canServe, old(Look()), Look(), calm)
    {
      hide Books, InLane, Distinct, LaneDone, LaneSame, SettledSince;
      QuietlySame();
      var grouped := Lanes(wanted, laneOf);
      asked := grouped;
      refused := false;
      if done { return; }
      refused := StopGone(grouped);
      ghost var mid := Look();
      SettleStopped();
      ghost var settled, served := log, Look();
      SettlingIsSame(mid, served, calm);
      var more := Serve(grouped, canStart, canServe);
      QuietlyThen(old(log), settled, log);
      SinceLater(old(log), settled, log);
      hide Quietly;
      forall l | l in asked
        ensures LaneDone(l, asked[l], l in canStart, l in canServe, old(Look()), Look(), calm)
      {
        SameThen(l, old(Look()), mid, served, calm);
        SameThenDone(l, asked[l], l in canStart, l in canServe, old(Look()), served, Look(), calm);
      }
      refused := refused || more;
    }

    lemma QuietlySame()
      ensures Quietly(log, log)
    {
    }

    /** The first half: every running lane the set no longer holds is stopped, whatever it refuses. */
    method StopGone(asked: map<Lane, seq<string>>) returns (refused: bool)
      requires Books()
      modifies this`running, this`stopped, this`alive, this`place
      ensures Books() && running.Keys <= asked.Keys && alive <= old(alive)
      ensures forall e | e in old(stopped) :: e in stopped
      ensures forall l | l in asked :: LaneSame(l, old(Look()), Look(), calm)
    {
      hide Books, LaneSame;
      refused := false;
      var gone := running.Keys - asked.Keys;
      AllSame();
      while gone != {}
        invariant alive <= old(alive) && forall e | e in old(stopped) :: e in stopped
        invariant Books() && gone !! asked.Keys && gone <= running.Keys && running.Keys <= asked.Keys + gone
        invariant forall l | l in asked :: LaneSame(l, old(Look()), Look(), calm)
      {
        var lane :| lane in gone;
        gone := gone - {lane};
        ghost var was := Look();
        var stopping := StopLane(lane);
        StoppingIsSame(lane, was, Look(), calm);
        forall l | l in asked ensures LaneSame(l, old(Look()), Look(), calm) {
          SameThen(l, old(Look()), was, Look(), calm);
        }
        refused := refused || stopping;
      }
    }

    lemma AllSame()
      ensures forall l :: LaneSame(l, Look(), Look(), calm)
    {
    }

    /** The second half: every lane asked for is followed, left to its old thread, or started. */
    method Serve(asked: map<Lane, seq<string>>, canStart: set<Lane>, canServe: set<Lane>) returns (refused: bool)
      requires Books() && running.Keys <= asked.Keys
      modifies this`ready, this`running, this`stopped, this`alive, this`place, this`serving, this`built, this`log
      ensures Books() && running.Keys <= asked.Keys && Quietly(old(log), log)
      ensures forall l | l in asked ::
                LaneDone(l, asked[l], l in canStart, l in canServe, old(Look()), Look(), calm)
    {
      hide Books, LaneDone, LaneSame, Quietly;
      refused := false;
      var todo := asked.Keys;
      AllSame();
      QuietlySame();
      while todo != {}
        invariant Books() && todo <= asked.Keys && running.Keys <= asked.Keys && Quietly(old(log), log)
        invariant forall l | l in todo :: LaneSame(l, old(Look()), Look(), calm)
        invariant forall l | l in asked && l !in todo ::
                    LaneDone(l, asked[l], l in canStart, l in canServe, old(Look()), Look(), calm)
      {
        var lane :| lane in todo;
        todo := todo - {lane};
        ghost var was, noted := Look(), log;
        var one := ServeOne(lane, asked[lane], lane in canStart, lane in canServe);
        QuietlyThen(old(log), noted, log);
        forall l | l in todo ensures LaneSame(l, old(Look()), Look(), calm) {
          SameThen(l, old(Look()), was, Look(), calm);
        }
        forall l | l in asked && l !in todo
          ensures LaneDone(l, asked[l], l in canStart, l in canServe, old(Look()), Look(), calm)
        {
          if l == lane {
            SameThenDone(l, asked[l], l in canStart, l in canServe, old(Look()), was, Look(), calm);
          } else {
            DoneThenSame(l, asked[l], l in canStart, l in canServe, old(Look()), was, Look(), calm);
          }
        }
        refused := refused || one;
      }
    }

    method ServeOne(lane: Lane, queues: seq<string>, starts: bool, serves: bool) returns (refused: bool)
      requires Books()
      modifies this`ready, this`running, this`stopped, this`alive, this`place, this`serving, this`built, this`log
      ensures Books() && running.Keys <= old(running.Keys) + {lane} && Quietly(old(log), log)
      ensures forall l | l != lane :: LaneSame(l, old(Look()), Look(), calm)
      ensures LaneDone(lane, queues, starts, serves, old(Look()), Look(), calm)
    {
      RunningApart();
      hide Books, LaneDone, LaneSame, Quietly, StillTurning;
      QuietlySame();
      AllSame();
      refused := false;
      ghost var was := Look();
      if lane in running {
        refused := Follow(lane, queues, serves);
        Followed(lane, queues, starts, serves, was, Look(), calm);
      } else {
        var turning := IsTurning(lane);
        if turning {
          LeftTurning(lane, queues, starts, serves, was, calm);
        } else {
          StartLane(lane, queues, starts);
          Started(lane, queues, starts, serves, was, Look(), calm);
        }
      }
    }

    method IsTurning(lane: Lane) returns (turning: bool)
      ensures turning == StillTurning(lane) == Turning(Look(), lane)
    {
      turning := StillTurning(lane);
    }

    lemma RunningApart()
      requires Books()
      ensures forall l | l in running :: running[l] in serving
      ensures forall l, m | l in running && m in running && running[l] == running[m] :: l == m
    {
      hide ReadyBooks, StoppedBooks, OneThreadEach;
    }

    /** `stop`: nothing runs afterwards, and nothing ever will; every lane is stopped though one refuses. */
    method Stop() returns (refused: bool)
      requires Valid()
      modifies this`done, this`running, this`stopped, this`alive, this`place
      ensures Valid() && done && running == map[]
      ensures forall l | l in old(running) :: (l, old(running)[l]) in stopped
    {
      hide Books;
      done, refused := true, false;
      while running.Keys != {}
        invariant Books() && done
        invariant forall l | l in running :: l in old(running) && running[l] == old(running)[l]
        invariant forall l | l in old(running) && l !in running :: (l, old(running)[l]) in stopped
        decreases running.Keys
      {
        var lane :| lane in running.Keys;
        var stopping := StopLane(lane);
        refused := refused || stopping;
      }
      assert running == map[];
      var more: bool := *;
      refused := refused || more;
    }

    /** New entries of the log under a live thread are running consumers', each alive when it began. */
    ghost predicate Touches(was: seq<Settling>, living: set<nat>)
      reads this
    {
      && was <= log
      && forall k | |was| <= k < |log| && log[k].live :: log[k].consumer in living && IsRunning(log[k].consumer)
    }

    /** Settled under its own live thread since. */
    ghost predicate Clashed(was: seq<Settling>, c: nat)
      reads this`log
    {
      exists k :: |was| <= k < |log| && log[k] == Settling(c, true)
    }

    /** `collect`: running, ready and stopped in turn, threads ending as they will. A running consumer is
        settled whatever its thread does, so it is settled under it exactly where the thread is alive
        when the walk comes to it: never where it was not at the call, always where it outlives the
        walk. The others never are, and nobody is once `stop` has been called. */
    method Collect()
      requires Valid()
      modifies this`stopped, this`alive, this`place, this`log
      ensures Valid() && running == old(running) && alive <= old(alive) && (calm ==> alive == old(alive))
      ensures Touches(old(log), old(alive))
      ensures forall l | l in running && running[l] in alive :: Clashed(old(log), running[l])
      ensures forall l | l in running :: SettledSince(old(log), log, running[l])
      ensures forall l | l in ready :: SettledSince(old(log), log, ready[l])
      ensures forall e | e in old(stopped) && e.1 !in old(alive) :: SettledSince(old(log), log, e.1) && e !in stopped
      ensures done ==> Quietly(old(log), log)
      ensures calm ==> ((exists l :: l in running && running[l] in alive) <==> !Quietly(old(log), log))
    {
      hide Books, SettledSince;
      CollectRunning();
      ghost var mid := log;
      CollectReady();
      ghost var most := log;
      SettleStopped();
      QuietlyThen(mid, most, log);
      SinceLater(old(log), mid, most);
      SinceLater(old(log), most, log);
      assert forall l | l in running && running[l] in alive :: Clashed(old(log), running[l]);
      if l :| l in running && running[l] in alive { assert Clashed(old(log), running[l]); }
    }

    method CollectRunning()
      requires Books()
      modifies this`alive, this`log
      ensures Books() && alive <= old(alive) && (calm ==> alive == old(alive)) && Touches(old(log), old(alive))
      ensures forall l | l in running && running[l] in alive :: Clashed(old(log), running[l])
      ensures forall l | l in running :: SettledSince(old(log), log, running[l])
    {
      hide Books, SettledSince;
      var todo := running.Keys;
      while todo != {}
        invariant forall l | l in running && l !in todo :: SettledSince(old(log), log, running[l])
        invariant Books() && alive <= old(alive) && (calm ==> alive == old(alive)) && Touches(old(log), old(alive))
        invariant todo <= running.Keys
        invariant forall l | l in running && l !in todo && running[l] in alive :: Clashed(old(log), running[l])
      {
        var lane :| lane in todo;
        todo := todo - {lane};
        Exits();
        ghost var was := log;
        SettleOne(running[lane]);
        OneSettled(was, log[|was|]);
        SinceLater(old(log), was, log);
        assert log[|was|] == Settling(running[lane], running[lane] in alive);
        forall l | l in running && l !in todo && running[l] in alive ensures Clashed(old(log), running[l]) {
          if l != lane {
            var k :| |old(log)| <= k < |was| && was[k] == Settling(running[l], true);
            assert log[k] == was[k];
          }
        }
      }
    }

    /** Consumers never started: there is no thread to settle them under. */
    method CollectReady()
      requires Books()
      modifies this`alive, this`log
      ensures Books() && alive <= old(alive) && (calm ==> alive == old(alive)) && Quietly(old(log), log)
      ensures forall l | l in ready :: SettledSince(old(log), log, ready[l])
    {
      hide Books, SettledSince;
      var todo := ready.Keys;
      while todo != {}
        invariant forall l | l in ready && l !in todo :: SettledSince(old(log), log, ready[l])
        invariant Books() && alive <= old(alive) && (calm ==> alive == old(alive)) && Quietly(old(log), log)
        invariant todo <= ready.Keys
      {
        var lane :| lane in todo;
        todo := todo - {lane};
        Exits();
        ReadyHasNoThread(lane);
        ghost var was := log;
        SettleOne(ready[lane]);
        OneSettled(was, log[|was|]);
        SinceLater(old(log), was, log);
      }
    }

    lemma ReadyHasNoThread(lane: Lane)
      requires Books() && lane in ready
      ensures ready[lane] !in alive
    {
    }
  }

  /** And it happens: one pass starts a consumer, and `collect` without a `stop` before it settles that
      consumer under its thread. */
  method CollectWithoutStop() returns (set_: Consumers)
    ensures fresh(set_) && set_.Valid() && !set_.done && exists k :: 0 <= k < |set_.log| && set_.log[k].live
  {
    hide Consumers.Books, Consumers.Touches, InLane, Distinct, Quietly;
    set_ := new Consumers([], [], true);
    var lane := Queue("q");
    var refused, asked := set_.Reconcile(["q"], name => Queue(name), {lane}, {});
    assert "q" in ["q"] && lane in asked;
    assert lane in set_.running && set_.running[lane] in set_.alive;
    ghost var was := set_.log;
    set_.Collect();
    assert set_.Clashed(was, set_.running[lane]);
  }
}
