/** What becomes of a send while the bot shuts down (producer/client.py).

    A sender thread, the event loop, the thread in `close()` and whatever else drives the loop each
    move in atomic steps: one per flag read, flag write, lock region and loop callback. A run is any
    interleaving of them. */
module ClientSends {
  import opened Options

  datatype Ending = Completed | Refused | Cancelled | Raised | Lost

  /** How far one send has come. `loop` is which loop the sender was given, counted from the first. */
  datatype Place =
    | New
    | Accepted                       // past the first look at `_closing`
    | Looking(loop: nat)             // has its loop, wants the loop's lock
    | Locked                         // under the lock, past the second look
    | Willing                        // found nobody driving, about to drive the loop itself
    | Driving                        // inside run_until_complete
    | Failing                        // that raised a RuntimeError, the lock still held
    | Queued                         // a callback on the loop
    | Starting                       // its callback runs, and read `_closing` set
    | Tasked                         // a registered task
    | Doomed                         // dropped by the drain, its cancellation on the way
    | Ended(ending: Ending)

  datatype Actor = Nobody | Sender(id: nat) | Closer | Outside

  /** Where the thread in `close()` is. */
  datatype Phase =
    | Idle
    | Opened                         // `_draining` set
    | Flagged                        // `_closing` set too
    | Waiting                        // saw the loop at rest, wants its lock
    | Holding                        // has the lock
    | Turning(left: nat)             // one turn of the loop, this many callbacks of it to come
    | Settling(pending: set<nat>)    // waiting for the sends it found
    | Reaping(dropped: set<nat>)     // waiting for the ones it cancelled
    | Drained                        // releasing what the bot owns
    | Closed                         // the loop is closed, the bot still points at it
    | Leaving(how: Way)              // in the `finally`
    | Cleared(how: Way)              // `_closing` cleared

  /** How `close()` came to its `finally`: the loop was running, the teardown raised before the drain's
      turn, in it or after it, or the loop is closed. */
  datatype Way = Skipped | FailedEarly | FailedInTurn | FailedLate | Finished

  /** A second `close()` that finds the loop running and gives up, by how many flags it has written. */
  datatype Rival = Away | OneSet | BothSet | OneCleared

  /** What is said about a send: a callback called, an exception raised to its caller, a drop row. */
  datatype Note = OnComplete(id: nat) | OnRefused(id: nat) | ToCaller(id: nat) | DropRow(id: nat)

  /** The sends by how far each has come, and everything said about them. */
  datatype Sends = Sends(places: map<nat, Place>, notes: multiset<Note>) {
    function At(i: nat): Place { if i in places then places[i] else New }
    /** A send comes to a place, and what an ending says is said: a completion, an exception to the caller,
        or with every refusal a drop row and the slot back. */
    function Go(i: nat, p: Place): Sends { Sends(places[i := p], notes + Notes(i, p)) }
  }

  function Notes(i: nat, p: Place): multiset<Note> {
    if p == Ended(Completed) then multiset{OnComplete(i)}
    else if p == Ended(Raised) then multiset{ToCaller(i)}
    else if p == Ended(Refused) then multiset{DropRow(i), OnRefused(i)}
    else multiset{}
  }

  datatype Client = Client(
    closing: bool, draining: bool,
    gen: nat, open: bool,                 // which loop the bot points at, and whether it is open
    lock: Actor, driver: Actor, alive: bool,
    callbacks: seq<nat>, tasks: set<nat>,
    starting: Option<nat>,                // the callback under way, between its two reads
    sends: Sends,
    phase: Phase, rival: Rival,
    rivalled: bool,                       // a second `close()` has had its hands on the flags
    rude: bool)                           // somebody undid what a teardown under way rests on
  {
    function At(i: nat): Place { sends.At(i) }
  }

  const Start: Client :=
    Client(false, false, 0, true, Nobody, Nobody, false, [], {}, None, Sends(map[], multiset{}), Idle, Away,
           false, false)

  datatype SenderStep =
    | Ask | FindLoop | TakeLock | Decide | Drive | DriveEnds | DriveRaises(runtime: bool) | Recheck | AskOnLoop

  /** A hand-off's callback reads the two flags one after the other. */
  datatype LoopStep = BeginCallback | FinishCallback | TaskEnds(id: nat) | TaskReaped(id: nat)

  datatype CloserStep =
    | SetDraining | SetClosing | LookAtLoop | LockForTeardown | BeginTurn | SkipDrain | EndTurn | EndWait | EndReap
    | DriveMore | RestMore | CloseLoop | ForgetLoop | TeardownFails | ClearClosing | ClearDraining

  /** Polling or a runner thread taking the loop, and another `close()`. */
  datatype OtherStep = OutsideDrives | OutsideStops | RunnerLives(yes: bool) | RivalMoves

  datatype Step =
    | Sending(id: nat, how: SenderStep) | Loops(loop: LoopStep) | Closes(close: CloserStep) | Others(other: OtherStep)

  /** The lock is the teardown's. */
  predicate Held(p: Phase) {
    p.Holding? || p.Turning? || p.Settling? || p.Reaping? || p.Drained? || p.Closed?
  }

  /** Past its own look at the loop and not yet done with it. */
  predicate TearingDown(p: Phase) { p.Waiting? || Held(p) }

  /** `_closing` set by this `close()` and not yet cleared by it. */
  predicate Flagging(p: Phase) { Rests(p) || p.Leaving? }

  /** And while the teardown rests on it. */
  predicate Rests(p: Phase) { p.Flagged? || TearingDown(p) }

  /** `_draining` likewise, the drain itself having cleared it after its turn. */
  predicate DrainingIn(p: Phase) {
    || p.Opened? || p.Flagged? || p.Waiting? || p.Holding? || p.Turning?
    || ((p.Leaving? || p.Cleared?) && (p.how.Skipped? || p.how.FailedEarly?))
  }

  /** Past the drain: whatever was handed over has been dealt with. */
  predicate PastDrain(p: Phase) {
    || p.Settling? || p.Reaping? || p.Drained? || p.Closed?
    || ((p.Leaving? || p.Cleared?) && (p.how.FailedLate? || p.how.Finished?))
  }

  // ------------------------------------------------------------------ a sender

  predicate SenderMay(s: Client, i: nat, step: SenderStep) {
    match step
    case Ask => s.At(i).New?
    case AskOnLoop => s.At(i).New? && s.driver != Nobody && s.starting.None?
    case FindLoop => s.At(i).Accepted?
    case TakeLock => s.At(i).Looking? && (s.At(i).loop == s.gen ==> s.lock == Nobody)
    case Decide => s.At(i).Locked?
    case Drive => s.At(i).Willing?
    case DriveEnds => s.At(i).Driving? && s.starting.None?
    case DriveRaises(_) => s.At(i).Driving? && s.starting.None?
    case Recheck => s.At(i).Failing?
  }

  /** `_hand_off`: a callback on an open loop, a refusal on a closed one. */
  function HandedOff(s: Client): Place { if s.open then Queued else Ended(Refused) }

  /** Where the step takes the send. */
  function Becomes(s: Client, i: nat, step: SenderStep): Place {
    match step
    case Ask => if s.closing then Ended(Refused) else Accepted
    // called on the loop's own thread: no lock, and nothing else runs on the loop meanwhile
    case AskOnLoop => if s.closing then Ended(Refused) else Tasked
    case FindLoop => Looking(s.gen)
    case TakeLock => if s.closing || s.At(i) != Looking(s.gen) || !s.open then Ended(Refused) else Locked
    case Decide => if s.driver != Nobody || s.alive then HandedOff(s) else Willing
    case Drive => if s.driver != Nobody then HandedOff(s) else Driving
    case DriveEnds => Ended(Completed)
    case DriveRaises(runtime) => if runtime then Failing else Ended(Raised)
    case Recheck => if s.driver != Nobody then HandedOff(s) else Ended(Raised)
  }

  /** Its sender has the loop's lock while it is in one of these places. */
  predicate UnderLock(p: Place) { p.Locked? || p.Willing? || p.Driving? || p.Failing? }

  function SenderNext(s: Client, i: nat, step: SenderStep): Client {
    Settle(s, i, Becomes(s, i, step))
  }

  /** The send in its new place, and the loop, the lock and who drives as that place has them. */
  function Settle(s: Client, i: nat, p: Place): Client {
    s.(sends := s.sends.Go(i, p),
       callbacks := if p.Queued? then s.callbacks + [i] else s.callbacks,
       tasks := if p.Tasked? then s.tasks + {i} else s.tasks,
       lock := if UnderLock(p) then Sender(i) else if s.lock == Sender(i) then Nobody else s.lock,
       driver := if p.Driving? then Sender(i) else if s.driver == Sender(i) then Nobody else s.driver)
  }

  // ------------------------------------------------------------------ the loop

  predicate LoopMay(s: Client, step: LoopStep) {
    && s.driver != Nobody && (step.FinishCallback? <==> s.starting.Some?)
    && match step
       case BeginCallback => s.callbacks != []
       case FinishCallback => true
       case TaskEnds(i) => s.At(i).Tasked?
       case TaskReaped(i) => s.At(i).Doomed?
  }

  /** The send a step of the loop is about. */
  function LoopSubject(s: Client, step: LoopStep): nat
    requires LoopMay(s, step)
  {
    if step.BeginCallback? then s.callbacks[0] else if step.FinishCallback? then s.starting.value else step.id
  }

  /** Where the step takes it. The callback of a hand-off reads `_closing`, and where that is set
      `_draining` after it. */
  function LoopPlace(s: Client, step: LoopStep): Place {
    match step
    case BeginCallback => if s.closing then Starting else Tasked
    case FinishCallback => if s.draining then Tasked else Ended(Refused)
    case TaskEnds(_) => Ended(Completed)
    case TaskReaped(_) => Ended(Cancelled)
  }

  function LoopNext(s: Client, step: LoopStep): Client
    requires LoopMay(s, step)
  {
    var i, p := LoopSubject(s, step), LoopPlace(s, step);
    s.(sends := s.sends.Go(i, p),
       callbacks := if step.BeginCallback? then s.callbacks[1..] else s.callbacks,
       starting := if p.Starting? then Some(i) else None,
       tasks := if p.Tasked? then s.tasks + {i} else s.tasks - {i},
       phase := if step.BeginCallback? && s.phase.Turning? && s.phase.left > 0 then Turning(s.phase.left - 1)
                else s.phase)
  }

  // ------------------------------------------------------------------ close()

  predicate CloserMay(s: Client, step: CloserStep) {
    match step
    case SetDraining => s.phase.Idle?
    case SetClosing => s.phase.Opened?
    case LookAtLoop => s.phase.Flagged?
    case LockForTeardown => s.phase.Waiting? && s.lock == Nobody
    case BeginTurn => s.phase.Holding? && s.driver == Nobody
    case SkipDrain => s.phase.Holding? && s.driver != Nobody
    case EndTurn => s.phase.Turning? && s.phase.left == 0 && s.starting.None?
    case EndWait => s.phase.Settling? && s.starting.None?
    case EndReap => s.phase.Reaping? && s.phase.dropped !! s.tasks && s.starting.None?
    case DriveMore => s.phase.Drained? && s.driver == Nobody
    case RestMore => s.phase.Drained? && s.driver == Closer && s.starting.None?
    case CloseLoop => s.phase.Drained? && s.driver == Nobody
    case ForgetLoop => s.phase.Closed?
    case TeardownFails =>
      Held(s.phase) && !s.phase.Reaping? && !s.phase.Closed? && (s.driver == Closer ==> s.starting.None?)
    case ClearClosing => s.phase.Leaving?
    case ClearDraining => s.phase.Cleared?
  }

  /** The sends that outlasted the drain's wait. */
  function Late(s: Client): set<nat> { if s.phase.Settling? then s.phase.pending * s.tasks else {} }

  /** Where the step takes the thread in `close()`. */
  function PhaseAfter(s: Client, step: CloserStep): Phase
    requires CloserMay(s, step)
  {
    match step
    case SetDraining => Opened
    case SetClosing => Flagged
    case LookAtLoop => if s.driver != Nobody then Leaving(Skipped) else Waiting
    case LockForTeardown => Holding
    case BeginTurn => Turning(|s.callbacks|)
    case SkipDrain => Drained
    case EndTurn => if s.tasks == {} then Drained else Settling(s.tasks)
    case EndWait => if Late(s) == {} then Drained else Reaping(Late(s))
    case EndReap => Drained
    case DriveMore => Drained
    case RestMore => Drained
    case CloseLoop => Closed
    case ForgetLoop => Leaving(Finished)
    case TeardownFails =>
      Leaving(if s.phase.Holding? then FailedEarly else if s.phase.Turning? then FailedInTurn else FailedLate)
    case ClearClosing => Cleared(s.phase.how)
    case ClearDraining => Idle
  }

  /** Who drives the loop then: the teardown while it runs the loop, whoever else drives being left alone. */
  function DriverAfter(s: Client, step: CloserStep): Actor {
    if step.BeginTurn? || step.DriveMore? then Closer
    else if (step.EndTurn? && s.tasks == {}) || (step.EndWait? && Late(s) == {}) || step.EndReap? || step.RestMore?
            || (step.TeardownFails? && s.driver == Closer) then Nobody
    else s.driver
  }

  /** The drain clears `_draining` after its turn, also where the turn raises. */
  function DrainingAfter(s: Client, step: CloserStep): bool {
    if step.SetDraining? || step.BeginTurn? then true
    else if step.EndTurn? || step.ClearDraining? || (step.TeardownFails? && s.phase.Turning?) then false
    else s.draining
  }

  function CloserNext(s: Client, step: CloserStep): Client
    requires CloserMay(s, step)
  {
    s.(phase := PhaseAfter(s, step),
       closing := step.SetClosing? || (!step.ClearClosing? && s.closing),
       draining := DrainingAfter(s, step),
       lock := if step.LockForTeardown? then Closer
               else if step.ForgetLoop? || step.TeardownFails? then Nobody
               else s.lock,
       driver := DriverAfter(s, step),
       open := if step.CloseLoop? then false else if step.ForgetLoop? then true else s.open,
       gen := if step.ForgetLoop? then s.gen + 1 else s.gen,
       callbacks := if step.CloseLoop? then [] else s.callbacks,
       tasks := if step.CloseLoop? then {} else s.tasks,
       sends := if step.CloseLoop? then Abandon(s.sends)
                else if step.EndWait? && Late(s) != {} then Doom(s.sends, Late(s)) else s.sends,
       rivalled := s.rivalled && !(step.ClearDraining? && s.rival.Away?))
  }

  /** A drop row each, and the cancellation asked for. */
  function Doom(sends: Sends, dropped: set<nat>): Sends {
    Sends(map i | i in sends.places.Keys + dropped :: if i in dropped then Doomed else sends.places[i],
          sends.notes + multiset(set i | i in dropped :: DropRow(i)))
  }

  /** The loop has it: as a callback, between its callback's reads, as a task. */
  predicate OnLoop(p: Place) { p.Queued? || p.Starting? || p.Tasked? || p.Doomed? }

  /** What a closed loop never runs. */
  function Abandon(sends: Sends): Sends {
    Sends(map i | i in sends.places ::
            if sends.places[i].Queued? || sends.places[i].Tasked? then Ended(Lost) else sends.places[i],
          sends.notes)
  }

  // ------------------------------------------------------------------ the others

  predicate OtherMay(s: Client, step: OtherStep) {
    match step
    case OutsideDrives => s.driver == Nobody && s.open
    case OutsideStops => s.driver == Outside && s.starting.None?
    case RunnerLives(_) => true
    case RivalMoves => s.rival.BothSet? ==> s.driver != Nobody
  }

  /** A second `close()` puts both flags up and takes both down. Taking `_closing` down is the one write
      that matters to a teardown under way: from then on a send on the loop is let in. */
  function OtherNext(s: Client, step: OtherStep): Client {
    var r := step.RivalMoves?;
    s.(driver := if step.OutsideDrives? then Outside else if step.OutsideStops? then Nobody else s.driver,
       alive := if step.RunnerLives? then step.yes else s.alive,
       draining := (r && s.rival.Away?) || (s.draining && !(r && s.rival.OneCleared?)),
       closing := (r && s.rival.OneSet?) || (s.closing && !(r && s.rival.BothSet?)),
       rival := if r then NextOf(s.rival) else s.rival,
       rivalled := if r then !(s.rival.OneCleared? && s.phase.Idle?) else s.rivalled,
       rude := s.rude || Meddles(s, step))
  }

  function NextOf(r: Rival): Rival {
    if r.Away? then OneSet else if r.OneSet? then BothSet else if r.BothSet? then OneCleared else Away
  }

  /** Somebody else starts driving the loop under a teardown, or a second `close()` takes `_closing` down
      under one. */
  predicate Meddles(s: Client, step: OtherStep) {
    (step.RivalMoves? && s.rival.BothSet? && Rests(s.phase)) || (step.OutsideDrives? && TearingDown(s.phase))
  }

  predicate Enabled(s: Client, step: Step) {
    match step
    case Sending(i, how) => SenderMay(s, i, how)
    case Loops(l) => LoopMay(s, l)
    case Closes(c) => CloserMay(s, c)
    case Others(o) => OtherMay(s, o)
  }

  function Next(s: Client, step: Step): Client
    requires Enabled(s, step)
  {
    match step
    case Sending(i, how) => SenderNext(s, i, how)
    case Loops(l) => LoopNext(s, l)
    case Closes(c) => CloserNext(s, c)
    case Others(o) => OtherNext(s, o)
  }

  // ------------------------------------------------------------------ what every step keeps

  function One(b: bool): nat { if b then 1 else 0 }

  /** What has been said about a send is what its place says: each callback at most once, one drop row
      or none. */
  ghost predicate Said(sends: Sends, i: nat) {
    var p := sends.At(i);
    && sends.notes[OnComplete(i)] == One(p == Ended(Completed))
    && sends.notes[OnRefused(i)] == One(p == Ended(Refused))
    && sends.notes[ToCaller(i)] == One(p == Ended(Raised))
    && sends.notes[DropRow(i)] == One(p == Ended(Refused) || p == Ended(Cancelled) || p == Doomed)
  }

  /** The loop has it exactly where its place says. */
  ghost predicate Kept(s: Client, i: nat) {
    var p := s.At(i);
    && multiset(s.callbacks)[i] == One(p.Queued?)
    && (i in s.tasks <==> p.Tasked? || p.Doomed?) && (s.starting == Some(i) <==> p.Starting?)
    && (p.Doomed? ==> s.phase.Reaping? && i in s.phase.dropped)
    && (s.phase.Reaping? && i in s.phase.dropped ==> p.Doomed? || p == Ended(Cancelled))
    && (p == Ended(Lost) ==> s.rude)
  }

  /** It has the lock, or the loop, exactly where its place says. */
  ghost predicate Holds(s: Client, i: nat) {
    var p := s.At(i);
    && (s.lock == Sender(i) <==> UnderLock(p))
    && (s.driver == Sender(i) <==> p.Driving?)
  }

  ghost predicate Fits(s: Client, i: nat) { Said(s.sends, i) && Kept(s, i) && Holds(s, i) }

  ghost predicate Shape(s: Client) {
    && (s.lock == Closer <==> Held(s.phase)) && s.lock != Outside
    && (s.driver.Sender? ==> s.lock == s.driver)
    && (s.phase.Turning? || s.phase.Settling? || s.phase.Reaping? ==> s.driver == Closer)
    && (s.driver == Closer ==> s.phase.Turning? || s.phase.Settling? || s.phase.Reaping? || s.phase.Drained?)
    && (s.open <==> !s.phase.Closed?)
    && (!s.open ==> s.callbacks == [] && s.tasks == {} && s.driver == Nobody)
    && (s.phase.Turning? ==> s.phase.left == |s.callbacks|)
    && (s.starting.Some? ==> s.driver != Nobody)
    // a flag is up only while somebody who put it up has not taken it down
    && (s.closing ==> Flagging(s.phase) || s.rival.BothSet?)
    && (s.draining ==> !s.phase.Idle? || !s.rival.Away?)
    && (!s.rival.Away? ==> s.rivalled)
  }

  /** What a teardown rests on while nobody undoes it: sends on the loop are refused, the loop is its own,
      and past the drain nothing is left but what it found. */
  ghost predicate Safe(s: Client) {
    && (Rests(s.phase) ==> s.closing)
    && (TearingDown(s.phase) ==> s.driver != Outside)
    && (s.phase.Settling? ==> s.callbacks == [] && s.starting.None? && s.tasks <= s.phase.pending)
    && (s.phase.Reaping? ==> s.callbacks == [] && s.starting.None? && s.tasks <= s.phase.dropped)
    && (s.phase.Drained? ==> s.callbacks == [] && s.starting.None? && s.tasks == {})
  }

  /** And while no second `close()` touches the flags, they are what the phase says, and a callback that
      is left over from the drain there is none. */
  ghost predicate Flags(s: Client) {
    && (s.closing <==> Flagging(s.phase)) && (s.draining <==> DrainingIn(s.phase))
    && (PastDrain(s.phase) ==> s.starting.None?)
    && (PastDrain(s.phase) && s.phase.Leaving? ==> s.callbacks == [] && !s.lock.Sender?)
  }

  /** The bot itself, apart from its sends. */
  ghost predicate Sound(s: Client) {
    Shape(s) && (!s.rude ==> Safe(s)) && (!s.rude && !s.rivalled ==> Flags(s))
  }

  ghost predicate Inv(s: Client) { Sound(s) && forall i: nat :: Fits(s, i) }

  /** What a sender's step may make of its send, and what that rests on. */
  lemma SenderGoes(s: Client, i: nat, step: SenderStep)
    requires SenderMay(s, i, step)
    ensures var p := Becomes(s, i, step);
            && !p.Doomed? && (p.Ended? ==> p.ending.Completed? || p.ending.Refused? || p.ending.Raised?)
            && (p.Tasked? ==> s.driver != Nobody && !s.closing && s.starting.None?)
            && (p.Queued? ==> s.open && UnderLock(s.At(i)))
            && (p.Driving? ==> s.driver == Nobody) && (UnderLock(p) ==> UnderLock(s.At(i)) || s.lock == Nobody)
            && (UnderLock(p) ==> UnderLock(s.At(i)) || (s.open && !s.closing))
            && (s.At(i).Driving? ==> !p.Driving? && s.starting.None?) && (p.Driving? ==> UnderLock(s.At(i)))
    ensures var q := s.At(i); !q.Ended? && !q.Doomed? && !q.Queued? && !q.Tasked? && !q.Starting?
    ensures !Becomes(s, i, step).Starting?
  {
  }

  lemma SenderSound(s: Client, i: nat, step: SenderStep)
    requires Sound(s) && Holds(s, i) && SenderMay(s, i, step)
    ensures Sound(SenderNext(s, i, step))
  {
    SenderGoes(s, i, step);
    hide Becomes, SenderMay;
  }

  /** An ending says its one thing, and a move says nothing. */
  lemma GoSaid(x: Sends, i: nat, p: Place, j: nat)
    requires Said(x, i) && Said(x, j) && !x.At(i).Ended? && !x.At(i).Doomed? && !p.Doomed?
    requires p.Ended? ==> p.ending.Completed? || p.ending.Refused? || p.ending.Raised?
    ensures Said(x.Go(i, p), j)
  {
  }

  lemma SenderSaid(s: Client, i: nat, step: SenderStep, j: nat)
    requires Said(s.sends, i) && Said(s.sends, j) && SenderMay(s, i, step)
    ensures Said(SenderNext(s, i, step).sends, j)
  {
    SenderGoes(s, i, step);
    hide Said, Becomes, SenderMay;
    GoSaid(s.sends, i, Becomes(s, i, step), j);
  }

  lemma SenderKept(s: Client, i: nat, step: SenderStep, j: nat)
    requires Kept(s, i) && Kept(s, j) && SenderMay(s, i, step)
    ensures Kept(SenderNext(s, i, step), j)
  {
    SenderGoes(s, i, step);
    hide Becomes, SenderMay;
  }

  lemma SenderHolds(s: Client, i: nat, step: SenderStep, j: nat)
    requires Shape(s) && Holds(s, i) && Holds(s, j) && SenderMay(s, i, step)
    ensures Holds(SenderNext(s, i, step), j)
  {
    SenderGoes(s, i, step);
    hide Becomes, SenderMay, Shape;
  }

  lemma LoopSound(s: Client, step: LoopStep)
    requires Sound(s) && LoopMay(s, step)
    ensures Sound(LoopNext(s, step))
  {
  }

  lemma LoopSaid(s: Client, step: LoopStep, j: nat)
    requires LoopMay(s, step) && Said(s.sends, j)
    requires Fits(s, LoopSubject(s, step))
    ensures Said(LoopNext(s, step).sends, j)
  {
    hide Holds;
    match step
    case BeginCallback =>
      hide Said;
      GoSaid(s.sends, s.callbacks[0], Tasked, j);
      GoSaid(s.sends, s.callbacks[0], Starting, j);
    case FinishCallback =>
      hide Said;
      GoSaid(s.sends, s.starting.value, Tasked, j);
      GoSaid(s.sends, s.starting.value, Ended(Refused), j);
    case TaskEnds(i) =>
      hide Said;
      GoSaid(s.sends, i, Ended(Completed), j);
    case TaskReaped(i) =>
  }

  lemma LoopKept(s: Client, step: LoopStep, j: nat)
    requires Kept(s, j) && LoopMay(s, step)
    requires Kept(s, LoopSubject(s, step))
    ensures Kept(LoopNext(s, step), j)
  {
    if step.BeginCallback? { assert s.callbacks == [s.callbacks[0]] + s.callbacks[1..]; }
  }

  lemma LoopHolds(s: Client, step: LoopStep, j: nat)
    requires Holds(s, j) && LoopMay(s, step)
    requires Kept(s, LoopSubject(s, step))
    ensures Holds(LoopNext(s, step), j)
  {
  }

  lemma CloserShape(s: Client, step: CloserStep)
    requires Shape(s) && CloserMay(s, step)
    ensures Shape(CloserNext(s, step))
  {
  }

  lemma CloserSafe(s: Client, step: CloserStep)
    requires Shape(s) && Safe(s) && CloserMay(s, step)
    ensures Safe(CloserNext(s, step))
  {
    if step.EndReap? { assert s.tasks == s.tasks * s.phase.dropped; }
    hide DrainingAfter;
  }

  lemma CloserFlags(s: Client, step: CloserStep)
    requires Shape(s) && Safe(s) && (s.rivalled ==> step.ClearDraining? && s.rival.Away?) && CloserMay(s, step)
    requires !s.rivalled ==> Flags(s)
    ensures Flags(CloserNext(s, step))
  {
  }

  lemma CloserSound(s: Client, step: CloserStep)
    requires Sound(s) && CloserMay(s, step)
    ensures Sound(CloserNext(s, step))
  {
    hide Shape, Safe, Flags, PhaseAfter, DriverAfter, DrainingAfter, CloserMay;
    CloserShape(s, step);
    if !s.rude {
      CloserSafe(s, step);
      if !CloserNext(s, step).rivalled { CloserFlags(s, step); }
    }
  }

  lemma DoomSaid(x: Sends, dropped: set<nat>, j: nat)
    requires Said(x, j) && (j in dropped ==> x.At(j).Tasked?)
    ensures Said(Doom(x, dropped), j)
  {
  }

  lemma CloserSaid(s: Client, step: CloserStep, j: nat)
    requires Said(s.sends, j) && Kept(s, j) && CloserMay(s, step)
    ensures Said(CloserNext(s, step).sends, j)
  {
    if step.EndWait? {
      DoomSaid(s.sends, s.phase.pending * s.tasks, j);
    } else if step.CloseLoop? {
      assert Said(Abandon(s.sends), j);
    } else {
      assert CloserNext(s, step).sends == s.sends by { hide Said, Kept; }
    }
  }

  lemma DrainedIsEmpty(s: Client)
    requires Sound(s) && !s.rude && s.phase.Drained?
    ensures s.callbacks == [] && s.tasks == {}
  {
  }

  lemma CloserReaps(s: Client, step: CloserStep)
    requires CloserMay(s, step) && !step.EndWait?
    ensures !PhaseAfter(s, step).Reaping? && (s.phase.Reaping? ==> s.phase.dropped !! s.tasks)
  {
  }

  lemma EndWaitKept(s: Client, j: nat)
    requires Kept(s, j) && CloserMay(s, EndWait)
    ensures Kept(CloserNext(s, EndWait), j)
  {
  }

  lemma CloserKept(s: Client, step: CloserStep, j: nat)
    requires Sound(s) && Kept(s, j) && CloserMay(s, step)
    ensures Kept(CloserNext(s, step), j)
  {
    if step.EndWait? {
      hide Sound, Kept;
      EndWaitKept(s, j);
    } else {
      CloserReaps(s, step);
      if step.CloseLoop? && !s.rude { DrainedIsEmpty(s); }
      assert step.CloseLoop? ==> s.starting.None? by { ShapeOf(s); }
      hide Sound, PhaseAfter, DriverAfter, DrainingAfter;
    }
  }

  lemma CloserHolds(s: Client, step: CloserStep, j: nat)
    requires Shape(s) && Holds(s, j) && Kept(s, j) && CloserMay(s, step)
    ensures Holds(CloserNext(s, step), j)
  {
  }

  lemma OtherSound(s: Client, step: OtherStep)
    requires Sound(s) && OtherMay(s, step)
    ensures Sound(OtherNext(s, step))
  {
  }

  ghost predicate OnlyTheDriver(s: Client, t: Client) {
    && t.sends == s.sends && t.callbacks == s.callbacks && t.tasks == s.tasks && t.phase == s.phase && t.lock == s.lock
    && (s.rude ==> t.rude) && t.starting == s.starting
    && (t.driver == s.driver || (!t.driver.Sender? && !s.driver.Sender?))
  }

  lemma OtherTouches(s: Client, step: OtherStep)
    requires OtherMay(s, step)
    ensures OnlyTheDriver(s, OtherNext(s, step))
  {
  }

  lemma OtherFits(s: Client, step: OtherStep, j: nat)
    requires Fits(s, j) && OtherMay(s, step)
    ensures Fits(OtherNext(s, step), j)
  {
    hide OtherNext, OtherMay;
    OtherTouches(s, step);
  }

  lemma StepKeeps(s: Client, step: Step)
    requires Inv(s) && Enabled(s, step)
    ensures Inv(Next(s, step))
  {
    hide Said, Kept, Holds, Sound, SenderNext, LoopNext, CloserNext, OtherNext;
    var t := Next(s, step);
    match step
    case Sending(i, how) =>
      assert Fits(s, i);
      assert Shape(s) by { ShapeOf(s); }
      SenderSound(s, i, how);
      forall j: nat ensures Fits(t, j) {
        assert Fits(s, j);
        SenderSaid(s, i, how, j);
        SenderKept(s, i, how, j);
        SenderHolds(s, i, how, j);
      }
    case Loops(l) =>
      LoopSound(s, l);
      assert Shape(s) by { ShapeOf(s); }
      forall j: nat ensures Fits(t, j) {
        assert Fits(s, j) && Fits(s, LoopSubject(s, l));
        LoopSaid(s, l, j);
        LoopKept(s, l, j);
        LoopHolds(s, l, j);
      }
    case Closes(c) =>
      CloserSound(s, c);
      assert Shape(s) by { ShapeOf(s); }
      forall j: nat ensures Fits(t, j) {
        assert Fits(s, j);
        CloserSaid(s, c, j);
        CloserKept(s, c, j);
        CloserHolds(s, c, j);
      }
    case Others(o) =>
      OtherSound(s, o);
      forall j: nat ensures Fits(t, j) { assert Fits(s, j); OtherFits(s, o, j); }
  }

  lemma ShapeOf(s: Client)
    requires Sound(s)
    ensures Shape(s)
  {
  }

  // ------------------------------------------------------------------ whole runs

  ghost predicate IsRun(s: Client, steps: seq<Step>)
    decreases |steps|
  {
    steps == [] || (Enabled(s, steps[0]) && IsRun(Next(s, steps[0]), steps[1..]))
  }

  ghost function Final(s: Client, steps: seq<Step>): Client
    requires IsRun(s, steps)
    decreases |steps|
  {
    if steps == [] then s else Final(Next(s, steps[0]), steps[1..])
  }

  ghost predicate Undisturbed(s: Client, steps: seq<Step>)
    requires IsRun(s, steps)
    decreases |steps|
  {
    steps == [] || (!(steps[0].Others? && Meddles(s, steps[0].other)) && Undisturbed(Next(s, steps[0]), steps[1..]))
  }

  lemma {:induction false} RunKeeps(s: Client, steps: seq<Step>)
    requires Inv(s) && IsRun(s, steps)
    ensures Inv(Final(s, steps))
    decreases |steps|
  {
    hide Inv, Next, Enabled;
    if steps != [] {
      StepKeeps(s, steps[0]);
      RunKeeps(Next(s, steps[0]), steps[1..]);
    }
  }

  lemma StartHolds()
    ensures Inv(Start)
  {
  }

  lemma RudeStep(s: Client, step: Step)
    requires Enabled(s, step)
    ensures Next(s, step).rude <==> s.rude || (step.Others? && Meddles(s, step.other))
  {
    match step
    case Sending(i, how) =>
    case Loops(l) =>
      hide LoopNext;
      LoopRude(s, l);
    case Closes(c) =>
      hide CloserNext;
      CloserRude(s, c);
    case Others(_) =>
  }

  lemma LoopRude(s: Client, step: LoopStep)
    requires LoopMay(s, step)
    ensures LoopNext(s, step).rude == s.rude
  {
  }

  lemma CloserRude(s: Client, step: CloserStep)
    requires CloserMay(s, step)
    ensures CloserNext(s, step).rude == s.rude
  {
  }

  lemma {:induction false} RudeMeansMeddled(s: Client, steps: seq<Step>)
    requires IsRun(s, steps)
    ensures Final(s, steps).rude <==> s.rude || !Undisturbed(s, steps)
    decreases |steps|
  {
    hide Next, Enabled, Meddles;
    if steps != [] {
      RudeStep(s, steps[0]);
      RudeMeansMeddled(Next(s, steps[0]), steps[1..]);
    }
  }

  /** Over every run, however the teardown is disturbed: at most one thing is said about how a send
      ended, and a drop row is there exactly when it was refused or cancelled. */
  lemma EveryRunSaysOnce(steps: seq<Step>, i: nat)
    requires IsRun(Start, steps)
    ensures var t := Final(Start, steps);
            var n := t.sends.notes;
            && n[OnComplete(i)] + n[OnRefused(i)] + n[ToCaller(i)] <= 1
            && (n[OnComplete(i)] == 1 <==> t.At(i) == Ended(Completed))
            && (n[OnRefused(i)] == 1 <==> t.At(i) == Ended(Refused))
            && (n[ToCaller(i)] == 1 <==> t.At(i) == Ended(Raised))
            && n[DropRow(i)] <= 1
            && (t.At(i).Ended? ==> (n[DropRow(i)] == 1 <==> t.At(i).ending.Refused? || t.At(i).ending.Cancelled?))
  {
    StartHolds();
    RunKeeps(Start, steps);
    assert Fits(Final(Start, steps), i);
  }

  /** What a refusal needs, at a look of the sender itself or of its callback: a `close()` has `_closing` up, or
      the loop the send was given is closed, or is no longer the bot's. */
  ghost predicate Excuse(s: Client, step: Step, i: nat) {
    && ((step.Sending? && step.id == i) || (step == Loops(BeginCallback) && s.callbacks != [] && s.callbacks[0] == i))
    && (s.closing || !s.open || (s.At(i).Looking? && s.At(i).loop != s.gen))
  }

  ghost predicate Excused(s: Client, steps: seq<Step>, i: nat)
    requires IsRun(s, steps)
    decreases |steps|
  {
    steps != [] && (Excuse(s, steps[0], i) || Excused(Next(s, steps[0]), steps[1..], i))
  }

  /** Refused, or about to find out. */
  predicate Refusing(p: Place) { p == Ended(Refused) || p.Starting? }

  lemma RefusingIsExcused(s: Client, step: Step, i: nat)
    requires Inv(s) && Enabled(s, step) && !Refusing(s.At(i)) && Refusing(Next(s, step).At(i))
    ensures Excuse(s, step, i)
  {
    hide Said, Holds, Sound;
    assert Fits(s, i);
    match step
    case Sending(j, how) => SenderGoes(s, j, how);
    case Loops(l) => assert Fits(s, LoopSubject(s, l));
    case Closes(c) => CloserRefusesNone(s, c, i);
    case Others(o) =>
  }

  lemma CloserRefusesNone(s: Client, c: CloserStep, i: nat)
    requires CloserMay(s, c) && !Refusing(s.At(i))
    ensures !Refusing(CloserNext(s, c).At(i))
  {
  }

  lemma {:induction false} RefusedIsExcused(s: Client, steps: seq<Step>, i: nat)
    requires Inv(s) && IsRun(s, steps) && !Refusing(s.At(i)) && Refusing(Final(s, steps).At(i))
    ensures Excused(s, steps, i)
    decreases |steps|
  {
    hide Inv, Next, Enabled, Excuse, Refusing;
    var t := Next(s, steps[0]);
    StepKeeps(s, steps[0]);
    if Refusing(t.At(i)) { RefusingIsExcused(s, steps[0], i); } else { RefusedIsExcused(t, steps[1..], i); }
  }

  /** On every run, a send is refused only where one of its looks found a `close()` with `_closing` up, or its
      loop closed or replaced. */
  lemma NoRefusalUnexcused(steps: seq<Step>, i: nat)
    requires IsRun(Start, steps) && Final(Start, steps).At(i) == Ended(Refused)
    ensures Excused(Start, steps, i)
  {
    StartHolds();
    RefusedIsExcused(Start, steps, i);
  }

  /** And cancelled only by a drain whose wait it outlasted. */
  lemma CancelledOutlasted(s: Client, step: Step, i: nat)
    requires Inv(s) && Enabled(s, step) && !s.At(i).Doomed? && s.At(i) != Ended(Cancelled)
    requires Next(s, step).At(i).Doomed? || Next(s, step).At(i) == Ended(Cancelled)
    ensures step == Closes(EndWait) && s.phase.Settling? && i in s.phase.pending && i in s.tasks
  {
    hide Said, Holds, Sound;
    assert Fits(s, i);
    match step
    case Sending(j, how) => SenderGoes(s, j, how);
    case Loops(l) =>
    case Closes(c) =>
    case Others(o) =>
  }

  /** A run nobody meddles with loses no send: whenever the loop is closed nothing is left on it, and
      every send has one of the four endings or is still on its way. */
  lemma UndisturbedLosesNothing(steps: seq<Step>)
    requires IsRun(Start, steps) && Undisturbed(Start, steps)
    ensures var t := Final(Start, steps);
            && (forall i: nat :: t.At(i) != Ended(Lost))
            && (t.phase.Drained? || t.phase.Closed? ==>
                  t.callbacks == [] && t.tasks == {}
                  && forall i: nat :: !OnLoop(t.At(i)))
  {
    StartHolds();
    RunKeeps(Start, steps);
    RudeMeansMeddled(Start, steps);
    var t := Final(Start, steps);
    forall i: nat
      ensures t.At(i) != Ended(Lost)
      ensures t.phase.Drained? || t.phase.Closed? ==> !OnLoop(t.At(i))
    {
      assert Fits(t, i);
    }
  }

  /** What closing the loop loses is exactly what is still on it. */
  lemma ClosingLoses(s: Client, i: nat)
    requires Inv(s) && CloserMay(s, CloseLoop) && s.At(i) != Ended(Lost)
    ensures CloserNext(s, CloseLoop).At(i) == Ended(Lost) <==> i in s.callbacks || i in s.tasks
  {
    assert Fits(s, i);
    assert i in s.callbacks <==> multiset(s.callbacks)[i] > 0;
  }

  /** A callback that read `_closing` set is refused exactly where, by its second read, the `close()` it
      saw has taken both flags down again, or failed in the drain's turn. */
  lemma CallbackRefusesIff(s: Client, i: nat)
    requires Inv(s) && !s.rude && !s.rivalled && LoopMay(s, FinishCallback) && s.starting == Some(i)
    ensures LoopNext(s, FinishCallback).At(i) == Ended(Refused) <==>
            s.phase.Idle? || ((s.phase.Leaving? || s.phase.Cleared?) && s.phase.how.FailedInTurn?)
  {
  }

  /** What a step writes to `_draining`, where it does. */
  function DrainingWrite(s: Client, step: Step): Option<bool> {
    match step
    case Closes(c) =>
      if c.SetDraining? || c.BeginTurn? then Some(true)
      else if c.EndTurn? || c.ClearDraining? || (c.TeardownFails? && s.phase.Turning?) then Some(false)
      else None
    case Others(o) =>
      if o.RivalMoves? && s.rival.Away? then Some(true)
      else if o.RivalMoves? && s.rival.OneCleared? then Some(false)
      else None
    case _ => None
  }

  /** The last such write of a run. */
  ghost function LastWrite(s: Client, steps: seq<Step>): Option<bool>
    requires IsRun(s, steps)
    decreases |steps|
  {
    if steps == [] then None
    else
      var rest := LastWrite(Next(s, steps[0]), steps[1..]);
      if rest.Some? then rest else DrainingWrite(s, steps[0])
  }

  lemma WrittenAfter(s: Client, step: Step)
    requires Enabled(s, step)
    ensures Next(s, step).draining == if DrainingWrite(s, step).Some? then DrainingWrite(s, step).value else s.draining
  {
  }

  lemma {:induction false} LastWriteStands(s: Client, steps: seq<Step>)
    requires IsRun(s, steps)
    ensures Final(s, steps).draining == if LastWrite(s, steps).Some? then LastWrite(s, steps).value else s.draining
    decreases |steps|
  {
    if steps != [] {
      WrittenAfter(s, steps[0]);
      hide Next, Enabled, DrainingWrite;
      LastWriteStands(Next(s, steps[0]), steps[1..]);
    }
  }

  /** On every run, one with a second `close()` too: a callback that read `_closing` set is refused exactly where
      the last write of `_draining` before its second read took it down, whichever `close()` made it. */
  lemma RefusedByLastWrite(steps: seq<Step>, i: nat)
    requires IsRun(Start, steps) && LoopMay(Final(Start, steps), FinishCallback)
    requires Final(Start, steps).starting == Some(i)
    ensures LoopNext(Final(Start, steps), FinishCallback).At(i) == Ended(Refused) <==>
            LastWrite(Start, steps) != Some(true)
  {
    LastWriteStands(Start, steps);
  }

  // ------------------------------------------------------------------ what was handed over in time

  /** On the loop, or done with as something on the loop is: sent, refused or cancelled, and that said. */
  predicate Carried(s: Client, i: nat) {
    var p := s.At(i);
    OnLoop(p) || p == Ended(Completed) || p == Ended(Refused) || p == Ended(Cancelled)
  }

  lemma CarriedOn(s: Client, step: Step, i: nat)
    requires Inv(s) && Enabled(s, step) && Carried(s, i) && !Next(s, step).rude
    ensures Carried(Next(s, step), i)
  {
    hide Said, Holds, Kept, Sound, SenderNext, LoopNext, CloserNext, Carried;
    assert Fits(s, i);
    RudeStep(s, step);
    match step
    case Sending(j, how) => CarriedBySender(s, j, how, i);
    case Loops(l) => CarriedByLoop(s, l, i);
    case Closes(c) => CarriedByCloser(s, c, i);
    case Others(o) => CarriedByOthers(s, o, i);
  }

  lemma CarriedBySender(s: Client, j: nat, how: SenderStep, i: nat)
    requires SenderMay(s, j, how) && Carried(s, i)
    ensures Carried(SenderNext(s, j, how), i)
  {
    SenderGoes(s, j, how);
    hide Becomes, SenderMay;
  }

  lemma CarriedByLoop(s: Client, step: LoopStep, i: nat)
    requires LoopMay(s, step) && Carried(s, i)
    ensures Carried(LoopNext(s, step), i)
  {
  }

  lemma CarriedByCloser(s: Client, step: CloserStep, i: nat)
    requires Sound(s) && Kept(s, i) && CloserMay(s, step) && Carried(s, i) && !s.rude
    ensures Carried(CloserNext(s, step), i)
  {
    if step.CloseLoop? { DrainedIsEmpty(s); }
    hide Sound;
  }

  lemma CarriedByOthers(s: Client, step: OtherStep, i: nat)
    requires Carried(s, i)
    ensures Carried(OtherNext(s, step), i)
  {
  }

  /** On the loop or done with, and not refused. */
  predicate Kindly(s: Client, i: nat) { Carried(s, i) && s.At(i) != Ended(Refused) }

  /** No callback is refused from the lock on, nobody else having touched the flags. */
  lemma KindlyOn(s: Client, step: Step, i: nat)
    requires Inv(s) && Enabled(s, step) && Kindly(s, i) && !s.rude && !Next(s, step).rude && !s.rivalled
             && Held(s.phase)
    ensures Kindly(Next(s, step), i)
  {
    CarriedOn(s, step, i);
    assert Fits(s, i);
    if step.Loops? && step.loop.FinishCallback? { CallbackRefusesIff(s, s.starting.value); }
    hide Inv, Said, Holds, Kept, SenderNext, CloserNext, OtherMay, Carried;
    match step
    case Sending(j, how) => KindlyBySender(s, j, how, i);
    case Loops(l) =>
    case Closes(c) => KindlyByCloser(s, c, i);
    case Others(o) =>
  }

  lemma KindlyBySender(s: Client, j: nat, how: SenderStep, i: nat)
    requires SenderMay(s, j, how) && Kindly(s, i)
    ensures SenderNext(s, j, how).At(i) == s.At(i)
  {
    SenderGoes(s, j, how);
    hide Becomes, SenderMay;
  }

  lemma KindlyByCloser(s: Client, step: CloserStep, i: nat)
    requires CloserMay(s, step) && s.At(i) != Ended(Refused)
    ensures CloserNext(s, step).At(i) != Ended(Refused)
  {
    hide PhaseAfter, DriverAfter, DrainingAfter;
  }

  /** No step of the stretch is the teardown giving up or leaving, nor a second `close()`. */
  ghost predicate Stays(steps: seq<Step>) {
    forall k | 0 <= k < |steps| ::
      steps[k] != Closes(TeardownFails) && steps[k] != Closes(ForgetLoop) && steps[k] != Others(RivalMoves)
  }

  /** No hand-off queued before the teardown takes the lock is lost, nor refused: by the time the loop
      is closed it has been sent, or cancelled with its drop row. */
  lemma {:induction false} HandOffsSurvive(s: Client, steps: seq<Step>, i: nat)
    requires Inv(s) && Held(s.phase) && IsRun(s, steps) && Undisturbed(s, steps) && !s.rude && !s.rivalled
             && Stays(steps)
    requires Kindly(s, i)
    ensures Kindly(Final(s, steps), i)
    ensures Final(s, steps).phase.Closed? ==>
              Final(s, steps).At(i) == Ended(Completed) || Final(s, steps).At(i) == Ended(Cancelled)
    decreases |steps|
  {
    if steps == [] {
      assert Fits(s, i);
    } else {
      var t := Next(s, steps[0]);
      assert steps[0] != Closes(TeardownFails) && steps[0] != Closes(ForgetLoop) && steps[0] != Others(RivalMoves);
      RudeStep(s, steps[0]);
      KindlyOn(s, steps[0], i);
      StepKeeps(s, steps[0]);
      StaysHeld(s, steps[0]);
      assert Stays(steps[1..]) by { forall k | 0 <= k < |steps| - 1 ensures steps[1..][k] == steps[k + 1] {} }
      hide Inv, Kindly, Next, Enabled;
      HandOffsSurvive(t, steps[1..], i);
    }
  }

  lemma StaysHeld(s: Client, step: Step)
    requires Enabled(s, step) && Held(s.phase) && !s.rivalled
    requires step != Closes(TeardownFails) && step != Closes(ForgetLoop) && step != Others(RivalMoves)
    ensures Held(Next(s, step).phase) && !Next(s, step).rivalled
  {
    match step
    case Sending(j, how) => hide Becomes, SenderMay;
    case Loops(l) => hide LoopPlace, LoopSubject;
    case Closes(c) =>
      hide CloserNext;
      CloserStaysHeld(s, c);
    case Others(o) => hide OtherMay;
  }

  lemma CloserStaysHeld(s: Client, step: CloserStep)
    requires CloserMay(s, step) && Held(s.phase) && !s.rivalled && !step.TeardownFails? && !step.ForgetLoop?
    ensures Held(CloserNext(s, step).phase) && !CloserNext(s, step).rivalled
  {
    hide DriverAfter, DrainingAfter;
  }

  // ------------------------------------------------------------------ and what meddling costs

  lemma {:induction false} OneMore(s: Client, steps: seq<Step>, step: Step)
    requires IsRun(s, steps) && Enabled(Final(s, steps), step)
    ensures IsRun(s, steps + [step]) && Final(s, steps + [step]) == Next(Final(s, steps), step)
    decreases |steps|
  {
    hide Next, Enabled;
    if steps == [] {
      assert steps + [step] == [step] && [step][1..] == [];
      assert IsRun(Next(s, step), []);
    } else {
      assert (steps + [step])[1..] == steps[1..] + [step];
      OneMore(Next(s, steps[0]), steps[1..], step);
    }
  }

  lemma Go(steps: seq<Step>, s: Client, step: Step) returns (all: seq<Step>, t: Client)
    requires Leads(steps, s) && Enabled(s, step)
    ensures Leads(all, t) && t == Next(s, step)
  {
    hide Next, Enabled;
    OneMore(Start, steps, step);
    all, t := steps + [step], Next(s, step);
  }

  ghost predicate Leads(steps: seq<Step>, s: Client) { IsRun(Start, steps) && Final(Start, steps) == s }

  lemma LeadsMeans(steps: seq<Step>, s: Client)
    requires Leads(steps, s)
    ensures IsRun(Start, steps) && Final(Start, steps) == s
  {
  }

  /** A teardown waiting for one send. */
  const WaitingForOne: Client :=
    Client(true, false, 0, true, Closer, Closer, false, [], {0}, None, Sends(map[0 := Tasked], multiset{}),
           Settling({0}), Away, false, false)

  /** One send on the loop, as a task or as a callback, and nobody closing. */
  function OneTask(): Client { Resting([], {0}, Tasked) }
  function OneCallback(): Client { Resting([0], {}, Queued) }
  function Resting(callbacks: seq<nat>, tasks: set<nat>, p: Place): Client {
    Client(false, false, 0, true, Nobody, Nobody, false, callbacks, tasks, None, Sends(map[0 := p], multiset{}),
           Idle, Away, false, false)
  }

  /** Somebody drives the loop, and nothing else has happened. */
  const Driven: Client := Start.(driver := Outside)

  lemma ToOneTask() returns (steps: seq<Step>)
    ensures Leads(steps, OneTask())
  {
    TaskOnLoop();
    var s := Driven;
    steps := ToDriven();
    hide Leads, SenderNext, SenderMay;
    steps, s := Go(steps, s, Sending(0, AskOnLoop));
    steps, s := Go(steps, s, Others(OutsideStops));
  }

  lemma ToDriven() returns (steps: seq<Step>)
    ensures Leads(steps, Driven)
  {
    var s := Start;
    steps := [];
    assert Leads(steps, s);
    hide Leads;
    steps, s := Go(steps, s, Others(OutsideDrives));
  }

  lemma TaskOnLoop()
    ensures SenderMay(Driven, 0, AskOnLoop) && SenderNext(Driven, 0, AskOnLoop) == OneTask().(driver := Outside)
  {
    var t := SenderNext(Driven, 0, AskOnLoop);
    assert t.tasks == {0} && t.sends.places == map[0 := Tasked] && t.sends.notes == multiset{};
  }

  lemma ToWaitingForOne() returns (steps: seq<Step>)
    ensures Leads(steps, WaitingForOne)
  {
    hide Leads;
    steps := ToOneTask();
    var s := OneTask();
    steps, s := Go(steps, s, Closes(SetDraining));
    steps, s := Go(steps, s, Closes(SetClosing));
    steps, s := Go(steps, s, Closes(LookAtLoop));
    steps, s := Go(steps, s, Closes(LockForTeardown));
    steps, s := Go(steps, s, Closes(BeginTurn));
    steps, s := Go(steps, s, Closes(EndTurn));
    assert 0 in s.tasks;
    assert s == WaitingForOne;
  }

  /** A second `close()` that finds the loop running gives up and clears the flags of the first: a send
      made on the loop just then is accepted, not on the drain's list, and dies with the loop. */
  lemma SecondCloseLosesASend() returns (steps: seq<Step>)
    ensures IsRun(Start, steps) && Final(Start, steps).At(1) == Ended(Lost)
  {
    hide Leads;
    steps := ToOneMore();
    var s := OneMoreThanExpected;
    steps, s := Go(steps, s, Loops(TaskEnds(0)));
    steps, s := Go(steps, s, Closes(EndWait));
    steps, s := Go(steps, s, Closes(CloseLoop));
    LeadsMeans(steps, s);
  }

  /** The same teardown, the flags cleared by another and a second send let in. */
  const OneMoreThanExpected: Client :=
    Client(false, true, 0, true, Closer, Closer, false, [], {0, 1}, None,
           Sends(map[0 := Tasked, 1 := Tasked], multiset{}), Settling({0}), OneCleared, true, true)

  lemma ToOneMore() returns (steps: seq<Step>)
    ensures Leads(steps, OneMoreThanExpected)
  {
    hide Leads;
    steps := ToWaitingForOne();
    var s := WaitingForOne;
    steps, s := Go(steps, s, Others(RivalMoves));
    steps, s := Go(steps, s, Others(RivalMoves));
    steps, s := Go(steps, s, Others(RivalMoves));
    steps, s := Go(steps, s, Sending(1, AskOnLoop));
    assert s.tasks == {0, 1} && s.sends.places == map[0 := Tasked, 1 := Tasked] && s.sends.notes == multiset{};
    assert s == OneMoreThanExpected;
  }

  /** A teardown holding the lock over one queued send. */
  const OneQueued: Client :=
    Client(true, true, 0, true, Closer, Nobody, false, [0], {}, None, Sends(map[0 := Queued], multiset{}),
           Holding, Away, false, false)

  /** A send under the lock, a runner thread alive. */
  const UnderWay: Client :=
    Client(false, false, 0, true, Sender(0), Nobody, true, [], {}, None, Sends(map[0 := Locked], multiset{}),
           Idle, Away, false, false)

  lemma ToUnderWay() returns (steps: seq<Step>)
    ensures Leads(steps, UnderWay)
  {
    steps := ToLooking();
    var s := LooksForLock;
    TakesLock();
    hide Leads, SenderNext, SenderMay;
    steps, s := Go(steps, s, Sending(0, TakeLock));
  }

  const LooksForLock: Client := Start.(alive := true, sends := Sends(map[0 := Looking(0)], multiset{}))

  lemma TakesLock()
    ensures SenderMay(LooksForLock, 0, TakeLock) && SenderNext(LooksForLock, 0, TakeLock) == UnderWay
  {
    assert SenderNext(LooksForLock, 0, TakeLock).sends.places == map[0 := Locked];
  }

  lemma ToLooking() returns (steps: seq<Step>)
    ensures Leads(steps, LooksForLock)
  {
    var s := Start;
    steps := [];
    assert Leads(steps, s);
    hide Leads;
    steps, s := Go(steps, s, Others(RunnerLives(true)));
    steps, s := Go(steps, s, Sending(0, Ask));
    assert s.sends.places == map[0 := Accepted] && s.sends.notes == multiset{};
    steps := FindsLoop(steps, s);
  }

  lemma FindsLoop(before: seq<Step>, s: Client) returns (steps: seq<Step>)
    requires Leads(before, s) && s == LooksForLock.(sends := Sends(map[0 := Accepted], multiset{}))
    ensures Leads(steps, LooksForLock)
  {
    hide Leads;
    var t: Client;
    steps, t := Go(before, s, Sending(0, FindLoop));
    assert t.sends.places == map[0 := Looking(0)];
  }

  lemma ToOneCallback() returns (steps: seq<Step>)
    ensures Leads(steps, OneCallback())
  {
    steps := ToUnderWay();
    var s := UnderWay;
    HandsOff();
    hide Leads, SenderNext, SenderMay;
    steps, s := Go(steps, s, Sending(0, Decide));
    steps, s := Go(steps, s, Others(RunnerLives(false)));
  }

  lemma HandsOff()
    ensures SenderMay(UnderWay, 0, Decide) && SenderNext(UnderWay, 0, Decide) == OneCallback().(alive := true)
  {
    var t := SenderNext(UnderWay, 0, Decide);
    assert t.callbacks == [0] && t.sends.places == map[0 := Queued];
  }

  lemma ToOneQueued() returns (steps: seq<Step>)
    ensures Leads(steps, OneQueued)
  {
    hide Leads;
    steps := ToOneCallback();
    var s := OneCallback();
    steps, s := Go(steps, s, Closes(SetDraining));
    steps, s := Go(steps, s, Closes(SetClosing));
    steps, s := Go(steps, s, Closes(LookAtLoop));
    steps, s := Go(steps, s, Closes(LockForTeardown));
    assert s == OneQueued;
  }

  /** Polling started and stopped between the teardown's two looks at the loop makes it skip the drain:
      what was queued dies with the loop. */
  lemma PollingUnderTeardownLosesASend() returns (steps: seq<Step>)
    ensures IsRun(Start, steps) && Final(Start, steps).At(0) == Ended(Lost)
  {
    hide Leads;
    steps := ToOneQueued();
    var s := OneQueued;
    steps, s := Go(steps, s, Others(OutsideDrives));
    steps, s := Go(steps, s, Closes(SkipDrain));
    steps, s := Go(steps, s, Others(OutsideStops));
    steps, s := Go(steps, s, Closes(CloseLoop));
    LeadsMeans(steps, s);
  }

  /** A drain whose turn raises leaves `_closing` up and `_draining` down, and the callback it did not get
      to is refused by whoever runs the loop next. */
  lemma FailedTurnRefuses() returns (steps: seq<Step>)
    ensures IsRun(Start, steps) && Undisturbed(Start, steps)
    ensures Final(Start, steps).At(0) == Ended(Refused) && Final(Start, steps).phase == Leaving(FailedInTurn)
  {
    hide Leads, Undisturbed;
    steps := ToOneQueued();
    var s := OneQueued;
    steps, s := Go(steps, s, Closes(BeginTurn));
    steps, s := Go(steps, s, Closes(TeardownFails));
    steps, s := Go(steps, s, Others(OutsideDrives));
    steps, s := Go(steps, s, Loops(BeginCallback));
    steps, s := Go(steps, s, Loops(FinishCallback));
    LeadsMeans(steps, s);
    RudeMeansMeddled(Start, steps);
  }

  /** And a `close()` that only finds the loop running refuses one too: the callback reads `_closing` before
      the flags come down and `_draining` after, of a bot that is open for sends again. */
  lemma SkippedCloseRefuses() returns (steps: seq<Step>)
    ensures IsRun(Start, steps) && Undisturbed(Start, steps)
    ensures Final(Start, steps).At(0) == Ended(Refused) && Final(Start, steps).phase.Idle?
            && !Final(Start, steps).closing
  {
    hide Leads, Undisturbed;
    steps := ToBetweenReads();
    var s := BetweenReads;
    steps, s := Go(steps, s, Closes(LookAtLoop));
    steps, s := Go(steps, s, Closes(ClearClosing));
    steps, s := Go(steps, s, Closes(ClearDraining));
    steps, s := Go(steps, s, Loops(FinishCallback));
    LeadsMeans(steps, s);
    RudeMeansMeddled(Start, steps);
  }

  /** A second `close()` that comes and goes refuses one under the first, which still waits to drain it. */
  lemma SecondCloseRefuses() returns (steps: seq<Step>)
    ensures IsRun(Start, steps) && Final(Start, steps).At(0) == Ended(Refused)
    ensures Final(Start, steps).phase.Flagged? && Final(Start, steps).rival.Away?
  {
    hide Leads;
    steps := ToBetweenReads();
    var s := BetweenReads;
    steps, s := Go(steps, s, Others(RivalMoves));
    steps, s := Go(steps, s, Others(RivalMoves));
    steps, s := Go(steps, s, Others(RivalMoves));
    steps, s := Go(steps, s, Others(RivalMoves));
    steps, s := Go(steps, s, Loops(FinishCallback));
    LeadsMeans(steps, s);
  }

  /** A callback between its two reads, both flags up. */
  const BetweenReads: Client :=
    Client(true, true, 0, true, Nobody, Outside, false, [], {}, Some(0), Sends(map[0 := Starting], multiset{}),
           Flagged, Away, false, false)

  lemma ToBetweenReads() returns (steps: seq<Step>)
    ensures Leads(steps, BetweenReads)
  {
    hide Leads;
    steps := ToOneCallback();
    var s := OneCallback();
    steps, s := Go(steps, s, Others(OutsideDrives));
    steps, s := Go(steps, s, Closes(SetDraining));
    steps, s := Go(steps, s, Closes(SetClosing));
    steps, s := Go(steps, s, Loops(BeginCallback));
    assert s.callbacks == [] && s.tasks == {} && s.sends.places == map[0 := Starting];
    assert s == BetweenReads;
  }
}
