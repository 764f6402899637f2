/** `_schedule` and `close` as the threads that run them (producer/client.py): between any two atomic
    steps of one, everybody else takes any number of theirs. */
module ClientShutdown {
  import opened ClientSends
  import opened Options

  // ------------------------------------------------------------------ what one thread may rely on

  /** Still its sender's alone. */
  predicate Own(p: Place) { !OnLoop(p) && !p.Ended? }

  lemma LoopLeaves(s: Client, step: LoopStep, i: nat)
    requires LoopMay(s, step) && Kept(s, LoopSubject(s, step)) && !OnLoop(s.At(i))
    ensures LoopNext(s, step).At(i) == s.At(i)
  {
  }

  lemma CloserLeaves(s: Client, step: CloserStep, i: nat)
    requires CloserMay(s, step) && Kept(s, i) && !OnLoop(s.At(i))
    ensures CloserNext(s, step).At(i) == s.At(i)
  {
  }

  /** Off the loop, a send is moved by its own sender and by nobody else; ended, by nobody. */
  lemma OffLoopStays(s: Client, step: Step, i: nat)
    requires Inv(s) && Enabled(s, step) && !OnLoop(s.At(i)) && (step.Sending? && step.id == i ==> s.At(i).Ended?)
    ensures Next(s, step).At(i) == s.At(i)
  {
    hide Said, Holds, Sound, Becomes, SenderMay, LoopNext, CloserNext, Kept, LoopMay, CloserMay;
    assert Fits(s, i);
    match step
    case Sending(j, how) =>
      SenderGoes(s, j, how);
    case Loops(l) =>
      assert Fits(s, LoopSubject(s, l));
      LoopLeaves(s, l, i);
    case Closes(c) => CloserLeaves(s, c, i);
    case Others(o) =>
  }

  /** The thread in `close` is where it was, or the turn it is waiting for went on. */
  predicate StaysAt(p: Phase, q: Phase) { q == p || (p.Turning? && q.Turning? && q.left < p.left) }

  lemma OthersLeaveTheCloser(s: Client, step: Step)
    requires Inv(s) && Enabled(s, step) && !step.Closes?
    ensures StaysAt(s.phase, Next(s, step).phase)
  {
    hide Inv;
    match step
    case Sending(j, how) =>
    case Loops(l) =>
    case Others(o) =>
  }

  /** An ending is for good; what is on the loop stays carried while nobody undoes the teardown; and from
      the lock on, while nobody else touches the flags, none of it is refused. */
  ghost predicate Onward(s: Client, t: Client) {
    && (s.rude ==> t.rude) && (Held(s.phase) && s.rivalled ==> t.rivalled)
    && (forall i: nat | s.At(i).Ended? :: t.At(i) == s.At(i))
    && (!t.rude ==> forall i: nat | Carried(s, i) :: Carried(t, i))
    && (!t.rude && !t.rivalled && Held(s.phase) ==> forall i: nat | Kindly(s, i) :: Kindly(t, i))
  }

  lemma StepOnward(s: Client, step: Step)
    requires Inv(s) && Enabled(s, step)
    ensures Onward(s, Next(s, step))
  {
    if Held(s.phase) && s.rivalled { RivalledStays(s, step); }
    hide Inv, Next, Enabled, Carried, Kindly, Held;
    RudeStep(s, step);
    var t := Next(s, step);
    forall i: nat | s.At(i).Ended? ensures t.At(i) == s.At(i) { OffLoopStays(s, step, i); }
    if !t.rude {
      forall i: nat | Carried(s, i) ensures Carried(t, i) { CarriedOn(s, step, i); }
      if !t.rivalled && Held(s.phase) {
        forall i: nat | Kindly(s, i) ensures Kindly(t, i) { KindlyOn(s, step, i); }
      }
    }
  }

  lemma RivalledStays(s: Client, step: Step)
    requires Enabled(s, step) && Held(s.phase) && s.rivalled
    ensures Next(s, step).rivalled
  {
    hide Becomes, SenderMay, LoopPlace, LoopSubject, PhaseAfter, DriverAfter, DrainingAfter;
  }

  lemma OnwardThen(s: Client, m: Client, t: Client)
    requires Onward(s, m) && Onward(m, t) && (Held(s.phase) ==> Held(m.phase))
    ensures Onward(s, t)
  {
    hide Carried, Kindly, Held;
  }

  /** Once the loop is closed, whatever was on it is done with. */
  lemma ClosedMeansDone(s: Client, i: nat)
    requires Inv(s) && s.phase.Closed? && Carried(s, i)
    ensures Done(s, i)
  {
    assert Fits(s, i);
  }

  /** It ended, and something was said of it. */
  predicate Done(s: Client, i: nat) {
    s.At(i) == Ended(Completed) || s.At(i) == Ended(Cancelled) || s.At(i) == Ended(Refused)
  }

  /** Nobody having undone it, whatever was on the loop in `s` has been sent, refused or cancelled in `t`,
      and of what the lock was taken over, nothing refused where nobody else touched the flags. */
  ghost predicate AllSettled(s: Client, t: Client) {
    && (!t.rude ==> forall i: nat | Carried(s, i) :: Done(t, i))
    && (!t.rude && !t.rivalled && Held(s.phase) ==>
      forall i: nat | Kindly(s, i) :: Done(t, i) && t.At(i) != Ended(Refused))
  }

  lemma ClosedSettles(s: Client, t: Client)
    requires Onward(s, t) && Inv(t) && t.phase.Closed?
    ensures AllSettled(s, t)
  {
    if !t.rude {
      forall i: nat | Carried(s, i) ensures Done(t, i) { ClosedMeansDone(t, i); }
      if !t.rivalled && Held(s.phase) {
        forall i: nat | Kindly(s, i) ensures Done(t, i) && t.At(i) != Ended(Refused) { assert Kindly(t, i); }
      }
    }
  }

  /** However it goes on: the first half for good, the second as long as the flags are left alone. */
  lemma SettledStays(s: Client, m: Client, t: Client)
    requires AllSettled(s, m) && Onward(m, t) && (m.rivalled ==> t.rivalled || !Held(s.phase))
    ensures AllSettled(s, t)
  {
    hide Carried, Kindly;
  }

  lemma RudeStays(s: Client, t: Client)
    requires Onward(s, t)
    ensures s.rude ==> t.rude
  {
  }

  lemma SettledSince(s: Client, m: Client, t: Client)
    requires Onward(s, m) && AllSettled(m, t) && (m.rude ==> t.rude) && !Held(s.phase)
    ensures AllSettled(s, t)
  {
    hide Carried, Kindly, Held;
  }

  // ------------------------------------------------------------------ the threads

  /** How a send ends that its own thread drives: it returns, or raises, a RuntimeError or something else. */
  datatype Fate = Returns | Raises(runtime: bool)

  /** What becomes of a send made while nobody else moves. */
  function AloneOutcome(s: Client, i: nat, onLoop: bool, fate: Fate): Place {
    if s.closing then Ended(Refused)
    else if onLoop then Tasked
    else if s.lock != Nobody then Looking(s.gen)
    else if !s.open then Ended(Refused)
    else if s.driver != Nobody || s.alive then Queued
    else if fate.Returns? then Ended(Completed)
    else Ended(Raised)
  }

  class TelegramBot {
    /** Whether nobody but the thread in the method moves. */
    const alone: bool
    /** Whether what the teardown runs may raise. */
    const breaks: bool
    const fates: nat -> Fate
    var closing: bool
    var draining: bool
    var gen: nat                  // which loop `_loop` is, counted from the first
    var open: bool
    var lock: Actor               // of the loop
    var driver: Actor             // who runs the loop
    var alive: bool               // `_runner` is a live thread
    var callbacks: seq<nat>       // what call_soon_threadsafe queued
    var tasks: set<nat>           // `_sends`
    var starting: Option<nat>     // the callback under way
    var sends: Sends              // where each send is, and what was said of it
    var phase: Phase              // where the thread in `close` is
    var rival: Rival              // where a second one is
    var rivalled: bool
    var rude: bool
    ghost var trace: seq<Step>

    ghost function Now(): Client
      reads this
    {
      Client(closing, draining, gen, open, lock, driver, alive, callbacks, tasks, starting, sends, phase, rival,
             rivalled, rude)
    }

    /** What happened so far is a run. */
    ghost predicate Valid()
      reads this
    {
      Reaches(Now(), trace)
    }

    static ghost predicate Reaches(s: Client, trace: seq<Step>) {
      IsRun(Start, trace) && Final(Start, trace) == s && Inv(s)
    }

    constructor (alone: bool, breaks: bool, fates: nat -> Fate)
      ensures Valid() && Now() == Start && this.alone == alone && this.breaks == breaks && this.fates == fates
    {
      this.alone, this.breaks, this.fates := alone, breaks, fates;
      closing, draining, gen, open, lock, driver, alive := false, false, 0, true, Nobody, Nobody, false;
      callbacks, tasks, starting, sends := [], {}, None, Sends(map[], multiset{});
      phase, rival, rivalled, rude := Idle, Away, false, false;
      trace := [];
      new;
      StartHolds();
    }

    /** One atomic step. */
    method Do(step: Step)
      requires Valid() && Enabled(Now(), step)
      modifies this
      ensures Valid() && Now() == Next(old(Now()), step)
      ensures Onward(old(Now()), Now())
    {
      ghost var s := Now();
      var was := Value();
      DoKeeps(step);
      hide *;
      Become(Next(was, step), step);
    }

    /** What one step leaves true of the run so far. */
    lemma DoKeeps(step: Step)
      requires Valid() && Enabled(Now(), step)
      ensures var t := Next(Now(), step); Onward(Now(), t) && Reaches(t, trace + [step])
    {
      hide IsRun, Final, Inv, Next, Enabled, Onward;
      StepKeeps(Now(), step);
      StepOnward(Now(), step);
      OneMore(Start, trace, step);
    }

    /** The fields of that state. */
    method Become(t: Client, ghost step: Step)
      requires Reaches(t, trace + [step])
      modifies this
      ensures Valid() && Now() == t
    {
      hide Reaches;
      WriteFlags(t);
      WriteLoop(t);
      WritePhase(t, trace + [step]);
    }

    method WriteFlags(t: Client)
      modifies this`closing, this`draining, this`rival, this`rivalled, this`rude
      ensures closing == t.closing && draining == t.draining && rival == t.rival && rivalled == t.rivalled
              && rude == t.rude
    {
      closing, draining, rival, rivalled, rude := t.closing, t.draining, t.rival, t.rivalled, t.rude;
    }

    method WriteLoop(t: Client)
      modifies this`gen, this`open, this`lock, this`driver, this`alive
      ensures gen == t.gen && open == t.open && lock == t.lock && driver == t.driver && alive == t.alive
    {
      gen, open, lock, driver, alive := t.gen, t.open, t.lock, t.driver, t.alive;
    }

    method WritePhase(t: Client, ghost steps: seq<Step>)
      modifies this`callbacks, this`tasks, this`starting, this`sends, this`phase, this`trace
      ensures callbacks == t.callbacks && tasks == t.tasks && starting == t.starting && sends == t.sends
      ensures phase == t.phase && trace == steps
    {
      callbacks, tasks, starting, sends, phase := t.callbacks, t.tasks, t.starting, t.sends, t.phase;
      trace := steps;
    }

    method Value() returns (now: Client)
      ensures now == Now()
    {
      now := Client(closing, draining, gen, open, lock, driver, alive, callbacks, tasks, starting, sends, phase,
                    rival, rivalled, rude);
    }

    /** One step of the sender of `i`. */
    method DoSend(i: nat, how: SenderStep)
      requires Valid() && SenderMay(Now(), i, how)
      modifies this
      ensures Valid() && sends.At(i) == Becomes(old(Now()), i, how)
      ensures closing == old(closing) && open == old(open) && gen == old(gen) && alive == old(alive)
      ensures starting == old(starting)
      ensures lock == if ClientSends.UnderLock(sends.At(i)) then Sender(i)
                      else if old(lock) == Sender(i) then Nobody else old(lock)
      ensures driver ==
              if sends.At(i).Driving? then Sender(i) else if old(driver) == Sender(i) then Nobody else old(driver)
    {
      hide Valid, Onward, SenderMay, Becomes;
      ghost var s := Now();
      Do(Sending(i, how));
      NowIs();
    }

    lemma NowIs()
      ensures sends == Now().sends && closing == Now().closing && open == Now().open && gen == Now().gen
      ensures alive == Now().alive && starting == Now().starting && lock == Now().lock && driver == Now().driver
    {
    }

    /** The lock and the loop are its sender's exactly where its place says. */
    lemma HoldsIs(i: nat)
      requires Valid()
      ensures lock == Sender(i) <==> ClientSends.UnderLock(sends.At(i))
      ensures driver == Sender(i) <==> sends.At(i).Driving?
    {
      assert Fits(Now(), i);
      NowIs();
    }

    /** Everybody but the sender of `i`, any number of steps. */
    method OthersAround(i: nat)
      requires Valid() && Own(sends.At(i))
      modifies this
      ensures Valid() && sends.At(i) == old(sends.At(i))
      ensures alone ==>
                && closing == old(closing) && open == old(open) && gen == old(gen) && alive == old(alive)
                && starting == old(starting) && lock == old(lock) && driver == old(driver)
    {
      hide Valid, Next, Enabled, Onward;
      if alone { return; }
      var rounds: nat :| true;
      while rounds > 0
        invariant Valid() && sends.At(i) == old(sends.At(i))
      {
        rounds := rounds - 1;
        var step: Step := *;
        var now := Value();
        if Enabled(now, step) && (step.Sending? ==> step.id != i) {
          InvOf();
          OffLoopStays(now, step, i);
          Do(step);
          assert Now() == Next(now, step);
          assert sends.At(i) == Now().At(i);
        }
      }
    }

    lemma InvOf()
      requires Valid()
      ensures Inv(Now())
    {
    }

    /** `_schedule`: refused, handed to the loop, or driven here to its end. `waiting` where the lock is
        still somebody else's. */
    method Schedule(i: nat, onLoop: bool) returns (waiting: bool)
      requires Valid() && sends.At(i).New? && (onLoop ==> driver != Nobody && starting.None?)
      modifies this
      ensures Valid()
      ensures old(closing) ==> !waiting && sends.At(i) == Ended(Refused)
      ensures !waiting && onLoop ==> sends.At(i) == if old(closing) then Ended(Refused) else Tasked
      ensures !waiting && !onLoop ==> HandedOrEnded(sends.At(i))
      ensures waiting <==> sends.At(i).Looking?
      ensures alone ==> sends.At(i) == AloneOutcome(old(Now()), i, onLoop, fates(i))
    {
      HoldsIs(i);
      hide Valid;
      if onLoop {
        DoSend(i, AskOnLoop);
        return false;
      }
      DoSend(i, Ask);
      if sends.At(i).Ended? { return false; }
      waiting := FromAnotherThread(i);
    }

    /** The rest of it, the send not made on the loop's own thread. */
    method FromAnotherThread(i: nat) returns (waiting: bool)
      requires Valid() && sends.At(i).Accepted?
      modifies this
      ensures Valid() && (waiting <==> sends.At(i).Looking?)
      ensures !waiting ==> HandedOrEnded(sends.At(i))
      ensures alone && !old(closing) ==> sends.At(i) == AloneOutcome(old(Now()), i, false, fates(i))
    {
      HoldsIs(i);
      hide Valid;
      OthersAround(i);
      DoSend(i, FindLoop);
      OthersAround(i);
      if sends.At(i).loop == gen && lock != Nobody { return true; }
      WithLock(i);
      waiting := false;
    }

    method WithLock(i: nat)
      requires Valid() && sends.At(i).Looking? && (sends.At(i).loop == gen ==> lock == Nobody)
      modifies this
      ensures Valid() && HandedOrEnded(sends.At(i))
      ensures alone && (old(closing) || !old(open) || old(sends.At(i)).loop != old(gen)) ==>
                sends.At(i) == Ended(Refused)
      ensures alone && !old(closing) && old(sends.At(i)).loop == old(gen) ==>
                sends.At(i) == if !old(open) then Ended(Refused)
                               else if old(driver) != Nobody || old(alive) then Queued
                               else if fates(i).Returns? then Ended(Completed) else Ended(Raised)
    {
      HoldsIs(i);
      hide Valid;
      DoSend(i, TakeLock);
      if !sends.At(i).Ended? { UnderLock(i); }
    }

    /** A callback on the loop, or over with by its own sender. */
    static predicate HandedOrEnded(p: Place) {
      p.Queued? || p == Ended(Completed) || p == Ended(Refused) || p == Ended(Raised)
    }

    /** The part under the loop's lock. */
    method UnderLock(i: nat)
      requires Valid() && sends.At(i).Locked?
      modifies this
      ensures Valid()
      ensures HandedOrEnded(sends.At(i))
      ensures alone && old(open) ==>
                sends.At(i) == if old(driver) != Nobody || old(alive) then Queued
                               else if fates(i).Returns? then Ended(Completed) else Ended(Raised)
    {
      HoldsIs(i);
      NoneStarting();
      hide Valid;
      OthersAround(i);
      DoSend(i, Decide);
      if !sends.At(i).Willing? { return; }
      OthersAround(i);
      DoSend(i, Drive);
      if sends.At(i).Driving? { DriveOn(i); }
    }

    lemma NoneStarting()
      requires Valid()
      ensures driver == Nobody ==> starting.None?
    {
      NowIs();
    }

    /** Inside `run_until_complete`, and what comes of it. */
    method DriveOn(i: nat)
      requires Valid() && sends.At(i).Driving?
      modifies this
      ensures Valid() && HandedOrEnded(sends.At(i))
      ensures alone && old(starting).None? ==>
                sends.At(i) == if fates(i).Returns? then Ended(Completed) else Ended(Raised)
    {
      HoldsIs(i);
      hide Valid;
      OthersAround(i);
      LoopRests(i);
      DriveOver(i);
    }

    method DriveOver(i: nat)
      requires Valid() && sends.At(i).Driving? && starting.None?
      modifies this
      ensures Valid() && HandedOrEnded(sends.At(i))
      ensures alone && old(driver) == Sender(i) ==>
                sends.At(i) == if fates(i).Returns? then Ended(Completed) else Ended(Raised)
    {
      hide Valid;
      if fates(i).Returns? {
        DoSend(i, DriveEnds);
      } else {
        DoSend(i, DriveRaises(fates(i).runtime));
        if sends.At(i).Failing? { LooksAgain(i); }
      }
    }

    method LooksAgain(i: nat)
      requires Valid() && sends.At(i).Failing?
      modifies this
      ensures Valid() && HandedOrEnded(sends.At(i))
      ensures alone ==> sends.At(i) == if old(driver) == Nobody then Ended(Raised) else if old(open) then Queued
                                       else Ended(Refused)
    {
      hide Valid;
      OthersAround(i);
      DoSend(i, Recheck);
    }

    /** The loop this sender drives is between callbacks when it lets go of it. */
    method LoopRests(i: nat)
      requires Valid() && Own(sends.At(i))
      modifies this
      ensures Valid() && sends.At(i) == old(sends.At(i)) && starting.None?
      ensures old(starting).None? ==> driver == old(driver)
    {
      DriverIs();
      if starting.None? { return; }
      InvOf();
      hide Valid, Onward, Next, IsRun, Final, Inv;
      ghost var m := Now();
      OffLoopStays(m, Loops(FinishCallback), i);
      Do(Loops(FinishCallback));
      AfterCallback(m);
      assert sends.At(i) == Now().At(i);
    }

    /** Everybody but the thread in `close`, any number of steps. */
    method OthersMeanwhile()
      requires Valid()
      modifies this
      ensures Valid() && StaysAt(old(phase), phase) && Onward(old(Now()), Now())
      ensures alone ==> Now() == old(Now()) && phase == old(phase) && driver == old(driver) && lock == old(lock)
    {
      hide Valid, Next, Enabled, Onward;
      NowOnward();
      if alone { return; }
      var rounds: nat :| true;
      while rounds > 0
        invariant Valid() && StaysAt(old(phase), phase) && Onward(old(Now()), Now())
      {
        rounds := rounds - 1;
        var step: Step := *;
        var now := Value();
        if Enabled(now, step) && !step.Closes? {
          InvOf();
          OthersLeaveTheCloser(now, step);
          Do(step);
          assert phase == Now().phase;
          OnwardThen(old(Now()), now, Now());
        }
      }
    }

    lemma NowOnward()
      ensures Onward(Now(), Now())
    {
    }

    /** One step of `close`. */
    method DoClose(c: CloserStep)
      requires Valid() && CloserMay(Now(), c)
      modifies this
      ensures Valid() && Now() == CloserNext(old(Now()), c) && Onward(old(Now()), Now())
    {
      hide Valid, Onward, CloserNext, CloserMay;
      Do(Closes(c));
    }

    /** `_drain`, the lock held: one turn of the loop, a wait for the sends it found, a drop row and a
        cancellation for whatever outlasts it. */
    method Drain() returns (failed: bool)
      requires Valid() && phase.Holding?
      modifies this
      ensures Valid() && Onward(old(Now()), Now())
      ensures !failed ==> phase.Drained?
      ensures alone && !breaks && old(driver) == Nobody ==> !failed && driver == Nobody
      ensures failed ==> (phase.Turning? || phase.Settling?) && starting.None?
    {
      hide Valid, Onward, Inv, Next;
      ghost var s := Now();
      NowOnward();
      OthersMeanwhile();
      if driver != Nobody {
        Closing(s, SkipDrain);
        return false;
      }
      Closing(s, BeginTurn);
      failed := Turn(s);
      if failed { return; }
      Closing(s, EndTurn);
      if phase.Settling? { failed := WaitOut(s); }
    }

    /** The rest of `_drain`, where sends were found in flight. */
    method WaitOut(ghost s: Client) returns (failed: bool)
      requires Valid() && Onward(s, Now()) && phase.Settling?
      modifies this
      ensures Valid() && Onward(s, Now()) && (if failed then phase.Settling? && starting.None? else phase.Drained?)
      ensures (!breaks ==> !failed) && (!failed ==> driver == Nobody)
    {
      hide Valid, Onward, Inv, Next;
      Meanwhile(s);
      CallbackReturns(s);
      failed := *;
      failed := failed && breaks;
      if failed { return; }
      Closing(s, EndWait);
      if phase.Drained? { return; }
      Reap(s);
    }

    method Closing(ghost s: Client, c: CloserStep)
      requires Valid() && CloserMay(Now(), c) && Onward(s, Now()) && (Held(s.phase) ==> Held(phase))
      modifies this
      ensures Valid() && Onward(s, Now()) && Now() == CloserNext(old(Now()), c)
      ensures phase == CloserNext(old(Now()), c).phase && driver == DriverAfter(old(Now()), c)
      ensures c.SetDraining? || c.SetClosing? || c.LookAtLoop? ==> lock == old(lock)
    {
      WhatCloses(Now(), c);
      hide Valid, Onward, CloserNext, CloserMay, DriverAfter;
      ghost var m := Now();
      DoClose(c);
      OnwardThen(s, m, Now());
      assert phase == Now().phase;
      NowIs();
    }

    lemma WhatCloses(m: Client, c: CloserStep)
      requires CloserMay(m, c)
      ensures CloserNext(m, c).driver == DriverAfter(m, c)
      ensures c.SetDraining? || c.SetClosing? || c.LookAtLoop? ==> CloserNext(m, c).lock == m.lock
    {
    }

    method Meanwhile(ghost s: Client)
      requires Valid() && Onward(s, Now()) && (Held(s.phase) ==> Held(phase))
      modifies this
      ensures Valid() && Onward(s, Now()) && StaysAt(old(phase), phase)
      ensures alone ==> phase == old(phase) && driver == old(driver) && lock == old(lock)
    {
      hide Valid, Onward;
      ghost var m := Now();
      OthersMeanwhile();
      OnwardThen(s, m, Now());
    }

    /** Whoever runs the loop cannot stop in the middle of a callback. */
    method CallbackReturns(ghost s: Client)
      requires Valid() && Onward(s, Now()) && (Held(s.phase) ==> Held(phase))
      modifies this
      ensures Valid() && Onward(s, Now()) && phase == old(phase) && starting.None? && driver == old(driver)
      ensures phase.Turning? || phase.Settling? || phase.Reaping? ==> driver == Closer
      ensures forall j: nat | old(sends.At(j).Ended?) :: sends.At(j).Ended?
      ensures forall j: nat | old(sends.At(j).Doomed?) :: sends.At(j).Doomed?
    {
      DriverIs();
      if starting.None? { return; }
      hide Valid, Onward, Next;
      ghost var m := Now();
      Do(Loops(FinishCallback));
      OnwardThen(s, m, Now());
      AfterCallback(m);
    }

    lemma DriverIs()
      requires Valid()
      ensures phase.Turning? || phase.Settling? || phase.Reaping? ==> driver == Closer
      ensures starting.Some? ==> LoopMay(Now(), FinishCallback) && sends.At(starting.value).Starting?
      ensures phase.Turning? ==> phase.left == |callbacks|
    {
      if starting.Some? { assert Fits(Now(), starting.value); }
      assert Now().driver == driver && Now().sends == sends;
    }

    lemma AfterCallback(m: Client)
      requires LoopMay(m, FinishCallback) && m.At(m.starting.value).Starting? && Now() == Next(m, Loops(FinishCallback))
      ensures phase == m.phase && starting.None? && driver == m.driver
      ensures forall j: nat | m.At(j).Ended? :: sends.At(j).Ended?
      ensures forall j: nat | m.At(j).Doomed? :: sends.At(j).Doomed?
    {
      assert phase == Now().phase && sends == Now().sends && starting == Now().starting && driver == Now().driver;
    }

    /** The one turn: every callback queued before it runs, in order, unless the turn raises. */
    method Turn(ghost s: Client) returns (failed: bool)
      requires Valid() && Onward(s, Now()) && phase.Turning?
      modifies this
      ensures Valid() && Onward(s, Now()) && phase.Turning? && starting.None?
      ensures (!failed ==> phase.left == 0 && callbacks == []) && (!breaks ==> !failed)
    {
      hide Valid, Onward, Next;
      failed := false;
      CallbackReturns(s);
      while phase.left > 0
        invariant Valid() && Onward(s, Now()) && phase.Turning? && starting.None?
        decreases phase.left
      {
        var left := phase.left;
        Meanwhile(s);
        CallbackReturns(s);
        failed := *;
      failed := failed && breaks;
        if failed { return; }
        if phase.left == left {
          BeginOne(s);
          CallbackReturns(s);
        }
      }
      DriverIs();
    }

    method BeginOne(ghost s: Client)
      requires Valid() && Onward(s, Now()) && phase.Turning? && phase.left > 0 && starting.None?
      modifies this
      ensures Valid() && Onward(s, Now()) && phase.Turning? && phase.left < old(phase.left)
    {
      DriverIs();
      hide Valid, Onward, IsRun, Final, Inv;
      ghost var m := Now();
      Do(Loops(BeginCallback));
      OnwardThen(s, m, Now());
      assert phase == Now().phase;
    }

    /** Waiting for the cancelled ones to have ended. */
    method Reap(ghost s: Client)
      requires Valid() && Onward(s, Now()) && phase.Reaping?
      modifies this
      ensures Valid() && Onward(s, Now()) && phase.Drained? && driver == Nobody
    {
      hide Valid, Onward, Next;
      var dropped := phase.dropped;
      var todo := dropped;
      while todo != {}
        invariant Valid() && Onward(s, Now()) && phase == Reaping(dropped) && todo <= dropped
        invariant forall i | i in dropped - todo :: sends.At(i).Ended?
      {
        var i :| i in todo;
        ReapOne(s, i);
        todo := todo - {i};
      }
      CallbackReturns(s);
      NoneOnLoop();
      Closing(s, EndReap);
    }

    lemma NoneOnLoop()
      requires Valid() && phase.Reaping? && forall i | i in phase.dropped :: sends.At(i).Ended?
      ensures phase.dropped !! tasks
    {
      hide IsRun, Final;
      forall i | i in phase.dropped ensures i !in tasks { assert Fits(Now(), i) && Now().At(i).Ended?; }
    }

    method ReapOne(ghost s: Client, i: nat)
      requires Valid() && Onward(s, Now()) && phase.Reaping? && i in phase.dropped
      modifies this
      ensures Valid() && Onward(s, Now()) && phase == old(phase)
      ensures sends.At(i).Ended? && forall j: nat | old(sends.At(j).Ended?) :: sends.At(j).Ended?
    {
      hide Valid, Onward, Next, IsRun, Final, Inv;
      ghost var m := Now();
      OthersMeanwhile();
      OnwardThen(s, m, Now());
      EndedSince(m);
      DoomedOrEnded(i);
      CallbackReturns(s);
      if sends.At(i).Ended? { return; }
      ghost var n := Now();
      Do(Loops(TaskReaped(i)));
      AfterReap(n, i);
      OnwardThen(s, n, Now());
      EndedSince(n);
    }

    lemma AfterReap(n: Client, i: nat)
      requires LoopMay(n, TaskReaped(i)) && Now() == Next(n, Loops(TaskReaped(i)))
      ensures phase == n.phase && sends.At(i) == Ended(Cancelled)
    {
      assert phase == Now().phase && sends == Now().sends;
    }

    lemma DoomedOrEnded(i: nat)
      requires Valid() && phase.Reaping? && i in phase.dropped
      ensures driver == Closer && (sends.At(i).Doomed? || sends.At(i).Ended?)
    {
      assert Fits(Now(), i);
      assert Now().driver == driver && Now().At(i) == sends.At(i);
    }

    lemma EndedSince(m: Client)
      requires Onward(m, Now())
      ensures forall j: nat | m.At(j).Ended? :: sends.At(j).Ended?
    {
      forall j: nat | m.At(j).Ended? ensures sends.At(j).Ended? { assert Now().At(j) == m.At(j); }
    }

    /** The teardown under the lock. It may raise wherever it drives the loop or releases what it owns. */
    method Teardown() returns (tornDown: bool)
      requires Valid() && phase.Holding?
      modifies this
      ensures Valid() && phase.Leaving? && Onward(old(Now()), Now())
      ensures tornDown ==> AllSettled(old(Now()), Now())
      ensures alone && !breaks && old(driver) == Nobody ==> tornDown
    {
      hide Valid, Onward, Inv, Next, AllSettled;
      ghost var s := Now();
      var failed := Drain();
      if failed {
        Closing(s, TeardownFails);
        return false;
      }
      Meanwhile(s);
      CallbackReturns(s);
      failed := *;
      failed := failed && breaks;
      if failed || driver != Nobody {
        Closing(s, TeardownFails);
        return false;
      }
      CloseAndForget(s);
      tornDown := true;
    }

    /** The loop closed, and the bot's hold on it let go. */
    method CloseAndForget(ghost s: Client)
      requires Valid() && phase.Drained? && driver == Nobody && Onward(s, Now()) && Held(s.phase)
      modifies this
      ensures Valid() && phase.Leaving? && Onward(s, Now()) && AllSettled(s, Now())
    {
      hide Valid, Onward, Inv, Next, AllSettled;
      Closing(s, CloseLoop);
      Meanwhile(s);
      InvOf();
      ghost var m := Now();
      ClosedSettles(s, m);
      DoClose(ForgetLoop);
      OnwardThen(s, m, Now());
      SettledStays(s, m, Now());
    }

    /** `close`: everything on the loop when it starts is sent, refused or cancelled by the time it is torn
        down, provided nobody undoes it; both flags are down however it goes. With nobody else about
        and nothing that raises, a loop at rest is torn down, and one that runs is left. `waiting` where the loop's
        lock is still somebody else's. */
    method Close() returns (tornDown: bool, waiting: bool)
      requires Valid() && phase.Idle?
      modifies this
      ensures Valid() && (if waiting then phase.Waiting? else phase.Idle?)
      ensures !waiting && rival.Away? ==> !closing && !draining
      ensures tornDown ==> AllSettled(old(Now()), Now())
      ensures alone && old(driver) != Nobody ==> !tornDown && !waiting
      ensures alone && old(driver) == Nobody ==> (waiting <==> old(lock) != Nobody)
      ensures alone && !breaks && old(driver) == Nobody && old(lock) == Nobody ==> tornDown
    {
      hide Valid, Onward, Inv, Next, AllSettled;
      ghost var s := Now();
      NowOnward();
      tornDown, waiting := false, false;
      Closing(s, SetDraining);
      Meanwhile(s);
      Closing(s, SetClosing);
      Meanwhile(s);
      tornDown, waiting := LookAndTear(s);
      if !waiting { Leave(s, tornDown); }
    }

    /** Both flags up: the loop is left where it runs, and torn down where it rests and its lock is free. */
    method LookAndTear(ghost s: Client) returns (tornDown: bool, waiting: bool)
      requires Valid() && phase.Flagged? && Onward(s, Now()) && !Held(s.phase)
      modifies this
      ensures Valid() && (if waiting then phase.Waiting? else phase.Leaving?)
      ensures tornDown ==> !waiting && AllSettled(s, Now())
      ensures alone && old(driver) != Nobody ==> !tornDown && !waiting
      ensures alone && old(driver) == Nobody ==> (waiting <==> old(lock) != Nobody)
      ensures alone && !breaks && old(driver) == Nobody && old(lock) == Nobody ==> tornDown
    {
      hide Valid, Onward, Inv, Next, AllSettled;
      tornDown, waiting := false, false;
      Closing(s, LookAtLoop);
      if phase.Waiting? {
        Meanwhile(s);
        if lock != Nobody { return false, true; }
        Closing(s, LockForTeardown);
        ghost var m := Now();
        tornDown := Teardown();
        if tornDown { RudeStays(m, Now()); SettledSince(s, m, Now()); }
      }
    }

    /** The `finally`: `_closing` first, then `_draining`. */
    method Leave(ghost s: Client, tornDown: bool)
      requires !Held(s.phase) && Valid() && phase.Leaving? && (tornDown ==> AllSettled(s, Now()))
      modifies this
      ensures Valid() && phase.Idle? && (tornDown ==> AllSettled(s, Now()))
      ensures rival.Away? ==> !closing && !draining
    {
      hide Valid, Onward, Inv, Next, AllSettled;
      ghost var a := Now();
      OthersMeanwhile();
      ghost var b := Now();
      DoClose(ClearClosing);
      ghost var c := Now();
      OthersMeanwhile();
      ghost var d := Now();
      DoClose(ClearDraining);
      if tornDown {
        SettledStays(s, a, b);
        SettledStays(s, b, c);
        SettledStays(s, c, d);
        SettledStays(s, d, Now());
      }
      if rival.Away? { IdleFlags(); }
    }

    lemma IdleFlags()
      requires Valid() && phase.Idle? && rival.Away?
      ensures !closing && !draining
    {
    }
  }
}
