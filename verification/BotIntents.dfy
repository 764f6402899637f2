/** What a person asks of a bot through its row, and the answer a worker writes back
    (runtime/intents.py, admin_bots.py). Every step is one conditional UPDATE; workers may die between
    any two of theirs. */
module BotIntents {
  import opened Options

  /** How long a claim is believed, in microseconds. */
  const CLAIM: int := 60_000_000

  /** The columns of one row. No intent is `None`, no claim is `None`; a claim is a fresh uuid. */
  datatype Row = Row(intent: Option<string>, claim: Option<nat>, claimedAt: Option<int>, result: Option<string>)

  /** A row with its history: how many times it was asked, which ask each claim was made under, and
      which asks were answered, by which claim. */
  datatype Life = Life(row: Row, asks: nat, under: map<nat, nat>, answered: map<nat, nat>)

  const Fresh: Life := Life(Row(None, None, None, None), 0, map[], map[])

  datatype Step =
    | Ask(intent: string)
    | Claim(intent: string, token: nat, now: int)
    | Write(intent: string, token: nat, answer: string)
    | Crash(token: nat)

  /** The condition of `_claimed`: this very asking, and no live claim on it. */
  predicate MayClaim(row: Row, intent: string, now: int) {
    && row.intent == Some(intent)
    && (row.claim.None? || row.claimedAt.None? || row.claimedAt.value < now - CLAIM)
  }

  /** The condition of `_wrote`: this very asking, under this very claim. */
  predicate MayWrite(row: Row, intent: string, token: nat) { row.intent == Some(intent) && row.claim == Some(token) }

  /** The same step on the same row whatever became of the worker: a step whose condition does not hold
      updates nothing. A claim's token is new. */
  function Next(s: Life, step: Step): Life {
    match step
    case Ask(intent) => s.(row := Row(Some(intent), None, None, None), asks := s.asks + 1)
    case Claim(intent, token, now) =>
      if !MayClaim(s.row, intent, now) || token in s.under then s
      else s.(row := s.row.(claim := Some(token), claimedAt := Some(now)), under := s.under[token := s.asks])
    case Write(intent, token, answer) =>
      if !MayWrite(s.row, intent, token) then s
      else s.(row := Row(None, None, None, Some(answer)), answered := s.answered[s.asks := token])
    case Crash(_) => s
  }

  function Run(s: Life, steps: seq<Step>): Life
    decreases |steps|
  {
    if steps == [] then s else Next(Run(s, steps[..|steps| - 1]), steps[|steps| - 1])
  }

  ghost predicate Inv(s: Life) {
    // the claim on the row was made under the latest ask
    && (s.row.claim.Some? ==>
         s.row.intent.Some? && s.row.claim.value in s.under && s.under[s.row.claim.value] == s.asks)
    // an ask waits exactly while it is unanswered, and only the latest can
    && (s.row.intent.Some? <==> s.asks > 0 && s.asks !in s.answered)
    && (s.row.result.Some? <==> s.asks > 0 && s.asks in s.answered)
    && (forall a | a in s.answered :: 0 < a <= s.asks)
    // every answer came from a claim made under the ask it answers
    && (forall a | a in s.answered :: s.answered[a] in s.under && s.under[s.answered[a]] == a)
    && (forall t | t in s.under :: 0 < s.under[t] <= s.asks)
  }

  lemma StepKeeps(s: Life, step: Step)
    requires Inv(s)
    ensures Inv(Next(s, step))
  {
  }

  lemma {:induction false} EveryRun(steps: seq<Step>)
    ensures Inv(Run(Fresh, steps))
    decreases |steps|
  {
    hide Next, Inv;
    if steps == [] {
      FreshHolds();
    } else {
      EveryRun(steps[..|steps| - 1]);
      StepKeeps(Run(Fresh, steps[..|steps| - 1]), steps[|steps| - 1]);
    }
  }

  lemma FreshHolds()
    ensures Inv(Fresh)
  {
  }

  /** A result on the row was written by a worker that claimed after the latest ask, and answers it. */
  lemma ResultIsOfTheLatestAsk(steps: seq<Step>)
    requires Run(Fresh, steps).row.result.Some?
    ensures var s := Run(Fresh, steps);
            && s.asks > 0 && s.asks in s.answered && s.answered[s.asks] in s.under
            && s.under[s.answered[s.asks]] == s.asks
            && s.row.intent.None?
  {
    EveryRun(steps);
  }

  /** An ask is answered at most once: once it has an answer, no step gives it another. */
  lemma AnsweredOnce(steps: seq<Step>, step: Step, a: nat)
    requires a in Run(Fresh, steps).answered
    ensures var s, t := Run(Fresh, steps), Next(Run(Fresh, steps), step);
            a in t.answered && t.answered[a] == s.answered[a]
  {
    EveryRun(steps);
  }

  /** Nothing but its own answer, or a newer ask, takes an ask off the row: not a crash, not a late
      worker, not a lapsed claim. */
  lemma AskSurvives(steps: seq<Step>, step: Step)
    requires Run(Fresh, steps).row.intent.Some?
    ensures var s, t := Run(Fresh, steps), Next(Run(Fresh, steps), step);
            || t.row.intent == s.row.intent
            || (step.Ask? && t.row.intent == Some(step.intent))
            || (step.Write? && s.row.claim == Some(step.token) && step.token in s.under
              && s.under[step.token] == s.asks && s.asks in t.answered)
  {
    EveryRun(steps);
  }

  /** A claim takes a waiting ask exactly where nobody has claimed it in the last sixty seconds, whoever died
      over it; and where it does not, it changes nothing. */
  lemma ClaimableAgain(steps: seq<Step>, intent: string, token: nat, now: int)
    requires token !in Run(Fresh, steps).under
    ensures var s := Run(Fresh, steps);
            var t := Next(s, Claim(intent, token, now));
            && (Waits(s.row, intent, now) ==>
                  t.row == s.row.(claim := Some(token), claimedAt := Some(now)) && t.under == s.under[token := s.asks])
            && (!Waits(s.row, intent, now) ==> t == s)
  {
    EveryRun(steps);
  }

  /** This was asked, and no claim of the last sixty seconds is on it. */
  predicate Waits(row: Row, intent: string, now: int) {
    row.intent == Some(intent) && !(row.claim.Some? && row.claimedAt.Some? && now <= row.claimedAt.value + 60_000_000)
  }

  /** This step of the run made a claim. */
  ghost predicate Claimed(steps: seq<Step>, i: nat)
    requires i < |steps|
  {
    steps[i].Claim? && Run(Fresh, steps[..i + 1]) != Run(Fresh, steps[..i])
  }

  /** Over every run, two claims made under one ask are more than sixty seconds apart, the later made later. */
  lemma ClaimsAreApart(steps: seq<Step>, i: nat, j: nat)
    requires i < j < |steps| && Claimed(steps, i) && Claimed(steps, j)
    requires Run(Fresh, steps[..i]).asks == Run(Fresh, steps[..j]).asks
    ensures steps[j].now > steps[i].now + 60_000_000
  {
    HeldSince(steps, i, j);
    OneStepOn(steps, j);
  }

  lemma OneStepOn(steps: seq<Step>, i: nat)
    requires i < |steps|
    ensures Run(Fresh, steps[..i + 1]) == Next(Run(Fresh, steps[..i]), steps[i])
  {
    assert steps[..i + 1][..i] == steps[..i];
  }

  /** While the ask is the same, its claim stands, or a later one in its place, until it is answered. */
  lemma {:induction false} HeldSince(steps: seq<Step>, i: nat, j: nat)
    requires i < j <= |steps| && Claimed(steps, i)
    requires Run(Fresh, steps[..i]).asks == Run(Fresh, steps[..j]).asks
    ensures HeldFrom(Run(Fresh, steps[..j]).row, steps[i].now)
    decreases j
  {
    hide Inv, Next, HeldFrom;
    OneStepOn(steps, j - 1);
    if i < j - 1 {
      AsksGrow(steps, i, j - 1);
      OneAskOn(Run(Fresh, steps[..j - 1]), steps[j - 1]);
      HeldSince(steps, i, j - 1);
      HeldOn(Run(Fresh, steps[..j - 1]), steps[j - 1], steps[i].now);
    } else {
      ClaimHolds(Run(Fresh, steps[..i]), steps[i]);
    }
  }

  /** Whatever waits on the row is claimed, at this moment or later. */
  predicate HeldFrom(row: Row, from: int) {
    row.intent.Some? ==> row.claim.Some? && row.claimedAt.Some? && row.claimedAt.value >= from
  }

  lemma OneAskOn(s: Life, step: Step)
    ensures s.asks <= Next(s, step).asks && (Next(s, step).asks == s.asks <==> !step.Ask?)
  {
  }

  lemma ClaimHolds(s: Life, step: Step)
    requires step.Claim? && Next(s, step) != s
    ensures HeldFrom(Next(s, step).row, step.now)
  {
  }

  lemma HeldOn(s: Life, step: Step, from: int)
    requires HeldFrom(s.row, from) && !step.Ask?
    ensures HeldFrom(Next(s, step).row, from)
  {
  }

  lemma {:induction false} AsksGrow(steps: seq<Step>, i: nat, j: nat)
    requires i <= j <= |steps|
    ensures Run(Fresh, steps[..i]).asks <= Run(Fresh, steps[..j]).asks
    decreases j
  {
    if i < j {
      AsksGrow(steps, i, j - 1);
      OneStepOn(steps, j - 1);
    }
  }

  /** And a worker whose claim still stands has its answer written. */
  lemma AnswerLands(steps: seq<Step>, token: nat, answer: string)
    requires Run(Fresh, steps).row.claim == Some(token)
    ensures var s := Run(Fresh, steps);
            && s.row.intent.Some?
            && var t := Next(s, Write(s.row.intent.value, token, answer));
               t.row == Row(None, None, None, Some(answer)) && s.asks in t.answered && t.answered[s.asks] == token
  {
    EveryRun(steps);
  }

  /** A worker that comes back after its claim was taken over, or after a newer ask, writes nothing. */
  lemma LateWorkerWritesNothing(steps: seq<Step>, intent: string, token: nat, answer: string)
    requires var s := Run(Fresh, steps); token in s.under && (s.under[token] < s.asks || s.row.claim != Some(token))
    ensures Next(Run(Fresh, steps), Write(intent, token, answer)) == Run(Fresh, steps)
  {
    EveryRun(steps);
  }

  // ------------------------------------------------------------------ the workers

  /** An answer, once given, stays given by whom it was. */
  ghost predicate Onward(was: map<nat, Life>, now: map<nat, Life>) {
    forall b | b in was ::
      b in now && forall a | a in was[b].answered :: a in now[b].answered && now[b].answered[a] == was[b].answered[a]
  }

  lemma OnwardThen(a: map<nat, Life>, b: map<nat, Life>, c: map<nat, Life>)
    requires Onward(a, b) && Onward(b, c)
    ensures Onward(a, c)
  {
  }

  ghost predicate SameLife(was: map<nat, Life>, now: map<nat, Life>, b: nat) {
    (b in now <==> b in was) && (b in was ==> now[b] == was[b])
  }

  lemma SameThen(a: map<nat, Life>, b: map<nat, Life>, c: map<nat, Life>, k: nat)
    requires SameLife(a, b, k) && SameLife(b, c, k)
    ensures SameLife(a, c, k)
  {
  }

  /** This claim is the one an ask of this bot was answered under. */
  ghost predicate Answers(lives: map<nat, Life>, bot: nat, token: nat) {
    bot in lives && exists a | a in lives[bot].answered :: lives[bot].answered[a] == token
  }

  /** The condition of the step's UPDATE holds of the row. */
  predicate Matches(s: Life, step: Step) {
    match step
    case Ask(_) => true
    case Claim(i, t, n) => MayClaim(s.row, i, n) && t !in s.under
    case Write(i, t, _) => MayWrite(s.row, i, t)
    case Crash(_) => false
  }

  lemma AnswersKept(s: Life, step: Step)
    requires Inv(s)
    ensures var t := Next(s, step);
            && (forall a | a in s.answered :: a in t.answered && t.answered[a] == s.answered[a])
            && (forall k | k in t.under && k !in s.under :: step.Claim? && k == step.token)
  {
  }

  /** A claim and a write with nobody between: both match exactly where the ask waits, and the answer stands. */
  lemma UndisturbedPass(s: Life, intent: string, token: nat, now: int, answer: string)
    requires token !in s.under
    ensures var c := Next(s, Claim(intent, token, now));
            && (Matches(s, Claim(intent, token, now)) <==> Waits(s.row, intent, now))
            && (Waits(s.row, intent, now) ==>
                  && Matches(c, Write(intent, token, answer))
                  && Next(c, Write(intent, token, answer)).row == Row(None, None, None, Some(answer)))
  {
  }

  lemma WroteAnswers(was: map<nat, Life>, bot: nat, intent: string, token: nat, answer: string)
    requires bot in was && Matches(was[bot], Write(intent, token, answer))
    ensures Answers(was[bot := Next(was[bot], Write(intent, token, answer))], bot, token)
  {
    var lives := was[bot := Next(was[bot], Write(intent, token, answer))];
    assert was[bot].asks in lives[bot].answered && lives[bot].answered[was[bot].asks] == token;
  }

  class BotTable {
    var lives: map<nat, Life>
    var uuids: nat                    // every token handed out so far is below this

    ghost predicate Valid()
      reads this
    {
      forall b | b in lives :: Inv(lives[b]) && forall t | t in lives[b].under :: t < uuids
    }

    constructor (bots: set<nat>)
      ensures Valid() && lives == map b | b in bots :: Fresh
    {
      lives, uuids := map b | b in bots :: Fresh, 0;
    }

    /** One UPDATE, and whether it matched. */
    method Update(bot: nat, step: Step) returns (moved: bool)
      requires Valid() && (step.Claim? ==> step.token < uuids)
      modifies this`lives
      ensures Valid() && Onward(old(lives), lives)
      ensures lives == if bot in old(lives) then old(lives)[bot := Next(old(lives)[bot], step)] else old(lives)
      ensures moved <==> bot in old(lives) && Matches(old(lives)[bot], step)
    {
      moved := false;
      if bot in lives {
        StepKeeps(lives[bot], step);
        AnswersKept(lives[bot], step);
        hide Next, Matches, Inv;
        moved := Matches(lives[bot], step);
        lives := lives[bot := Next(lives[bot], step)];
      }
    }

    /** Pages that ask, other workers, and workers that died. */
    method Others()
      requires Valid()
      modifies this
      ensures Valid() && Onward(old(lives), lives) && uuids >= old(uuids)
    {
      hide Valid, Onward, Next, MayClaim, MayWrite;
      var rounds: nat :| true;
      assert Onward(lives, lives) by { OnwardSame(); }
      while rounds > 0
        invariant Valid() && Onward(old(lives), lives) && uuids >= old(uuids)
      {
        rounds := rounds - 1;
        var bot: nat, step: Step := *, *;
        if step.Claim? {
          Draw();
          step := Claim(step.intent, uuids - 1, step.now);
        }
        ghost var was := lives;
        var moved := Update(bot, step);
        OnwardThen(old(lives), was, lives);
      }
    }

    method Draw()
      requires Valid()
      modifies this`uuids
      ensures Valid() && uuids == old(uuids) + 1
    {
      uuids := uuids + 1;
    }

    lemma OnwardSame()
      ensures Onward(lives, lives)
    {
    }

    /** `_one`: claim, carry out, write back. It answers only what it claimed, and says so only where the
        answer was written. With nobody else about it answers what it may claim. */
    method One(bot: nat, intent: string, now: int, answer: string, alone: bool) returns (wrote: bool, token: nat)
      requires Valid()
      modifies this
      ensures Valid() && Onward(old(lives), lives) && uuids > old(uuids)
      ensures old(uuids) <= token && (wrote ==> Answers(lives, bot, token))
      ensures alone && bot in old(lives) ==> (wrote <==> Waits(old(lives)[bot].row, intent, now))
      ensures alone ==> forall b | b != bot :: SameLife(old(lives), lives, b)
      ensures alone && wrote ==> lives[bot].row == Row(None, None, None, Some(answer))
    {
      assert bot in lives ==> uuids !in lives[bot].under;
      if bot in lives { UndisturbedPass(lives[bot], intent, uuids, now, answer); }
      hide Valid, Onward, Inv, Next, Matches, MayClaim, MayWrite, Waits;
      OnwardSame();
      Draw();
      token := uuids - 1;
      ghost var a := lives;
      var claimed := Update(bot, Claim(intent, token, now));
      ghost var b := lives;
      if !claimed { return false, token; }
      if !alone { Others(); } else { OnwardSame(); }
      ghost var c := lives;
      OnwardThen(a, b, c);
      wrote := Update(bot, Write(intent, token, answer));
      OnwardThen(a, c, lives);
      if wrote { WroteAnswers(c, bot, intent, token, answer); }
    }

    /** `carry_out`: as many as were answered by this pass, each under a claim of its own. */
    method CarryOut(bots: set<nat>, now: int, answer: string, readable: bool, alone: bool)
      returns (done: nat, ghost tokens: map<nat, nat>)
      requires Valid()
      modifies this
      ensures Valid() && Onward(old(lives), lives)
      ensures done == |tokens|
      ensures forall b | b in tokens :: b in bots && old(uuids) <= tokens[b] && Answers(lives, b, tokens[b])
      ensures forall b | b in tokens :: b in old(lives) && old(lives)[b].row.intent.Some?
      ensures !readable ==> done == 0 && lives == old(lives)
      ensures readable && alone ==>
                forall b | b in bots && b in old(lives) && old(lives)[b].row.intent.Some? ::
                  b in tokens <==> Waits(old(lives)[b].row, old(lives)[b].row.intent.value, now)
    {
      hide Valid, Onward, Answers, MayClaim, Waits;
      done, tokens := 0, map[];
      OnwardSame();
      if !readable { return; }
      var asked := map b | b in lives && b in bots && lives[b].row.intent.Some? :: lives[b].row.intent.value;
      var todo: set<nat> := asked.Keys;
      while todo != {}
        invariant Valid() && Onward(old(lives), lives) && uuids >= old(uuids) && todo <= asked.Keys
        invariant done == |tokens| && tokens.Keys <= asked.Keys - todo
        invariant forall b | b in tokens :: old(uuids) <= tokens[b] && Answers(lives, b, tokens[b])
        invariant alone ==> forall b | b in todo :: SameLife(old(lives), lives, b)
        invariant alone ==>
                    forall b | b in asked && b !in todo :: b in tokens <==> Waits(old(lives)[b].row, asked[b], now)
      {
        var bot :| bot in todo;
        todo := todo - {bot};
        ghost var was := lives;
        var wrote, token := After(bot, asked[bot], now, answer, alone);
        KeptSince(old(lives), was, tokens, todo, alone);
        if wrote { done, tokens := done + 1, tokens[bot := token]; }
      }
    }

    /** What a pass has done so far outlasts one more bot. */
    lemma KeptSince(start: map<nat, Life>, was: map<nat, Life>, tokens: map<nat, nat>, todo: set<nat>, alone: bool)
      requires Onward(start, was) && Onward(was, lives)
      requires forall b | b in tokens :: Answers(was, b, tokens[b])
      requires alone ==> forall b | b in todo :: SameLife(start, was, b) && SameLife(was, lives, b)
      ensures Onward(start, lives) && forall b | b in tokens :: Answers(lives, b, tokens[b])
      ensures alone ==> forall b | b in todo :: SameLife(start, lives, b)
    {
      hide Onward, Answers, SameLife;
      OnwardThen(start, was, lives);
      if alone {
        forall b | b in todo ensures SameLife(start, lives, b) { SameThen(start, was, lives, b); }
      }
      forall b | b in tokens ensures Answers(lives, b, tokens[b]) { AnswersStay(was, lives, b, tokens[b]); }
    }

    method After(bot: nat, intent: string, now: int, answer: string, alone: bool) returns (wrote: bool, token: nat)
      requires Valid()
      modifies this
      ensures Valid() && Onward(old(lives), lives) && uuids > old(uuids)
      ensures old(uuids) <= token && (wrote ==> Answers(lives, bot, token))
      ensures alone && bot in old(lives) ==> (wrote <==> Waits(old(lives)[bot].row, intent, now))
      ensures alone ==> forall b | b != bot :: SameLife(old(lives), lives, b)
    {
      hide Valid, Onward, Answers, MayClaim, Waits, SameLife;
      if !alone { Others(); } else { OnwardSame(); }
      ghost var mid := lives;
      wrote, token := One(bot, intent, now, answer, alone);
      OnwardThen(old(lives), mid, lives);
    }
  }

  lemma AnswersStay(was: map<nat, Life>, now: map<nat, Life>, bot: nat, token: nat)
    requires Onward(was, now) && Answers(was, bot, token)
    ensures Answers(now, bot, token)
  {
  }
}
