/** Which limiter paces a bot token, and whose numbers it was built from (producer/throttling.py).

    Every `get` runs under one lock, so a run is a sequence of asks in some order. */
module LimiterRegistry {
  import opened Options

  /** `RATE_LIMIT` as compared: the budgets by name. An empty one is a decision not to pace. */
  type Numbers = map<string, real>

  /** The budgets a limiter can be built from. */
  const KNOWN: set<string> := {"overall_per_second", "per_chat_per_second", "group_per_minute"}

  /** A limiter, by which build it was: a new build starts its buckets full. */
  datatype Limiter = Limiter(build: nat, numbers: Numbers)

  /** One `get`: the token, the record the numbers come from where one is named, and the numbers. */
  datatype Ask = Ask(token: string, owner: Option<string>, numbers: Numbers)

  datatype Answer = Paced(limiter: Option<Limiter>) | Misconfigured

  datatype State = State(
    limiters: map<string, Limiter>,
    numbers: map<string, Numbers>,
    owners: map<string, Option<string>>,
    told: set<string>,
    builds: nat)
  {
    /** The stored limiter is the one the stored numbers describe, `None` where they say not to pace. */
    ghost predicate Valid() {
      && owners.Keys == numbers.Keys && limiters.Keys <= numbers.Keys
      && forall t | t in numbers ::
           if numbers[t] == map[] then t !in limiters
           else t in limiters && limiters[t].numbers == numbers[t] && limiters[t].build < builds
    }

    function Held(token: string): Option<Limiter> {
      if token in limiters then Some(limiters[token]) else None
    }
  }

  function MayRebuild(s: State, token: string, owner: Option<string>): bool {
    var held := if token in s.owners then s.owners[token] else None;
    held.None? || held == owner
  }

  class Registry {
    var limiters: map<string, Limiter>
    var numbers: map<string, Numbers>
    var owners: map<string, Option<string>>
    var told: set<string>
    var builds: nat

    ghost function Now(): State
      reads this
    {
      State(limiters, numbers, owners, told, builds)
    }

    constructor ()
      ensures Now() == State(map[], map[], map[], {}, 0) && Now().Valid()
    {
      limiters, numbers, owners, told, builds := map[], map[], map[], {}, 0;
    }

    /** `get`: the limiter for a token, rebuilt only for the record its numbers came from. */
    method Get(ask: Ask) returns (answer: Answer)
      requires Now().Valid()
      modifies this
      ensures Now().Valid() && Step(old(Now()), ask, Now(), answer)
    {
      var token := ask.token;
      var known := token in owners;
      ghost var s := Now();
      if known && numbers[token] == ask.numbers {
        hide Step;
        if ask.owner.Some? && owners[token].None? {
          owners := owners[token := ask.owner];
        }
        answer := Paced(if token in limiters then Some(limiters[token]) else None);
        SameNumbers(s, ask, Now(), answer);
      } else if known && !(owners[token].None? || owners[token] == ask.owner) {
        hide Step;
        told := told + {token};
        answer := Paced(if token in limiters then Some(limiters[token]) else None);
        SomebodyElses(s, ask, Now(), answer);
      } else {
        hide Built, State.Valid, SameToken;
        answer := Build(ask);
      }
    }

    /** The rest of `get`: a new limiter, or the decision not to have one. Numbers nothing knows raise
        before anything is written. */
    method Build(ask: Ask) returns (answer: Answer)
      requires Now().Valid()
      modifies this
      ensures Now().Valid()
      ensures if WellFormed(ask.numbers) then Built(old(Now()), ask, Now(), answer)
              else Now() == old(Now()) && answer == Misconfigured
    {
      hide Built, SameToken, State.Valid;
      ghost var s := Now();
      if exists k | k in ask.numbers :: k !in KNOWN {
        return Misconfigured;
      }
      var token := ask.token;
      numbers, owners := numbers[token := ask.numbers], owners[token := ask.owner];
      if ask.numbers == map[] {
        limiters := limiters - {token};
        answer := Paced(None);
      } else {
        limiters, builds := limiters[token := Limiter(builds, ask.numbers)], builds + 1;
        answer := Paced(Some(limiters[token]));
      }
      WrittenIsBuilt(s, ask, Now(), answer);
    }

    method Clear()
      modifies this
      ensures Now() == State(map[], map[], map[], {}, builds) && Now().Valid() && builds == old(builds)
    {
      limiters, numbers, owners, told := map[], map[], map[], {};
    }
  }

  predicate WellFormed(n: Numbers) { forall k | k in n :: k in KNOWN }

  /** What one ask may change, and what it answers: said by what is true afterwards. */
  ghost predicate Step(s: State, ask: Ask, u: State, answer: Answer) {
    var token := ask.token;
    && (forall t | t != token :: SameToken(s, u, t))
    && (if token in s.owners && token in s.numbers && s.numbers[token] == ask.numbers then
          // the numbers it asked for are the ones in use: nothing is built, an unowned token is taken up
          && token in u.owners && u.owners[token] == (if s.owners[token].None? then ask.owner else s.owners[token])
          && u.numbers == s.numbers && u.Held(token) == s.Held(token) && answer == Paced(s.Held(token))
        else if token in s.owners && !MayRebuild(s, token, ask.owner) then
          // somebody else's token: answered with what the owner decided, and said once
          && SameToken(s, u, token) && token in u.told && answer == Paced(s.Held(token))
        else if !WellFormed(ask.numbers) then
          u == s && answer == Misconfigured
        else
          Built(s, ask, u, answer))
  }

  /** Built from exactly these numbers, by a build of its own, for the record that asked. */
  ghost predicate Built(s: State, ask: Ask, u: State, answer: Answer) {
    var token := ask.token;
    && (forall t | t != token :: SameToken(s, u, t))
    && token in u.owners && u.owners[token] == ask.owner && token in u.numbers && u.numbers[token] == ask.numbers
    && answer == Paced(u.Held(token))
    && u.Held(token) == if ask.numbers == map[] then None else Some(Limiter(s.builds, ask.numbers))
  }

  /** The numbers in use: at most the owner is written. */
  lemma SameNumbers(s: State, ask: Ask, u: State, answer: Answer)
    requires s.Valid() && ask.token in s.owners && s.numbers[ask.token] == ask.numbers
    requires u == s.(owners := if ask.owner.Some? && s.owners[ask.token].None? then s.owners[ask.token := ask.owner]
                              else s.owners)
    requires answer == Paced(s.Held(ask.token))
    ensures u.Valid() && Step(s, ask, u, answer)
  {
  }

  lemma SomebodyElses(s: State, ask: Ask, u: State, answer: Answer)
    requires s.Valid() && ask.token in s.owners && s.numbers[ask.token] != ask.numbers
    requires !MayRebuild(s, ask.token, ask.owner) && u == s.(told := s.told + {ask.token})
    requires answer == Paced(s.Held(ask.token))
    ensures u.Valid() && Step(s, ask, u, answer)
  {
  }

  lemma WrittenIsBuilt(s: State, ask: Ask, u: State, answer: Answer)
    requires u.numbers == s.numbers[ask.token := ask.numbers] && u.owners == s.owners[ask.token := ask.owner]
    requires u.limiters == if ask.numbers == map[] then s.limiters - {ask.token}
                           else s.limiters[ask.token := Limiter(s.builds, ask.numbers)]
    requires answer == Paced(u.Held(ask.token)) && s.Valid()
    requires u.builds == if ask.numbers == map[] then s.builds else s.builds + 1
    ensures Built(s, ask, u, answer) && u.Valid()
  {
    assert Built(s, ask, u, answer) by { hide State.Valid; }
    hide Built;
  }

  ghost predicate SameToken(s: State, u: State, t: string) {
    && (t in u.owners <==> t in s.owners) && (t in s.owners ==> u.owners[t] == s.owners[t])
    && (t in u.numbers <==> t in s.numbers) && (t in s.numbers ==> u.numbers[t] == s.numbers[t])
    && u.Held(t) == s.Held(t)
  }

  // ------------------------------------------------------------------ runs

  ghost predicate IsRun(states: seq<State>, asks: seq<Ask>, answers: seq<Answer>) {
    && |states| == |asks| + 1 && |answers| == |asks|
    && forall i | 0 <= i < |asks| :: StepAt(states, asks, answers, i)
  }

  ghost predicate StepAt(states: seq<State>, asks: seq<Ask>, answers: seq<Answer>, i: nat)
    requires i + 1 < |states| && i < |asks| && i < |answers|
  {
    Step(states[i], asks[i], states[i + 1], answers[i]) && states[i].Valid() && states[i + 1].Valid()
  }

  /** A record that owns a token keeps it, and only its own changed numbers build anew. */
  lemma OwnerKeeps(s: State, ask: Ask, u: State, answer: Answer, token: string, owner: string)
    requires s.Valid() && u.Valid() && Step(s, ask, u, answer)
    requires token in s.owners && s.owners[token] == Some(owner)
    ensures token in u.owners && u.owners[token] == Some(owner)
    ensures u.Held(token) != s.Held(token) || u.numbers[token] != s.numbers[token] ==>
              && ask.token == token && ask.owner == Some(owner) && ask.numbers != s.numbers[token]
              && WellFormed(ask.numbers)
    ensures ask.token == token && ask.numbers != s.numbers[token] && ask.owner == Some(owner)
            && WellFormed(ask.numbers) ==>
              u.numbers[token] == ask.numbers && u.Held(token) != s.Held(token)
  {
    assert ask.token != token ==> SameToken(s, u, token);
  }

  /** The three budgets there are. */
  predicate Known(numbers: Numbers) {
    forall k | k in numbers :: k == "overall_per_second" || k == "per_chat_per_second" || k == "group_per_minute"
  }

  /** A token nobody asked for before, or that nobody named owns, goes to whoever asks for other numbers: built
      from them, and owned from then on. Any budget that is not one of the three raises, and changes nothing. */
  lemma UnownedIsTaken(s: State, ask: Ask, u: State, answer: Answer)
    requires s.Valid() && u.Valid() && Step(s, ask, u, answer)
    requires ask.token in s.owners ==> s.owners[ask.token].None? && s.numbers[ask.token] != ask.numbers
    ensures Known(ask.numbers) ==>
              && ask.token in u.owners && u.owners[ask.token] == ask.owner && u.numbers[ask.token] == ask.numbers
              && answer == Paced(u.Held(ask.token))
              && u.Held(ask.token) == if ask.numbers == map[] then None else Some(Limiter(s.builds, ask.numbers))
    ensures !Known(ask.numbers) ==> u == s && answer == Misconfigured
  {
    assert Known(ask.numbers) <==> WellFormed(ask.numbers);
  }

  /** Over any interleaving: from the moment a named record owns a token, the limiter stays the same
      build until that record asks for different numbers, whatever the others ask. */
  lemma {:induction false} OwnedOverRuns(states: seq<State>, asks: seq<Ask>, answers: seq<Answer>, token: string,
                                         owner: string, i: nat, j: nat)
    requires IsRun(states, asks, answers) && i <= j < |states|
    requires token in states[i].owners && states[i].owners[token] == Some(owner) && token in states[i].numbers
    requires forall k | i <= k < j && asks[k].token == token && asks[k].owner == Some(owner) ::
               asks[k].numbers == states[i].numbers[token]
    ensures token in states[j].owners && states[j].owners[token] == Some(owner)
    ensures token in states[j].numbers && states[j].numbers[token] == states[i].numbers[token]
    ensures states[j].Held(token) == states[i].Held(token)
    ensures forall k | i <= k < j && asks[k].token == token && answers[k].Paced? ::
            answers[k].limiter == states[i].Held(token)
    decreases j
  {
    if i < j {
      OwnedOverRuns(states, asks, answers, token, owner, i, j - 1);
      assert StepAt(states, asks, answers, j - 1);
      OwnerKeeps(states[j - 1], asks[j - 1], states[j], answers[j - 1], token, owner);
    }
  }
}
