/** Scheduled sends and the claims on them (producer/scheduling.py). A claim is one conditional UPDATE
    of a row; any number of movers, each with a clock of its own, take theirs in any order. */
module ScheduleLeases {
  import opened Options

  /** Moments are microseconds. */
  const SECOND: int := 1_000_000

  /** A claim as the row stores it. `until` of `None` never lapses. */
  datatype Claim = Claim(at: int, worker: string, until: Option<int>)

  datatype Row = Row(due: int, correlation: string, claim: Option<Claim>)

  /** `unheld`: never claimed, or holding a claim that has lapsed. In SQL a missing `claimed_until`
      compares as false. */
  predicate Unheld(row: Row, moment: int) {
    row.claim.None? || (row.claim.value.until.Some? && row.claim.value.until.value <= moment)
  }

  /** What a claim at this moment, under this lease, would stamp. */
  function Stamp(moment: int, worker: string, lease: int): Claim {
    Claim(moment, worker, if lease <= 0 then None else Some(moment + lease * SECOND))
  }

  /** `still_held_by`: the row holds the very claim the mover carries. */
  predicate StillHeldBy(row: Row, token: Claim) {
    row.claim.Some? && row.claim.value.at == token.at && row.claim.value.worker == token.worker
  }

  // ------------------------------------------------------------------ one row's life

  /** The claims that won a row, oldest first: each began once the one before had lapsed. */
  ghost predicate Succession(claims: seq<Claim>) {
    && (forall i | 0 <= i < |claims| && claims[i].until.Some? :: claims[i].at < claims[i].until.value)
    && (forall i, j | 0 <= i < j < |claims| :: claims[i].until.Some? && claims[i].until.value <= claims[j].at)
  }

  /** The row holds the last of them. */
  ghost predicate Tells(row: Row, claims: seq<Claim>) {
    Succession(claims) && row.claim == if claims == [] then None else Some(claims[|claims| - 1])
  }

  lemma ClaimSucceeds(row: Row, claims: seq<Claim>, moment: int, worker: string, lease: int)
    requires Tells(row, claims) && Unheld(row, moment)
    ensures Tells(row.(claim := Some(Stamp(moment, worker, lease))), claims + [Stamp(moment, worker, lease)])
  {
    var c := Stamp(moment, worker, lease);
    var more := claims + [c];
    forall i, j | 0 <= i < j < |more| ensures more[i].until.Some? && more[i].until.value <= more[j].at {
      var last := |claims| - 1;
      if j == |claims| && i < last {
        assert claims[i].until.value <= claims[last].at < claims[last].until.value <= moment;
      }
    }
  }

  /** A try at a row: the moment a mover read from its clock, its name and its lease. */
  datatype Try = Try(moment: int, worker: string, lease: int)

  /** Every claim a row sees over its life, however the movers' clocks disagree: the ones that won. */
  ghost function Winners(row: Row, tries: seq<Try>): (won: seq<Claim>)
    decreases |tries|
  {
    if tries == [] then []
    else if Unheld(row, tries[0].moment) then
      var c := Stamp(tries[0].moment, tries[0].worker, tries[0].lease);
      [c] + Winners(row.(claim := Some(c)), tries[1..])
    else Winners(row, tries[1..])
  }

  lemma {:induction false} WinnersFollow(row: Row, before: seq<Claim>, tries: seq<Try>)
    requires Tells(row, before)
    ensures Succession(before + Winners(row, tries))
    decreases |tries|
  {
    if tries == [] {
      assert before + [] == before;
    } else if Unheld(row, tries[0].moment) {
      var t := tries[0];
      var c := Stamp(t.moment, t.worker, t.lease);
      ClaimSucceeds(row, before, t.moment, t.worker, t.lease);
      WinnersFollow(row.(claim := Some(c)), before + [c], tries[1..]);
      assert before + Winners(row, tries) == before + [c] + Winners(row.(claim := Some(c)), tries[1..]);
    } else {
      WinnersFollow(row, before, tries[1..]);
    }
  }

  /** Over a row's whole life the winning claims hold it in windows that do not meet, in strictly
      increasing order, so the moment alone names one of them. */
  lemma {:induction false} LeasesNeverOverlap(row: Row, tries: seq<Try>, i: nat, j: nat)
    requires row.claim.None? && i < j < |Winners(row, tries)|
    ensures var won := Winners(row, tries);
            && won[i].until.Some? && won[i].at < won[i].until.value <= won[j].at
            && (won[i].at, won[i].worker) != (won[j].at, won[j].worker)
  {
    hide *;
    WinnersFollow(row, [], tries);
    assert [] + Winners(row, tries) == Winners(row, tries);
    InSuccession(Winners(row, tries), i, j);
  }

  lemma InSuccession(won: seq<Claim>, i: nat, j: nat)
    requires Succession(won) && i < j < |won|
    ensures won[i].until.Some? && won[i].at < won[i].until.value <= won[j].at
    ensures (won[i].at, won[i].worker) != (won[j].at, won[j].worker)
  {
    var earlier, later := won[i], won[j];
    assert earlier.until.Some? && earlier.until.value <= later.at;
  }

  /** A claim under a lease that is not positive is the last a row ever has. */
  lemma {:induction false} NoLeaseIsForGood(row: Row, tries: seq<Try>, i: nat)
    requires row.claim.None? && i < |Winners(row, tries)| && Winners(row, tries)[i].until.None?
    ensures i == |Winners(row, tries)| - 1
  {
    if i < |Winners(row, tries)| - 1 { LeasesNeverOverlap(row, tries, i, |Winners(row, tries)| - 1); }
  }

  /** A row nobody has claimed goes to the first to try, whatever the clock. */
  lemma FirstTryWins(row: Row, first: Try)
    requires row.claim.None?
    ensures |Winners(row, [first])| == 1 && Winners(row, [first])[0].at == first.moment
  {
    assert Winners(row.(claim := Some(Stamp(first.moment, first.worker, first.lease))), [first][1..]) == [];
  }

  /** A lease lasts exactly as long as it says. Once a try at `first.moment` has won, every try before that
      moment and its lease in seconds fails, and the next at or after it wins; under a lease that is not
      positive no later try ever wins. */
  lemma {:induction false} TakenAgainIff(row: Row, first: Try, between: seq<Try>, next: Try)
    requires |Winners(row, [first])| == 1
    requires forall b | b in between :: first.lease <= 0 || b.moment < first.moment + first.lease * 1_000_000
    ensures |Winners(row, [first] + between + [next])| ==
            if first.lease > 0 && next.moment >= first.moment + first.lease * 1_000_000 then 2 else 1
  {
    var c := Stamp(first.moment, first.worker, first.lease);
    var all := [first] + between + [next];
    assert Unheld(row, first.moment) by { assert Winners(row, [first][1..]) == []; }
    assert all[0] == first && all[1..] == between + [next];
    TooEarly(row.(claim := Some(c)), first, between, next);
  }

  lemma {:induction false} TooEarly(row: Row, first: Try, between: seq<Try>, next: Try)
    requires row.claim == Some(Stamp(first.moment, first.worker, first.lease))
    requires forall b | b in between :: first.lease <= 0 || b.moment < first.moment + first.lease * 1_000_000
    ensures |Winners(row, between + [next])| ==
            if first.lease > 0 && next.moment >= first.moment + first.lease * 1_000_000 then 1 else 0
    decreases |between|
  {
    var all := between + [next];
    if between == [] {
      assert all[1..] == [];
    } else {
      assert all[0] == between[0] && all[1..] == between[1..] + [next];
      assert between[0] in between;
      TooEarly(row, first, between[1..], next);
    }
  }

  /** The token matches the row only while the claim it came from is the latest: a mover whose lease
      was taken over passes no judgement on the row. */
  lemma TokenIsTheLatest(row: Row, claims: seq<Claim>, i: nat)
    requires Tells(row, claims) && i < |claims|
    ensures StillHeldBy(row, claims[i]) <==> i == |claims| - 1
  {
  }

  // ------------------------------------------------------------------ the table

  predicate Claimable(row: Row, moment: int) { row.due <= moment && Unheld(row, moment) }

  /** The order a pass takes rows in. */
  predicate Before(rows: map<nat, Row>, a: nat, b: nat)
    requires a in rows && b in rows
  {
    rows[a].due < rows[b].due || (rows[a].due == rows[b].due && a <= b)
  }

  lemma {:induction false} SomeFirst(rows: map<nat, Row>, s: set<nat>) returns (first: nat)
    requires s != {} && s <= rows.Keys
    ensures first in s && forall x | x in s :: Before(rows, first, x)
    decreases |s|
  {
    var x :| x in s;
    if s == {x} {
      first := x;
    } else {
      var rest := s - {x};
      var other := SomeFirst(rows, rest);
      first := if Before(rows, x, other) then x else other;
      forall y | y in s ensures Before(rows, first, y) { assert y == x || Before(rows, other, y); }
    }
  }

  /** What a pass selects: the earliest claimable rows, in order, as many as it may take. */
  ghost predicate Selected(rows: map<nat, Row>, moment: int, limit: nat, picked: seq<nat>) {
    && |picked| <= limit
    && (forall k | k in picked :: k in rows && Claimable(rows[k], moment))
    && (forall i, j | 0 <= i < j < |picked| :: picked[i] != picked[j] && Before(rows, picked[i], picked[j]))
    && (forall k | k in rows && Claimable(rows[k], moment) && k !in picked ::
          |picked| == limit && forall p | p in picked :: Before(rows, p, k))
  }

  /** What a thread may rely on of the others: histories only grow, and a key that is gone is gone. */
  datatype Seen = Seen(claims: map<nat, seq<Claim>>, keys: set<nat>, next: nat)

  ghost predicate Onward(was: Seen, now: Seen) {
    && (forall k | k in was.claims :: k in now.claims && was.claims[k] <= now.claims[k])
    && was.next <= now.next && (forall k | k < was.next && k !in was.keys :: k !in now.keys)
  }

  /** A row that was there and free: it is gone, or somebody's claim has been added to its history. */
  ghost predicate LostTo(was: Seen, now: Seen, k: nat) {
    k in now.keys ==> k in was.claims && k in now.claims && |was.claims[k]| < |now.claims[k]|
  }

  lemma LostStays(a: Seen, b: Seen, c: Seen, k: nat)
    requires Onward(b, c) && LostTo(a, b, k) && k < b.next
    ensures LostTo(a, c, k)
  {
  }

  lemma StampsStay(b: Seen, c: Seen, won: seq<nat>, stamp: Claim)
    requires Onward(b, c) && forall k | k in won :: k in b.claims && stamp in b.claims[k]
    ensures forall k | k in won :: k in c.claims && stamp in c.claims[k]
  {
    forall k | k in won ensures k in c.claims && stamp in c.claims[k] {
      var i :| 0 <= i < |b.claims[k]| && b.claims[k][i] == stamp;
      assert c.claims[k][i] == stamp;
    }
  }

  lemma OnwardThen(a: Seen, b: Seen, c: Seen)
    requires Onward(a, b) && Onward(b, c)
    ensures Onward(a, c)
  {
  }

  /** A pass that has been through `through`: what it won bears its stamp, what it did not is lost to
      somebody. */
  ghost predicate Pass(start: Seen, now: Seen, through: seq<nat>, won: seq<nat>, stamp: Claim) {
    && Onward(start, now)
    && (forall k | k in won :: k in through && k in now.claims && stamp in now.claims[k])
    && (forall i, j | 0 <= i < j < |won| :: won[i] != won[j])
    && (forall k | k in through && k !in won :: LostTo(start, now, k))
  }

  lemma PassStarts(start: Seen, rows: map<nat, Row>, selected: seq<nat>, stamp: Claim)
    requires Ready(start, rows, selected, stamp.at)
    ensures Pass(start, start, selected[..0], [], stamp) && StillFree(rows, selected[0..], stamp.at)
  {
  }

  lemma PassOnward(start: Seen, was: Seen, now: Seen, through: seq<nat>, won: seq<nat>, stamp: Claim)
    requires Pass(start, was, through, won, stamp) && Onward(was, now)
    ensures Onward(start, now)
  {
  }

  lemma PassGoesOn(start: Seen, was: Seen, now: Seen, all: seq<nat>, i: nat, won: seq<nat>, stamp: Claim, taken: bool)
    requires i < |all| && (forall k | k in all :: k < start.next)
             && (forall a, b | 0 <= a < b < |all| :: all[a] != all[b])
    requires Pass(start, was, all[..i], won, stamp) && Onward(was, now)
    requires if taken then all[i] in now.claims && stamp in now.claims[all[i]] else LostTo(start, now, all[i])
    ensures Pass(start, now, all[..i + 1], if taken then won + [all[i]] else won, stamp)
  {
    hide Onward, LostTo;
    OnwardThen(start, was, now);
    StampsStay(was, now, won, stamp);
    assert all[..i + 1] == all[..i] + [all[i]];
    assert start.next <= was.next by { NextGrows(start, was); }
    forall k | k in all[..i] && k !in won ensures LostTo(start, now, k) {
      assert k in all;
      LostStays(start, was, now, k);
    }
    assert all[i] !in all[..i];
  }

  ghost predicate StillFree(rows: map<nat, Row>, ks: seq<nat>, moment: int) {
    forall k | k in ks :: k in rows && Unheld(rows[k], moment)
  }

  lemma FreeGoesOn(was: map<nat, Row>, now: map<nat, Row>, all: seq<nat>, i: nat, moment: int)
    requires i < |all| && (forall a, b | 0 <= a < b < |all| :: all[a] != all[b]) && StillFree(was, all[i..], moment)
    requires forall k | k in was && k != all[i] :: k in now && now[k] == was[k]
    ensures all[i] in was && Unheld(was[all[i]], moment) && StillFree(now, all[i + 1..], moment)
  {
    assert all[i..][0] == all[i] && all[i..][1..] == all[i + 1..];
    assert all[i] !in all[i + 1..];
  }

  /** The rows of a select, each free and its history known. */
  ghost predicate Ready(start: Seen, rows: map<nat, Row>, selected: seq<nat>, moment: int) {
    && (forall a, b | 0 <= a < b < |selected| :: selected[a] != selected[b])
    && (forall k | k in selected ::
          && k < start.next && k in rows && k in start.claims && Tells(rows[k], start.claims[k])
          && Unheld(rows[k], moment))
  }

  lemma NextGrows(a: Seen, b: Seen)
    requires Onward(a, b)
    ensures a.next <= b.next
  {
  }

  lemma PassMeans(start: Seen, now: Seen, through: seq<nat>, won: seq<nat>, stamp: Claim)
    requires Pass(start, now, through, won, stamp)
    ensures Onward(start, now)
    ensures forall k | k in won :: k in through && k in now.claims && stamp in now.claims[k]
    ensures forall i, j | 0 <= i < j < |won| :: won[i] != won[j]
    ensures forall k | k in through && k !in won :: LostTo(start, now, k)
  {
  }

  class Schedule {
    var rows: map<nat, Row>
    var next: nat                                   // the table hands out its keys in order
    ghost var claims: map<nat, seq<Claim>>          // every claim a key ever had

    ghost predicate Valid()
      reads this
    {
      && (forall k | k in rows :: k in claims && Tells(rows[k], claims[k]))
      && (forall k | k in claims :: Succession(claims[k]) && k < next)
    }

    constructor ()
      ensures Valid() && rows == map[] && claims == map[]
    {
      rows, next, claims := map[], 0, map[];
    }

    ghost function Look(): Seen
      reads this
    {
      Seen(claims, rows.Keys, next)
    }

    method Insert(due: int, correlation: string)
      requires Valid()
      modifies this
      ensures Valid() && Onward(old(Look()), Look())
      ensures rows == old(rows)[old(next) := Row(due, correlation, None)]
    {
      rows, claims := rows[next := Row(due, correlation, None)], claims[next := []];
      next := next + 1;
    }

    /** The conditional UPDATE: it takes the row exactly where nobody effectively holds it now. */
    method Take(k: nat, moment: int, worker: string, lease: int) returns (taken: bool)
      requires Valid()
      modifies this`rows, this`claims
      ensures Valid() && Onward(old(Look()), Look())
      ensures taken <==> k in old(rows) && Unheld(old(rows)[k], moment)
      ensures taken <==> k in old(rows) && var c := old(rows)[k].claim;
                         c.None? || (c.value.until.Some? && c.value.until.value <= moment)
      ensures taken ==>
                && k in rows && rows[k].claim.Some? && rows[k].claim.value.at == moment
                && rows[k].claim.value.worker == worker
                && rows[k].claim.value.until == if lease > 0 then Some(moment + lease * 1_000_000) else None
      ensures taken ==> && rows == old(rows)[k := old(rows)[k].(claim := Some(Stamp(moment, worker, lease)))]
                        && k in claims && claims[k] == old(claims[k]) + [Stamp(moment, worker, lease)]
      ensures !taken ==> rows == old(rows) && claims == old(claims)
    {
      taken := k in rows && Unheld(rows[k], moment);
      if taken {
        ClaimSucceeds(rows[k], claims[k], moment, worker, lease);
        claims := claims[k := claims[k] + [Stamp(moment, worker, lease)]];
        rows := rows[k := rows[k].(claim := Some(Stamp(moment, worker, lease)))];
      }
    }

    /** What a dead mover leaves: the row it took at `moment` is taken at `later`, and was to be cancelled then,
        exactly where the lease in seconds is over. */
    method TakeThenAgain(k: nat, moment: int, worker: string, lease: int, later: int, other: string, next: int)
      returns (first: bool, second: bool)
      requires Valid()
      modifies this`rows, this`claims
      ensures Valid()
      ensures first ==> (second <==> lease > 0 && later >= moment + lease * 1_000_000)
      ensures k in old(rows) && old(rows)[k].claim.None? ==> first
    {
      hide Succession;
      first := Take(k, moment, worker, lease);
      second := Take(k, later, other, next);
    }

    /** And the same of a cancellation. */
    method TakeThenCancel(k: nat, moment: int, worker: string, lease: int, later: int) returns (first: bool)
      requires Valid()
      modifies this`rows, this`claims
      ensures Valid()
      ensures first ==> (k !in rows <==> lease > 0 && later >= moment + lease * 1_000_000)
    {
      hide Succession, Tells, Onward, Claimable;
      first := Take(k, moment, worker, lease);
      var deleted := Cancel(if k in rows then rows[k].correlation else "", later);
    }

    /** And of a pass, where the row is due and the pass may take more than it finds. */
    method TakeThenSelect(k: nat, moment: int, worker: string, lease: int, later: int, limit: nat)
      returns (first: bool, picked: seq<nat>)
      requires Valid()
      modifies this`rows, this`claims
      ensures Valid()
      ensures first && k in picked ==> lease > 0 && later >= moment + lease * 1_000_000
      ensures first && |picked| < limit && k in old(rows) && old(rows)[k].due <= later ==>
                (k in picked <==> lease > 0 && later >= moment + lease * 1_000_000)
    {
      hide Succession, Tells, Onward, Before;
      first := Take(k, moment, worker, lease);
      picked := Select(later, limit);
    }

    /** A mover's judgement on a row, written only while the row holds the mover's own claim. */
    method Judge(k: nat, token: Claim) returns (deleted: bool)
      requires Valid()
      modifies this`rows
      ensures Valid() && Onward(old(Look()), Look())
      ensures deleted == (k in old(rows) && StillHeldBy(old(rows)[k], token))
      ensures rows == if deleted then old(rows) - {k} else old(rows)
    {
      deleted := k in rows && StillHeldBy(rows[k], token);
      if deleted { rows := rows - {k}; }
    }

    /** `cancel`: exactly the rows of this id that nobody effectively holds. Of the due ones these are
        exactly those a claim at the same moment would find. */
    method Cancel(correlation: string, moment: int) returns (deleted: nat)
      requires Valid()
      modifies this`rows
      ensures Valid() && Onward(old(Look()), Look())
      ensures deleted == |old(rows).Keys - rows.Keys|
      ensures forall k :: k in rows <==>
              k in old(rows) && !(old(rows)[k].correlation == correlation && Unheld(old(rows)[k], moment))
      ensures forall k | k in rows :: rows[k] == old(rows)[k]
      ensures forall k | k in old(rows) && old(rows)[k].due <= moment && old(rows)[k].correlation == correlation ::
                k !in rows <==> Claimable(old(rows)[k], moment)
    {
      hide Tells, Succession;
      var gone := set k | k in rows && rows[k].correlation == correlation && Unheld(rows[k], moment);
      assert gone == rows.Keys - (rows.Keys - gone);
      rows := rows - gone;
      deleted := |gone|;
    }

    /** Everybody else: other movers under other clocks, producers and cancellations. */
    method Others()
      requires Valid()
      modifies this
      ensures Valid() && Onward(old(Look()), Look())
    {
      hide Valid, Onward;
      assert Onward(Look(), Look()) by { OnwardSame(); }
      var rounds: nat :| true;
      while rounds > 0
        invariant Valid() && Onward(old(Look()), Look())
      {
        rounds := rounds - 1;
        var kind: nat, k: nat, moment: int, lease: int := *, *, *, *;
        var text: string := *;
        ghost var was := Look();
        if kind == 0 {
          var taken := Take(k, moment, text, lease);
        } else if kind == 1 {
          var deleted := Judge(k, Claim(moment, text, None));
        } else if kind == 2 {
          Insert(moment, text);
        } else {
          var deleted := Cancel(text, moment);
        }
        OnwardThen(old(Look()), was, Look());
      }
    }

    /** The select of a pass. */
    method Select(moment: int, limit: nat) returns (picked: seq<nat>)
      ensures Selected(rows, moment, limit, picked)
      ensures forall k | k in picked :: k in rows && rows[k].due <= moment
      ensures forall i, j | 0 <= i < j < |picked| ::
                var a, b := rows[picked[i]].due, rows[picked[j]].due; a < b || (a == b && picked[i] < picked[j])
    {
      picked := [];
      var rest := set k | k in rows && Claimable(rows[k], moment);
      while |picked| < limit && rest != {}
        invariant |picked| <= limit
        invariant forall k | k in rest :: k in rows
        invariant forall k | k in rows && Claimable(rows[k], moment) :: k in rest || k in picked
        invariant forall k | k in rest || k in picked :: k in rows && Claimable(rows[k], moment)
        invariant forall p, k | p in picked && k in rest :: p != k && Before(rows, p, k)
        invariant forall i, j | 0 <= i < j < |picked| :: picked[i] != picked[j] && Before(rows, picked[i], picked[j])
        decreases rest
      {
        ghost var witnessed := SomeFirst(rows, rest);
        var first :| first in rest && forall x | x in rest :: Before(rows, first, x);
        picked, rest := picked + [first], rest - {first};
      }
    }

    /** `claim`: of the rows it selects, the ones nobody took first come back, each stamped with the
        claim that won it; a row that does not come back was claimed by somebody else or deleted
        meanwhile, and with nobody else about every row selected is won. */
    method ClaimDue(limit: nat, lease: int, moment: int, worker: string, alone: bool)
      returns (won: seq<nat>, ghost picked: seq<nat>)
      requires Valid()
      modifies this
      ensures Valid() && Onward(old(Look()), Look())
      ensures Selected(old(rows), moment, limit, picked)
      ensures forall k | k in won :: k in picked && k in claims && Stamp(moment, worker, lease) in claims[k]
      ensures forall i, j | 0 <= i < j < |won| :: won[i] != won[j]
      ensures forall k | k in picked && k !in won :: LostTo(old(Look()), Look(), k)
      ensures alone ==> won == picked
    {
      ghost var start := Look();
      var selected := Select(moment, limit);
      picked := selected;
      assert Ready(start, rows, selected, moment) by { StartsFree(moment, selected); }
      hide Onward, LostTo, Selected, Valid, Ready;
      won := ClaimThese(selected, Stamp(moment, worker, lease), lease, alone);
      PassMeans(start, Look(), selected, won, Stamp(moment, worker, lease));
    }

    /** The loop of `claim`, one row and one transaction at a time. */
    method ClaimThese(selected: seq<nat>, stamp: Claim, lease: int, alone: bool) returns (won: seq<nat>)
      requires Valid() && Ready(Look(), rows, selected, stamp.at) && stamp == Stamp(stamp.at, stamp.worker, lease)
      modifies this
      ensures Valid() && Pass(old(Look()), Look(), selected, won, stamp)
      ensures alone ==> won == selected
    {
      ghost var start, free := Look(), rows;
      won := [];
      PassStarts(start, rows, selected, stamp);
      hide Valid, Onward, LostTo, Pass, StillFree, Ready, Unheld, Stamp;
      for i := 0 to |selected|
        invariant Valid() && Pass(start, Look(), selected[..i], won, stamp)
        invariant alone ==> won == selected[..i] && StillFree(rows, selected[i..], stamp.at)
      {
        var taken := TryRow(start, free, selected, i, won, stamp, lease, alone);
        if taken { won := won + [selected[i]]; }
        assert selected[..i + 1] == selected[..i] + [selected[i]];
      }
      assert selected[..|selected|] == selected;
    }

    method TryRow(ghost start: Seen, ghost free: map<nat, Row>, selected: seq<nat>, i: nat, ghost won: seq<nat>,
                  stamp: Claim, lease: int, alone: bool)
      returns (taken: bool)
      requires Valid() && i < |selected| && Ready(start, free, selected, stamp.at)
               && stamp == Stamp(stamp.at, stamp.worker, lease)
      requires Pass(start, Look(), selected[..i], won, stamp) && (alone ==> StillFree(rows, selected[i..], stamp.at))
      modifies this
      ensures Valid() && Pass(start, Look(), selected[..i + 1], if taken then won + [selected[i]] else won, stamp)
      ensures alone ==> taken && StillFree(rows, selected[i + 1..], stamp.at)
    {
      hide Valid, Onward, LostTo, Pass, StillFree, Unheld, Tells, Stamp;
      ghost var was := Look();
      if !alone { Others(); } else { OnwardSame(); }
      ghost var mid, table := Look(), rows;
      taken := Take(selected[i], stamp.at, stamp.worker, lease);
      if alone { FreeGoesOn(table, rows, selected, i, stamp.at); }
      OnwardThen(was, mid, Look());
      PassOnward(start, was, Look(), selected[..i], won, stamp);
      if !taken { LostNow(start, free[selected[i]], selected[i], stamp.at); }
      PassGoesOn(start, was, Look(), selected, i, won, stamp, taken);
    }

    lemma OnwardSame()
      ensures Onward(Look(), Look())
    {
    }

    lemma StartsFree(moment: int, selected: seq<nat>)
      requires Valid() && forall k | k in selected :: k in rows && Claimable(rows[k], moment)
      requires forall a, b | 0 <= a < b < |selected| :: selected[a] != selected[b]
      ensures Ready(Look(), rows, selected, moment)
    {
    }

    lemma LostNow(start: Seen, row: Row, k: nat, moment: int)
      requires Valid() && Onward(start, Look()) && k in start.claims && Tells(row, start.claims[k])
               && Unheld(row, moment)
      requires !(k in rows && Unheld(rows[k], moment))
      ensures LostTo(start, Look(), k)
    {
      if k in rows { assert Tells(rows[k], claims[k]); }
    }
  }
}
