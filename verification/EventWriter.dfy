/** The bisecting batch writer (eventlog/writer.py) against a database that may refuse anything.

    Rows are the positions of one batch. A database is any function of how many statements it has
    seen and which rows this one inserts, so it may change its mind at every statement; a bulk
    insert under a savepoint lands whole or not at all. */
module EventWriter {

  /** Whether statement `n`, inserting rows `lo` up to `hi`, is accepted. */
  type Database = (nat, nat, nat) -> bool

  /** The rows that landed, in the order they were inserted, and how many statements have run. */
  datatype Landing = Landing(landed: seq<nat>, statements: nat)

  const ROW_BY_ROW: nat := 32

  function Range(lo: nat, hi: nat): (r: seq<nat>)
    requires lo <= hi
    ensures |r| == hi - lo && forall i | 0 <= i < |r| :: r[i] == lo + i
  {
    seq(hi - lo, i requires 0 <= i < hi - lo => lo + i)
  }

  /** `_write_row`, for each row in turn. */
  function WriteRows(db: Database, lo: nat, hi: nat, n: nat): Landing
    requires lo <= hi
    decreases hi - lo
  {
    if lo == hi then Landing([], n) else
      var rest := WriteRows(db, lo + 1, hi, n + 1);
      if db(n, lo, lo + 1) then rest.(landed := [lo] + rest.landed) else rest
  }

  /** `_write_half`: one bulk insert, and the ladder below it where that is refused. */
  function WriteHalf(db: Database, lo: nat, hi: nat, n: nat): Landing
    requires lo <= hi
    decreases hi - lo, 1
  {
    if db(n, lo, hi) then Landing(Range(lo, hi), n + 1) else WriteOneByOne(db, lo, hi, n + 1)
  }

  /** `_write_one_by_one`: bisect while there are more than `ROW_BY_ROW`, then row by row. */
  function WriteOneByOne(db: Database, lo: nat, hi: nat, n: nat): Landing
    requires lo <= hi
    decreases hi - lo, 0
  {
    if hi - lo > ROW_BY_ROW then
      var middle := lo + (hi - lo) / 2;
      var left := WriteHalf(db, lo, middle, n);
      var right := WriteHalf(db, middle, hi, left.statements);
      Landing(left.landed + right.landed, right.statements)
    else WriteRows(db, lo, hi, n)
  }

  /** The first insert: it lands, the connection is gone, or the database refuses it. */
  datatype First = Landed | ConnectionLost | Refused

  datatype Written = Returned(refused: int) | RefusedAll

  function Attempt(db: Database, first: First, count: nat): Landing {
    match first
    case Landed => Landing(Range(0, count), 1)
    case ConnectionLost => WriteHalf(db, 0, count, 1)
    case Refused => WriteOneByOne(db, 0, count, 1)
  }

  /** `write_batch`: how many rows did not land, or the verdict that none did. */
  function WriteBatch(db: Database, first: First, count: nat): Written {
    var written := |Attempt(db, first, count).landed|;
    if first != Landed && count > 0 && written == 0 then RefusedAll else Returned(count - written)
  }

  // ------------------------------------------------------------------ what lands

  /** An order-preserving choice of the rows `lo` up to `hi`, each at most once. */
  ghost predicate Choice(rows: seq<nat>, lo: nat, hi: nat) {
    && (forall i | 0 <= i < |rows| :: lo <= rows[i] < hi)
    && (forall i, j | 0 <= i < j < |rows| :: rows[i] < rows[j])
  }

  lemma ChoiceSize(rows: seq<nat>, lo: nat, hi: nat)
    requires Choice(rows, lo, hi) && lo <= hi
    ensures |rows| <= hi - lo
    ensures |rows| == hi - lo ==> rows == Range(lo, hi)
    decreases |rows|
  {
    if rows != [] {
      var last := rows[|rows| - 1];
      ChoiceSize(rows[..|rows| - 1], lo, last);
      assert rows == rows[..|rows| - 1] + [last];
    }
  }

  lemma {:induction false} RowsChoose(db: Database, lo: nat, hi: nat, n: nat)
    requires lo <= hi
    ensures Choice(WriteRows(db, lo, hi, n).landed, lo, hi)
    decreases hi - lo
  {
    if lo < hi { RowsChoose(db, lo + 1, hi, n + 1); }
  }

  lemma {:induction false} HalfChooses(db: Database, lo: nat, hi: nat, n: nat)
    requires lo <= hi
    ensures Choice(WriteHalf(db, lo, hi, n).landed, lo, hi)
    decreases hi - lo, 1
  {
    if !db(n, lo, hi) { LadderChooses(db, lo, hi, n + 1); }
  }

  lemma {:induction false} LadderChooses(db: Database, lo: nat, hi: nat, n: nat)
    requires lo <= hi
    ensures Choice(WriteOneByOne(db, lo, hi, n).landed, lo, hi)
    decreases hi - lo, 0
  {
    if hi - lo > ROW_BY_ROW {
      var middle := lo + (hi - lo) / 2;
      HalfChooses(db, lo, middle, n);
      HalfChooses(db, middle, hi, WriteHalf(db, lo, middle, n).statements);
    } else {
      RowsChoose(db, lo, hi, n);
    }
  }

  /** Whatever the database does: no row twice, the order kept, the count of the missing exact, and
      a raise exactly when a batch that had rows lands none of them. */
  lemma WritesWhatItSays(db: Database, first: First, count: nat)
    ensures Choice(Attempt(db, first, count).landed, 0, count)
    ensures WriteBatch(db, first, count).RefusedAll? <==> count > 0 && Attempt(db, first, count).landed == []
    ensures WriteBatch(db, first, count).Returned? ==>
              WriteBatch(db, first, count).refused + |Attempt(db, first, count).landed| == count
  {
    match first {
      case Landed =>
      case ConnectionLost => HalfChooses(db, 0, count, 1);
      case Refused => LadderChooses(db, 0, count, 1);
    }
    ChoiceSize(Attempt(db, first, count).landed, 0, count);
  }

  // ------------------------------------------------------------------ a database that refuses rows

  ghost predicate AllGood(good: nat -> bool, lo: nat, hi: nat) { forall i | lo <= i < hi :: good(i) }

  /** Every statement is accepted exactly when every row in it is acceptable. */
  ghost predicate PerRow(db: Database, good: nat -> bool) {
    forall n, lo, hi :: db(n, lo, hi) <==> AllGood(good, lo, hi)
  }

  lemma {:induction false} RowsKeepGood(db: Database, good: nat -> bool, lo: nat, hi: nat, n: nat, i: nat)
    requires PerRow(db, good) && lo <= hi
    ensures i in WriteRows(db, lo, hi, n).landed <==> lo <= i < hi && good(i)
    decreases hi - lo
  {
    if lo < hi {
      assert db(n, lo, lo + 1) <==> AllGood(good, lo, lo + 1);
      RowsKeepGood(db, good, lo + 1, hi, n + 1, i);
    }
  }

  lemma {:induction false} HalfKeepsGood(db: Database, good: nat -> bool, lo: nat, hi: nat, n: nat, i: nat)
    requires PerRow(db, good) && lo <= hi
    ensures i in WriteHalf(db, lo, hi, n).landed <==> lo <= i < hi && good(i)
    decreases hi - lo, 1
  {
    assert db(n, lo, hi) <==> AllGood(good, lo, hi);
    if db(n, lo, hi) {
      if lo <= i < hi { assert Range(lo, hi)[i - lo] == i; }
    } else {
      LadderKeepsGood(db, good, lo, hi, n + 1, i);
    }
  }

  lemma {:induction false} LadderKeepsGood(db: Database, good: nat -> bool, lo: nat, hi: nat, n: nat, i: nat)
    requires PerRow(db, good) && lo <= hi
    ensures i in WriteOneByOne(db, lo, hi, n).landed <==> lo <= i < hi && good(i)
    decreases hi - lo, 0
  {
    if hi - lo > ROW_BY_ROW {
      var middle := lo + (hi - lo) / 2;
      HalfKeepsGood(db, good, lo, middle, n, i);
      HalfKeepsGood(db, good, middle, hi, WriteHalf(db, lo, middle, n).statements, i);
    } else {
      RowsKeepGood(db, good, lo, hi, n, i);
    }
  }

  /** Refused row by row, exactly the acceptable rows land, on either path. */
  lemma OnlyBadRowsAreLost(db: Database, good: nat -> bool, first: First, count: nat, i: nat)
    requires PerRow(db, good) && first != Landed
    ensures i in Attempt(db, first, count).landed <==> i < count && good(i)
  {
    if first == ConnectionLost {
      HalfKeepsGood(db, good, 0, count, 1, i);
    } else {
      LadderKeepsGood(db, good, 0, count, 1, i);
    }
  }

  // ------------------------------------------------------------------ what one bad row costs

  /** How many times a batch is halved before it is small enough to go row by row. */
  function Halvings(size: nat): nat {
    if size <= ROW_BY_ROW then 0 else 1 + Halvings(size - size / 2)
  }

  lemma {:induction false} HalvingsGrow(small: nat, large: nat)
    requires small <= large
    ensures Halvings(small) <= Halvings(large)
    decreases large
  {
    if small > ROW_BY_ROW { HalvingsGrow(small - small / 2, large - large / 2); }
  }

  lemma {:induction false} RowsCost(db: Database, lo: nat, hi: nat, n: nat)
    requires lo <= hi
    ensures WriteRows(db, lo, hi, n).statements == n + (hi - lo)
    decreases hi - lo
  {
    if lo < hi { RowsCost(db, lo + 1, hi, n + 1); }
  }

  /** What half a batch costs: one statement, and the ladder where that is refused. */
  lemma HalfCost(db: Database, good: nat -> bool, lo: nat, hi: nat, n: nat)
    requires PerRow(db, good) && lo <= hi
    ensures WriteHalf(db, lo, hi, n).statements ==
            if AllGood(good, lo, hi) then n + 1 else WriteOneByOne(db, lo, hi, n + 1).statements
  {
    assert db(n, lo, hi) <==> AllGood(good, lo, hi);
    hide WriteOneByOne;
  }

  lemma BisectCost(db: Database, lo: nat, hi: nat, n: nat)
    requires hi - lo > ROW_BY_ROW
    ensures var middle := lo + (hi - lo) / 2;
            WriteOneByOne(db, lo, hi, n).statements ==
              WriteHalf(db, middle, hi, WriteHalf(db, lo, middle, n).statements).statements
  {
    hide WriteHalf, WriteRows;
  }

  ghost predicate OneBad(good: nat -> bool, bad: nat, lo: nat, hi: nat) {
    lo <= bad < hi && !good(bad) && forall i | lo <= i < hi && i != bad :: good(i)
  }

  /** Cut in two, one half is good and the other has the bad row. */
  lemma OneBadHalf(good: nat -> bool, bad: nat, lo: nat, middle: nat, hi: nat)
    requires OneBad(good, bad, lo, hi) && lo <= middle <= hi
    ensures if bad < middle then OneBad(good, bad, lo, middle) && AllGood(good, middle, hi)
            && !AllGood(good, lo, middle)
            else OneBad(good, bad, middle, hi) && AllGood(good, lo, middle) && !AllGood(good, middle, hi)
  {
  }

  /** The two halves, and what each of them costs. */
  lemma LadderHalves(db: Database, good: nat -> bool, bad: nat, lo: nat, hi: nat, n: nat) returns (middle: nat)
    requires PerRow(db, good) && hi - lo > ROW_BY_ROW && OneBad(good, bad, lo, hi)
    ensures lo < middle < hi && Halvings(middle - lo) <= Halvings(hi - middle) == Halvings(hi - lo) - 1
    ensures if bad < middle then OneBad(good, bad, lo, middle) else OneBad(good, bad, middle, hi)
    ensures WriteOneByOne(db, lo, hi, n).statements ==
            if bad < middle then WriteOneByOne(db, lo, middle, n + 1).statements + 1
            else WriteOneByOne(db, middle, hi, n + 2).statements
  {
    middle := lo + (hi - lo) / 2;
    BisectCost(db, lo, hi, n);
    OneBadHalf(good, bad, lo, middle, hi);
    HalvingsHalf(hi - lo);
    var second := WriteHalf(db, lo, middle, n).statements;
    hide *;
    HalfCost(db, good, lo, middle, n);
    HalfCost(db, good, middle, hi, second);
  }

  lemma HalvingsHalf(size: nat)
    requires size > ROW_BY_ROW
    ensures Halvings(size / 2) <= Halvings(size - size / 2) == Halvings(size) - 1
  {
    HalvingsGrow(size / 2, size - size / 2);
  }

  function TwoTo(k: nat): nat { if k == 0 then 1 else 2 * TwoTo(k - 1) }

  /** The halvings are as few as a bisection's: `k` of them for up to 32 times two to the `k` rows. */
  lemma {:induction false} HalvingsAreFew(size: nat, k: nat)
    requires size <= 32 * TwoTo(k)
    ensures Halvings(size) <= k
    decreases k
  {
    if size > ROW_BY_ROW { HalvingsAreFew(size - size / 2, k - 1); }
  }

  lemma {:induction false} LadderCost(db: Database, good: nat -> bool, bad: nat, lo: nat, hi: nat, n: nat)
    requires PerRow(db, good) && lo <= hi && OneBad(good, bad, lo, hi)
    ensures WriteOneByOne(db, lo, hi, n).statements <= n + 2 * Halvings(hi - lo) + ROW_BY_ROW
    decreases hi - lo
  {
    if hi - lo > ROW_BY_ROW {
      hide *;
      var middle := LadderHalves(db, good, bad, lo, hi, n);
      if bad < middle {
        LadderCost(db, good, bad, lo, middle, n + 1);
      } else {
        LadderCost(db, good, bad, middle, hi, n + 2);
      }
    } else {
      RowsCost(db, lo, hi, n);
      hide PerRow, OneBad, WriteRows;
    }
  }

  /** One bad row in a batch the database refuses costs `1 + 2k + 32` statements at most, for `k` halvings. */
  lemma OneBadRowCost(db: Database, good: nat -> bool, bad: nat, count: nat)
    requires PerRow(db, good) && OneBad(good, bad, 0, count)
    ensures Attempt(db, Refused, count).statements <= 1 + 2 * Halvings(count) + 32
    ensures forall k: nat | count <= 32 * TwoTo(k) :: Attempt(db, Refused, count).statements <= 1 + 2 * k + 32
  {
    LadderCost(db, good, bad, 0, count, 1);
    hide Attempt;
    forall k: nat | count <= 32 * TwoTo(k) ensures Halvings(count) <= k { HalvingsAreFew(count, k); }
  }
}
