/** SUM and COUNT over the rows whose block number lies in a range `[lo, hi)`. */
module DailyCounts {
  import opened Options
  import opened Sums

  /** A row joined to the block of its ethereum transaction. */
  datatype Placed<T> = Placed(block: nat, row: T)

  /** A row of the multisig table. `proposer` is written only by the proposal API. */
  datatype MultisigTx = MultisigTx(value: nat, proposer: Option<nat>)

  function Tally<T>(rows: seq<Placed<T>>, weight: T -> nat, lo: nat, hi: nat): nat {
    if rows == [] then 0
    else (if lo <= rows[0].block < hi then weight(rows[0].row) else 0) + Tally(rows[1..], weight, lo, hi)
  }

  function Each<T>(): T -> nat { (t: T) => 1 }

  function Value(): MultisigTx -> nat { (t: MultisigTx) => t.value }

  function Proposed(): MultisigTx -> nat { (t: MultisigTx) => if t.proposer.Some? then 1 else 0 }

  function Unproposed(): MultisigTx -> nat { (t: MultisigTx) => if t.proposer.None? then 1 else 0 }

  /** Each executed transaction was proposed here or only indexed, never both. */
  lemma {:induction false} AttributionIsComplete(txs: seq<Placed<MultisigTx>>, lo: nat, hi: nat)
    ensures Tally(txs, Proposed(), lo, hi) + Tally(txs, Unproposed(), lo, hi) == Tally(txs, Each(), lo, hi)
  {
    if txs != [] { AttributionIsComplete(txs[1..], lo, hi); }
  }

  /** A range cut in two keeps every row, once. */
  lemma {:induction false} TallySplits<T>(rows: seq<Placed<T>>, weight: T -> nat, lo: nat, mid: nat, hi: nat)
    requires lo <= mid <= hi
    ensures Tally(rows, weight, lo, hi) == Tally(rows, weight, lo, mid) + Tally(rows, weight, mid, hi)
  {
    if rows != [] { TallySplits(rows[1..], weight, lo, mid, hi); }
  }

  lemma {:induction false} NothingBetween<T>(rows: seq<Placed<T>>, weight: T -> nat, at: nat)
    ensures Tally(rows, weight, at, at) == 0
  {
    if rows != [] { NothingBetween(rows[1..], weight, at); }
  }

  // --------------------------------------------------------- which rows an aggregate holds

  lemma {:induction false} LastRow<T>(rows: seq<Placed<T>>, last: Placed<T>, weight: T -> nat, lo: nat, hi: nat)
    ensures Tally(rows + [last], weight, lo, hi)
         == Tally(rows, weight, lo, hi) + if lo <= last.block < hi then weight(last.row) else 0
  {
    if rows == [] {
      assert rows + [last] == [last];
    } else {
      LastRow(rows[1..], last, weight, lo, hi);
      assert (rows + [last])[1..] == rows[1..] + [last];
    }
  }

  ghost function WeightAt<T(!new)>(rows: seq<Placed<T>>, weight: T -> nat): int -> int {
    i => if 0 <= i < |rows| then weight(rows[i].row) else 0
  }

  /** The positions of the rows in range. */
  function InRange<T>(rows: seq<Placed<T>>, lo: nat, hi: nat): set<int> {
    set i | 0 <= i < |rows| && lo <= rows[i].block < hi
  }

  /** A SUM is over the rows in range, each taken once. */
  lemma {:induction false} TallyIsSum<T(!new)>(rows: seq<Placed<T>>, weight: T -> nat, lo: nat, hi: nat)
    ensures Tally(rows, weight, lo, hi) == SumOver(InRange(rows, lo, hi), WeightAt(rows, weight))
    decreases |rows|
  {
    if rows != [] {
      var n := |rows| - 1;
      TallyIsSum(rows[..n], weight, lo, hi);
      assert rows == rows[..n] + [rows[n]];
      LastRow(rows[..n], rows[n], weight, lo, hi);
      assert InRange(rows[..n], lo, hi) == InRange(rows, lo, hi) - {n};
      LastWeight(rows, weight, InRange(rows, lo, hi));
    }
  }

  lemma LastWeight<T(!new)>(rows: seq<Placed<T>>, weight: T -> nat, at: set<int>)
    requires rows != [] && forall i :: i in at ==> 0 <= i < |rows|
    ensures var n := |rows| - 1;
            SumOver(at, WeightAt(rows, weight))
            == SumOver(at - {n}, WeightAt(rows[..n], weight)) + if n in at then weight(rows[n].row) else 0
  {
    var n := |rows| - 1;
    SumSame(at - {n}, WeightAt(rows[..n], weight), WeightAt(rows, weight));
    if n in at { SumRemove(at, WeightAt(rows, weight), n); } else { assert at - {n} == at; }
  }

  /** A COUNT is of the rows in range that the aggregate is about. */
  lemma TallyCounts<T(!new)>(rows: seq<Placed<T>>, weight: T -> nat, lo: nat, hi: nat, counted: set<int>)
    requires forall t :: weight(t) <= 1
    requires forall i :: i in counted <==> 0 <= i < |rows| && lo <= rows[i].block < hi && weight(rows[i].row) == 1
    ensures Tally(rows, weight, lo, hi) == |counted|
  {
    var at, f := InRange(rows, lo, hi), WeightAt(rows, weight);
    TallyIsSum(rows, weight, lo, hi);
    SumUnion(counted, at - counted, f);
    assert counted + (at - counted) == at;
    CountIsSum(counted, f);
    forall i | i in at - counted
      ensures f(i) == 0
    {
      assert weight(rows[i].row) <= 1;
    }
    SumZero(at - counted, f);
  }
}
