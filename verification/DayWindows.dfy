/**
 A UTC day as a block window: two MIN(number) probes on the block table, and the
 day's core counts over the block numbers between them.
 */
module DayWindows {
  import opened Options
  import opened Sums
  import opened DailyCounts

  const DAY: nat := 86400

  const SENTINEL: nat := 9223372036854775807

  /** The block table's number column is a 32-bit integer. */
  type Number = n: nat | n < 0x8000_0000

  datatype Block = Block(number: Number, timestamp: nat)

  /** `SELECT MIN(number) ... WHERE timestamp >= t`. */
  function MinNumber(blocks: seq<Block>, t: nat): Option<nat> {
    if blocks == [] then None
    else
      var rest := MinNumber(blocks[1..], t);
      if blocks[0].timestamp >= t && (rest.None? || blocks[0].number < rest.value) then Some(blocks[0].number)
      else rest
  }

  datatype Window = Window(start: Option<nat>, end: nat)

  function Resolve(blocks: seq<Block>, dayStart: nat, dayEnd: nat): Window {
    var start := MinNumber(blocks, dayStart);
    if start.None? then Window(None, SENTINEL)
    else
      var end := MinNumber(blocks, dayEnd);
      Window(start, if end.Some? then end.value else SENTINEL)
  }

  function WindowOf(blocks: seq<Block>, day: nat): Window { Resolve(blocks, day * DAY, (day + 1) * DAY) }

  predicate InWindow(w: Window, number: nat) { w.start.Some? && w.start.value <= number < w.end }

  // ------------------------------------------------------------------ what a window is

  /** The boundary a day starts at, in block numbers. */
  function Edge(blocks: seq<Block>, day: nat): nat {
    var first := MinNumber(blocks, day * DAY);
    if first.Some? then first.value else SENTINEL
  }

  /** The probe finds the least number among the blocks at or after `t`. */
  lemma {:induction false} ProbeIsLeast(blocks: seq<Block>, t: nat)
    ensures var r := MinNumber(blocks, t);
            && (forall b :: b in blocks && b.timestamp >= t ==> r.Some? && r.value <= b.number)
            && (r.Some? ==> exists b :: b in blocks && b.timestamp >= t && b.number == r.value)
  {
    if blocks != [] {
      ProbeIsLeast(blocks[1..], t);
      assert blocks == [blocks[0]] + blocks[1..];
      assert blocks[0] in blocks;
    }
  }

  lemma LaterProbesFindLater(blocks: seq<Block>, t: nat, t': nat)
    requires t <= t'
    ensures MinNumber(blocks, t').Some? ==>
              MinNumber(blocks, t).Some? && MinNumber(blocks, t).value <= MinNumber(blocks, t').value
  {
    ProbeIsLeast(blocks, t);
    ProbeIsLeast(blocks, t');
  }

  lemma EdgesAscend(blocks: seq<Block>, day: nat, day': nat)
    requires day <= day'
    ensures Edge(blocks, day) <= Edge(blocks, day')
  {
    assert day * DAY <= day' * DAY;
    LaterProbesFindLater(blocks, day * DAY, day' * DAY);
    ProbeIsLeast(blocks, day * DAY);
  }

  /** A window runs from its day's edge to the next day's, even on a chain whose clock runs backwards. */
  lemma WindowIsBetweenEdges(blocks: seq<Block>, day: nat, number: nat)
    ensures InWindow(WindowOf(blocks, day), number) <==> Edge(blocks, day) <= number < Edge(blocks, day + 1)
  {
    EdgesAscend(blocks, day, day + 1);
    LaterProbesFindLater(blocks, day * DAY, (day + 1) * DAY);
  }

  /** Windows of different days never overlap, and a range of days leaves no gap between them. */
  lemma {:induction false} WindowsTile(blocks: seq<Block>, first: nat, days: nat, number: nat)
    ensures Edge(blocks, first) <= number < Edge(blocks, first + days) <==>
              exists d :: first <= d < first + days && InWindow(WindowOf(blocks, d), number)
    ensures forall d, d' :: d != d' && InWindow(WindowOf(blocks, d), number) ==> !InWindow(WindowOf(blocks, d'), number)
    decreases days
  {
    forall d: nat, d': nat | d != d' && InWindow(WindowOf(blocks, d), number)
      ensures !InWindow(WindowOf(blocks, d'), number)
    {
      WindowIsBetweenEdges(blocks, d, number);
      WindowIsBetweenEdges(blocks, d', number);
      if d < d' { EdgesAscend(blocks, d + 1, d'); } else { EdgesAscend(blocks, d' + 1, d); }
    }
    if days > 0 {
      var last := first + days - 1;
      WindowsTile(blocks, first, days - 1, number);
      WindowIsBetweenEdges(blocks, last, number);
      EdgesAscend(blocks, first, last);
      EdgesAscend(blocks, last, last + 1);
    }
  }

  // ------------------------------------------------------------------- the day's counts

  /** One aggregate of one day: zero when no block was indexed at or after its start. */
  function DayTally<T>(blocks: seq<Block>, rows: seq<Placed<T>>, weight: T -> nat, day: nat): nat {
    var w := WindowOf(blocks, day);
    if w.start.None? then 0 else Tally(rows, weight, w.start.value, w.end)
  }

  /** The block-windowed columns of a DailyMetric row. */
  datatype Core = Core(newSafes: nat, executed: nat, wei: nat, viaApi: nat, indexedOnly: nat)

  function DayCore<S>(blocks: seq<Block>, txs: seq<Placed<MultisigTx>>, safes: seq<Placed<S>>, day: nat): Core {
    Core(DayTally(blocks, safes, Each(), day), DayTally(blocks, txs, Each(), day), DayTally(blocks, txs, Value(), day),
         DayTally(blocks, txs, Proposed(), day), DayTally(blocks, txs, Unproposed(), day))
  }

  /** On every day, quiet ones included, the two attributions make up the executed count. */
  lemma DayAttributionIsComplete<S>(blocks: seq<Block>, txs: seq<Placed<MultisigTx>>, safes: seq<Placed<S>>, day: nat)
    ensures var c := DayCore(blocks, txs, safes, day); c.viaApi + c.indexedOnly == c.executed
  {
    var w := WindowOf(blocks, day);
    if w.start.Some? { AttributionIsComplete(txs, w.start.value, w.end); }
  }

  /** One column of counts: the rows placed in the day's window that it is about. */
  lemma DayCounts<T(!new)>(blocks: seq<Block>, rows: seq<Placed<T>>, weight: T -> nat, day: nat, counted: set<int>)
    requires forall t :: weight(t) <= 1
    requires forall i :: i in counted <==>
               0 <= i < |rows| && InWindow(WindowOf(blocks, day), rows[i].block) && weight(rows[i].row) == 1
    ensures DayTally(blocks, rows, weight, day) == |counted|
  {
    var w := WindowOf(blocks, day);
    var lo, hi := if w.start.Some? then w.start.value else 0, if w.start.Some? then w.end else 0;
    NothingBetween(rows, weight, 0);
    TallyCounts(rows, weight, lo, hi, counted);
  }

  /**
   Column by column: new Safes, executed transactions and their wei, and the executed
   ones with a proposer and without, among the rows placed in the day's window.
   */
  lemma CoreColumns<S(!new)>(blocks: seq<Block>, txs: seq<Placed<MultisigTx>>, safes: seq<Placed<S>>, day: nat,
                             created: set<int>, executed: set<int>, proposed: set<int>, unproposed: set<int>)
    requires forall i :: i in created <==> 0 <= i < |safes| && InWindow(WindowOf(blocks, day), safes[i].block)
    requires forall i :: i in executed <==> 0 <= i < |txs| && InWindow(WindowOf(blocks, day), txs[i].block)
    requires forall i :: i in proposed <==> i in executed && txs[i].row.proposer.Some?
    requires forall i :: i in unproposed <==> i in executed && txs[i].row.proposer.None?
    ensures var c := DayCore(blocks, txs, safes, day);
            && c.newSafes == |created| && c.executed == |executed|
            && c.viaApi == |proposed| && c.indexedOnly == |unproposed|
            && c.wei == SumOver(executed, (i: int) => if 0 <= i < |txs| then txs[i].row.value else 0)
  {
    DayCounts(blocks, safes, Each(), day, created);
    DayCounts(blocks, txs, Each(), day, executed);
    DayCounts(blocks, txs, Proposed(), day, proposed);
    DayCounts(blocks, txs, Unproposed(), day, unproposed);
    DayWei(blocks, txs, day, executed, (i: int) => if 0 <= i < |txs| then txs[i].row.value else 0);
  }

  lemma DayWei(blocks: seq<Block>, txs: seq<Placed<MultisigTx>>, day: nat, executed: set<int>, wei: int -> int)
    requires forall i :: i in executed <==> 0 <= i < |txs| && InWindow(WindowOf(blocks, day), txs[i].block)
    requires forall i :: 0 <= i < |txs| ==> wei(i) == txs[i].row.value
    ensures DayTally(blocks, txs, Value(), day) == SumOver(executed, wei)
  {
    var w := WindowOf(blocks, day);
    var lo, hi := if w.start.Some? then w.start.value else 0, if w.start.Some? then w.end else 0;
    TallyIsSum(txs, Value(), lo, hi);
    NothingBetween(txs, Value(), 0);
    assert forall i :: i in executed <==> i in InRange(txs, lo, hi);
    assert executed == InRange(txs, lo, hi);
    SumSame(executed, WeightAt(txs, Value()), wei);
  }

  lemma DayTallyIsBetweenEdges<T>(blocks: seq<Block>, rows: seq<Placed<T>>, weight: T -> nat, day: nat)
    ensures DayTally(blocks, rows, weight, day) == Tally(rows, weight, Edge(blocks, day), Edge(blocks, day + 1))
  {
    LaterProbesFindLater(blocks, day * DAY, (day + 1) * DAY);
    if WindowOf(blocks, day).start.None? { NothingBetween(rows, weight, SENTINEL); }
  }

  function SumOfDays<T>(blocks: seq<Block>, rows: seq<Placed<T>>, weight: T -> nat, first: nat, days: nat): nat
    decreases days
  {
    if days == 0 then 0
    else SumOfDays(blocks, rows, weight, first, days - 1) + DayTally(blocks, rows, weight, first + days - 1)
  }

  /** Daily counts add up, in every column, to the count of the whole range: no row lost, none counted twice. */
  lemma {:induction false} DaysAddUp<T>(blocks: seq<Block>, rows: seq<Placed<T>>, weight: T -> nat, first: nat,
                                        days: nat)
    ensures SumOfDays(blocks, rows, weight, first, days)
            == Tally(rows, weight, Edge(blocks, first), Edge(blocks, first + days))
    decreases days
  {
    if days == 0 {
      NothingBetween(rows, weight, Edge(blocks, first));
    } else {
      var last := first + days - 1;
      DaysAddUp(blocks, rows, weight, first, days - 1);
      DayTallyIsBetweenEdges(blocks, rows, weight, last);
      EdgesAscend(blocks, first, last);
      EdgesAscend(blocks, last, last + 1);
      TallySplits(rows, weight, Edge(blocks, first), Edge(blocks, last), Edge(blocks, last + 1));
    }
  }

  // ------------------------------------------------------------------------- exactness

  predicate OnDay(b: Block, day: nat) { day * DAY <= b.timestamp < (day + 1) * DAY }

  /** The window of `day` holds its blocks and no others. */
  ghost predicate Exact(blocks: seq<Block>, day: nat) {
    forall b :: b in blocks ==> (InWindow(WindowOf(blocks, day), b.number) <==> OnDay(b, day))
  }

  lemma DayOf(b: Block)
    ensures OnDay(b, b.timestamp / DAY)
  {
  }

  /** No block is numbered below one of an earlier day. */
  ghost predicate DaysInOrder(blocks: seq<Block>) {
    forall b, c :: b in blocks && c in blocks && b.number < c.number ==> b.timestamp / DAY <= c.timestamp / DAY
  }

  lemma OrderedWindowIsExact(blocks: seq<Block>, day: nat)
    requires DaysInOrder(blocks)
    requires forall b, c :: b in blocks && c in blocks && b.number == c.number ==> b == c
    ensures Exact(blocks, day)
  {
    forall b | b in blocks
      ensures InWindow(WindowOf(blocks, day), b.number) <==> OnDay(b, day)
    {
      WindowIsBetweenEdges(blocks, day, b.number);
      AtOrAfterEdge(blocks, b, day);
      AtOrAfterEdge(blocks, b, day + 1);
    }
  }

  lemma AtOrAfterEdge(blocks: seq<Block>, b: Block, day: nat)
    requires DaysInOrder(blocks) && b in blocks
    requires forall x, y :: x in blocks && y in blocks && x.number == y.number ==> x == y
    ensures b.number >= Edge(blocks, day) <==> b.timestamp >= day * DAY
  {
    ProbeIsLeast(blocks, day * DAY);
    if b.number >= Edge(blocks, day) {
      var c :| c in blocks && c.timestamp >= day * DAY && c.number == Edge(blocks, day);
      DayOf(b);
      DayOf(c);
      assert b == c || c.timestamp / DAY <= b.timestamp / DAY;
    }
  }

  /**
   The windows are exact, all of them, exactly when block numbers keep the days in
   order; timestamps out of order within a day do no harm.
   */
  lemma WindowsAreExactExactlyWhen(blocks: seq<Block>)
    requires forall b, c :: b in blocks && c in blocks && b.number == c.number ==> b == c
    ensures (forall day :: Exact(blocks, day)) <==> DaysInOrder(blocks)
  {
    if DaysInOrder(blocks) {
      forall day
        ensures Exact(blocks, day)
      {
        OrderedWindowIsExact(blocks, day);
      }
    }
    if forall day :: Exact(blocks, day) {
      forall b, c | b in blocks && c in blocks && b.number < c.number
        ensures b.timestamp / DAY <= c.timestamp / DAY
      {
        var d, e := b.timestamp / DAY, c.timestamp / DAY;
        DayOf(b);
        DayOf(c);
        assert Exact(blocks, d) && Exact(blocks, e);
        WindowIsBetweenEdges(blocks, d, b.number);
        WindowIsBetweenEdges(blocks, e, c.number);
        if e < d { EdgesAscend(blocks, e + 1, d); }
      }
    }
  }

  /** In particular on a chain whose timestamps never go back. */
  lemma MonotoneChainsAreExact(blocks: seq<Block>, day: nat)
    requires forall b, c :: b in blocks && c in blocks && b.number == c.number ==> b == c
    requires forall b, c :: b in blocks && c in blocks && b.number < c.number ==> b.timestamp <= c.timestamp
    ensures Exact(blocks, day)
  {
    forall b, c | b in blocks && c in blocks && b.number < c.number
      ensures b.timestamp / DAY <= c.timestamp / DAY
    {
      DayOf(b);
      DayOf(c);
    }
    OrderedWindowIsExact(blocks, day);
  }
}
