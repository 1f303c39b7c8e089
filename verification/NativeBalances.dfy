/**
 The native-ether rollup: one signed balance per Safe, complete through a
 watermark block, advanced by seed / delta / mark instead of a full recompute.
 */
module NativeBalances {
  import opened Options
  import opened Ledger
  import opened Ordering

  const ADDRESS_SPACE: int := 0x1_0000_0000_0000_0000_0000_0000_0000_0000_0000_0000

  /** Twenty address bytes, read as a number: byte order is numeric order. */
  type Address = a: int | 0 <= a < ADDRESS_SPACE

  /** `ORDER BY address`: the primary-key order. */
  const BY_ADDRESS: (Address, Address) -> bool := (a: Address, b: Address) => a < b

  lemma AddressOrderIsStrict()
    ensures StrictOrder(BY_ADDRESS)
  {
  }

  const SEED_BATCH: nat := 5000
  const MAX_SEED_PER_RUN: nat := 50_000

  // ---------------------------------------------------------------- history

  /** A row of history_internaltx; `callType` 0 is a plain CALL. */
  datatype InternalTx = InternalTx(
    block: nat, from: Option<Address>, to: Option<Address>, value: nat,
    callType: Option<nat>, failed: bool)

  predicate Counted(t: InternalTx) {
    t.callType == Some(0) && t.value > 0 && !t.failed
  }

  /** What a trace moves: nothing at all unless it is a successful value call. */
  function AsMovement(t: InternalTx): Movement<Address> {
    if Counted(t) then Movement(t.block, t.to, t.from, t.value) else Movement(t.block, None, None, 0)
  }

  function Movements(traces: seq<InternalTx>): seq<Movement<Address>> {
    seq(|traces|, i requires 0 <= i < |traces| => AsMovement(traces[i]))
  }

  /** The incoming leg of the queries: successful plain calls, `to` the Safe. */
  function EtherIn(traces: seq<InternalTx>, a: Address, upto: nat): nat {
    if traces == [] then 0
    else
      var t := traces[0];
      (if t.callType == Some(0) && !t.failed && t.to == Some(a) && t.block <= upto then t.value else 0)
      + EtherIn(traces[1..], a, upto)
  }

  /** The outgoing leg: `_from` is the Safe. */
  function EtherOut(traces: seq<InternalTx>, a: Address, upto: nat): nat {
    if traces == [] then 0
    else
      var t := traces[0];
      (if t.callType == Some(0) && !t.failed && t.from == Some(a) && t.block <= upto then t.value else 0)
      + EtherOut(traces[1..], a, upto)
  }

  /** A balance is the two legs of the query over the trace table: what the filter drops moves nothing. */
  lemma {:induction false} BalanceIsTheTwoLegs(traces: seq<InternalTx>, a: Address, upto: nat)
    ensures BalanceAt(Movements(traces), a, upto) == EtherIn(traces, a, upto) - EtherOut(traces, a, upto)
  {
    if traces != [] {
      BalanceIsTheTwoLegs(traces[1..], a, upto);
      assert Movements(traces)[1..] == Movements(traces[1..]);
    }
  }

  // -------------------------------------------------------------- safe head

  /** What the three head queries return. */
  datatype ChainView = ChainView(confirmed: Option<nat>, tip: Option<nat>, indexer: Option<nat>)

  function HeadBlock(c: ChainView, reorgBlocks: nat): (r: Option<nat>) {
    if c.confirmed.None? || c.tip.None? then None else
      var depthHead: int := c.tip.value - reorgBlocks;
      var reorgSafe := if c.confirmed.value < depthHead then c.confirmed.value else depthHead;
      var head := if c.indexer.Some? && c.indexer.value < reorgSafe then c.indexer.value else reorgSafe;
      if head < 0 then None else Some(head)
  }

  /** A block is beyond a reorg's reach, and every indexer that writes traces has passed it. */
  predicate Settled(c: ChainView, reorgBlocks: nat, b: nat) {
    && c.confirmed.Some? && b <= c.confirmed.value
    && c.tip.Some? && b + reorgBlocks <= c.tip.value
    && (c.indexer.Some? ==> b <= c.indexer.value)
  }

  /** The head is the highest settled block, and there is none exactly when no block is settled. */
  lemma HeadIsHighestSettledBlock(c: ChainView, reorgBlocks: nat)
    ensures forall b: nat :: Settled(c, reorgBlocks, b) <==>
              HeadBlock(c, reorgBlocks).Some? && b <= HeadBlock(c, reorgBlocks).value
  {
    var head := HeadBlock(c, reorgBlocks);
    if head.Some? { assert Settled(c, reorgBlocks, head.value); }
  }

  // ------------------------------------------------------------- row algebra

  datatype Row = Row(balance: int, updatedTo: nat)

  type Rows = map<Address, Row>

  /** Seed `addresses` at block `upto`; a row that is already there wins (DO NOTHING). */
  function SeedRows(rows: Rows, addresses: seq<Address>, upto: nat, h: seq<Movement<Address>>): Rows {
    (map a | a in addresses :: Row(BalanceAt(h, a, upto), upto)) + rows
  }

  /** Add the net flow of `(from, head]` to the rows it touches; never create a row. */
  function DeltaRows(rows: Rows, from: nat, head: nat, h: seq<Movement<Address>>): Rows {
    map a | a in rows ::
      if a in Touched(h, from, head)
      then Row(rows[a].balance + NetFlow(h, a, from, head), head)
      else rows[a]
  }

  /** Every row is the from-scratch balance at `b`, and has not moved since its own stamp. */
  ghost predicate RowsAt(rows: Rows, h: seq<Movement<Address>>, b: nat) {
    forall a :: a in rows ==>
      && rows[a].updatedTo <= b
      && rows[a].balance == BalanceAt(h, a, rows[a].updatedTo)
      && rows[a].balance == BalanceAt(h, a, b)
  }

  /** Every row was seeded at exactly `b`: the state an unfinished backfill leaves. */
  ghost predicate StampedAt(rows: Rows, b: nat) {
    forall a :: a in rows ==> rows[a].updatedTo == b
  }

  lemma SeedAppends(rows: Rows, xs: seq<Address>, ys: seq<Address>, upto: nat, h: seq<Movement<Address>>)
    ensures SeedRows(SeedRows(rows, xs, upto, h), ys, upto, h) == SeedRows(rows, xs + ys, upto, h)
  {
    assert forall a :: a in xs + ys <==> a in xs || a in ys;
  }

  lemma SeedKeepsRows(rows: Rows, xs: seq<Address>, upto: nat, h: seq<Movement<Address>>)
    requires RowsAt(rows, h, upto)
    ensures RowsAt(SeedRows(rows, xs, upto, h), h, upto)
    ensures StampedAt(rows, upto) ==> StampedAt(SeedRows(rows, xs, upto, h), upto)
    ensures SeedRows(rows, xs, upto, h).Keys == rows.Keys + (set a | a in xs)
    ensures forall a :: a in rows ==> SeedRows(rows, xs, upto, h)[a] == rows[a]
  {
  }

  function Members(xs: seq<Address>): set<Address> { set a | a in xs }

  ghost predicate Distinct(xs: seq<Address>) {
    forall i, j :: 0 <= i < j < |xs| ==> xs[i] != xs[j]
  }

  /** The addresses of `xs` with no row yet, in order. */
  function Missing(xs: seq<Address>, have: set<Address>): (r: seq<Address>)
    ensures forall a :: a in r <==> a in xs && a !in have
  {
    if xs == [] then [] else
      var rest := Missing(xs[1..], have);
      assert xs == [xs[0]] + xs[1..];
      if xs[0] in have then rest else [xs[0]] + rest
  }

  lemma {:induction false} MissingCount(xs: seq<Address>, have: set<Address>)
    requires Distinct(xs)
    ensures |Missing(xs, have)| + |Members(xs) * have| == |xs|
  {
    if xs == [] {
      assert Members(xs) * have == {};
    } else {
      MissingCount(xs[1..], have);
      assert xs == [xs[0]] + xs[1..];
      assert xs[0] !in xs[1..];
      assert Members(xs) * have ==
        if xs[0] in have then {xs[0]} + Members(xs[1..]) * have else Members(xs[1..]) * have;
    }
  }

  lemma MembersOfTail(xs: seq<Address>)
    requires xs != [] && Distinct(xs)
    ensures Members(xs) == {xs[0]} + Members(xs[1..]) && xs[0] !in Members(xs[1..]) && Distinct(xs[1..])
  {
    assert xs == [xs[0]] + xs[1..];
  }

  lemma {:induction false} DistinctCount(xs: seq<Address>)
    requires Distinct(xs)
    ensures |Members(xs)| == |xs|
  {
    if xs == [] {
      assert Members(xs) == {};
    } else {
      MembersOfTail(xs);
      DistinctCount(xs[1..]);
    }
  }

  lemma SeedMissingIsSeed(rows: Rows, xs: seq<Address>, upto: nat, h: seq<Movement<Address>>)
    ensures SeedRows(rows, Missing(xs, rows.Keys), upto, h) == SeedRows(rows, xs, upto, h)
  {
  }

  /** The delta carries every row from the watermark to the head, and the set of rows stays. */
  lemma DeltaAdvancesRows(rows: Rows, from: nat, head: nat, h: seq<Movement<Address>>)
    requires RowsAt(rows, h, from) && from <= head
    ensures RowsAt(DeltaRows(rows, from, head, h), h, head)
    ensures DeltaRows(rows, from, head, h).Keys == rows.Keys
    ensures forall a :: a in rows ==>
              if a in Touched(h, from, head) then DeltaRows(rows, from, head, h)[a].updatedTo == head
              else DeltaRows(rows, from, head, h)[a] == rows[a]
  {
    forall a | a in rows
      ensures var r := DeltaRows(rows, from, head, h)[a];
              && r.updatedTo <= head && r.balance == BalanceAt(h, a, r.updatedTo)
              && r.balance == BalanceAt(h, a, head)
    {
      NetFlowSplits(h, a, -1, from, head);
      if a !in Touched(h, from, head) { UntouchedHasNoFlow(h, a, from, head); }
    }
  }

  /** The rows survive any change of history above `b`. */
  lemma FrozenRows(rows: Rows, h: seq<Movement<Address>>, h': seq<Movement<Address>>, b: nat)
    requires RowsAt(rows, h, b) && Cut(h, b) == Cut(h', b)
    ensures RowsAt(rows, h', b)
  {
    forall a | a in rows
      ensures rows[a].balance == BalanceAt(h', a, rows[a].updatedTo)
      ensures rows[a].balance == BalanceAt(h', a, b)
    {
      FrozenFlow(h, h', a, -1, b, b);
      FrozenFlow(h, h', a, -1, rows[a].updatedTo, b);
    }
  }

  /**
   Seeding a new Safe at block `b` and then applying the delta of `(from, head]`
   gives its balance at `head` exactly when nothing moved between the watermark
   and `b`: the watermark is the one block that is right whatever the history,
   and seeding at the head counts `(from, head]` twice.
   */
  lemma SeedBlockMatters(a: Address, b: nat, from: nat, head: nat, h: seq<Movement<Address>>)
    requires from <= head
    ensures var seeded := SeedRows(map[], [a], b, h);
            var after := DeltaRows(seeded, from, head, h)[a].balance;
            && (from <= b ==> after - BalanceAt(h, a, head) == NetFlow(h, a, from, b))
            && (b <= from ==> BalanceAt(h, a, head) - after == NetFlow(h, a, b, from))
  {
    NetFlowSplits(h, a, -1, from, head);
    if from <= b { NetFlowSplits(h, a, -1, from, b); }
    if b <= from { NetFlowSplits(h, a, -1, b, from); }
    if a !in Touched(h, from, head) { UntouchedHasNoFlow(h, a, from, head); }
    assert SeedRows(map[], [a], b, h)[a] == Row(BalanceAt(h, a, b), b);
  }

  /** The seed block is right for every history only when it is the watermark itself. */
  lemma OnlyTheWatermarkIsSafe(a: Address, b: nat, from: nat)
    requires b != from
    ensures exists h: seq<Movement<Address>> :: BalanceAt(h, a, b) != BalanceAt(h, a, from)
  {
    var h: seq<Movement<Address>> := [Movement(if b < from then from else b, Some(a), None, 1)];
    assert h[1..] == [];
    assert NetFlow(h[1..], a, -1, b) == 0 == NetFlow(h[1..], a, -1, from);
    assert BalanceAt(h, a, b) + BalanceAt(h, a, from) == 1;
  }

  // ------------------------------------------------------------ the nightly run

  datatype Outcome =
    | NothingSettled
    | ColdStartDeclined
    | WatermarkAhead
    | TooManyUnseeded
    | Died
    | Completed(from: nat, head: nat, seeded: nat, touched: nat)

  /** The rollup table and its watermark row. */
  class RollupTable {
    var rows: Rows
    var watermark: Option<nat>

    constructor ()
      ensures rows == map[] && watermark == None
    {
      rows, watermark := map[], None;
    }

    /** Every published balance equals the recompute at the watermark. */
    ghost predicate Faithful(h: seq<Movement<Address>>)
      reads this
    {
      watermark.Some? ==> RowsAt(rows, h, watermark.value)
    }

    /** Addresses of Safes without a row, or None when there are more than `limit`. */
    method UnseededSafes(safes: set<Address>, limit: nat) returns (r: Option<seq<Address>>)
      ensures r.None? <==> |safes - rows.Keys| > limit
      ensures r.Some? ==> |r.value| == |safes - rows.Keys|
      ensures r.Some? ==> Distinct(r.value)
      ensures r.Some? ==> forall a :: a in r.value <==> a in safes && a !in rows
    {
      var rest := safes - rows.Keys;
      var found: seq<Address> := [];
      while rest != {} && |found| <= limit
        invariant |found| <= limit + 1
        invariant |found| + |rest| == |safes - rows.Keys|
        invariant rest <= safes - rows.Keys && Distinct(found)
        invariant forall a :: a in found <==> a in safes && a !in rows && a !in rest
        decreases rest
      {
        var a :| a in rest;
        found, rest := found + [a], rest - {a};
      }
      r := if |found| > limit then None else Some(found);
    }

    /** Seed in batches, each its own commit; the process dies after `commits` of them. */
    method Seed(addresses: seq<Address>, upto: nat, h: seq<Movement<Address>>, commits: nat) returns (done: nat)
      modifies this`rows
      ensures done <= |addresses|
      ensures rows == SeedRows(old(rows), addresses[..done], upto, h)
      ensures done == Min(commits * SEED_BATCH, |addresses|)
    {
      done := 0;
      var committed := 0;
      assert rows == SeedRows(old(rows), addresses[..0], upto, h);
      while done < |addresses| && committed < commits
        invariant done <= |addresses| && committed <= commits
        invariant rows == SeedRows(old(rows), addresses[..done], upto, h)
        invariant done == Min(committed * SEED_BATCH, |addresses|)
      {
        var next := Min(done + SEED_BATCH, |addresses|);
        SeedAppends(old(rows), addresses[..done], addresses[done..next], upto, h);
        assert addresses[..done] + addresses[done..next] == addresses[..next];
        rows := SeedRows(rows, addresses[done..next], upto, h);
        done, committed := next, committed + 1;
      }
    }

    /** Seed only the addresses that have no row, and report how many that was. */
    method SeedMissing(addresses: seq<Address>, upto: nat, h: seq<Movement<Address>>)
      returns (seeded: nat, present: nat)
      requires Distinct(addresses)
      modifies this`rows
      ensures rows == SeedRows(old(rows), addresses, upto, h)
      ensures present == |Members(addresses) * old(rows.Keys)|
      ensures seeded + present == |addresses|
    {
      var todo := Missing(addresses, rows.Keys);
      MissingCount(addresses, rows.Keys);
      seeded, present := |todo|, |Members(addresses) * rows.Keys|;
      SeedMissingIsSeed(rows, addresses, upto, h);
      var done := Seed(todo, upto, h, |todo|);
      assert todo[..done] == todo;
    }

    method ApplyDelta(from: nat, head: nat, h: seq<Movement<Address>>) returns (touched: nat)
      modifies this`rows
      ensures rows == DeltaRows(old(rows), from, head, h)
      ensures touched == |Touched(h, from, head) * old(rows.Keys)|
    {
      touched := |Touched(h, from, head) * rows.Keys|;
      rows := DeltaRows(rows, from, head, h);
    }

    /** get_or_create: never moves a watermark that is there. */
    method WriteWatermark(head: nat) returns (created: bool)
      modifies this`watermark
      ensures created <==> old(watermark).None?
      ensures watermark == if created then Some(head) else old(watermark)
    {
      created := watermark.None?;
      if created { watermark := Some(head); }
    }

    method ColdStart(head: nat, safes: set<Address>, h: seq<Movement<Address>>, backfillRunning: bool)
      returns (created: bool)
      requires watermark == None
      modifies this
      ensures created <==> !backfillRunning && old(rows) == map[] && |safes| <= MAX_SEED_PER_RUN
      ensures !created ==> rows == old(rows) && watermark == None
      ensures created ==> watermark == Some(head) && RowsAt(rows, h, head) && rows.Keys == safes
    {
      if backfillRunning || rows != map[] { return false; }
      var unseeded := UnseededSafes(safes, MAX_SEED_PER_RUN);
      assert safes - rows.Keys == safes;
      if unseeded.None? { return false; }
      var done := Seed(unseeded.value, head, h, |unseeded.value|);
      assert unseeded.value[..done] == unseeded.value;
      SeedKeepsRows(old(rows), unseeded.value, head, h);
      assert rows.Keys == safes;
      created := WriteWatermark(head);
    }

    /** The seed step at the old watermark; false when the process died inside it. */
    method SeedStep(unseeded: seq<Address>, h: seq<Movement<Address>>, commits: nat) returns (survived: bool)
      requires watermark.Some? && Faithful(h)
      requires Distinct(unseeded) && Members(unseeded) !! rows.Keys
      modifies this`rows
      ensures Faithful(h)
      ensures old(rows.Keys) <= rows.Keys <= old(rows.Keys) + Members(unseeded)
      ensures |rows.Keys| == |old(rows.Keys)| + Min(commits * SEED_BATCH, |unseeded|)
      ensures survived <==> commits * SEED_BATCH >= |unseeded|
      ensures survived ==> rows.Keys == old(rows.Keys) + Members(unseeded)
    {
      var done := Seed(unseeded, watermark.value, h, commits);
      SeedKeepsRows(old(rows), unseeded[..done], watermark.value, h);
      assert Members(unseeded[..done]) <= Members(unseeded);
      DistinctCount(unseeded[..done]);
      assert rows.Keys == old(rows.Keys) + Members(unseeded[..done]);
      survived := done == |unseeded|;
      assert survived ==> unseeded[..done] == unseeded;
    }

    /** Seed at the old watermark, then delta and mark in one transaction. */
    method Advance(head: nat, safes: set<Address>, h: seq<Movement<Address>>, commits: nat, diesBeforeMark: bool)
      returns (outcome: Outcome)
      requires watermark.Some? && Faithful(h)
      modifies this
      ensures watermark.Some? && Faithful(h)
      ensures outcome.WatermarkAhead? <==> old(watermark).value > head
      ensures outcome.TooManyUnseeded? <==>
                old(watermark).value <= head && |safes - old(rows.Keys)| > MAX_SEED_PER_RUN
      ensures outcome.WatermarkAhead? || outcome.TooManyUnseeded? ==> rows == old(rows)
      ensures !outcome.Completed? ==> watermark == old(watermark)
      // An accepted run dies exactly when its process does, with the seed batches committed by then; else it completes.
      ensures outcome.Died? <==>
                && old(watermark).value <= head && |safes - old(rows.Keys)| <= MAX_SEED_PER_RUN
                && (diesBeforeMark || commits * SEED_BATCH < |safes - old(rows.Keys)|)
      ensures outcome.Died? ==>
                |rows.Keys| == |old(rows.Keys)| + Min(commits * SEED_BATCH, |safes - old(rows.Keys)|)
      ensures outcome.WatermarkAhead? || outcome.TooManyUnseeded? || outcome.Died? || outcome.Completed?
      ensures outcome.Completed? ==>
                && watermark == Some(head) && outcome.head == head && Some(outcome.from) == old(watermark)
                && rows.Keys == old(rows.Keys) + safes
                && outcome.seeded == |safes - old(rows.Keys)|
                && outcome.touched == |Touched(h, outcome.from, head) * rows.Keys|
      ensures old(rows.Keys) <= rows.Keys <= old(rows.Keys) + safes
    {
      var from := watermark.value;
      if from > head { return WatermarkAhead; }
      var unseeded := UnseededSafes(safes, MAX_SEED_PER_RUN);
      if unseeded.None? { return TooManyUnseeded; }
      assert Members(unseeded.value) == safes - rows.Keys;
      var survived := SeedStep(unseeded.value, h, commits);
      if !survived || diesBeforeMark { return Died; }
      DeltaAdvancesRows(rows, from, head, h);
      var touched := ApplyDelta(from, head, h);
      watermark := Some(head);
      outcome := Completed(from, head, |unseeded.value|, touched);
    }

    /**
     One incremental pass. `commits` is how many seed batches commit before the
     process dies (at least as many as there are for a run that survives), and
     `diesBeforeMark` that it dies after the seed and before the atomic delta + mark.
     */
    method Run(chain: ChainView, reorgBlocks: nat, safes: set<Address>, h: seq<Movement<Address>>,
               backfillRunning: bool, commits: nat, diesBeforeMark: bool)
      returns (outcome: Outcome)
      requires Faithful(h)
      modifies this
      ensures Faithful(h)
      // The rollup moves only through a completed run or a cold start, and only to the head.
      ensures outcome.Completed? ==>
                && HeadBlock(chain, reorgBlocks) == Some(outcome.head) && watermark == Some(outcome.head)
                && (old(watermark).Some? ==> old(watermark) == Some(outcome.from))
                && (old(watermark).None? ==> outcome.from == outcome.head)
                && outcome.from <= outcome.head
      ensures outcome.Completed? ==>
                && rows.Keys == old(rows.Keys) + safes
                && outcome.touched == |Touched(h, outcome.from, outcome.head) * rows.Keys|
                && outcome.seeded == if old(watermark).Some? then |safes - old(rows.Keys)| else 0
      // An accepted run completes unless its process dies, in the seed or between the seed and the mark.
      ensures outcome.Died? <==>
                && HeadBlock(chain, reorgBlocks).Some?
                && if old(watermark).Some? then
                     && old(watermark).value <= HeadBlock(chain, reorgBlocks).value
                     && |safes - old(rows.Keys)| <= MAX_SEED_PER_RUN
                     && (diesBeforeMark || commits * SEED_BATCH < |safes - old(rows.Keys)|)
                   else !backfillRunning && old(rows) == map[] && |safes| <= MAX_SEED_PER_RUN && diesBeforeMark
      ensures outcome.Died? ==>
                && watermark == (if old(watermark).Some? then old(watermark) else HeadBlock(chain, reorgBlocks))
                && (old(watermark).Some? ==>
                      |rows.Keys| == |old(rows.Keys)| + Min(commits * SEED_BATCH, |safes - old(rows.Keys)|))
                && (old(watermark).None? ==> rows.Keys == safes)
      // A row, once there, is never dropped, and no address that is not a Safe gets one.
      ensures old(rows.Keys) <= rows.Keys <= old(rows.Keys) + safes
      // Every refusal leaves the rollup as it was, and each happens exactly on its guard.
      ensures !outcome.Died? && !outcome.Completed? ==> rows == old(rows) && watermark == old(watermark)
      ensures outcome.NothingSettled? <==> HeadBlock(chain, reorgBlocks).None?
      ensures outcome.ColdStartDeclined? <==>
                && HeadBlock(chain, reorgBlocks).Some? && old(watermark).None?
                && (backfillRunning || old(rows) != map[] || |safes| > MAX_SEED_PER_RUN)
      ensures outcome.WatermarkAhead? <==>
                && HeadBlock(chain, reorgBlocks).Some? && old(watermark).Some?
                && old(watermark).value > HeadBlock(chain, reorgBlocks).value
      ensures outcome.TooManyUnseeded? <==>
                && HeadBlock(chain, reorgBlocks).Some? && old(watermark).Some?
                && old(watermark).value <= HeadBlock(chain, reorgBlocks).value
                && |safes - old(rows.Keys)| > MAX_SEED_PER_RUN
    {
      var head := HeadBlock(chain, reorgBlocks);
      if head.None? { return NothingSettled; }
      if watermark.None? {
        var created := ColdStart(head.value, safes, h, backfillRunning);
        if !created { return ColdStartDeclined; }
      }
      ghost var cold := old(watermark).None?;
      assert cold ==> safes - rows.Keys == {};
      outcome := Advance(head.value, safes, h, commits, diesBeforeMark);
    }
  }
}
