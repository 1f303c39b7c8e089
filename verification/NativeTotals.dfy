/**
 The fleet's native balance, totalled three ways: keyset batches over the Safe
 table, sixteen hex-prefix shards and a reduce, and one read of the rollup.
 Every way clamps an overdrawn Safe to zero and leaves it out of the count.
 */
module NativeTotals {
  import opened Options
  import opened Ledger
  import opened Ordering
  import opened NativeBalances
  import opened Sums

  const BATCH: nat := 5000
  const SHARDS: nat := 16

  datatype Totals = Totals(wei: int, safes: nat)

  const NOTHING: Totals := Totals(0, 0)

  function Plus(x: Totals, y: Totals): Totals { Totals(x.wei + y.wei, x.safes + y.safes) }

  function Clamp(x: int): nat { if x > 0 then x else 0 }

  // ------------------------------------------------------------- one batch query

  /** SUM over the whole table, with no block bound. */
  function Flow(h: seq<Movement<Address>>, a: Address): int {
    if h == [] then 0 else Effect(h[0], a) + Flow(h[1..], a)
  }

  /** Addresses the UNION ALL yields a row for. */
  function Mentioned(h: seq<Movement<Address>>): set<Address> {
    if h == [] then {} else Parties(h[0]) + Mentioned(h[1..])
  }

  /** The batch aggregate: one group per address that has transfers, clamped, then summed. */
  function BatchQuery(batch: seq<Address>, h: seq<Movement<Address>>): Totals {
    if batch == [] then NOTHING
    else
      var rest := BatchQuery(batch[1..], h);
      var balance := Flow(h, batch[0]);
      if batch[0] in Mentioned(h) && balance > 0 then Totals(rest.wei + balance, rest.safes + 1) else rest
  }

  // --------------------------------------------------------------- what is totalled

  ghost function Clamped(h: seq<Movement<Address>>): Address -> int { (a: Address) => Clamp(Flow(h, a)) }

  function Holding(s: set<Address>, h: seq<Movement<Address>>): set<Address> {
    set a | a in s && Flow(h, a) > 0
  }

  /** The specification: what the Safes of `s` hold together, and how many of them hold anything. */
  ghost function TotalsOf(s: set<Address>, h: seq<Movement<Address>>): Totals {
    Totals(SumOver(s, Clamped(h)), |Holding(s, h)|)
  }

  lemma {:induction false} UnmentionedHasNoFlow(h: seq<Movement<Address>>, a: Address)
    requires a !in Mentioned(h)
    ensures Flow(h, a) == 0
  {
    if h != [] { UnmentionedHasNoFlow(h[1..], a); }
  }

  lemma TotalsSplit(a: set<Address>, b: set<Address>, h: seq<Movement<Address>>)
    requires a !! b
    ensures TotalsOf(a + b, h) == Plus(TotalsOf(a, h), TotalsOf(b, h))
  {
    SumUnion(a, b, Clamped(h));
    HoldingSplit(a, b, h);
  }

  lemma HoldingSplit(a: set<Address>, b: set<Address>, h: seq<Movement<Address>>)
    requires a !! b
    ensures |Holding(a + b, h)| == |Holding(a, h)| + |Holding(b, h)|
  {
    var x, y := Holding(a, h), Holding(b, h);
    assert Holding(a + b, h) == x + y;
    assert x !! y;
    assert |x + y| == |x| + |y|;
  }

  lemma TotalsOfNone(h: seq<Movement<Address>>)
    ensures TotalsOf({}, h) == NOTHING
  {
    assert Holding({}, h) == {};
  }

  lemma TotalsOfOne(a: Address, h: seq<Movement<Address>>)
    ensures TotalsOf({a}, h) == Totals(Clamp(Flow(h, a)), if Flow(h, a) > 0 then 1 else 0)
  {
    SumRemove({a}, Clamped(h), a);
    assert {a} - {a} == {};
    assert Holding({a}, h) == if Flow(h, a) > 0 then {a} else {};
  }

  lemma TotalsWithOne(a: Address, s: set<Address>, h: seq<Movement<Address>>)
    requires a !in s
    ensures TotalsOf({a} + s, h).wei == Clamp(Flow(h, a)) + TotalsOf(s, h).wei
    ensures TotalsOf({a} + s, h).safes == (if Flow(h, a) > 0 then 1 else 0) + TotalsOf(s, h).safes
  {
    TotalsSplit({a}, s, h);
    TotalsOfOne(a, h);
  }

  /** Skipping the Safes with no transfer at all skips nothing of value. */
  lemma {:induction false} BatchQueryTotals(batch: seq<Address>, h: seq<Movement<Address>>)
    requires Distinct(batch)
    ensures BatchQuery(batch, h) == TotalsOf(Members(batch), h)
  {
    if batch == [] {
      TotalsOfNone(h);
      assert Members(batch) == {};
    } else {
      MembersOfTail(batch);
      BatchQueryTotals(batch[1..], h);
      TotalsWithOne(batch[0], Members(batch[1..]), h);
      if batch[0] !in Mentioned(h) { UnmentionedHasNoFlow(h, batch[0]); }
    }
  }

  // ------------------------------------------------------------- keyset batches

  lemma AscendingAddresses(xs: seq<Address>)
    requires Ascending(xs, BY_ADDRESS)
    ensures Distinct(xs)
  {
    assert forall i, j :: 0 <= i < j < |xs| ==> BY_ADDRESS(xs[i], xs[j]);
  }

  function Above(index: seq<Address>, last: Option<Address>): set<Address> {
    set a | a in index && (last.None? || a > last.value)
  }

  /** `start` is where the keyset condition first holds. */
  ghost predicate StartsAt(index: seq<Address>, last: Option<Address>, start: nat) {
    && start <= |index|
    && (forall i :: 0 <= i < start ==> last.Some? && index[i] <= last.value)
    && (forall i :: start <= i < |index| ==> last.None? || index[i] > last.value)
  }

  /** So the page is the first `limit` of the rows the condition keeps, in key order. */
  lemma PageIsTheQuery(index: seq<Address>, last: Option<Address>, start: nat, limit: nat)
    requires Ascending(index, BY_ADDRESS) && StrictOrder(BY_ADDRESS) && StartsAt(index, last, start)
    ensures Page(Above(index, last), BY_ADDRESS, limit) == index[start..Min(start + limit, |index|)]
  {
    SuffixIsListing(index, last, start);
    SliceOfSuffix(index, start, limit);
  }

  lemma SliceOfSuffix<T>(xs: seq<T>, start: nat, limit: nat)
    requires start <= |xs|
    ensures xs[start..][..Min(limit, |xs[start..]|)] == xs[start..Min(start + limit, |xs|)]
  {
  }

  lemma SuffixIsListing(index: seq<Address>, last: Option<Address>, start: nat)
    requires Ascending(index, BY_ADDRESS) && StrictOrder(BY_ADDRESS) && StartsAt(index, last, start)
    ensures Listing(Above(index, last), BY_ADDRESS) == index[start..]
  {
    var above, rest := Above(index, last), index[start..];
    forall a
      ensures a in above <==> a in rest
    {
      if a in above {
        var i :| 0 <= i < |index| && index[i] == a;
        assert rest[i - start] == a;
      }
    }
    SuffixAscends(index, start);
    AscendingUnique(Listing(above, BY_ADDRESS), rest, BY_ADDRESS);
  }

  lemma SuffixAscends(index: seq<Address>, start: nat)
    requires Ascending(index, BY_ADDRESS) && start <= |index|
    ensures Ascending(index[start..], BY_ADDRESS)
  {
  }

  lemma InOrder(index: seq<Address>, i: nat, j: nat)
    requires Ascending(index, BY_ADDRESS) && i < j < |index|
    ensures index[i] < index[j]
  {
    assert BY_ADDRESS(index[i], index[j]);
  }

  /** The last address of the page before, when `done` rows have been read. */
  function LastRead(index: seq<Address>, done: nat): Option<Address>
    requires done <= |index|
  {
    if done == 0 then None else Some(index[done - 1])
  }

  /** So the keyset condition holds from position `done` on, and the page is the query's. */
  lemma KeysetResumes(index: seq<Address>, done: nat)
    requires Ascending(index, BY_ADDRESS) && done <= |index|
    ensures StartsAt(index, LastRead(index, done), done)
  {
    forall i | 0 <= i < done
      ensures index[i] <= index[done - 1]
    {
      if i < done - 1 { InOrder(index, i, done - 1); }
    }
    if done > 0 {
      forall i | done <= i < |index|
        ensures index[i] > index[done - 1]
      {
        InOrder(index, done - 1, i);
      }
    }
  }

  /** Resuming above the last address read, the query's page is the next slice: no row skipped, none repeated. */
  lemma PagesAreConsecutive(index: seq<Address>, done: nat, limit: nat)
    requires Ascending(index, BY_ADDRESS) && done <= |index|
    ensures StrictOrder(BY_ADDRESS)
    ensures Page(Above(index, LastRead(index, done)), BY_ADDRESS, limit) == index[done..Min(done + limit, |index|)]
  {
    AddressOrderIsStrict();
    KeysetResumes(index, done);
    PageIsTheQuery(index, LastRead(index, done), done, limit);
  }

  /** Rows of the primary-key index strictly above the last address read, at most `limit` of them. */
  method NextPage(index: seq<Address>, last: Option<Address>, limit: nat, ghost done: nat) returns (page: seq<Address>)
    requires Ascending(index, BY_ADDRESS) && done <= |index| && last == LastRead(index, done)
    ensures page == index[done..Min(done + limit, |index|)]
  {
    KeysetResumes(index, done);
    var i := 0;
    while i < |index| && last.Some? && index[i] <= last.value
      invariant i <= done
    {
      i := i + 1;
    }
    page := index[i..Min(i + limit, |index|)];
  }

  /** Of the first `done` Safes, `counted` holds those whose batch did not fail. */
  ghost predicate CountedUpTo(index: seq<Address>, done: nat, fails: nat -> bool, counted: set<Address>) {
    && done <= |index|
    && counted <= Members(index[..done])
    && forall i :: 0 <= i < done ==> (index[i] in counted <==> !fails(i / BATCH))
  }

  ghost function WithBatch(counted: set<Address>, page: seq<Address>, failed: bool): set<Address> {
    if failed then counted else counted + Members(page)
  }

  lemma CountBatch(index: seq<Address>, done: nat, page: seq<Address>, number: nat, fails: nat -> bool,
                   counted: set<Address>)
    requires Distinct(index) && CountedUpTo(index, done, fails, counted)
    requires done == number * BATCH && |page| <= BATCH && done + |page| <= |index|
    requires page == index[done..done + |page|]
    ensures Distinct(page) && counted !! Members(page)
    ensures CountedUpTo(index, done + |page|, fails, WithBatch(counted, page, fails(number)))
  {
    var next := done + |page|;
    assert forall i :: done <= i < next ==> i / BATCH == number && page[i - done] == index[i];
    assert index[..next] == index[..done] + page;
    assert forall i :: 0 <= i < done ==> index[..done][i] == index[i];
    assert Members(index[..done]) !! Members(page);
  }

  lemma AddBatch(counted: set<Address>, page: seq<Address>, h: seq<Movement<Address>>)
    requires Distinct(page) && counted !! Members(page)
    ensures TotalsOf(counted + Members(page), h) == Plus(TotalsOf(counted, h), BatchQuery(page, h))
  {
    BatchQueryTotals(page, h);
    TotalsSplit(counted, Members(page), h);
  }

  lemma AllCounted(index: seq<Address>, fails: nat -> bool, counted: set<Address>)
    requires CountedUpTo(index, |index|, fails, counted)
    ensures counted <= Members(index)
    ensures (forall n :: !fails(n)) ==> counted == Members(index)
  {
    assert index[..|index|] == index;
  }

  /** One batch of the loop: its Safes join the count, or are left out with it. */
  lemma BatchCounts(index: seq<Address>, done: nat, page: seq<Address>, number: nat, fails: nat -> bool,
                    counted: set<Address>, t: Totals, h: seq<Movement<Address>>)
    requires Distinct(index) && Tallied(index, done, fails, counted, t, h)
    requires done == number * BATCH && |page| <= BATCH && done + |page| <= |index|
    requires page == index[done..done + |page|]
    ensures Tallied(index, done + |page|, fails, WithBatch(counted, page, fails(number)),
                    if fails(number) then t else Plus(t, BatchQuery(page, h)), h)
  {
    CountBatch(index, done, page, number, fails, counted);
    if !fails(number) { AddBatch(counted, page, h); }
  }

  ghost predicate Tallied(index: seq<Address>, done: nat, fails: nat -> bool, counted: set<Address>,
                          t: Totals, h: seq<Movement<Address>>) {
    CountedUpTo(index, done, fails, counted) && t == TotalsOf(counted, h)
  }

  lemma AfterPage(index: seq<Address>, done: nat, page: seq<Address>)
    requires done <= |index| && page != [] && page == index[done..Min(done + BATCH, |index|)]
    ensures done + |page| <= |index| && LastRead(index, done + |page|) == Some(page[|page| - 1])
    ensures page == index[done..done + |page|] && (|page| == BATCH || done + |page| == |index|) && |page| <= BATCH
  {
  }

  /**
   The sequential path. `fails(n)` says that the query of batch `n` fails; such a
   batch is logged and skipped. Each Safe is counted once, and left out exactly
   when its own batch failed.
   */
  method SequentialTotals(index: seq<Address>, h: seq<Movement<Address>>, fails: nat -> bool)
    returns (t: Totals, processed: nat, ghost counted: set<Address>)
    requires Ascending(index, BY_ADDRESS)
    ensures processed == |index|
    ensures counted <= Members(index) && t == TotalsOf(counted, h)
    ensures forall i :: 0 <= i < |index| ==> (index[i] in counted <==> !fails(i / BATCH))
    ensures (forall n :: !fails(n)) ==> t == TotalsOf(Members(index), h)
  {
    AscendingAddresses(index);
    t, processed, counted := NOTHING, 0, {};
    TotalsOfNone(h);
    var number := 0;
    var last: Option<Address> := None;
    var page := NextPage(index, last, BATCH, processed);
    while page != []
      invariant Tallied(index, processed, fails, counted, t, h)
      invariant page == index[processed..Min(processed + BATCH, |index|)]
      invariant processed == |index| || processed == number * BATCH
      decreases |index| - processed
    {
      AfterPage(index, processed, page);
      BatchCounts(index, processed, page, number, fails, counted, t, h);
      if !fails(number) { t := Plus(t, BatchQuery(page, h)); }
      counted := WithBatch(counted, page, fails(number));
      processed, number, last := processed + |page|, number + 1, Some(page[|page| - 1]);
      page := NextPage(index, last, BATCH, processed);
    }
    AllCounted(index, fails, counted);
  }

  // ------------------------------------------------------------- hex-prefix shards

  /** 16^39: how many addresses share a first hex digit. */
  const SPAN: int := 0x1000_0000_0000_0000_0000_0000_0000_0000_0000_0000

  type Nibble = n: nat | n < SHARDS

  /** The primary-key range `[N0...00, NF...FF]` of one shard. */
  predicate InShard(a: Address, prefix: Nibble) {
    prefix * SPAN <= a <= prefix * SPAN + (SPAN - 1)
  }

  function ShardOf(safes: set<Address>, prefix: Nibble): set<Address> {
    set a | a in safes && InShard(a, prefix)
  }

  /** Every address is in one shard and one only. */
  lemma ShardsPartition(a: Address, prefix: Nibble)
    ensures InShard(a, prefix) <==> prefix == a / SPAN
    ensures 0 <= a / SPAN < SHARDS
  {
  }

  /** What one shard task returns; a failed one is a zero stub. */
  datatype Shard = Shard(prefix: Nibble, totals: Totals, failed: bool)

  /** The range scan, as one pass over the primary-key index. */
  method AddressesOf(index: seq<Address>, prefix: Nibble) returns (addresses: seq<Address>)
    requires Ascending(index, BY_ADDRESS)
    ensures Distinct(addresses) && Members(addresses) == ShardOf(Members(index), prefix)
  {
    AscendingAddresses(index);
    addresses := [];
    for i := 0 to |index|
      invariant Distinct(addresses) && Members(addresses) == ShardOf(Members(index[..i]), prefix)
    {
      assert index[..i + 1] == index[..i] + [index[i]];
      assert index[i] !in index[..i];
      if InShard(index[i], prefix) {
        assert index[i] !in Members(addresses);
        assert Members(addresses + [index[i]]) == Members(addresses) + {index[i]};
        addresses := addresses + [index[i]];
      }
    }
    assert index[..|index|] == index;
  }

  /** The batched aggregate over an explicit address list. */
  method TotalsForAddresses(addresses: seq<Address>, h: seq<Movement<Address>>) returns (t: Totals)
    requires Distinct(addresses)
    ensures t == TotalsOf(Members(addresses), h)
  {
    t := NOTHING;
    TotalsOfNone(h);
    var offset := 0;
    assert Members(addresses[..0]) == {};
    while offset < |addresses|
      invariant offset <= |addresses| && t == TotalsOf(Members(addresses[..offset]), h)
    {
      var next := Min(offset + BATCH, |addresses|);
      var batch := addresses[offset..next];
      SliceApart(addresses, offset, next);
      AddBatch(Members(addresses[..offset]), batch, h);
      t := Plus(t, BatchQuery(batch, h));
      offset := next;
    }
    assert addresses[..offset] == addresses;
  }

  lemma SliceApart(xs: seq<Address>, i: nat, j: nat)
    requires Distinct(xs) && i <= j <= |xs|
    ensures Distinct(xs[i..j]) && Members(xs[..i]) !! Members(xs[i..j])
    ensures Members(xs[..j]) == Members(xs[..i]) + Members(xs[i..j])
  {
    assert xs[..j] == xs[..i] + xs[i..j];
    assert forall k :: 0 <= k < i ==> xs[..i][k] == xs[k];
    assert forall k :: i <= k < j ==> xs[i..j][k - i] == xs[k];
  }

  /** One shard. `fails` is a timeout or a broken connection anywhere inside it. */
  method ComputeShard(index: seq<Address>, prefix: Nibble, h: seq<Movement<Address>>, fails: bool) returns (s: Shard)
    requires Ascending(index, BY_ADDRESS)
    ensures Honest(s, prefix, Members(index), h) && s.failed == fails
  {
    if fails { return Shard(prefix, NOTHING, true); }
    var addresses := AddressesOf(index, prefix);
    var t := TotalsForAddresses(addresses, h);
    s := Shard(prefix, t, false);
  }

  /** A shard either failed or covers its whole prefix. */
  ghost predicate Honest(s: Shard, prefix: Nibble, safes: set<Address>, h: seq<Movement<Address>>) {
    s.prefix == prefix && (!s.failed ==> s.totals == TotalsOf(ShardOf(safes, prefix), h))
  }

  datatype Reduced = Reduced(totals: Totals, partialShards: nat, totalShards: nat)

  /** The chord callback; `None` is an entry lost to a task timeout. */
  function Reduce(shards: seq<Option<Shard>>): Reduced {
    if shards == [] then Reduced(NOTHING, 0, 0)
    else
      var rest := Reduce(shards[..|shards| - 1]);
      var last := shards[|shards| - 1];
      if last.Some? && !last.value.failed
      then Reduced(Plus(rest.totals, last.value.totals), rest.partialShards, rest.totalShards + 1)
      else Reduced(rest.totals, rest.partialShards + 1, rest.totalShards + 1)
  }

  predicate Usable(shards: seq<Option<Shard>>, i: nat) {
    i < |shards| && shards[i].Some? && !shards[i].value.failed
  }

  /** The Safes whose shard came back. */
  function Covered(shards: seq<Option<Shard>>, safes: set<Address>): set<Address> {
    set a | a in safes && Usable(shards, a / SPAN)
  }

  ghost predicate Chord(shards: seq<Option<Shard>>, safes: set<Address>, h: seq<Movement<Address>>) {
    |shards| <= SHARDS &&
    forall i :: 0 <= i < |shards| && shards[i].Some? ==> Honest(shards[i].value, i, safes, h)
  }

  /** However many shards fail or go missing, the reduce totals exactly the Safes of the shards that came back. */
  lemma {:induction false} ReduceTotals(shards: seq<Option<Shard>>, safes: set<Address>, h: seq<Movement<Address>>)
    requires Chord(shards, safes, h)
    ensures Reduce(shards).totals == TotalsOf(Covered(shards, safes), h)
  {
    if shards == [] {
      TotalsOfNone(h);
      assert Covered(shards, safes) == {};
    } else {
      var n := |shards| - 1;
      var init := shards[..n];
      assert forall i :: 0 <= i < n ==> init[i] == shards[i];
      ReduceTotals(init, safes, h);
      CoveredGrows(shards, safes);
      TotalsSplit(Covered(init, safes), ShardOf(safes, n), h);
    }
  }

  function Lost(shards: seq<Option<Shard>>): set<nat> {
    set i: nat | i < |shards| && !Usable(shards, i)
  }

  /** And it says how many did not come back. */
  lemma {:induction false} ReduceCountsLosses(shards: seq<Option<Shard>>)
    ensures Reduce(shards).totalShards == |shards| && Reduce(shards).partialShards == |Lost(shards)|
  {
    if shards != [] {
      var n := |shards| - 1;
      var init := shards[..n];
      assert forall i: nat :: i < n ==> Usable(init, i) == Usable(shards, i);
      ReduceCountsLosses(init);
      assert Lost(shards) == if Usable(shards, n) then Lost(init) else Lost(init) + {n};
    } else {
      assert Lost(shards) == {};
    }
  }

  lemma CoveredGrows(shards: seq<Option<Shard>>, safes: set<Address>)
    requires 0 < |shards| <= SHARDS
    ensures var n := |shards| - 1;
            var before := Covered(shards[..n], safes);
            && before !! ShardOf(safes, n)
            && Covered(shards, safes) == if Usable(shards, n) then before + ShardOf(safes, n) else before
  {
    var n := |shards| - 1;
    forall a | a in safes
      ensures a in ShardOf(safes, n) <==> a / SPAN == n
      ensures Usable(shards[..n], a / SPAN) <==> a / SPAN != n && Usable(shards, a / SPAN)
    {
      ShardsPartition(a, n);
    }
  }

  // ----------------------------------------------------------------- the rollup read

  datatype RollupRead = RollupRead(totals: Totals, rows: nat, updatedTo: nat)

  ghost function RowBalance(rows: Rows): Address -> int {
    (a: Address) => if a in rows then Clamp(rows[a].balance) else 0
  }

  ghost function ReadRollup(rows: Rows, watermark: Option<nat>): Option<RollupRead> {
    if watermark.None? then None else
      Some(RollupRead(Totals(SumOver(rows.Keys, RowBalance(rows)), |set a | a in rows && rows[a].balance > 0|),
                      |rows|, watermark.value))
  }

  lemma {:induction false} FlowIsBalance(h: seq<Movement<Address>>, a: Address, b: int)
    ensures Flow(Cut(h, b), a) == BalanceAt(h, a, b)
  {
    if h != [] { FlowIsBalance(h[1..], a, b); }
  }

  /** Reading rows that stand at `b` totals, over their keys, the history cut at `b`. */
  lemma ReadTotals(rows: Rows, b: nat, h: seq<Movement<Address>>)
    requires RowsAt(rows, h, b)
    ensures ReadRollup(rows, Some(b)).value.totals == TotalsOf(rows.Keys, Cut(h, b))
  {
    forall a | a in rows
      ensures rows[a].balance == Flow(Cut(h, b), a)
    {
      FlowIsBalance(h, a, b);
    }
    SumSame(rows.Keys, RowBalance(rows), Clamped(Cut(h, b)));
    assert Holding(rows.Keys, Cut(h, b)) == set a | a in rows && rows[a].balance > 0;
  }

  lemma EitherWay(x: set<Address>, y: set<Address>, h: seq<Movement<Address>>)
    ensures Plus(TotalsOf(x, h), TotalsOf(y - x, h)) == Plus(TotalsOf(y, h), TotalsOf(x - y, h))
  {
    TotalsSplit(x, y - x, h);
    TotalsSplit(y, x - y, h);
    assert x + (y - x) == y + (x - y);
  }

  /**
   How far the read can be from the recompute: the Safes not seeded yet on one side,
   rows of Safes that are gone on the other, and nothing else.
   */
  lemma ReadMisses(rows: Rows, safes: set<Address>, b: nat, h: seq<Movement<Address>>)
    requires RowsAt(rows, h, b)
    ensures Plus(ReadRollup(rows, Some(b)).value.totals, TotalsOf(safes - rows.Keys, Cut(h, b)))
            == Plus(TotalsOf(safes, Cut(h, b)), TotalsOf(rows.Keys - safes, Cut(h, b)))
  {
    ReadTotals(rows, b, h);
    EitherWay(rows.Keys, safes, Cut(h, b));
  }

  /**
   With no failed batch and no failed shard, and a row for each Safe, the three ways
   publish the same pair: `sequential` is what SequentialTotals ensures, `shards` what
   sixteen runs of ComputeShard ensure, each over the history cut at the watermark.
   */
  lemma ThreeWaysAgree(rows: Rows, safes: set<Address>, b: nat, h: seq<Movement<Address>>,
                       sequential: Totals, shards: seq<Option<Shard>>)
    requires RowsAt(rows, h, b) && rows.Keys == safes
    requires sequential == TotalsOf(safes, Cut(h, b))
    requires Chord(shards, safes, Cut(h, b)) && |shards| == SHARDS && Reduce(shards).partialShards == 0
    ensures ReadRollup(rows, Some(b)).value.totals == sequential == Reduce(shards).totals
  {
    ReadTotals(rows, b, h);
    ReduceTotals(shards, safes, Cut(h, b));
    ReduceCountsLosses(shards);
    assert Lost(shards) == {};
    AllCovered(shards, safes);
  }

  /** The chord: one task per prefix, none failing, and the reduce. */
  method ShardedTotals(index: seq<Address>, h: seq<Movement<Address>>) returns (r: Reduced)
    requires Ascending(index, BY_ADDRESS)
    ensures r.totals == TotalsOf(Members(index), h) && r.partialShards == 0 && r.totalShards == SHARDS
  {
    var shards: seq<Option<Shard>> := [];
    for n := 0 to SHARDS
      invariant |shards| == n && Chord(shards, Members(index), h)
      invariant forall i :: 0 <= i < n ==> Usable(shards, i)
    {
      var s := ComputeShard(index, n, h, false);
      ghost var before := shards;
      shards := shards + [Some(s)];
      assert forall i :: 0 <= i < n ==> shards[i] == before[i] && Usable(before, i);
    }
    r := Reduce(shards);
    ReduceCountsLosses(shards);
    assert Lost(shards) == {};
    ReduceTotals(shards, Members(index), h);
    AllCovered(shards, Members(index));
  }

  lemma AllCovered(shards: seq<Option<Shard>>, safes: set<Address>)
    requires |shards| == SHARDS && Lost(shards) == {}
    ensures Covered(shards, safes) == safes
  {
    forall a | a in safes
      ensures a in Covered(shards, safes)
    {
      ShardsPartition(a, 0);
      assert a / SPAN !in Lost(shards);
    }
  }

  /**
   All three over one history cut at the watermark, nothing failing and a row for each
   Safe: the same wei and the same count.
   */
  method TotalThreeWays(index: seq<Address>, rows: Rows, b: nat, h: seq<Movement<Address>>)
    returns (sequential: Totals, sharded: Reduced, ghost read: RollupRead)
    requires Ascending(index, BY_ADDRESS) && RowsAt(rows, h, b) && rows.Keys == Members(index)
    ensures ReadRollup(rows, Some(b)) == Some(read) && read.rows == |index| && read.updatedTo == b
    ensures sequential == sharded.totals == read.totals == TotalsOf(Members(index), Cut(h, b))
    ensures sharded.partialShards == 0
  {
    var processed: nat;
    ghost var counted: set<Address>;
    sequential, processed, counted := SequentialTotals(index, Cut(h, b), n => false);
    sharded := ShardedTotals(index, Cut(h, b));
    read := ReadRollup(rows, Some(b)).value;
    ReadTotals(rows, b, h);
    AscendingAddresses(index);
    DistinctCount(index);
  }
}
