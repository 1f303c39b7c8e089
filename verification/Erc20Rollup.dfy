/**
 The ERC-20 run as it changes its tables: pairs, the two watermark rows and the read
 model of holdings, tied step by step to the states of the protocol.
 */
module Erc20Rollup {
  import opened Options
  import opened Ordering
  import opened Ledger
  import opened NativeBalances
  import opened Erc20Balances
  import opened Erc20Protocol
  import opened TokenHoldings

  datatype Outcome = NothingSettled | NeverBackfilled | WatermarkAhead | Died | Completed(from: nat, head: nat)

  class PairTable {
    var pairs: Pairs
    var watermark: Option<nat>
    var marker: Option<Stamp>
    ghost var holdings: map<Address, Holding>

    constructor (pairs: Pairs, watermark: Option<nat>, marker: Option<Stamp>)
      ensures this.pairs == pairs && this.watermark == watermark && this.marker == marker && holdings == map[]
    {
      this.pairs, this.watermark, this.marker, holdings := pairs, watermark, marker, map[];
    }

    /** The tables hold what the protocol's state says, with nobody at work. */
    ghost predicate Shows(s: State)
      reads this
    {
      pairs == s.pairs && watermark == Some(s.watermark) && marker == s.marker && s.worker.Idle?
    }

    /** The recompute of the seed step, in batches of addresses. */
    method SumUpto(addresses: seq<Address>, upto: nat, h: seq<Movement<Pair>>) returns (balances: Pairs)
      ensures balances == BalancesUpto(Members(addresses), upto, h)
    {
      balances := map[];
      var offset := 0;
      while offset < |addresses|
        invariant offset <= |addresses|
        invariant balances == BalancesUpto(Members(addresses[..offset]), upto, h)
      {
        var next := Min(offset + SEED_BATCH, |addresses|);
        ghost var before := Members(addresses[..offset]);
        var batch := Members(addresses[offset..next]);
        assert addresses[..next] == addresses[..offset] + addresses[offset..next];
        assert Members(addresses[..next]) == before + batch;
        balances := balances + BalancesUpto(batch, upto, h);
        offset := next;
      }
      assert addresses[..offset] == addresses;
    }

    method SeedMissing(addresses: seq<Address>, upto: nat, h: seq<Movement<Pair>>)
      returns (processed: nat, inserted: nat)
      modifies this`pairs
      ensures pairs == SeedPairs(old(pairs), Members(addresses), upto, h)
      ensures processed == |addresses|
      ensures inserted == |BalancesUpto(Members(addresses), upto, h)|
    {
      var balances := SumUpto(addresses, upto, h);
      pairs := balances + pairs;
      processed, inserted := |addresses|, |balances|;
    }

    /** Two statements: the upsert, then the delete of the rows it left at zero. */
    method ApplyDelta(safes: Safes, from: nat, head: nat, boundary: Stamp, h: seq<Movement<Pair>>)
      returns (upserted: nat, deleted: nat)
      modifies this`pairs
      ensures pairs == DeltaPairs(old(pairs), CoveredSafes(safes, boundary), from, head, h)
      ensures upserted == |DeltaKeys(CoveredSafes(safes, boundary), from, head, h)|
      ensures deleted == |set k | k in DeltaKeys(CoveredSafes(safes, boundary), from, head, h) && k !in pairs|
      ensures deleted <= upserted
    {
      var keys := DeltaKeys(CoveredSafes(safes, boundary), from, head, h);
      pairs := Upserted(pairs, CoveredSafes(safes, boundary), from, head, h);
      var zeroed := set k | k in keys && pairs[k] == 0;
      SubsetSize(zeroed, keys);
      pairs := pairs - zeroed;
      assert zeroed == set k | k in keys && k !in pairs;
      upserted, deleted := |keys|, |zeroed|;
    }

    /** Seed the plan's Safes at the old watermark: a commit of its own. */
    method SeedPlan(plan: Plan, from: nat, h: seq<Movement<Pair>>)
      modifies this`pairs
      ensures pairs == SeedPairs(old(pairs), SeedAddresses(plan), from, h)
    {
      var addresses := seq(|plan.seeds|, i requires 0 <= i < |plan.seeds| => plan.seeds[i].address);
      assert Members(addresses) == SeedAddresses(plan) by {
        assert forall i :: 0 <= i < |plan.seeds| ==> addresses[i] == plan.seeds[i].address;
        assert forall x :: x in plan.seeds ==> exists i :: 0 <= i < |plan.seeds| && addresses[i] == x.address;
      }
      var processed, inserted := SeedMissing(addresses, from, h);
    }

    /** The atomic half: delta, watermark, marker and the read model together. */
    method MarkPlan(plan: Plan, safes: Safes, from: nat, head: nat, h: seq<Movement<Pair>>)
      modifies this
      ensures pairs == DeltaPairs(old(pairs), CoveredSafes(safes, plan.boundary), from, head, h)
      ensures watermark == Some(head) && marker == Some(plan.boundary)
      ensures holdings == Rebuild(pairs, safes.Keys)
    {
      var upserted, deleted := ApplyDelta(safes, from, head, plan.boundary, h);
      watermark, marker := Some(head), Some(plan.boundary);
      holdings := Rebuild(pairs, safes.Keys);
    }

    /**
     One incremental pass over any state the protocol allows. `listing` is the Safe
     table by (created, address); `s` is the state the tables show.
     */
    method Run(chain: ChainView, reorgBlocks: nat, safes: Safes, listing: seq<Stamp>, boundary: Stamp,
               h: seq<Movement<Pair>>, dies: bool, ghost s: State)
      returns (outcome: Outcome)
      requires Ascending(listing, BY_CREATION) && forall x :: x in listing <==> x in Stamps(safes)
      requires watermark.Some? ==>
                 && Sound(s) && Shows(s) && AtMost(s.horizon, boundary)
                 && s.chain == chain && s.reorgBlocks == reorgBlocks && s.safes == safes && s.h == h
      modifies this
      ensures outcome.NothingSettled? <==> HeadBlock(chain, reorgBlocks).None?
      ensures outcome.NeverBackfilled? <==> HeadBlock(chain, reorgBlocks).Some? && old(watermark).None?
      ensures outcome.WatermarkAhead? <==>
                && HeadBlock(chain, reorgBlocks).Some? && old(watermark).Some?
                && old(watermark).value > HeadBlock(chain, reorgBlocks).value
      ensures outcome.Died? <==>
                && HeadBlock(chain, reorgBlocks).Some? && old(watermark).Some?
                && old(watermark).value <= HeadBlock(chain, reorgBlocks).value && dies
      // A refusal changes nothing, and a death after the seed only what was seeded.
      ensures !outcome.Completed? ==> watermark == old(watermark) && marker == old(marker) && holdings == old(holdings)
      ensures !outcome.Completed? && !outcome.Died? ==> pairs == old(pairs)
      ensures outcome.Died? ==>
                var died := Seed(Start(s, boundary, HeadBlock(chain, reorgBlocks).value)).(worker := Idle);
                Sound(died) && Shows(died)
      // A completed pass is the protocol's seed and mark, with a read model that accounts for every pair.
      ensures outcome.Completed? ==>
                var final := Mark(Seed(Start(s, boundary, outcome.head)));
                && HeadBlock(chain, reorgBlocks) == Some(outcome.head) && Some(outcome.from) == old(watermark)
                && Sound(final) && Shows(final) && final.watermark == outcome.head
                && holdings == Rebuild(pairs, safes.Keys)
                && Holders(holdings) + NegativePairs(holdings) + |Orphans(pairs, safes.Keys)| == |pairs|
    {
      var head := HeadBlock(chain, reorgBlocks);
      if head.None? { return Outcome.NothingSettled; }
      if watermark.None? { return NeverBackfilled; }
      var from := watermark.value;
      if from > head.value { return Outcome.WatermarkAhead; }
      var plan := PlanFrom(listing, marker, boundary);
      PlanFromListing(listing, safes, marker, boundary);
      StartKeepsSound(s, boundary);
      ghost var started := Start(s, boundary, head.value);
      SeedKeepsSound(started);
      SeedPlan(plan, from, h);
      if dies {
        SoundKept(Seed(started), Die);
        return Outcome.Died;
      }
      MarkKeepsSound(Seed(started));
      MarkPlan(plan, safes, from, head.value, h);
      ghost var final := Mark(Seed(started));
      RollupConservesPairs(pairs, safes, final.reach, head.value, h);
      outcome := Outcome.Completed(from, head.value);
    }
  }
}
