/**
 Addresses that become Safes again: the seed leaves alone whatever is stored, so the
 pairs of an earlier life decide whether the balances of the new one are right.
 */
module Erc20Returns {
  import opened Options
  import opened Ordering
  import opened Ledger
  import opened NativeBalances
  import opened Erc20Balances
  import opened Erc20Protocol

  /** Seeding `a` at `b` gives each of its pairs the balance there. */
  ghost predicate SeedsRight(pairs: Pairs, a: Address, b: nat, h: seq<Movement<Pair>>) {
    forall k: Pair :: k.safe == a ==> Stored(SeedPairs(pairs, {a}, b, h), k) == BalanceAt(h, k, b)
  }

  /**
   The next seed of an address that is not a Safe now is right for every history under
   which the table is right for the Safes there are, exactly when no pair of it is stored.
   */
  lemma ReturningIsRightExactlyWhen(pairs: Pairs, safes: Safes, upTo: Option<Stamp>, b: nat, h0: seq<Movement<Pair>>,
                                    a: Address)
    requires Stands(pairs, safes, upTo, b, h0) && a !in safes
    ensures (forall k :: k in pairs ==> k.safe != a) <==>
              forall h :: Stands(pairs, safes, upTo, b, h) ==> SeedsRight(pairs, a, b, h)
  {
    if forall k :: k in pairs ==> k.safe != a {
      forall h | Stands(pairs, safes, upTo, b, h)
        ensures SeedsRight(pairs, a, b, h)
      {
        forall k: Pair | k.safe == a
          ensures Stored(SeedPairs(pairs, {a}, b, h), k) == BalanceAt(h, k, b)
        {
          SeedStores(pairs, {a}, b, h, k);
        }
      }
    } else {
      var p :| p in pairs && p.safe == a;
      var h1 := Paying(1, p, b, h0);
      forall k: Pair
        ensures BalanceAt(h1, k, b) == BalanceAt(h0, k, b) + (if k == p then 1 else 0)
      {
        OnePayment(1, p, b, h0, k, b);
      }
      assert Stands(pairs, safes, upTo, b, h1);
      SeedStores(pairs, {a}, b, h0, p);
      SeedStores(pairs, {a}, b, h1, p);
      assert !SeedsRight(pairs, a, b, h0) || !SeedsRight(pairs, a, b, h1);
    }
  }

  /** The table after a run that seeds `who` at `from` and moves the Safes of `covered` to `head`. */
  function AfterRun(pairs: Pairs, who: set<Address>, covered: set<Address>, from: nat, head: nat,
                    h: seq<Movement<Pair>>): Pairs {
    DeltaPairs(SeedPairs(pairs, who, from, h), covered, from, head, h)
  }

  /**
   An address that leaves after a run planned its seed and returns above the run's
   boundary is seeded at the old watermark and left out of the delta: its own seed at
   the new watermark is right for every history exactly when the plan does not list it,
   or the run does not move the watermark.
   */
  lemma PlannedReturnIsRightExactlyWhen(pairs: Pairs, who: set<Address>, covered: set<Address>, from: nat, head: nat,
                                        a: Address)
    requires NoZeroRow(pairs) && a !in covered && from <= head && forall k :: k in pairs ==> k.safe != a
    ensures (a !in who || from == head) <==>
              forall h :: SeedsRight(AfterRun(pairs, who, covered, from, head, h), a, head, h)
  {
    if a !in who || from == head {
      forall h
        ensures SeedsRight(AfterRun(pairs, who, covered, from, head, h), a, head, h)
      {
        RunStoresFor(pairs, who, covered, from, head, a, h);
      }
    } else {
      var k := Pair(a, 0);
      var h := Paying(1, k, head, []);
      var h2 := Paying(1, k, from, h);
      OnePayment(1, k, head, [], k, from);
      OnePayment(1, k, head, [], k, head);
      OnePayment(1, k, from, h, k, from);
      OnePayment(1, k, from, h, k, head);
      RunStores(pairs, who, covered, from, head, a, h2, k);
      SeedStores(AfterRun(pairs, who, covered, from, head, h2), {a}, head, h2, k);
      assert !SeedsRight(AfterRun(pairs, who, covered, from, head, h2), a, head, h2);
    }
  }

  lemma RunStores(pairs: Pairs, who: set<Address>, covered: set<Address>, from: nat, head: nat,
                                     a: Address, h: seq<Movement<Pair>>, k: Pair)
    requires NoZeroRow(pairs) && a !in covered && k.safe == a && forall p :: p in pairs ==> p.safe != a
    ensures var after := AfterRun(pairs, who, covered, from, head, h);
            && NoZeroRow(after)
            && Stored(after, k) == (if a in who then BalanceAt(h, k, from) else 0)
            && (k in after <==> Stored(after, k) != 0)
  {
    SeedStores(pairs, who, from, h, k);
    DeltaStores(SeedPairs(pairs, who, from, h), covered, from, head, h, k);
  }

  lemma RunStoresFor(pairs: Pairs, who: set<Address>, covered: set<Address>, from: nat, head: nat,
                                        a: Address, h: seq<Movement<Pair>>)
    requires NoZeroRow(pairs) && a !in covered && from <= head && forall k :: k in pairs ==> k.safe != a
    requires a !in who || from == head
    ensures SeedsRight(AfterRun(pairs, who, covered, from, head, h), a, head, h)
  {
    forall k: Pair | k.safe == a
      ensures Stored(SeedPairs(AfterRun(pairs, who, covered, from, head, h), {a}, head, h), k) == BalanceAt(h, k, head)
    {
      RunStores(pairs, who, covered, from, head, a, h, k);
      SeedStores(AfterRun(pairs, who, covered, from, head, h), {a}, head, h, k);
    }
  }

  // ------------------------------------------------------------------ one that is wrong

  const P: Pair := Pair(1, 2)
  const BEFORE_9: seq<Movement<Pair>> := Paying(5, P, 3, [])
  const THROUGH_9: seq<Movement<Pair>> := Paying(1, P, 7, BEFORE_9)
  const FIRST: Stamp := Stamp(1, 0)
  const SECOND: Stamp := Stamp(2, 1)

  function At(indexer: nat): ChainView { ChainView(Some(50), Some(100), Some(indexer)) }

  // Safe 1 holds 5 of token 2 at block 5, is dropped, is paid 1 more in block 7 while a
  // run moves the watermark to 9, and then returns.
  const HOLDING := State(
    BEFORE_9, At(5), 10, 5, map[1 := 0], FIRST, map[P := 5], 5, Some(FIRST), Some(FIRST), None, Idle)
  const DROPPED := HOLDING.(safes := map[])
  const PAID := DROPPED.(chain := At(9), h := THROUGH_9)
  const NOBODY := Plan([], FIRST)
  const RUNNING := PAID.(settled := 9, worker := Planned(5, 9, NOBODY, Origin(map[], FIRST)))
  const RUN_SEEDED := RUNNING.(unfinished := Some(Origin(map[], FIRST)), worker := Seeded(5, 9, NOBODY))
  const MOVED := RUN_SEEDED.(unfinished := None, watermark := 9, worker := Idle)
  const RETURNED := MOVED.(safes := map[1 := 2])
  const AGAIN := Plan([SECOND], SECOND)
  const RERUNNING := RETURNED.(horizon := SECOND, worker := Planned(9, 9, AGAIN, Origin(map[1 := 2], SECOND)))
  const RESEEDED := RERUNNING.(
    reach := Some(SECOND), unfinished := Some(Origin(map[1 := 2], SECOND)), worker := Seeded(9, 9, AGAIN))
  const WRONG := RESEEDED.(marker := Some(SECOND), unfinished := None, worker := Idle)

  const EVENTS: seq<Event> := [
    DropSafe(1), Index(At(9), THROUGH_9), StartRun(FIRST), CommitSeed, CommitMark,
    CreateSafe(1, 2), StartRun(SECOND), CommitSeed, CommitMark]

  ghost predicate Takes(s: State, e: Event, s': State) { Enabled(s, e) && Apply(s, e) == s' }

  lemma Replay(s: State, es: seq<Event>, s': State)
    requires es != [] && Takes(s, es[0], s') && Possible(s', es[1..])
    ensures Possible(s, es) && After(s, es) == After(s', es[1..])
  {
  }

  lemma Balances()
    ensures forall k :: BalanceAt(BEFORE_9, k, 5) == if k == P then 5 else 0
    ensures forall k :: BalanceAt(THROUGH_9, k, 9) == if k == P then 6 else 0
    ensures Cut(THROUGH_9, 5) == Cut(BEFORE_9, 5)
  {
    forall k
      ensures BalanceAt(BEFORE_9, k, 5) == if k == P then 5 else 0
      ensures BalanceAt(THROUGH_9, k, 9) == if k == P then 6 else 0
    {
      OnePayment(5, P, 3, [], k, 5);
      OnePayment(5, P, 3, [], k, 9);
      OnePayment(1, P, 7, BEFORE_9, k, 9);
    }
    assert THROUGH_9[1..] == BEFORE_9;
  }

  lemma PlansNobody()
    ensures MakePlan(map[], Some(FIRST), FIRST) == NOBODY
  {
    PlanIsARange(map[], Some(FIRST), FIRST);
    var plan := MakePlan(map[], Some(FIRST), FIRST);
    assert Stamps(map[]) == {};
    CreationOrderIsStrict();
    AscendingUnique(plan.seeds, [], BY_CREATION);
  }

  lemma PlansOne()
    ensures MakePlan(map[1 := 2], Some(FIRST), SECOND) == AGAIN
  {
    PlanIsARange(map[1 := 2], Some(FIRST), SECOND);
    var plan := MakePlan(map[1 := 2], Some(FIRST), SECOND);
    var one: Safes := map[1 := 2];
    assert 1 in one && Stamp(one[1], 1) == SECOND;
    assert SECOND in Stamps(one);
    CreationOrderIsStrict();
    var only := [SECOND];
    forall x
      ensures x in plan.seeds <==> x in only
    {
      assert x in Stamps(one) <==> x == SECOND;
      assert AtMost(plan.boundary, SECOND);
      if x in plan.seeds { assert x in Stamps(one); }
    }
    AscendingUnique(plan.seeds, only, BY_CREATION);
  }

  lemma SafeLeaves()
    ensures Takes(HOLDING, DropSafe(1), DROPPED) && Takes(DROPPED, Index(At(9), THROUGH_9), PAID)
  {
    Balances();
    assert HOLDING.safes - {1} == map[];
  }

  lemma RunStarts()
    ensures Takes(PAID, StartRun(FIRST), RUNNING)
  {
    PlansNobody();
  }

  lemma RunSeeds()
    ensures Takes(RUNNING, CommitSeed, RUN_SEEDED)
  {
    assert SeedAddresses(NOBODY) == {};
    assert SeedPairs(map[P := 5], {}, 5, THROUGH_9) == map[P := 5];
  }

  lemma RunMarks()
    ensures Takes(RUN_SEEDED, CommitMark, MOVED)
  {
    assert CoveredSafes(map[], FIRST) == {};
    assert DeltaPairs(map[P := 5], {}, 5, 9, THROUGH_9) == map[P := 5];
  }

  lemma SafeReturns()
    ensures Takes(MOVED, CreateSafe(1, 2), RETURNED) && !Blank(MOVED, CreateSafe(1, 2))
    ensures Takes(RETURNED, StartRun(SECOND), RERUNNING)
  {
    PlansOne();
    assert P in MOVED.pairs;
  }

  lemma SecondRun()
    ensures Takes(RERUNNING, CommitSeed, RESEEDED) && Takes(RESEEDED, CommitMark, WRONG)
  {
    assert SeedAddresses(AGAIN) == {1};
    Balances();
    assert forall k :: k in BalancesUpto({1}, 9, THROUGH_9) ==> k == P;
    assert SeedPairs(map[P := 5], {1}, 9, THROUGH_9) == map[P := 5];
    var who := CoveredSafes(map[1 := 2], SECOND);
    EmptyWindow(THROUGH_9, P, 9, 9);
    assert DeltaKeys(who, 9, 9, THROUGH_9) == {};
    assert DeltaPairs(map[P := 5], who, 9, 9, THROUGH_9) == map[P := 5];
  }

  lemma FirstHalf()
    ensures Possible(RETURNED, EVENTS[6..]) ==>
              Possible(HOLDING, EVENTS) && After(HOLDING, EVENTS) == After(RETURNED, EVENTS[6..])
  {
    SafeLeaves();
    RunStarts();
    RunSeeds();
    RunMarks();
    SafeReturns();
    var es := EVENTS;
    if Possible(RETURNED, es[6..]) {
      Replay(MOVED, es[5..], RETURNED);
      Replay(RUN_SEEDED, es[4..], MOVED);
      Replay(RUNNING, es[3..], RUN_SEEDED);
      Replay(PAID, es[2..], RUNNING);
      Replay(DROPPED, es[1..], PAID);
      Replay(HOLDING, es, DROPPED);
    }
  }

  lemma SecondHalf()
    ensures Possible(RETURNED, EVENTS[6..]) && After(RETURNED, EVENTS[6..]) == WRONG
  {
    SafeReturns();
    SecondRun();
    var es := EVENTS;
    assert Possible(WRONG, es[9..]);
    Replay(RESEEDED, es[8..], WRONG);
    Replay(RERUNNING, es[7..], RESEEDED);
    Replay(RETURNED, es[6..], RERUNNING);
  }

  /**
   A Safe dropped with tokens, paid while it is gone and indexed again is published at
   its old balance: the seed finds the pair there, and no delta ever saw the payment.
   */
  lemma ReturningSafeKeepsItsOldBalance()
    ensures HandedOver(HOLDING) && Possible(HOLDING, EVENTS) && After(HOLDING, EVENTS) == WRONG
    ensures 1 in WRONG.safes && Within(StampOf(WRONG.safes, 1), WRONG.marker) && WRONG.watermark == 9
    ensures Stored(WRONG.pairs, P) == 5 && BalanceAt(WRONG.h, P, 9) == 6
  {
    Balances();
    FirstHalf();
    SecondHalf();
  }
}
