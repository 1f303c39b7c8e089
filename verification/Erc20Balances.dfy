/**
 The ERC-20 rollup: one signed balance per (Safe, token), a zero balance having no
 row. New Safes are found by a marker in (created, address) order, and one run
 seeds at most a fixed number of them.
 */
module Erc20Balances {
  import opened Options
  import opened Ordering
  import opened Ledger
  import opened NativeBalances

  datatype Pair = Pair(safe: Address, token: Address)

  /** A row of history_erc20transfer. */
  datatype Erc20Transfer = Erc20Transfer(block: nat, token: Address, from: Address, to: Address, value: nat)

  function PairMovements(transfers: seq<Erc20Transfer>): seq<Movement<Pair>> {
    seq(|transfers|, i requires 0 <= i < |transfers| =>
      var t := transfers[i];
      Movement(t.block, Some(Pair(t.to, t.token)), Some(Pair(t.from, t.token)), t.value))
  }

  /** The incoming leg of the queries: `to` is the Safe. */
  function TokensIn(transfers: seq<Erc20Transfer>, k: Pair, upto: nat): nat {
    if transfers == [] then 0
    else
      var t := transfers[0];
      (if t.token == k.token && t.to == k.safe && t.block <= upto then t.value else 0)
      + TokensIn(transfers[1..], k, upto)
  }

  /** The outgoing leg: `_from` is. */
  function TokensOut(transfers: seq<Erc20Transfer>, k: Pair, upto: nat): nat {
    if transfers == [] then 0
    else
      var t := transfers[0];
      (if t.token == k.token && t.from == k.safe && t.block <= upto then t.value else 0)
      + TokensOut(transfers[1..], k, upto)
  }

  /** A balance is the two legs of the query, over the rows of the transfer table; a transfer to oneself is in both. */
  lemma {:induction false} PairBalanceIsTheTwoLegs(transfers: seq<Erc20Transfer>, k: Pair, upto: nat)
    ensures BalanceAt(PairMovements(transfers), k, upto) == TokensIn(transfers, k, upto) - TokensOut(transfers, k, upto)
  {
    if transfers != [] {
      PairBalanceIsTheTwoLegs(transfers[1..], k, upto);
      assert PairMovements(transfers)[1..] == PairMovements(transfers[1..]);
    }
  }

  // ---------------------------------------------------------- order of the Safes

  /** A row of history_safecontract, as the marker sees it. */
  datatype Stamp = Stamp(created: nat, address: Address)

  predicate Before(x: Stamp, y: Stamp) {
    x.created < y.created || (x.created == y.created && x.address < y.address)
  }

  predicate AtMost(x: Stamp, y: Stamp) { x == y || Before(x, y) }

  const BY_CREATION: (Stamp, Stamp) -> bool := (x, y) => Before(x, y)

  lemma CreationOrderIsStrict()
    ensures StrictOrder(BY_CREATION)
  {
  }

  /** The candidate query's WHERE clause: strictly after the marker, at or below the boundary. */
  predicate Candidate(x: Stamp, marker: Option<Stamp>, boundary: Stamp) {
    && (marker.None?
        || x.created > marker.value.created
        || (x.created == marker.value.created && x.address > marker.value.address))
    && (x.created < boundary.created
        || (x.created == boundary.created && x.address <= boundary.address))
  }

  /** SQL row comparison `xs <= ys`: the first column that differs decides. */
  predicate RowAtMost(xs: seq<int>, ys: seq<int>)
    requires |xs| == |ys|
  {
    xs == [] || (if xs[0] != ys[0] then xs[0] < ys[0] else RowAtMost(xs[1..], ys[1..]))
  }

  /** The delta's WHERE clause on the joined Safe row. */
  predicate Covered(x: Stamp, boundary: Stamp) {
    RowAtMost([x.created, x.address], [boundary.created, boundary.address])
  }

  predicate Within(x: Stamp, upTo: Option<Stamp>) { upTo.Some? && AtMost(x, upTo.value) }

  /** The seed's OR-form and the delta's row comparison are one and the same order. */
  lemma SeedAndDeltaAgree(x: Stamp, marker: Option<Stamp>, boundary: Stamp)
    ensures Covered(x, boundary) <==> AtMost(x, boundary)
    ensures Candidate(x, marker, boundary) <==> !Within(x, marker) && Covered(x, boundary)
  {
    var xs, bs := [x.created as int, x.address as int], [boundary.created as int, boundary.address as int];
    assert xs[1..] == [x.address] && bs[1..] == [boundary.address];
    assert xs[1..][1..] == [] == bs[1..][1..];
    assert RowAtMost(xs[1..], bs[1..]) <==> x.address <= boundary.address;
    assert RowAtMost(xs, bs) <==> Covered(x, boundary);
  }

  type Safes = map<Address, nat>

  function StampOf(safes: Safes, a: Address): Stamp
    requires a in safes
  {
    Stamp(safes[a], a)
  }

  function Stamps(safes: Safes): set<Stamp> { set a | a in safes :: Stamp(safes[a], a) }

  // --------------------------------------------------------------- one run's plan

  /** Which Safes a run seeds, and the boundary its delta and its new marker use. */
  datatype Plan = Plan(seeds: seq<Stamp>, boundary: Stamp)

  function Eligible(safes: Safes, marker: Option<Stamp>, boundary: Stamp): set<Stamp> {
    set x | x in Stamps(safes) && Candidate(x, marker, boundary)
  }

  ghost function MakePlan(safes: Safes, marker: Option<Stamp>, boundary: Stamp): Plan {
    CreationOrderIsStrict();
    var candidates := Page(Eligible(safes, marker, boundary), BY_CREATION, MAX_SEED_PER_RUN + 1);
    if |candidates| > MAX_SEED_PER_RUN
    then Plan(candidates[..MAX_SEED_PER_RUN], candidates[MAX_SEED_PER_RUN - 1])
    else Plan(candidates, boundary)
  }

  /** The query, over the (created, address) listing of the Safe table. */
  function Candidates(listing: seq<Stamp>, marker: Option<Stamp>, boundary: Stamp): seq<Stamp> {
    if listing == [] then []
    else
      (if Candidate(listing[0], marker, boundary) then [listing[0]] else [])
      + Candidates(listing[1..], marker, boundary)
  }

  /** One candidate more than the cap is asked for; if it comes, the boundary drops to the last one kept. */
  function PlanFrom(listing: seq<Stamp>, marker: Option<Stamp>, boundary: Stamp): Plan {
    var all := Candidates(listing, marker, boundary);
    if |all| > MAX_SEED_PER_RUN
    then Plan(all[..MAX_SEED_PER_RUN], all[MAX_SEED_PER_RUN - 1])
    else Plan(all, boundary)
  }

  lemma {:induction false} CandidatesAscend(listing: seq<Stamp>, marker: Option<Stamp>, boundary: Stamp)
    requires StrictOrder(BY_CREATION) && Ascending(listing, BY_CREATION)
    ensures forall x :: x in Candidates(listing, marker, boundary) <==> x in listing && Candidate(x, marker, boundary)
    ensures Ascending(Candidates(listing, marker, boundary), BY_CREATION)
  {
    if listing != [] {
      TailElements(listing, BY_CREATION);
      CandidatesAscend(listing[1..], marker, boundary);
      var rest := Candidates(listing[1..], marker, boundary);
      assert listing == [listing[0]] + listing[1..];
      assert forall i :: 0 <= i < |rest| ==> rest[i] in rest;
      forall x | x in rest
        ensures BY_CREATION(listing[0], x)
      {
        FirstIsLeast(listing, BY_CREATION, x);
      }
    }
  }

  lemma CandidatesAreListed(listing: seq<Stamp>, safes: Safes, marker: Option<Stamp>,
                                               boundary: Stamp)
    requires StrictOrder(BY_CREATION)
    requires Ascending(listing, BY_CREATION) && forall x :: x in listing <==> x in Stamps(safes)
    ensures Candidates(listing, marker, boundary) == Listing(Eligible(safes, marker, boundary), BY_CREATION)
  {
    CandidatesAscend(listing, marker, boundary);
    var eligible := Eligible(safes, marker, boundary);
    AscendingUnique(Candidates(listing, marker, boundary), Listing(eligible, BY_CREATION), BY_CREATION);
  }

  lemma FirstOfMore<T>(all: seq<T>, kept: nat)
    ensures |all| > kept ==> all[..Min(kept + 1, |all|)][..kept] == all[..kept]
    ensures |all| <= kept ==> all[..Min(kept + 1, |all|)] == all
  {
  }

  lemma PlanFromListing(listing: seq<Stamp>, safes: Safes, marker: Option<Stamp>, boundary: Stamp)
    requires Ascending(listing, BY_CREATION) && forall x :: x in listing <==> x in Stamps(safes)
    ensures PlanFrom(listing, marker, boundary) == MakePlan(safes, marker, boundary)
  {
    CreationOrderIsStrict();
    CandidatesAreListed(listing, safes, marker, boundary);
    FirstOfMore(Candidates(listing, marker, boundary), MAX_SEED_PER_RUN);
  }

  /** The plan seeds everything between the marker and its own boundary, which the cap alone may lower. */
  ghost predicate IsRange(plan: Plan, safes: Safes, marker: Option<Stamp>, boundary: Stamp) {
    && (forall x :: x in plan.seeds <==> x in Stamps(safes) && Candidate(x, marker, plan.boundary))
    && AtMost(plan.boundary, boundary)
    && |plan.seeds| <= MAX_SEED_PER_RUN
    && Ascending(plan.seeds, BY_CREATION)
    && (plan.boundary != boundary ==>
          |plan.seeds| == MAX_SEED_PER_RUN && plan.seeds[MAX_SEED_PER_RUN - 1] == plan.boundary)
  }

  /** Capped or not, a run seeds exactly the Safes between the marker and the boundary it ends up with. */
  lemma PlanIsARange(safes: Safes, marker: Option<Stamp>, boundary: Stamp)
    ensures IsRange(MakePlan(safes, marker, boundary), safes, marker, boundary)
  {
    CreationOrderIsStrict();
    var eligible := Eligible(safes, marker, boundary);
    var limit := MAX_SEED_PER_RUN + 1;
    var candidates := Page(eligible, BY_CREATION, limit);
    PageWithin(eligible, BY_CREATION, limit);
    var plan := MakePlan(safes, marker, boundary);
    if |candidates| > MAX_SEED_PER_RUN {
      var last := plan.boundary;
      assert last in candidates && last in eligible;
      forall x
        ensures x in plan.seeds <==> x in Stamps(safes) && Candidate(x, marker, last)
      {
        if x in plan.seeds {
          var i :| 0 <= i < MAX_SEED_PER_RUN && plan.seeds[i] == x;
          assert candidates[i] == x && x in candidates;
          assert i < MAX_SEED_PER_RUN - 1 ==> BY_CREATION(x, last);
        }
        if x in Stamps(safes) && Candidate(x, marker, last) {
          InCappedPage(eligible, x, last);
        }
      }
    } else {
      forall x | x in eligible
        ensures x in plan.seeds
      {
        if x !in candidates { PageHasNoGap(eligible, BY_CREATION, limit, x); }
      }
    }
  }

  lemma InCappedPage(eligible: set<Stamp>, x: Stamp, last: Stamp)
    requires StrictOrder(BY_CREATION)
    requires |Page(eligible, BY_CREATION, MAX_SEED_PER_RUN + 1)| > MAX_SEED_PER_RUN
    requires last == Page(eligible, BY_CREATION, MAX_SEED_PER_RUN + 1)[MAX_SEED_PER_RUN - 1]
    requires x in eligible && AtMost(x, last)
    ensures x in Page(eligible, BY_CREATION, MAX_SEED_PER_RUN + 1)[..MAX_SEED_PER_RUN]
  {
    var limit: nat := MAX_SEED_PER_RUN + 1;
    var page := Page(eligible, BY_CREATION, limit);
    PageWithin(eligible, BY_CREATION, limit);
    assert last in page && !BY_CREATION(last, x);
    if x !in page { PageHasNoGap(eligible, BY_CREATION, limit, x); }
    var i :| 0 <= i < |page| && page[i] == x;
    assert forall j :: MAX_SEED_PER_RUN - 1 < j < |page| ==> BY_CREATION(last, page[j]);
    assert page[..MAX_SEED_PER_RUN][i] == x;
  }

  /** No Safe becomes visible at or below `horizon`; one may disappear. */
  ghost predicate GrowsAbove(safes: Safes, safes': Safes, horizon: Stamp) {
    forall a :: a in safes' ==> (a in safes && safes[a] == safes'[a]) || Before(horizon, StampOf(safes', a))
  }

  /**
   A retry at the same marker plans at least what the earlier run planned: every
   Safe the earlier plan covered and that is still there is covered again. This is
   what lets a capped run die after its seed and be run again.
   */
  lemma RetryCoversCrashedPlan(safes: Safes, safes': Safes, marker: Option<Stamp>, boundary: Stamp, boundary': Stamp)
    requires GrowsAbove(safes, safes', boundary) && AtMost(boundary, boundary')
    ensures var plan, plan' := MakePlan(safes, marker, boundary), MakePlan(safes', marker, boundary');
            forall x :: x in Stamps(safes') && AtMost(x, plan.boundary) ==> AtMost(x, plan'.boundary)
  {
    var plan, plan' := MakePlan(safes, marker, boundary), MakePlan(safes', marker, boundary');
    PlanIsARange(safes, marker, boundary);
    PlanIsARange(safes', marker, boundary');
    forall x | x in Stamps(safes') && AtMost(x, plan.boundary)
      ensures AtMost(x, plan'.boundary)
    {
      RetryCovers(plan, plan', safes, safes', marker, boundary, boundary', x);
    }
  }

  lemma RetryCovers(plan: Plan, plan': Plan, safes: Safes, safes': Safes, marker: Option<Stamp>,
                    boundary: Stamp, boundary': Stamp, x: Stamp)
    requires GrowsAbove(safes, safes', boundary) && AtMost(boundary, boundary')
    requires IsRange(plan, safes, marker, boundary) && IsRange(plan', safes', marker, boundary')
    requires x in Stamps(safes') && AtMost(x, plan.boundary)
    ensures AtMost(x, plan'.boundary)
  {
    if plan'.boundary != boundary' && Before(plan'.boundary, x) {
      forall y | y in Stamps(safes') && AtMost(y, plan.boundary)
        ensures y in Stamps(safes)
      {
        StaysVisible(safes, safes', boundary, y);
      }
      NoRoomLeft(plan, plan', x, Stamps(safes), Stamps(safes'), marker);
    }
  }

  lemma StaysVisible(safes: Safes, safes': Safes, horizon: Stamp, y: Stamp)
    requires GrowsAbove(safes, safes', horizon) && y in Stamps(safes') && AtMost(y, horizon)
    ensures y in Stamps(safes)
  {
    assert y.address in safes' && StampOf(safes', y.address) == y;
  }

  /** A Safe beyond a capped retry but within the crashed plan would be one seed too many for that plan. */
  lemma NoRoomLeft(plan: Plan, plan': Plan, x: Stamp, all: set<Stamp>, all': set<Stamp>, marker: Option<Stamp>)
    requires forall y :: y in plan.seeds <==> y in all && Candidate(y, marker, plan.boundary)
    requires forall y :: y in plan'.seeds <==> y in all' && Candidate(y, marker, plan'.boundary)
    requires forall y :: y in all' && AtMost(y, plan.boundary) ==> y in all
    requires |plan.seeds| <= MAX_SEED_PER_RUN == |plan'.seeds|
    requires Ascending(plan.seeds, BY_CREATION) && Ascending(plan'.seeds, BY_CREATION)
    requires plan'.seeds[MAX_SEED_PER_RUN - 1] == plan'.boundary
    requires x in all' && Before(plan'.boundary, x)
    ensures Before(plan.boundary, x)
  {
    assert plan'.boundary in plan'.seeds;
    var s, s' := set y | y in plan.seeds, set y | y in plan'.seeds;
    DistinctSize(plan.seeds);
    DistinctSize(plan'.seeds);
    assert x !in s';
    if AtMost(x, plan.boundary) {
      assert Candidate(x, marker, plan.boundary);
      SubsetSize(s' + {x}, s);
    }
  }

  lemma {:induction false} DistinctSize(xs: seq<Stamp>)
    requires Ascending(xs, BY_CREATION)
    ensures |set x | x in xs| == |xs|
  {
    CreationOrderIsStrict();
    if xs != [] {
      TailElements(xs, BY_CREATION);
      DistinctSize(xs[1..]);
      assert (set x | x in xs) == {xs[0]} + set x | x in xs[1..];
    }
  }

  /**
   How fast the backlog goes: a run that completes takes up as many of the Safes past the
   marker as the cap allows, and leaves exactly the others for the next.
   */
  lemma PlanTakesItsFill(safes: Safes, marker: Option<Stamp>, boundary: Stamp)
    ensures var plan := MakePlan(safes, marker, boundary);
            var waiting := |Eligible(safes, marker, boundary)|;
            && |plan.seeds| == Min(MAX_SEED_PER_RUN, waiting)
            && |Eligible(safes, Some(plan.boundary), boundary)| == waiting - |plan.seeds|
  {
    var plan := MakePlan(safes, marker, boundary);
    PlanIsARange(safes, marker, boundary);
    RangeTakesItsFill(plan, safes, marker, boundary);
  }

  /** Each Safe past the marker is planned for or left for the next run. */
  lemma PlannedOrLeft(plan: Plan, safes: Safes, marker: Option<Stamp>, boundary: Stamp, x: Stamp)
    requires IsRange(plan, safes, marker, boundary)
    ensures x in Eligible(safes, marker, boundary) <==>
              x in plan.seeds || x in Eligible(safes, Some(plan.boundary), boundary)
    ensures x in plan.seeds ==> x !in Eligible(safes, Some(plan.boundary), boundary)
  {
    SeedAndDeltaAgree(x, marker, boundary);
    SeedAndDeltaAgree(x, marker, plan.boundary);
    SeedAndDeltaAgree(x, Some(plan.boundary), boundary);
    if plan.boundary != boundary {
      assert plan.boundary in plan.seeds;
      SeedAndDeltaAgree(plan.boundary, marker, plan.boundary);
    }
  }

  lemma RangeTakesItsFill(plan: Plan, safes: Safes, marker: Option<Stamp>, boundary: Stamp)
    requires IsRange(plan, safes, marker, boundary)
    ensures var waiting := |Eligible(safes, marker, boundary)|;
            && |plan.seeds| == Min(MAX_SEED_PER_RUN, waiting)
            && |Eligible(safes, Some(plan.boundary), boundary)| == waiting - |plan.seeds|
  {
    var now, later := Eligible(safes, marker, boundary), Eligible(safes, Some(plan.boundary), boundary);
    var seeded := set x | x in plan.seeds;
    DistinctSize(plan.seeds);
    forall x
      ensures x in now <==> x in seeded || x in later
      ensures x in seeded ==> x !in later
    {
      PlannedOrLeft(plan, safes, marker, boundary, x);
    }
    SizesAdd(now, seeded, later);
    if plan.boundary == boundary { NothingPastTheBoundary(safes, boundary); }
  }

  lemma NothingPastTheBoundary(safes: Safes, boundary: Stamp)
    ensures Eligible(safes, Some(boundary), boundary) == {}
  {
  }

  lemma SizesAdd<T>(all: set<T>, some: set<T>, rest: set<T>)
    requires (forall x :: x in all <==> x in some || x in rest) && forall x :: x in some ==> x !in rest
    ensures |all| == |some| + |rest|
  {
    assert all == some + rest && some !! rest;
  }

  // ------------------------------------------------------------- pair algebra

  type Pairs = map<Pair, int>

  /** A stored balance; no row means zero. */
  function Stored(pairs: Pairs, k: Pair): int { if k in pairs then pairs[k] else 0 }

  /** Non-zero balances of `who` summed through block `upto`. */
  function BalancesUpto(who: set<Address>, upto: nat, h: seq<Movement<Pair>>): Pairs {
    map k | k in Touched(h, -1, upto) && k.safe in who && BalanceAt(h, k, upto) != 0 :: BalanceAt(h, k, upto)
  }

  /** INSERT ... ON CONFLICT DO NOTHING of the balances of `who` at `upto`. */
  function SeedPairs(pairs: Pairs, who: set<Address>, upto: nat, h: seq<Movement<Pair>>): Pairs {
    BalancesUpto(who, upto, h) + pairs
  }

  function DeltaKeys(who: set<Address>, from: nat, head: nat, h: seq<Movement<Pair>>): set<Pair> {
    set k | k in Touched(h, from, head) && k.safe in who
  }

  /** The UPSERT half of the delta. */
  function Upserted(pairs: Pairs, who: set<Address>, from: nat, head: nat, h: seq<Movement<Pair>>): Pairs {
    pairs + map k | k in DeltaKeys(who, from, head, h) :: Stored(pairs, k) + NetFlow(h, k, from, head)
  }

  /** The whole delta: upsert the pairs of `who` touched in `(from, head]`, then delete those left at zero. */
  function DeltaPairs(pairs: Pairs, who: set<Address>, from: nat, head: nat, h: seq<Movement<Pair>>): Pairs {
    var after := Upserted(pairs, who, from, head, h);
    after - set k | k in DeltaKeys(who, from, head, h) && after[k] == 0
  }

  ghost predicate NoZeroRow(pairs: Pairs) { forall k :: k in pairs ==> pairs[k] != 0 }

  lemma SeedStores(pairs: Pairs, who: set<Address>, upto: nat, h: seq<Movement<Pair>>, k: Pair)
    requires NoZeroRow(pairs)
    ensures var after := SeedPairs(pairs, who, upto, h);
            && NoZeroRow(after)
            && Stored(after, k) == (if k in pairs || k.safe !in who then Stored(pairs, k) else BalanceAt(h, k, upto))
            && (k in after ==> k in pairs || k.safe in who)
  {
    if k !in Touched(h, -1, upto) { UntouchedHasNoFlow(h, k, -1, upto); }
  }

  /** Pairs of covered Safes gain exactly the window's flow, whether they had a row, gain one or lose one. */
  lemma DeltaStores(pairs: Pairs, who: set<Address>, from: nat, head: nat, h: seq<Movement<Pair>>, k: Pair)
    requires NoZeroRow(pairs)
    ensures var after := DeltaPairs(pairs, who, from, head, h);
            && NoZeroRow(after)
            && Stored(after, k) == Stored(pairs, k) + (if k.safe in who then NetFlow(h, k, from, head) else 0)
            && (k.safe !in who ==> (k in after <==> k in pairs))
  {
    if k !in Touched(h, from, head) { UntouchedHasNoFlow(h, k, from, head); }
  }

  /**
   Where the rollup stands: Safes at or below `upTo` hold exactly their balances at
   block `b`, later ones hold nothing yet, and no row holds zero.
   */
  ghost predicate Stands(pairs: Pairs, safes: Safes, upTo: Option<Stamp>, b: nat, h: seq<Movement<Pair>>) {
    && NoZeroRow(pairs)
    && (forall k: Pair :: k.safe in safes && Within(StampOf(safes, k.safe), upTo) ==>
          Stored(pairs, k) == BalanceAt(h, k, b))
    && (forall k :: k in pairs && k.safe in safes ==> Within(StampOf(safes, k.safe), upTo))
  }

  function SeedAddresses(plan: Plan): set<Address> { set x | x in plan.seeds :: x.address }

  function CoveredSafes(safes: Safes, boundary: Stamp): set<Address> {
    set a | a in safes && Covered(StampOf(safes, a), boundary)
  }

  /**
   The plan made over `planned` still fits the Safes visible now: between the marker
   and its boundary it seeds all of them, and what an earlier run that died had
   seeded (through `reach`) lies within its boundary.
   */
  ghost predicate PlanFits(plan: Plan, safes: Safes, marker: Option<Stamp>, reach: Option<Stamp>) {
    forall a :: a in safes ==>
      var x := StampOf(safes, a);
      && (Within(x, marker) ==> Within(x, reach))
      && (Within(x, reach) ==> AtMost(x, plan.boundary))
      && (AtMost(x, plan.boundary) && !Within(x, marker) ==> a in SeedAddresses(plan))
      && (a in SeedAddresses(plan) ==> AtMost(x, plan.boundary))
  }

  /** Seeding extends what stands to the plan's boundary; Safes a dead run already seeded stay as they are. */
  lemma SeedExtends(pairs: Pairs, safes: Safes, marker: Option<Stamp>, reach: Option<Stamp>, plan: Plan,
                    b: nat, h: seq<Movement<Pair>>)
    requires Stands(pairs, safes, reach, b, h) && PlanFits(plan, safes, marker, reach)
    ensures Stands(SeedPairs(pairs, SeedAddresses(plan), b, h), safes, Some(plan.boundary), b, h)
  {
    var who := SeedAddresses(plan);
    var after := SeedPairs(pairs, who, b, h);
    forall k: Pair
      ensures k.safe in safes && AtMost(StampOf(safes, k.safe), plan.boundary) ==>
          Stored(after, k) == BalanceAt(h, k, b)
      ensures k in after && k.safe in safes ==> AtMost(StampOf(safes, k.safe), plan.boundary)
      ensures k in after ==> after[k] != 0
    {
      SeedStores(pairs, who, b, h, k);
    }
  }

  /** The delta over the Safes the boundary covers moves them, and only them, from `from` to `head`. */
  lemma DeltaAdvances(pairs: Pairs, safes: Safes, boundary: Stamp, from: nat, head: nat, h: seq<Movement<Pair>>)
    requires Stands(pairs, safes, Some(boundary), from, h) && from <= head
    ensures Stands(DeltaPairs(pairs, CoveredSafes(safes, boundary), from, head, h), safes, Some(boundary), head, h)
  {
    var who := CoveredSafes(safes, boundary);
    var after := DeltaPairs(pairs, who, from, head, h);
    forall k: Pair
      ensures k.safe in safes && AtMost(StampOf(safes, k.safe), boundary) ==> Stored(after, k) == BalanceAt(h, k, head)
      ensures k in after && k.safe in safes ==> AtMost(StampOf(safes, k.safe), boundary)
      ensures k in after ==> after[k] != 0
    {
      DeltaStores(pairs, who, from, head, h, k);
      if k.safe in safes {
        SeedAndDeltaAgree(StampOf(safes, k.safe), None, boundary);
        NetFlowSplits(h, k, -1, from, head);
      }
    }
  }

  /** What stands is untouched by new blocks, by Safes that appear above it, and by Safes that go. */
  lemma StandsIsFrozen(pairs: Pairs, safes: Safes, safes': Safes, upTo: Option<Stamp>, b: nat,
                       h: seq<Movement<Pair>>, h': seq<Movement<Pair>>)
    requires Stands(pairs, safes, upTo, b, h) && Cut(h, b) == Cut(h', b)
    requires forall a :: a in safes' ==>
               || (a in safes && safes'[a] == safes[a])
               || (!Within(StampOf(safes', a), upTo) && forall k :: k in pairs ==> k.safe != a)
    ensures Stands(pairs, safes', upTo, b, h')
  {
    forall k: Pair | k.safe in safes' && Within(StampOf(safes', k.safe), upTo)
      ensures Stored(pairs, k) == BalanceAt(h', k, b)
    {
      FrozenFlow(h, h', k, -1, b, b);
    }
  }
}
