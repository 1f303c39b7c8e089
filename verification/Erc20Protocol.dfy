/**
 Runs of the ERC-20 rollup over time: capped or not, dying between the seed and the
 mark, retried over a Safe table that keeps changing underneath.
 */
module Erc20Protocol {
  import opened Options
  import opened Ledger
  import opened NativeBalances
  import opened Erc20Balances

  /** The tables a plan was made from. */
  datatype Origin = Origin(safes: Safes, boundary: Stamp)

  datatype Worker =
    | Idle
    | Planned(from: nat, head: nat, plan: Plan, origin: Origin)
    | Seeded(from: nat, head: nat, plan: Plan)

  /**
   `settled` is the highest safe head and `horizon` the highest boundary any run has
   used; `reach` is how far Safes are seeded at the watermark, past the marker when
   a run died after its seed, in which case `unfinished` is what it planned from.
   */
  datatype State = State(
    h: seq<Movement<Pair>>, chain: ChainView, reorgBlocks: nat, settled: nat,
    safes: Safes, horizon: Stamp,
    pairs: Pairs, watermark: nat, marker: Option<Stamp>, reach: Option<Stamp>,
    unfinished: Option<Origin>, worker: Worker)

  datatype Event =
    | Index(chain: ChainView, h: seq<Movement<Pair>>)
    | CreateSafe(safe: Address, created: nat)
    | DropSafe(dropped: Address)
    | StartRun(boundary: Stamp)
    | CommitSeed
    | CommitMark
    | Die

  /**
   What the environment may do, and when a run gets as far as its plan. A Safe that
   becomes visible sorts above every boundary already used, and a boundary never lies
   below an earlier one. An address that was a Safe before may return as one.
   */
  predicate Enabled(s: State, e: Event) {
    match e
    case Index(_, h) => Cut(h, s.settled) == Cut(s.h, s.settled)
    case CreateSafe(a, created) => a !in s.safes && Before(s.horizon, Stamp(created, a))
    case DropSafe(a) => a in s.safes
    case StartRun(boundary) =>
      && s.worker.Idle? && AtMost(s.horizon, boundary)
      && HeadBlock(s.chain, s.reorgBlocks).Some? && s.watermark <= HeadBlock(s.chain, s.reorgBlocks).value
    case CommitSeed => s.worker.Planned?
    case CommitMark => s.worker.Seeded?
    case Die => !s.worker.Idle?
  }

  /**
   What the program does not check: an address becomes a Safe with no pair of an
   earlier life stored, nor listed by a plan that is still to be seeded.
   */
  predicate Blank(s: State, e: Event) {
    e.CreateSafe? ==>
      && (forall k :: k in s.pairs ==> k.safe != e.safe)
      && (s.worker.Planned? ==> e.safe !in SeedAddresses(s.worker.plan))
  }

  ghost function Apply(s: State, e: Event): State
    requires Enabled(s, e)
  {
    match e
    case Index(chain, h) => s.(chain := chain, h := h)
    case CreateSafe(a, created) => s.(safes := s.safes[a := created])
    case DropSafe(a) => s.(safes := s.safes - {a})
    case StartRun(boundary) => Start(s, boundary, HeadBlock(s.chain, s.reorgBlocks).value)
    case CommitSeed => Seed(s)
    case CommitMark => Mark(s)
    case Die => s.(worker := Idle)
  }

  ghost function Start(s: State, boundary: Stamp, head: nat): State {
    s.(settled := if s.settled < head then head else s.settled, horizon := boundary,
       worker := Planned(s.watermark, head, MakePlan(s.safes, s.marker, boundary), Origin(s.safes, boundary)))
  }

  function Seed(s: State): State
    requires s.worker.Planned?
  {
    var w := s.worker;
    s.(pairs := SeedPairs(s.pairs, SeedAddresses(w.plan), w.from, s.h),
       reach := Some(w.plan.boundary), unfinished := Some(w.origin),
       worker := Seeded(w.from, w.head, w.plan))
  }

  function Mark(s: State): State
    requires s.worker.Seeded?
  {
    var w := s.worker;
    s.(pairs := DeltaPairs(s.pairs, CoveredSafes(s.safes, w.plan.boundary), w.from, w.head, s.h),
       watermark := w.head, marker := Some(w.plan.boundary), reach := Some(w.plan.boundary),
       unfinished := None, worker := Idle)
  }

  // ---------------------------------------------------------------- invariant

  /** A plan made from `o` still describes the Safes visible now, below its own boundary. */
  ghost predicate Holds(o: Origin, safes: Safes, marker: Option<Stamp>, horizon: Stamp) {
    && AtMost(o.boundary, horizon)
    && (marker.Some? ==> AtMost(marker.value, o.boundary))
    && GrowsAbove(o.safes, safes, o.boundary)
  }

  ghost predicate ReachIsKnown(s: State) {
    match s.unfinished
    case None => s.reach == s.marker
    case Some(o) =>
      Holds(o, s.safes, s.marker, s.horizon) && s.reach == Some(MakePlan(o.safes, s.marker, o.boundary).boundary)
  }

  ghost predicate WorkerFits(s: State) {
    match s.worker
    case Idle => true
    case Planned(from, head, plan, o) =>
      && from == s.watermark && from <= head <= s.settled
      && plan == MakePlan(o.safes, s.marker, o.boundary) && Holds(o, s.safes, s.marker, s.horizon)
      && PlanFits(plan, s.safes, s.marker, s.reach)
    case Seeded(from, head, plan) =>
      from == s.watermark && from <= head <= s.settled && s.reach == Some(plan.boundary)
  }

  ghost predicate Sound(s: State) {
    && s.watermark <= s.settled
    && (s.marker.Some? ==> AtMost(s.marker.value, s.horizon))
    && (s.reach.Some? ==> AtMost(s.reach.value, s.horizon))
    && ReachIsKnown(s)
    && WorkerFits(s)
    && Stands(s.pairs, s.safes, s.reach, s.watermark, s.h)
  }

  lemma CapOnlyLowers(safes: Safes, marker: Option<Stamp>, boundary: Stamp)
    ensures AtMost(MakePlan(safes, marker, boundary).boundary, boundary)
  {
    PlanIsARange(safes, marker, boundary);
  }

  lemma PlanPassesMarker(safes: Safes, marker: Option<Stamp>, boundary: Stamp)
    requires marker.Some? ==> AtMost(marker.value, boundary)
    ensures marker.Some? ==> AtMost(marker.value, MakePlan(safes, marker, boundary).boundary)
  {
    var plan := MakePlan(safes, marker, boundary);
    PlanIsARange(safes, marker, boundary);
    if plan.boundary != boundary {
      assert plan.boundary in plan.seeds;
      assert Candidate(plan.boundary, marker, plan.boundary);
    }
  }

  lemma MarkerWithinReach(s: State, x: Stamp)
    requires Sound(s) && Within(x, s.marker)
    ensures Within(x, s.reach)
  {
    match s.unfinished
    case None =>
    case Some(o) => PlanPassesMarker(o.safes, s.marker, o.boundary);
  }

  /** A fresh plan covers every Safe seeded so far, in particular those of a run that died. */
  lemma ReachIsCovered(s: State, boundary: Stamp, x: Stamp)
    requires Sound(s) && AtMost(s.horizon, boundary) && x in Stamps(s.safes) && Within(x, s.reach)
    ensures AtMost(x, MakePlan(s.safes, s.marker, boundary).boundary)
  {
    match s.unfinished
    case None => PlanPassesMarker(s.safes, s.marker, boundary);
    case Some(o) => RetryCoversCrashedPlan(o.safes, s.safes, s.marker, o.boundary, boundary);
  }

  lemma FreshPlanFits(s: State, boundary: Stamp)
    requires Sound(s) && AtMost(s.horizon, boundary)
    ensures PlanFits(MakePlan(s.safes, s.marker, boundary), s.safes, s.marker, s.reach)
  {
    var plan := MakePlan(s.safes, s.marker, boundary);
    forall a | a in s.safes
      ensures var x := StampOf(s.safes, a);
              && (Within(x, s.marker) ==> Within(x, s.reach))
              && (Within(x, s.reach) ==> AtMost(x, plan.boundary))
              && (a in SeedAddresses(plan) <==> !Within(x, s.marker) && AtMost(x, plan.boundary))
    {
      var x := StampOf(s.safes, a);
      assert x in Stamps(s.safes);
      SeededExactly(s.safes, s.marker, boundary, a);
      if Within(x, s.marker) { MarkerWithinReach(s, x); }
      if Within(x, s.reach) { ReachIsCovered(s, boundary, x); }
    }
  }

  /** Among the Safes it was planned from, a plan seeds those past the marker and within its boundary. */
  lemma SeededExactly(safes: Safes, marker: Option<Stamp>, boundary: Stamp, a: Address)
    requires a in safes
    ensures var plan := MakePlan(safes, marker, boundary);
            a in SeedAddresses(plan) <==>
              !Within(StampOf(safes, a), marker) && AtMost(StampOf(safes, a), plan.boundary)
  {
    var plan := MakePlan(safes, marker, boundary);
    var x := StampOf(safes, a);
    PlanIsARange(safes, marker, boundary);
    assert x in Stamps(safes);
    SeedAndDeltaAgree(x, marker, plan.boundary);
    assert forall y :: y in plan.seeds && y.address == a ==> y in Stamps(safes) && y == x;
  }

  lemma StartKeepsSound(s: State, boundary: Stamp)
    requires Sound(s) && Enabled(s, StartRun(boundary))
    ensures Sound(Apply(s, StartRun(boundary)))
  {
    FreshPlanFits(s, boundary);
  }

  lemma SeedKeepsSound(s: State)
    requires Sound(s) && s.worker.Planned?
    ensures Sound(Seed(s))
  {
    var w := s.worker;
    CapOnlyLowers(w.origin.safes, s.marker, w.origin.boundary);
    SeedExtends(s.pairs, s.safes, s.marker, s.reach, w.plan, w.from, s.h);
  }

  lemma MarkKeepsSound(s: State)
    requires Sound(s) && s.worker.Seeded?
    ensures Sound(Mark(s))
  {
    DeltaAdvances(s.pairs, s.safes, s.worker.plan.boundary, s.worker.from, s.worker.head, s.h);
  }

  lemma HoldsThrough(o: Origin, safes: Safes, safes': Safes, marker: Option<Stamp>, horizon: Stamp)
    requires Holds(o, safes, marker, horizon)
    requires forall a :: a in safes' ==> (a in safes && safes'[a] == safes[a]) || Before(horizon, StampOf(safes', a))
    ensures Holds(o, safes', marker, horizon)
  {
  }

  lemma FitsThrough(plan: Plan, safes: Safes, safes': Safes, s: State)
    requires Sound(s) && PlanFits(plan, safes, s.marker, s.reach) && AtMost(plan.boundary, s.horizon)
    requires forall a :: a in safes' ==>
               || (a in safes && safes'[a] == safes[a])
               || (Before(s.horizon, StampOf(safes', a)) && a !in SeedAddresses(plan))
    ensures PlanFits(plan, safes', s.marker, s.reach)
  {
  }

  lemma SafesChange(s: State, safes': Safes)
    requires Sound(s)
    requires forall a :: a in safes' ==>
               || (a in s.safes && safes'[a] == s.safes[a])
               || (&& Before(s.horizon, StampOf(safes', a))
                   && (forall k :: k in s.pairs ==> k.safe != a)
                   && (s.worker.Planned? ==> a !in SeedAddresses(s.worker.plan)))
    ensures Sound(s.(safes := safes'))
  {
    StandsIsFrozen(s.pairs, s.safes, safes', s.reach, s.watermark, s.h, s.h);
    if s.unfinished.Some? { HoldsThrough(s.unfinished.value, s.safes, safes', s.marker, s.horizon); }
    if s.worker.Planned? {
      var o := s.worker.origin;
      HoldsThrough(o, s.safes, safes', s.marker, s.horizon);
      CapOnlyLowers(o.safes, s.marker, o.boundary);
      FitsThrough(s.worker.plan, s.safes, safes', s);
    }
  }

  lemma IndexKeepsSound(s: State, chain: ChainView, h: seq<Movement<Pair>>)
    requires Sound(s) && Enabled(s, Index(chain, h))
    ensures Sound(s.(chain := chain, h := h))
  {
    FrozenBelow(s.h, h, s.watermark, s.settled);
    StandsIsFrozen(s.pairs, s.safes, s.safes, s.reach, s.watermark, s.h, h);
  }

  lemma SoundKept(s: State, e: Event)
    requires Sound(s) && Enabled(s, e) && Blank(s, e)
    ensures Sound(Apply(s, e))
  {
    match e
    case Index(chain, h) => IndexKeepsSound(s, chain, h);
    case CreateSafe(a, created) => SafesChange(s, s.safes[a := created]);
    case DropSafe(a) => SafesChange(s, s.safes - {a});
    case StartRun(boundary) => StartKeepsSound(s, boundary);
    case CommitSeed => SeedKeepsSound(s);
    case CommitMark => MarkKeepsSound(s);
    case Die =>
  }

  // ------------------------------------------------------------ whole executions

  ghost predicate Possible(s: State, es: seq<Event>)
    decreases |es|
  {
    es == [] || (Enabled(s, es[0]) && Possible(Apply(s, es[0]), es[1..]))
  }

  ghost function After(s: State, es: seq<Event>): State
    requires Possible(s, es)
    decreases |es|
  {
    if es == [] then s else After(Apply(s, es[0]), es[1..])
  }

  ghost predicate AllBlank(s: State, es: seq<Event>)
    requires Possible(s, es)
    decreases |es|
  {
    es == [] || (Blank(s, es[0]) && AllBlank(Apply(s, es[0]), es[1..]))
  }

  /** What a finished backfill hands over: every Safe through the marker, summed at the watermark. */
  ghost predicate HandedOver(s: State) {
    && s.worker.Idle? && s.unfinished.None? && s.reach == s.marker
    && s.watermark <= s.settled && (s.marker.Some? ==> AtMost(s.marker.value, s.horizon))
    && Stands(s.pairs, s.safes, s.marker, s.watermark, s.h)
  }

  lemma {:induction false} SoundThroughout(s: State, es: seq<Event>)
    requires Sound(s) && Possible(s, es) && AllBlank(s, es)
    ensures Sound(After(s, es))
    decreases |es|
  {
    if es != [] {
      SoundKept(s, es[0]);
      SoundThroughout(Apply(s, es[0]), es[1..]);
    }
  }

  /**
   After any sequence of capped and uncapped runs, deaths, retries, new blocks, dropped
   Safes and Safes new or returning blank: for every Safe at or below the marker and every token the stored balance
   (no row meaning zero) is the from-scratch flow through the watermark, and no row
   stores zero.
   */
  lemma RollupEqualsRecompute(s0: State, es: seq<Event>)
    requires HandedOver(s0) && Possible(s0, es) && AllBlank(s0, es)
    ensures var s := After(s0, es);
            && (forall k: Pair :: k.safe in s.safes && Within(StampOf(s.safes, k.safe), s.marker) ==>
                  Stored(s.pairs, k) == BalanceAt(s.h, k, s.watermark))
            && (forall k :: k in s.pairs ==> s.pairs[k] != 0)
  {
    SoundThroughout(s0, es);
    var s := After(s0, es);
    match s.unfinished
    case None =>
    case Some(o) => PlanPassesMarker(o.safes, s.marker, o.boundary);
  }

  /**
   In the terms of the transfer table: what the Safe received of the token less what it
   sent, through the watermark.
   */
  lemma RollupEqualsTransferSums(s0: State, es: seq<Event>, transfers: seq<Erc20Transfer>)
    requires HandedOver(s0) && Possible(s0, es) && AllBlank(s0, es) && After(s0, es).h == PairMovements(transfers)
    ensures var s := After(s0, es);
            forall k: Pair :: k.safe in s.safes && Within(StampOf(s.safes, k.safe), s.marker) ==>
              Stored(s.pairs, k) == TokensIn(transfers, k, s.watermark) - TokensOut(transfers, k, s.watermark)
  {
    RollupEqualsRecompute(s0, es);
    var s := After(s0, es);
    forall k: Pair
      ensures BalanceAt(s.h, k, s.watermark)
          == TokensIn(transfers, k, s.watermark) - TokensOut(transfers, k, s.watermark)
    {
      PairBalanceIsTheTwoLegs(transfers, k, s.watermark);
    }
  }

  /**
   A run that completes moves the marker over every Safe its plan seeded, to the whole
   boundary when the cap did not bite, so each Safe is taken up once.
   */
  lemma CompletedRunMovesMarker(s: State)
    requires Sound(s) && s.worker.Seeded?
    ensures var s' := Mark(s);
            && s'.watermark == s.worker.head >= s.watermark
            && s'.marker == Some(s.worker.plan.boundary)
            && Stands(s'.pairs, s'.safes, s'.marker, s'.watermark, s'.h)
            && (forall a :: a in s.safes && Within(StampOf(s.safes, a), s.marker)
                  ==> Within(StampOf(s.safes, a), s'.marker))
  {
    MarkKeepsSound(s);
    match s.unfinished
    case None =>
    case Some(o) => PlanPassesMarker(o.safes, s.marker, o.boundary);
  }
}
