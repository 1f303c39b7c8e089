/** Why a chunked backfill ends, whatever is lost, killed, resumed or started beside it. */
module NativeTermination {
  import opened Options
  import opened Ordering
  import opened NativeBalances
  import opened BackfillSizing
  import opened NativeProtocol

  // ------------------------------------------------------------ chunks that end at all

  /** The Safes a run has still to walk: those beyond its cursor, and the page it may be at. */
  function ToWalk(s: State, r: nat): set<Address>
    requires r in s.runs
  {
    Beyond(s.safes + (if s.worker.Chunk? && s.worker.run == r then Members(s.worker.page) else {}), s.runs[r].cursor)
  }

  /** How many more chunks of run `r` can get the lock and end while no Safe is added. */
  function Budget(s: State, r: nat): nat {
    if r in s.runs && s.runs[r].state.Running?
    then |ToWalk(s, r)| + HalvingsLeft(s.runs[r].chunkSize, CHUNK_SIZE_FLOOR) + 1
    else 0
  }

  /** A chunk of run `r` held the lock and came to an end of its own: done, too heavy, or raised. */
  predicate Ends(s: State, e: Event, r: nat) {
    s.worker.Chunk? && s.worker.run == r && e.Step? && !e.c.Deliver?
  }

  predicate Creates(e: Event) { e.Indexer? && e.i.CreateSafe? }

  function One(b: bool): nat { if b then 1 else 0 }

  /** The page at work lies ahead of its run's cursor. */
  ghost predicate Walking(s: State) {
    && Generations(s)
    && (s.worker.Chunk? ==> IsAhead(s.worker.page, s.runs[s.worker.run]))
  }

  ghost predicate IsAhead(page: seq<Address>, run: Manifest) {
    forall a :: a in page && run.cursor.Some? ==> a > run.cursor.value
  }

  lemma PageSpendsBudget(s: State, r: nat, page: seq<Address>, done: Manifest)
    requires r in s.runs && s.runs[r].state.Running? && page != []
    requires s.worker.Chunk? && s.worker.run == r && s.worker.page == page && IsAhead(page, s.runs[r])
    requires done.cursor == Some(page[|page| - 1]) && done.chunkSize == s.runs[r].chunkSize
    ensures Budget(Redispatch(s, r, done), r) < Budget(s, r)
  {
    var last := page[|page| - 1];
    assert last in Members(page);
    var before, after := ToWalk(s, r), Beyond(s.safes, Some(last));
    assert after <= before - {last};
    SubsetSize(after, before - {last});
    assert ToWalk(Redispatch(s, r, done), r) == after;
  }

  lemma FinishSpendsBudget(s: State)
    requires Walking(s) && ChunkMay(s, FinishChunk)
    ensures Budget(CompleteChunk(s), s.worker.run) < Budget(s, s.worker.run)
  {
    var r, page := s.worker.run, s.worker.page;
    if page != [] { PageSpendsBudget(s, r, page, PageDone(s.runs[r], page, s.worker.todo)); }
  }

  lemma TimeoutSpendsBudget(s: State)
    requires Walking(s) && s.worker.Chunk?
    ensures Budget(ShrinkOrFail(s), s.worker.run) < Budget(s, s.worker.run)
  {
    var r := s.worker.run;
    HalvingShrinks(s.runs[r].chunkSize, CHUNK_SIZE_FLOOR);
    if s.runs[r].chunkSize > CHUNK_SIZE_FLOOR { SubsetSize(ToWalk(ShrinkOrFail(s), r), ToWalk(s, r)); }
  }

  /** A page just read holds no Safe that is not there. */
  lemma FreshPage(s: State, m: Message)
    requires WellFormed(s) && Current(s, m) && s.worker.Idle?
    ensures var page := Receive(s, m).worker.page;
            s.safes + Members(page) == s.safes && IsAhead(page, s.runs[m.run])
  {
    AddressOrderIsStrict();
    PageWithin(Beyond(s.safes, s.runs[m.run].cursor), BY_ADDRESS, s.runs[m.run].chunkSize);
  }

  lemma DeliverKeepsBudget(s: State, m: Message, r: nat)
    requires Walking(s) && m in s.queue
    ensures Budget(Receive(s, m), r) == Budget(s, r)
  {
    if Current(s, m) && s.worker.Idle? {
      FreshPage(s, m);
      if r in s.runs { assert ToWalk(Receive(s, m), r) == ToWalk(s, r); }
    }
  }

  lemma DeliverKeepsWalking(s: State, m: Message)
    requires Walking(s) && m in s.queue
    ensures Walking(Receive(s, m))
  {
    DeliverKeepsGenerations(s, m);
    if Current(s, m) && s.worker.Idle? { FreshPage(s, m); }
  }

  /** Other runs than the one at work keep their budget. */
  lemma OthersKeepBudget(s: State, c: ChunkEvent, r: nat)
    requires WellFormed(s) && ChunkMay(s, c) && !c.Deliver? && r != s.worker.run
    ensures Budget(ChunkStep(s, c), r) == Budget(s, r)
  {
  }

  lemma ChunkSpendsBudget(s: State, c: ChunkEvent, r: nat)
    requires Walking(s) && ChunkMay(s, c)
    ensures Budget(ChunkStep(s, c), r) + One(Ends(s, Step(c), r)) <= Budget(s, r)
    ensures Walking(ChunkStep(s, c))
  {
    ChunkKeepsGenerations(s, c);
    match c
    case Deliver(m) => DeliverKeepsBudget(s, m, r); DeliverKeepsWalking(s, m);
    case FinishChunk => FinishSpendsBudget(s); if r != s.worker.run { OthersKeepBudget(s, c, r); }
    case TimeoutChunk => TimeoutSpendsBudget(s); if r != s.worker.run { OthersKeepBudget(s, c, r); }
    case FailChunk => if r != s.worker.run { OthersKeepBudget(s, c, r); }
  }

  predicate SameWalk(m: Manifest, m': Manifest) {
    m'.cursor == m.cursor && m'.chunkSize == m.chunkSize && m'.state == m.state
  }

  /** Steps that send no chunk on and leave the page at work, if any, as it is. */
  ghost predicate Quiet(s: State, s': State, r: nat) {
    && (r in s'.runs ==> r in s.runs && SameWalk(s.runs[r], s'.runs[r]))
    && (s'.worker.Chunk? ==>
          && s.worker.Chunk? && s'.worker.run == s.worker.run && s'.worker.page == s.worker.page
          && s.worker.run in s.runs && s.worker.run in s'.runs
          && SameWalk(s.runs[s.worker.run], s'.runs[s.worker.run]))
  }

  lemma QuietKeepsBudget(s: State, s': State, r: nat)
    requires Walking(s) && Generations(s') && Quiet(s, s', r) && s'.safes <= s.safes
    ensures Budget(s', r) <= Budget(s, r) && Walking(s')
  {
    if r in s'.runs && s'.runs[r].state.Running? { SubsetSize(ToWalk(s', r), ToWalk(s, r)); }
  }

  /** A new Safe is at most one more to walk. */
  lemma CreateRaisesBudget(s: State, a: Address, r: nat)
    requires Walking(s) && a !in s.safes
    ensures var s' := IndexerStep(s, CreateSafe(a)); Budget(s', r) <= Budget(s, r) + 1 && Walking(s')
  {
    IndexerKeepsGenerations(s, CreateSafe(a));
    var s' := IndexerStep(s, CreateSafe(a));
    if r in s'.runs && s'.runs[r].state.Running? {
      SubsetSize(ToWalk(s', r), ToWalk(s, r) + {a});
    }
  }

  lemma StartKeepsBudget(s: State, l: StartEvent, r: nat)
    requires Walking(s) && StartMay(s, l) && r < s.nextRun
    ensures Budget(StartStep(s, l), r) <= Budget(s, r) && Walking(StartStep(s, l))
  {
    StartKeepsGenerations(s, l);
    QuietKeepsBudget(s, StartStep(s, l), r);
  }

  lemma IndexerKeepsBudget(s: State, i: IndexerEvent, r: nat)
    requires Walking(s) && IndexerMay(s, i)
    ensures Budget(IndexerStep(s, i), r) <= Budget(s, r) + One(i.CreateSafe?) && Walking(IndexerStep(s, i))
  {
    IndexerKeepsGenerations(s, i);
    match i
    case Index(chain, h) => QuietKeepsBudget(s, IndexerStep(s, i), r);
    case CreateSafe(a) => CreateRaisesBudget(s, a, r);
    case DropSafe(a) => QuietKeepsBudget(s, IndexerStep(s, i), r);
  }

  lemma RestKeepsBudget(s: State, e: Event, r: nat)
    requires Walking(s) && Enabled(s, e) && (e.Night? || e.SeedBatch? || e.Fault?)
    ensures Budget(Apply(s, e), r) <= Budget(s, r) && Walking(Apply(s, e))
  {
    GenerationsKept(s, e);
    QuietKeepsBudget(s, Apply(s, e), r);
  }

  lemma EventSpendsBudget(s: State, e: Event, r: nat)
    requires Walking(s) && Enabled(s, e) && r < s.nextRun
    ensures Budget(Apply(s, e), r) + One(Ends(s, e, r)) <= Budget(s, r) + One(Creates(e))
    ensures Walking(Apply(s, e)) && r < Apply(s, e).nextRun
  {
    match e
    case Step(c) => ChunkSpendsBudget(s, c, r);
    case Indexer(i) => IndexerKeepsBudget(s, i, r);
    case Start(l) => StartKeepsBudget(s, l, r);
    case Night(n) => RestKeepsBudget(s, e, r);
    case SeedBatch => RestKeepsBudget(s, e, r);
    case Fault(f) => RestKeepsBudget(s, e, r);
  }

  ghost function Endings(s: State, es: seq<Event>, r: nat): nat
    requires Possible(s, es)
    decreases |es|
  {
    if es == [] then 0 else One(Ends(s, es[0], r)) + Endings(Apply(s, es[0]), es[1..], r)
  }

  function Creations(es: seq<Event>): nat {
    if es == [] then 0 else One(Creates(es[0])) + Creations(es[1..])
  }

  /**
   A run ends after at most one chunk per Safe still ahead, one per Safe that appears
   meanwhile, one per halving its size has left, and one more, whatever messages are
   lost, workers killed, Safes dropped, resumes sent and other runs started in between.
   */
  lemma {:induction false} BackfillEnds(s: State, es: seq<Event>, r: nat)
    requires Walking(s) && r < s.nextRun && Possible(s, es)
    ensures Endings(s, es, r) + Budget(After(s, es), r) <= Budget(s, r) + Creations(es)
    decreases |es|
  {
    if es != [] {
      EventSpendsBudget(s, es[0], r);
      BackfillEnds(Apply(s, es[0]), es[1..], r);
    }
  }

  // ---------------------------------------------------------------- hard timeouts alone

  /** A chunk of run `r` was too heavy for its hard time limit. */
  predicate TimesOut(s: State, e: Event, r: nat) {
    s.worker.Chunk? && s.worker.run == r && e == Step(TimeoutChunk)
  }

  ghost function Timeouts(s: State, es: seq<Event>, r: nat): nat
    requires Possible(s, es)
    decreases |es|
  {
    if es == [] then 0 else One(TimesOut(s, es[0], r)) + Timeouts(Apply(s, es[0]), es[1..], r)
  }

  /** The hard timeouts run `r` can still have, the one that fails it included. */
  function Left(s: State, r: nat): nat {
    if r in s.runs && s.runs[r].state.Running? then HalvingsLeft(s.runs[r].chunkSize, CHUNK_SIZE_FLOOR) + 1 else 0
  }

  /** A size as it may be later: no larger, and not below the floor unless it started there. */
  predicate Shrunk(size: nat, size': nat) {
    && size' <= size
    && (CHUNK_SIZE_FLOOR <= size ==> CHUNK_SIZE_FLOOR <= size')
    && (size < CHUNK_SIZE_FLOOR ==> size' == size)
  }

  ghost predicate OnlyShrinks(s: State, s': State, r: nat) {
    r in s'.runs ==> r in s.runs && Shrunk(s.runs[r].chunkSize, s'.runs[r].chunkSize)
  }

  lemma ChunkSpendsTimeouts(s: State, c: ChunkEvent, r: nat)
    requires Generations(s) && ChunkMay(s, c)
    ensures Left(ChunkStep(s, c), r) + One(TimesOut(s, Step(c), r)) <= Left(s, r)
    ensures OnlyShrinks(s, ChunkStep(s, c), r) && ChunkStep(s, c).nextRun == s.nextRun
  {
    match c
    case Deliver(m) =>
    case FinishChunk =>
    case TimeoutChunk => HalvingShrinks(s.runs[s.worker.run].chunkSize, CHUNK_SIZE_FLOOR);
    case FailChunk =>
  }

  lemma StartKeepsTimeouts(s: State, l: StartEvent, r: nat)
    requires Generations(s) && StartMay(s, l) && r < s.nextRun
    ensures Left(StartStep(s, l), r) <= Left(s, r) && OnlyShrinks(s, StartStep(s, l), r)
    ensures s.nextRun <= StartStep(s, l).nextRun
  {
  }

  lemma IndexerKeepsTimeouts(s: State, i: IndexerEvent, r: nat)
    requires WellFormed(s) && IndexerMay(s, i)
    ensures Left(IndexerStep(s, i), r) <= Left(s, r) && OnlyShrinks(s, IndexerStep(s, i), r)
    ensures s.nextRun == IndexerStep(s, i).nextRun
  {
  }

  lemma NightKeepsTimeouts(s: State, n: NightlyEvent, r: nat)
    requires NightlyMay(s, n)
    ensures Left(NightlyStep(s, n), r) <= Left(s, r) && OnlyShrinks(s, NightlyStep(s, n), r)
    ensures s.nextRun == NightlyStep(s, n).nextRun
  {
  }

  lemma FaultKeepsTimeouts(s: State, f: FaultEvent, r: nat)
    requires FaultMay(s, f)
    ensures Left(FaultStep(s, f), r) <= Left(s, r) && OnlyShrinks(s, FaultStep(s, f), r)
    ensures s.nextRun == FaultStep(s, f).nextRun
  {
  }

  lemma EventSpendsTimeouts(s: State, e: Event, r: nat)
    requires Generations(s) && Enabled(s, e) && r < s.nextRun
    ensures Left(Apply(s, e), r) + One(TimesOut(s, e, r)) <= Left(s, r)
    ensures OnlyShrinks(s, Apply(s, e), r) && s.nextRun <= Apply(s, e).nextRun
  {
    match e
    case Step(c) => ChunkSpendsTimeouts(s, c, r);
    case Start(l) => StartKeepsTimeouts(s, l, r);
    case Indexer(i) => IndexerKeepsTimeouts(s, i, r);
    case Night(n) => NightKeepsTimeouts(s, n, r);
    case SeedBatch =>
    case Fault(f) => FaultKeepsTimeouts(s, f, r);
  }

  /**
   Hard timeouts spend what is left of them; a chunk size never grows, nor drops below the
   floor unless it started there.
   */
  lemma {:induction false} TimeoutsAreSpent(s: State, es: seq<Event>, r: nat)
    requires Generations(s) && r < s.nextRun && Possible(s, es)
    ensures Timeouts(s, es, r) + Left(After(s, es), r) <= Left(s, r)
    ensures OnlyShrinks(s, After(s, es), r)
    decreases |es|
  {
    if es != [] {
      EventSpendsTimeouts(s, es[0], r);
      GenerationsKept(s, es[0]);
      TimeoutsAreSpent(Apply(s, es[0]), es[1..], r);
    }
  }

  /**
   From a chunk size of at most `floor * 2^k`, a run that is still going has survived at
   most `k` hard timeouts, over any events whatever; the next one after that fails it.
   */
  lemma RunSurvivesLogTimeouts(s: State, es: seq<Event>, r: nat, k: nat)
    requires Generations(s) && r < s.nextRun && Possible(s, es)
    requires r in s.runs && s.runs[r].chunkSize <= CHUNK_SIZE_FLOOR * Pow2(k)
    ensures Timeouts(s, es, r) <= k + 1
    ensures r in After(s, es).runs && After(s, es).runs[r].state.Running? ==> Timeouts(s, es, r) <= k
  {
    TimeoutsAreSpent(s, es, r);
    HalvingsAtMostLog(s.runs[r].chunkSize, CHUNK_SIZE_FLOOR, k);
  }
}
