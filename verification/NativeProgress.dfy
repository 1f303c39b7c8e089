/**
 What the writers of the native rollup get done: which head a run takes, what an ended
 chunk leaves, how often a heavy one is retried, and that nothing but a fault strands
 a run.
 */
module NativeProgress {
  import opened Options
  import Ledger
  import opened Ordering
  import opened NativeBalances
  import opened BackfillSizing
  import opened NativeProtocol
  import opened NativeSafety
  import opened NativeRuns
  import opened NativeTermination

  // ------------------------------------------------------------------- where a run starts

  /** A new run of that head is going, the latest, with one chunk of it sent. */
  ghost predicate Launched(s: State, s': State, head: nat, chunkSize: nat) {
    && s.nextRun in s'.runs && s'.latest == Some(s.nextRun) && s'.nextRun == s.nextRun + 1
    && s'.runs == s.runs[s.nextRun := s'.runs[s.nextRun]]
    && s'.runs[s.nextRun].state.Running? && s'.runs[s.nextRun].head == head
    && s'.runs[s.nextRun].chunkSize == chunkSize && s'.runs[s.nextRun].cursor.None?
    && s'.runs[s.nextRun].due == s.safes
    && s'.queue == s.queue + multiset{Message(s.nextRun, s'.runs[s.nextRun].dispatchSeq)}
    && s'.rows == s.rows && s'.watermark == s.watermark && s'.worker == s.worker
  }

  /** The block a rollup without a watermark may still be filled at: the stamp its rows share, or the safe head. */
  ghost predicate MayFillAt(s: State, b: nat) {
    if s.rows != map[] then StampedAt(s.rows, b)
    else Settled(s.chain, s.reorgBlocks, b) && forall c: nat :: Settled(s.chain, s.reorgBlocks, c) ==> c <= b
  }

  lemma OpenHeadIsWhereToFill(s: State, b: nat)
    ensures OpenHead(s) == Some(b) <==> MayFillAt(s, b)
  {
    HeadIsHighestSettledBlock(s.chain, s.reorgBlocks);
    var head := HeadBlock(s.chain, s.reorgBlocks);
    if s.rows == map[] {
      if head.Some? { assert Settled(s.chain, s.reorgBlocks, head.value); }
    } else {
      var a :| a in s.rows;
      assert forall c: nat :: StampedAt(s.rows, c) ==> c == s.rows[a].updatedTo;
    }
  }

  /** The bootstrap starts a run at exactly that block, and none where there is no such block. */
  lemma BootstrapStartsWhereToFill(s: State, chunkSize: nat, b: nat)
    requires StartMay(s, Bootstrap(chunkSize))
    ensures Launched(s, StartStep(s, Bootstrap(chunkSize)), b, chunkSize) <==> MayFillAt(s, b)
    ensures (forall c: nat :: !MayFillAt(s, c)) ==> StartStep(s, Bootstrap(chunkSize)) == s
  {
    OpenHeadIsWhereToFill(s, b);
    if OpenHead(s).Some? { OpenHeadIsWhereToFill(s, OpenHead(s).value); }
  }

  /** A person's start tops up at the watermark when there is one; either way it needs a settled block. */
  lemma ManualStartTakesItsHead(s: State, chunkSize: nat, b: nat)
    requires StartMay(s, ManualStart(chunkSize))
    ensures Launched(s, StartStep(s, ManualStart(chunkSize)), b, chunkSize) <==>
              && (exists c: nat :: Settled(s.chain, s.reorgBlocks, c))
              && (if s.watermark.Some? then b == s.watermark.value else MayFillAt(s, b))
  {
    HeadIsHighestSettledBlock(s.chain, s.reorgBlocks);
    OpenHeadIsWhereToFill(s, b);
    var head := HeadBlock(s.chain, s.reorgBlocks);
    if head.Some? { assert Settled(s.chain, s.reorgBlocks, head.value); }
  }

  /** The nightly run sets out from the watermark to the highest settled block, having seen every Safe. */
  lemma NightlySetsOutForTheHead(s: State, todo: seq<Address>)
    requires NightlyMay(s, StartNightly(todo))
    ensures var s' := NightlyStep(s, StartNightly(todo));
            && s'.worker.Nightly? && s'.worker.seen == s.safes && s'.watermark == Some(s'.worker.from)
            && Settled(s.chain, s.reorgBlocks, s'.worker.head)
            && (forall c: nat :: Settled(s.chain, s.reorgBlocks, c) ==> c <= s'.worker.head)
            && (if s.watermark.Some? then s'.watermark == s.watermark && s'.rows == s.rows && s'.worker.todo == todo
                else s'.worker.from == s'.worker.head && s'.rows.Keys == s.safes)
  {
    HeadIsHighestSettledBlock(s.chain, s.reorgBlocks);
    assert Settled(s.chain, s.reorgBlocks, HeadBlock(s.chain, s.reorgBlocks).value);
  }

  // ------------------------------------------------------------------- what a chunk leaves

  /** The lock is free, and the run's one live chunk is in the queue. */
  ghost predicate HandedOn(s: State, r: nat) {
    && s.worker.Idle? && r in s.runs && s.runs[r].state.Running?
    && s.queue[Message(r, s.runs[r].dispatchSeq)] == 1
  }

  /** Nothing but the run's own manifest, the queue and the lock has changed. */
  ghost predicate OnlyTheRun(s: State, s': State, r: nat) {
    && s'.rows == s.rows && s'.watermark == s.watermark && s'.safes == s.safes && s'.latest == s.latest
    && s'.runs.Keys == s.runs.Keys && forall q :: q in s.runs && q != r ==> s'.runs[q] == s.runs[q]
  }

  /**
   A hard timeout: the run fails exactly when its chunk size is at the floor already,
   and otherwise goes on from the same cursor with half the size, the floor at least.
   */
  lemma TimeoutHalvesOrFails(s: State)
    requires Generations(s) && s.worker.Chunk?
    ensures var r := s.worker.run;
            var s' := Apply(s, Step(TimeoutChunk));
            var run, run' := s.runs[r], s'.runs[r];
            && OnlyTheRun(s, s', r) && s'.worker.Idle?
            && (run.chunkSize <= CHUNK_SIZE_FLOOR ==> run' == run.(state := Failed) && s'.queue == s.queue)
            && (run.chunkSize > CHUNK_SIZE_FLOOR ==>
                  && HandedOn(s', r) && run'.cursor == run.cursor && run'.head == run.head
                  && run'.chunkSize ==
                     (if run.chunkSize / 2 > CHUNK_SIZE_FLOOR then run.chunkSize / 2 else CHUNK_SIZE_FLOOR)
                  && run'.seen == run.seen && run'.seeded == run.seeded && run'.present == run.present)
  {
    GenerationsKept(s, Step(TimeoutChunk));
    RedispatchedIsLive(s);
  }

  /** The queue holds no message of a generation to come. */
  lemma RedispatchedIsLive(s: State)
    requires Generations(s) && s.worker.Chunk?
    ensures Message(s.worker.run, s.runs[s.worker.run].dispatchSeq + 1) !in s.queue
  {
  }

  /**
   A delivered chunk: superseded, it only leaves the queue; locked out, it changes
   nothing and its message stays; otherwise it takes the next Safes past the cursor,
   without a gap and in order, and sets out to seed just those that have no row.
   */
  lemma DeliveryTakesTheNextPage(s: State, m: Message)
    requires Generations(s) && m in s.queue
    ensures var s' := Apply(s, Step(Deliver(m)));
            var live := m.run in s.runs && s.runs[m.run].state.Running? && s.runs[m.run].dispatchSeq == m.dispatchSeq;
            && (!live ==> s' == s.(queue := s.queue - multiset{m}))
            && (live && !s.worker.Idle? ==> s' == s)
            && (live && s.worker.Idle? ==>
                  && s' == s.(queue := s.queue - multiset{m}, worker := s'.worker)
                  && s'.worker.Chunk? && s'.worker.run == m.run && s'.worker.dispatchSeq == m.dispatchSeq
                  && s'.worker.done == 0 && Takes(s, s.runs[m.run], s'.worker.page, s'.worker.todo))
  {
    if Current(s, m) && s.worker.Idle? {
      TakesThePage(s, s.runs[m.run]);
    }
  }

  /** The next page of a run, and its Safes without a row. */
  ghost predicate Takes(s: State, run: Manifest, page: seq<Address>, todo: seq<Address>) {
    && (forall i, j :: 0 <= i < j < |page| ==> page[i] < page[j])
    && (forall a :: a in page ==> a in s.safes && (run.cursor.Some? ==> a > run.cursor.value))
    && (forall a :: a in s.safes && (run.cursor.Some? ==> a > run.cursor.value) && a !in page ==>
          |page| == run.chunkSize && forall b :: b in page ==> b < a)
    && |page| <= run.chunkSize
    && (forall a :: a in todo <==> a in page && a !in s.rows)
    && |todo| + |Members(page) * s.rows.Keys| == |page|
  }

  lemma TakesThePage(s: State, run: Manifest)
    ensures var page := SafesAfter(s.safes, run.cursor, run.chunkSize);
            Takes(s, run, page, Missing(page, s.rows.Keys))
  {
    AddressOrderIsStrict();
    var beyond := Beyond(s.safes, run.cursor);
    var page := SafesAfter(s.safes, run.cursor, run.chunkSize);
    PageWithin(beyond, BY_ADDRESS, run.chunkSize);
    assert forall i, j :: 0 <= i < j < |page| ==> BY_ADDRESS(page[i], page[j]);
    forall a | a in beyond && a !in page
      ensures |page| == run.chunkSize && forall b :: b in page ==> b < a
    {
      PageHasNoGap(beyond, BY_ADDRESS, run.chunkSize, a);
      assert forall b :: b in page ==> BY_ADDRESS(b, a);
    }
    PageIsDistinct(page);
    MissingCount(page, s.rows.Keys);
  }

  /** One batch: the next Safes of the page get their rows, the chunk's place moves past them, nothing else changes. */
  lemma BatchStoresItsSafes(s: State)
    requires Generations(s) && BatchMay(s)
    ensures var s' := Apply(s, SeedBatch);
            && s' == s.(rows := s'.rows, worker := s'.worker) && !s'.worker.Idle?
            && s'.worker.done == Min(s.worker.done + SEED_BATCH, |s.worker.todo|)
            && s'.worker.todo == s.worker.todo
            && s'.rows.Keys == s.rows.Keys + Members(s.worker.todo[s.worker.done..s'.worker.done])
            && forall a :: a in s.rows ==> s'.rows[a] == s.rows[a]
  {
  }

  /** A chunk that fails fails its run, and sends nothing. */
  lemma FailureFailsTheRun(s: State)
    requires Generations(s) && s.worker.Chunk?
    ensures var s' := Apply(s, Step(FailChunk));
            && OnlyTheRun(s, s', s.worker.run) && s'.queue == s.queue && s'.worker.Idle?
            && s'.runs[s.worker.run] == s.runs[s.worker.run].(state := Failed)
  {
  }

  /** A page seeded to its end: the cursor is on its last Safe, all of it is counted, and the next chunk is sent. */
  lemma FinishedPageIsHandedOn(s: State)
    requires Invariant(s) && ChunkMay(s, FinishChunk) && s.worker.page != []
    ensures var r, page := s.worker.run, s.worker.page;
            var s' := Apply(s, Step(FinishChunk));
            var run, run' := s.runs[r], s'.runs[r];
            && OnlyTheRun(s, s', r) && HandedOn(s', r)
            && run'.cursor == Some(page[|page| - 1]) && run'.chunkSize == run.chunkSize && run'.head == run.head
            && run'.seen == run.seen + |page| && run'.seeded == run.seeded + |s.worker.todo|
            && run'.seeded - run.seeded + run'.present - run.present == |page|
  {
    GenerationsKept(s, Step(FinishChunk));
    RedispatchedIsLive(s);
  }

  /** Past the last Safe: the run is finished, with the watermark written unless there was one. */
  lemma LastChunkClosesTheRun(s: State)
    requires Generations(s) && ChunkMay(s, FinishChunk) && s.worker.page == []
    ensures var r := s.worker.run;
            var s' := Apply(s, Step(FinishChunk));
            && s'.runs[r] == s.runs[r].(state := Finished) && s'.worker.Idle? && s'.queue == s.queue
            && s'.rows == s.rows && s'.watermark == (if s.watermark.Some? then s.watermark else Some(s.runs[r].head))
  {
  }

  // --------------------------------------------------------- how often a run is retried

  /** One event, seen by a run that is going after it: each hard timeout took exactly one halving. */
  lemma EventCountsHalvings(s: State, e: Event, r: nat)
    requires Generations(s) && Enabled(s, e) && r < s.nextRun
    requires r in Apply(s, e).runs && Apply(s, e).runs[r].state.Running?
    ensures r in s.runs && s.runs[r].state.Running?
    ensures One(TimesOut(s, e, r)) + HalvingsLeft(Apply(s, e).runs[r].chunkSize, CHUNK_SIZE_FLOOR)
         == HalvingsLeft(s.runs[r].chunkSize, CHUNK_SIZE_FLOOR)
  {
    EventGoesForward(s, e);
    if TimesOut(s, e, r) {
      TimeoutHalvesOrFails(s);
      OneHalving(s.runs[r].chunkSize);
    } else {
      SizeStays(s, e, r);
    }
  }

  lemma OneHalving(size: nat)
    requires size > CHUNK_SIZE_FLOOR
    ensures HalvingsLeft(size, CHUNK_SIZE_FLOOR)
         == 1 + HalvingsLeft(if size / 2 > CHUNK_SIZE_FLOOR then size / 2 else CHUNK_SIZE_FLOOR, CHUNK_SIZE_FLOOR)
  {
  }

  lemma ChunkKeepsSize(s: State, c: ChunkEvent, r: nat)
    requires Generations(s) && ChunkMay(s, c) && r in s.runs && !TimesOut(s, Step(c), r)
    ensures r in ChunkStep(s, c).runs && ChunkStep(s, c).runs[r].chunkSize == s.runs[r].chunkSize
  {
    match c
    case Deliver(m) =>
    case FinishChunk =>
    case TimeoutChunk =>
    case FailChunk =>
  }

  lemma StartKeepsSize(s: State, l: StartEvent, r: nat)
    requires Generations(s) && StartMay(s, l) && r in s.runs
    ensures r in StartStep(s, l).runs && StartStep(s, l).runs[r].chunkSize == s.runs[r].chunkSize
  {
  }

  lemma IndexerKeepsSize(s: State, i: IndexerEvent, r: nat)
    requires WellFormed(s) && IndexerMay(s, i) && r in s.runs
    ensures r in IndexerStep(s, i).runs && IndexerStep(s, i).runs[r].chunkSize == s.runs[r].chunkSize
  {
  }

  lemma NightKeepsSize(s: State, n: NightlyEvent)
    requires NightlyMay(s, n)
    ensures NightlyStep(s, n).runs == s.runs
  {
  }

  lemma FaultKeepsSize(s: State, f: FaultEvent, r: nat)
    requires r in s.runs && r in FaultStep(s, f).runs
    ensures FaultStep(s, f).runs[r] == s.runs[r]
  {
  }

  lemma SizeStays(s: State, e: Event, r: nat)
    requires Generations(s) && Enabled(s, e) && !TimesOut(s, e, r) && r in s.runs && r in Apply(s, e).runs
    ensures Apply(s, e).runs[r].chunkSize == s.runs[r].chunkSize
  {
    match e
    case Step(c) => ChunkKeepsSize(s, c, r);
    case Start(l) => StartKeepsSize(s, l, r);
    case Indexer(i) => IndexerKeepsSize(s, i, r);
    case Night(n) => NightKeepsSize(s, n);
    case SeedBatch =>
    case Fault(f) => FaultKeepsSize(s, f, r);
  }

  /** A run that is still going has had exactly as many hard timeouts as its size has been halved. */
  lemma {:induction false} TimeoutsAreHalvings(s: State, es: seq<Event>, r: nat)
    requires Generations(s) && r < s.nextRun && Possible(s, es)
    requires r in After(s, es).runs && After(s, es).runs[r].state.Running?
    ensures r in s.runs && s.runs[r].state.Running?
    ensures Timeouts(s, es, r) + HalvingsLeft(After(s, es).runs[r].chunkSize, CHUNK_SIZE_FLOOR)
         == HalvingsLeft(s.runs[r].chunkSize, CHUNK_SIZE_FLOOR)
    decreases |es|
  {
    if es != [] {
      EventGoesForward(s, es[0]);
      GenerationsKept(s, es[0]);
      TimeoutsAreHalvings(Apply(s, es[0]), es[1..], r);
      EventCountsHalvings(s, es[0], r);
    }
  }

  /** So over any events a hard timeout fails its run exactly when every halving of its first size has been spent. */
  lemma TimeoutFailsExactlyWhenSpent(s: State, es: seq<Event>, r: nat)
    requires Generations(s) && r < s.nextRun && Possible(s, es) && TimesOut(After(s, es), Step(TimeoutChunk), r)
    requires Generations(After(s, es))
    ensures r in s.runs
    ensures var next := Apply(After(s, es), Step(TimeoutChunk));
            && (next.runs[r].state.Failed? <==>
                  Timeouts(s, es, r) == HalvingsLeft(s.runs[r].chunkSize, CHUNK_SIZE_FLOOR))
            && (!next.runs[r].state.Failed? ==> HandedOn(next, r))
  {
    TimeoutsAreHalvings(s, es, r);
    TimeoutHalvesOrFails(After(s, es));
  }

  // ---------------------------------------------------------------- nothing is stranded

  /** Each run that is going has a live chunk, queued or at work. */
  ghost predicate Lively(s: State) {
    forall r :: r in s.runs && s.runs[r].state.Running? ==> Live(s, r) == 1
  }

  lemma DeliverKeepsLively(s: State, m: Message)
    requires Generations(s) && Lively(s) && m in s.queue
    ensures Lively(Receive(s, m))
  {
    var s' := Receive(s, m);
    forall r | r in s'.runs && s'.runs[r].state.Running?
      ensures Live(s', r) == 1
    {
      assert Live(s, r) == 1;
    }
  }

  lemma RedispatchKeepsLively(s: State, r: nat, m: Manifest)
    requires Generations(s) && Lively(s) && r in s.runs && m.dispatchSeq == s.runs[r].dispatchSeq
    requires s.worker.Idle? || (s.worker.Chunk? && s.worker.run == r)
    ensures Lively(Redispatch(s, r, m))
  {
    var s' := Redispatch(s, r, m);
    forall q | q in s'.runs && s'.runs[q].state.Running?
      ensures Live(s', q) == 1
    {
      if q == r { assert Message(r, m.dispatchSeq + 1) !in s.queue; } else { assert Live(s, q) == 1; }
    }
  }

  lemma ChunkKeepsLively(s: State, c: ChunkEvent)
    requires Generations(s) && Lively(s) && ChunkMay(s, c)
    ensures Lively(ChunkStep(s, c))
  {
    match c
    case Deliver(m) => DeliverKeepsLively(s, m);
    case FinishChunk =>
      if s.worker.page != [] {
        RedispatchKeepsLively(s, s.worker.run, PageDone(s.runs[s.worker.run], s.worker.page, s.worker.todo));
      } else {
        EndKeepsLively(s, CompleteChunk(s));
      }
    case TimeoutChunk =>
      if s.runs[s.worker.run].chunkSize > CHUNK_SIZE_FLOOR {
        var size := HalvedOrNone(s.runs[s.worker.run].chunkSize, CHUNK_SIZE_FLOOR).value;
        RedispatchKeepsLively(s, s.worker.run, s.runs[s.worker.run].(chunkSize := size));
      } else {
        EndKeepsLively(s, ShrinkOrFail(s));
      }
    case FailChunk => EndKeepsLively(s, FailRun(s));
  }

  /** A chunk that ends its run leaves the others theirs. */
  lemma EndKeepsLively(s: State, s': State)
    requires Generations(s) && Lively(s) && s.worker.Chunk? && s'.worker.Idle? && s'.queue == s.queue
    requires s'.runs.Keys == s.runs.Keys && !s'.runs[s.worker.run].state.Running?
    requires forall r :: r in s.runs && r != s.worker.run ==> s'.runs[r] == s.runs[r]
    ensures Lively(s')
  {
    forall r | r in s'.runs && s'.runs[r].state.Running?
      ensures Live(s', r) == 1
    {
      assert Live(s, r) == 1;
    }
  }

  lemma LaunchKeepsLively(s: State, head: Option<nat>, chunkSize: nat)
    requires Generations(s) && Lively(s)
    ensures Lively(Launch(s, head, chunkSize))
  {
    var s' := Launch(s, head, chunkSize);
    if head.Some? {
      assert s.nextRun !in s.runs;
      forall r | r in s'.runs && s'.runs[r].state.Running?
        ensures Live(s', r) == 1
      {
        if r != s.nextRun { assert Live(s, r) == 1; } else { assert Message(r, 1) !in s.queue; }
      }
    }
  }

  lemma StartKeepsLively(s: State, l: StartEvent)
    requires Generations(s) && Lively(s) && StartMay(s, l)
    ensures Lively(StartStep(s, l))
  {
    match l
    case Bootstrap(chunkSize) => LaunchKeepsLively(s, OpenHead(s), chunkSize);
    case ManualStart(chunkSize) => LaunchKeepsLively(s, ResolveHead(s), chunkSize);
    case ResumeStalled => RedispatchKeepsLively(s, s.latest.value, s.runs[s.latest.value]);
  }

  /** Steps that touch neither queue nor generations nor a chunk at work. */
  lemma QuietKeepsLively(s: State, s': State)
    requires Lively(s) && s'.queue == s.queue
    requires forall r :: r in s'.runs ==>
               r in s.runs && s'.runs[r].state == s.runs[r].state && s'.runs[r].dispatchSeq == s.runs[r].dispatchSeq
    requires s.worker.Chunk? || s'.worker.Chunk? ==>
               && s.worker.Chunk? && s'.worker.Chunk?
               && s'.worker.run == s.worker.run && s'.worker.dispatchSeq == s.worker.dispatchSeq
    ensures Lively(s')
  {
    forall r | r in s'.runs && s'.runs[r].state.Running?
      ensures Live(s', r) == 1
    {
      assert Live(s, r) == 1;
    }
  }

  lemma EventKeepsLively(s: State, e: Event)
    requires Generations(s) && Lively(s) && Enabled(s, e) && !e.Fault?
    ensures Lively(Apply(s, e))
  {
    match e
    case Step(c) => ChunkKeepsLively(s, c);
    case Start(l) => StartKeepsLively(s, l);
    case Indexer(i) => QuietKeepsLively(s, IndexerStep(s, i));
    case Night(n) => QuietKeepsLively(s, NightlyStep(s, n));
    case SeedBatch => QuietKeepsLively(s, InsertBatch(s));
  }

  /**
   A run that is going has exactly one live chunk, through hand-offs, lock-outs, shrinks,
   starts, resumes and nightly runs: only a killed worker or a lost message takes it away.
   */
  lemma {:induction false} OnlyFaultsStrandARun(s: State, es: seq<Event>)
    requires Generations(s) && Lively(s) && Possible(s, es) && forall e :: e in es ==> !e.Fault?
    ensures Lively(After(s, es))
    decreases |es|
  {
    if es != [] {
      assert es[0] in es;
      EventKeepsLively(s, es[0]);
      GenerationsKept(s, es[0]);
      OnlyFaultsStrandARun(Apply(s, es[0]), es[1..]);
    }
  }

  /** A resume gives a stranded run its live chunk back. */
  lemma ResumeRevives(s: State)
    requires Generations(s) && StartMay(s, ResumeStalled)
    ensures HandedOn(StartStep(s, ResumeStalled), s.latest.value)
  {
    assert Message(s.latest.value, s.runs[s.latest.value].dispatchSeq + 1) !in s.queue;
  }

  // ------------------------------------------------------------- a backfill left alone

  /** A run that is going and may write, with nobody at work and its live chunk in the queue. */
  ghost predicate UnderWay(s: State, r: nat) {
    && Invariant(s) && HandedOn(s, r) && s.watermark.None? && StampedAt(s.rows, s.runs[r].head)
  }

  lemma {:induction false} Then(s: State, e: Event, rest: seq<Event>)
    requires WellFormed(s) && Enabled(s, e) && Possible(Apply(s, e), rest)
    ensures Possible(s, [e] + rest) && After(s, [e] + rest) == After(Apply(s, e), rest)
  {
    assert ([e] + rest)[1..] == rest;
  }

  lemma CarefulKeepsInvariant(s: State, e: Event)
    requires Invariant(s) && Enabled(s, e) && Careful(s, e)
    ensures Invariant(Apply(s, e))
  {
    GenerationsKept(s, e);
    SoundKept(s, e);
    OwedKept(s, e);
  }

  /** The chunk at work may write, and has its whole page to seed or seeded. */
  ghost predicate AtWork(s: State, r: nat) {
    && Invariant(s) && s.worker.Chunk? && s.worker.run == r && s.watermark.None?
    && StampedAt(s.rows, s.runs[r].head)
  }

  lemma SeedKeepsAtWork(s: State, r: nat)
    requires AtWork(s, r) && BatchMay(s)
    ensures AtWork(Apply(s, SeedBatch), r) && Apply(s, SeedBatch).worker.done > s.worker.done
    ensures Apply(s, SeedBatch) == s.(rows := Apply(s, SeedBatch).rows, worker := Apply(s, SeedBatch).worker)
    ensures var w, w' := s.worker, Apply(s, SeedBatch).worker;
            w' == Chunk(w.run, w.dispatchSeq, w.page, w.todo, w'.done)
  {
    CarefulKeepsInvariant(s, SeedBatch);
    var next := Min(s.worker.done + SEED_BATCH, |s.worker.todo|);
    SeededAtHead(s.rows, s.worker.todo[s.worker.done..next], s.runs[r].head, s.h);
  }

  lemma SeededAtHead(rows: Rows, xs: seq<Address>, head: nat, h: seq<Ledger.Movement<Address>>)
    requires StampedAt(rows, head)
    ensures StampedAt(SeedRows(rows, xs, head, h), head)
  {
  }

  /** The run is finished, its head the watermark, every balance right there, and every Safe it owed a row has one. */
  ghost predicate HandedOver(s: State, r: nat) {
    && r in s.runs && s.runs[r].state.Finished? && s.watermark == Some(s.runs[r].head)
    && RowsAt(s.rows, s.h, s.runs[r].head) && s.runs[r].due <= s.rows.Keys
  }

  lemma ChunkStarts(s: State, r: nat)
    requires UnderWay(s, r)
    ensures var m := Message(r, s.runs[r].dispatchSeq);
            var s' := Receive(s, m);
            && Enabled(s, Step(Deliver(m))) && AtWork(s', r)
            && s' == s.(queue := s'.queue, worker := s'.worker)
            && IsAhead(s'.worker.page, s.runs[r])
            && (s'.worker.page == [] <==> Beyond(s.safes, s.runs[r].cursor) == {})
            && Members(s'.worker.page) <= Beyond(s.safes, s.runs[r].cursor)
  {
    var m := Message(r, s.runs[r].dispatchSeq);
    CarefulKeepsInvariant(s, Step(Deliver(m)));
    FreshPage(s, m);
    AddressOrderIsStrict();
    PageWithin(Beyond(s.safes, s.runs[r].cursor), BY_ADDRESS, s.runs[r].chunkSize);
    assert |Receive(s, m).worker.page| == Min(s.runs[r].chunkSize, |Beyond(s.safes, s.runs[r].cursor)|);
  }

  lemma ChunkEnds(s: State, r: nat)
    requires AtWork(s, r) && ChunkMay(s, FinishChunk) && Members(s.worker.page) <= Beyond(s.safes, s.runs[r].cursor)
    ensures var s' := Apply(s, Step(FinishChunk));
            && (s.worker.page == [] ==> HandedOver(s', r))
            && (s.worker.page != [] ==>
                  && UnderWay(s', r) && s'.safes == s.safes && s'.runs[r].due == s.runs[r].due
                  && |Beyond(s'.safes, s'.runs[r].cursor)| < |Beyond(s.safes, s.runs[r].cursor)|)
  {
    CarefulKeepsInvariant(s, Step(FinishChunk));
    if s.worker.page == [] {
      BackfillHandsOver(s);
    } else {
      FinishedPageIsHandedOn(s);
      var last := s.worker.page[|s.worker.page| - 1];
      assert last in Members(s.worker.page);
      SubsetSize(Beyond(s.safes, Some(last)), Beyond(s.safes, s.runs[r].cursor) - {last});
    }
  }

  predicate IsChunkWork(e: Event) { e == SeedBatch || (e.Step? && (e.c.Deliver? || e.c.FinishChunk?)) }

  /** Its message queued, or at work on Safes that are ahead of it. */
  ghost predicate Going(s: State, r: nat) {
    UnderWay(s, r) || (AtWork(s, r) && Members(s.worker.page) <= Beyond(s.safes, s.runs[r].cursor))
  }

  function SafesAhead(s: State, r: nat): nat
    requires r in s.runs
  {
    |Beyond(s.safes, s.runs[r].cursor)|
  }

  function BatchesLeft(w: Worker): nat {
    if w.Chunk? && w.done < |w.todo| then |w.todo| - w.done else 0
  }

  /** What a run does next when nothing interferes. */
  function NextEvent(s: State, r: nat): Event
    requires r in s.runs
  {
    if s.worker.Idle? then Step(Deliver(Message(r, s.runs[r].dispatchSeq)))
    else if BatchMay(s) then SeedBatch
    else Step(FinishChunk)
  }

  /** Each such event takes the run further: Safes ahead, then a chunk to start, then batches left. */
  lemma NextEventGoesOn(s: State, r: nat)
    requires Going(s, r)
    ensures r in s.runs && Enabled(s, NextEvent(s, r)) && WellFormed(s)
    ensures var s' := Apply(s, NextEvent(s, r));
            || HandedOver(s', r)
            || (&& Going(s', r)
                && (|| SafesAhead(s', r) < SafesAhead(s, r)
                    || (SafesAhead(s', r) == SafesAhead(s, r) && s.worker.Idle? && s'.worker.Chunk?)
                    || (&& SafesAhead(s', r) == SafesAhead(s, r) && s.worker.Chunk? && s'.worker.Chunk?
                        && BatchesLeft(s'.worker) < BatchesLeft(s.worker))))
  {
    if s.worker.Idle? {
      ChunkStarts(s, r);
    } else if BatchMay(s) {
      SeedKeepsAtWork(s, r);
    } else {
      ChunkEnds(s, r);
    }
  }

  /**
   Left alone, a backfill gets there: from any state in which the run may write and its
   live chunk is queued or at work, delivering, seeding and finishing chunk by chunk ends
   with the watermark written over balances that are right, one for each Safe it owed a row.
   */
  lemma {:induction false} BackfillLeftAloneFinishes(s: State, r: nat) returns (es: seq<Event>)
    requires Going(s, r)
    ensures Possible(s, es) && HandedOver(After(s, es), r)
    ensures forall e :: e in es ==> IsChunkWork(e)
    decreases SafesAhead(s, r), s.worker.Idle?, BatchesLeft(s.worker)
  {
    NextEventGoesOn(s, r);
    var e := NextEvent(s, r);
    var rest := [];
    if !HandedOver(Apply(s, e), r) {
      rest := BackfillLeftAloneFinishes(Apply(s, e), r);
    }
    Then(s, e, rest);
    es := [e] + rest;
  }
}
