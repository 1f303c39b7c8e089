/**
 Theorems over whole executions of the native rollup and its backfill: what holds
 after any sequence of events, and what a superseded chunk can still do.
 */
module NativeRuns {
  import opened Options
  import opened Ledger
  import opened NativeBalances
  import opened NativeProtocol
  import opened NativeSafety

  // ------------------------------------------------------------------- safety

  ghost predicate Invariant(s: State) {
    Generations(s) && Sound(s) && Owed(s)
  }

  ghost predicate AllCareful(s: State, es: seq<Event>)
    requires Possible(s, es)
    decreases |es|
  {
    es == [] || (Careful(s, es[0]) && AllCareful(Apply(s, es[0]), es[1..]))
  }

  lemma InitialHolds(s: State)
    requires Initial(s)
    ensures Invariant(s) && Solo(s)
  {
  }

  lemma {:induction false} InvariantOfCarefulRuns(s: State, es: seq<Event>)
    requires Invariant(s) && Possible(s, es) && AllCareful(s, es)
    ensures Invariant(After(s, es))
    decreases |es|
  {
    if es != [] {
      GenerationsKept(s, es[0]);
      SoundKept(s, es[0]);
      OwedKept(s, es[0]);
      InvariantOfCarefulRuns(Apply(s, es[0]), es[1..]);
    }
  }

  lemma {:induction false} UnattendedRunsAreCareful(s: State, es: seq<Event>)
    requires Invariant(s) && Solo(s) && Possible(s, es) && forall e :: e in es ==> !ByHand(e)
    ensures AllCareful(s, es)
    decreases |es|
  {
    if es != [] {
      assert es[0] in es;
      SoloIsCareful(s, es[0]);
      GenerationsKept(s, es[0]);
      SoundKept(s, es[0]);
      OwedKept(s, es[0]);
      SoloKept(s, es[0]);
      UnattendedRunsAreCareful(Apply(s, es[0]), es[1..]);
    }
  }

  /**
   In every state reached from an empty rollup, with chunks that write only where
   the rollup stands: each published balance is the from-scratch sum at the
   watermark, each run has at most one live chunk, and a finished run left no Safe
   it walked past without a row.
   */
  lemma CarefulRunsAreSafe(s0: State, es: seq<Event>)
    requires Initial(s0) && Possible(s0, es) && AllCareful(s0, es)
    ensures var s := After(s0, es);
            && (s.watermark.Some? ==>
                  forall a :: a in s.rows ==> s.rows[a].balance == BalanceAt(s.h, a, s.watermark.value))
            && (forall r :: r in s.runs ==> Live(s, r) <= 1)
            && (forall r :: r in s.runs && s.runs[r].state.Finished? ==> s.runs[r].due <= s.rows.Keys)
  {
    InitialHolds(s0);
    InvariantOfCarefulRuns(s0, es);
    var s := After(s0, es);
    assert forall r :: r in s.runs ==> Paid(s.runs[r], s.safes, s.rows);
  }

  /** Left to the bootstrap stage and the nightly task alone, every execution is safe. */
  lemma UnattendedRunsAreSafe(s0: State, es: seq<Event>)
    requires Initial(s0) && Possible(s0, es) && forall e :: e in es ==> !ByHand(e)
    ensures var s := After(s0, es);
            && (s.watermark.Some? ==>
                  forall a :: a in s.rows ==> s.rows[a].balance == BalanceAt(s.h, a, s.watermark.value))
            && (forall r :: r in s.runs ==> Live(s, r) <= 1)
            && (forall r :: r in s.runs && s.runs[r].state.Finished? ==> s.runs[r].due <= s.rows.Keys)
  {
    InitialHolds(s0);
    UnattendedRunsAreCareful(s0, es);
    CarefulRunsAreSafe(s0, es);
  }

  /**
   In the terms of the trace table: what the Safe received in successful calls less what it
   sent, through the watermark.
   */
  lemma PublishedBalancesAreTraceSums(s0: State, es: seq<Event>, traces: seq<InternalTx>)
    requires Initial(s0) && Possible(s0, es) && forall e :: e in es ==> !ByHand(e)
    requires After(s0, es).h == Movements(traces) && After(s0, es).watermark.Some?
    ensures var s, w := After(s0, es), After(s0, es).watermark.value;
            forall a :: a in s.rows ==> s.rows[a].balance == EtherIn(traces, a, w) - EtherOut(traces, a, w)
  {
    UnattendedRunsAreSafe(s0, es);
    var s := After(s0, es);
    forall a | a in s.rows
      ensures BalanceAt(s.h, a, s.watermark.value)
           == EtherIn(traces, a, s.watermark.value) - EtherOut(traces, a, s.watermark.value)
    {
      BalanceIsTheTwoLegs(traces, a, s.watermark.value);
    }
  }

  /**
   A completed nightly run: every Safe its seed step saw has a row, complete through
   the new head, and the delta added no row, so a Safe indexed meanwhile waits for
   the next run's seed.
   */
  lemma NightlyCompletes(s: State)
    requires Invariant(s) && NightlyMay(s, FinishNightly)
    ensures var s' := NightlyStep(s, FinishNightly);
            && s'.watermark == Some(s.worker.head) && s.watermark.value <= s.worker.head
            && s'.rows.Keys == s.rows.Keys && s.worker.seen <= s'.rows.Keys
            && RowsAt(s'.rows, s'.h, s.worker.head)
  {
    DeltaAdvancesRows(s.rows, s.worker.from, s.worker.head, s.h);
    assert s.worker.todo[Done(s.worker)..] == [];
  }

  /** The chunk that walks off the end hands over a rollup the nightly run can build on. */
  lemma BackfillHandsOver(s: State)
    requires Invariant(s) && ChunkMay(s, FinishChunk) && Careful(s, Step(FinishChunk))
    requires s.worker.page == [] && s.watermark.None?
    ensures var run := s.runs[s.worker.run];
            var s' := CompleteChunk(s);
            && s'.watermark == Some(run.head) && RowsAt(s'.rows, s'.h, run.head)
            && run.due <= s'.rows.Keys
  {
    var run := s.runs[s.worker.run];
    StampedRowsStandThere(s, run.head);
    assert Paid(run, s.safes, s.rows);
    assert Beyond(run.due, run.cursor) == {};
  }

  // ----------------------------------------------------------- superseded chunks

  /** A message that was sent and will not do: its run is over, gone, or has moved to a later generation. */
  predicate Outdated(s: State, m: Message) {
    m.run < s.nextRun &&
    (m.run in s.runs ==> !s.runs[m.run].state.Running? || m.dispatchSeq < s.runs[m.run].dispatchSeq)
  }

  /** In the queue, that is every message that is not the current one. */
  lemma NotCurrentIsOutdated(s: State, m: Message)
    requires Generations(s) && m in s.queue
    ensures Outdated(s, m) <==> !Current(s, m)
  {
  }

  /** No run is reopened, brought back or taken to an earlier generation. */
  ghost predicate OnlyForward(s: State, s': State) {
    s.nextRun <= s'.nextRun && forall r :: r in s'.runs && r < s.nextRun ==>
      && r in s.runs && s.runs[r].dispatchSeq <= s'.runs[r].dispatchSeq
      && (s'.runs[r].state.Running? ==> s.runs[r].state.Running?)
  }

  lemma ChunkGoesForward(s: State, c: ChunkEvent)
    requires Generations(s) && ChunkMay(s, c)
    ensures OnlyForward(s, ChunkStep(s, c))
  {
    match c
    case Deliver(m) =>
    case FinishChunk =>
    case TimeoutChunk =>
    case FailChunk =>
  }

  lemma StartGoesForward(s: State, l: StartEvent)
    requires Generations(s) && StartMay(s, l)
    ensures OnlyForward(s, StartStep(s, l))
  {
    match l
    case Bootstrap(chunkSize) =>
    case ManualStart(chunkSize) =>
    case ResumeStalled =>
  }

  lemma IndexerGoesForward(s: State, i: IndexerEvent)
    requires Generations(s) && IndexerMay(s, i)
    ensures OnlyForward(s, IndexerStep(s, i))
  {
  }

  lemma NightGoesForward(s: State, n: NightlyEvent)
    requires NightlyMay(s, n)
    ensures OnlyForward(s, NightlyStep(s, n))
  {
  }

  lemma EventGoesForward(s: State, e: Event)
    requires Generations(s) && Enabled(s, e)
    ensures OnlyForward(s, Apply(s, e))
  {
    match e
    case Indexer(i) => IndexerGoesForward(s, i);
    case Start(l) => StartGoesForward(s, l);
    case Step(c) => ChunkGoesForward(s, c);
    case Night(n) => NightGoesForward(s, n);
    case SeedBatch =>
    case Fault(f) =>
  }

  lemma {:induction false} OutdatedForever(s: State, m: Message, es: seq<Event>)
    requires Generations(s) && Outdated(s, m) && Possible(s, es)
    ensures Generations(After(s, es)) && Outdated(After(s, es), m)
    decreases |es|
  {
    if es != [] {
      EventGoesForward(s, es[0]);
      GenerationsKept(s, es[0]);
      OutdatedForever(Apply(s, es[0]), m, es[1..]);
    }
  }

  /**
   A chunk message that is not the current one of its run, because a hand-off, a shrink
   or a resume superseded it or because the run is over, never becomes current again:
   whenever it is delivered, after anything else has happened, it only leaves the queue.
   */
  lemma SupersededChunkNeverWrites(s: State, m: Message, es: seq<Event>)
    requires Generations(s) && m in s.queue && !Current(s, m) && Possible(s, es)
    requires WellFormed(After(s, es)) && Enabled(After(s, es), Step(Deliver(m)))
    ensures var late := After(s, es); Apply(late, Step(Deliver(m))) == late.(queue := late.queue - multiset{m})
  {
    NotCurrentIsOutdated(s, m);
    OutdatedForever(s, m, es);
    StaleChunkDoesNothing(After(s, es), m);
  }
}
