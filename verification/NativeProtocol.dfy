/**
 Everything that writes the native rollup, interleaved: the nightly run, the
 chunked backfill with its manifests, messages and shared lock, and an indexer
 that adds Safes and blocks in between. Workers may die at any point and messages
 may be lost, delayed or superseded.
 */
module NativeProtocol {
  import opened Options
  import opened Ordering
  import opened Ledger
  import opened NativeBalances
  import opened BackfillSizing

  datatype RunState = Running | Finished | Failed

  /**
   A run's manifest. `due` is not stored by the program: it is the Safes the walk
   owes a row, those that were ahead of it when they appeared.
   */
  datatype Manifest = Manifest(
    head: nat, chunkSize: nat, cursor: Option<Address>, state: RunState, dispatchSeq: nat,
    seen: nat, seeded: nat, present: nat, due: set<Address>)

  datatype Message = Message(run: nat, dispatchSeq: nat)

  /** Who holds the shared rollup lock, and how far it got. */
  datatype Worker =
    | Idle
    | Chunk(run: nat, dispatchSeq: nat, page: seq<Address>, todo: seq<Address>, done: nat)
    | Nightly(from: nat, head: nat, seen: set<Address>, todo: seq<Address>, done: nat)

  /** `settled` is the highest safe head any writer has used so far. */
  datatype State = State(
    h: seq<Movement<Address>>, chain: ChainView, reorgBlocks: nat, settled: Option<nat>,
    safes: set<Address>, rows: Rows, watermark: Option<nat>,
    runs: map<nat, Manifest>, nextRun: nat, latest: Option<nat>,
    queue: multiset<Message>, worker: Worker)

  datatype Event =
    | Indexer(i: IndexerEvent)
    | Start(l: StartEvent)
    | Step(c: ChunkEvent)
    | Night(n: NightlyEvent)
    | SeedBatch
    | Fault(f: FaultEvent)

  datatype IndexerEvent =
    | Index(chain: ChainView, h: seq<Movement<Address>>)
    | CreateSafe(safe: Address)
    | DropSafe(safe: Address)

  /** The bootstrap stage starts or resumes a run; `ManualStart` is the command a person runs. */
  datatype StartEvent = Bootstrap(chunkSize: nat) | ManualStart(chunkSize: nat) | ResumeStalled

  datatype ChunkEvent = Deliver(message: Message) | FinishChunk | TimeoutChunk | FailChunk

  datatype NightlyEvent = StartNightly(todo: seq<Address>) | FinishNightly

  datatype FaultEvent = KillWorker | Lose(message: Message) | Expire(run: nat)

  // ------------------------------------------------------------------ queries

  function Beyond(safes: set<Address>, cursor: Option<Address>): set<Address> {
    set a | a in safes && (cursor.Some? ==> a > cursor.value)
  }

  /** One keyset page of Safes in primary-key order. */
  ghost function SafesAfter(safes: set<Address>, cursor: Option<Address>, limit: nat): seq<Address> {
    Page(Beyond(safes, cursor), BY_ADDRESS, limit)
  }

  function Raise(settled: Option<nat>, b: nat): Option<nat> {
    if settled.Some? && settled.value >= b then settled else Some(b)
  }

  predicate LatestRunning(s: State) {
    s.latest.Some? && s.latest.value in s.runs && s.runs[s.latest.value].state.Running?
  }

  predicate Current(s: State, m: Message) {
    m.run in s.runs && s.runs[m.run].state.Running? && s.runs[m.run].dispatchSeq == m.dispatchSeq
  }

  /**
   The block a new run computes balances as of: the watermark if there is one, else
   the block an interrupted run already stamped, else the safe head. None where the
   stamps disagree or nothing is settled.
   */
  ghost function ResolveHead(s: State): Option<nat> {
    if HeadBlock(s.chain, s.reorgBlocks).None? then None
    else if s.watermark.Some? then s.watermark
    else OpenHead(s)
  }

  ghost function OpenHead(s: State): Option<nat> {
    if s.rows == map[] then HeadBlock(s.chain, s.reorgBlocks)
    else if stamp: nat :| StampedAt(s.rows, stamp) then Some(stamp)
    else None
  }

  // -------------------------------------------------------------------- steps

  predicate IndexerMay(s: State, i: IndexerEvent) {
    match i
    case Index(_, h) => s.settled.Some? ==> Cut(h, s.settled.value) == Cut(s.h, s.settled.value)
    case CreateSafe(a) => a !in s.safes
    case DropSafe(a) => a in s.safes
  }

  function IndexerStep(s: State, i: IndexerEvent): State
    requires WellFormed(s)
  {
    match i
    case Index(chain, h) => s.(chain := chain, h := h)
    case CreateSafe(a) => s.(safes := s.safes + {a}, runs := Owe(s, a))
    case DropSafe(a) => s.(safes := s.safes - {a}, runs := Forgive(s, a))
  }

  predicate StartMay(s: State, l: StartEvent) {
    match l
    case Bootstrap(chunkSize) =>
      chunkSize > 0 && s.worker.Idle? && s.watermark.None? && !LatestRunning(s)
    case ManualStart(chunkSize) => chunkSize > 0
    case ResumeStalled => s.watermark.None? && s.worker.Idle? && LatestRunning(s)
  }

  ghost function StartStep(s: State, l: StartEvent): State
    requires StartMay(s, l)
  {
    match l
    case Bootstrap(chunkSize) => Launch(s, OpenHead(s), chunkSize)
    case ManualStart(chunkSize) => Launch(s, ResolveHead(s), chunkSize)
    case ResumeStalled => Redispatch(s, s.latest.value, s.runs[s.latest.value])
  }

  predicate ChunkMay(s: State, c: ChunkEvent) {
    match c
    case Deliver(m) => m in s.queue
    case FinishChunk => s.worker.Chunk? && s.worker.done >= |s.worker.todo|
    case TimeoutChunk => s.worker.Chunk?
    case FailChunk => s.worker.Chunk?
  }

  ghost function ChunkStep(s: State, c: ChunkEvent): State
    requires ChunkMay(s, c) && WellFormed(s)
  {
    match c
    case Deliver(m) => Receive(s, m)
    case FinishChunk => CompleteChunk(s)
    case TimeoutChunk => ShrinkOrFail(s)
    case FailChunk => FailRun(s)
  }

  predicate NightlyMay(s: State, n: NightlyEvent) {
    match n
    case StartNightly(todo) =>
      && s.worker.Idle? && HeadBlock(s.chain, s.reorgBlocks).Some?
      && Members(todo) == s.safes - s.rows.Keys && |s.safes - s.rows.Keys| <= MAX_SEED_PER_RUN
      && (if s.watermark.Some? then s.watermark.value <= HeadBlock(s.chain, s.reorgBlocks).value
          else !LatestRunning(s) && s.rows == map[])
    case FinishNightly => s.worker.Nightly? && s.worker.done >= |s.worker.todo|
  }

  function NightlyStep(s: State, n: NightlyEvent): State
    requires NightlyMay(s, n)
  {
    match n
    case StartNightly(todo) => BeginNightly(s, todo)
    case FinishNightly =>
      s.(rows := DeltaRows(s.rows, s.worker.from, s.worker.head, s.h),
         watermark := Some(s.worker.head), worker := Idle)
  }

  predicate FaultMay(s: State, f: FaultEvent) {
    match f
    case KillWorker => !s.worker.Idle?
    case Lose(m) => m in s.queue
    case Expire(r) => r in s.runs && !(s.worker.Chunk? && s.worker.run == r)
  }

  function FaultStep(s: State, f: FaultEvent): State {
    match f
    case KillWorker => s.(worker := Idle)
    case Lose(m) => s.(queue := s.queue - multiset{m})
    case Expire(r) => s.(runs := s.runs - {r})
  }

  predicate BatchMay(s: State) { !s.worker.Idle? && s.worker.done < |s.worker.todo| }

  predicate Enabled(s: State, e: Event) {
    match e
    case Indexer(i) => IndexerMay(s, i)
    case Start(l) => StartMay(s, l)
    case Step(c) => ChunkMay(s, c)
    case Night(n) => NightlyMay(s, n)
    case SeedBatch => BatchMay(s)
    case Fault(f) => FaultMay(s, f)
  }

  ghost function Apply(s: State, e: Event): State
    requires Enabled(s, e) && WellFormed(s)
  {
    match e
    case Indexer(i) => IndexerStep(s, i)
    case Start(l) => StartStep(s, l)
    case Step(c) => ChunkStep(s, c)
    case Night(n) => NightlyStep(s, n)
    case SeedBatch => InsertBatch(s)
    case Fault(f) => FaultStep(s, f)
  }

  /** A chunk that is executing belongs to a manifest that is still there. */
  predicate WellFormed(s: State) {
    s.worker.Chunk? ==> s.worker.run in s.runs
  }

  /** Whether a Safe that appears now is still ahead of run `r`'s walk. */
  predicate Ahead(s: State, r: nat, a: Address)
    requires r in s.runs
  {
    if s.worker.Chunk? && s.worker.run == r
    then s.worker.page != [] && a > s.worker.page[|s.worker.page| - 1]
    else s.runs[r].cursor.Some? ==> a > s.runs[r].cursor.value
  }

  function Owe(s: State, a: Address): map<nat, Manifest> {
    map r | r in s.runs ::
      if s.runs[r].state.Running? && Ahead(s, r, a)
      then s.runs[r].(due := s.runs[r].due + {a}) else s.runs[r]
  }

  function Forgive(s: State, a: Address): map<nat, Manifest> {
    map r | r in s.runs :: s.runs[r].(due := s.runs[r].due - {a})
  }

  function FailRun(s: State): State
    requires s.worker.Chunk? && WellFormed(s)
  {
    s.(runs := s.runs[s.worker.run := s.runs[s.worker.run].(state := Failed)], worker := Idle)
  }

  /** Persist a fresh manifest, point the cursor key at it, dispatch its first chunk. */
  function Launch(s: State, head: Option<nat>, chunkSize: nat): State {
    if head.None? then s else
      s.(settled := Raise(s.settled, head.value),
         runs := s.runs[s.nextRun := Manifest(head.value, chunkSize, None, Running, 1, 0, 0, 0, s.safes)],
         latest := Some(s.nextRun), nextRun := s.nextRun + 1,
         queue := s.queue + multiset{Message(s.nextRun, 1)})
  }

  /** Bump the dispatch generation, save, and send the next chunk under the new value. */
  function Redispatch(s: State, r: nat, m: Manifest): State {
    s.(runs := s.runs[r := m.(dispatchSeq := m.dispatchSeq + 1)],
       queue := s.queue + multiset{Message(r, m.dispatchSeq + 1)},
       worker := Idle)
  }

  /** A chunk message arrives: superseded, locked out (and sent again), or it takes the lock. */
  ghost function Receive(s: State, m: Message): State {
    if !Current(s, m) then s.(queue := s.queue - multiset{m})
    else if !s.worker.Idle? then s
    else
      var run := s.runs[m.run];
      var page := SafesAfter(s.safes, run.cursor, run.chunkSize);
      s.(queue := s.queue - multiset{m},
         worker := Chunk(m.run, m.dispatchSeq, page, Missing(page, s.rows.Keys), 0))
  }

  /** The lock holder commits its next batch of seeded rows. */
  function InsertBatch(s: State): State
    requires BatchMay(s) && WellFormed(s)
  {
    var next := Min(s.worker.done + SEED_BATCH, |s.worker.todo|);
    var b := if s.worker.Chunk? then s.runs[s.worker.run].head else s.worker.from;
    s.(rows := SeedRows(s.rows, s.worker.todo[s.worker.done..next], b, s.h),
       worker := s.worker.(done := next))
  }

  /** Hand off to the next chunk, or, past the last Safe, write the watermark and close the run. */
  function CompleteChunk(s: State): State
    requires s.worker.Chunk? && WellFormed(s)
  {
    var r, page := s.worker.run, s.worker.page;
    var run := s.runs[r];
    if page == [] then
      s.(watermark := if s.watermark.None? then Some(run.head) else s.watermark,
         runs := s.runs[r := run.(state := Finished)], worker := Idle)
    else
      Redispatch(s, r, PageDone(run, page, s.worker.todo))
  }

  /** The manifest after a page: cursor on its last Safe, and what the page held. */
  function PageDone(run: Manifest, page: seq<Address>, todo: seq<Address>): Manifest
    requires page != []
  {
    run.(cursor := Some(page[|page| - 1]), seen := run.seen + |page|,
         seeded := run.seeded + |todo|, present := run.present + |Members(page) - Members(todo)|)
  }

  function ShrinkOrFail(s: State): State
    requires s.worker.Chunk? && WellFormed(s)
  {
    var r := s.worker.run;
    var run := s.runs[r];
    match HalvedOrNone(run.chunkSize, CHUNK_SIZE_FLOOR)
    case None => FailRun(s)
    case Some(size) => Redispatch(s, r, run.(chunkSize := size))
  }

  /** Cold-start an empty rollup at the head, or begin an incremental pass at the watermark. */
  function BeginNightly(s: State, todo: seq<Address>): State
    requires HeadBlock(s.chain, s.reorgBlocks).Some?
  {
    var head := HeadBlock(s.chain, s.reorgBlocks).value;
    var s' := s.(settled := Raise(s.settled, head));
    if s.watermark.None? then
      s'.(rows := SeedRows(s.rows, todo, head, s.h), watermark := Some(head),
          worker := Nightly(head, head, s.safes, [], 0))
    else
      s'.(worker := Nightly(s.watermark.value, head, s.safes, todo, 0))
  }

  // ---------------------------------------------------------- sequences of steps

  ghost predicate Possible(s: State, es: seq<Event>)
    decreases |es|
  {
    es == [] || (WellFormed(s) && Enabled(s, es[0]) && Possible(Apply(s, es[0]), es[1..]))
  }

  ghost function After(s: State, es: seq<Event>): State
    requires Possible(s, es)
    decreases |es|
  {
    if es == [] then s else After(Apply(s, es[0]), es[1..])
  }

  ghost predicate Initial(s: State) {
    && s.settled.None? && s.rows == map[] && s.watermark.None? && s.runs == map[]
    && s.latest.None? && s.queue == multiset{} && s.worker.Idle?
  }

  // ---------------------------------------------------- one live chunk per run

  /** Chunks, queued or executing, that carry run `r`'s current dispatch generation. */
  function Live(s: State, r: nat): nat
    requires r in s.runs
  {
    s.queue[Message(r, s.runs[r].dispatchSeq)]
    + if s.worker.Chunk? && s.worker.run == r && s.worker.dispatchSeq == s.runs[r].dispatchSeq then 1 else 0
  }

  ghost predicate Generations(s: State) {
    && (s.worker.Chunk? ==>
          && s.worker.run in s.runs && s.runs[s.worker.run].state.Running?
          && s.worker.dispatchSeq == s.runs[s.worker.run].dispatchSeq)
    && (forall m :: m in s.queue ==> m.run < s.nextRun)
    && (forall m :: m in s.queue && m.run in s.runs ==> m.dispatchSeq <= s.runs[m.run].dispatchSeq)
    && (forall r :: r in s.runs ==> r < s.nextRun && Live(s, r) <= 1)
  }

  lemma RedispatchKeepsGenerations(s: State, r: nat, m: Manifest)
    requires Generations(s) && r in s.runs && m.dispatchSeq == s.runs[r].dispatchSeq
    requires s.worker.Idle? || (s.worker.Chunk? && s.worker.run == r)
    ensures Generations(Redispatch(s, r, m))
  {
    var s' := Redispatch(s, r, m);
    forall q | q in s'.runs
      ensures q < s'.nextRun && Live(s', q) <= 1
    {
      assert q < s.nextRun && Live(s, q) <= 1;
      if q == r { assert Message(r, m.dispatchSeq + 1) !in s.queue; }
    }
  }

  /** Steps that send nothing keep the generations: no run gains a live chunk. */
  lemma QuietKeepsGenerations(s: State, s': State)
    requires Generations(s)
    requires s'.queue <= s.queue && s'.nextRun == s.nextRun
    requires forall r :: r in s'.runs ==> r in s.runs && s'.runs[r].dispatchSeq == s.runs[r].dispatchSeq
    requires s'.worker.Chunk? ==>
               && s.worker.Chunk? && s'.worker.run == s.worker.run && s'.worker.dispatchSeq == s.worker.dispatchSeq
               && s'.worker.run in s'.runs && s'.runs[s'.worker.run].state.Running?
    ensures Generations(s')
  {
    forall r | r in s'.runs
      ensures Live(s', r) <= Live(s, r)
    {
      assert s'.queue[Message(r, s.runs[r].dispatchSeq)] <= s.queue[Message(r, s.runs[r].dispatchSeq)];
    }
  }

  lemma DeliverKeepsGenerations(s: State, m: Message)
    requires Generations(s) && m in s.queue
    ensures Generations(Receive(s, m))
  {
    var s' := Receive(s, m);
    if !Current(s, m) {
      QuietKeepsGenerations(s, s');
    } else if s.worker.Idle? {
      assert Live(s, m.run) == 1;
      forall r | r in s'.runs
        ensures Live(s', r) <= 1
      {
        assert Live(s, r) <= 1;
        assert r != m.run ==> Live(s', r) == Live(s, r);
      }
    }
  }

  lemma CompleteKeepsGenerations(s: State)
    requires Generations(s) && s.worker.Chunk?
    ensures Generations(CompleteChunk(s))
  {
    var r := s.worker.run;
    if s.worker.page == [] {
      QuietKeepsGenerations(s, CompleteChunk(s));
    } else {
      RedispatchKeepsGenerations(s, r, PageDone(s.runs[r], s.worker.page, s.worker.todo));
    }
  }

  lemma ShrinkKeepsGenerations(s: State)
    requires Generations(s) && s.worker.Chunk?
    ensures Generations(ShrinkOrFail(s))
  {
    var r := s.worker.run;
    match HalvedOrNone(s.runs[r].chunkSize, CHUNK_SIZE_FLOOR)
    case None => QuietKeepsGenerations(s, ShrinkOrFail(s));
    case Some(size) => RedispatchKeepsGenerations(s, r, s.runs[r].(chunkSize := size));
  }

  lemma IndexerKeepsGenerations(s: State, i: IndexerEvent)
    requires Generations(s)
    ensures Generations(IndexerStep(s, i))
  {
    QuietKeepsGenerations(s, IndexerStep(s, i));
  }

  lemma StartKeepsGenerations(s: State, l: StartEvent)
    requires Generations(s) && StartMay(s, l)
    ensures Generations(StartStep(s, l))
  {
    match l
    case Bootstrap(chunkSize) => LaunchKeepsGenerations(s, OpenHead(s), chunkSize);
    case ManualStart(chunkSize) => LaunchKeepsGenerations(s, ResolveHead(s), chunkSize);
    case ResumeStalled => RedispatchKeepsGenerations(s, s.latest.value, s.runs[s.latest.value]);
  }

  lemma ChunkKeepsGenerations(s: State, c: ChunkEvent)
    requires Generations(s) && ChunkMay(s, c)
    ensures Generations(ChunkStep(s, c))
  {
    match c
    case Deliver(m) => DeliverKeepsGenerations(s, m);
    case FinishChunk => CompleteKeepsGenerations(s);
    case TimeoutChunk => ShrinkKeepsGenerations(s);
    case FailChunk => QuietKeepsGenerations(s, FailRun(s));
  }

  lemma FaultKeepsGenerations(s: State, f: FaultEvent)
    requires Generations(s) && FaultMay(s, f)
    ensures Generations(FaultStep(s, f))
  {
    QuietKeepsGenerations(s, FaultStep(s, f));
  }

  /** At most one chunk of a run is ever live, whatever is lost, delayed, killed or resumed. */
  lemma GenerationsKept(s: State, e: Event)
    requires Generations(s) && Enabled(s, e)
    ensures Generations(Apply(s, e))
  {
    match e
    case Indexer(i) => IndexerKeepsGenerations(s, i);
    case Start(l) => StartKeepsGenerations(s, l);
    case Step(c) => ChunkKeepsGenerations(s, c);
    case Night(n) => QuietKeepsGenerations(s, NightlyStep(s, n));
    case SeedBatch => QuietKeepsGenerations(s, InsertBatch(s));
    case Fault(f) => FaultKeepsGenerations(s, f);
  }

  lemma LaunchKeepsGenerations(s: State, head: Option<nat>, chunkSize: nat)
    requires Generations(s)
    ensures Generations(Launch(s, head, chunkSize))
  {
    var s' := Launch(s, head, chunkSize);
    if head.Some? {
      assert s.nextRun !in s.runs;
      assert forall n :: Message(s.nextRun, n) !in s.queue;
      assert forall q :: q in s.runs ==> Live(s', q) == Live(s, q);
      assert Live(s', s.nextRun) == 1;
    }
  }

  /** A chunk of an older generation, or of a closed run, changes neither manifest nor table. */
  lemma StaleChunkDoesNothing(s: State, m: Message)
    requires WellFormed(s) && m in s.queue && !Current(s, m)
    ensures Apply(s, Step(Deliver(m))) == s.(queue := s.queue - multiset{m})
  {
  }
}
