/**
 What every interleaving of nightly runs, backfill chunks, faults and indexing
 keeps: published balances equal the recompute, and no Safe is forgotten.
 */
module NativeSafety {
  import opened Options
  import opened Ordering
  import opened Ledger
  import opened NativeBalances
  import opened BackfillSizing
  import opened NativeProtocol

  // ------------------------------------------------------------- the balances

  /** Before the hand-over every row sits at one block; after it, at the watermark. */
  ghost predicate Sound(s: State) {
    && (s.rows != map[] || s.watermark.Some? || s.runs != map[] ==> s.settled.Some?)
    && (s.watermark.Some? ==> s.watermark.value <= s.settled.value && RowsAt(s.rows, s.h, s.watermark.value))
    && (s.watermark.None? ==> OneStamp(s.rows))
    && (forall a :: a in s.rows ==>
          s.rows[a].updatedTo <= s.settled.value && s.rows[a].balance == BalanceAt(s.h, a, s.rows[a].updatedTo))
    && (forall r :: r in s.runs ==> s.runs[r].head <= s.settled.value && s.runs[r].chunkSize > 0)
    && (s.worker.Nightly? ==>
          s.watermark == Some(s.worker.from) && s.worker.from <= s.worker.head <= s.settled.value)
  }

  ghost predicate OneStamp(rows: Rows) {
    forall a, b :: a in rows && b in rows ==> rows[a].updatedTo == rows[b].updatedTo
  }

  /**
   Block `b` is where the rollup stands: the watermark, or before the hand-over
   the block every row is stamped with. A chunk can check it under the lock.
   */
  ghost predicate Aligned(s: State, b: nat) {
    if s.watermark.Some? then b == s.watermark.value else StampedAt(s.rows, b)
  }

  /** The one thing the program does not check: a chunk writes only while its head is aligned. */
  ghost predicate Careful(s: State, e: Event) {
    s.worker.Chunk? && s.worker.run in s.runs ==>
      var head := s.runs[s.worker.run].head;
      && (e == SeedBatch ==> Aligned(s, head))
      && (e == Step(FinishChunk) && s.worker.page == [] && s.watermark.None? ==> StampedAt(s.rows, head))
  }

  lemma StampedRowsStandThere(s: State, b: nat)
    requires Sound(s) && Aligned(s, b)
    ensures RowsAt(s.rows, s.h, b)
  {
  }

  /** Steps that touch neither rows, history, watermark nor heads. */
  lemma QuietKeepsSound(s: State, s': State)
    requires Sound(s)
    requires s'.h == s.h && s'.rows == s.rows && s'.watermark == s.watermark && s'.settled == s.settled
    requires forall r :: r in s'.runs ==>
               r in s.runs && s'.runs[r].head == s.runs[r].head && s'.runs[r].chunkSize > 0
    requires s'.worker.Nightly? ==> s'.worker == s.worker
    ensures Sound(s')
  {
  }

  lemma IndexKeepsSound(s: State, chain: ChainView, h: seq<Movement<Address>>)
    requires Sound(s) && IndexerMay(s, Index(chain, h))
    ensures Sound(s.(chain := chain, h := h))
  {
    if s.settled.Some? {
      var bound := s.settled.value;
      if s.watermark.Some? {
        FrozenBelow(s.h, h, s.watermark.value, bound);
        FrozenRows(s.rows, s.h, h, s.watermark.value);
      }
      forall a | a in s.rows
        ensures s.rows[a].balance == BalanceAt(h, a, s.rows[a].updatedTo)
      {
        FrozenFlow(s.h, h, a, -1, s.rows[a].updatedTo, bound);
      }
    }
  }

  lemma IndexerKeepsSound(s: State, i: IndexerEvent)
    requires Sound(s) && WellFormed(s) && IndexerMay(s, i)
    ensures Sound(IndexerStep(s, i))
  {
    match i
    case Index(chain, h) => IndexKeepsSound(s, chain, h);
    case CreateSafe(a) => QuietKeepsSound(s, IndexerStep(s, i));
    case DropSafe(a) => QuietKeepsSound(s, IndexerStep(s, i));
  }

  lemma BatchKeepsSound(s: State)
    requires Sound(s) && WellFormed(s) && BatchMay(s) && Careful(s, SeedBatch)
    ensures Sound(InsertBatch(s))
  {
    var next := Min(s.worker.done + SEED_BATCH, |s.worker.todo|);
    var batch := s.worker.todo[s.worker.done..next];
    var b := if s.worker.Chunk? then s.runs[s.worker.run].head else s.worker.from;
    StampedRowsStandThere(s, b);
    SeedKeepsRows(s.rows, batch, b, s.h);
    assert b <= s.settled.value;
  }

  lemma FinishKeepsSound(s: State)
    requires Sound(s) && NightlyMay(s, FinishNightly)
    ensures Sound(NightlyStep(s, FinishNightly))
  {
    DeltaAdvancesRows(s.rows, s.worker.from, s.worker.head, s.h);
  }

  lemma BeginKeepsSound(s: State, todo: seq<Address>)
    requires Sound(s) && NightlyMay(s, StartNightly(todo))
    ensures Sound(NightlyStep(s, StartNightly(todo)))
  {
    if s.watermark.None? {
      SeedKeepsRows(s.rows, todo, HeadBlock(s.chain, s.reorgBlocks).value, s.h);
    }
  }

  lemma NightlyKeepsSound(s: State, n: NightlyEvent)
    requires Sound(s) && NightlyMay(s, n)
    ensures Sound(NightlyStep(s, n))
  {
    match n
    case FinishNightly => FinishKeepsSound(s);
    case StartNightly(todo) => BeginKeepsSound(s, todo);
  }

  lemma StartKeepsSound(s: State, l: StartEvent)
    requires Sound(s) && StartMay(s, l)
    ensures Sound(StartStep(s, l))
  {
    match l
    case Bootstrap(n) => LaunchKeepsSound(s, OpenHead(s), n);
    case ManualStart(n) => LaunchKeepsSound(s, ResolveHead(s), n);
    case ResumeStalled => QuietKeepsSound(s, StartStep(s, l));
  }

  lemma LaunchKeepsSound(s: State, head: Option<nat>, chunkSize: nat)
    requires Sound(s) && chunkSize > 0
    ensures Sound(Launch(s, head, chunkSize))
  {
  }

  lemma CompleteKeepsSound(s: State)
    requires Sound(s) && WellFormed(s) && ChunkMay(s, FinishChunk) && Careful(s, Step(FinishChunk))
    ensures Sound(CompleteChunk(s))
  {
    if s.worker.page != [] || s.watermark.Some? { QuietKeepsSound(s, CompleteChunk(s)); }
  }

  lemma ShrinkKeepsSound(s: State)
    requires Sound(s) && WellFormed(s) && s.worker.Chunk?
    ensures Sound(ShrinkOrFail(s))
  {
    HalvingShrinks(s.runs[s.worker.run].chunkSize, CHUNK_SIZE_FLOOR);
    QuietKeepsSound(s, ShrinkOrFail(s));
  }

  lemma ChunkKeepsSound(s: State, c: ChunkEvent)
    requires Sound(s) && WellFormed(s) && ChunkMay(s, c) && Careful(s, Step(c))
    ensures Sound(ChunkStep(s, c))
  {
    match c
    case Deliver(m) => QuietKeepsSound(s, Receive(s, m));
    case FinishChunk => CompleteKeepsSound(s);
    case TimeoutChunk => ShrinkKeepsSound(s);
    case FailChunk => QuietKeepsSound(s, FailRun(s));
  }

  /** No interleaving disturbs a balance, provided every chunk writes where the rollup stands. */
  lemma SoundKept(s: State, e: Event)
    requires WellFormed(s) && Sound(s) && Enabled(s, e) && Careful(s, e)
    ensures Sound(Apply(s, e))
  {
    match e
    case Indexer(i) => IndexerKeepsSound(s, i);
    case Start(l) => StartKeepsSound(s, l);
    case Step(c) => ChunkKeepsSound(s, c);
    case Night(n) => NightlyKeepsSound(s, n);
    case SeedBatch => BatchKeepsSound(s);
    case Fault(f) => QuietKeepsSound(s, FaultStep(s, f));
  }

  // ------------------------------------------------ runs nobody starts by hand

  /** Only the latest run is going, only before the hand-over, and it stands where the rows do. */
  ghost predicate Solo(s: State) {
    forall r :: r in s.runs && s.runs[r].state.Running? ==>
      s.latest == Some(r) && s.watermark.None? && StampedAt(s.rows, s.runs[r].head)
  }

  /** Steps after which every run still going was going before, at the same head. */
  lemma QuietKeepsSolo(s: State, s': State)
    requires Solo(s)
    requires forall r :: r in s'.runs && s'.runs[r].state.Running? ==>
               && r in s.runs && s.runs[r].state.Running? && s'.runs[r].head == s.runs[r].head
               && s'.latest == s.latest && s'.watermark == s.watermark && s'.rows == s.rows
    ensures Solo(s')
  {
  }

  lemma BootstrapKeepsSolo(s: State, l: StartEvent)
    requires Solo(s) && StartMay(s, l) && !l.ManualStart?
    ensures Solo(StartStep(s, l))
  {
    match l
    case Bootstrap(_) => assert forall r :: r in s.runs ==> !s.runs[r].state.Running?;
    case ResumeStalled => QuietKeepsSolo(s, StartStep(s, l));
  }

  lemma BatchKeepsSolo(s: State)
    requires Generations(s) && Sound(s) && Solo(s) && BatchMay(s)
    ensures Solo(InsertBatch(s))
  {
    if s.worker.Chunk? {
      var next := Min(s.worker.done + SEED_BATCH, |s.worker.todo|);
      var b := s.runs[s.worker.run].head;
      StampedRowsStandThere(s, b);
      SeedKeepsRows(s.rows, s.worker.todo[s.worker.done..next], b, s.h);
    }
  }

  lemma CompleteKeepsSolo(s: State)
    requires Generations(s) && Solo(s) && ChunkMay(s, FinishChunk)
    ensures Solo(CompleteChunk(s))
  {
    if s.worker.page != [] { QuietKeepsSolo(s, CompleteChunk(s)); }
  }

  lemma ChunkKeepsSolo(s: State, c: ChunkEvent)
    requires Generations(s) && Solo(s) && ChunkMay(s, c)
    ensures Solo(ChunkStep(s, c))
  {
    match c
    case Deliver(m) => QuietKeepsSolo(s, Receive(s, m));
    case FinishChunk => CompleteKeepsSolo(s);
    case TimeoutChunk => ShrinkKeepsSolo(s);
    case FailChunk => QuietKeepsSolo(s, FailRun(s));
  }

  lemma ShrinkKeepsSolo(s: State)
    requires Generations(s) && Solo(s) && s.worker.Chunk?
    ensures Solo(ShrinkOrFail(s))
  {
    QuietKeepsSolo(s, ShrinkOrFail(s));
  }

  lemma IndexerKeepsSolo(s: State, i: IndexerEvent)
    requires WellFormed(s) && Solo(s)
    ensures Solo(IndexerStep(s, i))
  {
    QuietKeepsSolo(s, IndexerStep(s, i));
  }

  lemma FaultKeepsSolo(s: State, f: FaultEvent)
    requires Solo(s)
    ensures Solo(FaultStep(s, f))
  {
    QuietKeepsSolo(s, FaultStep(s, f));
  }

  /** Once the watermark is there no run is left going, and a cold start needs that too. */
  lemma NightlyKeepsSolo(s: State, n: NightlyEvent)
    requires Sound(s) && Solo(s) && NightlyMay(s, n)
    ensures Solo(NightlyStep(s, n))
  {
  }

  lemma SoloKept(s: State, e: Event)
    requires Generations(s) && Sound(s) && Solo(s) && Enabled(s, e) && !ByHand(e)
    ensures Solo(Apply(s, e))
  {
    match e
    case Indexer(i) => IndexerKeepsSolo(s, i);
    case Start(l) => BootstrapKeepsSolo(s, l);
    case Step(c) => ChunkKeepsSolo(s, c);
    case Night(n) => NightlyKeepsSolo(s, n);
    case SeedBatch => BatchKeepsSolo(s);
    case Fault(f) => FaultKeepsSolo(s, f);
  }

  predicate ByHand(e: Event) { e.Start? && e.l.ManualStart? }

  /** Without manual starts, chunks are always aligned: the guard the program lacks is not needed. */
  lemma SoloIsCareful(s: State, e: Event)
    requires Generations(s) && Solo(s) && Enabled(s, e)
    ensures Careful(s, e)
  {
  }

  // ------------------------------------------------------------ no Safe forgotten

  /** A run has given a row to each Safe it owes one and has already walked past. */
  ghost predicate Paid(run: Manifest, safes: set<Address>, rows: Rows) {
    && run.seen == run.seeded + run.present
    && (run.state.Running? ==> run.due <= safes)
    && (run.state.Running? ==> run.due - Beyond(run.due, run.cursor) <= rows.Keys)
    && (run.state.Finished? ==> run.due <= rows.Keys)
  }

  function Done(w: Worker): (n: nat)
    requires !w.Idle?
    ensures n <= |w.todo|
  {
    Min(w.done, |w.todo|)
  }

  /** The page in flight reaches every owed Safe from the cursor to its own end. */
  ghost predicate Reaches(page: seq<Address>, run: Manifest) {
    && Ascending(page, BY_ADDRESS)
    && (forall a :: a in page && run.cursor.Some? ==> a > run.cursor.value)
    && forall a :: a in Beyond(run.due, run.cursor) ==> page != [] && (a in page || a > page[|page| - 1])
  }

  /** Each of `who` has a row or is still on the list to be seeded. */
  ghost predicate InHand(who: set<Address>, rows: Rows, left: seq<Address>) {
    who <= rows.Keys + Members(left)
  }

  ghost predicate Owed(s: State) {
    && (forall r :: r in s.runs ==> Paid(s.runs[r], s.safes, s.rows))
    && (s.worker.Chunk? && s.worker.run in s.runs ==>
          && Reaches(s.worker.page, s.runs[s.worker.run])
          && InHand(Members(s.worker.page), s.rows, s.worker.todo[Done(s.worker)..])
          && |s.worker.todo| + |Members(s.worker.page) - Members(s.worker.todo)| == |s.worker.page|)
    && (s.worker.Nightly? ==> InHand(s.worker.seen, s.rows, s.worker.todo[Done(s.worker)..]))
  }

  lemma PageIsDistinct(page: seq<Address>)
    requires Ascending(page, BY_ADDRESS)
    ensures Distinct(page)
  {
    AddressOrderIsStrict();
    forall i, j | 0 <= i < j < |page|
      ensures page[i] != page[j]
    {
      AscendingIsDistinct(page, BY_ADDRESS, i, j);
    }
  }

  /** A fresh page leaves no owed Safe between the cursor and its last address. */
  lemma FreshPageReaches(safes: set<Address>, run: Manifest)
    requires run.due <= safes && run.chunkSize > 0
    ensures StrictOrder(BY_ADDRESS)
    ensures Reaches(SafesAfter(safes, run.cursor, run.chunkSize), run)
  {
    AddressOrderIsStrict();
    var beyond := Beyond(safes, run.cursor);
    var page := SafesAfter(safes, run.cursor, run.chunkSize);
    forall a | a in Beyond(run.due, run.cursor)
      ensures page != [] && (a in page || a > page[|page| - 1])
    {
      assert a in beyond;
      if a !in page {
        PageHasNoGap(beyond, BY_ADDRESS, run.chunkSize, a);
        assert BY_ADDRESS(page[|page| - 1], a);
      }
    }
  }

  lemma FreshPageInHand(page: seq<Address>, rows: Rows)
    requires Ascending(page, BY_ADDRESS)
    ensures var todo := Missing(page, rows.Keys);
            && InHand(Members(page), rows, todo)
            && |todo| + |Members(page) - Members(todo)| == |page|
  {
    var todo := Missing(page, rows.Keys);
    PageIsDistinct(page);
    MissingCount(page, rows.Keys);
    assert Members(page) - Members(todo) == Members(page) * rows.Keys;
  }

  lemma DeliverKeepsOwed(s: State, m: Message)
    requires Sound(s) && Owed(s) && WellFormed(s) && m in s.queue
    ensures Owed(Receive(s, m))
  {
    if Current(s, m) && s.worker.Idle? {
      var run := s.runs[m.run];
      FreshPageReaches(s.safes, run);
      var page := SafesAfter(s.safes, run.cursor, run.chunkSize);
      FreshPageInHand(page, s.rows);
      var w := Receive(s, m).worker;
      assert w.todo[Done(w)..] == w.todo;
    }
  }

  lemma BatchStaysInHand(who: set<Address>, rows: Rows, todo: seq<Address>, done: nat, next: nat,
                         b: nat, h: seq<Movement<Address>>)
    requires done <= next <= |todo| && InHand(who, rows, todo[done..])
    ensures InHand(who, SeedRows(rows, todo[done..next], b, h), todo[next..])
  {
    assert todo[done..] == todo[done..next] + todo[next..];
  }

  lemma MoreRowsStayPaid(run: Manifest, safes: set<Address>, rows: Rows, rows': Rows)
    requires Paid(run, safes, rows) && rows.Keys <= rows'.Keys
    ensures Paid(run, safes, rows')
  {
  }

  lemma BatchKeepsOwed(s: State)
    requires Owed(s) && WellFormed(s) && BatchMay(s)
    ensures Owed(InsertBatch(s))
  {
    var w := s.worker;
    var next := Min(w.done + SEED_BATCH, |w.todo|);
    var b := if w.Chunk? then s.runs[w.run].head else w.from;
    BatchStaysInHand(if w.Chunk? then Members(w.page) else w.seen, s.rows, w.todo, w.done, next, b, s.h);
    var s' := InsertBatch(s);
    assert Done(w) == w.done && Done(s'.worker) == next;
    forall r | r in s.runs
      ensures Paid(s.runs[r], s.safes, s'.rows)
    {
      MoreRowsStayPaid(s.runs[r], s.safes, s.rows, s'.rows);
    }
  }

  lemma CompleteKeepsOwed(s: State)
    requires Generations(s) && Owed(s) && ChunkMay(s, FinishChunk)
    ensures Owed(CompleteChunk(s))
  {
    var r, page := s.worker.run, s.worker.page;
    var run := s.runs[r];
    assert s.worker.todo[Done(s.worker)..] == [];
    assert Paid(run, s.safes, s.rows);
    if page != [] {
      PagePays(run, page, s.worker.todo, s.safes, s.rows);
      RedispatchKeepsOwed(s, r, PageDone(run, page, s.worker.todo));
    } else {
      assert Beyond(run.due, run.cursor) == {};
      QuietKeepsOwed(s, CompleteChunk(s));
    }
  }

  /** Once every Safe of a page has a row, moving the cursor to its end owes nothing behind it. */
  lemma PagePays(run: Manifest, page: seq<Address>, todo: seq<Address>, safes: set<Address>, rows: Rows)
    requires Paid(run, safes, rows) && run.state.Running? && page != [] && Reaches(page, run)
    requires Members(page) <= rows.Keys && |todo| + |Members(page) - Members(todo)| == |page|
    ensures Paid(PageDone(run, page, todo), safes, rows)
  {
    var run' := PageDone(run, page, todo);
    forall a | a in run'.due - Beyond(run'.due, run'.cursor)
      ensures a in rows
    {
      if a in Beyond(run.due, run.cursor) { assert a in Members(page); }
    }
  }

  lemma RedispatchKeepsOwed(s: State, r: nat, run: Manifest)
    requires Owed(s) && Paid(run, s.safes, s.rows)
    ensures Owed(Redispatch(s, r, run))
  {
    var run' := run.(dispatchSeq := run.dispatchSeq + 1);
    assert Paid(run', s.safes, s.rows);
    QuietKeepsOwed(s, Redispatch(s, r, run));
  }

  /** A Safe that appears ahead of the walk is added to what the walk owes; one behind it is not. */
  lemma OweKeepsPaid(s: State, r: nat, a: Address)
    requires Owed(s) && WellFormed(s) && r in s.runs && a !in s.safes
    ensures Paid(Owe(s, a)[r], s.safes + {a}, s.rows)
    ensures s.worker.Chunk? && s.worker.run == r ==> Reaches(s.worker.page, Owe(s, a)[r])
  {
    var run := s.runs[r];
    assert Paid(run, s.safes, s.rows);
    var run' := Owe(s, a)[r];
    if run' != run {
      assert run' == run.(due := run.due + {a});
      if s.worker.Chunk? && s.worker.run == r {
        assert s.worker.page[|s.worker.page| - 1] in s.worker.page;
        assert a in Beyond(run'.due, run'.cursor);
        assert forall b :: b in Beyond(run'.due, run'.cursor) ==> b == a || b in Beyond(run.due, run.cursor);
      }
      assert run'.due - Beyond(run'.due, run'.cursor) == run.due - Beyond(run.due, run.cursor);
    }
  }

  lemma CreateKeepsOwed(s: State, a: Address)
    requires Owed(s) && WellFormed(s) && a !in s.safes
    ensures Owed(s.(safes := s.safes + {a}, runs := Owe(s, a)))
  {
    forall r | r in s.runs
      ensures Paid(Owe(s, a)[r], s.safes + {a}, s.rows)
      ensures s.worker.Chunk? && s.worker.run == r ==> Reaches(s.worker.page, Owe(s, a)[r])
    {
      OweKeepsPaid(s, r, a);
    }
  }

  lemma DropKeepsOwed(s: State, a: Address)
    requires Owed(s) && WellFormed(s)
    ensures Owed(s.(safes := s.safes - {a}, runs := Forgive(s, a)))
  {
    forall r | r in s.runs
      ensures Paid(Forgive(s, a)[r], s.safes - {a}, s.rows)
      ensures s.worker.Chunk? && s.worker.run == r ==> Reaches(s.worker.page, Forgive(s, a)[r])
    {
      var run, run' := s.runs[r], Forgive(s, a)[r];
      assert Paid(run, s.safes, s.rows);
      assert Beyond(run'.due, run'.cursor) <= Beyond(run.due, run.cursor);
      assert run'.due - Beyond(run'.due, run'.cursor) <= run.due - Beyond(run.due, run.cursor);
    }
  }

  /** Steps that change no Safe, drop no row, and advance no cursor. */
  lemma QuietKeepsOwed(s: State, s': State)
    requires Owed(s)
    requires s'.safes == s.safes && s.rows.Keys <= s'.rows.Keys
    requires forall r :: r in s'.runs ==>
               Paid(s'.runs[r], s.safes, s.rows) || (r in s.runs && s'.runs[r] == s.runs[r])
    requires s'.worker.Idle? || (s'.worker == s.worker && (s.worker.Chunk? && s.worker.run in s'.runs
                                   ==> s.worker.run in s.runs && s'.runs[s.worker.run] == s.runs[s.worker.run]))
    ensures Owed(s')
  {
    forall r | r in s'.runs
      ensures Paid(s'.runs[r], s.safes, s'.rows)
    {
      MoreRowsStayPaid(s'.runs[r], s.safes, s.rows, s'.rows);
    }
  }

  lemma NightlyKeepsOwed(s: State, n: NightlyEvent)
    requires Owed(s) && NightlyMay(s, n)
    ensures Owed(NightlyStep(s, n))
  {
    var s' := NightlyStep(s, n);
    if n.StartNightly? {
      assert s'.worker.todo[Done(s'.worker)..] == s'.worker.todo;
      assert s.safes <= s'.rows.Keys + Members(s'.worker.todo);
    }
    forall r | r in s.runs
      ensures Paid(s.runs[r], s.safes, s'.rows)
    {
      MoreRowsStayPaid(s.runs[r], s.safes, s.rows, s'.rows);
    }
  }

  lemma LaunchKeepsOwed(s: State, head: Option<nat>, chunkSize: nat)
    requires Generations(s) && Owed(s)
    ensures Owed(Launch(s, head, chunkSize))
  {
    if head.Some? {
      assert Paid(Manifest(head.value, chunkSize, None, Running, 1, 0, 0, 0, s.safes), s.safes, s.rows);
      assert s.worker.Chunk? ==> s.worker.run != s.nextRun;
    }
  }

  lemma StartKeepsOwed(s: State, l: StartEvent)
    requires Generations(s) && Owed(s) && StartMay(s, l)
    ensures Owed(StartStep(s, l))
  {
    match l
    case Bootstrap(n) => LaunchKeepsOwed(s, OpenHead(s), n);
    case ManualStart(n) => LaunchKeepsOwed(s, ResolveHead(s), n);
    case ResumeStalled =>
      assert Paid(s.runs[s.latest.value], s.safes, s.rows);
      QuietKeepsOwed(s, StartStep(s, l));
  }

  lemma ShrinkKeepsOwed(s: State)
    requires Owed(s) && WellFormed(s) && s.worker.Chunk?
    ensures Owed(ShrinkOrFail(s))
  {
    assert Paid(s.runs[s.worker.run], s.safes, s.rows);
    QuietKeepsOwed(s, ShrinkOrFail(s));
  }

  lemma FailKeepsOwed(s: State)
    requires Owed(s) && WellFormed(s) && s.worker.Chunk?
    ensures Owed(FailRun(s))
  {
    assert Paid(s.runs[s.worker.run], s.safes, s.rows);
    QuietKeepsOwed(s, FailRun(s));
  }

  lemma ChunkKeepsOwed(s: State, c: ChunkEvent)
    requires Generations(s) && Sound(s) && Owed(s) && ChunkMay(s, c)
    ensures Owed(ChunkStep(s, c))
  {
    match c
    case Deliver(m) => DeliverKeepsOwed(s, m);
    case FinishChunk => CompleteKeepsOwed(s);
    case TimeoutChunk => ShrinkKeepsOwed(s);
    case FailChunk => FailKeepsOwed(s);
  }

  lemma IndexerKeepsOwed(s: State, i: IndexerEvent)
    requires Owed(s) && WellFormed(s) && IndexerMay(s, i)
    ensures Owed(IndexerStep(s, i))
  {
    match i
    case Index(_, _) => QuietKeepsOwed(s, IndexerStep(s, i));
    case CreateSafe(a) => CreateKeepsOwed(s, a);
    case DropSafe(a) => DropKeepsOwed(s, a);
  }

  lemma FaultKeepsOwed(s: State, f: FaultEvent)
    requires Owed(s) && WellFormed(s) && FaultMay(s, f)
    ensures Owed(FaultStep(s, f))
  {
    QuietKeepsOwed(s, FaultStep(s, f));
  }

  /** The walk's debt is kept through crashes, retries at a smaller size, and Safes that come and go. */
  lemma OwedKept(s: State, e: Event)
    requires Generations(s) && Sound(s) && Owed(s) && Enabled(s, e)
    ensures Owed(Apply(s, e))
  {
    match e
    case Indexer(i) => IndexerKeepsOwed(s, i);
    case Start(l) => StartKeepsOwed(s, l);
    case Step(c) => ChunkKeepsOwed(s, c);
    case Night(n) => NightlyKeepsOwed(s, n);
    case SeedBatch => BatchKeepsOwed(s);
    case Fault(f) => FaultKeepsOwed(s, f);
  }
}
