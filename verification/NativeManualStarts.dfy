/**
 What starts by hand can break: a chunk compares its head with nothing, so a late one
 may seed, or hand over, at a block where the rollup does not stand.
 */
module NativeManualStarts {
  import opened Options
  import opened Ordering
  import opened Ledger
  import opened NativeBalances
  import opened NativeProtocol
  import opened NativeSafety

  // --------------------------------------------------------------- exact conditions

  /** Each row holds the balance at `b`, whatever its stamp. */
  ghost predicate BalancesAt(rows: Rows, h: seq<Movement<Address>>, b: nat) {
    forall a :: a in rows ==> rows[a].balance == BalanceAt(h, a, b)
  }

  /** Each row is right at its own stamp: all that a chunk's seeds ever leave before the hand-over. */
  ghost predicate RightAtStamps(rows: Rows, h: seq<Movement<Address>>) {
    forall a :: a in rows ==> rows[a].balance == BalanceAt(h, a, rows[a].updatedTo)
  }

  /**
   A chunk that seeds at `head` under watermark `w` leaves balances that are right at
   the watermark, whatever the history, exactly when its head is the watermark or it
   has nothing to seed.
   */
  lemma SeedIsSafeExactlyWhenAligned(rows: Rows, h0: seq<Movement<Address>>, w: nat, head: nat, xs: seq<Address>)
    requires RowsAt(rows, h0, w)
    ensures (head == w || Members(xs) <= rows.Keys) <==>
              forall h :: RowsAt(rows, h, w) ==> BalancesAt(SeedRows(rows, xs, head, h), h, w)
    ensures head == w || Members(xs) <= rows.Keys ==>
              forall h :: RowsAt(rows, h, w) ==> RowsAt(SeedRows(rows, xs, head, h), h, w)
  {
    if head == w || Members(xs) <= rows.Keys {
      forall h | RowsAt(rows, h, w)
        ensures RowsAt(SeedRows(rows, xs, head, h), h, w)
      {
        if head == w { SeedKeepsRows(rows, xs, w, h); }
        else { assert SeedRows(rows, xs, head, h) == rows; }
      }
    } else {
      var a :| a in Members(xs) && a !in rows;
      PaidAloneIsStillRight(rows, h0, w, a, if head < w then w else head);
      SeedSeesOnlyOneSide(rows, h0, xs, a, head, w);
    }
  }

  /** A payment to an address without a row makes no row wrong. */
  lemma PaidAloneIsStillRight(rows: Rows, h: seq<Movement<Address>>, w: nat, a: Address, block: nat)
    requires RowsAt(rows, h, w) && a !in rows
    ensures RowsAt(rows, Paying(1, a, block, h), w)
  {
    forall k | k in rows
      ensures rows[k].balance == BalanceAt(Paying(1, a, block, h), k, w)
      ensures rows[k].balance == BalanceAt(Paying(1, a, block, h), k, rows[k].updatedTo)
    {
      OnePayment(1, a, block, h, k, w);
      OnePayment(1, a, block, h, k, rows[k].updatedTo);
    }
  }

  /** A payment between the seed's block and `b` is in one of the two balances and not in the other. */
  lemma SeedSeesOnlyOneSide(rows: Rows, h: seq<Movement<Address>>, xs: seq<Address>, a: Address, head: nat, b: nat)
    requires a in Members(xs) && a !in rows && head != b
    ensures var h1 := Paying(1, a, if head < b then b else head, h);
            !BalancesAt(SeedRows(rows, xs, head, h), h, b) || !BalancesAt(SeedRows(rows, xs, head, h1), h1, b)
  {
    var block := if head < b then b else head;
    var h1 := Paying(1, a, block, h);
    OnePayment(1, a, block, h, a, head);
    OnePayment(1, a, block, h, a, b);
    assert SeedRows(rows, xs, head, h)[a].balance == BalanceAt(h, a, head);
    assert SeedRows(rows, xs, head, h1)[a].balance == BalanceAt(h1, a, head);
  }

  /**
   One payment after the row's stamp, or, when the hand-over is earlier, one before it that
   is spent again by then.
   */
  function Between(h: seq<Movement<Address>>, a: Address, stamp: nat, head: nat): seq<Movement<Address>> {
    if stamp < head then Paying(1, a, head, h) else Paying(1, a, head, Spending(1, a, stamp, h))
  }

  lemma BetweenMovesOneBalance(h: seq<Movement<Address>>, a: Address, stamp: nat, head: nat, k: Address, hi: nat)
    requires stamp != head
    ensures k != a || hi == stamp ==> BalanceAt(Between(h, a, stamp, head), k, hi) == BalanceAt(h, k, hi)
    ensures k == a && hi == head ==> BalanceAt(Between(h, a, stamp, head), k, hi) == BalanceAt(h, k, hi) + 1
  {
    OnePayment(1, a, head, h, k, hi);
    OnePayment(1, a, stamp, h, k, hi);
    OnePayment(1, a, head, Spending(1, a, stamp, h), k, hi);
  }

  lemma BetweenIsRightAtStamps(rows: Rows, h: seq<Movement<Address>>, a: Address, head: nat)
    requires RightAtStamps(rows, h) && a in rows && rows[a].updatedTo != head
    ensures RightAtStamps(rows, Between(h, a, rows[a].updatedTo, head))
  {
    forall k | k in rows
      ensures rows[k].balance == BalanceAt(Between(h, a, rows[a].updatedTo, head), k, rows[k].updatedTo)
    {
      BetweenMovesOneBalance(h, a, rows[a].updatedTo, head, k, rows[k].updatedTo);
    }
  }

  /**
   The hand-over: with `head` written as the watermark, rows that are right at their
   own stamps hold the right balances for every history exactly when every row is
   stamped `head`. A row stamped earlier misses what moved since, one stamped later
   has it already and gets it a second time with the next delta.
   */
  lemma HandOverIsSafeExactlyWhenStamped(rows: Rows, h0: seq<Movement<Address>>, head: nat)
    requires RightAtStamps(rows, h0)
    ensures StampedAt(rows, head) <==> forall h :: RightAtStamps(rows, h) ==> BalancesAt(rows, h, head)
    ensures StampedAt(rows, head) ==> forall h :: RightAtStamps(rows, h) ==> RowsAt(rows, h, head)
  {
    if !StampedAt(rows, head) {
      var a :| a in rows && rows[a].updatedTo != head;
      var h1 := Between(h0, a, rows[a].updatedTo, head);
      BetweenIsRightAtStamps(rows, h0, a, head);
      BetweenMovesOneBalance(h0, a, rows[a].updatedTo, head, a, head);
      assert !BalancesAt(rows, h0, head) || !BalancesAt(rows, h1, head);
    }
  }

  /**
   A seed before any watermark: with it, a hand-over at `b` leaves the right balances
   for every history exactly when the rows are all stamped `b` and the seed's head is
   `b` too, or it has nothing to seed. A seed at another block spoils the hand-over of
   every run but its own.
   */
  lemma EarlySeedIsSafeExactlyWhenStamped(rows: Rows, h0: seq<Movement<Address>>, xs: seq<Address>, head: nat, b: nat)
    requires RightAtStamps(rows, h0)
    ensures (StampedAt(rows, b) && (head == b || Members(xs) <= rows.Keys)) <==>
              forall h :: RightAtStamps(rows, h) ==> BalancesAt(SeedRows(rows, xs, head, h), h, b)
  {
    if StampedAt(rows, b) && (head == b || Members(xs) <= rows.Keys) {
      forall h | RightAtStamps(rows, h)
        ensures BalancesAt(SeedRows(rows, xs, head, h), h, b)
      {
      }
    } else if !StampedAt(rows, b) {
      HandOverIsSafeExactlyWhenStamped(rows, h0, b);
      var h :| RightAtStamps(rows, h) && !BalancesAt(rows, h, b);
      assert forall a :: a in rows ==> SeedRows(rows, xs, head, h)[a] == rows[a];
    } else {
      var a :| a in Members(xs) && a !in rows;
      var block := if head < b then b else head;
      forall k | k in rows
        ensures rows[k].balance == BalanceAt(Paying(1, a, block, h0), k, rows[k].updatedTo)
      {
        OnePayment(1, a, block, h0, k, rows[k].updatedTo);
      }
      SeedSeesOnlyOneSide(rows, h0, xs, a, head, b);
    }
  }

  // ------------------------------------------------- a top-up overtaken by a nightly run

  /** A chain at height 100 whose trace indexer has reached the given block. */
  function At(indexer: nat): ChainView { ChainView(Some(50), Some(100), Some(indexer)) }

  const LATE_PAYMENT: seq<Movement<Address>> := [Movement(7, Some(1), None, 1)]

  // The states of one execution: a rollup stands at block 5, a top-up is started by
  // hand, a nightly run moves the rollup to block 9, and then a Safe appears.
  const BLANK := State([], At(5), 10, None, {}, map[], None, map[], 0, None, multiset{}, Idle)
  const COLD_STARTED := BLANK.(settled := Some(5), watermark := Some(5), worker := Nightly(5, 5, {}, [], 0))
  const STANDS_AT_FIVE := COLD_STARTED.(worker := Idle)
  const TOP_UP := Manifest(5, 1, None, Running, 1, 0, 0, 0, {})
  const TOP_UP_SENT := STANDS_AT_FIVE.(
    runs := map[0 := TOP_UP], nextRun := 1, latest := Some(0), queue := multiset{Message(0, 1)})
  const INDEXED := TOP_UP_SENT.(chain := At(9), h := LATE_PAYMENT)
  const OVERTAKING := INDEXED.(settled := Some(9), worker := Nightly(5, 9, {}, [], 0))
  const OVERTAKEN := OVERTAKING.(watermark := Some(9), worker := Idle)
  const NEW_SAFE := OVERTAKEN.(safes := {1}, runs := map[0 := TOP_UP.(due := {1})])
  const LATE_CHUNK := NEW_SAFE.(queue := multiset{}, worker := Chunk(0, 1, [1], [1], 0))
  const SHORT := LATE_CHUNK.(rows := map[1 := Row(0, 5)], worker := Chunk(0, 1, [1], [1], 1))

  const NIGHT_STARTS := Night(StartNightly([]))
  const NIGHT_ENDS := Night(FinishNightly)
  const TOP_UP_EVENTS: seq<Event> := [
    NIGHT_STARTS, NIGHT_ENDS, Start(ManualStart(1)), Indexer(Index(At(9), LATE_PAYMENT)),
    NIGHT_STARTS, NIGHT_ENDS, Indexer(CreateSafe(1)), Step(Deliver(Message(0, 1))), SeedBatch]

  /** One event takes `s` to `s'`. */
  ghost predicate Takes(s: State, e: Event, s': State) {
    WellFormed(s) && Enabled(s, e) && Apply(s, e) == s'
  }

  lemma NothingToSeed(h: seq<Movement<Address>>, b: nat)
    ensures SeedRows(map[], [], b, h) == map[]
    ensures forall from: nat, head: nat :: DeltaRows(map[], from, head, h) == map[]
  {
  }

  lemma ColdStartAtFive()
    ensures Takes(BLANK, NIGHT_STARTS, COLD_STARTED) && Takes(COLD_STARTED, NIGHT_ENDS, STANDS_AT_FIVE)
  {
    NothingToSeed([], 5);
    assert Members([]) == {};
  }

  lemma TopUpStarts()
    ensures Takes(STANDS_AT_FIVE, Start(ManualStart(1)), TOP_UP_SENT)
    ensures Takes(TOP_UP_SENT, Indexer(Index(At(9), LATE_PAYMENT)), INDEXED)
  {
    assert LATE_PAYMENT[1..] == [] && Cut(LATE_PAYMENT[1..], 5) == [];
  }

  lemma NightOvertakes()
    ensures Takes(INDEXED, NIGHT_STARTS, OVERTAKING) && Takes(OVERTAKING, NIGHT_ENDS, OVERTAKEN)
  {
    NothingToSeed(LATE_PAYMENT, 9);
    assert Members([]) == {};
  }

  lemma SafeAppears()
    ensures Takes(OVERTAKEN, Indexer(CreateSafe(1)), NEW_SAFE)
  {
    assert TOP_UP.due + {1} == {1};
    assert Ahead(OVERTAKEN, 0, 1);
    assert Owe(OVERTAKEN, 1)[0] == TOP_UP.(due := {1});
    assert Owe(OVERTAKEN, 1) == map[0 := TOP_UP.(due := {1})];
    assert OVERTAKEN.safes + {1} == {1};
  }

  lemma OnlyPage()
    ensures StrictOrder(BY_ADDRESS) && SafesAfter({1}, None, 1) == [1] && Missing([1], {}) == [1]
  {
    AddressOrderIsStrict();
    var s: set<Address> := {1};
    assert Beyond(s, None) == s;
    PageWithin(s, BY_ADDRESS, 1);
    var page := SafesAfter(s, None, 1);
    assert |page| == 1 && page[0] in page;
    assert [1 as Address][1..] == [];
  }

  lemma LateChunkArrives()
    ensures Takes(NEW_SAFE, Step(Deliver(Message(0, 1))), LATE_CHUNK)
  {
    OnlyPage();
    assert NEW_SAFE.rows.Keys == {};
    assert Current(NEW_SAFE, Message(0, 1));
  }

  lemma LateChunkSeeds()
    ensures Takes(LATE_CHUNK, SeedBatch, SHORT)
  {
    assert LATE_CHUNK.worker.todo[0..1] == [1];
    LatePaymentBalances();
    assert SeedRows(map[], [1], 5, LATE_PAYMENT) == map[1 := Row(0, 5)];
  }

  lemma LatePaymentBalances()
    ensures BalanceAt(LATE_PAYMENT, 1, 5) == 0 && BalanceAt(LATE_PAYMENT, 1, 9) == 1
  {
    assert LATE_PAYMENT[1..] == [];
    assert NetFlow(LATE_PAYMENT[1..], 1, -1, 5) == 0 == NetFlow(LATE_PAYMENT[1..], 1, -1, 9);
  }

  lemma Replay(s: State, es: seq<Event>, s': State)
    requires es != [] && Takes(s, es[0], s') && Possible(s', es[1..])
    ensures Possible(s, es) && After(s, es) == After(s', es[1..])
  {
  }

  /**
   A top-up started by hand at the watermark and overtaken by a nightly run: the
   late chunk seeds a new Safe at the old block, and the published balance is short.
   */
  lemma OvertakenTopUpLosesFlow()
    ensures Initial(BLANK) && Possible(BLANK, TOP_UP_EVENTS)
    ensures var s := After(BLANK, TOP_UP_EVENTS);
            && s.watermark == Some(9) && 1 in s.rows
            && s.rows[1].balance == 0 && BalanceAt(s.h, 1, 9) == 1
  {
    LatePaymentBalances();
    LateChunkSeeds();
    var es := TOP_UP_EVENTS;
    assert Possible(SHORT, es[9..]);
    Replay(LATE_CHUNK, es[8..], SHORT);
    LateChunkArrives();
    Replay(NEW_SAFE, es[7..], LATE_CHUNK);
    SafeAppears();
    Replay(OVERTAKEN, es[6..], NEW_SAFE);
    NightOvertakes();
    Replay(OVERTAKING, es[5..], OVERTAKEN);
    Replay(INDEXED, es[4..], OVERTAKING);
    TopUpStarts();
    Replay(TOP_UP_SENT, es[3..], INDEXED);
    Replay(STANDS_AT_FIVE, es[2..], TOP_UP_SENT);
    ColdStartAtFive();
    Replay(COLD_STARTED, es[1..], STANDS_AT_FIVE);
    Replay(BLANK, es, COLD_STARTED);
  }

  // --------------------------------------- two runs started by hand before any watermark

  // The first is at block 5 and never gets going; the second, at block 9, seeds the one
  // Safe and is killed; then the first finds nothing to seed and writes its watermark.
  const ALONE := BLANK.(safes := {1})
  const EARLY := Manifest(5, 1, None, Running, 1, 0, 0, 0, {1})
  const EARLY_SENT := ALONE.(
    settled := Some(5), runs := map[0 := EARLY], nextRun := 1, latest := Some(0), queue := multiset{Message(0, 1)})
  const EARLY_PAID := EARLY_SENT.(chain := At(9), h := LATE_PAYMENT)
  const BOTH_SENT := EARLY_PAID.(
    settled := Some(9), runs := map[0 := EARLY, 1 := EARLY.(head := 9)], nextRun := 2, latest := Some(1),
    queue := multiset{Message(0, 1), Message(1, 1)})
  const LATER_SEEDS := BOTH_SENT.(queue := multiset{Message(0, 1)}, worker := Chunk(1, 1, [1], [1], 0))
  const LATER_SEEDED := LATER_SEEDS.(rows := map[1 := Row(1, 9)], worker := Chunk(1, 1, [1], [1], 1))
  const LATER_KILLED := LATER_SEEDED.(worker := Idle)
  const EARLY_WALKS := LATER_KILLED.(queue := multiset{}, worker := Chunk(0, 1, [1], [], 0))
  const WALKED := EARLY.(cursor := Some(1), dispatchSeq := 2, seen := 1, present := 1)
  const EARLY_PAST := LATER_KILLED.(runs := map[0 := WALKED, 1 := EARLY.(head := 9)], queue := multiset{Message(0, 2)})
  const EARLY_ENDS := EARLY_PAST.(queue := multiset{}, worker := Chunk(0, 2, [], [], 0))
  const HANDED_OVER := EARLY_ENDS.(
    watermark := Some(5), runs := map[0 := WALKED.(state := Finished), 1 := EARLY.(head := 9)], worker := Idle)

  const TWIN_EVENTS: seq<Event> := [
    Start(ManualStart(1)), Indexer(Index(At(9), LATE_PAYMENT)), Start(ManualStart(1)),
    Step(Deliver(Message(1, 1))), SeedBatch, Fault(KillWorker),
    Step(Deliver(Message(0, 1))), Step(FinishChunk), Step(Deliver(Message(0, 2))), Step(FinishChunk)]

  lemma EarlyStarts()
    ensures Takes(ALONE, Start(ManualStart(1)), EARLY_SENT)
  {
  }

  lemma BlocksArrive()
    ensures Takes(EARLY_SENT, Indexer(Index(At(9), LATE_PAYMENT)), EARLY_PAID)
  {
    assert LATE_PAYMENT[1..] == [] && Cut(LATE_PAYMENT[1..], 5) == [];
  }

  lemma LaterStarts()
    ensures Takes(EARLY_PAID, Start(ManualStart(1)), BOTH_SENT)
  {
    assert BOTH_SENT.runs == EARLY_PAID.runs[1 := Manifest(9, 1, None, Running, 1, 0, 0, 0, {1})];
  }

  lemma LaterArrives()
    ensures Takes(BOTH_SENT, Step(Deliver(Message(1, 1))), LATER_SEEDS)
  {
    OnlyPage();
    assert BOTH_SENT.rows.Keys == {};
    assert Current(BOTH_SENT, Message(1, 1));
    assert BOTH_SENT.queue - multiset{Message(1, 1)} == multiset{Message(0, 1)};
  }

  /** The later run's seed is as careful as can be: there is no row it disagrees with. */
  lemma LaterRunSeeds()
    ensures Takes(LATER_SEEDS, SeedBatch, LATER_SEEDED) && Careful(LATER_SEEDS, SeedBatch)
  {
    assert LATER_SEEDS.worker.todo[0..1] == [1];
    LatePaymentBalances();
    assert SeedRows(map[], [1], 9, LATE_PAYMENT) == map[1 := Row(1, 9)];
  }

  lemma LaterDies()
    ensures Takes(LATER_SEEDED, Fault(KillWorker), LATER_KILLED)
  {
  }

  lemma EarlierArrives()
    ensures Takes(LATER_KILLED, Step(Deliver(Message(0, 1))), EARLY_WALKS)
  {
    OnlyPage();
    assert LATER_KILLED.rows.Keys == {1};
    NoneMissing();
    assert Current(LATER_KILLED, Message(0, 1));
  }

  lemma NoneMissing()
    ensures Missing([1], {1}) == []
  {
    assert [1 as Address][1..] == [];
  }

  lemma EarlierWalks()
    ensures Takes(EARLY_WALKS, Step(FinishChunk), EARLY_PAST)
  {
    var page: seq<Address> := [1];
    assert page[|page| - 1] == 1;
    assert Members(page) - Members([]) == {1};
    assert PageDone(EARLY, page, []) == WALKED.(dispatchSeq := 1);
    assert EARLY_PAST.runs == EARLY_WALKS.runs[0 := WALKED];
    assert multiset{} + multiset{Message(0, 2)} == multiset{Message(0, 2)};
  }

  lemma EarlierReturns()
    ensures Takes(EARLY_PAST, Step(Deliver(Message(0, 2))), EARLY_ENDS)
  {
    AddressOrderIsStrict();
    assert Beyond({1}, Some(1)) == {};
    PageWithin(Beyond({1}, Some(1)), BY_ADDRESS, 1);
    assert SafesAfter({1}, Some(1), 1) == [];
    assert Current(EARLY_PAST, Message(0, 2));
  }

  lemma EarlierHandsOver()
    ensures Takes(EARLY_ENDS, Step(FinishChunk), HANDED_OVER) && !Careful(EARLY_ENDS, Step(FinishChunk))
  {
    assert EARLY_ENDS.rows[1].updatedTo == 9;
  }

  lemma LastSteps()
    ensures Possible(EARLY_PAST, TWIN_EVENTS[8..]) && After(EARLY_PAST, TWIN_EVENTS[8..]) == HANDED_OVER
  {
    EarlierReturns();
    EarlierHandsOver();
    var es := TWIN_EVENTS;
    assert Possible(HANDED_OVER, es[10..]);
    Replay(EARLY_ENDS, es[9..], HANDED_OVER);
    Replay(EARLY_PAST, es[8..], EARLY_ENDS);
  }

  lemma SecondHalf()
    ensures Possible(LATER_KILLED, TWIN_EVENTS[6..]) && After(LATER_KILLED, TWIN_EVENTS[6..]) == HANDED_OVER
  {
    LastSteps();
    EarlierArrives();
    EarlierWalks();
    var es := TWIN_EVENTS;
    Replay(EARLY_WALKS, es[7..], EARLY_PAST);
    Replay(LATER_KILLED, es[6..], EARLY_WALKS);
  }

  /**
   Two runs started by hand, each of whose seeds meets no row it disagrees with. The
   one that was late hands over at its own block 5 rows stamped 9: the published
   balance is the one at block 9, and the next delta adds the payment a second time.
   */
  lemma LateHandOverPublishesTooMuch()
    ensures Initial(ALONE) && Possible(ALONE, TWIN_EVENTS) && After(ALONE, TWIN_EVENTS) == HANDED_OVER
    ensures HANDED_OVER.watermark == Some(5) && HANDED_OVER.rows == map[1 := Row(1, 9)]
    ensures HANDED_OVER.h == LATE_PAYMENT && BalanceAt(LATE_PAYMENT, 1, 5) == 0 && BalanceAt(LATE_PAYMENT, 1, 9) == 1
    ensures DeltaRows(HANDED_OVER.rows, 5, 9, LATE_PAYMENT)[1].balance == 2
  {
    LatePaymentBalances();
    PaymentComesOnce();
    SecondHalf();
    EarlyStarts();
    BlocksArrive();
    LaterStarts();
    LaterArrives();
    LaterRunSeeds();
    LaterDies();
    var es := TWIN_EVENTS;
    Replay(LATER_SEEDED, es[5..], LATER_KILLED);
    Replay(LATER_SEEDS, es[4..], LATER_SEEDED);
    Replay(BOTH_SENT, es[3..], LATER_SEEDS);
    Replay(EARLY_PAID, es[2..], BOTH_SENT);
    Replay(EARLY_SENT, es[1..], EARLY_PAID);
    Replay(ALONE, es, EARLY_SENT);
  }

  lemma PaymentComesOnce()
    ensures 1 in Touched(LATE_PAYMENT, 5, 9) && NetFlow(LATE_PAYMENT, 1, 5, 9) == 1
  {
    assert LATE_PAYMENT[1..] == [] && NetFlow(LATE_PAYMENT[1..], 1, 5, 9) == 0;
  }
}
