/**
 What holds of the day-range backfill whoever writes its manifest in between: what is
 always in order, when the manifest accounts for the run, and when a run is stopped.
 */
module DayBackfillRuns {
  import opened Options
  import opened Ordering
  import opened DayBackfill

  // -------------------------------------------------------------- a manifest that fits

  /** The manifest adds up: over the finished chunks, every day is written or failed. */
  ghost predicate AddsUp(m: Manifest) {
    && m.total == DoneSum(m.chunks, TOTAL)
    && m.written == DoneSum(m.chunks, WRITTEN_OF)
    && m.failed == DoneSum(m.chunks, FAILED_OF)
    && m.total == m.written + m.failed
    && |m.failures| <= MAX_FAILURES
  }

  lemma {:induction false} DoneSumsBalance(chunks: seq<Chunk>)
    requires forall i :: 0 <= i < |chunks| && chunks[i].phase.Done? ==>
        chunks[i].total == chunks[i].written + chunks[i].failed
    ensures DoneSum(chunks, TOTAL) == DoneSum(chunks, WRITTEN_OF) + DoneSum(chunks, FAILED_OF)
  {
    if chunks != [] { DoneSumsBalance(chunks[..|chunks| - 1]); }
  }

  lemma {:induction false} DoneSumIgnoresPhase(m: Manifest, index: nat, phase: Phase, counter: Chunk -> nat)
    requires index < |m.chunks| && !m.chunks[index].phase.Done? && !phase.Done?
    ensures DoneSum(WithPhase(m, index, phase).chunks, counter) == DoneSum(m.chunks, counter)
    decreases |m.chunks|
  {
    var n := |m.chunks| - 1;
    var before := m.(chunks := m.chunks[..n]);
    if index < n {
      DoneSumIgnoresPhase(before, index, phase, counter);
      assert WithPhase(m, index, phase).chunks[..n] == WithPhase(before, index, phase).chunks;
    } else {
      assert WithPhase(m, index, phase).chunks[..n] == m.chunks[..n];
    }
  }

  /** The range that was asked for, chunk by chunk. */
  function PlanOf(m: Manifest): seq<seq<Date>> {
    seq(|m.chunks|, i requires 0 <= i < |m.chunks| => m.chunks[i].days)
  }

  ghost predicate IsFresh(m: Manifest) {
    && m.chunks != [] && m == Manifest(m.chunks, 0, 0, 0, [], false, false)
    && forall i :: 0 <= i < |m.chunks| ==> m.chunks[i] == Fresh(m.chunks[i].days)
  }

  lemma {:induction false} NothingDoneYet(chunks: seq<Chunk>, counter: Chunk -> nat)
    requires forall i :: 0 <= i < |chunks| ==> !chunks[i].phase.Done?
    ensures DoneSum(chunks, counter) == 0
  {
    if chunks != [] { NothingDoneYet(chunks[..|chunks| - 1], counter); }
  }

  /** A manifest of the range that was asked for, whatever it says of its chunks. */
  ghost predicate Shaped(m: Manifest, plan: seq<seq<Date>>) {
    |m.chunks| == |plan| && forall i :: 0 <= i < |plan| ==> m.chunks[i].days == plan[i]
  }

  /** A report of one result per day. */
  predicate Reported(s: Summary, days: seq<Date>) { s.total == s.written + s.failed == |days| }

  /** It records exactly the chunks that finished; the next may be under way, and the rest wait. */
  ghost predicate Fits(m: Manifest, plan: seq<seq<Date>>, finished: seq<Summary>) {
    && Shaped(m, plan) && |finished| <= |plan| && AddsUp(m) && m.failures == Published(finished)
    && (forall i :: 0 <= i < |finished| ==> m.chunks[i] == Recording(plan[i], finished[i]))
    && (|finished| < |plan| ==> !m.chunks[|finished|].phase.Done?)
    && (forall i :: |finished| < i < |plan| ==> m.chunks[i].phase.Pending?)
  }

  /** Every failure reported so far, chunk by chunk. */
  function AllFailures(finished: seq<Summary>): seq<Failure> {
    if finished == [] then [] else AllFailures(finished[..|finished| - 1]) + finished[|finished| - 1].failures
  }

  /** The list a manifest keeps: the first of them. */
  function Published(finished: seq<Summary>): seq<Failure> {
    var all := AllFailures(finished);
    all[..Min(MAX_FAILURES, |all|)]
  }

  lemma PublishedGrows(m: Manifest, index: nat, finished: seq<Summary>, s: Summary)
    requires index < |m.chunks| && m.failures == Published(finished)
    ensures Recorded(m, index, s).failures == Published(finished + [s])
  {
    assert (finished + [s])[..|finished|] == finished;
  }

  function Recording(days: seq<Date>, s: Summary): Chunk { Chunk(days, Done, s.total, s.written, s.failed) }

  lemma RecordedFits(m: Manifest, plan: seq<seq<Date>>, finished: seq<Summary>, s: Summary)
    requires Fits(m, plan, finished) && |finished| < |plan| && s.total == s.written + s.failed
    requires forall i :: 0 <= i < |finished| ==> finished[i].total == finished[i].written + finished[i].failed
    ensures Fits(Recorded(m, |finished|, s), plan, finished + [s])
  {
    DoneSumsBalance(Recorded(m, |finished|, s).chunks);
    PublishedGrows(m, |finished|, finished, s);
  }

  lemma PhaseFits(m: Manifest, plan: seq<seq<Date>>, finished: seq<Summary>, phase: Phase)
    requires Fits(m, plan, finished) && |finished| < |plan| && !phase.Done?
    ensures Fits(WithPhase(m, |finished|, phase), plan, finished)
  {
    DoneSumIgnoresPhase(m, |finished|, phase, TOTAL);
    DoneSumIgnoresPhase(m, |finished|, phase, WRITTEN_OF);
    DoneSumIgnoresPhase(m, |finished|, phase, FAILED_OF);
  }

  /** Neither flag is about the chunks. */
  lemma FlagsFit(m: Manifest, plan: seq<seq<Date>>, finished: seq<Summary>)
    requires Fits(m, plan, finished)
    ensures Fits(m.(finished := true), plan, finished)
    ensures Fits(m.(superseded := true, finished := true), plan, finished)
  {
  }

  // ---------------------------------------------------------- what is always in order

  /** Chunks submitted whose callback has not come to its write. */
  function Outstanding(c: Chain): nat { |c.flight| + (if c.working.Some? then 1 else 0) }

  ghost predicate SentInOrder(sent: seq<nat>) { forall i :: 0 <= i < |sent| ==> sent[i] == i }

  ghost predicate LateShaped(w: Late, plan: seq<seq<Date>>) {
    match w
    case Marking(copy, _) => Shaped(copy, plan)
    case Failing(index, own, reloaded) =>
      Shaped(own, plan) && !own.superseded && index < |plan| && (reloaded.Some? ==> Shaped(reloaded.value, plan))
  }

  ghost predicate InOrder(c: Chain, plan: seq<seq<Date>>) {
    var n := |c.sent|;
    && SentInOrder(c.sent) && Outstanding(c) <= 1 && Outstanding(c) <= n <= |plan|
    && (forall i :: i in c.flight ==> i == n - 1)
    && (c.stored.Some? ==> Shaped(c.stored.value, plan))
    && (c.working.Some? ==>
          c.working.value.index == n - 1 && (c.working.value.copy.Some? ==> Shaped(c.working.value.copy.value, plan)))
    && forall i :: 0 <= i < |c.late| ==> LateShaped(c.late[i], plan)
  }

  /** Nothing out: the callback at work has just come to its write. */
  predicate Resting(c: Chain) { c.flight == multiset{} && c.working.None? }

  lemma DispatchKeepsOrder(c: Chain, m: Manifest, plan: seq<seq<Date>>, how: Dispatch)
    requires InOrder(c, plan) && Resting(c) && Shaped(m, plan) && !m.superseded && |c.sent| < |plan|
    ensures InOrder(Dispatched(c, m, |c.sent|, how), plan)
  {
    assert |multiset{|c.sent|}| == 1;
  }

  lemma CommitKeepsOrder(c: Chain, plan: seq<seq<Date>>, s: Summary, how: Dispatch)
    requires InOrder(c, plan) && Possible(c, Commit(s, how))
    ensures InOrder(Step(c, Commit(s, how)), plan)
  {
    assert c.flight == multiset{};
    var callback, resting := c.working.value, c.(working := None);
    assert InOrder(resting, plan);
    if callback.copy.Some? {
      var done := Recorded(callback.copy.value, callback.index, s);
      assert Shaped(done, plan);
      var counted := resting.(finished := c.finished + [s]);
      if callback.index + 1 < |plan| && Current(counted, done) { DispatchKeepsOrder(counted, done, plan, how); }
    }
  }

  lemma ArriveKeepsOrder(c: Chain, plan: seq<seq<Date>>, index: nat)
    requires InOrder(c, plan) && Possible(c, Arrive(index))
    ensures InOrder(Step(c, Arrive(index)), plan) && Step(c, Arrive(index)).flight == multiset{}
  {
    assert |c.flight - multiset{index}| == |c.flight| - 1;
  }

  /** Submissions stay in order through every event, lost updates included. */
  lemma StepKeepsOrder(c: Chain, plan: seq<seq<Date>>, e: Event)
    requires InOrder(c, plan) && Possible(c, e)
    ensures InOrder(Step(c, e), plan)
  {
    match e
    case Arrive(index) => ArriveKeepsOrder(c, plan, index);
    case Commit(s, how) => CommitKeepsOrder(c, plan, s, how);
    case SupersedeRead =>
    case HandlerRead(i) => assert LateShaped(c.late[i], plan);
    case LateWrite(i) => assert LateShaped(c.late[i], plan);
    case Point(run) =>
    case ForgetLatest =>
    case Expire =>
  }

  // -------------------------------------------------- when the manifest accounts for the run

  /** How many chunks had finished when a late writer read what it will write. */
  function Base(w: Late): nat { match w case Marking(_, base) => base case Failing(index, _, _) => index }

  /** A callback has committed since. */
  predicate Overtaken(c: Chain, w: Late) { Base(w) < |c.finished| }

  ghost predicate LateFits(w: Late, plan: seq<seq<Date>>, finished: seq<Summary>) {
    match w
    case Marking(copy, base) => base <= |finished| && Fits(copy, plan, finished[..base])
    case Failing(index, own, reloaded) =>
      && index <= |finished|
      && (index == |finished| ==>
            Fits(own, plan, finished) && (reloaded.Some? ==> Fits(reloaded.value, plan, finished)))
  }

  ghost predicate Accounts(c: Chain, plan: seq<seq<Date>>) {
    var f := |c.finished|;
    && f <= |c.sent| <= |plan| && (Outstanding(c) == 1 ==> f == |c.sent| - 1)
    && (forall i :: 0 <= i < f ==> Reported(c.finished[i], plan[i]))
    && (c.stored.Some? ==> Fits(c.stored.value, plan, c.finished) && (f == |plan| ==> c.stored.value.finished))
    && (c.working.Some? && c.working.value.copy.Some? ==> Fits(c.working.value.copy.value, plan, c.finished))
    && forall i :: 0 <= i < |c.late| ==> LateFits(c.late[i], plan, c.finished)
  }

  ghost predicate Inv(c: Chain, plan: seq<seq<Date>>) { InOrder(c, plan) && Accounts(c, plan) }

  /** A late write goes in before any callback overtakes it. */
  predicate Timely(c: Chain, e: Event) { e.LateWrite? && e.writer < |c.late| ==> !Overtaken(c, c.late[e.writer]) }

  lemma StartEstablishesInv(me: RunId, m: Manifest, how: Dispatch)
    requires IsFresh(m)
    ensures Inv(Started(me, m, how), PlanOf(m))
  {
    var running := WithPhase(m, 0, Running);
    NothingDoneYet(running.chunks, TOTAL);
    NothingDoneYet(running.chunks, WRITTEN_OF);
    NothingDoneYet(running.chunks, FAILED_OF);
  }

  /** A commit leaves what earlier readers hold behind, and spoils nothing they hold. */
  lemma OvertakenStillFits(w: Late, plan: seq<seq<Date>>, finished: seq<Summary>, s: Summary)
    requires LateFits(w, plan, finished)
    ensures LateFits(w, plan, finished + [s])
  {
    if w.Marking? { assert (finished + [s])[..w.base] == finished[..w.base]; }
  }

  lemma DispatchAccounts(c: Chain, m: Manifest, plan: seq<seq<Date>>, how: Dispatch)
    requires Accounts(c, plan) && Resting(c)
    requires Fits(m, plan, c.finished) && |c.finished| == |c.sent| < |plan|
    ensures Accounts(Dispatched(c, m, |c.sent|, how), plan)
  {
    PhaseFits(m, plan, c.finished, Running);
  }

  /** The callback's report joins the account; nothing is stored yet. */
  lemma ReportAccounts(c: Chain, plan: seq<seq<Date>>, s: Summary)
    requires Inv(c, plan) && c.working.Some? && |c.finished| < |plan| && Reported(s, plan[|c.finished|])
    ensures Accounts(c.(working := None, finished := c.finished + [s], stored := None), plan)
  {
    forall i | 0 <= i < |c.late|
      ensures LateFits(c.late[i], plan, c.finished + [s])
    {
      OvertakenStillFits(c.late[i], plan, c.finished, s);
    }
  }

  lemma ClosingAccounts(c: Chain, m: Manifest, plan: seq<seq<Date>>)
    requires Accounts(c, plan) && Fits(m, plan, c.finished)
    ensures Accounts(c.(stored := Some(m.(finished := true))), plan)
  {
    FlagsFit(m, plan, c.finished);
  }

  /** What is written after the report, whichever way it goes. */
  lemma WriteAccounts(c: Chain, m: Manifest, plan: seq<seq<Date>>, how: Dispatch)
    requires Accounts(c.(stored := None), plan) && Resting(c) && Fits(m, plan, c.finished) && |c.finished| == |c.sent|
    ensures |c.sent| < |plan| ==> Accounts(Dispatched(c, m, |c.sent|, how), plan)
    ensures Accounts(c.(stored := Some(m.(finished := true))), plan)
  {
    var blank := c.(stored := None);
    if |c.sent| < |plan| {
      DispatchAccounts(blank, m, plan, how);
      assert Dispatched(blank, m, |c.sent|, how) == Dispatched(c, m, |c.sent|, how);
    }
    ClosingAccounts(blank, m, plan);
  }

  lemma CommitAccounts(c: Chain, plan: seq<seq<Date>>, s: Summary, how: Dispatch)
    requires Inv(c, plan) && Possible(c, Commit(s, how))
    ensures Accounts(Step(c, Commit(s, how)), plan)
  {
    var callback := c.working.value;
    if callback.copy.None? { return; }
    var counted := c.(working := None, finished := c.finished + [s]);
    assert Resting(counted);
    RecordedFits(callback.copy.value, plan, c.finished, s);
    ReportAccounts(c, plan, s);
    WriteAccounts(counted, Recorded(callback.copy.value, callback.index, s), plan, how);
  }

  lemma LateWriteAccounts(c: Chain, plan: seq<seq<Date>>, i: nat)
    requires Inv(c, plan) && Possible(c, LateWrite(i)) && !Overtaken(c, c.late[i])
    ensures Accounts(Step(c, LateWrite(i)), plan)
  {
    var w := c.late[i];
    assert LateFits(w, plan, c.finished);
    assert c.finished[..|c.finished|] == c.finished;
    match w
    case Marking(copy, _) => FlagsFit(copy, plan, c.finished);
    case Failing(index, _, reloaded) =>
      assert LateShaped(w, plan);
      PhaseFits(reloaded.value, plan, c.finished, DispatchFailed);
      FlagsFit(WithPhase(reloaded.value, index, DispatchFailed), plan, c.finished);
  }

  lemma ReadAccounts(c: Chain, plan: seq<seq<Date>>, e: Event)
    requires Inv(c, plan) && Possible(c, e) && (e.SupersedeRead? || e.HandlerRead?)
    ensures Accounts(Step(c, e), plan)
  {
    assert c.finished[..|c.finished|] == c.finished;
    if e.HandlerRead? { assert LateFits(c.late[e.reader], plan, c.finished); }
  }

  lemma ArriveAccounts(c: Chain, plan: seq<seq<Date>>, index: nat)
    requires Inv(c, plan) && Possible(c, Arrive(index))
    ensures Accounts(Step(c, Arrive(index)), plan)
  {
    assert |c.flight - multiset{index}| == |c.flight| - 1;
  }

  /** Every event but an overtaken write keeps the chain in order and the manifest's account of it. */
  lemma StepKeepsInv(c: Chain, plan: seq<seq<Date>>, e: Event)
    requires Inv(c, plan) && Possible(c, e) && Timely(c, e)
    ensures Inv(Step(c, e), plan)
  {
    StepKeepsOrder(c, plan, e);
    match e
    case Arrive(index) => ArriveAccounts(c, plan, index);
    case Commit(s, how) => CommitAccounts(c, plan, s, how);
    case SupersedeRead => ReadAccounts(c, plan, e);
    case HandlerRead(_) => ReadAccounts(c, plan, e);
    case LateWrite(i) => LateWriteAccounts(c, plan, i);
    case Point(run) =>
    case ForgetLatest =>
    case Expire =>
  }

  function DaysOf(finished: seq<Summary>): nat {
    if finished == [] then 0 else DaysOf(finished[..|finished| - 1]) + finished[|finished| - 1].total
  }

  /** Exactly the chunks that finished are recorded, and the totals are theirs. */
  ghost predicate Accounted(c: Chain) {
    c.stored.Some? ==>
      var m := c.stored.value;
      && (forall i :: 0 <= i < |m.chunks| ==> (m.chunks[i].phase.Done? <==> i < |c.finished|))
      && m.total == DaysOf(c.finished) == m.written + m.failed && |m.failures| <= MAX_FAILURES
  }

  lemma {:induction false} DoneSumCountsFinished(chunks: seq<Chunk>, finished: seq<Summary>)
    requires |finished| <= |chunks|
    requires forall i :: 0 <= i < |finished| ==> chunks[i].phase.Done? && chunks[i].total == finished[i].total
    requires forall i :: |finished| <= i < |chunks| ==> !chunks[i].phase.Done?
    ensures DoneSum(chunks, TOTAL) == DaysOf(finished)
  {
    if chunks != [] {
      var n := |chunks| - 1;
      DoneSumCountsFinished(chunks[..n], if |finished| == |chunks| then finished[..n] else finished);
    }
  }

  lemma InvIsAccounted(c: Chain, plan: seq<seq<Date>>)
    requires Inv(c, plan)
    ensures Accounted(c)
  {
    if c.stored.Some? { DoneSumCountsFinished(c.stored.value.chunks, c.finished); }
  }

  /**
   A supersession, or the handler of a failed dispatch, leaves an accurate manifest
   exactly when no callback committed since it read: it writes its whole copy back.
   */
  lemma LateWriteIsAccountedExactlyWhen(c: Chain, plan: seq<seq<Date>>, i: nat)
    requires Inv(c, plan) && Possible(c, LateWrite(i))
    ensures Accounted(Step(c, LateWrite(i))) <==> !Overtaken(c, c.late[i])
  {
    var w, after := c.late[i], Step(c, LateWrite(i));
    assert LateFits(w, plan, c.finished) && LateShaped(w, plan);
    if Overtaken(c, w) {
      assert !after.stored.value.chunks[Base(w)].phase.Done?;
    } else {
      StepKeepsInv(c, plan, LateWrite(i));
      InvIsAccounted(after, plan);
    }
  }

  /**
   How a callback ends: with a next chunk, its copy not superseded and its run not known to
   be overtaken, it sends that chunk, marked running; in every other case it closes the run.
   */
  lemma CallbackHandsOnOrCloses(c: Chain, plan: seq<seq<Date>>, s: Summary)
    requires InOrder(c, plan) && Possible(c, Commit(s, Sent)) && c.working.value.copy.Some?
    ensures var next := c.working.value.index + 1;
            var after := Step(c, Commit(s, Sent));
            var overtaken := c.cursor.Some? && c.cursor != Some(c.me);
            && after.stored.Some? && after.finished == c.finished + [s] && after.late == c.late
            && after.stored.value.chunks[next - 1].phase.Done?
            && if next < |plan| && !c.working.value.copy.value.superseded && !overtaken then
                 && after.sent == c.sent + [next] && after.flight == multiset{next}
                 && after.stored.value.chunks[next].phase.Running?
               else after.sent == c.sent && after.flight == multiset{} && after.stored.value.finished
  {
    assert c.flight == multiset{};
  }

  /** A dispatch that raised, with nothing in between: the manifest says which chunk failed and that the run is over. */
  lemma FailedDispatchIsMarked(c: Chain, plan: seq<seq<Date>>, i: nat)
    requires InOrder(c, plan) && Possible(c, HandlerRead(i))
    ensures var handled := Step(c, HandlerRead(i));
            var index, before := c.late[i].index, if c.stored.Some? then c.stored.value else c.late[i].own;
            && Possible(handled, LateWrite(i)) && Step(handled, LateWrite(i)).stored.Some?
            && var after := Step(handled, LateWrite(i)).stored.value;
               && after.chunks[index] == before.chunks[index].(phase := DispatchFailed) && after.finished
               && (forall j :: 0 <= j < |before.chunks| && j != index ==> after.chunks[j] == before.chunks[j])
               && after == before.(chunks := after.chunks, finished := true)
  {
    assert LateShaped(c.late[i], plan);
  }

  // ------------------------------------------------------------------------- whole runs

  ghost predicate IsRun(cs: seq<Chain>, es: seq<Event>) {
    && |cs| == |es| + 1
    && forall i :: 0 <= i < |es| ==> Possible(cs[i], es[i]) && cs[i + 1] == Step(cs[i], es[i])
  }

  /** The first `k` events of a run hold no overtaken write. */
  ghost predicate TimelyUpTo(cs: seq<Chain>, es: seq<Event>, k: nat)
    requires |cs| == |es| + 1 && k <= |es|
  {
    forall i :: 0 <= i < k ==> Timely(cs[i], es[i])
  }

  lemma {:induction false} RunsKeepOrder(cs: seq<Chain>, es: seq<Event>, plan: seq<seq<Date>>, k: nat)
    requires IsRun(cs, es) && InOrder(cs[0], plan) && k < |cs|
    ensures InOrder(cs[k], plan)
  {
    if k > 0 {
      RunsKeepOrder(cs, es, plan, k - 1);
      StepKeepsOrder(cs[k - 1], plan, es[k - 1]);
    }
  }

  lemma {:induction false} TimelyRunsKeepInv(cs: seq<Chain>, es: seq<Event>, plan: seq<seq<Date>>, k: nat)
    requires IsRun(cs, es) && Inv(cs[0], plan) && k < |cs| && TimelyUpTo(cs, es, k)
    ensures Inv(cs[k], plan)
  {
    if k > 0 {
      TimelyRunsKeepInv(cs, es, plan, k - 1);
      StepKeepsInv(cs[k - 1], plan, es[k - 1]);
    }
  }

  lemma {:induction false} AccountedRunsAreTimely(cs: seq<Chain>, es: seq<Event>, plan: seq<seq<Date>>, k: nat)
    requires IsRun(cs, es) && Inv(cs[0], plan) && k <= |es|
    requires forall i :: 0 <= i < |cs| ==> Accounted(cs[i])
    ensures TimelyUpTo(cs, es, k)
  {
    if k > 0 {
      AccountedRunsAreTimely(cs, es, plan, k - 1);
      TimelyRunsKeepInv(cs, es, plan, k - 1);
      assert Possible(cs[k - 1], es[k - 1]) && cs[k] == Step(cs[k - 1], es[k - 1]) && Accounted(cs[k]);
      if es[k - 1].LateWrite? { LateWriteIsAccountedExactlyWhen(cs[k - 1], plan, es[k - 1].writer); }
    }
  }

  function Flatten(plan: seq<seq<Date>>): seq<Date> {
    if plan == [] then [] else Flatten(plan[..|plan| - 1]) + plan[|plan| - 1]
  }

  lemma {:induction false} PlanFlattens(chunks: seq<Chunk>, plan: seq<seq<Date>>)
    requires |plan| == |chunks| && forall i :: 0 <= i < |plan| ==> plan[i] == chunks[i].days
    ensures Flatten(plan) == AllDays(chunks)
  {
    if plan != [] { PlanFlattens(chunks[..|chunks| - 1], plan[..|plan| - 1]); }
  }

  /** Every day whose shard was ever submitted, in the order of submission. */
  function SentDays(plan: seq<seq<Date>>, sent: seq<nat>): seq<Date>
    requires forall i :: 0 <= i < |sent| ==> sent[i] < |plan|
  {
    if sent == [] then [] else SentDays(plan, sent[..|sent| - 1]) + plan[sent[|sent| - 1]]
  }

  lemma {:induction false} SentIsPrefix(plan: seq<seq<Date>>, sent: seq<nat>)
    requires SentInOrder(sent) && |sent| <= |plan|
    ensures SentDays(plan, sent) == Flatten(plan[..|sent|])
  {
    if sent != [] {
      var n := |sent| - 1;
      SentIsPrefix(plan, sent[..n]);
      assert plan[..|sent|][..n] == plan[..n] && sent[..n] == sent[..|sent| - 1];
    }
  }

  lemma {:induction false} FlattenPrefix(plan: seq<seq<Date>>, n: nat)
    requires n <= |plan|
    ensures Flatten(plan[..n]) <= Flatten(plan)
    decreases |plan|
  {
    if n < |plan| {
      var k := |plan| - 1;
      FlattenPrefix(plan[..k], n);
      assert plan[..k][..n] == plan[..n];
    } else {
      assert plan[..n] == plan;
    }
  }

  /**
   Whatever the broker, the clock and other writers do: at most one chunk of the run is
   out, and the days submitted so far are the first days of the range, each once.
   */
  lemma EveryChainIsInOrder(me: RunId, m: Manifest, how: Dispatch, cs: seq<Chain>, es: seq<Event>, k: nat)
    requires IsFresh(m) && IsRun(cs, es) && cs[0] == Started(me, m, how) && k < |cs|
    ensures Outstanding(cs[k]) <= 1
    ensures (forall i :: 0 <= i < |cs[k].sent| ==> cs[k].sent[i] < |m.chunks|)
            && SentDays(PlanOf(m), cs[k].sent) <= AllDays(m.chunks)
  {
    var plan := PlanOf(m);
    StartEstablishesInv(me, m, how);
    RunsKeepOrder(cs, es, plan, k);
    SentIsPrefix(plan, cs[k].sent);
    FlattenPrefix(plan, |cs[k].sent|);
    PlanFlattens(m.chunks, plan);
  }

  /**
   The manifest accounts for its run in every state, finished chunks a prefix and the
   totals theirs, exactly when no callback ever commits between the read and the write
   of a supersession or of a failed dispatch's handler.
   */
  lemma RunIsAccountedExactlyWhen(me: RunId, m: Manifest, how: Dispatch, cs: seq<Chain>, es: seq<Event>)
    requires IsFresh(m) && IsRun(cs, es) && cs[0] == Started(me, m, how)
    ensures (forall k :: 0 <= k < |cs| ==> Accounted(cs[k])) <==> TimelyUpTo(cs, es, |es|)
  {
    var plan := PlanOf(m);
    StartEstablishesInv(me, m, how);
    if TimelyUpTo(cs, es, |es|) {
      forall k | 0 <= k < |cs|
        ensures Accounted(cs[k])
      {
        TimelyRunsKeepInv(cs, es, plan, k);
        InvIsAccounted(cs[k], plan);
      }
    }
    if forall k :: 0 <= k < |cs| ==> Accounted(cs[k]) {
      AccountedRunsAreTimely(cs, es, plan, |es|);
    }
  }

  /** In such a run, moreover, at most one chunk is ever marked running, and the manifest keeps the whole range. */
  lemma EveryStateOfTheBackfill(me: RunId, m: Manifest, how: Dispatch, cs: seq<Chain>, es: seq<Event>, k: nat)
    requires IsFresh(m) && IsRun(cs, es) && cs[0] == Started(me, m, how) && k < |cs| && TimelyUpTo(cs, es, k)
    ensures Accounted(cs[k]) && |cs[k].finished| <= |m.chunks|
    ensures forall i :: 0 <= i < |cs[k].finished| ==> Reported(cs[k].finished[i], m.chunks[i].days)
    ensures cs[k].stored.Some? ==>
              var now := cs[k].stored.value;
              && |now.chunks| == |m.chunks| && AllDays(now.chunks) == AllDays(m.chunks)
              && now.failures == Published(cs[k].finished)
              && (|cs[k].finished| == |m.chunks| ==> now.finished)
              && (forall i, j | 0 <= i < j < |now.chunks| ::
                    !(now.chunks[i].phase.Running? && now.chunks[j].phase.Running?))
              && (forall i :: 0 <= i < |cs[k].finished| ==>
                  now.chunks[i] == Recording(m.chunks[i].days, cs[k].finished[i]))
  {
    var plan := PlanOf(m);
    StartEstablishesInv(me, m, how);
    TimelyRunsKeepInv(cs, es, plan, k);
    InvIsAccounted(cs[k], plan);
    if cs[k].stored.Some? { StoredFits(cs[k].stored.value, m.chunks, cs[k].finished); }
  }

  lemma StoredFits(now: Manifest, chunks: seq<Chunk>, finished: seq<Summary>)
    requires Fits(now, seq(|chunks|, i requires 0 <= i < |chunks| => chunks[i].days), finished)
    ensures |now.chunks| == |chunks| && AllDays(now.chunks) == AllDays(chunks)
    ensures forall i, j | 0 <= i < j < |now.chunks| :: !(now.chunks[i].phase.Running? && now.chunks[j].phase.Running?)
    ensures forall i :: 0 <= i < |finished| ==> now.chunks[i] == Recording(chunks[i].days, finished[i])
  {
    var plan := seq(|chunks|, i requires 0 <= i < |chunks| => chunks[i].days);
    PlanFlattens(chunks, plan);
    PlanFlattens(now.chunks, plan);
  }

  ghost predicate PossibleAll(c: Chain, es: seq<Event>)
    decreases |es|
  {
    es == [] || (Possible(c, es[0]) && PossibleAll(Step(c, es[0]), es[1..]))
  }

  ghost function After(c: Chain, es: seq<Event>): Chain
    requires PossibleAll(c, es)
    decreases |es|
  {
    if es == [] then c else After(Step(c, es[0]), es[1..])
  }

  lemma OneMore(c: Chain, e: Event, es: seq<Event>)
    requires Possible(c, e) && PossibleAll(Step(c, e), es)
    ensures PossibleAll(c, [e] + es) && After(c, [e] + es) == After(Step(c, e), es)
  {
    assert ([e] + es)[1..] == es;
  }

  // ------------------------------------------------------------- two runs that go wrong

  const TWO_DAYS: Manifest := Manifest([Fresh([0]), Fresh([1])], 0, 0, 0, [], false, false)

  const ONE_DAY: Summary := Summary(1, 1, 0, [])

  const ONE_DONE: Manifest :=
    Manifest([Recording([0], ONE_DAY), Fresh([1]).(phase := Running)], 1, 1, 0, [], false, false)

  /** Two chunks of a day, the first submitted. */
  const BEGUN: Chain := Started(0, TWO_DAYS, Sent)

  /** One event takes `c` to `d`. */
  predicate Takes(c: Chain, e: Event, d: Chain) { Possible(c, e) && Step(c, e) == d }

  /** Supersession reads; the first chunk finishes and the second is submitted. */
  const READ_FIRST: Chain := BEGUN.(late := [Marking(BEGUN.stored.value, 0)])
  const FIRST_AT_WORK: Chain := READ_FIRST.(flight := multiset{}, working := Some(Callback(0, READ_FIRST.stored)))
  const SECOND_OUT: Chain := FIRST_AT_WORK.(
    working := None, stored := Some(ONE_DONE), flight := multiset{1}, sent := [0, 1], finished := [ONE_DAY])

  /** Supersession writes its older copy, and the second chunk's callback builds on it. */
  const FORGOTTEN: Manifest := BEGUN.stored.value.(superseded := true, finished := true)
  const OVERWRITTEN: Chain := SECOND_OUT.(stored := Some(FORGOTTEN), late := [])
  const SECOND_AT_WORK: Chain := OVERWRITTEN.(flight := multiset{}, working := Some(Callback(1, Some(FORGOTTEN))))
  const SECOND_ONLY: Manifest := FORGOTTEN.(
    chunks := [BEGUN.stored.value.chunks[0], Recording([1], ONE_DAY)], total := 1, written := 1)
  const FIRST_LOST: Chain := SECOND_AT_WORK.(
    working := None, stored := Some(SECOND_ONLY), finished := [ONE_DAY, ONE_DAY])

  lemma DoneSumOfTwo(a: Chunk, b: Chunk, counter: Chunk -> nat)
    ensures DoneSum([a, b], counter)
        == (if a.phase.Done? then counter(a) else 0) + (if b.phase.Done? then counter(b) else 0)
  {
    var one, two := [a], [a, b];
    assert one[..0] == [] && two[..1] == one;
    assert DoneSum(one, counter) == DoneSum(one[..0], counter) + (if a.phase.Done? then counter(a) else 0);
  }

  lemma RecordsOneOfTwo(m: Manifest, index: nat)
    requires |m.chunks| == 2 && index < 2 && |m.failures| == 0
    ensures Recorded(m, index, ONE_DAY).failures == []
    ensures var chunks := Recorded(m, index, ONE_DAY).chunks;
            && chunks == m.chunks[index := Recording(m.chunks[index].days, ONE_DAY)]
            && Recorded(m, index, ONE_DAY).total == DoneSum([chunks[0], chunks[1]], TOTAL)
            && Recorded(m, index, ONE_DAY).written == DoneSum([chunks[0], chunks[1]], WRITTEN_OF)
            && Recorded(m, index, ONE_DAY).failed == DoneSum([chunks[0], chunks[1]], FAILED_OF)
  {
    var chunks := Recorded(m, index, ONE_DAY).chunks;
    assert chunks == [chunks[0], chunks[1]];
  }

  lemma FirstFinishes()
    ensures Takes(BEGUN, SupersedeRead, READ_FIRST) && Takes(READ_FIRST, Arrive(0), FIRST_AT_WORK)
    ensures Takes(FIRST_AT_WORK, Commit(ONE_DAY, Sent), SECOND_OUT)
  {
    var m := BEGUN.stored.value;
    assert m.chunks == [Fresh([0]).(phase := Running), Fresh([1])];
    RecordsOneOfTwo(m, 0);
    var done := Recorded(m, 0, ONE_DAY);
    assert done.chunks == [Recording([0], ONE_DAY), Fresh([1])];
    DoneSumOfTwo(done.chunks[0], done.chunks[1], TOTAL);
    DoneSumOfTwo(done.chunks[0], done.chunks[1], WRITTEN_OF);
    DoneSumOfTwo(done.chunks[0], done.chunks[1], FAILED_OF);
    assert WithPhase(done, 1, Running) == ONE_DONE;
  }

  lemma FirstIsForgotten()
    ensures Takes(SECOND_OUT, LateWrite(0), OVERWRITTEN) && Takes(OVERWRITTEN, Arrive(1), SECOND_AT_WORK)
    ensures Takes(SECOND_AT_WORK, Commit(ONE_DAY, Sent), FIRST_LOST)
  {
    RecordsOneOfTwo(FORGOTTEN, 1);
    var done := Recorded(FORGOTTEN, 1, ONE_DAY);
    assert done.chunks == SECOND_ONLY.chunks;
    DoneSumOfTwo(done.chunks[0], done.chunks[1], TOTAL);
    DoneSumOfTwo(done.chunks[0], done.chunks[1], WRITTEN_OF);
    DoneSumOfTwo(done.chunks[0], done.chunks[1], FAILED_OF);
  }

  lemma LosesTheFirst() returns (es: seq<Event>)
    ensures PossibleAll(SECOND_OUT, es) && After(SECOND_OUT, es) == FIRST_LOST
  {
    FirstIsForgotten();
    es := Then(SECOND_AT_WORK, Commit(ONE_DAY, Sent), FIRST_LOST, []);
    es := Then(OVERWRITTEN, Arrive(1), SECOND_AT_WORK, es);
    es := Then(SECOND_OUT, LateWrite(0), OVERWRITTEN, es);
  }

  /**
   A supersession that reads, and writes only after the first chunk's callback has
   committed, loses that chunk: in the end the second is recorded as done, the first
   as running, and the totals are one day short.
   */
  lemma OvertakenSupersessionLosesAChunk() returns (es: seq<Event>)
    ensures IsFresh(TWO_DAYS) && PossibleAll(Started(0, TWO_DAYS, Sent), es)
    ensures After(Started(0, TWO_DAYS, Sent), es) == FIRST_LOST
    ensures |FIRST_LOST.finished| == 2 && FIRST_LOST.stored.value.total == 1
    ensures FIRST_LOST.stored.value.chunks == [Fresh([0]).(phase := Running), Recording([1], ONE_DAY)]
  {
    FirstFinishes();
    es := LosesTheFirst();
    es := Then(FIRST_AT_WORK, Commit(ONE_DAY, Sent), SECOND_OUT, es);
    es := Then(READ_FIRST, Arrive(0), FIRST_AT_WORK, es);
    es := Then(BEGUN, SupersedeRead, READ_FIRST, es);
  }

  lemma Then(c: Chain, e: Event, d: Chain, rest: seq<Event>) returns (es: seq<Event>)
    requires Takes(c, e, d) && PossibleAll(d, rest)
    ensures PossibleAll(c, es) && After(c, es) == After(d, rest)
  {
    OneMore(c, e, rest);
    es := [e] + rest;
  }

  /** The other order: the callback reads first, and writes after the supersession. */
  const AT_WORK_FIRST: Chain := BEGUN.(flight := multiset{}, working := Some(Callback(0, BEGUN.stored)))
  const AT_WORK_READ: Chain := AT_WORK_FIRST.(late := [Marking(BEGUN.stored.value, 0)])
  const AT_WORK_MARKED: Chain := AT_WORK_FIRST.(stored := Some(FORGOTTEN))

  /** Then the supersession is lost: the superseded run submits its next chunk, and its manifest no longer says so. */
  lemma OvertakenSupersessionIsLost() returns (es: seq<Event>)
    ensures IsFresh(TWO_DAYS) && PossibleAll(Started(0, TWO_DAYS, Sent), es)
    ensures After(Started(0, TWO_DAYS, Sent), es) == AT_WORK_MARKED
    ensures AT_WORK_MARKED.stored.value.superseded && AT_WORK_MARKED.sent == [0]
    ensures Takes(AT_WORK_MARKED, Commit(ONE_DAY, Sent), SECOND_OUT.(late := []))
    ensures !SECOND_OUT.stored.value.superseded && SECOND_OUT.sent == [0, 1]
  {
    FirstFinishes();
    assert Takes(BEGUN, Arrive(0), AT_WORK_FIRST) && Takes(AT_WORK_FIRST, SupersedeRead, AT_WORK_READ);
    assert Takes(AT_WORK_READ, LateWrite(0), AT_WORK_MARKED);
    es := Then(AT_WORK_READ, LateWrite(0), AT_WORK_MARKED, []);
    es := Then(AT_WORK_FIRST, SupersedeRead, AT_WORK_READ, es);
    es := Then(BEGUN, Arrive(0), AT_WORK_FIRST, es);
  }

  // -------------------------------------------------------------------------- superseding

  /** A copy of the manifest that does not say the run is superseded. */
  predicate Armed(m: Option<Manifest>) { m.Some? && !m.value.superseded }

  /** A handler that writes such a copy back, or may fall back on its own. */
  predicate ArmedHandler(w: Late) { w.Failing? && (w.reloaded.None? || Armed(w.reloaded)) }

  predicate NoArmedHandler(ws: seq<Late>) { forall w :: w in ws ==> !ArmedHandler(w) }

  /**
   Nothing can come of what is under way: no next chunk, or nobody to send it. Naming
   another run the latest is not enough.
   */
  predicate Quiet(c: Chain, chunks: nat) {
    || |c.sent| == chunks
    || (&& !(c.working.Some? && Armed(c.working.value.copy))
        && (c.flight == multiset{} || (!Armed(c.stored) && NoArmedHandler(c.late))))
  }

  lemma QuietStaysQuiet(c: Chain, plan: seq<seq<Date>>, e: Event)
    requires InOrder(c, plan) && Quiet(c, |plan|) && Possible(c, e)
    ensures Step(c, e).sent == c.sent && Quiet(Step(c, e), |plan|)
  {
    match e
    case Arrive(index) => ArriveKeepsOrder(c, plan, index);
    case Commit(s, how) => assert c.flight == multiset{};
    case SupersedeRead =>
    case HandlerRead(i) => assert c.late[i] in c.late && ArmedHandler(c.late[i]);
    case LateWrite(i) =>
      assert c.late[i] in c.late;
      assert c.late[i].Failing? && !ArmedHandler(c.late[i]) ==> Written(c.late[i]).superseded;
    case Point(run) =>
    case ForgetLatest =>
    case Expire =>
  }

  lemma {:induction false} QuietSendsNothing(c: Chain, plan: seq<seq<Date>>, es: seq<Event>)
    requires InOrder(c, plan) && Quiet(c, |plan|) && PossibleAll(c, es)
    ensures After(c, es).sent == c.sent
    decreases |es|
  {
    if es != [] {
      QuietStaysQuiet(c, plan, es[0]);
      StepKeepsOrder(c, plan, es[0]);
      QuietSendsNothing(Step(c, es[0]), plan, es[1..]);
    }
  }

  /** A callback with an armed copy and a next chunk hands off. */
  lemma CallbackHandsOff(c: Chain, plan: seq<seq<Date>>) returns (es: seq<Event>)
    requires InOrder(c, plan) && !Disowned(c) && |c.sent| < |plan|
    requires c.working.Some? && Armed(c.working.value.copy)
    ensures PossibleAll(c, es) && After(c, es).sent == c.sent + [|c.sent|]
  {
    var n := |plan[|c.sent| - 1]|;
    var e := Commit(Summary(n, n, 0, []), Sent);
    es := [e];
    assert es[1..] == [];
    assert Possible(c, e);
    assert After(c, es) == Step(c, e);
  }

  /** So does the callback of a chunk in flight, when it finds an armed manifest. */
  lemma ArrivalHandsOff(c: Chain, plan: seq<seq<Date>>) returns (es: seq<Event>)
    requires InOrder(c, plan) && !Disowned(c) && |c.sent| < |plan|
    requires c.flight != multiset{} && Armed(c.stored)
    ensures PossibleAll(c, es) && After(c, es).sent == c.sent + [|c.sent|]
  {
    var index :| index in c.flight;
    var e := Arrive(index);
    StepKeepsOrder(c, plan, e);
    var rest := CallbackHandsOff(Step(c, e), plan);
    OneMore(c, e, rest);
    es := [e] + rest;
  }

  /** And when a handler stores one first. */
  lemma HandlerRearms(c: Chain, plan: seq<seq<Date>>, i: nat) returns (es: seq<Event>)
    requires InOrder(c, plan) && !Disowned(c) && |c.sent| < |plan|
    requires c.flight != multiset{} && i < |c.late| && c.late[i].Failing? && Armed(c.late[i].reloaded)
    ensures PossibleAll(c, es) && After(c, es).sent == c.sent + [|c.sent|]
  {
    var e := LateWrite(i);
    assert LateShaped(c.late[i], plan);
    StepKeepsOrder(c, plan, e);
    var rest := ArrivalHandsOff(Step(c, e), plan);
    OneMore(c, e, rest);
    es := [e] + rest;
  }

  lemma HandlerFallsBack(c: Chain, plan: seq<seq<Date>>, i: nat) returns (es: seq<Event>)
    requires InOrder(c, plan) && !Disowned(c) && |c.sent| < |plan|
    requires c.flight != multiset{} && i < |c.late| && c.late[i].Failing? && c.late[i].reloaded.None?
    ensures PossibleAll(c, es) && After(c, es).sent == c.sent + [|c.sent|]
  {
    var gone, e := Step(c, Expire), HandlerRead(i);
    assert LateShaped(c.late[i], plan);
    StepKeepsOrder(c, plan, Expire);
    StepKeepsOrder(gone, plan, e);
    var rest := HandlerRearms(Step(gone, e), plan, i);
    OneMore(gone, e, rest);
    OneMore(c, Expire, [e] + rest);
    es := [Expire] + ([e] + rest);
  }

  /**
   From any state of the run, no continuation whatever submits another chunk exactly
   when it has no next chunk, or nobody who will write holds an unmarked manifest: no
   callback at work and, while a chunk is out, neither the store nor the handler of a
   failed dispatch. Whether another run is the latest does not matter for good: that
   key can be lost, and without it a run goes on.
   */
  lemma StopsForGoodExactlyWhen(c: Chain, plan: seq<seq<Date>>)
    requires InOrder(c, plan)
    ensures (forall es :: PossibleAll(c, es) ==> After(c, es).sent == c.sent) <==> Quiet(c, |plan|)
  {
    if Quiet(c, |plan|) {
      forall es | PossibleAll(c, es)
        ensures After(c, es).sent == c.sent
      {
        QuietSendsNothing(c, plan, es);
      }
    } else {
      var es := LoudRunsSend(c, plan);
      assert After(c, es).sent != c.sent;
    }
  }

  lemma LoudRunsSend(c: Chain, plan: seq<seq<Date>>) returns (es: seq<Event>)
    requires InOrder(c, plan) && !Quiet(c, |plan|)
    ensures PossibleAll(c, es) && After(c, es).sent == c.sent + [|c.sent|]
  {
    var free := Step(c, ForgetLatest);
    StepKeepsOrder(c, plan, ForgetLatest);
    var rest := LatestRunsSend(free, plan);
    OneMore(c, ForgetLatest, rest);
    es := [ForgetLatest] + rest;
  }

  lemma LatestRunsSend(c: Chain, plan: seq<seq<Date>>) returns (es: seq<Event>)
    requires InOrder(c, plan) && !Quiet(c, |plan|) && !Disowned(c)
    ensures PossibleAll(c, es) && After(c, es).sent == c.sent + [|c.sent|]
  {
    if c.working.Some? && Armed(c.working.value.copy) {
      es := CallbackHandsOff(c, plan);
    } else if Armed(c.stored) {
      es := ArrivalHandsOff(c, plan);
    } else {
      var w :| w in c.late && ArmedHandler(w);
      var i :| 0 <= i < |c.late| && c.late[i] == w;
      if c.late[i].reloaded.Some? { es := HandlerRearms(c, plan, i); } else { es := HandlerFallsBack(c, plan, i); }
    }
  }

  /**
   Superseding a run before its last chunk stops it for good exactly when no callback
   is at work with a copy it read before, and no failed dispatch's handler has one to
   write while a chunk is out.
   */
  lemma SupersedeStopsExactlyWhen(c: Chain, plan: seq<seq<Date>>, i: nat)
    requires InOrder(c, plan) && i < |c.late| && c.late[i].Marking? && |c.sent| < |plan|
    ensures var marked := Step(c, LateWrite(i));
            (forall es :: PossibleAll(marked, es) ==> After(marked, es).sent == c.sent) <==>
              && !(c.working.Some? && Armed(c.working.value.copy))
              && (c.flight == multiset{} || NoArmedHandler(c.late))
  {
    var marked := Step(c, LateWrite(i));
    StepKeepsOrder(c, plan, LateWrite(i));
    StopsForGoodExactlyWhen(marked, plan);
    HandlersRemain(c.late, i);
  }

  lemma HandlersRemain(ws: seq<Late>, i: nat)
    requires i < |ws| && ws[i].Marking?
    ensures NoArmedHandler(ws) <==> NoArmedHandler(Without(ws, i))
  {
    assert ws == ws[..i] + [ws[i]] + ws[i + 1..];
  }

  /** A callback that holds its older copy hands off to its next chunk, if it has one, while its run is the latest. */
  lemma OvertakenCallbackHandsOff(c: Chain, i: nat, s: Summary)
    requires i < |c.late| && c.late[i].Marking? && c.working.Some? && Armed(c.working.value.copy)
    requires Possible(c, Commit(s, Sent))
    ensures var after := Step(Step(c, LateWrite(i)), Commit(s, Sent));
            after.sent != c.sent <==>
              !Disowned(c) && c.working.value.index + 1 < |c.working.value.copy.value.chunks|
  {
    var index := c.working.value.index;
    if !Disowned(c) && index + 1 < |c.working.value.copy.value.chunks| {
      assert Step(Step(c, LateWrite(i)), Commit(s, Sent)).sent == c.sent + [index + 1];
    }
  }

  /** Every copy of the manifest says that the run is superseded. */
  predicate Stopped(c: Chain) {
    && !Armed(c.stored)
    && !(c.working.Some? && Armed(c.working.value.copy))
    && NoArmedHandler(c.late)
  }

  /** A run marked superseded everywhere submits no further chunk, ever. */
  lemma StoppedRunsSendNothing(c: Chain, plan: seq<seq<Date>>, es: seq<Event>)
    requires InOrder(c, plan) && Stopped(c) && PossibleAll(c, es)
    ensures After(c, es).sent == c.sent
  {
    QuietSendsNothing(c, plan, es);
  }

  /** One that is no longer the latest submits none for as long as the latest-run key is there. */
  lemma {:induction false} DisownedRunsSendNothing(c: Chain, es: seq<Event>)
    requires Disowned(c) && PossibleAll(c, es) && ForgetLatest !in es
    ensures After(c, es).sent == c.sent && Disowned(After(c, es))
    decreases |es|
  {
    if es != [] {
      assert es[0] in es && forall e :: e in es[1..] ==> e in es;
      DisownedRunsSendNothing(Step(c, es[0]), es[1..]);
    }
  }
}
