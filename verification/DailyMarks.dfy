/**
 Completion marks of one day's metrics: six populators, a core computed from two of
 them, partial retries that carry forward what they did not touch, and processes
 that die at any point of a run.
 */
module DailyMarks {
  import opened Options

  datatype Populator = ActiveSafes | ActiveOwners | TokenVolume | TxVolume | SafeAppTxs | SafeCreations

  const POPULATORS: seq<Populator> :=
    [ActiveSafes, ActiveOwners, TokenVolume, TxVolume, SafeAppTxs, SafeCreations]

  const ALL: set<Populator> := {ActiveSafes, ActiveOwners, TokenVolume, TxVolume, SafeAppTxs, SafeCreations}

  /** The core reads its counts from these two rollups. */
  const CORE_INPUTS: set<Populator> := {ActiveSafes, ActiveOwners}

  /** The two nullable timestamps of a DailyMetric row: set or not. */
  datatype Marks = Marks(coreCompleted: bool, completed: bool)

  /** The catch-up row of the day. */
  datatype Row = Row(coreOk: Option<bool>, failed: set<Populator>)

  datatype Day = Day(metric: Option<Marks>, row: Option<Row>)

  /** What is really in the tables: the steps whose latest execution, recorded or not, succeeded. */
  datatype Truth = Truth(good: set<Populator>, core: bool)

  /** Where the process dies; `During(n)` is inside the n-th step, the core coming after the populators. */
  datatype Death = Survives | BeforeReset | During(step: nat) | BeforeMarks | BeforeRecord

  /** One run: what it is asked to do, which populators and whether the core would succeed, and its death. */
  datatype Run = Run(only: Option<set<Populator>>, ok: set<Populator>, coreSucceeds: bool, death: Death)

  datatype Result = Refused | Dead | Finished(done: bool, coreOk: bool, failed: set<Populator>)

  predicate RunsCore(only: Option<set<Populator>>) { only.None? || only.value * CORE_INPUTS != {} }

  /** An empty retry, or one for a day that was never written, raises ValueError. */
  predicate Accepted(d: Day, only: Option<set<Populator>>) { only.None? || (only.value != {} && d.metric.Some?) }

  function Selected(names: seq<Populator>, only: Option<set<Populator>>): seq<Populator> {
    if names == [] then []
    else (if only.None? || names[0] in only.value then [names[0]] else []) + Selected(names[1..], only)
  }

  function Steps(only: Option<set<Populator>>): seq<Populator> { Selected(POPULATORS, only) }

  function Asked(only: Option<set<Populator>>): set<Populator> { if only.None? then ALL else only.value }

  /** A run executes what it is asked for, each populator once. */
  lemma StepsAreAsked(only: Option<set<Populator>>)
    ensures forall p :: p in Steps(only) <==> p in Asked(only)
    ensures Distinct(Steps(only))
  {
    SelectedAreAsked(POPULATORS, only);
    assert forall p: Populator :: p in POPULATORS && p in ALL by { EveryPopulatorIsListed(); }
  }

  lemma EveryPopulatorIsListed()
    ensures forall p: Populator :: p in POPULATORS && p in ALL
  {
    forall p: Populator
      ensures p in POPULATORS && p in ALL
    {
      match p
      case ActiveSafes => assert POPULATORS[0] == p;
      case ActiveOwners => assert POPULATORS[1] == p;
      case TokenVolume => assert POPULATORS[2] == p;
      case TxVolume => assert POPULATORS[3] == p;
      case SafeAppTxs => assert POPULATORS[4] == p;
      case SafeCreations => assert POPULATORS[5] == p;
    }
  }

  ghost predicate Distinct(xs: seq<Populator>) {
    forall i, j :: 0 <= i < j < |xs| ==> xs[i] != xs[j]
  }

  lemma {:induction false} SelectedAreAsked(names: seq<Populator>, only: Option<set<Populator>>)
    requires Distinct(names)
    ensures forall p :: p in Selected(names, only) <==> p in names && (only.None? || p in only.value)
    ensures Distinct(Selected(names, only))
  {
    if names != [] {
      SelectedAreAsked(names[1..], only);
      assert names == [names[0]] + names[1..];
      assert names[0] !in Selected(names[1..], only);
    }
  }

  // ------------------------------------------------------------- what one run leaves

  /** How many steps ran to their end before the process died, out of `n`. */
  function Reached(death: Death, n: nat): nat {
    match death
    case BeforeReset => 0
    case During(k) => if k < n then k else n
    case _ => n
  }

  predicate DiesInside(r: Run) {
    var n := |Steps(r.only)|;
    match r.death
    case BeforeReset => RunsCore(r.only)
    case During(k) => k < n || (k == n && RunsCore(r.only))
    case _ => false
  }

  function Prefix(xs: seq<Populator>, n: nat): set<Populator>
    requires n <= |xs|
  {
    set p | p in xs[..n]
  }

  function StepsReached(r: Run): (n: nat)
    ensures n <= |Steps(r.only)|
  {
    var n := |Steps(r.only)|;
    if r.death.BeforeReset? && RunsCore(r.only) then 0
    else if r.death.During? then Reached(r.death, n)
    else n
  }

  /** Populators this run executed to the end. */
  function Ended(r: Run): set<Populator> { Prefix(Steps(r.only), StepsReached(r)) }

  /** Those, and the one it died in. */
  function Touched(r: Run): set<Populator> {
    var n := StepsReached(r);
    if r.death.During? && n < |Steps(r.only)| then Prefix(Steps(r.only), n + 1) else Ended(r)
  }

  function TruthAfter(t: Truth, r: Run): Truth {
    Truth(t.good - Touched(r) + Ended(r) * r.ok,
          if !RunsCore(r.only) || r.death.BeforeReset? then t.core else !DiesInside(r) && r.coreSucceeds)
  }

  /** Marks are cleared and `core_ok` reset, as two commits, before anything else runs. */
  function Cleared(d: Day, r: Run): Day {
    if !RunsCore(r.only) then d
    else
      var unmarked := d.(metric := if d.metric.Some? then Some(Marks(false, false)) else None);
      if r.death.BeforeReset? then unmarked
      else unmarked.(row := if d.row.Some? then Some(d.row.value.(coreOk := Some(false))) else None)
  }

  /** The standing a finished run reports: its own result, over what an earlier run recorded. */
  function EffectiveCore(d: Day, r: Run): bool {
    if RunsCore(r.only) then r.coreSucceeds else d.row.Some? && d.row.value.coreOk == Some(true)
  }

  function EffectiveFailed(d: Day, r: Run): set<Populator> {
    var failed := Asked(r.only) - r.ok;
    if r.only.None? then failed
    else (if d.row.Some? then d.row.value.failed else {}) - r.only.value + failed
  }

  function Marked(d: Day, coreOk: bool, failed: set<Populator>): Day {
    if d.metric.None? then d
    else d.(metric := Some(Marks(d.metric.value.coreCompleted || (coreOk && TxVolume !in failed),
                                 d.metric.value.completed || (coreOk && failed == {}))))
  }

  function Recorded(d: Day, coreOk: bool, failed: set<Populator>): Day {
    if d.row.None? then d else d.(row := Some(Row(Some(coreOk), failed)))
  }

  /**
   The traffic populator and the core both write the day's row when there is none; each was
   executed to a good end.
   */
  predicate WritesTheDay(r: Run) {
    TxVolume in Ended(r) * r.ok || (!DiesInside(r) && RunsCore(r.only) && r.coreSucceeds)
  }

  function Worked(d: Day, r: Run): Day {
    var cleared := Cleared(d, r);
    if cleared.metric.None? && WritesTheDay(r) then cleared.(metric := Some(Marks(false, false))) else cleared
  }

  /** Marks first, then the record. */
  function Concluded(d: Day, coreOk: bool, failed: set<Populator>, death: Death): Day {
    if death.BeforeMarks? then d
    else if death.BeforeRecord? then Marked(d, coreOk, failed)
    else Recorded(Marked(d, coreOk, failed), coreOk, failed)
  }

  /** The whole effect of one run on the day's two rows. */
  function After(d: Day, r: Run): Day {
    if !Accepted(d, r.only) then d
    else if DiesInside(r) then Worked(d, r)
    else Concluded(Worked(d, r), EffectiveCore(d, r), EffectiveFailed(d, r), r.death)
  }

  function Report(d: Day, r: Run): Result {
    if !Accepted(d, r.only) then Refused
    else if DiesInside(r) || r.death.BeforeMarks? || r.death.BeforeRecord? then Dead
    else
      var core, failed := EffectiveCore(d, r), EffectiveFailed(d, r);
      Finished(core && failed == {}, core, failed)
  }

  // ------------------------------------------------------------------ the code itself

  /** The two rows of one day, changed in place. */
  class DayTables {
    var metric: Option<Marks>
    var row: Option<Row>
    ghost var truth: Truth

    constructor ()
      ensures Value() == Day(None, None) && truth == Truth({}, false)
    {
      metric, row, truth := None, None, Truth({}, false);
    }

    ghost function Value(): Day
      reads this
    {
      Day(metric, row)
    }

    method SetMarks(core: bool, all: bool)
      modifies this`metric
      ensures metric == if old(metric).None? then None
                        else Some(Marks(old(metric).value.coreCompleted || core, old(metric).value.completed || all))
    {
      if metric.Some? {
        metric := Some(Marks(metric.value.coreCompleted || core, metric.value.completed || all));
      }
    }

    /** The populators in order, failures isolated; stops early only when the process dies. */
    method Populate(steps: seq<Populator>, ok: set<Populator>, death: Death)
      returns (failed: seq<Populator>, alive: bool)
      requires Distinct(steps)
      modifies this`truth, this`metric
      ensures alive <==> !(death.During? && death.step < |steps|)
      ensures var n := if death.During? then Reached(death, |steps|) else |steps|;
              metric == if old(metric).None? && TxVolume in Prefix(steps, n) * ok
                        then Some(Marks(false, false)) else old(metric)
      ensures var n := if death.During? then Reached(death, |steps|) else |steps|;
              && truth.core == old(truth).core
              && truth.good == old(truth).good - Prefix(steps, if n < |steps| then n + 1 else n) + Prefix(steps, n) * ok
      ensures alive ==> forall p :: p in failed <==> p in steps && p !in ok
    {
      failed, alive := [], true;
      var i := 0;
      while i < |steps|
        invariant i <= |steps| && (death.During? ==> i <= death.step || death.step >= |steps|)
        invariant truth.core == old(truth).core
        invariant metric == if old(metric).None? && TxVolume in Prefix(steps, i) * ok
                            then Some(Marks(false, false)) else old(metric)
        invariant truth.good == old(truth).good - Prefix(steps, i) + Prefix(steps, i) * ok
        invariant forall p :: p in failed <==> p in Prefix(steps, i) && p !in ok
      {
        PrefixGrows(steps, i);
        truth := truth.(good := truth.good - {steps[i]});
        if death == During(i) { return failed, false; }
        if steps[i] in ok {
          truth := truth.(good := truth.good + {steps[i]});
          if steps[i] == TxVolume && metric.None? { metric := Some(Marks(false, false)); }
        } else {
          failed := failed + [steps[i]];
        }
        i := i + 1;
      }
      assert steps[..|steps|] == steps;
    }

    /** Clear both marks, then reset `core_ok`: two commits ahead of any work. */
    method Clear(death: Death) returns (alive: bool)
      modifies this
      ensures alive <==> !death.BeforeReset?
      ensures metric == if old(metric).None? then None else Some(Marks(false, false))
      ensures row == if alive && old(row).Some? then Some(old(row).value.(coreOk := Some(false))) else old(row)
      ensures truth == if alive then old(truth).(core := false) else old(truth)
    {
      if metric.Some? { metric := Some(Marks(false, false)); }
      if death.BeforeReset? { return false; }
      if row.Some? { row := Some(row.value.(coreOk := Some(false))); }
      truth := truth.(core := false);
      alive := true;
    }

    /** The core upsert, which writes the day's row when there is none. */
    method ComputeCore(succeeds: bool)
      modifies this
      ensures row == old(row) && truth == old(truth).(core := succeeds)
      ensures metric == if succeeds && old(metric).None? then Some(Marks(false, false)) else old(metric)
    {
      truth := truth.(core := succeeds);
      if succeeds && metric.None? { metric := Some(Marks(false, false)); }
    }

    /** Set the marks, then record the standing: two commits again. */
    method Conclude(core: bool, effective: set<Populator>, death: Death) returns (result: Result)
      modifies this
      ensures truth == old(truth)
      ensures Value() == Concluded(old(Value()), core, effective, death)
      ensures result == if death.BeforeMarks? || death.BeforeRecord? then Dead
                        else Finished(core && effective == {}, core, effective)
    {
      if death.BeforeMarks? { return Dead; }
      SetMarks(core && TxVolume !in effective, core && effective == {});
      if death.BeforeRecord? { return Dead; }
      if row.Some? { row := Some(Row(Some(core), effective)); }
      result := Finished(core && effective == {}, core, effective);
    }

    /** Everything up to the marks. */
    method Work(r: Run) returns (failed: set<Populator>, alive: bool)
      modifies this
      ensures alive <==> !DiesInside(r)
      ensures Value() == Worked(old(Value()), r)
      ensures truth == TruthAfter(old(truth), r)
      ensures alive ==> failed == Asked(r.only) - r.ok
    {
      StepsAreAsked(r.only);
      failed := {};
      if RunsCore(r.only) {
        alive := Clear(r.death);
        if !alive { return; }
      }
      var steps := Steps(r.only);
      var list;
      list, alive := Populate(steps, r.ok, r.death);
      if !alive { return; }
      failed := set p | p in list;
      if RunsCore(r.only) {
        if r.death == During(|steps|) { return failed, false; }
        ComputeCore(r.coreSucceeds);
      }
    }

    /** The whole run, writing the two rows as it goes. */
    method Upsert(r: Run) returns (result: Result)
      modifies this
      ensures Value() == After(old(Value()), r)
      ensures result == Report(old(Value()), r)
      ensures truth == if Accepted(old(Value()), r.only) then TruthAfter(old(truth), r) else old(truth)
    {
      if r.only.Some? && (r.only.value == {} || metric.None?) { return Refused; }
      var prior := row;
      var failed, alive := Work(r);
      if !alive { return Dead; }
      var core := if RunsCore(r.only) then r.coreSucceeds else prior.Some? && prior.value.coreOk == Some(true);
      var carried := if r.only.Some? && prior.Some? then prior.value.failed - r.only.value else {};
      assert carried + failed == EffectiveFailed(old(Value()), r);
      result := Conclude(core, carried + failed, r.death);
    }
  }

  lemma PrefixGrows(xs: seq<Populator>, i: nat)
    requires i < |xs| && Distinct(xs)
    ensures Prefix(xs, i + 1) == Prefix(xs, i) + {xs[i]} && xs[i] !in Prefix(xs, i)
  {
    assert xs[..i + 1] == xs[..i] + [xs[i]];
  }

  // ------------------------------------------------------------ what the marks promise

  /** What the rows say is true of the tables. `completed` covers everything, the row what it does not list. */
  ghost predicate Honest(d: Day, t: Truth) {
    && (d.metric.Some? && d.metric.value.completed ==>
          t.core && t.good == ALL && d.metric.value.coreCompleted)
    && (d.row.Some? && d.row.value.coreOk == Some(true) ==>
          d.metric.Some? && t.core && ALL - d.row.value.failed <= t.good)
  }

  ghost predicate CoreHonest(d: Day, t: Truth) {
    d.metric.Some? && d.metric.value.coreCompleted ==> t.core && TxVolume in t.good
  }

  /** What the sweeper asks for: only the recorded failures when the core stands, else everything. */
  function SweepRequest(row: Option<Row>): Option<set<Populator>> {
    if row.Some? && row.value.coreOk == Some(true) && row.value.failed != {} then Some(row.value.failed) else None
  }

  datatype Event =
    | Full(run: Run)                        // the nightly task or a backfill shard
    | Sweep(run: Run, attempted: bool)      // not attempted: backed off, given up or deferred by the gate
    | Prune                                 // old catch-up rows go

  function Seen(d: Day): Day { if d.row.None? then d.(row := Some(Row(None, {}))) else d }

  ghost predicate Possible(d: Day, e: Event) {
    match e
    case Full(run) => run.only.None?
    case Sweep(run, _) =>
      && !(d.metric.Some? && d.metric.value.completed)
      && run.only == SweepRequest(Seen(d).row)
    case Prune => true
  }

  function Step(d: Day, e: Event): Day {
    match e
    case Full(run) => After(d, run)
    case Sweep(run, attempted) =>
      if !attempted then Seen(d)
      else
        var after := After(Seen(d), run);
        var report := Report(Seen(d), run);
        if report.Finished? && report.done then after.(row := None) else after
    case Prune => d.(row := None)
  }

  function TruthStep(d: Day, t: Truth, e: Event): Truth {
    match e
    case Full(run) => TruthAfter(t, run)
    case Sweep(run, attempted) => if attempted && Accepted(Seen(d), run.only) then TruthAfter(t, run) else t
    case Prune => t
  }

  /** A retry may be trusted to carry standing forward when the recorded core stands. */
  predicate Trusted(d: Day, only: Option<set<Populator>>) {
    only.None? || (d.row.Some? && d.row.value.coreOk == Some(true))
  }

  lemma PrefixWithin(xs: seq<Populator>, n: nat)
    requires n <= |xs|
    ensures forall p :: p in Prefix(xs, n) ==> p in xs
    ensures n == |xs| ==> forall p :: p in xs ==> p in Prefix(xs, n)
  {
    assert xs[..|xs|] == xs;
  }

  /** A run executes nothing it was not asked for, and all of it unless it is killed inside. */
  lemma ExecutesWhatIsAsked(r: Run)
    ensures Ended(r) <= Touched(r) <= Asked(r.only)
    ensures !DiesInside(r) ==> Ended(r) == Touched(r) == Asked(r.only)
    ensures r.death.BeforeReset? && RunsCore(r.only) ==> Touched(r) == {}
  {
    StepsAreAsked(r.only);
    var n := StepsReached(r);
    PrefixWithin(Steps(r.only), n);
    if n < |Steps(r.only)| {
      PrefixWithin(Steps(r.only), n + 1);
      PrefixGrows(Steps(r.only), n);
    }
  }

  /** What the steps leave behind is honest, finished or not. */
  lemma WorkKeepsHonest(d: Day, t: Truth, r: Run)
    requires Honest(d, t) && Accepted(d, r.only) && Trusted(d, r.only)
    requires r.only.Some? ==> r.only.value <= d.row.value.failed
    requires !RunsCore(r.only) ==> !d.metric.value.completed
    ensures Honest(Worked(d, r), TruthAfter(t, r))
    ensures RunsCore(r.only) ==> CoreHonest(Worked(d, r), TruthAfter(t, r))
  {
    ExecutesWhatIsAsked(r);
  }

  /** Marks and record set from a standing that is true keep the rows honest, and spoil no mark. */
  lemma ConcludeKeepsHonest(d: Day, t: Truth, coreOk: bool, failed: set<Populator>, death: Death)
    requires Honest(d, t)
    requires coreOk ==> d.metric.Some? && t.core && ALL - failed <= t.good <= ALL
    ensures Honest(Concluded(d, coreOk, failed, death), t)
    ensures CoreHonest(Concluded(d, coreOk, failed, death), t) <==> CoreHonest(d, t)
  {
  }

  /** The standing a finished run reports is true, of the populators and of the core. */
  lemma FailuresAreTrue(d: Day, t: Truth, r: Run)
    requires Honest(d, t) && Accepted(d, r.only) && Trusted(d, r.only) && !DiesInside(r)
    ensures ALL - EffectiveFailed(d, r) <= TruthAfter(t, r).good <= ALL
  {
    ExecutesWhatIsAsked(r);
    EveryPopulatorIsListed();
  }

  lemma StandingIsTrue(d: Day, t: Truth, r: Run)
    requires Honest(d, t) && Accepted(d, r.only) && Trusted(d, r.only) && !DiesInside(r)
    ensures ALL - EffectiveFailed(d, r) <= TruthAfter(t, r).good <= ALL
    ensures EffectiveCore(d, r) ==> TruthAfter(t, r).core && Worked(d, r).metric.Some?
  {
    FailuresAreTrue(d, t, r);
  }

  /** The run keeps the rows honest, wherever it dies, unless it retries part of a day already complete. */
  lemma RunKeepsHonest(d: Day, t: Truth, r: Run)
    requires Honest(d, t) && Accepted(d, r.only) && Trusted(d, r.only)
    requires r.only.Some? ==> r.only.value <= d.row.value.failed
    requires !RunsCore(r.only) ==> !d.metric.value.completed
    ensures Honest(After(d, r), TruthAfter(t, r))
    ensures RunsCore(r.only) ==> CoreHonest(After(d, r), TruthAfter(t, r))
  {
    WorkKeepsHonest(d, t, r);
    if !DiesInside(r) {
      StandingIsTrue(d, t, r);
      ConcludeKeepsHonest(Worked(d, r), TruthAfter(t, r), EffectiveCore(d, r), EffectiveFailed(d, r), r.death);
    }
  }

  /** Executed again by this run, and not to a good end. */
  predicate Spoils(r: Run, p: Populator) { p in Touched(r) && p !in Ended(r) * r.ok }

  /**
   `core_completed_at` after a retry of recorded failures: it is wrong in exactly one
   case, when it was already set, the core did not rerun, and the traffic populator
   was executed again without success.
   */
  lemma CoreMarkIsWrongExactlyWhen(d: Day, t: Truth, r: Run)
    requires Honest(d, t) && CoreHonest(d, t) && Accepted(d, r.only) && Trusted(d, r.only)
    requires r.only.Some? ==> r.only.value <= d.row.value.failed
    requires !RunsCore(r.only) ==> !d.metric.value.completed
    ensures !CoreHonest(After(d, r), TruthAfter(t, r)) <==>
              && !RunsCore(r.only) && d.metric.value.coreCompleted && Spoils(r, TxVolume)
  {
    RunKeepsHonest(d, t, r);
    if !RunsCore(r.only) {
      ExecutesWhatIsAsked(r);
      assert CoreHonest(d, TruthAfter(t, r)) <==> !(d.metric.value.coreCompleted && Spoils(r, TxVolume));
      WorkKeepsHonest(d, t, r);
      if !DiesInside(r) {
        StandingIsTrue(d, t, r);
        ConcludeKeepsHonest(d, TruthAfter(t, r), EffectiveCore(d, r), EffectiveFailed(d, r), r.death);
      }
    }
  }

  // --------------------------------------------------------------- when a mark is set

  /** The core runs whenever one of its two inputs does. */
  lemma CoreRunsWithItsInputs(only: Option<set<Populator>>)
    ensures RunsCore(only) <==> ActiveSafes in Asked(only) || ActiveOwners in Asked(only)
  {
    if only.Some? && (ActiveSafes in only.value || ActiveOwners in only.value) {
      assert ActiveSafes in only.value * CORE_INPUTS || ActiveOwners in only.value * CORE_INPUTS;
    }
  }

  /** A run that comes to its end reports: refused or killed runs have nothing to report. */
  lemma FinishesExactlyWhen(d: Day, r: Run)
    requires r.death.Survives?
    ensures Report(d, r).Finished? <==> r.only.None? || (r.only.value != {} && d.metric.Some?)
  {
  }

  /**
   What a finished run leaves, on a day with a catch-up row or without: each mark is set
   exactly when it was and the core did not run, or the report is good in what the mark
   covers; and a row that is there records the report.
   */
  lemma MarksAreSetExactlyWhen(d: Day, r: Run)
    requires Report(d, r).Finished?
    ensures var after, report := After(d, r), Report(d, r);
            var coreRan := ActiveSafes in Asked(r.only) || ActiveOwners in Asked(r.only);
            && (report.coreOk <==>
                  if coreRan then r.coreSucceeds else d.row.Some? && d.row.value.coreOk == Some(true))
            && (report.done <==> report.coreOk && report.failed == {})
            && (after.metric.Some? <==>
                  || d.metric.Some? || (TxVolume in Asked(r.only) && TxVolume in r.ok)
                  || (coreRan && r.coreSucceeds))
            && (after.metric.Some? ==>
                  var marks := after.metric.value;
                  && (marks.completed <==>
                        || (!coreRan && d.metric.Some? && d.metric.value.completed)
                        || (report.coreOk && report.failed == {}))
                  && (marks.coreCompleted <==>
                        || (!coreRan && d.metric.Some? && d.metric.value.coreCompleted)
                        || (report.coreOk && TxVolume !in report.failed)))
            && after.row == if d.row.None? then None else Some(Row(Some(report.coreOk), report.failed))
  {
    CoreRunsWithItsInputs(r.only);
    ExecutesWhatIsAsked(r);
  }

  /** A run that finishes as done leaves both marks set. */
  lemma DoneRunsCompleteTheDay(d: Day, r: Run)
    requires Report(d, r).Finished? && Report(d, r).done
    ensures After(d, r).metric == Some(Marks(true, true))
  {
    MarksAreSetExactlyWhen(d, r);
    CoreRunsWithItsInputs(r.only);
  }

  lemma SurvivingRunExecutesAll(t: Truth, r: Run)
    requires r.death.Survives?
    ensures TruthAfter(t, r)
         == Truth(t.good - Asked(r.only) + Asked(r.only) * r.ok, if RunsCore(r.only) then r.coreSucceeds else t.core)
  {
    ExecutesWhatIsAsked(r);
  }

  lemma AllGoodExactlyWhen(good: set<Populator>, all: set<Populator>, ok: set<Populator>)
    requires good <= all
    ensures good - all + all * ok == all <==> all <= ok
    ensures all - ok == {} <==> all <= ok
  {
    assert good - all == {};
    if all * ok == all { assert forall p :: p in all ==> p in all * ok; }
    if all - ok == {} { assert forall p :: p in all && p !in ok ==> p in all - ok; }
  }

  lemma FullRunIsGoodExactlyWhen(d: Day, t: Truth, r: Run)
    requires r.only.None? && r.death.Survives? && t.good <= ALL
    ensures TruthAfter(t, r) == Truth(ALL, true) <==> ALL <= r.ok && r.coreSucceeds
    ensures Report(d, r) == Finished(r.coreSucceeds && ALL <= r.ok, r.coreSucceeds, ALL - r.ok)
  {
    SurvivingRunExecutesAll(t, r);
    AllGoodExactlyWhen(t.good, ALL, r.ok);
  }

  /** In terms of the tables: a full run that survives completes its day exactly when everything in it succeeds. */
  lemma FullRunCompletesExactlyWhen(d: Day, t: Truth, r: Run)
    requires r.only.None? && r.death.Survives? && t.good <= ALL
    ensures var after, truth := After(d, r), TruthAfter(t, r);
            && (after.metric.Some? && after.metric.value.completed <==> truth == Truth(ALL, true))
            && (truth == Truth(ALL, true) <==> ALL <= r.ok && r.coreSucceeds)
            && (truth == Truth(ALL, true) ==> after.metric == Some(Marks(true, true)))
  {
    CoreRunsWithItsInputs(r.only);
    FullRunIsGoodExactlyWhen(d, t, r);
    MarksAreSetExactlyWhen(d, r);
  }

  /** A sweep whose every step succeeds is done: it completes the day and the row goes. */
  lemma GoodSweepCompletesTheDay(d: Day, t: Truth, r: Run)
    requires Honest(d, t) && Possible(d, Sweep(r, true)) && r.death.Survives?
    requires Asked(r.only) <= r.ok && r.coreSucceeds
    ensures Report(Seen(d), r) == Finished(true, true, {})
    ensures Step(d, Sweep(r, true)) == Day(Some(Marks(true, true)), None)
  {
    CoreRunsWithItsInputs(r.only);
    FinishesExactlyWhen(Seen(d), r);
    MarksAreSetExactlyWhen(Seen(d), r);
    assert EffectiveFailed(Seen(d), r) == {};
    DoneRunsCompleteTheDay(Seen(d), r);
  }

  /** An attempted sweep removes the catch-up row exactly when its run is done; otherwise the row stays, or is made. */
  lemma SweepRemovesItsRowExactlyWhenDone(d: Day, r: Run)
    ensures Step(d, Sweep(r, true)).row.None? <==> Report(Seen(d), r).Finished? && Report(Seen(d), r).done
    ensures Step(d, Sweep(r, true)).metric == After(Seen(d), r).metric
    ensures Report(Seen(d), r).Finished? && !Report(Seen(d), r).done ==>
              Step(d, Sweep(r, true)).row == Some(Row(Some(Report(Seen(d), r).coreOk), Report(Seen(d), r).failed))
  {
    if Report(Seen(d), r).Finished? { MarksAreSetExactlyWhen(Seen(d), r); }
  }

  // ------------------------------------------------------------------- whole histories

  function Final(d: Day, es: seq<Event>): Day {
    if es == [] then d else Step(Final(d, es[..|es| - 1]), es[|es| - 1])
  }

  function FinalTruth(d: Day, t: Truth, es: seq<Event>): Truth {
    if es == [] then t
    else TruthStep(Final(d, es[..|es| - 1]), FinalTruth(d, t, es[..|es| - 1]), es[|es| - 1])
  }

  ghost predicate AllPossible(d: Day, es: seq<Event>) {
    es == [] || (AllPossible(d, es[..|es| - 1]) && Possible(Final(d, es[..|es| - 1]), es[|es| - 1]))
  }

  lemma StepKeepsHonest(d: Day, t: Truth, e: Event)
    requires Honest(d, t) && Possible(d, e)
    ensures Honest(Step(d, e), TruthStep(d, t, e))
  {
    match e
    case Full(run) => RunKeepsHonest(d, t, run);
    case Sweep(run, attempted) => if attempted { RunKeepsHonest(Seen(d), t, run); }
    case Prune =>
  }

  /**
   However nightly runs, backfills and sweeps follow one another, and wherever they
   die, a day whose `completed_at` is set has every populator and the core good.
   */
  lemma {:induction false} CompletedDaysAreComplete(d: Day, t: Truth, es: seq<Event>)
    requires Honest(d, t) && AllPossible(d, es)
    ensures Honest(Final(d, es), FinalTruth(d, t, es))
  {
    if es != [] {
      var before, last := es[..|es| - 1], es[|es| - 1];
      CompletedDaysAreComplete(d, t, before);
      StepKeepsHonest(Final(d, before), FinalTruth(d, t, before), last);
    }
  }

  /** No process died between setting the marks and recording the standing. */
  predicate RecordsItsMarks(e: Event) {
    match e
    case Full(run) => !run.death.BeforeRecord?
    case Sweep(run, _) => !run.death.BeforeRecord?
    case Prune => true
  }

  /** A recorded core stands with its traffic populator failed only while the core mark is clear. */
  predicate InStep(d: Day) {
    d.metric.Some? && d.metric.value.coreCompleted && d.row.Some? && d.row.value.coreOk == Some(true) ==>
      TxVolume !in d.row.value.failed
  }

  lemma RunKeepsInStep(d: Day, r: Run)
    requires InStep(d) && Accepted(d, r.only) && !r.death.BeforeRecord?
    requires r.only.Some? && d.row.Some? ==> r.only.value <= d.row.value.failed
    ensures InStep(After(d, r))
  {
  }

  lemma SweepTouchesNothingStale(d: Day, t: Truth, r: Run)
    requires Honest(d, t) && CoreHonest(d, t) && InStep(d) && Accepted(d, r.only)
    requires r.only == SweepRequest(d.row) && !(d.metric.Some? && d.metric.value.completed)
    ensures CoreHonest(After(d, r), TruthAfter(t, r))
  {
    ExecutesWhatIsAsked(r);
    CoreMarkIsWrongExactlyWhen(d, t, r);
  }

  lemma StepKeepsCoreHonest(d: Day, t: Truth, e: Event)
    requires Honest(d, t) && CoreHonest(d, t) && InStep(d) && Possible(d, e) && RecordsItsMarks(e)
    ensures CoreHonest(Step(d, e), TruthStep(d, t, e)) && InStep(Step(d, e))
  {
    match e
    case Full(run) =>
      RunKeepsInStep(d, run);
      RunKeepsHonest(d, t, run);
    case Sweep(run, attempted) =>
      if attempted {
        RunKeepsInStep(Seen(d), run);
        SweepTouchesNothingStale(Seen(d), t, run);
      }
    case Prune =>
  }

  /** Then `core_completed_at`, too, is set only on days whose core and traffic are good. */
  lemma {:induction false} CoreCompletedDaysHaveTheirCore(d: Day, t: Truth, es: seq<Event>)
    requires Honest(d, t) && CoreHonest(d, t) && InStep(d) && AllPossible(d, es)
    requires forall i :: 0 <= i < |es| ==> RecordsItsMarks(es[i])
    ensures CoreHonest(Final(d, es), FinalTruth(d, t, es)) && InStep(Final(d, es))
  {
    if es != [] {
      var before, last := es[..|es| - 1], es[|es| - 1];
      CompletedDaysAreComplete(d, t, before);
      CoreCompletedDaysHaveTheirCore(d, t, before);
      StepKeepsCoreHonest(Final(d, before), FinalTruth(d, t, before), last);
    }
  }

  /** The next sweep will not retry the traffic alone under a core mark that is set. */
  predicate Settled(d: Day) {
    || InStep(d)
    || (d.metric.Some? && d.metric.value.completed)
    || RunsCore(SweepRequest(d.row))
  }

  /** A run of the core clears the marks first, so it leaves nothing stale behind. */
  lemma CoreRunIsInStep(d: Day, r: Run)
    requires Accepted(d, r.only) && RunsCore(r.only) && !r.death.BeforeRecord?
    ensures InStep(After(d, r))
  {
  }

  lemma SettledStepIsCoreHonest(d: Day, t: Truth, e: Event)
    requires Honest(d, t) && CoreHonest(d, t) && Settled(d) && Possible(d, e) && RecordsItsMarks(e)
    ensures CoreHonest(Step(d, e), TruthStep(d, t, e)) && Settled(Step(d, e))
  {
    if InStep(d) {
      StepKeepsCoreHonest(d, t, e);
    } else if e.Full? || (e.Sweep? && e.attempted) {
      assert Seen(d) == d && RunsCore(e.run.only);
      RunKeepsHonest(d, t, e.run);
      CoreRunIsInStep(d, e.run);
    }
  }

  lemma {:induction false} SettledDaysStayCoreHonest(d: Day, t: Truth, es: seq<Event>)
    requires Honest(d, t) && CoreHonest(d, t) && Settled(d) && AllPossible(d, es)
    requires forall i :: 0 <= i < |es| ==> RecordsItsMarks(es[i])
    ensures CoreHonest(Final(d, es), FinalTruth(d, t, es)) && Settled(Final(d, es))
  {
    if es != [] {
      var before, last := es[..|es| - 1], es[|es| - 1];
      CompletedDaysAreComplete(d, t, before);
      SettledDaysStayCoreHonest(d, t, before);
      SettledStepIsCoreHonest(Final(d, before), FinalTruth(d, t, before), last);
    }
  }

  /** The sweep that fails: it retries the recorded failures, and none of them succeeds. */
  function FailingSweep(d: Day): Event { Sweep(Run(SweepRequest(d.row), {}, true, Survives), true) }

  lemma UnsettledSweepSpoilsTheMark(d: Day, t: Truth)
    requires Honest(d, t) && CoreHonest(d, t) && !Settled(d)
    ensures Possible(d, FailingSweep(d)) && RecordsItsMarks(FailingSweep(d))
    ensures !CoreHonest(Step(d, FailingSweep(d)), TruthStep(d, t, FailingSweep(d)))
  {
    var r := FailingSweep(d).run;
    assert TxVolume in d.row.value.failed;
    ExecutesWhatIsAsked(r);
    CoreMarkIsWrongExactlyWhen(d, t, r);
    assert EffectiveFailed(d, r) != {};
  }

  /**
   Before any of it runs: whatever follows, with no process dying between its marks and
   its record, the core mark stays true exactly when the day is settled now, that is
   when the traffic is not among recorded failures that a sweep would retry without the
   core under a core mark already set.
   */
  lemma CoreMarkStaysTrueExactlyWhen(d: Day, t: Truth)
    requires Honest(d, t) && CoreHonest(d, t)
    ensures Settled(d) <==>
              forall es :: AllPossible(d, es) && (forall i :: 0 <= i < |es| ==> RecordsItsMarks(es[i])) ==>
                CoreHonest(Final(d, es), FinalTruth(d, t, es))
  {
    if Settled(d) {
      forall es | AllPossible(d, es) && forall i :: 0 <= i < |es| ==> RecordsItsMarks(es[i])
        ensures CoreHonest(Final(d, es), FinalTruth(d, t, es))
      {
        SettledDaysStayCoreHonest(d, t, es);
      }
    } else {
      UnsettledSweepSpoilsTheMark(d, t);
      var e := FailingSweep(d);
      OneEvent(d, t, e);
      assert forall i :: 0 <= i < |[e]| ==> RecordsItsMarks([e][i]);
    }
  }

  lemma OneEvent(d: Day, t: Truth, e: Event)
    requires Possible(d, e)
    ensures AllPossible(d, [e]) && Final(d, [e]) == Step(d, e) && FinalTruth(d, t, [e]) == TruthStep(d, t, e)
  {
    assert [e][..0] == [];
    assert AllPossible(d, [e][..0]) && Final(d, [e][..0]) == d && FinalTruth(d, t, [e][..0]) == t;
  }

  const RETRY: set<Populator> := {TokenVolume, TxVolume}

  /** Two failures recorded over a good core. */
  const HALF_FAILED: Day := Day(Some(Marks(false, false)), Some(Row(Some(true), RETRY)))

  /** A sweep repairs the traffic, sets the core mark and breaks off before its record. */
  const BREAKS_OFF: Run := Run(Some(RETRY), {TxVolume}, true, BeforeRecord)

  const FAILS_AGAIN: Run := Run(Some(RETRY), {}, true, Survives)

  lemma BreaksOff(t: Truth)
    ensures After(HALF_FAILED, BREAKS_OFF) == HALF_FAILED.(metric := Some(Marks(true, false)))
    ensures TruthAfter(t, BREAKS_OFF).core == t.core
  {
    assert TxVolume in RETRY && TokenVolume in RETRY;
    assert EffectiveFailed(HALF_FAILED, BREAKS_OFF) == {TokenVolume};
  }

  lemma FailsAgain(d: Day, t: Truth)
    requires d == HALF_FAILED.(metric := Some(Marks(true, false)))
    ensures After(d, FAILS_AGAIN) == d && TxVolume !in TruthAfter(t, FAILS_AGAIN).good
    ensures Report(d, FAILS_AGAIN).Finished? && !Report(d, FAILS_AGAIN).done
  {
    SkipsTheCore();
    assert EffectiveFailed(d, FAILS_AGAIN) == RETRY;
    assert EffectiveCore(d, FAILS_AGAIN);
    assert Worked(d, FAILS_AGAIN) == d;
    ExecutesWhatIsAsked(FAILS_AGAIN);
  }

  lemma SkipsTheCore()
    ensures TxVolume in RETRY && RETRY != {} && RETRY * CORE_INPUTS == {}
  {
    assert TxVolume in RETRY;
  }

  /**
   Without that, it can be left set over traffic rows that failed: the next sweep
   retries from the stale record, and its traffic populator fails.
   */
  lemma StaleRecordSpoilsTheCoreMark()
    ensures var d, t := HALF_FAILED, Truth(ALL - RETRY, true);
            var e, e' := Sweep(BREAKS_OFF, true), Sweep(FAILS_AGAIN, true);
            && Honest(d, t) && CoreHonest(d, t) && InStep(d) && Possible(d, e) && Possible(Step(d, e), e')
            && !CoreHonest(Step(Step(d, e), e'), TruthStep(Step(d, e), TruthStep(d, t, e), e'))
  {
    assert TxVolume in RETRY;
    var t := Truth(ALL - RETRY, true);
    BreaksOff(t);
    FailsAgain(After(HALF_FAILED, BREAKS_OFF), TruthAfter(t, BREAKS_OFF));
  }

  const ONE_FAILED: Day := Day(Some(Marks(false, false)), Some(Row(Some(true), {ActiveSafes})))

  /** A full run in which another populator fails, killed before it can say so. */
  const UNHEARD: Run := Run(None, ALL - {SafeAppTxs}, true, BeforeMarks)

  const RETRIED: Run := Run(Some({ActiveSafes}), {ActiveSafes}, true, Survives)

  const AFTER_UNHEARD: Day := Day(Some(Marks(false, false)), Some(Row(Some(false), {ActiveSafes})))

  lemma GoesUnheard(t: Truth)
    requires t.good <= ALL
    ensures After(ONE_FAILED, UNHEARD) == AFTER_UNHEARD
    ensures TruthAfter(t, UNHEARD).good == UNHEARD.ok
  {
    ExecutesWhatIsAsked(UNHEARD);
  }

  lemma RetriedOverIt(t: Truth)
    requires t.good == UNHEARD.ok
    ensures After(AFTER_UNHEARD, RETRIED).metric == Some(Marks(true, true))
    ensures SafeAppTxs !in TruthAfter(t, RETRIED).good
  {
    assert ActiveSafes in {ActiveSafes} * CORE_INPUTS;
    assert RunsCore(RETRIED.only) && Accepted(AFTER_UNHEARD, RETRIED.only);
    ExecutesWhatIsAsked(RETRIED);
    assert EffectiveFailed(AFTER_UNHEARD, RETRIED) == {};
    assert Worked(AFTER_UNHEARD, RETRIED) == AFTER_UNHEARD;
  }

  /**
   Why the sweeper retries part of a day only over a recorded core: the same retry
   after a killed run would complete a day whose other failure was never recorded.
   */
  lemma UntrustedRetryCompletesWrongly()
    ensures var d, t := ONE_FAILED, Truth(ALL - {ActiveSafes}, true);
            var d', t' := After(d, UNHEARD), TruthAfter(t, UNHEARD);
            && Honest(d, t) && Honest(d', t')
            && Accepted(d', RETRIED.only) && RETRIED.only.value <= d'.row.value.failed && !Trusted(d', RETRIED.only)
            && After(d', RETRIED).metric == Some(Marks(true, true))
            && SafeAppTxs !in TruthAfter(t', RETRIED).good
  {
    var t := Truth(ALL - {ActiveSafes}, true);
    GoesUnheard(t);
    RetriedOverIt(TruthAfter(t, UNHEARD));
  }

  function AfterAll(d: Day, rs: seq<Run>): Day {
    if rs == [] then d else After(AfterAll(d, rs[..|rs| - 1]), rs[|rs| - 1])
  }

  predicate CoreUnknown(d: Day) { d.row.None? || d.row.value.coreOk != Some(true) }

  lemma {:induction false} CoreSkippingRetriesSetNoMark(d: Day, rs: seq<Run>)
    requires CoreUnknown(d) && forall i :: 0 <= i < |rs| ==> !RunsCore(rs[i].only)
    ensures CoreUnknown(AfterAll(d, rs)) && AfterAll(d, rs).metric == d.metric
  {
    if rs != [] { CoreSkippingRetriesSetNoMark(d, rs[..|rs| - 1]); }
  }

  ghost predicate AllSkipTheCore(rs: seq<Run>) { forall i :: 0 <= i < |rs| ==> !RunsCore(rs[i].only) }

  /** A retry of the traffic alone, which succeeds. */
  const TRAFFIC: Run := Run(Some({TxVolume}), {TxVolume}, true, Survives)

  lemma TrafficRetrySetsTheMark(d: Day)
    requires d.metric == Some(Marks(false, false)) && d.row.Some? && d.row.value.coreOk == Some(true)
    ensures !RunsCore(TRAFFIC.only) && AfterAll(d, [TRAFFIC]) == After(d, TRAFFIC)
    ensures After(d, TRAFFIC).metric.value.coreCompleted
  {
    assert TxVolume in {TxVolume} && {TxVolume} * CORE_INPUTS == {};
    assert TxVolume !in EffectiveFailed(d, TRAFFIC);
    assert [TRAFFIC][..0] == [] && AfterAll(d, [TRAFFIC][..0]) == d;
  }

  /**
   A killed run of the core leaves both marks clear, and no number of retries that skip
   the core sets either, except in exactly one case: the process died between clearing
   the marks and resetting `core_ok`, so that the record of a good core still stands.
   Nothing had been executed by then, so the mark such a retry sets is true of the
   tables: `RunKeepsHonest` asks for no more.
   */
  lemma KilledCoreNeedsTheCore(d: Day, killed: Run)
    requires Accepted(d, killed.only) && RunsCore(killed.only)
    requires DiesInside(killed) || killed.death.BeforeMarks?
    ensures After(d, killed).metric.Some? ==> After(d, killed).metric.value == Marks(false, false)
    ensures (forall rs :: AllSkipTheCore(rs) ==> AfterAll(After(d, killed), rs).metric == After(d, killed).metric) <==>
              !(killed.death.BeforeReset? && d.metric.Some? && d.row.Some? && d.row.value.coreOk == Some(true))
  {
    var dead := After(d, killed);
    if killed.death.BeforeReset? && d.metric.Some? && d.row.Some? && d.row.value.coreOk == Some(true) {
      TrafficRetrySetsTheMark(dead);
      assert AllSkipTheCore([TRAFFIC]);
    } else if CoreUnknown(dead) {
      forall rs | AllSkipTheCore(rs)
        ensures AfterAll(dead, rs).metric == dead.metric
      {
        CoreSkippingRetriesSetNoMark(dead, rs);
      }
    } else {
      forall rs | AllSkipTheCore(rs)
        ensures AfterAll(dead, rs).metric == dead.metric
      {
        UnwrittenDayRefusesRetries(dead, rs);
      }
    }
  }

  lemma {:induction false} UnwrittenDayRefusesRetries(d: Day, rs: seq<Run>)
    requires d.metric.None? && AllSkipTheCore(rs)
    ensures AfterAll(d, rs) == d
  {
    if rs != [] { UnwrittenDayRefusesRetries(d, rs[..|rs| - 1]); }
  }

  /** Core and traffic are good, one other populator failed; then a nightly run dies between its first two commits. */
  const HALF_DONE: Day := Day(Some(Marks(true, false)), Some(Row(Some(true), {TokenVolume})))
  const UNRESET: Run := Run(None, ALL, true, BeforeReset)
  const LAST_RETRY: Run := Run(Some({TokenVolume}), {TokenVolume}, true, Survives)

  /** The next sweep retries the one failure, without the core, and both marks come back: rightly so. */
  lemma UnresetCoreIsRetriedWithout()
    ensures var t := Truth(ALL - {TokenVolume}, true);
            var e, e' := Full(UNRESET), Sweep(LAST_RETRY, true);
            var d := Step(HALF_DONE, e);
            && Honest(HALF_DONE, t) && CoreHonest(HALF_DONE, t) && InStep(HALF_DONE)
            && Possible(HALF_DONE, e) && Possible(d, e')
            && d.metric == Some(Marks(false, false)) && !RunsCore(LAST_RETRY.only)
            && After(d, LAST_RETRY).metric == Some(Marks(true, true))
            && Honest(After(d, LAST_RETRY), TruthAfter(TruthAfter(t, UNRESET), LAST_RETRY))
  {
    var t := Truth(ALL - {TokenVolume}, true);
    var d := HALF_DONE.(metric := Some(Marks(false, false)));
    assert After(HALF_DONE, UNRESET) == d;
    assert TokenVolume in {TokenVolume} && {TokenVolume} * CORE_INPUTS == {};
    assert EffectiveFailed(d, LAST_RETRY) == {};
    UnresetCoreLeavesTheTables(t);
    RunKeepsHonest(d, t, LAST_RETRY);
  }

  lemma UnresetCoreLeavesTheTables(t: Truth)
    ensures TruthAfter(t, UNRESET) == t
  {
    ExecutesWhatIsAsked(UNRESET);
  }

  // ---------------------------------------------------------------- the carried failures

  /** One recorded run: what it executed and what failed in it. */
  datatype Entry = Entry(executed: set<Populator>, failed: set<Populator>)

  /** What may happen to a day: any run at all, and the catch-up row coming and going. */
  datatype Happening = Ran(run: Run) | RowAppears | RowGoes

  function Happens(d: Day, x: Happening): Day {
    match x
    case Ran(run) => After(d, run)
    case RowAppears => Seen(d)
    case RowGoes => d.(row := None)
  }

  function DayAfter(d: Day, xs: seq<Happening>): Day {
    if xs == [] then d else Happens(DayAfter(d, xs[..|xs| - 1]), xs[|xs| - 1])
  }

  /** The runs recorded in the row that is there now. */
  function Log(d: Day, xs: seq<Happening>): seq<Entry> {
    if xs == [] then []
    else
      var before, last := xs[..|xs| - 1], xs[|xs| - 1];
      var here := DayAfter(d, before);
      match last
      case RowGoes => []
      case RowAppears => if here.row.None? then [] else Log(d, before)
      case Ran(run) =>
        if here.row.Some? && Report(here, run).Finished? then Log(d, before) + [EntryOf(run)] else Log(d, before)
  }

  function EntryOf(r: Run): Entry { Entry(Asked(r.only), Asked(r.only) - r.ok) }

  ghost predicate FailedLast(log: seq<Entry>, p: Populator) {
    exists i :: 0 <= i < |log| && p in log[i].failed && forall j :: i < j < |log| ==> p !in log[j].executed
  }

  lemma FailedLastGrows(log: seq<Entry>, e: Entry, p: Populator)
    requires e.failed <= e.executed
    ensures FailedLast(log + [e], p) <==> p in e.failed || (p !in e.executed && FailedLast(log, p))
  {
    var grown := log + [e];
    assert grown[|log|] == e && forall i :: 0 <= i < |log| ==> grown[i] == log[i];
    if p in e.failed {
      assert FailedLast(grown, p);
    } else if p !in e.executed && FailedLast(log, p) {
      var i :| 0 <= i < |log| && p in log[i].failed && forall j :: i < j < |log| ==> p !in log[j].executed;
      assert p in grown[i].failed;
    }
  }

  /**
   The recorded failures are exactly the populators whose latest execution recorded in
   the row failed, over full runs, retries of any subset, runs killed anywhere, and
   rows that are created, pruned and created again.
   */
  lemma {:induction false} RecordedFailuresAreTheLatest(d: Day, xs: seq<Happening>)
    requires d.row.Some? ==> d.row.value.failed == {}
    ensures var now := DayAfter(d, xs);
            now.row.Some? ==> forall p :: p in now.row.value.failed <==> FailedLast(Log(d, xs), p)
  {
    if xs != [] {
      var before, last := xs[..|xs| - 1], xs[|xs| - 1];
      RecordedFailuresAreTheLatest(d, before);
      var here := DayAfter(d, before);
      if last.Ran? && here.row.Some? && Report(here, last.run).Finished? {
        FailuresOfRun(here, Log(d, before), last.run);
      }
    }
  }

  lemma FailuresOfRun(d: Day, log: seq<Entry>, r: Run)
    requires d.row.Some? && forall p :: p in d.row.value.failed <==> FailedLast(log, p)
    ensures forall p :: p in EffectiveFailed(d, r) <==> FailedLast(log + [EntryOf(r)], p)
  {
    EveryPopulatorIsListed();
    forall p
      ensures p in EffectiveFailed(d, r) <==> FailedLast(log + [EntryOf(r)], p)
    {
      FailedLastGrows(log, EntryOf(r), p);
    }
  }

  /**
   And what a finished run returns: with a row, the populators whose latest recorded
   execution, this one included, failed; without one, only what failed in this call,
   and for a retry that skips the core a core that does not count as good.
   */
  lemma ReportedFailuresAreTheLatest(d: Day, xs: seq<Happening>, r: Run)
    requires d.row.Some? ==> d.row.value.failed == {}
    requires Report(DayAfter(d, xs), r).Finished?
    ensures var now, report := DayAfter(d, xs), Report(DayAfter(d, xs), r);
            && (now.row.Some? ==> forall p :: p in report.failed <==> FailedLast(Log(d, xs) + [EntryOf(r)], p))
            && (now.row.None? ==> report.failed == EntryOf(r).failed && (!RunsCore(r.only) ==> !report.coreOk))
  {
    var now := DayAfter(d, xs);
    RecordedFailuresAreTheLatest(d, xs);
    if now.row.Some? { FailuresOfRun(now, Log(d, xs), r); }
  }
}
