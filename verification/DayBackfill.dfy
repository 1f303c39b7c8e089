/**
 The chunked day-range backfill: a manifest of consecutive chunks, one chunk in
 flight, each chunk's completion callback recording it and dispatching the next.
 */
module DayBackfill {
  import opened Options
  import opened Ordering

  type Date = nat

  type RunId = nat

  const MAX_FAILURES: nat := 200
  const MAX_CHUNK_FAILURES: nat := 50

  datatype Phase = Pending | Running | Done | DispatchFailed

  datatype Chunk = Chunk(days: seq<Date>, phase: Phase, total: nat, written: nat, failed: nat)

  datatype Failure = Failure(date: Option<Date>)

  datatype Manifest = Manifest(
    chunks: seq<Chunk>, total: nat, written: nat, failed: nat, failures: seq<Failure>,
    superseded: bool, finished: bool)

  // ------------------------------------------------------------------- the plan

  function AllDays(chunks: seq<Chunk>): seq<Date> {
    if chunks == [] then [] else AllDays(chunks[..|chunks| - 1]) + chunks[|chunks| - 1].days
  }

  function Fresh(days: seq<Date>): Chunk { Chunk(days, Pending, 0, 0, 0) }

  /** `None` is the ValueError raised for an empty range. */
  method Build(days: seq<Date>, chunkDays: int) returns (r: Option<Manifest>)
    ensures r.None? <==> days == []
    ensures r.Some? ==>
              var size := if chunkDays > 0 then chunkDays else |days|;
              var m := r.value;
              && AllDays(m.chunks) == days
              && (forall i :: 0 <= i < |m.chunks| ==> m.chunks[i] == Fresh(m.chunks[i].days))
              && (forall i :: 0 <= i < |m.chunks| - 1 ==> |m.chunks[i].days| == size)
              && 0 < |m.chunks[|m.chunks| - 1].days| <= size
              && m == Manifest(m.chunks, 0, 0, 0, [], false, false) && m.chunks != []
    ensures r.Some? && chunkDays <= 0 ==> |r.value.chunks| == 1
  {
    if days == [] { return None; }
    var size := if chunkDays > 0 then chunkDays else |days|;
    var chunks: seq<Chunk> := [];
    var offset := 0;
    while offset < |days|
      invariant offset <= |days| && (offset > 0 <==> chunks != [])
      invariant AllDays(chunks) == days[..offset]
      invariant forall i :: 0 <= i < |chunks| ==> chunks[i] == Fresh(chunks[i].days)
      invariant forall i :: 0 <= i < |chunks| ==>
                  |chunks[i].days| == size || (i == |chunks| - 1 && offset == |days|)
      invariant chunks != [] ==> 0 < |chunks[|chunks| - 1].days| <= size
      invariant size == |days| && chunks != [] ==> offset == |days| && |chunks| == 1
    {
      var next := Min(offset + size, |days|);
      var chunk := Fresh(days[offset..next]);
      assert (chunks + [chunk])[..|chunks|] == chunks;
      assert days[..next] == days[..offset] + days[offset..next];
      chunks := chunks + [chunk];
      offset := next;
    }
    assert days[..offset] == days;
    r := Some(Manifest(chunks, 0, 0, 0, [], false, false));
  }

  // -------------------------------------------------------------- one chunk's result

  /** What a day's shard returned. */
  datatype Shard = Shard(date: Date, ok: bool)

  datatype Summary = Summary(total: nat, written: nat, failed: nat, failures: seq<Failure>)

  function OkCount(results: seq<Option<Shard>>): nat {
    if results == [] then 0
    else OkCount(results[..|results| - 1]) +
         (var last := results[|results| - 1]; if last.Some? && last.value.ok then 1 else 0)
  }

  /** Failed days in order; the day of a lost shard is recovered from its position. */
  function Failures(results: seq<Option<Shard>>, days: Option<seq<Date>>): seq<Failure> {
    if results == [] then []
    else
      var n := |results| - 1;
      var last := results[n];
      Failures(results[..n], days) +
      (if last.Some? && last.value.ok then []
       else if last.Some? then [Failure(Some(last.value.date))]
       else [Failure(if days.Some? && n < |days.value| then Some(days.value[n]) else None)])
  }

  /** The positions of the failed days, each once, in order. */
  ghost predicate FailedAt(results: seq<Option<Shard>>, at: seq<nat>) {
    && (forall i, j :: 0 <= i < j < |at| ==> at[i] < at[j])
    && (forall p: nat :: p in at <==> p < |results| && !(results[p].Some? && results[p].value.ok))
  }

  /** Entry by entry: the date a failed shard reported, or for a lost one the day at its position. */
  ghost predicate DatedFrom(results: seq<Option<Shard>>, days: Option<seq<Date>>, at: seq<nat>,
                            failures: seq<Failure>)
  {
    && |failures| <= |at|
    && forall j :: 0 <= j < |failures| && at[j] < |results| ==>
         failures[j].date ==
           match results[at[j]]
           case Some(shard) => Some(shard.date)
           case None => if days.Some? && at[j] < |days.value| then Some(days.value[at[j]]) else None
  }

  /** The positions of the days that were written. */
  function WrittenAt(results: seq<Option<Shard>>): set<nat> {
    set p: nat | p < |results| && results[p].Some? && results[p].value.ok
  }

  lemma {:induction false} OkCountIsWritten(results: seq<Option<Shard>>)
    ensures OkCount(results) == |WrittenAt(results)|
  {
    if results != [] {
      var n := |results| - 1;
      OkCountIsWritten(results[..n]);
      var before := WrittenAt(results[..n]);
      assert n !in before;
      assert WrittenAt(results) == if results[n].Some? && results[n].value.ok then before + {n} else before;
    } else {
      assert WrittenAt(results) == {};
    }
  }

  /** One more result. */
  lemma FailedAtGrows(results: seq<Option<Shard>>, last: Option<Shard>, at: seq<nat>)
    requires FailedAt(results, at)
    ensures FailedAt(results + [last], if last.Some? && last.value.ok then at else at + [|results|])
  {
    var all := results + [last];
    assert all[|results|] == last && forall p :: 0 <= p < |results| ==> all[p] == results[p];
    if last.Some? && last.value.ok {
      assert FailedAt(all, at);
    } else {
      OneMoreFailed(results, all, at);
    }
  }

  lemma OneMoreFailed(results: seq<Option<Shard>>, all: seq<Option<Shard>>, at: seq<nat>)
    requires FailedAt(results, at) && |all| == |results| + 1
    requires forall p :: 0 <= p < |results| ==> all[p] == results[p]
    requires !(all[|results|].Some? && all[|results|].value.ok)
    ensures FailedAt(all, at + [|results|])
  {
    var grown := at + [|results|];
    forall i | 0 <= i < |at|
      ensures at[i] < |results|
    {
      assert at[i] in at;
    }
    forall p: nat
      ensures p in grown <==> p in at || p == |results|
    {
    }
  }

  lemma DatedFromGrows(results: seq<Option<Shard>>, last: Option<Shard>, days: Option<seq<Date>>, at: seq<nat>,
                       failures: seq<Failure>)
    requires FailedAt(results, at) && DatedFrom(results, days, at, failures) && |failures| == |at|
    ensures DatedFrom(results + [last], days, at, failures)
    ensures var day := if days.Some? && |results| < |days.value| then Some(days.value[|results|]) else None;
            var date := match last case Some(shard) => Some(shard.date) case None => day;
            DatedFrom(results + [last], days, at + [|results|], failures + [Failure(date)])
  {
    assert forall i :: 0 <= i < |at| ==> at[i] in at;
  }

  /** Each failed day is listed once, in order and under its date. */
  lemma {:induction false} FailuresAreTheFailedDays(results: seq<Option<Shard>>, days: Option<seq<Date>>)
    returns (at: seq<nat>)
    ensures FailedAt(results, at) && |Failures(results, days)| == |at|
    ensures DatedFrom(results, days, at, Failures(results, days))
    decreases |results|
  {
    if results == [] { return []; }
    var n := |results| - 1;
    var before, last := results[..n], results[n];
    assert results == before + [last];
    at := FailuresAreTheFailedDays(before, days);
    FailedAtGrows(before, last, at);
    DatedFromGrows(before, last, days, at, Failures(before, days));
    if !(last.Some? && last.value.ok) {
      at := at + [n];
    }
  }

  method Summarise(results: seq<Option<Shard>>, days: Option<seq<Date>>) returns (s: Summary)
    ensures s.total == |results| == s.written + s.failed
    ensures s.written == OkCount(results)
    ensures s.failures == Failures(results, days)[..Min(MAX_CHUNK_FAILURES, |Failures(results, days)|)]
    ensures |Failures(results, days)| == s.failed
    ensures s.written == |WrittenAt(results)|
    ensures exists at :: FailedAt(results, at) && DatedFrom(results, days, at, s.failures)
                         && s.failed == |at| && |s.failures| == Min(MAX_CHUNK_FAILURES, |at|)
  {
    var written := 0;
    var failures: seq<Failure> := [];
    var position := 0;
    while position < |results|
      invariant position <= |results|
      invariant written == OkCount(results[..position]) && failures == Failures(results[..position], days)
      invariant written + |failures| == position
    {
      var result := results[position];
      assert results[..position + 1][..position] == results[..position];
      if result.Some? && result.value.ok {
        written := written + 1;
      } else if result.Some? {
        failures := failures + [Failure(Some(result.value.date))];
      } else {
        failures := failures +
          [Failure(if days.Some? && position < |days.value| then Some(days.value[position]) else None)];
      }
      position := position + 1;
    }
    assert results[..position] == results;
    OkCountIsWritten(results);
    ghost var at := FailuresAreTheFailedDays(results, days);
    s := Summary(|results|, written, |results| - written, failures[..Min(MAX_CHUNK_FAILURES, |failures|)]);
  }

  // ------------------------------------------------------------- recording a chunk

  /** Sum of one counter over the finished chunks. */
  function DoneSum(chunks: seq<Chunk>, counter: Chunk -> nat): nat {
    if chunks == [] then 0
    else DoneSum(chunks[..|chunks| - 1], counter) +
         (var last := chunks[|chunks| - 1]; if last.phase.Done? then counter(last) else 0)
  }

  const TOTAL: Chunk -> nat := (c: Chunk) => c.total
  const WRITTEN_OF: Chunk -> nat := (c: Chunk) => c.written
  const FAILED_OF: Chunk -> nat := (c: Chunk) => c.failed

  function Recorded(m: Manifest, index: nat, s: Summary): Manifest
    requires index < |m.chunks|
  {
    var chunk := m.chunks[index].(phase := Done, total := s.total, written := s.written, failed := s.failed);
    var chunks := m.chunks[index := chunk];
    var kept := m.failures[..Min(MAX_FAILURES, |m.failures|)];
    var room: nat := MAX_FAILURES - |kept|;
    m.(chunks := chunks,
       total := DoneSum(chunks, TOTAL), written := DoneSum(chunks, WRITTEN_OF), failed := DoneSum(chunks, FAILED_OF),
       failures := kept + s.failures[..Min(room, |s.failures|)])
  }

  function WithPhase(m: Manifest, index: nat, phase: Phase): Manifest
    requires index < |m.chunks|
  {
    m.(chunks := m.chunks[index := m.chunks[index].(phase := phase)])
  }

  // ---------------------------------------------------------------- the chain of chunks

  /** How a dispatch ends: accepted, refused, or refused to the caller but sent all the same. */
  datatype Dispatch = Sent | Refused | SentButRaised

  /** A callback that has read the manifest and not written it back yet. */
  datatype Callback = Callback(index: nat, copy: Option<Manifest>)

  /**
   Any other write still to come. `Marking` is a supersession that has read the
   manifest; `Failing` is the handler of a dispatch that raised, which reads the
   manifest again, or falls back on its own, before it writes. `base`, which the
   program does not keep, is how many chunks had finished when it was read.
   */
  datatype Late =
    | Marking(copy: Manifest, base: nat)
    | Failing(index: nat, own: Manifest, reloaded: Option<Manifest>)

  datatype Chain = Chain(
    me: RunId,
    stored: Option<Manifest>,     // the run's key; None once expired
    cursor: Option<RunId>,        // the key naming the latest run
    flight: multiset<nat>,        // chunks whose chord is out
    working: Option<Callback>,
    late: seq<Late>,
    sent: seq<nat>,               // every chunk ever submitted, in order
    finished: seq<Summary>)       // what each callback that found the manifest reported, in order

  datatype Event =
    | Arrive(index: nat)                              // the callback of a chunk in flight reads the manifest
    | Commit(summary: Summary, dispatch: Dispatch)    // it writes it back, and hands off or not
    | SupersedeRead
    | HandlerRead(reader: nat)
    | LateWrite(writer: nat)                          // a supersession or a handler writes
    | Point(run: RunId)                               // another run is started
    | ForgetLatest                                    // that key expires, or comes to name no run
    | Expire

  predicate Disowned(c: Chain) { c.cursor.Some? && c.cursor != Some(c.me) }

  predicate Current(c: Chain, m: Manifest) { !m.superseded && !Disowned(c) }

  /** Save the chunk as running, then submit its chord; an exception leaves its handler to come. */
  function Dispatched(c: Chain, m: Manifest, index: nat, how: Dispatch): Chain
    requires index < |m.chunks|
  {
    var running := WithPhase(m, index, Running);
    c.(stored := Some(running),
       flight := if how.Refused? then c.flight else c.flight + multiset{index},
       sent := if how.Refused? then c.sent else c.sent + [index],
       late := if how.Sent? then c.late else c.late + [Failing(index, running, None)])
  }

  /** The rest of the callback: record, then hand off, refuse to, or close the run. */
  function Committed(c: Chain, m: Manifest, index: nat, s: Summary, how: Dispatch): Chain
    requires index < |m.chunks|
  {
    var done := Recorded(m, index, s);
    var counted := c.(finished := c.finished + [s]);
    if index + 1 >= |done.chunks| || !Current(c, done) then counted.(stored := Some(done.(finished := true)))
    else Dispatched(counted, done, index + 1, how)
  }

  predicate Ready(w: Late) { w.Failing? ==> w.reloaded.Some? && w.index < |w.reloaded.value.chunks| }

  /** What a late writer writes, over whatever is stored by then. */
  function Written(w: Late): Manifest
    requires Ready(w)
  {
    match w
    case Marking(copy, _) => copy.(superseded := true, finished := true)
    case Failing(index, _, reloaded) => WithPhase(reloaded.value, index, DispatchFailed).(finished := true)
  }

  function Without(ws: seq<Late>, i: nat): seq<Late>
    requires i < |ws|
  {
    ws[..i] + ws[i + 1..]
  }

  /** The handler's reload: what is stored, or its own copy when that has expired. */
  function Reload(c: Chain, own: Manifest): Manifest { if c.stored.Some? then c.stored.value else own }

  predicate Possible(c: Chain, e: Event) {
    match e
    case Arrive(index) => index in c.flight && c.working.None?
    case Commit(s, _) => c.working.Some? && s.total == s.written + s.failed && Reports(c.working.value, s)
    case SupersedeRead => true
    case HandlerRead(i) => i < |c.late| && c.late[i].Failing? && c.late[i].reloaded.None?
    case LateWrite(i) => i < |c.late| && Ready(c.late[i])
    case Point(run) => run != c.me
    case ForgetLatest => true
    case Expire => true
  }

  /** A chord hands its callback one result per day of the chunk. */
  predicate Reports(callback: Callback, s: Summary) {
    callback.copy.Some? ==>
      && callback.index < |callback.copy.value.chunks|
      && s.total == |callback.copy.value.chunks[callback.index].days|
  }

  function Step(c: Chain, e: Event): Chain
    requires Possible(c, e)
  {
    match e
    case Arrive(index) => c.(flight := c.flight - multiset{index}, working := Some(Callback(index, c.stored)))
    case Commit(s, how) =>
      var resting := c.(working := None);
      var callback := c.working.value;
      if callback.copy.None? then resting else Committed(resting, callback.copy.value, callback.index, s, how)
    case SupersedeRead =>
      if c.stored.None? then c else c.(late := c.late + [Marking(c.stored.value, |c.finished|)])
    case HandlerRead(i) => c.(late := c.late[i := c.late[i].(reloaded := Some(Reload(c, c.late[i].own)))])
    case LateWrite(i) => c.(stored := Some(Written(c.late[i])), late := Without(c.late, i))
    case Point(run) => c.(cursor := Some(run))
    case ForgetLatest => c.(cursor := None)
    case Expire => c.(stored := None)
  }

  /** A new run: its manifest, the latest-run key and the first chord. An exception here reaches the caller. */
  function Started(me: RunId, m: Manifest, how: Dispatch): Chain
    requires m.chunks != []
  {
    Chain(me, Some(WithPhase(m, 0, Running)), Some(me),
          if how.Refused? then multiset{} else multiset{0}, None, [], if how.Refused? then [] else [0], [])
  }

  // ---------------------------------------------------------------------- the code itself

  /**
   The keys of a run. A process's own copy of the manifest is a value its methods
   pass on; the ghost fields follow the broker and who is between a read and a write.
   */
  class Store {
    const me: RunId
    var stored: Option<Manifest>
    var cursor: Option<RunId>
    ghost var flight: multiset<nat>
    ghost var working: Option<Callback>
    ghost var late: seq<Late>
    ghost var sent: seq<nat>
    ghost var finished: seq<Summary>

    constructor (me: RunId)
      ensures this.me == me && Value() == Chain(me, None, None, multiset{}, None, [], [], [])
    {
      this.me := me;
      stored, cursor := None, None;
      flight, working, late, sent, finished := multiset{}, None, [], [], [];
    }

    ghost function Value(): Chain
      reads this
    {
      Chain(me, stored, cursor, flight, working, late, sent, finished)
    }

    /** The load that superseding begins with; nothing follows when the manifest is gone. */
    method ReadToSupersede() returns (copy: Option<Manifest>)
      modifies this`late
      ensures copy == stored && Value() == Step(old(Value()), SupersedeRead)
    {
      copy := stored;
      if copy.Some? { late := late + [Marking(copy.value, |finished|)]; }
    }

    /** The save that it ends with. */
    method WriteSuperseded(copy: Manifest, ghost i: nat)
      requires i < |late| && late[i].Marking? && late[i].copy == copy
      modifies this
      ensures Value() == Step(old(Value()), LateWrite(i))
    {
      var run := copy.(superseded := true);
      if !run.finished { run := run.(finished := true); }
      stored := Some(run);
      late := Without(late, i);
    }

    /** Marked running and saved before the broker is called; `raised` says the call failed. */
    method DispatchChunk(run: Manifest, index: nat, how: Dispatch) returns (running: Manifest, raised: bool)
      requires index < |run.chunks|
      modifies this
      ensures running == WithPhase(run, index, Running) && stored == Some(running) && raised == !how.Sent?
      ensures cursor == old(cursor) && working == old(working) && late == old(late) && finished == old(finished)
      ensures flight == (if how.Refused? then old(flight) else old(flight) + multiset{index})
      ensures sent == (if how.Refused? then old(sent) else old(sent) + [index])
    {
      running := WithPhase(run, index, Running);
      stored := Some(running);
      if !how.Refused? { flight, sent := flight + multiset{index}, sent + [index]; }
      raised := !how.Sent?;
    }

    method Begin(m: Manifest, how: Dispatch) returns (raised: bool)
      requires m.chunks != [] && Value() == Chain(me, None, cursor, multiset{}, None, [], [], [])
      modifies this
      ensures Value() == Started(me, m, how)
    {
      stored, cursor := Some(m), Some(me);
      var running;
      running, raised := DispatchChunk(m, 0, how);
    }

    method CallbackArrives(index: nat) returns (copy: Option<Manifest>)
      requires Possible(Value(), Arrive(index))
      modifies this
      ensures copy == stored && Value() == Step(old(Value()), Arrive(index))
    {
      copy := stored;
      flight := flight - multiset{index};
      working := Some(Callback(index, copy));
    }

    /** The rest of the callback, over the copy it read. `own` is what a failed dispatch leaves its handler. */
    method Advance(index: nat, copy: Option<Manifest>, s: Summary, how: Dispatch) returns (own: Option<Manifest>)
      requires working == Some(Callback(index, copy)) && Possible(Value(), Commit(s, how))
      modifies this
      ensures Value() == Step(old(Value()), Commit(s, how))
    {
      working, own := None, None;
      if copy.None? { return; }
      var run := Recorded(copy.value, index, s);
      finished := finished + [s];
      var next := index + 1;
      if next >= |run.chunks| || run.superseded || (cursor.Some? && cursor != Some(me)) {
        stored := Some(run.(finished := true));
        return;
      }
      var running, raised := DispatchChunk(run, next, how);
      if raised {
        own := Some(running);
        late := late + [Failing(next, running, None)];
      }
    }

    /** The handler of a dispatch that raised: load again, so as not to bring back what is old. */
    method ReloadAfterFailure(own: Manifest, ghost i: nat) returns (run: Manifest)
      requires Possible(Value(), HandlerRead(i)) && late[i].own == own
      modifies this`late
      ensures Value() == Step(old(Value()), HandlerRead(i)) && late[i].reloaded == Some(run)
    {
      run := if stored.Some? then stored.value else own;
      late := late[i := late[i].(reloaded := Some(run))];
    }

    method WriteDispatchFailed(run: Manifest, index: nat, ghost i: nat)
      requires i < |late| && late[i].Failing? && late[i].index == index && late[i].reloaded == Some(run)
      requires index < |run.chunks|
      modifies this
      ensures Value() == Step(old(Value()), LateWrite(i))
    {
      stored := Some(WithPhase(run, index, DispatchFailed).(finished := true));
      late := Without(late, i);
    }
  }
}
