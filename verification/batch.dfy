/** The progress record of one ingestion batch in app/main.py (`ingest_document` and its
    inner `process_document`). Each document is ingested inside a slot of a semaphore of
    10: entering the slot and leaving it are atomic updates of the batch's record, and an
    interleaving of the concurrent documents is a sequence of such events. */
module Batch {
  import opened Wrappers

  /** `Semaphore(10)`. */
  const SlotLimit := 10
  /** A progress line is logged when the processed count is a multiple of this. */
  const LogEvery := 10

  datatype Status = InProgress | Completed | Failed

  /** `ingestion_progress[batch_id]`; `error` is absent until the batch fails. */
  datatype Progress = Progress(total: nat, processed: nat, currentTasks: int, percent: real,
                               status: Status, error: Option<string>)

  /** The record a new batch starts with. */
  function Initial(total: nat): Progress
  {
    Progress(total, 0, 0, 0.0, InProgress, None)
  }

  /** `current_processed / total_documents * 100`. */
  function Percent(processed: nat, total: nat): real
    requires total > 0
  {
    (processed as real / total as real) * 100.0
  }

  /** Entering a slot. */
  function Entered(p: Progress): Progress
  {
    p.(currentTasks := p.currentTasks + 1)
  }

  /** Leaving a slot, whether the document's ingestion succeeded or raised. */
  function Left(p: Progress): Progress
    requires p.total > 0
  {
    p.(processed := p.processed + 1, currentTasks := p.currentTasks - 1,
       percent := Percent(p.processed + 1, p.total))
  }

  /** The end of a batch in which nothing raised. */
  function MarkedCompleted(p: Progress): Progress
  {
    p.(status := Completed, percent := 100.0)
  }

  /** The `except` branch: the batch failed with `message`. */
  function MarkedFailed(p: Progress, message: string): Progress
  {
    p.(status := Failed, error := Some(message))
  }

  /** Document `doc` (its position in the request) enters or leaves its slot. */
  datatype Event = Enter(doc: nat) | Leave(doc: nat)

  /** Which documents hold a slot and which have left theirs. */
  datatype Slots = Slots(running: set<nat>, done: set<nat>)

  /** The slots once `e` has happened. */
  function Occurred(s: Slots, e: Event): Slots
  {
    match e
    case Enter(i) => s.(running := s.running + {i})
    case Leave(i) => Slots(s.running - {i}, s.done + {i})
  }

  function SlotsAfter(events: seq<Event>): Slots
  {
    if |events| == 0 then Slots({}, {})
    else Occurred(SlotsAfter(events[..|events| - 1]), events[|events| - 1])
  }

  /** The semaphore admits a document that has not run yet while fewer than 10 hold a slot;
      a document leaves only the slot it holds. */
  predicate CanOccur(total: nat, s: Slots, e: Event)
  {
    match e
    case Enter(i) => i < total && i !in s.running && i !in s.done && |s.running| < SlotLimit
    case Leave(i) => i in s.running
  }

  /** Every event names a document of the batch. */
  predicate Names(total: nat, events: seq<Event>)
  {
    forall k :: 0 <= k < |events| ==> events[k].doc < total
  }

  /** Each event in turn is one the semaphore lets happen. */
  predicate Gated(total: nat, events: seq<Event>)
  {
    |events| == 0
    || (Gated(total, events[..|events| - 1])
        && CanOccur(total, SlotsAfter(events[..|events| - 1]), events[|events| - 1]))
  }

  /** An interleaving the semaphore allows. */
  predicate Admissible(total: nat, events: seq<Event>)
  {
    Names(total, events) && Gated(total, events)
  }

  /** The set {0, ..., n - 1}. */
  function Range(n: nat): (r: set<nat>)
    ensures forall i: nat :: i in r <==> i < n
  {
    if n == 0 then {} else Range(n - 1) + {n - 1}
  }

  /** Every document has entered and left its slot: `gather` has returned. */
  predicate Complete(total: nat, events: seq<Event>)
  {
    SlotsAfter(events) == Slots({}, Range(total))
  }

  /** The record after `events`, given the outcome of `ingestor.ingest([doc])` for each
      document; the first raise reaches the `except` branch right after its slot is left. */
  function Replay(total: nat, results: seq<Outcome>, events: seq<Event>): (p: Progress)
    requires |results| == total && Names(total, events)
    ensures p.total == total
  {
    if |events| == 0 then Initial(total)
    else
      var before := Replay(total, results, events[..|events| - 1]);
      match events[|events| - 1]
      case Enter(_) => Entered(before)
      case Leave(i) =>
        var after := Left(before);
        if results[i].Failure? && before.status == InProgress
        then MarkedFailed(after, results[i].message)
        else after
  }

  /** The message of the first document, in the order slots are left, whose ingestion raised. */
  function FirstFailure(results: seq<Outcome>, events: seq<Event>): (m: Option<string>)
    requires Names(|results|, events)
    ensures m.Some? ==> exists k :: 0 <= k < |events| && events[k].Leave?
                          && results[events[k].doc] == Failure(m.value)
  {
    if |events| == 0 then None
    else
      var before := FirstFailure(results, events[..|events| - 1]);
      var e := events[|events| - 1];
      if before.Some? then before
      else if e.Leave? && results[e.doc].Failure? then Some(results[e.doc].message)
      else None
  }

  /** The record once `gather` has returned: "completed" at 100 percent unless a document
      raised. */
  function Final(total: nat, results: seq<Outcome>, events: seq<Event>): Progress
    requires |results| == total && Names(total, events)
  {
    var p := Replay(total, results, events);
    if p.status == InProgress then MarkedCompleted(p) else p
  }

  /** The processed counts at which a progress line is logged, in order. */
  function LogPoints(total: nat, results: seq<Outcome>, events: seq<Event>): seq<nat>
    requires |results| == total && Names(total, events)
  {
    if |events| == 0 then []
    else
      LogPoints(total, results, events[..|events| - 1])
      + (var p := Replay(total, results, events);
         if events[|events| - 1].Leave? && p.processed % LogEvery == 0 then [p.processed] else [])
  }

  /** 10, 20, ..., up to n. */
  function Multiples(n: nat): seq<nat>
  {
    seq(n / LogEvery, k requires 0 <= k < n / LogEvery => LogEvery * (k + 1))
  }

  lemma {:induction false} RangeSize(n: nat)
    ensures |Range(n)| == n
  {
    if n > 0 {
      var r := Range(n - 1);
      RangeSize(n - 1);
      assert n - 1 !in r;
      assert Range(n) == r + {n - 1};
    }
  }

  lemma {:induction false} SubsetOfRange(s: set<nat>, n: nat)
    requires s <= Range(n)
    ensures |s| <= n
  {
    if n > 0 {
      SubsetOfRange(s - {n - 1}, n - 1);
    } else {
      assert s == {};
    }
  }

  lemma NamesPrefix(total: nat, events: seq<Event>, n: nat)
    requires n <= |events| && Names(total, events)
    ensures Names(total, events[..n])
  {
  }

  lemma PrefixStep(total: nat, events: seq<Event>, i: nat)
    requires i < |events| && Names(total, events)
    ensures events[..i + 1] == events[..i] + [events[i]]
    ensures Names(total, events[..i]) && Names(total, events[..i + 1])
  {
    NamesPrefix(total, events, i);
    NamesPrefix(total, events, i + 1);
  }

  lemma {:induction false} AdmissiblePrefix(total: nat, events: seq<Event>, n: nat)
    requires n <= |events| && Admissible(total, events)
    ensures Admissible(total, events[..n])
  {
    if n < |events| {
      var m := |events| - 1;
      assert events[..m][..n] == events[..n];
      AdmissiblePrefix(total, events[..m], n);
    } else {
      assert events[..n] == events;
    }
  }

  /** The semaphore's guarantee: a document holds at most one slot at a time, never more
      than 10 hold one, and only documents of the batch run. */
  lemma {:induction false} SlotsInvariant(total: nat, events: seq<Event>)
    requires Admissible(total, events)
    ensures var s := SlotsAfter(events);
            s.running !! s.done && s.running + s.done <= Range(total) && |s.running| <= SlotLimit
  {
    if |events| > 0 {
      var n := |events| - 1;
      AdmissiblePrefix(total, events, n);
      SlotsInvariant(total, events[..n]);
    }
  }

  /** The last event of an admissible interleaving is one the semaphore allows after the
      others, which are admissible themselves. */
  lemma AdmissibleLast(total: nat, events: seq<Event>)
    requires |events| > 0 && Admissible(total, events)
    ensures Admissible(total, events[..|events| - 1])
    ensures CanOccur(total, SlotsAfter(events[..|events| - 1]), events[|events| - 1])
    ensures SlotsAfter(events) == Occurred(SlotsAfter(events[..|events| - 1]), events[|events| - 1])
  {
    AdmissiblePrefix(total, events, |events| - 1);
  }

  /** Entering a slot adds one running task; leaving removes one and adds one processed. */
  lemma ReplayCounts(total: nat, results: seq<Outcome>, events: seq<Event>)
    requires |events| > 0 && |results| == total && Names(total, events)
    ensures Names(total, events[..|events| - 1])
    ensures var p := Replay(total, results, events);
            var q := Replay(total, results, events[..|events| - 1]);
            var e := events[|events| - 1];
            p.currentTasks == q.currentTasks + (if e.Enter? then 1 else -1)
            && p.processed == q.processed + (if e.Leave? then 1 else 0)
  {
    NamesPrefix(total, events, |events| - 1);
  }

  /** Entering adds one running document; leaving moves one from running to done. */
  lemma OccurredCounts(total: nat, s: Slots, e: Event)
    requires s.running !! s.done && CanOccur(total, s, e)
    ensures var t := Occurred(s, e);
            |t.running| == |s.running| + (if e.Enter? then 1 else -1)
            && |t.done| == |s.done| + (if e.Leave? then 1 else 0)
  {
    match e
    case Enter(i) =>
      assert |s.running + {i}| == |s.running| + 1;
    case Leave(i) =>
      assert |s.running - {i}| == |s.running| - 1;
      assert |s.done + {i}| == |s.done| + 1;
  }

  /** `current_tasks` counts the documents holding a slot and `processed` those that left. */
  lemma {:induction false} ReplayMatchesSlots(total: nat, results: seq<Outcome>, events: seq<Event>)
    requires |results| == total && Admissible(total, events)
    ensures var p := Replay(total, results, events);
            var s := SlotsAfter(events);
            p.currentTasks == |s.running| && p.processed == |s.done|
  {
    if |events| > 0 {
      var n := |events| - 1;
      var init := events[..n];
      AdmissibleLast(total, events);
      ReplayMatchesSlots(total, results, init);
      SlotsInvariant(total, init);
      OccurredCounts(total, SlotsAfter(init), events[n]);
      ReplayCounts(total, results, events);
    }
  }

  /** Under the semaphore, `current_tasks` stays within 0..10 and `processed` never exceeds
      `total`. */
  lemma ReplayBounds(total: nat, results: seq<Outcome>, events: seq<Event>)
    requires |results| == total && Admissible(total, events)
    ensures var p := Replay(total, results, events);
            0 <= p.currentTasks <= SlotLimit && p.processed <= total
  {
    ReplayMatchesSlots(total, results, events);
    SlotsInvariant(total, events);
    SubsetOfRange(SlotsAfter(events).done, total);
  }

  /** `percent_complete` is always `processed / total * 100`. */
  lemma {:induction false} ReplayPercent(total: nat, results: seq<Outcome>, events: seq<Event>)
    requires |results| == total && Names(total, events) && total > 0
    ensures var p := Replay(total, results, events);
            p.percent == Percent(p.processed, total)
  {
    if |events| > 0 {
      ReplayPercent(total, results, events[..|events| - 1]);
    }
  }

  /** The status and error record the first raise and nothing else. */
  lemma {:induction false} ReplayFailure(total: nat, results: seq<Outcome>, events: seq<Event>)
    requires |results| == total && Names(total, events)
    ensures var p := Replay(total, results, events);
            var f := FirstFailure(results, events);
            p.status == (if f.Some? then Failed else InProgress) && p.error == f
  {
    if |events| > 0 {
      ReplayFailure(total, results, events[..|events| - 1]);
    }
  }

  lemma PercentMonotone(a: nat, b: nat, total: nat)
    requires a <= b && total > 0
    ensures Percent(a, total) <= Percent(b, total)
  {
    assert a as real / total as real <= b as real / total as real;
  }

  /** 100 percent is reached exactly when every document has been processed. */
  lemma PercentFullIff(processed: nat, total: nat)
    requires total > 0
    ensures Percent(processed, total) == 100.0 <==> processed == total
  {
    if Percent(processed, total) == 100.0 {
      assert processed as real / total as real == 1.0;
      assert processed as real == total as real;
    }
  }

  /** The processed count never decreases along a schedule. */
  lemma {:induction false} ProcessedNonDecreasing(total: nat, results: seq<Outcome>, events: seq<Event>, j: nat)
    requires |results| == total && Names(total, events) && j <= |events|
    ensures Replay(total, results, events[..j]).processed <= Replay(total, results, events).processed
  {
    if j < |events| {
      var n := |events| - 1;
      assert events[..n][..j] == events[..j];
      ProcessedNonDecreasing(total, results, events[..n], j);
    } else {
      assert events[..j] == events;
    }
  }

  /** `percent_complete` never decreases along a schedule. */
  lemma PercentNonDecreasing(total: nat, results: seq<Outcome>, events: seq<Event>, j: nat)
    requires |results| == total && Names(total, events) && j <= |events|
    ensures Replay(total, results, events[..j]).percent <= Replay(total, results, events).percent
  {
    if total == 0 {
      assert |events| == 0 || events[0].doc < 0;
    } else {
      ProcessedNonDecreasing(total, results, events, j);
      ReplayPercent(total, results, events[..j]);
      ReplayPercent(total, results, events);
      PercentMonotone(Replay(total, results, events[..j]).processed,
                      Replay(total, results, events).processed, total);
    }
  }

  lemma MultiplesStep(n: nat)
    ensures Multiples(n + 1) == Multiples(n) + (if (n + 1) % LogEvery == 0 then [n + 1] else [])
  {
    if (n + 1) % LogEvery == 0 {
      assert (n + 1) / LogEvery == n / LogEvery + 1;
    } else {
      assert (n + 1) / LogEvery == n / LogEvery;
    }
  }

  /** A progress line is logged exactly when `processed` reaches a multiple of 10. */
  lemma {:induction false} LogPointsAreMultiples(total: nat, results: seq<Outcome>, events: seq<Event>)
    requires |results| == total && Names(total, events)
    ensures LogPoints(total, results, events) == Multiples(Replay(total, results, events).processed)
  {
    if |events| > 0 {
      var n := |events| - 1;
      LogPointsAreMultiples(total, results, events[..n]);
      var before := Replay(total, results, events[..n]).processed;
      if events[n].Leave? {
        MultiplesStep(before);
      }
    }
  }

  lemma {:induction false} DoneWereLeft(events: seq<Event>, i: nat)
    requires i in SlotsAfter(events).done
    ensures exists k :: 0 <= k < |events| && events[k] == Leave(i)
  {
    var n := |events| - 1;
    if events[n] != Leave(i) {
      DoneWereLeft(events[..n], i);
      var k :| 0 <= k < n && events[..n][k] == Leave(i);
      assert events[k] == Leave(i);
    }
  }

  lemma {:induction false} FailureFound(results: seq<Outcome>, events: seq<Event>, k: nat)
    requires Names(|results|, events) && k < |events|
    requires events[k].Leave? && results[events[k].doc].Failure?
    ensures FirstFailure(results, events).Some?
  {
    var n := |events| - 1;
    if k < n {
      assert events[..n][k] == events[k];
      FailureFound(results, events[..n], k);
    }
  }

  /** After a full run, every document is processed, no slot is held and the percentage is
      100, whatever the outcomes. */
  lemma CompleteRunCounts(total: nat, results: seq<Outcome>, events: seq<Event>)
    requires |results| == total && Admissible(total, events) && Complete(total, events)
    ensures var p := Replay(total, results, events);
            p.processed == total && p.currentTasks == 0 && (total > 0 ==> p.percent == 100.0)
  {
    ReplayMatchesSlots(total, results, events);
    RangeSize(total);
    if total > 0 {
      ReplayPercent(total, results, events);
      PercentFullIff(total, total);
    }
  }

  /** When every document succeeds, the batch ends "completed" at 100 percent, with every
      document processed and no slot held. */
  lemma CompleteRunSucceeds(total: nat, results: seq<Outcome>, events: seq<Event>)
    requires |results| == total && Admissible(total, events) && Complete(total, events)
    requires forall i :: 0 <= i < total ==> results[i].Success?
    ensures Final(total, results, events) == Progress(total, total, 0, 100.0, Completed, None)
  {
    CompleteRunCounts(total, results, events);
    ReplayFailure(total, results, events);
  }

  /** An empty batch has no events and goes straight to "completed" at 100 percent. */
  lemma EmptyBatch(events: seq<Event>)
    requires Admissible(0, events) && Complete(0, events)
    ensures Final(0, [], events) == Progress(0, 0, 0, 100.0, Completed, None)
  {
    CompleteRunCounts(0, [], events);
    ReplayFailure(0, [], events);
  }

  /** When some document raises, the batch ends "failed" with the first raised message,
      while every document is still processed. */
  lemma CompleteRunFails(total: nat, results: seq<Outcome>, events: seq<Event>, i: nat)
    requires |results| == total && Admissible(total, events) && Complete(total, events)
    requires i < total && results[i].Failure?
    ensures var p := Final(total, results, events);
            p.status == Failed && p.error.Some?
            && (exists j :: 0 <= j < total && results[j] == Failure(p.error.value))
            && p.processed == total && p.currentTasks == 0 && p.percent == 100.0
  {
    assert i in Range(total);
    DoneWereLeft(events, i);
    var k :| 0 <= k < |events| && events[k] == Leave(i);
    FailureFound(results, events, k);
    ReplayFailure(total, results, events);
    CompleteRunCounts(total, results, events);
  }

  /** The shared `ingestion_progress` dictionary: batch id to record. */
  class ProgressTable {
    var records: map<string, Progress>

    constructor ()
      ensures records == map[]
    {
      records := map[];
    }

    /** A new batch's record. */
    method Start(batchId: string, total: nat)
      modifies this
      ensures records == old(records)[batchId := Initial(total)]
    {
      records := records[batchId := Progress(total, 0, 0, 0.0, InProgress, None)];
    }

    /** `current_tasks += 1` on entering a slot. */
    method EnterSlot(batchId: string)
      requires batchId in records
      modifies this
      ensures records == old(records)[batchId := Entered(old(records)[batchId])]
    {
      var p := records[batchId];
      records := records[batchId := p.(currentTasks := p.currentTasks + 1)];
    }

    /** The `finally` block on leaving a slot; `logged` says whether a progress line is
        written. */
    method LeaveSlot(batchId: string) returns (logged: bool)
      requires batchId in records && records[batchId].total > 0
      modifies this
      ensures records == old(records)[batchId := Left(old(records)[batchId])]
      ensures logged <==> records[batchId].processed % LogEvery == 0
    {
      var p := records[batchId];
      p := p.(processed := p.processed + 1);
      var current := p.processed;
      p := p.(currentTasks := p.currentTasks - 1);
      p := p.(percent := (current as real / p.total as real) * 100.0);
      records := records[batchId := p];
      logged := current % LogEvery == 0;
    }

    /** "completed" and 100 percent once `gather` has returned. */
    method MarkCompleted(batchId: string)
      requires batchId in records
      modifies this
      ensures records == old(records)[batchId := MarkedCompleted(old(records)[batchId])]
    {
      var p := records[batchId];
      p := p.(status := Completed);
      p := p.(percent := 100.0);
      records := records[batchId := p];
    }

    /** The `except` branch: the record, when present, becomes "failed" with the message. */
    method MarkFailed(batchId: string, message: string)
      modifies this
      ensures batchId in old(records) ==>
                records == old(records)[batchId := MarkedFailed(old(records)[batchId], message)]
      ensures batchId !in old(records) ==> records == old(records)
    {
      if batchId in records {
        var p := records[batchId];
        p := p.(status := Failed);
        p := p.(error := Some(message));
        records := records[batchId := p];
      }
    }
  }

  /** One event of the interleaving applied to the table: the slot update, the progress
      line it logs, and the `except` branch at the first raise. */
  method Occur(table: ProgressTable, batchId: string, total: nat, results: seq<Outcome>,
               past: seq<Event>, e: Event, failure: Option<string>)
    returns (next: Option<string>, logged: seq<nat>)
    requires |results| == total && Names(total, past) && Names(total, past + [e])
    requires batchId in table.records
    requires table.records[batchId] == Replay(total, results, past)
    requires failure == FirstFailure(results, past)
    modifies table
    ensures table.records == old(table.records)[batchId := Replay(total, results, past + [e])]
    ensures next == FirstFailure(results, past + [e])
    ensures LogPoints(total, results, past + [e]) == LogPoints(total, results, past) + logged
  {
    var events := past + [e];
    assert events[..|events| - 1] == past && events[|events| - 1] == e;
    ReplayFailure(total, results, past);
    next, logged := failure, [];
    match e
    case Enter(_) =>
      table.EnterSlot(batchId);
    case Leave(doc) =>
      assert events[|past|].doc == doc;
      var log := table.LeaveSlot(batchId);
      if log {
        logged := [table.records[batchId].processed];
      }
      if results[doc].Failure? && failure.None? {
        next := Some(results[doc].message);
        table.MarkFailed(batchId, results[doc].message);
      }
  }

  /** `gather` over the interleaving `events`: every event applied to the batch's record in
      order, with the first raised message and the progress lines logged. */
  method RunSchedule(table: ProgressTable, batchId: string, total: nat,
                     results: seq<Outcome>, events: seq<Event>)
    returns (failure: Option<string>, logs: seq<nat>)
    requires |results| == total && Names(total, events)
    requires batchId in table.records && table.records[batchId] == Initial(total)
    modifies table
    ensures table.records == old(table.records)[batchId := Replay(total, results, events)]
    ensures failure == FirstFailure(results, events)
    ensures logs == LogPoints(total, results, events)
  {
    failure := None;
    logs := [];
    for i := 0 to |events|
      invariant batchId in table.records
      invariant table.records == old(table.records)[batchId := Replay(total, results, events[..i])]
      invariant failure == FirstFailure(results, events[..i])
      invariant logs == LogPoints(total, results, events[..i])
    {
      PrefixStep(total, events, i);
      var logged;
      failure, logged := Occur(table, batchId, total, results, events[..i], events[i], failure);
      logs := logs + logged;
    }
    assert events[..|events|] == events;
  }

  /** `ingest_document` for a batch of `total` documents run in the interleaving `events`,
      where `results[i]` is what `ingestor.ingest([documents[i]])` did. The outcome is the
      endpoint's: success, or the 500 error carrying the first raised message. */
  method IngestDocuments(table: ProgressTable, batchId: string, total: nat,
                         results: seq<Outcome>, events: seq<Event>)
    returns (outcome: Outcome, logs: seq<nat>)
    requires |results| == total && Admissible(total, events) && Complete(total, events)
    modifies table
    ensures table.records == old(table.records)[batchId := Final(total, results, events)]
    ensures outcome == match FirstFailure(results, events)
                       case None => Success
                       case Some(m) => Failure(m)
    ensures logs == LogPoints(total, results, events)
  {
    table.Start(batchId, total);
    var failure;
    failure, logs := RunSchedule(table, batchId, total, results, events);
    ReplayFailure(total, results, events);
    match failure
    case None =>
      table.MarkCompleted(batchId);
      outcome := Success;
    case Some(m) =>
      outcome := Failure(m);
  }
}
