/**
 What holds of one conversation's row, copies and workers in every run, also
 in those that lose turns: cursors and sequences stand on assistant messages
 of the transcript.
 */
module SummaryBounds {
  import opened Wrappers
  import opened WarmMemory
  import opened WarmStates
  import opened HistoryEvolution
  import opened SummarySystem

  predicate CursorOk(through: int, count: int) {
    0 <= through <= count && through % 2 == 0
  }

  predicate TurnsBounded(turns: seq<WarmTurn>, count: int) {
    forall t :: t in turns && t.sequence.Some? ==> CursorOk(t.sequence.value, count)
  }

  predicate StateBounded(s: WarmState, count: int) {
    CursorOk(s.through, count) && TurnsBounded(s.turns, count)
  }

  predicate JobBounded(job: SummaryJob, count: int) {
    TurnsBounded(job.toSummarize, count) && TurnsBounded(job.recent, count)
  }

  predicate WorkerBounded(w: Worker, count: int) {
    match w
    case Appending(s) => CursorOk(s, count)
    case Holding(job) => JobBounded(job, count)
    case Checked(job, through, _, _) => JobBounded(job, count) && CursorOk(through, count)
    case Persisted(job) => JobBounded(job, count)
    case Reading(_, cursor, _) => CursorOk(cursor, count)
    case Folded(_, _, _, through, turns) => CursorOk(through, count) && TurnsBounded(turns, count)
    case Replacing(snapshot) => CursorOk(snapshot.through, count) && TurnsBounded(snapshot.turns, count)
  }

  ghost predicate SystemBounded(sys: System) {
    && sys.durable.count % 2 == 0
    && CursorOk(sys.durable.through, sys.durable.count)
    && (forall p :: p in sys.warm ==> StateBounded(sys.warm[p], sys.durable.count))
    && (forall id :: id in sys.workers ==> WorkerBounded(sys.workers[id], sys.durable.count))
  }

  lemma AppendBounded(s: WarmState, t: WarmTurn, kbs: set<string>, now: real, count: int)
    requires StateBounded(s, count) && (t.sequence.Some? ==> CursorOk(t.sequence.value, count))
    ensures StateBounded(Append(s, t, kbs, now), count)
  {
    if t.sequence.Some? {
      InsertedFrom(s.turns, t);
      assert forall x :: x in InsertSorted(s.turns, t) ==> x in TurnsOf(s.turns) + {t};
    }
    hide InsertSorted;
  }

  lemma CutBounded(s: WarmState, keep: nat, oversize: bool, count: int)
    requires StateBounded(s, count)
    ensures JobOf(s, keep, oversize).Some? ==> JobBounded(JobOf(s, keep, oversize).value, count)
  {}

  lemma ThroughBounded(turns: seq<WarmTurn>, count: int)
    requires TurnsBounded(turns, count) && count >= 0
    ensures ThroughSequence(turns).Some? ==> CursorOk(ThroughSequence(turns).value, count)
  {
    HighestIsMaximum(turns, 0);
    hide HighestSequence;
  }

  lemma ContiguousBounded(through: int, turns: seq<WarmTurn>, count: int)
    requires Contiguous(through, turns) && CursorOk(through, count) && through + 2 * |turns| <= count
    ensures TurnsBounded(turns, count)
  {
    ContiguousAt(through, turns);
    hide Contiguous;
  }

  lemma ApplyBounded(s: WarmState, job: SummaryJob, now: real, count: int)
    requires StateBounded(s, count) && JobBounded(job, count) && count >= 0
    ensures var applied := ApplySummary(s, job, FallbackSummary(job), now);
            applied.Some? ==> StateBounded(applied.value, count)
  {
    ThroughBounded(job.toSummarize, count);
    hide ThroughSequence;
  }

  lemma BoundsGrow(w: Worker, count: int, count': int)
    requires WorkerBounded(w, count) && count <= count'
    ensures WorkerBounded(w, count')
  {}

  lemma StateBoundsGrow(s: WarmState, count: int, count': int)
    requires StateBounded(s, count) && count <= count'
    ensures StateBounded(s, count')
  {}

  /** A row that only grew, one worker's new place and one process's new copy. */
  lemma Moved(sys: System, sys': System, id: nat, process: nat)
    requires SystemBounded(sys)
    requires sys'.durable.count >= sys.durable.count && sys'.durable.count % 2 == 0
    requires CursorOk(sys'.durable.through, sys'.durable.count)
    requires forall p :: p in sys'.warm && p != process ==> p in sys.warm && sys'.warm[p] == sys.warm[p]
    requires process in sys'.warm ==> StateBounded(sys'.warm[process], sys'.durable.count)
    requires forall w :: w in sys'.workers && w != id ==> w in sys.workers && sys'.workers[w] == sys.workers[w]
    requires id in sys'.workers ==> WorkerBounded(sys'.workers[id], sys'.durable.count)
    ensures SystemBounded(sys')
  {
    hide StateBounded, WorkerBounded;
    forall p | p in sys'.warm
      ensures StateBounded(sys'.warm[p], sys'.durable.count)
    {
      if p != process {
        StateBoundsGrow(sys.warm[p], sys.durable.count, sys'.durable.count);
      }
    }
    forall w | w in sys'.workers
      ensures WorkerBounded(sys'.workers[w], sys'.durable.count)
    {
      if w != id {
        BoundsGrow(sys.workers[w], sys.durable.count, sys'.durable.count);
      }
    }
  }

  /** A copy that is there is bounded, and grows with the count. */
  lemma CopyBounded(sys: System, process: nat, count: int)
    requires SystemBounded(sys) && count >= sys.durable.count
    ensures process in sys.warm ==> StateBounded(sys.warm[process], count)
  {
    hide WorkerBounded;
  }

  lemma WarmEventBounded(sys: System, keep: nat, event: Event)
    requires SystemBounded(sys) && Enabled(sys, event) && ChangesWarm(event)
    ensures SystemBounded(ApplyEvent(sys, keep, event))
  {
    var sys', count := ApplyEvent(sys, keep, event), sys.durable.count;
    hide SystemBounded, StateBounded, Append, JobOf, JobBounded, ApplySummary, FallbackSummary, TurnsBounded, Added,
         ReplaceRefused, Contiguous, JobFollows;
    assert CursorOk(sys.durable.through, count) && count % 2 == 0 by {
      RowBounded(sys);
    }
    match event
    case AppendWarm(id, p, turn, kbs, oversize, now) =>
      var before := if p in sys.warm then sys.warm[p] else NewState(now);
      WorkerIsBounded(sys, id);
      CopyBounded(sys, p, count);
      NewBounded(now, count);
      AppendBounded(before, turn, kbs, now, count);
      CutBounded(Append(before, turn, kbs, now), keep, oversize, count);
      Moved(sys, sys', id, p);
    case ApplyWarm(id, p, now) =>
      WorkerIsBounded(sys, id);
      CopyBounded(sys, p, count);
      if p in sys.warm {
        ApplyBounded(sys.warm[p], sys.workers[id].job, now, count);
      }
      Moved(sys, sys', id, p);
    case ReplaceWarm(id, p, now) =>
      WorkerIsBounded(sys, id);
      CopyBounded(sys, p, count);
      SnapshotBounded(sys.workers[id].snapshot, now, count);
      Moved(sys, sys', id, p);
    case HydrateAbsent(id, p, now) =>
      WorkerIsBounded(sys, id);
      CopyBounded(sys, p, count);
      SnapshotBounded(sys.workers[id].snapshot, now, count);
      Moved(sys, sys', id, p);
    case LoseWarm(p) => AllWorkersBounded(sys); Moved(sys, sys', 0, p);
  }

  lemma AllWorkersBounded(sys: System)
    requires SystemBounded(sys)
    ensures forall id :: id in sys.workers ==> WorkerBounded(sys.workers[id], sys.durable.count)
  {}

  lemma RowBounded(sys: System)
    requires SystemBounded(sys)
    ensures CursorOk(sys.durable.through, sys.durable.count) && sys.durable.count % 2 == 0
  {}

  lemma WorkerIsBounded(sys: System, id: nat)
    requires SystemBounded(sys) && id in sys.workers
    ensures WorkerBounded(sys.workers[id], sys.durable.count)
  {}

  lemma NewBounded(now: real, count: int)
    requires count >= 0
    ensures StateBounded(NewState(now), count)
  {}

  lemma SnapshotBounded(snapshot: Snapshot, now: real, count: int)
    requires CursorOk(snapshot.through, count) && TurnsBounded(snapshot.turns, count)
    ensures StateBounded(FromDurable(snapshot, now), count)
  {}

  lemma FoldTailBounded(sys: System, keep: nat, event: Event)
    requires SystemBounded(sys) && Enabled(sys, event) && event.FoldTail?
    ensures SystemBounded(ApplyEvent(sys, keep, event))
  {
    hide SystemBounded, StateBounded, Contiguous, Between, TurnsBounded;
    var FoldTail(id, turns, folded) := event;
    var w, count := sys.workers[id], sys.durable.count;
    RowBounded(sys);
    WorkerIsBounded(sys, id);
    ContiguousBounded(w.cursor + 2 * folded, turns, count);
    CopyBounded(sys, 0, count);
    Moved(sys, ApplyEvent(sys, keep, event), id, 0);
  }

  lemma RowEventBounded(sys: System, keep: nat, event: Event)
    requires SystemBounded(sys) && Enabled(sys, event) && !ChangesWarm(event)
    ensures SystemBounded(ApplyEvent(sys, keep, event))
  {
    hide SystemBounded, StateBounded, WarmStates.FallbackSummary, Contiguous, JobFollows, Between, TurnsBounded,
         ThroughSequence, JobBounded;
    if event.FoldTail? {
      FoldTailBounded(sys, keep, event);
    } else {
      var sys', count := ApplyEvent(sys, keep, event), sys.durable.count;
      var id := if event.CommitOnly? then 0 else event.id;
      RowBounded(sys);
      AllWorkersBounded(sys);
      CopyBounded(sys, 0, sys'.durable.count);
      if event.CommitOnly? && 0 in sys.workers {
        BoundsGrow(sys.workers[0], count, sys'.durable.count);
      }
      if event.CheckJob? {
        CheckedBounded(sys.workers[id].job, sys.durable.through, count);
      }
      Moved(sys, sys', id, 0);
    }
  }

  lemma CheckedBounded(job: SummaryJob, cursor: int, count: int)
    requires JobBounded(job, count) && count >= 0
    ensures JobFollows(job, cursor) ==>
              ThroughSequence(job.toSummarize).Some? && CursorOk(ThroughSequence(job.toSummarize).value, count)
  {
    ThroughBounded(job.toSummarize, count);
    hide ThroughSequence;
  }

  lemma EventBounded(sys: System, keep: nat, event: Event)
    requires SystemBounded(sys) && Enabled(sys, event)
    ensures SystemBounded(ApplyEvent(sys, keep, event))
  {
    hide SystemBounded, ApplyEvent, Enabled;
    if ChangesWarm(event) {
      WarmEventBounded(sys, keep, event);
    } else {
      RowEventBounded(sys, keep, event);
    }
  }

  /** Whatever happens, covered or not, every cursor and every sequence stays within the transcript. */
  lemma {:induction false} RunBounded(sys: System, keep: nat, events: seq<Event>)
    requires SystemBounded(sys) && Possible(sys, keep, events)
    ensures SystemBounded(RunSystem(sys, keep, events))
    decreases |events|
  {
    hide SystemBounded, ApplyEvent, Enabled;
    if events != [] {
      EventBounded(sys, keep, events[0]);
      RunBounded(ApplyEvent(sys, keep, events[0]), keep, events[1..]);
    }
  }

  lemma StartBounded()
    ensures SystemBounded(Start)
  {}
}
