/**
 Summary honesty across workers: one conversation's durable row, a warm copy in
 any number of processes, and any number of workers that commit, append,
 summarize, hydrate, stall and crash at any point.  Each event is one atomic step.
 */
module SummarySystem {
  import opened Wrappers
  import opened WarmMemory
  import opened WarmStates
  import opened HistoryEvolution

  /** range(a + 2, b + 1, 2): the assistant sequences after `a` up to `b`. */
  function Between(a: int, b: int): seq<int>
    decreases b - a
  {
    if a + 2 > b then [] else [a + 2] + Between(a + 2, b)
  }

  lemma {:induction false} BetweenLength(a: int, b: int)
    requires a <= b && (b - a) % 2 == 0
    ensures |Between(a, b)| == (b - a) / 2
    ensures forall i :: 0 <= i < |Between(a, b)| ==> Between(a, b)[i] == a + 2 + 2 * i
    decreases b - a
  {
    if a + 2 <= b {
      BetweenLength(a + 2, b);
    }
  }

  lemma BetweenUnfolds(a: int, b: int)
    ensures Between(a, b) == if a + 2 > b then [] else [a + 2] + Between(a + 2, b)
  {}

  lemma {:induction false} BetweenJoins(a: int, b: int, c: int)
    requires a <= b <= c && (b - a) % 2 == 0
    ensures Between(a, b) + Between(b, c) == Between(a, c)
    decreases b - a
  {
    BetweenUnfolds(a, b);
    BetweenUnfolds(a, c);
    hide Between;
    if a == b {
      assert [] + Between(b, c) == Between(b, c);
    } else {
      BetweenJoins(a + 2, b, c);
      var first, rest, tail := [a + 2], Between(a + 2, b), Between(b, c);
      assert Between(a, b) == first + rest && Between(a, c) == first + Between(a + 2, c);
      assert first + rest + tail == first + (rest + tail);
    }
  }

  // ----- What is honest -------------------------------------------------------------

  /** The summary folds exactly the assistant sequences 2, 4, .., n, each once and in order. */
  predicate Honest(summary: seq<int>, through: int) {
    through >= 0 && through % 2 == 0 && summary == Between(0, through)
  }

  /** The turns are exactly those after the cursor, without a gap. */
  predicate Contiguous(through: int, turns: seq<WarmTurn>) {
    Sequenced(turns) && Sequences(turns) == Between(through, through + 2 * |turns|)
  }

  ghost predicate WarmOk(s: WarmState, count: int) {
    Honest(s.summary, s.through) && Contiguous(s.through, s.turns) && s.through + 2 * |s.turns| <= count
  }

  ghost predicate DurableOk(d: Durable) {
    Honest(d.summary, d.through) && d.through <= d.count && d.count % 2 == 0
  }

  // ----- The system -------------------------------------------------------------------

  /** Where a worker stands between two of its atomic steps. */
  datatype Worker =
    | Appending(sequence: int)
    | Holding(job: SummaryJob)
    | Checked(job: SummaryJob, through: int, cursor: int, version: int)
    | Persisted(job: SummaryJob)
    | Reading(summary: seq<int>, cursor: int, version: int)
    | Folded(summary: seq<int>, cursor: int, version: int, through: int, turns: seq<WarmTurn>)
    | Replacing(snapshot: Snapshot)

  /** `warm` holds the copy of each process that has one. */
  datatype System = System(durable: Durable, warm: map<nat, WarmState>, workers: map<nat, Worker>)

  datatype Event =
    | Commit(id: nat)
    | CommitOnly
    | AppendWarm(id: nat, process: nat, turn: WarmTurn, kbs: set<string>, oversize: bool, now: real)
    | CheckJob(id: nat)
    | SwapJob(id: nat)
    | ApplyWarm(id: nat, process: nat, now: real)
    | ReadRow(id: nat)
    | FoldTail(id: nat, turns: seq<WarmTurn>, folded: nat)
    | SwapFolded(id: nat, kbs: set<string>)
    | ReplaceWarm(id: nat, process: nat, now: real)
    | HydrateAbsent(id: nat, process: nat, now: real)
    | LoseWarm(process: nat)
    | Crash(id: nat)

  /** UPDATE .. WHERE summary_version = ? AND summary_through_sequence < ? */
  function SwapSummary(d: Durable, summary: seq<int>, expected: int, through: int): Option<Durable> {
    if d.version != expected || through <= d.through then None
    else Some(Durable(d.count, summary, through, expected + 1))
  }

  /** The guard of the warm summarizer before it persists a job. */
  predicate JobFollows(job: SummaryJob, cursor: int) {
    var through := ThroughSequence(job.toSummarize);
    && through.Some?
    && through.value > cursor
    && Sequences(job.toSummarize) == Between(cursor, through.value)
  }

  function Drop(workers: map<nat, Worker>, id: nat): map<nat, Worker> {
    workers - {id}
  }

  /** What a worker must hold to take a step; the pages it read lie within the transcript. */
  predicate Enabled(sys: System, event: Event) {
    match event
    case Commit(id) => id !in sys.workers
    case CommitOnly => true
    case AppendWarm(id, _, turn, _, _, _) =>
      id in sys.workers && sys.workers[id].Appending? && turn.sequence == Some(sys.workers[id].sequence)
    case CheckJob(id) => id in sys.workers && sys.workers[id].Holding?
    case SwapJob(id) => id in sys.workers && sys.workers[id].Checked?
    case ApplyWarm(id, _, _) => id in sys.workers && sys.workers[id].Persisted?
    case ReadRow(id) => id !in sys.workers
    case FoldTail(id, turns, folded) =>
      && id in sys.workers && sys.workers[id].Reading?
      && Contiguous(sys.workers[id].cursor + 2 * folded, turns)
      && sys.workers[id].cursor + 2 * folded + 2 * |turns| <= sys.durable.count
    case SwapFolded(id, _) => id in sys.workers && sys.workers[id].Folded?
    case ReplaceWarm(id, _, _) => id in sys.workers && sys.workers[id].Replacing?
    case HydrateAbsent(id, _, _) => id in sys.workers && sys.workers[id].Replacing?
    case LoseWarm(_) => true
    case Crash(_) => true
  }

  function WarmOf(sys: System, process: nat): Option<WarmState> {
    if process in sys.warm then Some(sys.warm[process]) else None
  }

  function ApplyEvent(sys: System, keep: nat, event: Event): System
    requires Enabled(sys, event)
  {
    match event
    case Commit(id) =>
      var d := sys.durable.(count := sys.durable.count + 2);
      sys.(durable := d, workers := sys.workers[id := Appending(d.count)])
    case CommitOnly => sys.(durable := sys.durable.(count := sys.durable.count + 2))
    case AppendWarm(id, process, turn, kbs, oversize, now) =>
      var before := if process in sys.warm then sys.warm[process] else NewState(now);
      var s := Append(before, turn, kbs, now);
      var job := if Added(before, turn) then JobOf(s, keep, oversize) else None;
      sys.(warm := sys.warm[process := s],
           workers := if job.Some? then sys.workers[id := Holding(job.value)] else Drop(sys.workers, id))
    case CheckJob(id) =>
      var job, d := sys.workers[id].job, sys.durable;
      sys.(workers := if JobFollows(job, d.through)
                      then sys.workers[id := Checked(job, ThroughSequence(job.toSummarize).value, d.through, d.version)]
                      else Drop(sys.workers, id))
    case SwapJob(id) =>
      var w := sys.workers[id];
      var swapped := SwapSummary(sys.durable, FallbackSummary(w.job), w.version, w.through);
      if swapped.None? then sys.(workers := Drop(sys.workers, id))
      else sys.(durable := swapped.value, workers := sys.workers[id := Persisted(w.job)])
    case ApplyWarm(id, process, now) =>
      var job := sys.workers[id].job;
      var applied := if process in sys.warm then ApplySummary(sys.warm[process], job, FallbackSummary(job), now)
                     else None;
      sys.(warm := if applied.Some? then sys.warm[process := applied.value] else sys.warm,
           workers := Drop(sys.workers, id))
    case ReadRow(id) =>
      sys.(workers := sys.workers[id := Reading(sys.durable.summary, sys.durable.through, sys.durable.version)])
    case FoldTail(id, turns, folded) =>
      var w := sys.workers[id];
      var through := w.cursor + 2 * folded;
      sys.(workers := sys.workers[id := Folded(w.summary + Between(w.cursor, through), w.cursor, w.version, through, turns)])
    case SwapFolded(id, kbs) =>
      var w := sys.workers[id];
      if w.through <= w.cursor then
        sys.(workers := sys.workers[id := Replacing(Snapshot(w.summary, w.through, w.turns, kbs, Some(w.version)))])
      else
        var swapped := SwapSummary(sys.durable, w.summary, w.version, w.through);
        if swapped.None? then sys.(workers := Drop(sys.workers, id))
        else sys.(durable := swapped.value,
                  workers := sys.workers[id := Replacing(Snapshot(w.summary, w.through, w.turns, kbs, Some(w.version + 1)))])
    case ReplaceWarm(id, process, now) =>
      var snapshot := sys.workers[id].snapshot;
      sys.(warm := if ReplaceRefused(WarmOf(sys, process), snapshot) then sys.warm
                   else sys.warm[process := FromDurable(snapshot, now)],
           workers := Drop(sys.workers, id))
    case HydrateAbsent(id, process, now) =>
      sys.(warm := if process in sys.warm then sys.warm
                   else sys.warm[process := FromDurable(sys.workers[id].snapshot, now)],
           workers := Drop(sys.workers, id))
    case LoseWarm(process) => sys.(warm := sys.warm - {process})
    case Crash(id) => sys.(workers := Drop(sys.workers, id))
  }

  /** What each worker may rely on, whatever the others did since its last step. */
  ghost predicate WorkerOk(d: Durable, w: Worker) {
    match w
    case Appending(s) => 2 <= s <= d.count && s % 2 == 0
    case Holding(job) => JobOk(job, d.count)
    case Checked(job, through, cursor, version) =>
      JobOk(job, d.count) && JobFollows(job, cursor) && ThroughSequence(job.toSummarize) == Some(through)
      && Remembers(d, cursor, version)
    case Persisted(job) => JobOk(job, d.count)
    case Reading(summary, cursor, version) =>
      Honest(summary, cursor) && cursor <= d.count && Remembers(d, cursor, version)
    case Folded(summary, cursor, version, through, turns) =>
      Honest(summary, through) && cursor <= through && Contiguous(through, turns)
      && through + 2 * |turns| <= d.count && Remembers(d, cursor, version)
    case Replacing(snapshot) =>
      Honest(snapshot.summary, snapshot.through) && Contiguous(snapshot.through, snapshot.turns)
      && snapshot.through + 2 * |snapshot.turns| <= d.count
  }

  /** What a worker read of the row is still true if the version is still the same. */
  ghost predicate Remembers(d: Durable, cursor: int, version: int) {
    version <= d.version && (version == d.version ==> d.through == cursor)
  }

  /** A job cut from an honest state: where it starts and ends. */
  ghost predicate JobOk(job: SummaryJob, count: int) {
    && job.toSummarize != []
    && Honest(job.previous, 2 * |job.previous|)
    && Contiguous(2 * |job.previous|, job.toSummarize)
    && Contiguous(2 * |job.previous| + 2 * |job.toSummarize|, job.recent)
    && 2 * (|job.previous| + |job.toSummarize| + |job.recent|) <= count
  }

  ghost predicate SystemOk(sys: System) {
    && DurableOk(sys.durable)
    && (forall p :: p in sys.warm ==> WarmOk(sys.warm[p], sys.durable.count))
    && forall id :: id in sys.workers ==> WorkerOk(sys.durable, sys.workers[id])
  }

  // ----- Contiguous turn lists -----------------------------------------------------------

  lemma {:induction false} SequencesAt(turns: seq<WarmTurn>)
    requires Sequenced(turns)
    ensures |Sequences(turns)| == |turns|
    ensures forall i :: 0 <= i < |turns| ==> turns[i].sequence == Some(Sequences(turns)[i])
  {
    if turns != [] {
      assert turns[0] in turns;
      SequencesAt(turns[1..]);
    }
  }

  lemma ContiguousAt(through: int, turns: seq<WarmTurn>)
    ensures Contiguous(through, turns) <==>
              forall i :: 0 <= i < |turns| ==> turns[i].sequence == Some(through + 2 + 2 * i)
  {
    var end := through + 2 * |turns|;
    BetweenLength(through, end);
    if Sequenced(turns) {
      SequencesAt(turns);
      if forall i :: 0 <= i < |turns| ==> turns[i].sequence == Some(through + 2 + 2 * i) {
        assert forall i :: 0 <= i < |turns| ==> Sequences(turns)[i] == Between(through, end)[i];
        assert Sequences(turns) == Between(through, end);
      }
    }
  }

  lemma ContiguousSplit(through: int, turns: seq<WarmTurn>, k: nat)
    requires Contiguous(through, turns) && k <= |turns|
    ensures Contiguous(through, turns[..k]) && Contiguous(through + 2 * k, turns[k..])
  {
    ContiguousAt(through, turns);
    ContiguousAt(through, turns[..k]);
    ContiguousAt(through + 2 * k, turns[k..]);
  }

  lemma ContiguousExtend(through: int, turns: seq<WarmTurn>, t: WarmTurn)
    requires Contiguous(through, turns) && t.sequence == Some(through + 2 * |turns| + 2)
    ensures Contiguous(through, turns + [t])
  {
    ContiguousAt(through, turns);
    ContiguousAt(through, turns + [t]);
  }

  lemma {:induction false} InsertLast(turns: seq<WarmTurn>, t: WarmTurn)
    requires t.sequence.Some?
    requires forall i :: 0 <= i < |turns| ==> turns[i].sequence.Some? && turns[i].sequence.value < t.sequence.value
    ensures InsertSorted(turns, t) == turns + [t]
  {
    if turns != [] {
      InsertLast(turns[1..], t);
    }
  }

  lemma {:induction false} InsertPresent(turns: seq<WarmTurn>, t: WarmTurn, k: nat)
    requires t.sequence.Some? && k < |turns| && turns[k].sequence == t.sequence
    requires forall i :: 0 <= i < k ==> turns[i].sequence.Some? && turns[i].sequence.value < t.sequence.value
    ensures InsertSorted(turns, t) == turns
  {
    if k > 0 {
      InsertPresent(turns[1..], t, k - 1);
    }
  }

  /** A turn at or before the end is a replay; the next one extends the list. */
  lemma ContiguousInsert(through: int, turns: seq<WarmTurn>, t: WarmTurn)
    requires Contiguous(through, turns) && through % 2 == 0
    requires t.sequence.Some? && t.sequence.value % 2 == 0 && t.sequence.value <= through + 2 * |turns| + 2
    ensures InsertTurn(turns, through, t)
         == if t.sequence.value <= through + 2 * |turns| then turns else turns + [t]
  {
    ContiguousAt(through, turns);
    var s := t.sequence.value;
    if through < s <= through + 2 * |turns| {
      InsertPresent(turns, t, (s - through - 2) / 2);
    } else if s > through {
      InsertLast(turns, t);
    }
  }

  lemma {:induction false} ContiguousHighest(through: int, turns: seq<WarmTurn>)
    requires Contiguous(through, turns) && through >= 0
    ensures HighestSequence(turns, through) == through + 2 * |turns|
    ensures turns != [] ==> ThroughSequence(turns) == Some(through + 2 * |turns|)
  {
    ContiguousAt(through, turns);
    if turns != [] {
      var front := turns[..|turns| - 1];
      ContiguousSplit(through, turns, |turns| - 1);
      ContiguousHighest(through, front);
      HighestFromZero(front, through);
    }
  }

  lemma {:induction false} HighestFromZero(turns: seq<WarmTurn>, through: int)
    requires through >= 0
    ensures HighestSequence(turns, 0) <= HighestSequence(turns, through)
  {
    if turns != [] {
      HighestFromZero(turns[..|turns| - 1], through);
    }
  }

  lemma CoversReaches(s: WarmState, target: int)
    requires Contiguous(s.through, s.turns) && s.through >= 0
    requires target % 2 == 0 && Covers(s, target)
    ensures target <= s.through + 2 * |s.turns|
  {
    if target >= 2 && target > s.through {
      assert target in Sequences(s.turns);
      BetweenLength(s.through, s.through + 2 * |s.turns|);
    }
  }

  lemma ReachesCovers(s: WarmState, target: int)
    requires Contiguous(s.through, s.turns) && s.through >= 0 && s.through % 2 == 0
    requires target <= s.through + 2 * |s.turns|
    ensures Covers(s, target)
  {
    var all := Between(s.through, s.through + 2 * |s.turns|);
    BetweenLength(s.through, s.through + 2 * |s.turns|);
    forall e | 2 <= e <= target && e % 2 == 0
      ensures e <= s.through || e in all
    {
      if e > s.through {
        assert all[(e - s.through - 2) / 2] == e;
      }
    }
  }

  // ----- Each step keeps the system honest ----------------------------------------------

  /** An honest state that covers the turns before `t` stays honest when `t` is appended. */
  lemma AppendKeeps(s: WarmState, t: WarmTurn, kbs: set<string>, now: real, count: int)
    requires WarmOk(s, count) && t.sequence.Some? && 2 <= t.sequence.value <= count && t.sequence.value % 2 == 0
    requires Covers(s, t.sequence.value - 2)
    ensures WarmOk(Append(s, t, kbs, now), count)
  {
    CoversReaches(s, t.sequence.value - 2);
    ContiguousInsert(s.through, s.turns, t);
    if t.sequence.value == s.through + 2 * |s.turns| + 2 {
      ContiguousExtend(s.through, s.turns, t);
    }
  }

  lemma CutKeeps(s: WarmState, keep: nat, oversize: bool, count: int)
    requires WarmOk(s, count)
    ensures JobOf(s, keep, oversize).Some? ==> JobOk(JobOf(s, keep, oversize).value, count)
  {
    var split := SplitIndex(|s.turns|, keep);
    BetweenLength(0, s.through);
    ContiguousSplit(s.through, s.turns, split);
  }

  /** The contiguity guard pins the job to the durable cursor it is persisted on. */
  lemma FollowingJobStartsAtCursor(job: SummaryJob, cursor: int, count: int)
    requires JobOk(job, count) && JobFollows(job, cursor)
    ensures cursor == 2 * |job.previous|
    ensures var through := ThroughSequence(job.toSummarize).value;
      && through == cursor + 2 * |job.toSummarize| <= count
      && Honest(FallbackSummary(job), through)
  {
    var start := 2 * |job.previous|;
    ContiguousHighest(start, job.toSummarize);
    var through := start + 2 * |job.toSummarize|;
    BetweenLength(start, through);
    assert Between(start, through)[0] == start + 2;
    assert Between(cursor, through)[0] == cursor + 2;
    BetweenJoins(0, start, through);
  }

  lemma JobSummaryHonest(job: SummaryJob, count: int)
    requires JobOk(job, count)
    ensures var through := 2 * |job.previous| + 2 * |job.toSummarize|;
      && ThroughSequence(job.toSummarize) == Some(through)
      && Honest(FallbackSummary(job), through)
  {
    var start := 2 * |job.previous|;
    ContiguousHighest(start, job.toSummarize);
    BetweenJoins(0, start, start + 2 * |job.toSummarize|);
  }

  /** Even a job that matches a later state by its version alone installs an honest one. */
  lemma ApplyKeeps(s: WarmState, job: SummaryJob, now: real, count: int)
    requires JobOk(job, count) && job.version == s.version
    ensures WarmOk(ApplySummary(s, job, FallbackSummary(job), now).value, count)
  {
    JobSummaryHonest(job, count);
  }

  lemma FoldKeeps(summary: seq<int>, cursor: int, folded: nat)
    requires Honest(summary, cursor)
    ensures Honest(summary + Between(cursor, cursor + 2 * folded), cursor + 2 * folded)
  {
    BetweenJoins(0, cursor, cursor + 2 * folded);
  }

  /** Workers that read an older version lose the race; the others are not affected. */
  lemma WorkersSurvive(d: Durable, d': Durable, w: Worker)
    requires WorkerOk(d, w) && d'.count >= d.count
    requires d'.version == d.version + 1 || (d'.version == d.version && d'.through == d.through)
    ensures WorkerOk(d', w)
  {
    hide Honest, Contiguous, JobFollows;
  }

  lemma OthersSurvive(sys: System, d': Durable, id: nat)
    requires SystemOk(sys)
    requires d'.count >= sys.durable.count
    requires d'.version == sys.durable.version + 1
             || (d'.version == sys.durable.version && d'.through == sys.durable.through)
    ensures forall other :: other in sys.workers && other != id ==> WorkerOk(d', sys.workers[other])
    ensures forall p :: p in sys.warm ==> WarmOk(sys.warm[p], d'.count)
  {
    hide Honest, Contiguous, WorkerOk;
    forall other | other in sys.workers && other != id
      ensures WorkerOk(d', sys.workers[other])
    {
      WorkersSurvive(sys.durable, d', sys.workers[other]);
    }
  }

  lemma NewStateOk(now: real, count: nat)
    ensures WarmOk(NewState(now), count) && Covers(NewState(now), 0)
  {}

  /** The turn being appended is the next after what the warm state covers. */
  predicate Covered(sys: System, event: Event) {
    event.AppendWarm? && event.turn.sequence.Some? ==>
      if event.process !in sys.warm then event.turn.sequence.value == 2
      else Covers(sys.warm[event.process], event.turn.sequence.value - 2)
  }

  predicate ChangesWarm(event: Event) {
    event.AppendWarm? || event.ApplyWarm? || event.ReplaceWarm? || event.HydrateAbsent? || event.LoseWarm?
  }

  /** An honest copy in one process, and workers that are, leave the others as they were. */
  lemma InstallKeeps(sys: System, process: nat, s: WarmState, workers: map<nat, Worker>)
    requires SystemOk(sys) && WarmOk(s, sys.durable.count)
    requires forall id :: id in workers ==> WorkerOk(sys.durable, workers[id])
    ensures SystemOk(sys.(warm := sys.warm[process := s], workers := workers))
  {
    hide WarmOk, WorkerOk, DurableOk;
  }

  lemma DroppedAreOk(sys: System, id: nat)
    requires SystemOk(sys)
    ensures forall other :: other in Drop(sys.workers, id) ==> WorkerOk(sys.durable, sys.workers[other])
    ensures SystemOk(sys.(workers := Drop(sys.workers, id)))
  {
    hide WarmOk, WorkerOk, DurableOk;
  }

  lemma WorkerOf(sys: System, id: nat)
    requires SystemOk(sys) && id in sys.workers
    ensures WorkerOk(sys.durable, sys.workers[id])
  {
    hide WarmOk, WorkerOk, DurableOk;
  }

  lemma WarmStateOk(sys: System, process: nat)
    requires SystemOk(sys) && process in sys.warm
    ensures WarmOk(sys.warm[process], sys.durable.count)
  {
    hide WarmOk, WorkerOk, DurableOk;
  }

  lemma AppendEventKeeps(sys: System, keep: nat, event: Event)
    requires SystemOk(sys) && Enabled(sys, event) && Covered(sys, event) && event.AppendWarm?
    ensures SystemOk(ApplyEvent(sys, keep, event))
  {
    hide SystemOk, Honest, Contiguous, Covers, JobOf, Append, Added, JobOk, WarmOk;
    var AppendWarm(id, p, turn, kbs, oversize, now) := event;
    var count := sys.durable.count;
    var before := if p in sys.warm then sys.warm[p] else NewState(now);
    var s := Append(before, turn, kbs, now);
    WorkerOf(sys, id);
    NewStateOk(now, if count < 0 then 0 else count);
    if p in sys.warm {
      WarmStateOk(sys, p);
    }
    AppendKeeps(before, turn, kbs, now, count);
    CutKeeps(s, keep, oversize, count);
    DroppedAreOk(sys, id);
    var job := if Added(before, turn) then JobOf(s, keep, oversize) else None;
    if job.Some? {
      HoldingIsOk(sys.durable, job.value);
      OthersAreOk(sys);
    }
    InstallKeeps(sys, p, s, if job.Some? then sys.workers[id := Holding(job.value)] else Drop(sys.workers, id));
  }

  lemma OthersAreOk(sys: System)
    requires SystemOk(sys)
    ensures forall id :: id in sys.workers ==> WorkerOk(sys.durable, sys.workers[id])
  {}

  lemma HoldingIsOk(d: Durable, job: SummaryJob)
    requires JobOk(job, d.count)
    ensures WorkerOk(d, Holding(job))
  {}

  lemma WarmEventKeeps(sys: System, keep: nat, event: Event)
    requires SystemOk(sys) && Enabled(sys, event) && Covered(sys, event) && ChangesWarm(event)
    ensures SystemOk(ApplyEvent(sys, keep, event))
  {
    var d := sys.durable;
    assert d.through >= 0;
    hide Honest, Contiguous, JobFollows, Covers, JobOf, FallbackSummary, ApplySummary, Append, Added, JobOk, Between,
         HighestSequence;
    match event
    case AppendWarm(_, _, _, _, _, _) => AppendEventKeeps(sys, keep, event);
    case ApplyWarm(id, p, now) =>
      if p in sys.warm && sys.warm[p].version == sys.workers[id].job.version {
        ApplyKeeps(sys.warm[p], sys.workers[id].job, now, d.count);
      } else if p in sys.warm {
        StaleJobRefused(sys.warm[p], sys.workers[id].job, now);
      }
    case ReplaceWarm(id, p, now) =>
    case HydrateAbsent(id, p, now) =>
    case LoseWarm(_) =>
  }

  lemma StaleJobRefused(s: WarmState, job: SummaryJob, now: real)
    requires s.version != job.version
    ensures ApplySummary(s, job, FallbackSummary(job), now).None?
  {}

  /** Both compare-and-swaps: from a warm job and from a folded tail. */
  lemma SwapKeeps(sys: System, keep: nat, event: Event)
    requires SystemOk(sys) && Enabled(sys, event) && (event.SwapJob? || event.SwapFolded?)
    ensures SystemOk(ApplyEvent(sys, keep, event))
  {
    var w, d' := sys.workers[event.id], ApplyEvent(sys, keep, event).durable;
    hide Honest, Contiguous, JobFollows, FallbackSummary, JobOk, Between, WarmOk;
    if event.SwapJob? {
      FollowingJobStartsAtCursor(w.job, w.cursor, sys.durable.count);
    }
    if d' != sys.durable {
      OthersSurvive(sys, d', event.id);
    }
  }

  lemma DurableEventKeeps(sys: System, keep: nat, event: Event)
    requires SystemOk(sys) && Enabled(sys, event) && !ChangesWarm(event)
    ensures SystemOk(ApplyEvent(sys, keep, event))
  {
    var d, d' := sys.durable, ApplyEvent(sys, keep, event).durable;
    assert d.through >= 0;
    hide Honest, Contiguous, JobFollows, FallbackSummary, JobOk, Between, WarmOk;
    match event
    case Commit(id) => OthersSurvive(sys, d', id);
    case CommitOnly =>
      forall id | id in sys.workers
        ensures WorkerOk(d', sys.workers[id])
      {
        WorkersSurvive(d, d', sys.workers[id]);
      }
      OthersSurvive(sys, d', 0);
    case CheckJob(id) =>
    case SwapJob(_) => SwapKeeps(sys, keep, event);
    case SwapFolded(_, _) => SwapKeeps(sys, keep, event);
    case ReadRow(id) =>
    case FoldTail(id, turns, folded) =>
      FoldKeeps(sys.workers[id].summary, sys.workers[id].cursor, folded);
    case Crash(_) =>
  }

  lemma EventKeeps(sys: System, keep: nat, event: Event)
    requires SystemOk(sys) && Enabled(sys, event) && Covered(sys, event)
    ensures SystemOk(ApplyEvent(sys, keep, event))
  {
    hide SystemOk, ApplyEvent, Enabled, Covered;
    if ChangesWarm(event) {
      WarmEventKeeps(sys, keep, event);
    } else {
      DurableEventKeeps(sys, keep, event);
    }
  }

  // ----- All runs ------------------------------------------------------------------------

  const Start := System(Durable(0, [], 0, 0), map[], map[])

  predicate Possible(sys: System, keep: nat, events: seq<Event>)
    decreases |events|
  {
    events == [] || (Enabled(sys, events[0]) && Possible(ApplyEvent(sys, keep, events[0]), keep, events[1..]))
  }

  function RunSystem(sys: System, keep: nat, events: seq<Event>): System
    requires Possible(sys, keep, events)
    decreases |events|
  {
    if events == [] then sys else RunSystem(ApplyEvent(sys, keep, events[0]), keep, events[1..])
  }

  predicate AlwaysCovered(sys: System, keep: nat, events: seq<Event>)
    requires Possible(sys, keep, events)
    decreases |events|
  {
    events == [] || (Covered(sys, events[0]) && AlwaysCovered(ApplyEvent(sys, keep, events[0]), keep, events[1..]))
  }

  lemma {:induction false} RunKeeps(sys: System, keep: nat, events: seq<Event>)
    requires SystemOk(sys) && Possible(sys, keep, events) && AlwaysCovered(sys, keep, events)
    ensures SystemOk(RunSystem(sys, keep, events))
    decreases |events|
  {
    hide SystemOk, ApplyEvent, Enabled, Covered;
    if events != [] {
      EventKeeps(sys, keep, events[0]);
      RunKeeps(ApplyEvent(sys, keep, events[0]), keep, events[1..]);
    }
  }

  lemma StartOk()
    ensures SystemOk(Start)
  {}

  /**
   In every reachable state in which turns were appended to covering warm
   states, whoever advanced it, the durable cursor is even, at most the message
   count, and the durable summary folds exactly the sequences 2, 4, .., cursor.
   */
  lemma SummaryHonesty(keep: nat, events: seq<Event>)
    requires Possible(Start, keep, events) && AlwaysCovered(Start, keep, events)
    ensures var sys := RunSystem(Start, keep, events);
      && sys.durable.through % 2 == 0
      && 0 <= sys.durable.through <= sys.durable.count
      && |sys.durable.summary| == sys.durable.through / 2
      && (forall i :: 0 <= i < |sys.durable.summary| ==> sys.durable.summary[i] == 2 * i + 2)
      && (forall p :: p in sys.warm ==> Honest(sys.warm[p].summary, sys.warm[p].through)
                                        && Contiguous(sys.warm[p].through, sys.warm[p].turns))
  {
    StartOk();
    RunKeeps(Start, keep, events);
    BetweenLength(0, RunSystem(Start, keep, events).durable.through);
  }

  // ----- Exactly when a swap keeps honesty -------------------------------------------------

  /**
   A job cut from any honest state that the guard admits keeps the durable
   summary honest if and only if the state's cursor was the durable cursor.
   */
  lemma SwapHonestIff(d: Durable, warmCursor: int, job: SummaryJob)
    requires DurableOk(d) && Honest(job.previous, warmCursor) && JobFollows(job, d.through)
    ensures var through := ThroughSequence(job.toSummarize).value;
            var swapped := SwapSummary(d, FallbackSummary(job), d.version, through);
            swapped.Some? && (Honest(swapped.value.summary, swapped.value.through) <==> warmCursor == d.through)
  {
    var through := ThroughSequence(job.toSummarize).value;
    var summary := FallbackSummary(job);
    BetweenLength(0, warmCursor);
    BetweenLength(0, d.through);
    FollowsParity(job, d.through);
    BetweenLength(0, through);
    BetweenLength(d.through, through);
    if warmCursor == d.through {
      BetweenJoins(0, d.through, through);
    } else {
      assert |summary| == warmCursor / 2 + (through - d.through) / 2;
    }
  }

  lemma {:induction false} BetweenParity(a: int, b: int, x: int)
    requires x in Between(a, b)
    ensures (x - a) % 2 == 0
    decreases b - a
  {
    if x != a + 2 {
      BetweenParity(a + 2, b, x);
    }
  }

  lemma FollowsParity(job: SummaryJob, cursor: int)
    requires JobFollows(job, cursor) && cursor >= 0
    ensures (ThroughSequence(job.toSummarize).value - cursor) % 2 == 0
  {
    var through := ThroughSequence(job.toSummarize).value;
    HighestIsMaximum(job.toSummarize, 0);
    SequenceIn(job.toSummarize, through);
    BetweenParity(cursor, through, through);
  }

  /** The guard, spelled out: the job summarizes the turns right after the cursor, one or more, without a gap. */
  lemma JobFollowsIff(job: SummaryJob, cursor: int)
    requires cursor >= 0
    ensures JobFollows(job, cursor) <==>
              && job.toSummarize != []
              && forall i :: 0 <= i < |job.toSummarize| ==> job.toSummarize[i].sequence == Some(cursor + 2 + 2 * i)
  {
    ContiguousAt(cursor, job.toSummarize);
    if Contiguous(cursor, job.toSummarize) {
      ContiguousHighest(cursor, job.toSummarize);
    }
    if JobFollows(job, cursor) {
      FollowsParity(job, cursor);
      var through := ThroughSequence(job.toSummarize).value;
      BetweenLength(cursor, through);
      SequencesCount(job.toSummarize);
    }
  }

  // ----- What happens without coverage -----------------------------------------------------

  ghost predicate Trace(keep: nat, states: seq<System>, events: seq<Event>) {
    && |states| == |events| + 1
    && forall i :: 0 <= i < |events| ==>
         Enabled(states[i], events[i]) && ApplyEvent(states[i], keep, events[i]) == states[i + 1]
  }

  lemma {:induction false} TraceRuns(keep: nat, states: seq<System>, events: seq<Event>)
    requires Trace(keep, states, events)
    ensures Possible(states[0], keep, events)
    ensures RunSystem(states[0], keep, events) == states[|events|]
    decreases |events|
  {
    hide Enabled, ApplyEvent;
    if events != [] {
      assert Enabled(states[0], events[0]);
      TraceRuns(keep, states[1..], events[1..]);
    }
  }

  const T2 := WarmTurn("a", "b", Some(2))
  const T4 := WarmTurn("c", "d", Some(4))
  const T6 := WarmTurn("e", "f", Some(6))

  /** In process 7, worker 0 saves a turn; worker 1 saves one; worker 2 syncs and saves one. */
  const Synced := [
    Commit(0), AppendWarm(0, 7, T2, {}, false, 0.0), Commit(1),
    ReadRow(2), FoldTail(2, [T4], 1), SwapFolded(2, {}), ReplaceWarm(2, 7, 0.0), Commit(2)
  ]

  /** The warm copy is evicted before workers 1 and 2 append to it. */
  const Evicted := [
    LoseWarm(7), AppendWarm(1, 7, T4, {}, true, 0.0), AppendWarm(2, 7, T6, {}, true, 0.0), CheckJob(2), SwapJob(2)
  ]

  const BeforeEviction :=
    System(Durable(6, [2], 2, 1), map[7 := WarmState([2], 2, [T4], {}, 0.0, 1)], map[1 := Appending(4), 2 := Appending(6)])

  const W2 := WarmState([], 0, [T2], {}, 0.0, 1)
  const W4 := WarmState([2], 2, [T4], {}, 0.0, 1)

  const SyncedStates := [
    Start,
    System(Durable(2, [], 0, 0), map[], map[0 := Appending(2)]),
    System(Durable(2, [], 0, 0), map[7 := W2], map[]),
    System(Durable(4, [], 0, 0), map[7 := W2], map[1 := Appending(4)]),
    System(Durable(4, [], 0, 0), map[7 := W2], map[1 := Appending(4), 2 := Reading([], 0, 0)]),
    System(Durable(4, [], 0, 0), map[7 := W2], map[1 := Appending(4), 2 := Folded([2], 0, 0, 2, [T4])]),
    System(Durable(4, [2], 2, 1), map[7 := W2], map[1 := Appending(4), 2 := Replacing(Snapshot([2], 2, [T4], {}, Some(1)))]),
    System(Durable(4, [2], 2, 1), map[7 := W4], map[1 := Appending(4)]),
    BeforeEviction
  ]

  predicate StepsTo(keep: nat, from: System, event: Event, to: System) {
    Enabled(from, event) && ApplyEvent(from, keep, event) == to && Covered(from, event)
  }

  lemma FirstTurnSteps()
    ensures forall i :: 0 <= i < 3 ==> StepsTo(1, SyncedStates[i], Synced[i], SyncedStates[i + 1])
  {
    assert Append(NewState(0.0), T2, {}, 0.0) == W2;
    assert StepsTo(1, SyncedStates[0], Synced[0], SyncedStates[1]);
    assert StepsTo(1, SyncedStates[1], Synced[1], SyncedStates[2]);
    assert StepsTo(1, SyncedStates[2], Synced[2], SyncedStates[3]);
  }

  lemma FoldSteps()
    ensures forall i :: 3 <= i < 6 ==> StepsTo(1, SyncedStates[i], Synced[i], SyncedStates[i + 1])
  {
    BetweenLength(0, 2);
    BetweenLength(2, 4);
    assert Between(2, 4) == [4];
    assert [] + Between(0, 2) == [2];
    assert Sequences([T4]) == [4];
    assert StepsTo(1, SyncedStates[3], Synced[3], SyncedStates[4]);
    assert StepsTo(1, SyncedStates[4], Synced[4], SyncedStates[5]);
    assert StepsTo(1, SyncedStates[5], Synced[5], SyncedStates[6]);
  }

  lemma ReplaceSteps()
    ensures forall i :: 6 <= i < 8 ==> StepsTo(1, SyncedStates[i], Synced[i], SyncedStates[i + 1])
  {
    assert [T2][..0] == [] && [T4][..0] == [];
    assert HighestSequence([T2], 0) == 2 && HighestSequence([T4], 2) == 4;
    assert StepsTo(1, SyncedStates[6], Synced[6], SyncedStates[7]);
    assert StepsTo(1, SyncedStates[7], Synced[7], SyncedStates[8]);
  }

  lemma SyncedTrace()
    ensures Trace(1, SyncedStates, Synced)
    ensures forall i :: 0 <= i < |Synced| ==> Covered(SyncedStates[i], Synced[i])
  {
    FirstTurnSteps();
    FoldSteps();
    ReplaceSteps();
    hide ApplyEvent, Enabled, Covered;
    assert |Synced| == 8 && |SyncedStates| == 9;
    forall i | 0 <= i < |Synced|
      ensures Enabled(SyncedStates[i], Synced[i]) && Covered(SyncedStates[i], Synced[i])
      ensures ApplyEvent(SyncedStates[i], 1, Synced[i]) == SyncedStates[i + 1]
    {
      assert StepsTo(1, SyncedStates[i], Synced[i], SyncedStates[i + 1]);
    }
  }

  const LostJob := SummaryJob([], [T4], [T6], 2)
  const L4 := WarmState([], 0, [T4], {}, 0.0, 1)
  const L6 := WarmState([], 0, [T4, T6], {}, 0.0, 2)

  const EvictedStates := [
    BeforeEviction,
    System(Durable(6, [2], 2, 1), map[], map[1 := Appending(4), 2 := Appending(6)]),
    System(Durable(6, [2], 2, 1), map[7 := L4], map[2 := Appending(6)]),
    System(Durable(6, [2], 2, 1), map[7 := L6], map[2 := Holding(LostJob)]),
    System(Durable(6, [2], 2, 1), map[7 := L6], map[2 := Checked(LostJob, 4, 2, 1)]),
    System(Durable(6, [4], 4, 2), map[7 := L6], map[2 := Persisted(LostJob)])
  ]

  predicate Steps(keep: nat, from: System, event: Event, to: System) {
    Enabled(from, event) && ApplyEvent(from, keep, event) == to
  }

  lemma UncoveredAppends()
    ensures forall i :: 0 <= i < 3 ==> Steps(1, EvictedStates[i], Evicted[i], EvictedStates[i + 1])
  {
    assert Append(NewState(0.0), T4, {}, 0.0) == L4;
    assert Append(L4, T6, {}, 0.0) == L6;
    assert [T4, T6][..1] == [T4] && [T4, T6][1..] == [T6];
    assert Steps(1, EvictedStates[0], Evicted[0], EvictedStates[1]);
    assert Steps(1, EvictedStates[1], Evicted[1], EvictedStates[2]);
    assert Steps(1, EvictedStates[2], Evicted[2], EvictedStates[3]);
  }

  lemma LostJobSwaps()
    ensures forall i :: 3 <= i < 5 ==> Steps(1, EvictedStates[i], Evicted[i], EvictedStates[i + 1])
  {
    BetweenLength(2, 4);
    assert Sequences([T4]) == [4] && Between(2, 4) == [4];
    assert [T4][..0] == [];
    assert HighestSequence([T4], 0) == 4;
    assert FallbackSummary(LostJob) == [4];
    assert Steps(1, EvictedStates[3], Evicted[3], EvictedStates[4]);
    assert Steps(1, EvictedStates[4], Evicted[4], EvictedStates[5]);
  }

  lemma EvictedTrace()
    ensures Trace(1, EvictedStates, Evicted)
  {
    UncoveredAppends();
    LostJobSwaps();
    hide ApplyEvent, Enabled;
    forall i | 0 <= i < |Evicted|
      ensures Enabled(EvictedStates[i], Evicted[i])
      ensures ApplyEvent(EvictedStates[i], 1, Evicted[i]) == EvictedStates[i + 1]
    {
      assert Steps(1, EvictedStates[i], Evicted[i], EvictedStates[i + 1]);
    }
  }

  /**
   Every worker synced, yet the eviction leaves a warm state whose summary is
   empty; the guard admits its job, and the durable summary loses sequence 2.
   */
  lemma UncoveredAppendIsDishonest()
    ensures Possible(Start, 1, Synced) && AlwaysCovered(Start, 1, Synced)
    ensures var synced := RunSystem(Start, 1, Synced);
      && Honest(synced.durable.summary, synced.durable.through)
      && Possible(synced, 1, Evicted)
      && !Honest(RunSystem(synced, 1, Evicted).durable.summary, RunSystem(synced, 1, Evicted).durable.through)
  {
    SyncedTrace();
    TraceRuns(1, SyncedStates, Synced);
    TraceCovered(1, SyncedStates, Synced);
    EvictedTrace();
    TraceRuns(1, EvictedStates, Evicted);
    BetweenLength(0, 4);
    BetweenLength(0, 2);
  }

  lemma {:induction false} TraceCovered(keep: nat, states: seq<System>, events: seq<Event>)
    requires Trace(keep, states, events) && Possible(states[0], keep, events)
    requires forall i :: 0 <= i < |events| ==> Covered(states[i], events[i])
    ensures AlwaysCovered(states[0], keep, events)
    decreases |events|
  {
    hide Enabled, ApplyEvent, Covered;
    if events != [] {
      TraceCovered(keep, states[1..], events[1..]);
    }
  }
}
