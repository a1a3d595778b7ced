/**
 What the warm store does to the state of one conversation: appending a turn,
 cutting a summary job, applying it by compare-and-swap, and replacing the
 state by a durable snapshot.
 */
module WarmStates {
  import opened Wrappers
  import opened WarmMemory

  function Max(a: int, b: int): int {
    if a < b then b else a
  }

  /** The highest assistant sequence a cursor and a turn list represent, at least 0. */
  function HighestSequence(turns: seq<WarmTurn>, through: int): int {
    if turns == [] then Max(0, through)
    else
      var rest, last := HighestSequence(turns[..|turns| - 1], through), turns[|turns| - 1];
      if last.sequence.Some? then Max(rest, last.sequence.value) else rest
  }

  lemma {:induction false} HighestIsMaximum(turns: seq<WarmTurn>, through: int)
    ensures var h := HighestSequence(turns, through);
      && h >= 0 && h >= through
      && (forall t :: t in turns && t.sequence.Some? ==> t.sequence.value <= h)
      && (h == 0 || h == through || exists t :: t in turns && t.sequence == Some(h))
  {
    if turns != [] {
      var front, last := turns[..|turns| - 1], turns[|turns| - 1];
      HighestIsMaximum(front, through);
      assert last in turns && forall t :: t in turns <==> t in front || t == last;
    }
  }

  /** Every even sequence up to the target is summarized or present. */
  predicate Covers(s: WarmState, target: int) {
    forall e | 2 <= e <= target && e % 2 == 0 :: e <= s.through || e in Sequences(s.turns)
  }

  // ----- Appending ------------------------------------------------------------------

  function NewState(now: real): WarmState {
    WarmState([], 0, [], {}, now, 0)
  }

  predicate Added(s: WarmState, t: WarmTurn) {
    |InsertTurn(s.turns, s.through, t)| != |s.turns|
  }

  function Append(s: WarmState, t: WarmTurn, kbs: set<string>, now: real): WarmState {
    var all := s.knowledgeBases + kbs;
    WarmState(s.summary, s.through, InsertTurn(s.turns, s.through, t), all, now,
              if Added(s, t) || all != s.knowledgeBases then s.version + 1 else s.version)
  }

  /** How many turns a job summarizes: all but the newest `keep`, or all but one of a short list. */
  function SplitIndex(n: nat, keep: nat): nat {
    if n <= keep then (if n == 0 then 0 else n - 1) else n - keep
  }

  function JobOf(s: WarmState, keep: nat, oversize: bool): Option<SummaryJob> {
    var split := SplitIndex(|s.turns|, keep);
    if !oversize || split == 0 then None
    else Some(SummaryJob(s.summary, s.turns[..split], s.turns[split..], s.version))
  }

  /**
   Where a job is cut: everything before the newest `keep` turns, or before the
   last one of a list no longer than that.  An oversize state is cut as soon as
   something is left over on both sides (with `keep` 0, even from one turn).
   */
  lemma JobCutsAtRecent(s: WarmState, keep: nat, oversize: bool)
    ensures var job := JobOf(s, keep, oversize);
      && (job.Some? <==> oversize && (|s.turns| >= 2 || |s.turns| > keep))
      && (job.Some? ==> CutOf(s, keep, job.value))
  {
    var job := JobOf(s, keep, oversize);
    if job.Some? {
      assert s.turns == job.value.toSummarize + job.value.recent;
    }
  }

  /** The job names this state's summary and version, and splits its turns before the newest `keep`, or before the last. */
  predicate CutOf(s: WarmState, keep: nat, job: SummaryJob) {
    && job.previous == s.summary && job.version == s.version
    && job.toSummarize + job.recent == s.turns
    && |job.recent| == if |s.turns| > keep then keep else 1
  }

  /**
   An append that brings nothing new leaves the version alone, so a job that was
   cut before can still be applied; any other append raises it by one.
   */
  lemma AppendRaisesVersion(s: WarmState, t: WarmTurn, kbs: set<string>, now: real)
    ensures var s' := Append(s, t, kbs, now);
      && s'.summary == s.summary && s'.through == s.through && s'.updatedAt == now
      && (forall kb :: kb in s'.knowledgeBases <==> kb in s.knowledgeBases || kb in kbs)
      && s'.version == if s'.turns == s.turns && kbs <= s.knowledgeBases then s.version else s.version + 1
  {
    AddedIffChanged(s, t);
    assert kbs <= s.knowledgeBases <==> s.knowledgeBases + kbs == s.knowledgeBases;
  }

  lemma {:induction false} InsertSortedGrows(turns: seq<WarmTurn>, t: WarmTurn)
    requires t.sequence.Some?
    ensures InsertSorted(turns, t) == turns || |InsertSorted(turns, t)| == |turns| + 1
  {
    if turns != [] {
      InsertSortedGrows(turns[1..], t);
    }
  }

  /** Appending reports a turn as added exactly when the list changed. */
  lemma AddedIffChanged(s: WarmState, t: WarmTurn)
    ensures Added(s, t) <==> InsertTurn(s.turns, s.through, t) != s.turns
  {
    if t.sequence.Some? {
      InsertSortedGrows(s.turns, t);
    }
  }

  // ----- Applying a summary -----------------------------------------------------------

  /** The cursor a job advances to, unknown when it holds an unsequenced turn. */
  function ThroughSequence(turns: seq<WarmTurn>): Option<int> {
    if turns == [] || exists t :: t in turns && t.sequence.None? then None
    else Some(HighestSequence(turns, 0))
  }

  /** The text written for a job stands for everything summarized before and the job's turns. */
  function FallbackSummary(job: SummaryJob): seq<int> {
    job.previous + Sequences(job.toSummarize)
  }

  function ApplySummary(s: WarmState, job: SummaryJob, summary: seq<int>, now: real): Option<WarmState> {
    if s.version != job.version then None
    else
      var through := ThroughSequence(job.toSummarize);
      Some(WarmState(summary, if through.Some? then through.value else s.through, job.recent,
                     s.knowledgeBases, now, s.version + 1))
  }

  // ----- Replacing ----------------------------------------------------------------------

  datatype Snapshot = Snapshot(
    summary: seq<int>,
    through: int,
    turns: seq<WarmTurn>,
    knowledgeBases: set<string>,
    version: Option<int>)

  function FromDurable(d: Snapshot, now: real): WarmState {
    WarmState(d.summary, Max(0, d.through), d.turns, d.knowledgeBases, now,
              if d.version.Some? then d.version.value else |d.turns|)
  }

  predicate ReplaceRefused(existing: Option<WarmState>, d: Snapshot) {
    && existing.Some?
    && HighestSequence(existing.value.turns, existing.value.through) > HighestSequence(d.turns, d.through)
  }

  /** A stale snapshot never lowers the highest represented sequence. */
  lemma ReplaceNeverLowers(existing: WarmState, d: Snapshot, now: real)
    ensures var after := if ReplaceRefused(Some(existing), d) then existing else FromDurable(d, now);
      && HighestSequence(after.turns, after.through) >= HighestSequence(existing.turns, existing.through)
      && HighestSequence(after.turns, after.through)
           == Max(HighestSequence(existing.turns, existing.through), HighestSequence(d.turns, d.through))
  {
    NegativeCursor(d.turns, d.through);
  }

  lemma {:induction false} NegativeCursor(turns: seq<WarmTurn>, through: int)
    ensures HighestSequence(turns, Max(0, through)) == HighestSequence(turns, through)
  {
    if turns != [] {
      NegativeCursor(turns[..|turns| - 1], through);
    }
  }

  // ----- Summary application as a compare-and-swap ------------------------------------

  datatype WarmEvent =
    | AppendTurn(turn: WarmTurn, kbs: set<string>, oversize: bool, now: real)
    | ApplyJob(job: SummaryJob, summary: seq<int>, now: real)

  /** A conversation's warm state and every job ever cut from it. */
  datatype WarmRun = WarmRun(state: WarmState, jobs: set<SummaryJob>)

  function RunEvent(r: WarmRun, keep: nat, event: WarmEvent): WarmRun {
    match event
    case AppendTurn(turn, kbs, oversize, now) =>
      var s := Append(r.state, turn, kbs, now);
      var job := JobOf(s, keep, oversize);
      WarmRun(s, if Added(r.state, turn) && job.Some? then r.jobs + {job.value} else r.jobs)
    case ApplyJob(job, summary, now) =>
      var applied := ApplySummary(r.state, job, summary, now);
      if job in r.jobs && applied.Some? then r.(state := applied.value) else r
  }

  function RunEvents(r: WarmRun, keep: nat, events: seq<WarmEvent>): WarmRun {
    if events == [] then r
    else RunEvent(RunEvents(r, keep, events[..|events| - 1]), keep, events[|events| - 1])
  }

  ghost predicate JobsOk(r: WarmRun) {
    forall job :: job in r.jobs ==>
      && job.toSummarize != []
      && job.version <= r.state.version
      && (job.version == r.state.version ==>
            r.state.turns == job.toSummarize + job.recent && r.state.summary == job.previous)
  }

  lemma EventKeepsJobs(r: WarmRun, keep: nat, event: WarmEvent)
    requires JobsOk(r)
    ensures JobsOk(RunEvent(r, keep, event))
  {
    if event.AppendTurn? {
      AddedIffChanged(r.state, event.turn);
    }
  }

  /**
   Whatever appends and applications happened since a job was cut, in any
   order and by any worker, its version matches only while the turns are still
   exactly the prefix it summarized followed by its recent suffix.
   */
  lemma {:induction false} SwapIsCorrect(s: WarmState, keep: nat, events: seq<WarmEvent>)
    ensures JobsOk(RunEvents(WarmRun(s, {}), keep, events))
  {
    if events != [] {
      SwapIsCorrect(s, keep, events[..|events| - 1]);
      EventKeepsJobs(RunEvents(WarmRun(s, {}), keep, events[..|events| - 1]), keep, events[|events| - 1]);
    }
  }

  /** Every turn is sequenced, in strictly ascending order above the cursor. */
  ghost predicate Ordered(s: WarmState) {
    && s.through >= 0
    && Sequenced(s.turns)
    && Ascending(Sequences(s.turns))
    && AllAbove(Sequences(s.turns), s.through)
  }

  lemma {:induction false} AscendingHighest(turns: seq<WarmTurn>, through: int)
    requires Sequenced(turns) && through >= 0
    requires Ascending(Sequences(turns)) && AllAbove(Sequences(turns), through)
    ensures |Sequences(turns)| == |turns|
    ensures HighestSequence(turns, through) == if turns == [] then through else Sequences(turns)[|turns| - 1]
  {
    SequencesCount(turns);
    if turns != [] {
      var front, last := turns[..|turns| - 1], turns[|turns| - 1];
      assert last in turns;
      SequencesOfConcat(front, [last]);
      assert turns == front + [last];
      assert Sequences([last]) == [last.sequence.value];
      var xs, ys := Sequences(turns), Sequences(front);
      assert xs == ys + [last.sequence.value];
      SequencesCount(front);
      assert forall i :: 0 <= i < |ys| ==> ys[i] == xs[i];
      assert forall y :: y in ys ==> y in xs;
      assert last.sequence.value in xs;
      AscendingHighest(front, through);
    }
  }

  /**
   On a fully sequenced state, applying a job that still matches keeps every
   covered sequence covered, the order above the (advanced) cursor, and the
   highest sequence.
   */
  lemma ApplyKeepsCoverage(s: WarmState, job: SummaryJob, summary: seq<int>, now: real, target: int)
    requires Ordered(s) && job.version == s.version
    requires job.toSummarize != [] && s.turns == job.toSummarize + job.recent
    ensures var applied := ApplySummary(s, job, summary, now);
      && applied.Some?
      && Ordered(applied.value)
      && applied.value.through > s.through
      && (Covers(s, target) ==> Covers(applied.value, target))
      && HighestSequence(applied.value.turns, applied.value.through) == HighestSequence(s.turns, s.through)
  {
    hide Ascending, Sequences, HighestSequence, AllAbove, ThroughSequence;
    SplitOrdered(s, job.toSummarize, job.recent);
    var xs, ys := Sequences(job.toSummarize), Sequences(job.recent);
    assert forall e :: e in xs + ys ==> e <= xs[|xs| - 1] || e in ys;
  }

  /** Where an ordered list is cut: the last sequence of the front is the new cursor. */
  lemma SplitOrdered(s: WarmState, a: seq<WarmTurn>, b: seq<WarmTurn>)
    requires Ordered(s) && a != [] && s.turns == a + b
    ensures var xs, ys := Sequences(a), Sequences(b);
      && Sequences(s.turns) == xs + ys && xs != []
      && var last := xs[|xs| - 1];
      && ThroughSequence(a) == Some(last) && last > s.through && (forall x :: x in xs ==> x <= last)
      && Sequenced(b) && Ascending(ys) && AllAbove(ys, last)
      && HighestSequence(b, last) == HighestSequence(s.turns, s.through)
  {
    SequencesOfConcat(a, b);
    assert forall t :: t in a ==> t in s.turns;
    assert forall t :: t in b ==> t in s.turns;
    hide Ascending, Sequences, AllAbove, HighestSequence;
    SequencesCount(a);
    SequencesCount(b);
    var xs, ys := Sequences(a), Sequences(b);
    AscendingSplit(xs, ys, s.through);
    AscendingHighest(a, 0);
    AscendingHighest(b, xs[|xs| - 1]);
    AscendingHighest(s.turns, s.through);
  }

  lemma AscendingSplit(xs: seq<int>, ys: seq<int>, bound: int)
    requires xs != [] && Ascending(xs + ys) && AllAbove(xs + ys, bound) && bound >= 0
    ensures var last := xs[|xs| - 1];
      && Ascending(xs) && AllAbove(xs, 0) && last > bound
      && Ascending(ys) && AllAbove(ys, last)
      && forall x :: x in xs ==> x <= last
  {
    var all := xs + ys;
    assert forall i :: 0 <= i < |xs| ==> xs[i] == all[i];
    assert forall i :: 0 <= i < |ys| ==> ys[i] == all[|xs| + i];
    assert forall x :: x in xs ==> x in all;
    assert xs[|xs| - 1] in xs;
  }
}
