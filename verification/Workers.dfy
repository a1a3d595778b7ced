/**
 The other workers of a deployment: what any number of their transactions and
 memory calls may have done between two steps of this one.
 */
module Workers {
  import opened Wrappers
  import opened HistoryModel
  import opened HistorySpec
  import opened HistoryInvariant
  import opened HistoryEvolution
  import opened HistoryRuns
  import opened HistoryStore
  import opened WarmMemory
  import opened WarmStates
  import OrderedDicts
  import WarmStore

  // ----- Cursors stand on assistant messages --------------------------------------------

  predicate EvenCursor(c: Conversation) {
    c.summaryThrough >= 0 && c.summaryThrough % 2 == 0
  }

  ghost predicate CursorsEven(db: Db) {
    forall id :: id in db.conversations ==> EvenCursor(db.conversations[id])
  }

  /** The application's summary writers only pass assistant sequences. */
  predicate EvenStep(step: Step) {
    step.DoSummary? ==> step.through >= 0 && step.through % 2 == 0
  }

  lemma EvenStepKeeps(lim: Limits, db: Db, step: Step, now: real)
    requires CursorsEven(db) && EvenStep(step)
    ensures CursorsEven(Apply(lim, db, step, now))
  {
    var db' := Apply(lim, db, step, now);
    if !step.DoSummary? {
      hide Apply;
      forall id | id in db'.conversations
        ensures EvenCursor(db'.conversations[id])
      {
        OnlySummariesSwap(lim, db, step, now, id);
      }
    }
  }

  // ----- Runs of other workers --------------------------------------------------------------

  /** Fresh ids never repeat one of `ids`, and every summary written is even. */
  ghost predicate Admissible(events: seq<Event>, ids: set<string>) {
    && (forall e :: e in events ==> EvenStep(e.step))
    && (forall id :: id in ids ==> NeverCreates(events, id))
  }

  /** Some admissible run leads from one state to the other. */
  ghost predicate Later(lim: Limits, ids: set<string>, db: Db, db': Db) {
    exists events :: Admissible(events, ids) && db' == Run(lim, db, events)
  }

  lemma {:induction false} RunJoins(lim: Limits, db: Db, a: seq<Event>, b: seq<Event>)
    ensures Run(lim, Run(lim, db, a), b) == Run(lim, db, a + b)
    decreases |b|
  {
    hide Apply;
    if b == [] {
      assert a + b == a;
    } else {
      RunJoins(lim, db, a, b[..|b| - 1]);
      assert (a + b)[..|a + b| - 1] == a + b[..|b| - 1];
    }
  }

  lemma OneEvent(lim: Limits, db: Db, step: Step, now: real)
    ensures Run(lim, db, [Event(step, now)]) == Apply(lim, db, step, now)
  {
    hide Apply;
    assert [Event(step, now)][..0] == [];
    assert Run(lim, db, []) == db;
  }

  lemma LaterReflexive(lim: Limits, ids: set<string>, db: Db)
    ensures Later(lim, ids, db, db)
  {
    assert Admissible([], ids) && Run(lim, db, []) == db;
  }

  lemma LaterTransitive(lim: Limits, ids: set<string>, a: Db, b: Db, c: Db)
    requires Later(lim, ids, a, b) && Later(lim, ids, b, c)
    ensures Later(lim, ids, a, c)
  {
    hide Run;
    var first :| Admissible(first, ids) && b == Run(lim, a, first);
    var second :| Admissible(second, ids) && c == Run(lim, b, second);
    RunJoins(lim, a, first, second);
    assert Admissible(first + second, ids);
  }

  lemma LaterStep(lim: Limits, ids: set<string>, db: Db, step: Step, now: real)
    requires EvenStep(step) && (step.DoBegin? ==> step.newId !in ids)
    ensures Later(lim, ids, db, Apply(lim, db, step, now))
  {
    hide Run, Apply;
    OneEvent(lim, db, step, now);
    assert Admissible([Event(step, now)], ids);
  }

  lemma LaterNarrow(lim: Limits, ids: set<string>, fewer: set<string>, db: Db, db': Db)
    requires Later(lim, ids, db, db') && fewer <= ids
    ensures Later(lim, fewer, db, db')
  {
    hide Run;
    var events :| Admissible(events, ids) && db' == Run(lim, db, events);
    assert Admissible(events, fewer);
  }

  lemma {:induction false} EvenRunKeeps(lim: Limits, db: Db, events: seq<Event>)
    requires CursorsEven(db) && forall e :: e in events ==> EvenStep(e.step)
    ensures CursorsEven(Run(lim, db, events))
    decreases |events|
  {
    hide Apply, CursorsEven;
    if events != [] {
      var before, last := events[..|events| - 1], events[|events| - 1];
      assert last in events;
      EvenRunKeeps(lim, db, before);
      EvenStepKeeps(lim, Run(lim, db, before), last.step, last.now);
    }
  }

  /** From the empty database every cursor stays even, and every invariant holds. */
  lemma EvenReachable(lim: Limits, events: seq<Event>)
    requires forall e :: e in events ==> EvenStep(e.step)
    ensures DbOk(lim, Run(lim, EmptyDb, events)) && CursorsEven(Run(lim, EmptyDb, events))
  {
    hide Run, DbOk;
    ReachableOk(lim, events);
    EvenRunKeeps(lim, EmptyDb, events);
  }

  lemma LaterKeeps(lim: Limits, ids: set<string>, db: Db, db': Db)
    requires Later(lim, ids, db, db')
    ensures DbOk(lim, db) ==> DbOk(lim, db')
    ensures CursorsEven(db) ==> CursorsEven(db')
  {
    hide Run, DbOk, CursorsEven;
    var events :| Admissible(events, ids) && db' == Run(lim, db, events);
    if DbOk(lim, db) {
      RunKeeps(lim, db, events);
    }
    if CursorsEven(db) {
      EvenRunKeeps(lim, db, events);
    }
  }

  /** A conversation that is still there is the same one, grown. */
  lemma LaterGrows(lim: Limits, ids: set<string>, db: Db, db': Db, id: string)
    requires Later(lim, ids, db, db') && id in ids && id in db'.conversations
    ensures id in db.conversations && Grown(db.conversations[id], db'.conversations[id])
  {
    hide Run, Grown;
    var events :| Admissible(events, ids) && db' == Run(lim, db, events);
    ConversationGrows(lim, db, events, id);
  }

  /** Every public method of the store is one step of a run. */
  method Perform(history: ConversationHistoryStore, step: Step, now: real)
    requires history.Valid()
    modifies history`db
    ensures history.Valid() && history.db == Apply(history.lim, old(history.db), step, now)
  {
    hide DbOk, Begin, Recover, MarkReady, Renew, Fail, CompleteTurn, Cleanup, ResetContinuity, UpdateConversation,
         UpdateSummary, Delete, DeleteWithCleanup, DeleteByKnowledgeBase, CompleteArtifactCleanup;
    match step {
      case DoBegin(req, token, newId) => var _ := history.BeginTurn(req, now, token, newId);
      case DoRecover(s, t, fp, expected, token) => var _ := history.RecoverReadyTurn(s, t, fp, expected, now, token);
      case DoMarkReady(s, t, token, digest) => var _ := history.MarkTurnReady(s, t, token, digest, now);
      case DoComplete(req) => var _ := history.CompleteTurn(req, now);
      case DoRenew(s, t, token) => var _ := history.RenewTurnLease(s, t, token, now);
      case DoFail(s, t, token) => var _ := history.FailTurn(s, t, token, now);
      case DoReset(id) => var _ := history.ResetContinuity(id, now);
      case DoUpdate(id, archived) => var _ := history.UpdateConversation(id, archived, now);
      case DoSummary(s, summary, version, through) => var _ := history.UpdateSummary(s, summary, version, through, now);
      case DoCleanup => history.CleanupExpired(now);
      case DoDelete(id) => var _ := history.Delete(id);
      case DoDeleteWithCleanup(id) => var _, _ := history.DeleteWithArtifactCleanup(id);
      case DoDeleteByKnowledgeBase(kb) => var _, _ := history.DeleteByKnowledgeBaseWithCleanup(kb);
      case DoAcknowledge(key) => var _ := history.CompleteArtifactCleanup(key);
    }
  }

  /** Any number of transactions by other workers, none of which reuses one of the ids. */
  method OthersCommit(history: ConversationHistoryStore, ids: set<string>)
    requires history.Valid()
    modifies history`db
    ensures history.Valid() && Later(history.lim, ids, old(history.db), history.db)
  {
    hide DbOk, Apply, Later;
    LaterReflexive(history.lim, ids, history.db);
    var left: nat := *;
    while left > 0
      invariant history.Valid() && Later(history.lim, ids, old(history.db), history.db)
    {
      var step: Step := *;
      var now: real := *;
      if EvenStep(step) && !(step.DoBegin? && step.newId in ids) {
        ghost var before := history.db;
        Perform(history, step, now);
        LaterStep(history.lim, ids, before, step, now);
        LaterTransitive(history.lim, ids, old(history.db), before, history.db);
      }
      left := left - 1;
    }
  }

  // ----- Memory calls of other workers ------------------------------------------------------

  datatype WarmCall =
    | CallAppend(id: string, turn: WarmTurn, kbs: set<string>, now: real)
    | CallApply(id: string, job: SummaryJob, summary: seq<int>, now: real)
    | CallReplace(id: string, snapshot: Snapshot, now: real)
    | CallHydrate(id: string, snapshot: Snapshot, now: real)
    | CallClear(id: string)
    | CallPurge(now: real)

  function AfterCall(ttl: real, max: nat, d: WarmStore.Store, call: WarmCall): WarmStore.Store {
    match call
    case CallAppend(id, t, kbs, now) => if id == "" then d else WarmStore.AppendIn(d, id, t, kbs, ttl, max, now)
    case CallApply(id, job, summary, now) => WarmStore.ApplyIn(d, id, job, summary, ttl, now)
    case CallReplace(id, snapshot, now) => if id == "" then d else WarmStore.ReplaceIn(d, id, snapshot, ttl, max, now)
    case CallHydrate(id, snapshot, now) => if id == "" then d else WarmStore.HydrateIn(d, id, snapshot, ttl, max, now)
    case CallClear(id) => if id == "" then d else OrderedDicts.Pop(d, id)
    case CallPurge(now) => WarmStore.Purged(d, ttl, now)
  }

  function AfterCalls(ttl: real, max: nat, d: WarmStore.Store, calls: seq<WarmCall>): WarmStore.Store {
    if calls == [] then d
    else AfterCall(ttl, max, AfterCalls(ttl, max, d, calls[..|calls| - 1]), calls[|calls| - 1])
  }

  /** Some calls lead from one dictionary to the other. */
  ghost predicate LaterWarm(ttl: real, max: nat, d: WarmStore.Store, d': WarmStore.Store) {
    exists calls :: d' == AfterCalls(ttl, max, d, calls)
  }

  lemma {:induction false} CallsJoin(ttl: real, max: nat, d: WarmStore.Store, a: seq<WarmCall>, b: seq<WarmCall>)
    ensures AfterCalls(ttl, max, AfterCalls(ttl, max, d, a), b) == AfterCalls(ttl, max, d, a + b)
  {
    hide AfterCall;
    if b == [] {
      assert a + b == a;
    } else {
      CallsJoin(ttl, max, d, a, b[..|b| - 1]);
      assert (a + b)[..|a + b| - 1] == a + b[..|b| - 1];
    }
  }

  lemma WarmReflexive(ttl: real, max: nat, d: WarmStore.Store)
    ensures LaterWarm(ttl, max, d, d)
  {
    assert AfterCalls(ttl, max, d, []) == d;
  }

  lemma WarmTransitive(ttl: real, max: nat, a: WarmStore.Store, b: WarmStore.Store, c: WarmStore.Store)
    requires LaterWarm(ttl, max, a, b) && LaterWarm(ttl, max, b, c)
    ensures LaterWarm(ttl, max, a, c)
  {
    hide AfterCalls;
    var first :| b == AfterCalls(ttl, max, a, first);
    var second :| c == AfterCalls(ttl, max, b, second);
    CallsJoin(ttl, max, a, first, second);
  }

  lemma WarmStep(ttl: real, max: nat, a: WarmStore.Store, b: WarmStore.Store, call: WarmCall)
    requires LaterWarm(ttl, max, a, b)
    ensures LaterWarm(ttl, max, a, AfterCall(ttl, max, b, call))
  {
    hide AfterCall;
    assert [call][..0] == [] && AfterCalls(ttl, max, b, []) == b;
    assert AfterCalls(ttl, max, b, [call]) == AfterCall(ttl, max, b, call);
    WarmTransitive(ttl, max, a, b, AfterCall(ttl, max, b, call));
  }

  /** Any number of memory calls by other workers, and expiry or eviction at any moment. */
  method OthersRemember(memory: WarmStore.ConversationMemoryStore)
    requires OrderedDicts.Valid(memory.conversations)
    modifies memory`conversations
    ensures OrderedDicts.Valid(memory.conversations)
    ensures LaterWarm(memory.ttl, memory.max, old(memory.conversations), memory.conversations)
  {
    hide LaterWarm, OrderedDicts.Valid, WarmStore.AppendIn, WarmStore.ApplyIn, WarmStore.ReplaceIn, WarmStore.HydrateIn,
         WarmStore.Purged, OrderedDicts.Pop;
    WarmReflexive(memory.ttl, memory.max, memory.conversations);
    var left: nat := *;
    while left > 0
      invariant OrderedDicts.Valid(memory.conversations)
      invariant LaterWarm(memory.ttl, memory.max, old(memory.conversations), memory.conversations)
    {
      var call: WarmCall := *;
      ghost var before := memory.conversations;
      match call {
        case CallAppend(id, t, kbs, now) => var _ := memory.AppendTurn(id, t, kbs, now);
        case CallApply(id, job, summary, now) => var _ := memory.ApplySummary(id, job, summary, now);
        case CallReplace(id, snapshot, now) => var _ := memory.ReplaceFromDurable(id, snapshot, now);
        case CallHydrate(id, snapshot, now) => var _ := memory.HydrateIfAbsent(id, snapshot, now);
        case CallClear(id) => var _ := memory.Clear(id);
        case CallPurge(now) => memory.PurgeExpired(now);
      }
      WarmStep(memory.ttl, memory.max, old(memory.conversations), before, call);
      left := left - 1;
    }
  }
}
