/**
 How the application drives a durable turn: begin and catch the warm copy up,
 stage and save the answer, then persist the warm summary if one was cut.
 */
module HistoryTurns {
  import opened Wrappers
  import opened HistoryModel
  import opened HistorySpec
  import opened HistoryInvariant
  import opened HistoryRuns
  import opened HistoryStore
  import opened WarmMemory
  import opened WarmStates
  import opened SummarySystem
  import opened Hydration
  import opened HydrationService
  import opened TurnService
  import opened Workers
  import OrderedDicts
  import WarmStore

  /** list(range(cursor + 2, through + 1, 2)) */
  method ExpectedSequences(cursor: int, through: int) returns (expected: seq<int>)
    ensures expected == Between(cursor, through)
  {
    expected := [];
    var next := cursor;
    while next + 2 <= through
      invariant expected + Between(next, through) == Between(cursor, through)
      decreases through - next
    {
      BetweenUnfolds(next, through);
      expected := expected + [next + 2];
      next := next + 2;
    }
  }

  // ----- What a reported save means ----------------------------------------------------------

  /** The transcript's messages of the turn are one pair, and the outcome reports them. */
  predicate Reports(pair: seq<Message>, req: CompleteRequest, value: CompleteOutcome) {
    && |pair| == 2 && pair[0].role == User && pair[1].role == Assistant
    && (value.Replayed? ==> value.messages == pair)
    && (value.Saved? ==>
          && value.pair == pair && value.assistantSequence == pair[1].sequence
          && pair[0].content == req.user && pair[1].content == req.assistant)
  }

  predicate PairSaved(db: Db, req: CompleteRequest, value: CompleteOutcome) {
    && FindTurn(db, req.scopeKey, req.turnId).Some?
    && var id := FindTurn(db, req.scopeKey, req.turnId).value;
    && Row(db, id, req.turnId).status == Complete
    && Reports(MessagesForTurn(db.conversations[id].messages, req.turnId), req, value)
  }

  lemma ReplayedPair(lim: Limits, db: Db, id: string, req: CompleteRequest)
    requires FindTurn(db, req.scopeKey, req.turnId) == Some(id) && ConversationOk(lim, db.conversations[id])
    requires Row(db, id, req.turnId).status == Complete
    ensures PairSaved(db, req, Replayed(MessagesForTurn(db.conversations[id].messages, req.turnId)))
  {
    hide ConversationOk, MessagesForTurn;
    OnePairPerTurn(lim, db.conversations[id], req.turnId);
  }

  /** An incomplete turn has no messages yet, so after the save it has exactly the new pair. */
  lemma SavedMessages(lim: Limits, c: Conversation, req: CompleteRequest, pair: seq<Message>)
    requires ConversationOk(lim, c) && req.turnId in c.turns && c.turns[req.turnId].status != Complete
    requires |pair| == 2 && pair[0].turnId == req.turnId && pair[1].turnId == req.turnId
    ensures MessagesForTurn(c.messages + pair, req.turnId) == pair
  {
    hide ConversationOk, MessagesForTurn;
    OnePairPerTurn(lim, c, req.turnId);
    MessagesOfConcat(c.messages, pair, req.turnId);
    OneMessage(pair[0], req.turnId);
    OneMessage(pair[1], req.turnId);
    MessagesOfConcat([pair[0]], [pair[1]], req.turnId);
    assert pair == [pair[0]] + [pair[1]];
    assert [] + pair == pair;
  }

  lemma SavedRow(db: Db, id: string, req: CompleteRequest, now: real)
    requires FindTurn(db, req.scopeKey, req.turnId) == Some(id)
    ensures var db' := Put(db, id, Save(db.conversations[id], req, now));
      && FindTurn(db', req.scopeKey, req.turnId) == Some(id)
      && Row(db', id, req.turnId).status == Complete
      && db'.conversations[id].messages
           == db.conversations[id].messages + Pair(req, NextSequence(db.conversations[id].messages))
  {
    hide NextSequence, Pair, Select, TurnBytes;
  }

  lemma PairFacts(req: CompleteRequest, next: int, count: int, bytes: int)
    ensures var pair := Pair(req, next);
      && pair[0].turnId == pair[1].turnId == req.turnId
      && Reports(pair, req, Saved(next, next + 1, count, bytes, pair))
  {
    hide Utf8Bytes;
  }

  lemma TurnIsThere(db: Db, id: string, req: CompleteRequest)
    requires FindTurn(db, req.scopeKey, req.turnId) == Some(id)
    ensures id in db.conversations && req.turnId in db.conversations[id].turns
  {}

  lemma SavedPair(lim: Limits, db: Db, id: string, req: CompleteRequest, now: real)
    requires FindTurn(db, req.scopeKey, req.turnId) == Some(id) && ConversationOk(lim, db.conversations[id])
    requires Row(db, id, req.turnId).status != Complete
    ensures var c, next := db.conversations[id], NextSequence(db.conversations[id].messages);
            var c' := Save(c, req, now);
            PairSaved(Put(db, id, c'), req, Saved(next, next + 1, c'.messageCount, c'.payloadBytes,
                                                   MessagesForTurn(c'.messages, req.turnId)))
  {
    hide ConversationOk, MessagesForTurn, NextSequence, Pair, Reports, Save, FindTurn;
    TurnIsThere(db, id, req);
    var c := db.conversations[id];
    var next := NextSequence(c.messages);
    PairFacts(req, next, Save(c, req, now).messageCount, Save(c, req, now).payloadBytes);
    SavedMessages(lim, c, req, Pair(req, next));
    SavedRow(db, id, req, now);
  }

  /**
   Whenever a completion commits, fresh or replayed, the turn is complete and
   its one pair is in the transcript; a fresh one holds exactly what was sent.
   */
  lemma CommittedCompletion(lim: Limits, db: Db, req: CompleteRequest, now: real)
    requires DbOk(lim, db)
    ensures match HistorySpec.CompleteTurn(lim, db, req, now)
            case Commit(db', value) => PairSaved(db', req, value)
            case Rollback(_) => true
  {
    hide DbOk, OverQuota, MessagesForTurn, TurnBytes, ContentFits, NextSequence, PairSaved, Save, ConversationOk;
    match FindTurn(db, req.scopeKey, req.turnId)
    case None =>
    case Some(id) =>
      ConversationOf(lim, db, id);
      if Row(db, id, req.turnId).status == Complete {
        ReplayedPair(lim, db, id, req);
      } else {
        SavedPair(lim, db, id, req, now);
      }
  }

  /** As long as the conversation is there, the saved pair is. */
  lemma SavedForGood(lim: Limits, ids: set<string>, saved: Db, db: Db, req: CompleteRequest, value: CompleteOutcome)
    requires DbOk(lim, saved) && PairSaved(saved, req, value)
    requires Later(lim, ids, saved, db) && saved.conversations.Keys <= ids
    ensures StillSaved(saved, db, req)
  {
    hide DbOk, Later, MessagesForTurn, Reports, Grown, ConversationOk;
    var id := FindTurn(saved, req.scopeKey, req.turnId).value;
    if id in db.conversations {
      LaterGrows(lim, ids, saved, db, id);
      LaterKeeps(lim, ids, saved, db);
      ConversationOf(lim, saved, id);
      ConversationOf(lim, db, id);
      PairIsPermanent(lim, saved.conversations[id], db.conversations[id], req.turnId);
    }
  }

  lemma CompletionKeepsKeys(lim: Limits, db: Db, req: CompleteRequest, now: real)
    ensures After(db, HistorySpec.CompleteTurn(lim, db, req, now)).conversations.Keys == db.conversations.Keys
  {
    hide OverQuota, MessagesForTurn, TurnBytes, ContentFits, NextSequence, Save;
  }

  /** The turn's messages are the ones saved, unless its conversation is gone. */
  predicate StillSaved(saved: Db, db: Db, req: CompleteRequest) {
    match FindTurn(saved, req.scopeKey, req.turnId)
    case None => false
    case Some(id) =>
      id in db.conversations ==>
        MessagesForTurn(db.conversations[id].messages, req.turnId)
          == MessagesForTurn(saved.conversations[id].messages, req.turnId)
  }

  /** A job that passes the guard advances an even cursor to an assistant sequence. */
  lemma GuardedCursorIsEven(job: SummaryJob, c: Conversation)
    requires EvenCursor(c) && JobFollows(job, c.summaryThrough)
    ensures var through := ThroughSequence(job.toSummarize);
            through.Some? && through.value >= 0 && through.value % 2 == 0
  {
    FollowsParity(job, c.summaryThrough);
  }

  /**
   What persisting a job does, from the state `start` of the call to `db`: only
   a job that follows the cursor of the row read at the call is swapped in, on
   the version read then, in the later state `before`.
   */
  ghost predicate PersistOutcome(lim: Limits, ids: set<string>, start: Db, before: Db, db: Db, scopeKey: string,
                                 job: SummaryJob, now: real, persisted: bool)
  {
    match ScopeRow(start, scopeKey)
    case None => !persisted && db == start
    case Some(row) =>
      if !JobFollows(job, row.1.summaryThrough) then !persisted && Later(lim, ids, start, db)
      else
        && Later(lim, ids, start, before)
        && var tx := HistorySpec.UpdateSummary(before, scopeKey, FallbackSummary(job), row.1.summaryVersion,
                                               ThroughSequence(job.toSummarize).value, now);
        && tx.Commit? && tx.value == persisted
        && Later(lim, ids, tx.db, db)
  }

  /** Alone, a persisted job is applied to the copy it was cut from, and anything else rebuilds the copy. */
  ghost predicate AppliesAlone(db: Db, d: WarmStore.Store, db': Db, d': WarmStore.Store, scopeKey: string,
                               job: SummaryJob, persisted: bool, ttl: real, now: real)
  {
    var live := WarmStore.Purged(d, ttl, now);
    if persisted && scopeKey in live.items && live.items[scopeKey].version == job.version then
      db' == db && d' == WarmStore.ApplyIn(d, scopeKey, job, FallbackSummary(job), ttl, now)
    else RebuildsAlone(db, if persisted then live else d, db', d', scopeKey, ttl, now)
  }

  ghost predicate RebuildsAlone(db: Db, d: WarmStore.Store, db': Db, d': WarmStore.Store, scopeKey: string, ttl: real,
                                now: real)
  {
    exists rebuilt, read :: RehydratesAlone(db, d, db', d', scopeKey, scopeKey, ttl, now, rebuilt, read)
  }

  /** Alone, persisting a job runs guard, swap and application one after the other on what it finds. */
  ghost predicate PersistsAlone(db: Db, d: WarmStore.Store, db': Db, d': WarmStore.Store, scopeKey: string,
                                job: SummaryJob, ttl: real, now: real, persisted: bool)
  {
    match ScopeRow(db, scopeKey)
    case None => !persisted && db' == db && d' == d
    case Some(row) =>
      if !JobFollows(job, row.1.summaryThrough) then !persisted && RebuildsAlone(db, d, db', d', scopeKey, ttl, now)
      else
        var tx := HistorySpec.UpdateSummary(db, scopeKey, FallbackSummary(job), row.1.summaryVersion,
                                            ThroughSequence(job.toSummarize).value, now);
        persisted && tx.Commit? && tx.value && AppliesAlone(tx.db, d, db', d', scopeKey, job, persisted, ttl, now)
  }

  /** The states of one completion: marked, completed, and acted on afterwards. */
  datatype CompletionTrace = CompletionTrace(
    marking: Db,
    before: Db,
    warm: WarmStore.Store,
    completed: Db,
    acted: Db,
    persisted: bool)

  /** Before the completion, the row was marked under the turn's token, if the pending store took the result. */
  ghost predicate StagedFirst(lim: Limits, ids: set<string>, start: Db, marking: Db, before: Db, req: CompleteRequest,
                              digest: string, now: real, accepts: bool)
  {
    accepts && req.scopeKey != "" && req.turnId != "" && req.token != "" ==>
      && Later(lim, ids, start, marking)
      && Later(lim, ids, After(marking, MarkReady(marking, req.scopeKey, req.turnId, req.token, digest, now)), before)
  }

  function TurnSaved(req: CompleteRequest, value: CompleteOutcome): WarmTurn
    requires value.Saved?
  {
    WarmTurn(req.user, req.assistant, Some(value.assistantSequence))
  }

  /**
   A new pair is appended to the copy found, and the job this cuts goes through
   the guard and the swap; `d` is what the memory store holds at the end.
   */
  ghost predicate SummarizedAfter(lim: Limits, ids: set<string>, m: WarmStore.ConversationMemoryStore, req: CompleteRequest,
                                  kbs: set<string>, now: real, value: CompleteOutcome, trace: CompletionTrace, db: Db,
                                  d: WarmStore.Store)
  {
    value.Saved? && req.scopeKey != "" ==>
      var t := TurnSaved(req, value);
      var job := WarmStore.AppendJob(trace.warm, req.scopeKey, t, kbs, m.ttl, m.keep, m.oversize, now);
      && LaterWarm(m.ttl, m.max, WarmStore.AppendIn(trace.warm, req.scopeKey, t, kbs, m.ttl, m.max, now), d)
      && (job.Some? ==>
            PersistOutcome(lim, ids, trace.completed, trace.acted, db, req.scopeKey, job.value, now, trace.persisted))
  }

  /** Alone, appending and persisting follow the completion directly. */
  ghost predicate SummarizesAlone(m: WarmStore.ConversationMemoryStore, req: CompleteRequest, kbs: set<string>, now: real,
                                  value: CompleteOutcome, trace: CompletionTrace, db: Db, d: WarmStore.Store)
  {
    value.Saved? && req.scopeKey != "" ==>
      var t := TurnSaved(req, value);
      var job := WarmStore.AppendJob(trace.warm, req.scopeKey, t, kbs, m.ttl, m.keep, m.oversize, now);
      var appended := WarmStore.AppendIn(trace.warm, req.scopeKey, t, kbs, m.ttl, m.max, now);
      if job.None? then db == trace.completed && d == appended
      else PersistsAlone(trace.completed, appended, db, d, req.scopeKey, job.value, m.ttl, now, trace.persisted)
  }

  /** What staging first leaves of the database when nobody else is active. */
  function MarkedAlone(db: Db, req: CompleteRequest, digest: string, now: real, accepts: bool): Db {
    if accepts && req.scopeKey != "" && req.turnId != "" && req.token != ""
    then After(db, MarkReady(db, req.scopeKey, req.turnId, req.token, digest, now)) else db
  }

  lemma AppendIsLater(ttl: real, max: nat, d: WarmStore.Store, scopeKey: string, t: WarmTurn, kbs: set<string>, now: real)
    requires scopeKey != ""
    ensures LaterWarm(ttl, max, d, WarmStore.AppendIn(d, scopeKey, t, kbs, ttl, max, now))
  {
    hide LaterWarm, WarmStore.AppendIn;
    WarmReflexive(ttl, max, d);
    WarmStep(ttl, max, d, d, CallAppend(scopeKey, t, kbs, now));
  }

  ghost predicate FailedAfter(lim: Limits, ids: set<string>, before: Db, acted: Db, db: Db, req: CompleteRequest, now: real,
                              error: HistoryError)
  {
    if error == TurnConflict || req.token == "" then db == before
    else Later(lim, ids, before, acted) && db == After(acted, Fail(acted, req.scopeKey, req.turnId, req.token, now))
  }

  /**
   Alone, what a begin does to the warm copy: nothing when there is nothing to
   generate or replay, and otherwise it finds it current or rebuilds it, unless
   it is ahead of the row; a saved pair is replayed over a copy rebuilt anyway.
   */
  ghost predicate SyncedAlone(reply: BeginReply, begun: Db, d: WarmStore.Store, d': WarmStore.Store, scopeKey: string,
                              ttl: real, now: real, current: bool, checked: WarmStore.Store, rebuilt: bool)
  {
    if reply.Refused? || reply.Raised? || reply.VolatileResultLost? || scopeKey == ""
       || ScopeRow(begun, scopeKey).None? then
      !current && !rebuilt && d' == d
    else
      var live, c := WarmStore.Purged(d, ttl, now), ScopeRow(begun, scopeKey).value.1;
      && checked == live
      && (current <==> Current(live, scopeKey, c))
      && (rebuilt <==> !Ahead(live, scopeKey, c) && (reply.SavedReply? || !current))
  }

  // ----- The application's functions --------------------------------------------------------------

  class HistoryTurnFlow {
    const turns: TurnLifecycle

    constructor (turns: TurnLifecycle)
      ensures this.turns == turns
    {
      this.turns := turns;
    }

    /**
     A job is persisted only if it follows the cursor of the row read at the
     call, by a compare-and-swap on the version read then, run on the later
     state `before`; any other job only causes a rebuild of the warm copy.
     */
    method PersistHistorySummary(scopeKey: string, job: SummaryJob, now: real, ids: set<string>)
      returns (persisted: bool, ghost before: Db)
      requires turns.service.Valid()
      modifies turns.service.history`db, turns.service.memory`conversations
      ensures turns.service.Valid()
      ensures PersistOutcome(turns.service.history.lim, ids, old(turns.service.history.db), before, turns.service.history.db,
                             scopeKey, job, now, persisted)
      ensures Later(turns.service.history.lim, ids, old(turns.service.history.db), turns.service.history.db)
      ensures var m := turns.service.memory; LaterWarm(m.ttl, m.max, old(m.conversations), m.conversations)
      ensures turns.service.alone ==>
        var m := turns.service.memory;
        && before == old(turns.service.history.db)
        && PersistsAlone(old(turns.service.history.db), old(m.conversations), turns.service.history.db, m.conversations,
                         scopeKey, job, m.ttl, now, persisted)
    {
      hide DbOk, CursorsEven, Later, LaterWarm, HistorySpec.UpdateSummary, FallbackSummary, OrderedDicts.Valid,
           JobFollows, ScopeRow, RehydratesAlone, AppliesAlone;
      var service := turns.service;
      var history, memory := service.history, service.memory;
      before := history.db;
      LaterReflexive(history.lim, ids, history.db);
      WarmReflexive(memory.ttl, memory.max, memory.conversations);
      var row := history.GetByScopeKey(scopeKey);
      if row.None? {
        return false, before;
      }
      RowIsEven(history.db, scopeKey);
      var follows := Follows(job, row.value.1.summaryThrough);
      if !follows {
        var _, _ := service.RehydrateForPrompt(scopeKey, scopeKey, now, ids);
        return false, before;
      }
      GuardedCursorIsEven(job, row.value.1);
      var through := ThroughSequence(job.toSummarize).value;
      GuardedJobAdvances(job, row.value.1.summaryThrough);
      OwnRowSwaps(history.db, scopeKey, FallbackSummary(job), through, now);
      service.OthersCommit(ids);
      before := history.db;
      persisted := history.UpdateSummary(scopeKey, FallbackSummary(job), row.value.1.summaryVersion, through, now);
      SummaryIsLater(history.lim, ids, old(history.db), old(history.db), before, scopeKey, FallbackSummary(job),
                     row.value.1.summaryVersion, through, now);
      RefusedSummary(before, scopeKey, FallbackSummary(job), row.value.1.summaryVersion, through, now);
      LaterKeeps(history.lim, ids, before, history.db);
      LaterReflexive(history.lim, ids, history.db);
      ghost var swapped := history.db;
      ApplyOrRebuild(scopeKey, job, persisted, now, ids);
      LaterTransitive(history.lim, ids, old(history.db), swapped, history.db);
    }

    /** A job that passes the guard goes beyond the cursor. */
    static lemma GuardedJobAdvances(job: SummaryJob, cursor: int)
      requires JobFollows(job, cursor)
      ensures ThroughSequence(job.toSummarize).Some? && ThroughSequence(job.toSummarize).value > cursor
    {}

    /** The guard, written out as the application computes it. */
    method Follows(job: SummaryJob, cursor: int) returns (follows: bool)
      ensures follows <==> JobFollows(job, cursor)
    {
      var through := WarmStore.JobThroughSequence(job.toSummarize);
      if through.None? || through.value <= cursor {
        return false;
      }
      var expected := ExpectedSequences(cursor, through.value);
      return Sequences(job.toSummarize) == expected;
    }

    /** After the swap: apply the job to the warm copy, or rebuild the copy if either failed. */
    method ApplyOrRebuild(scopeKey: string, job: SummaryJob, persisted: bool, now: real, ids: set<string>)
      requires turns.service.Valid()
      modifies turns.service.history`db, turns.service.memory`conversations
      ensures turns.service.Valid()
      ensures Later(turns.service.history.lim, ids, old(turns.service.history.db), turns.service.history.db)
      ensures var m := turns.service.memory; LaterWarm(m.ttl, m.max, old(m.conversations), m.conversations)
      ensures turns.service.alone ==>
        var m := turns.service.memory;
        AppliesAlone(old(turns.service.history.db), old(m.conversations), turns.service.history.db, m.conversations,
                     scopeKey, job, persisted, m.ttl, now)
    {
      hide DbOk, CursorsEven, Later, LaterWarm, FallbackSummary, OrderedDicts.Valid, RehydratesAlone, WarmStore.Purged,
           WarmStates.ApplySummary, OrderedDicts.Touch, OrderedDicts.Set;
      var service := turns.service;
      var memory := service.memory;
      LaterReflexive(service.history.lim, ids, service.history.db);
      if persisted {
        service.OthersRemember();
        ghost var found := memory.conversations;
        var applied := memory.ApplySummary(scopeKey, job, FallbackSummary(job), now);
        WarmStep(memory.ttl, memory.max, old(memory.conversations), found,
                 CallApply(scopeKey, job, FallbackSummary(job), now));
        if applied {
          return;
        }
        ghost var stale := memory.conversations;
        StaleJobPurges(found, scopeKey, job, memory.ttl, now);
        var _, _ := service.RehydrateForPrompt(scopeKey, scopeKey, now, ids);
        WarmTransitive(memory.ttl, memory.max, old(memory.conversations), stale, memory.conversations);
      } else {
        var _, _ := service.RehydrateForPrompt(scopeKey, scopeKey, now, ids);
      }
    }

    /** A job whose version is gone only purges. */
    static lemma StaleJobPurges(d: WarmStore.Store, scopeKey: string, job: SummaryJob, ttl: real, now: real)
      requires var live := WarmStore.Purged(d, ttl, now);
               !(scopeKey in live.items && live.items[scopeKey].version == job.version)
      ensures WarmStore.ApplyIn(d, scopeKey, job, FallbackSummary(job), ttl, now) == WarmStore.Purged(d, ttl, now)
    {
      hide WarmStore.Purged;
    }

    /**
     Stages, saves, and only then summarizes.  `saved` is reported exactly for a
     completion that commits on the later state `before`, and then the pair it
     saved is still in the database at the end, as long as its conversation is,
     and a job cut by the append is persisted or refused by its guard.  A
     conflict leaves the database alone; any other error fails the turn under
     its own token.  Alone, each step runs on what the one before left.
     */
    method CompleteHistoryTurn(req: CompleteRequest, result: string, warmKbs: set<string>, now: real, ids: set<string>,
                               accepts: bool)
      returns (saved: bool, ghost trace: CompletionTrace)
      requires turns.Valid()
      modifies turns.service.history`db, turns.service.memory`conversations, turns.pending
      ensures turns.Valid() && Later(turns.service.history.lim, ids, old(turns.service.history.db), trace.before)
      ensures StagedFirst(turns.service.history.lim, ids, old(turns.service.history.db), trace.marking, trace.before, req,
                          turns.digestOf(result), now, accepts)
      ensures var lim, db := turns.service.history.lim, turns.service.history.db;
              var kept := ids + trace.before.conversations.Keys;
              var tx := HistorySpec.CompleteTurn(lim, trace.before, req, now);
        && (saved <==> tx.Commit?)
        && Later(lim, kept, After(trace.before, tx), db)
        && (saved ==> PairSaved(tx.db, req, tx.value) && StillSaved(tx.db, db, req))
        && Later(lim, kept, After(trace.before, tx), trace.completed)
        && (saved ==> SummarizedAfter(lim, kept, turns.service.memory, req, warmKbs, now, tx.value, trace, db,
                                      turns.service.memory.conversations))
        && (tx.Rollback? ==> FailedAfter(lim, kept, trace.before, trace.acted, db, req, now, tx.error))
      ensures var m := turns.service.memory;
        LaterWarm(m.ttl, m.max, old(m.conversations), trace.warm) && LaterWarm(m.ttl, m.max, trace.warm, m.conversations)
      ensures turns.service.alone ==>
        var lim, m := turns.service.history.lim, turns.service.memory;
        var tx := HistorySpec.CompleteTurn(lim, trace.before, req, now);
        && trace.marking == old(turns.service.history.db) && trace.warm == old(m.conversations)
        && trace.before == MarkedAlone(trace.marking, req, turns.digestOf(result), now, accepts)
        && (saved && tx.value.Saved? ==> trace.completed == tx.db)
        && (saved ==> SummarizesAlone(m, req, warmKbs, now, tx.value, trace, turns.service.history.db, m.conversations))
        && (tx.Rollback? ==> trace.acted == trace.before && m.conversations == trace.warm)
    {
      hide DbOk, CursorsEven, Later, LaterWarm, HistorySpec.CompleteTurn, PairSaved, StillSaved, WarmStore.AppendIn,
           WarmStore.AppendJob, OrderedDicts.Valid, Injective, StagedFirst, PersistOutcome, Fail, PersistsAlone,
           RehydratesAlone, CaughtUp, MarkedAlone, AfterStages;
      var history, memory := turns.service.history, turns.service.memory;
      ghost var lim := history.lim;
      ghost var marking := StageFirst(req, result, now, ids, accepts);
      ghost var before := history.db;
      ghost var m1 := memory.conversations;
      var kept := ids + history.db.conversations.Keys;
      var outcome, job, warm, _, _ := turns.CompleteTurn(req, req.scopeKey, warmKbs, now, ids, []);
      WarmTransitive(memory.ttl, memory.max, old(memory.conversations), m1, warm);
      ghost var m2 := memory.conversations;
      WarmReflexive(memory.ttl, memory.max, m2);
      if outcome.Ok? && outcome.value.Saved? && req.scopeKey != "" {
        AppendIsLater(memory.ttl, memory.max, warm, req.scopeKey, TurnSaved(req, outcome.value), warmKbs, now);
      }
      ghost var after := After(before, HistorySpec.CompleteTurn(lim, before, req, now));
      ghost var completed := history.db;
      trace := CompletionTrace(marking, before, warm, completed, completed, false);
      if outcome.Err? {
        if outcome.error != TurnConflict {
          var _, acted := turns.FailTurn(req.scopeKey, req.turnId, req.token, now, kept, []);
          WarmTransitive(memory.ttl, memory.max, warm, m2, memory.conversations);
          trace := trace.(acted := acted);
          LaterTransitive(lim, kept, after, completed, history.db);
        }
        return false, trace;
      }
      if job.Some? {
        var persisted, acted := PersistHistorySummary(req.scopeKey, job.value, now, kept);
        trace := trace.(acted := acted, persisted := persisted);
        WarmTransitive(memory.ttl, memory.max, warm, m2, memory.conversations);
        LaterTransitive(lim, kept, after, completed, history.db);
      }
      CommittedCompletion(lim, before, req, now);
      CompletionKeepsKeys(lim, before, req, now);
      CompleteIsLater(lim, kept, before, req, now);
      SavedForGood(lim, kept, after, history.db, req, outcome.value);
      return true, trace;
    }

    /** The result is staged when the turn still has a token; the answer is only logged. */
    method StageFirst(req: CompleteRequest, result: string, now: real, ids: set<string>, accepts: bool)
      returns (ghost marking: Db)
      requires turns.Valid()
      modifies turns.service.history`db, turns.service.memory`conversations, turns.pending
      ensures turns.Valid()
      ensures Later(turns.service.history.lim, ids, old(turns.service.history.db), turns.service.history.db)
      ensures StagedFirst(turns.service.history.lim, ids, old(turns.service.history.db), marking, turns.service.history.db,
                          req, turns.digestOf(result), now, accepts)
      ensures var m := turns.service.memory; LaterWarm(m.ttl, m.max, old(m.conversations), m.conversations)
      ensures turns.service.alone ==>
        && turns.service.memory.conversations == old(turns.service.memory.conversations)
        && marking == old(turns.service.history.db)
        && turns.service.history.db == MarkedAlone(marking, req, turns.digestOf(result), now, accepts)
    {
      hide DbOk, CursorsEven, Later, LaterWarm, OrderedDicts.Valid, Injective, MarkReady, AfterStages;
      var history, memory := turns.service.history, turns.service.memory;
      WarmReflexive(memory.ttl, memory.max, memory.conversations);
      LaterReflexive(history.lim, ids, history.db);
      marking := history.db;
      if req.token != "" {
        var _, m := turns.StageResult(req.scopeKey, req.turnId, req.token, result, turns.digestOf(result), now, ids, [],
                                      accepts);
        marking := m;
        ghost var staged, m1 := history.db, memory.conversations;
        var others: seq<StageCall> := *;
        turns.Others(ids, others);
        WarmTransitive(memory.ttl, memory.max, old(memory.conversations), m1, memory.conversations);
        LaterTransitive(history.lim, ids, old(history.db), staged, history.db);
      }
    }

    /**
     Answers exactly as the service does, leaving the database `begun`, and a
     turn that will be generated or replayed has its warm copy synchronized
     first: `current` says it covered the row of `begun` at the check, `rebuilt`
     that it covers a row of `read` now.  Alone, one of the two holds exactly
     when there is a row and the copy is not ahead of it.
     */
    method BeginHistoryTurn(call: BeginCall, ids: set<string>)
      returns (reply: BeginReply, ghost before: Db, ghost lost: Db, ghost begun: Db,
               ghost current: bool, ghost checked: WarmStore.Store, ghost rebuilt: bool, ghost read: Db)
      requires turns.Valid() && call.newId !in ids
      modifies turns.service.history`db, turns.service.memory`conversations, turns.pending
      ensures turns.Valid()
      ensures Later(turns.service.history.lim, ids, old(turns.service.history.db), before)
      ensures Answers(turns.service.history.lim, turns.digestOf, ids, call, reply, old(turns.pending.records),
                      turns.pending.records, before, lost, begun)
      ensures Later(turns.service.history.lim, ids, begun, turns.service.history.db)
      ensures reply.Refused? || reply.Raised? || reply.VolatileResultLost? ==>
                !current && !rebuilt && turns.service.history.db == begun
      ensures current ==>
                && ScopeRow(begun, call.req.scopeKey).Some? && call.req.scopeKey in checked.items
                && Covers(checked.items[call.req.scopeKey], ScopeRow(begun, call.req.scopeKey).value.1.messageCount)
      ensures rebuilt && turns.service.memory.max >= 1 ==>
                && Later(turns.service.history.lim, ids, begun, read)
                && ScopeRow(read, call.req.scopeKey).Some?
                && CaughtUp(turns.service.memory.conversations, turns.service.memory.keep, call.req.scopeKey,
                            ScopeRow(read, call.req.scopeKey).value.1)
      ensures var m := turns.service.memory;
        LaterWarm(m.ttl, m.max, old(m.conversations), checked) && LaterWarm(m.ttl, m.max, checked, m.conversations)
      ensures turns.service.alone ==>
        var m := turns.service.memory;
        && before == Cleanup(turns.service.history.lim, old(turns.service.history.db), call.now)
        && SyncedAlone(reply, begun, old(m.conversations), m.conversations, call.req.scopeKey, m.ttl, call.now, current,
                       checked, rebuilt)
    {
      hide DbOk, CursorsEven, Later, LaterWarm, CaughtUp, Covers, Answers, ScopeRow, OrderedDicts.Valid, Injective,
           RecordsOk, Ahead, Current, WarmStore.Purged, Cleanup, Reach;
      var service, scopeKey := turns.service, call.req.scopeKey;
      ghost var lim := service.history.lim;
      var answered, b, l := turns.BeginTurn(call, ids);
      reply, before, lost, begun := answered, b, l, service.history.db;
      current, checked, rebuilt, read := false, service.memory.conversations, false, begun;
      WarmReflexive(service.memory.ttl, service.memory.max, checked);
      ghost var m1 := service.memory.conversations;
      LaterReflexive(lim, ids, begun);
      if reply.Refused? || reply.Raised? || reply.VolatileResultLost? {
        return;
      }
      var synced, cur, seen, row := service.SyncForPrompt(scopeKey, scopeKey, call.now, ids);
      WarmTransitive(service.memory.ttl, service.memory.max, old(service.memory.conversations), m1, seen);
      current, checked, rebuilt, read := cur, seen, synced, row;
      if reply.SavedReply? {
        ghost var mid, m2 := service.history.db, service.memory.conversations;
        var again, late := service.RehydrateForPrompt(scopeKey, scopeKey, call.now, ids);
        LaterTransitive(lim, ids, begun, mid, late);
        LaterTransitive(lim, ids, begun, mid, service.history.db);
        WarmTransitive(service.memory.ttl, service.memory.max, seen, m2, service.memory.conversations);
        if service.alone && ScopeRow(begun, scopeKey).Some? && scopeKey != "" {
          ConversationService.StillAhead(mid, scopeKey, ScopeRow(begun, scopeKey).value.1,
                                         WarmStore.Purged(m2, service.memory.ttl, call.now), scopeKey);
        }
        rebuilt, read := again, late;
      }
    }
  }
}
