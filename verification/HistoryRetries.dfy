/**
 Retrying a failed turn through a whole begin: when the partial unique index on
 the parent slot refuses it, with a reachable database on which it does.
 */
module HistoryRetries {
  import opened Wrappers
  import opened HistoryModel
  import opened HistorySpec
  import opened HistoryInvariant
  import opened HistoryRuns

  /** The scope's active conversation holds the failed turn on its current parent, while another turn is live. */
  predicate Collides(db: Db, req: BeginRequest) {
    match FindTurn(db, req.scopeKey, req.turnId)
    case None => false
    case Some(id) =>
      var c := db.conversations[id];
      var row := c.turns[req.turnId];
      && !c.archived
      && row.status == Failed
      && row.fingerprint == req.fingerprint
      && row.parent == c.lastTurn
      && HasLive(c)
  }

  /** The id drawn for a new scope is in use already. */
  ghost predicate IdTaken(lim: Limits, db: Db, req: BeginRequest, newId: string) {
    && req.scopeKey !in db.byScope
    && !NewScopeOverQuota(lim, db, req.scopeKey)
    && newId in db.conversations
  }

  /**
   A begin fails with an index error, which is not translated for the caller,
   exactly when the database its retention pass leaves makes the retry collide
   (or the id it drew for a new scope is taken).
   */
  lemma BeginCollidesIff(lim: Limits, db: Db, req: BeginRequest, now: real, token: string, newId: string)
    requires DbOk(lim, db)
    ensures Begin(lim, db, req, now, token, newId) == Rollback(UniqueViolation) <==>
              var cleaned := Cleanup(lim, db, now);
              ValidRequest(req) && (Collides(cleaned, req) || IdTaken(lim, cleaned, req, newId))
  {
    hide DbOk, ConversationOk, QuotasOk, Cleanup, BeginIn, Committed, HasLive;
    var cleaned := Cleanup(lim, db, now);
    CleanupKeeps(lim, db, now);
    assert IndexOk(cleaned) by {
      IndexOf(lim, cleaned);
    }
    if req.scopeKey in cleaned.byScope {
      BeginInCollidesIff(lim, cleaned, cleaned.byScope[req.scopeKey], req, now, token);
    } else if newId !in cleaned.conversations {
      FreshBeginNeverCollides(lim, cleaned, req, now, token, newId);
    }
  }

  lemma BeginInCollidesIff(lim: Limits, db: Db, id: string, req: BeginRequest, now: real, token: string)
    requires DbOk(lim, db) && id in db.conversations
    ensures BeginIn(lim, db, id, req, now, token) == Rollback(UniqueViolation) <==>
              var c := db.conversations[id];
              && req.turnId in c.turns
              && c.turns[req.turnId].status == Failed && c.turns[req.turnId].fingerprint == req.fingerprint
              && c.turns[req.turnId].parent == c.lastTurn && HasLive(c)
  {
    hide DbOk, ConversationOk, Associate, PendingRows, MessagesForTurn, SlotTaken;
    ConversationOf(lim, db, id);
    var c := db.conversations[id].(knowledgeBases := Associate(db.conversations[id].knowledgeBases, req.knowledgeBases));
    assert ConversationOk(lim, c) by {
      AssociationKeepsOk(lim, db.conversations[id], c.knowledgeBases);
    }
    assert HasLive(c) == HasLive(db.conversations[id]);
    hide HasLive;
    if req.turnId in c.turns {
      var row := c.turns[req.turnId];
      if row.status == Failed && row.parent == c.lastTurn {
        FailedRetryCollidesIff(lim, c, req.turnId, now, token);
      }
    }
  }

  lemma AssociationKeepsOk(lim: Limits, c: Conversation, kbs: map<string, bool>)
    requires ConversationOk(lim, c)
    ensures ConversationOk(lim, c.(knowledgeBases := kbs))
  {
    hide LayoutOk, RowsOk, ChainOk, SlotsOk;
  }

  lemma FreshBeginNeverCollides(lim: Limits, db: Db, req: BeginRequest, now: real, token: string, newId: string)
    requires req.scopeKey !in db.byScope && newId !in db.conversations
    ensures BeginCleaned(lim, db, req, now, token, newId) != Rollback(UniqueViolation)
  {
    hide PendingRows, Committed, Associate, SlotTaken;
  }

  // ----- A reachable collision ---------------------------------------------------------------

  /** The limits the application starts with. */
  const DEFAULT_LIMITS := Limits(200, 100, 2000, 33554432, 50000, 262144, 65536, 268435456, 90, 900, 7)

  function BeginRow(token: string): Turn {
    Turn(None, "request", Generating, None, Some(token), Some(900.0), 0.0)
  }

  function RetryDb(turns: map<string, Turn>): Db {
    Db(map["id" := NewConversation("scope", 0.0).(turns := turns)], map["scope" := "id"], map[])
  }

  function RetryRequest(turnId: string): BeginRequest {
    BeginRequest("scope", turnId, None, "request", [])
  }

  /** One turn begins and fails, a second one begins on the same parent. */
  const RETRY_EVENTS := [
    Event(DoBegin(RetryRequest("a"), "first", "id"), 0.0),
    Event(DoFail("scope", "a", "first"), 0.0),
    Event(DoBegin(RetryRequest("b"), "second", "other"), 0.0)]

  const FAILED_AND_LIVE := map["a" := FailTurnRow(BeginRow("first")), "b" := BeginRow("second")]

  lemma NothingToClean(lim: Limits, db: Db, now: real)
    requires forall id :: id in db.conversations ==>
      CleanConversation(lim, db.conversations[id], now) == Some(db.conversations[id])
    ensures Cleanup(lim, db, now) == db
  {
    hide CleanConversation;
    assert Removed(lim, db, now) == {};
  }

  lemma RetryDbIsClean(turns: map<string, Turn>)
    requires forall t :: t in turns ==>
      turns[t].updatedAt == 0.0 && (turns[t].expires.Some? ==> turns[t].expires.value == 900.0)
    ensures Cleanup(DEFAULT_LIMITS, RetryDb(turns), 0.0) == RetryDb(turns)
  {
    var c := NewConversation("scope", 0.0).(turns := turns);
    assert ExpireLeases(c, 0.0).turns == turns;
    assert PruneTurns(c, Cutoff(7, 0.0)).turns == turns;
    NothingToClean(DEFAULT_LIMITS, RetryDb(turns), 0.0);
  }

  lemma FirstBegin()
    ensures Apply(DEFAULT_LIMITS, EmptyDb, RETRY_EVENTS[0].step, 0.0) == RetryDb(map["a" := BeginRow("first")])
  {
    var db := RetryDb(map[]);
    hide CleanConversation, SlotTaken;
    assert Committed(EmptyDb.conversations) == {} && PendingRows(db.conversations) == {};
    NothingToClean(DEFAULT_LIMITS, EmptyDb, 0.0);
    hide Cleanup, Committed, PendingRows;
    assert Associate(map[], []) == map[];
    assert OpenScope(EmptyDb, "scope", 0.0, "id") == Commit(db, "id");
    FreeSlot(map[], "a");
    assert BeginIn(DEFAULT_LIMITS, db, "id", RetryRequest("a"), 0.0, "first").db == RetryDb(map["a" := BeginRow("first")]);
  }

  lemma FreeSlot(turns: map<string, Turn>, turnId: string)
    requires forall t :: t in turns ==> !Indexed(turns[t])
    ensures !SlotTaken(turns, turnId, None)
  {}

  lemma ThenFail()
    ensures Apply(DEFAULT_LIMITS, RetryDb(map["a" := BeginRow("first")]), RETRY_EVENTS[1].step, 0.0)
         == RetryDb(map["a" := FailTurnRow(BeginRow("first"))])
  {
    var db := RetryDb(map["a" := BeginRow("first")]);
    assert FindTurn(db, "scope", "a") == Some("id");
    assert map["a" := BeginRow("first")]["a" := FailTurnRow(BeginRow("first"))]
        == map["a" := FailTurnRow(BeginRow("first"))];
  }

  lemma SecondReserve()
    ensures var db := RetryDb(map["a" := FailTurnRow(BeginRow("first"))]);
            BeginIn(DEFAULT_LIMITS, db, "id", RetryRequest("b"), 0.0, "second")
              == Commit(RetryDb(FAILED_AND_LIVE), NewTurn("second", 900.0))
  {
    hide Associate, FailTurnRow;
    var turns := map["a" := FailTurnRow(BeginRow("first"))];
    var db := RetryDb(turns);
    FailedIsNotIndexed(BeginRow("first"));
    FreeSlot(turns, "b");
    assert PendingRows(db.conversations) <= {("id", "a")};
    SubsetSize(PendingRows(db.conversations), {("id", "a")});
    hide PendingRows, SlotTaken, Indexed;
    NothingAssociated();
    assert turns["b" := BeginRow("second")] == FAILED_AND_LIVE;
  }

  lemma FailedIsNotIndexed(t: Turn)
    ensures !Indexed(FailTurnRow(t))
  {}

  lemma NothingAssociated()
    ensures Associate(map[], []) == map[]
  {}

  lemma SecondBegin()
    ensures Apply(DEFAULT_LIMITS, RetryDb(map["a" := FailTurnRow(BeginRow("first"))]), RETRY_EVENTS[2].step, 0.0)
         == RetryDb(FAILED_AND_LIVE)
  {
    hide Cleanup, Committed, BeginIn, FailTurnRow;
    var turns := map["a" := FailTurnRow(BeginRow("first"))];
    assert FailTurnRow(BeginRow("first")).updatedAt == 0.0 && FailTurnRow(BeginRow("first")).expires == None by {
      FailedRow(BeginRow("first"));
    }
    RetryDbIsClean(turns);
    SecondReserve();
  }

  lemma FailedRow(t: Turn)
    ensures FailTurnRow(t).updatedAt == t.updatedAt && FailTurnRow(t).expires == None
  {}

  /** From the empty database, in three transactions, to one whose next retry fails with the index error. */
  lemma RetryCollides(token: string, newId: string)
    ensures var db := Run(DEFAULT_LIMITS, EmptyDb, RETRY_EVENTS);
      && DbOk(DEFAULT_LIMITS, db)
      && Collides(Cleanup(DEFAULT_LIMITS, db, 0.0), RetryRequest("a"))
      && Begin(DEFAULT_LIMITS, db, RetryRequest("a"), 0.0, token, newId) == Rollback(UniqueViolation)
  {
    hide Apply, DbOk, Begin, Cleanup;
    FirstBegin();
    ThenFail();
    SecondBegin();
    RunOfThree(DEFAULT_LIMITS, EmptyDb, RETRY_EVENTS);
    ReachableOk(DEFAULT_LIMITS, RETRY_EVENTS);
    var db := RetryDb(FAILED_AND_LIVE);
    RetryDbIsClean(FAILED_AND_LIVE);
    assert FindTurn(db, "scope", "a") == Some("id");
    assert "b" in FAILED_AND_LIVE && Live(FAILED_AND_LIVE["b"]);
    BeginCollidesIff(DEFAULT_LIMITS, db, RetryRequest("a"), 0.0, token, newId);
  }

  lemma RunOfThree(lim: Limits, db: Db, events: seq<Event>)
    requires |events| == 3
    ensures Run(lim, db, events) ==
      Apply(lim, Apply(lim, Apply(lim, db, events[0].step, events[0].now), events[1].step, events[1].now),
            events[2].step, events[2].now)
  {
    hide Apply;
    assert events[..2][..1] == events[..1] && events[..1][..0] == [];
    assert Run(lim, db, events[..1]) == Apply(lim, db, events[0].step, events[0].now);
    assert Run(lim, db, events[..2]) == Apply(lim, Run(lim, db, events[..1]), events[1].step, events[1].now);
  }
}
