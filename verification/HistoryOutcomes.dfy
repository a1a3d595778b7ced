/**
 When each transaction of the history store is granted, with every condition and
 every stored value spelled out on the tables themselves.
 */
module HistoryOutcomes {
  import opened Wrappers
  import opened Artifacts
  import opened HistoryModel
  import opened HistorySpec
  import opened HistoryInvariant
  import opened HistoryRuns
  import opened HistoryRetention

  // ----- Beginning a turn --------------------------------------------------------------------

  /** Every non-empty knowledge base named is associated, unselected unless it was known already. */
  ghost predicate AssociatedWith(kbs: map<string, bool>, ids: seq<string>, kbs': map<string, bool>) {
    && (forall kb :: kb in kbs' <==> kb in kbs || (kb in ids && kb != ""))
    && (forall kb :: kb in kbs' ==> kbs'[kb] == (kb in kbs && kbs[kb]))
  }

  lemma SlotIsFree(lim: Limits, c: Conversation, turnId: string)
    requires ConversationOk(lim, c) && (turnId in c.turns ==> !Indexed(c.turns[turnId]))
    ensures SlotTaken(c.turns, turnId, c.lastTurn) <==> HasLive(c)
  {
    hide LayoutOk, SlotsOk, ChainOk;
    if SlotTaken(c.turns, turnId, c.lastTurn) {
      var t :| t in c.turns && t != turnId && Indexed(c.turns[t]) && Slot(c.turns[t].parent) == Slot(c.lastTurn);
      if c.turns[t].status == Complete {
        ChainLeavesLastSlotFree(Chain(c.messages), c.turns, c.lastTurn, t);
      }
    }
    if HasLive(c) {
      var t :| t in c.turns && Live(c.turns[t]);
      assert t != turnId && Indexed(c.turns[t]) && Slot(c.turns[t].parent) == Slot(c.lastTurn);
    }
  }

  lemma BeginRunsInScope(lim: Limits, db: Db, id: string, req: BeginRequest, now: real, token: string, newId: string)
    requires 0 < |req.turnId| <= 80 && 0 < |req.fingerprint| <= 64
    requires InScope(Cleanup(lim, db, now), req.scopeKey, id)
    ensures var d := Cleanup(lim, db, now);
            Begin(lim, db, req, now, token, newId) ==
              if d.conversations[id].archived then Rollback(ConversationArchived) else BeginIn(lim, d, id, req, now, token)
  {
    hide Cleanup, BeginIn;
  }

  /** `id` is the conversation of the scope. */
  ghost predicate InScope(db: Db, scopeKey: string, id: string) {
    scopeKey in db.byScope && db.byScope[scopeKey] == id && id in db.conversations
  }

  /**
   A turn the conversation does not know is reserved exactly when the
   conversation is active, the request continues from its last turn (whatever
   that is), fewer rows are pending than the limit and no turn is live.  The new
   row is generating, with exactly the requested parent and fingerprint and the
   fresh lease; nothing but that row and the associations changes.
   */
  lemma NewTurnOutcome(lim: Limits, db: Db, id: string, req: BeginRequest, now: real, token: string, newId: string)
    requires DbOk(lim, db) && 0 < |req.turnId| <= 80 && 0 < |req.fingerprint| <= 64
    requires InScope(Cleanup(lim, db, now), req.scopeKey, id)
    requires req.turnId !in Cleanup(lim, db, now).conversations[id].turns
    ensures var d := Cleanup(lim, db, now);
            var c := d.conversations[id];
            var pending := set i, t | i in d.conversations && t in d.conversations[i].turns
                                      && d.conversations[i].turns[t].status != Complete :: (i, t);
            var tx := Begin(lim, db, req, now, token, newId);
      if c.archived then tx == Rollback(ConversationArchived)
      else if req.parent != c.lastTurn then tx == Rollback(ContinuityBroken(c.lastTurn))
      else if lim.maxPendingTurns > 0 && |pending| >= lim.maxPendingTurns then tx == Rollback(QuotaExceeded)
      else if exists t :: t in c.turns && (c.turns[t].status == Generating || c.turns[t].status == Ready)
      then tx == Rollback(TurnInProgress)
      else
        && tx.Commit? && tx.value == NewTurn(token, now + lim.leaseSeconds as real)
        && id in tx.db.conversations
        && var row := Turn(req.parent, req.fingerprint, Generating, None, Some(token),
                           Some(now + lim.leaseSeconds as real), now);
           var c' := tx.db.conversations[id];
        && AssociatedWith(c.knowledgeBases, req.knowledgeBases, c'.knowledgeBases)
        && c' == c.(turns := c.turns[req.turnId := row], knowledgeBases := c'.knowledgeBases)
        && tx.db == d.(conversations := d.conversations[id := c'])
  {
    hide DbOk, ConversationOk, Cleanup, SlotTaken;
    var d := Cleanup(lim, db, now);
    CleanupKeeps(lim, db, now);
    ConversationOf(lim, d, id);
    SlotIsFree(lim, d.conversations[id], req.turnId);
    BeginRunsInScope(lim, db, id, req, now, token, newId);
  }

  /**
   A turn the conversation knows, with the same fingerprint, is replayed when it
   is complete and reported when it is ready.  A generating one is still running,
   for retention has failed every expired lease.  A failed one gets a fresh
   lease on the same row and parent, exactly when the conversation still ends
   where it started and no turn is live.
   */
  lemma KnownTurnOutcome(lim: Limits, db: Db, id: string, req: BeginRequest, now: real, token: string, newId: string)
    requires DbOk(lim, db) && 0 < |req.turnId| <= 80 && 0 < |req.fingerprint| <= 64
    requires InScope(Cleanup(lim, db, now), req.scopeKey, id)
    requires req.turnId in Cleanup(lim, db, now).conversations[id].turns
    ensures var d := Cleanup(lim, db, now);
            var c := d.conversations[id];
            var row := c.turns[req.turnId];
            var tx := Begin(lim, db, req, now, token, newId);
      if c.archived then tx == Rollback(ConversationArchived)
      else if row.fingerprint != req.fingerprint then tx == Rollback(TurnConflict)
      else if row.status == Generating then tx == Rollback(TurnInProgress)
      else if row.status == Failed && row.parent != c.lastTurn then tx == Rollback(ContinuityBroken(c.lastTurn))
      else if row.status == Failed
              && exists t :: t in c.turns && (c.turns[t].status == Generating || c.turns[t].status == Ready)
      then tx == Rollback(UniqueViolation)
      else
        && tx.Commit? && id in tx.db.conversations
        && tx.value == (match row.status
                        case Complete => CompleteTurnReplay(MessagesForTurn(c.messages, req.turnId))
                        case Ready => ReadyTurn(row.digest, row.lease, row.expires)
                        case _ => NewTurn(token, now + lim.leaseSeconds as real))
        && var row' := if row.status != Failed then row
                       else Turn(row.parent, row.fingerprint, Generating, row.digest, Some(token),
                                 Some(now + lim.leaseSeconds as real), now);
           var c' := tx.db.conversations[id];
        && AssociatedWith(c.knowledgeBases, req.knowledgeBases, c'.knowledgeBases)
        && c' == c.(turns := c.turns[req.turnId := row'], knowledgeBases := c'.knowledgeBases)
        && tx.db == d.(conversations := d.conversations[id := c'])
  {
    hide DbOk, ConversationOk, Cleanup, SlotTaken, PendingRows, MessagesForTurn;
    var d := Cleanup(lim, db, now);
    var c := d.conversations[id];
    CleanupKeeps(lim, db, now);
    ConversationOf(lim, d, id);
    if c.turns[req.turnId].status == Failed {
      SlotIsFree(lim, c, req.turnId);
    }
    if c.turns[req.turnId].status == Generating {
      NoLeaseHasRunOut(lim, db, id, now);
    }
    BeginRunsInScope(lim, db, id, req, now, token, newId);
    assert c.turns[req.turnId := c.turns[req.turnId]] == c.turns;
  }

  lemma NoLeaseHasRunOut(lim: Limits, db: Db, id: string, now: real)
    requires id in Cleanup(lim, db, now).conversations
    ensures forall t :: t in Cleanup(lim, db, now).conversations[id].turns ==>
              !LeaseExpired(Cleanup(lim, db, now).conversations[id].turns[t], now)
  {
    OnePassSettles(lim, db.conversations[id], now);
  }

  lemma QuotasOf(lim: Limits, db: Db)
    requires DbOk(lim, db)
    ensures QuotasOk(lim, db)
  {
    hide ConversationOk, IndexOk, QuotasOk;
  }

  lemma FirstTurnOutcome(lim: Limits, d: Db, req: BeginRequest, now: real, token: string, newId: string)
    requires QuotasOk(lim, d) && req.scopeKey !in d.byScope
    ensures var tx := BeginCleaned(lim, d, req, now, token, newId);
      if lim.maxConversations > 0 && |Committed(d.conversations)| >= lim.maxConversations
      then tx == Rollback(QuotaExceeded)
      else if newId in d.conversations then tx == Rollback(UniqueViolation)
      else if req.parent != None then tx == Rollback(ContinuityBroken(None))
      else if lim.maxPendingTurns > 0 && |PendingRows(d.conversations)| >= lim.maxPendingTurns
      then tx == Rollback(QuotaExceeded)
      else
        && tx.Commit? && tx.value == NewTurn(token, now + lim.leaseSeconds as real)
        && newId in tx.db.conversations
        && var row := Turn(None, req.fingerprint, Generating, None, Some(token),
                           Some(now + lim.leaseSeconds as real), now);
           var c := tx.db.conversations[newId];
        && AssociatedWith(map[], req.knowledgeBases, c.knowledgeBases)
        && c == Conversation(req.scopeKey, false, [], 0, 0, 0, 0, None, now, map[req.turnId := row], [], c.knowledgeBases)
        && tx.db == d.(conversations := d.conversations[newId := c], byScope := d.byScope[req.scopeKey := newId])
  {
    hide QuotasOk, Committed, PendingRows;
    var stub := NewConversation(req.scopeKey, now);
    if newId !in d.conversations {
      StubKeepsQuotas(lim, d, newId, stub);
    }
  }

  /**
   The first turn of a scope: granted exactly below the two quotas, under an
   unused id and without a parent.  The scope then has a new active
   conversation that holds this one row and is empty otherwise.
   */
  lemma NewScopeOutcome(lim: Limits, db: Db, req: BeginRequest, now: real, token: string, newId: string)
    requires DbOk(lim, db) && 0 < |req.turnId| <= 80 && 0 < |req.fingerprint| <= 64
    requires req.scopeKey !in Cleanup(lim, db, now).byScope
    ensures var d := Cleanup(lim, db, now);
            var committed := set i | i in d.conversations && d.conversations[i].messageCount > 0;
            var pending := set i, t | i in d.conversations && t in d.conversations[i].turns
                                      && d.conversations[i].turns[t].status != Complete :: (i, t);
            var tx := Begin(lim, db, req, now, token, newId);
      if lim.maxConversations > 0 && |committed| >= lim.maxConversations then tx == Rollback(QuotaExceeded)
      else if newId in d.conversations then tx == Rollback(UniqueViolation)
      else if req.parent != None then tx == Rollback(ContinuityBroken(None))
      else if lim.maxPendingTurns > 0 && |pending| >= lim.maxPendingTurns then tx == Rollback(QuotaExceeded)
      else
        && tx.Commit? && tx.value == NewTurn(token, now + lim.leaseSeconds as real)
        && newId in tx.db.conversations
        && var row := Turn(None, req.fingerprint, Generating, None, Some(token),
                           Some(now + lim.leaseSeconds as real), now);
           var c := tx.db.conversations[newId];
        && AssociatedWith(map[], req.knowledgeBases, c.knowledgeBases)
        && c == Conversation(req.scopeKey, false, [], 0, 0, 0, 0, None, now, map[req.turnId := row], [], c.knowledgeBases)
        && tx.db == d.(conversations := d.conversations[newId := c], byScope := d.byScope[req.scopeKey := newId])
  {
    hide DbOk, Cleanup, BeginCleaned, QuotasOk, AssociatedWith;
    var d := Cleanup(lim, db, now);
    CleanupKeeps(lim, db, now);
    QuotasOf(lim, d);
    FirstTurnOutcome(lim, d, req, now, token, newId);
  }

  /** A begin without a turn id or a fingerprint, or with one that is too long, is refused at once. */
  lemma MalformedBegin(lim: Limits, db: Db, req: BeginRequest, now: real, token: string, newId: string)
    ensures Begin(lim, db, req, now, token, newId) == Rollback(InvalidRequest)
            <==> req.turnId == "" || |req.turnId| > 80 || req.fingerprint == "" || |req.fingerprint| > 64
  {
    hide Cleanup, PendingRows, Committed, Associate, MessagesForTurn, SlotTaken;
  }

  // ----- Completing a turn -------------------------------------------------------------------

  /** The whole saved selection: exactly the named bases are selected, and no association is lost. */
  ghost predicate SelectedExactly(kbs: map<string, bool>, ids: seq<string>, kbs': map<string, bool>) {
    && (forall kb :: kb in kbs' <==> kb in kbs || (kb in ids && kb != ""))
    && (forall kb :: kb in kbs' && kb != "" ==> (kbs'[kb] <==> kb in ids))
  }

  /** The two messages of a completion, which continue the transcript of `count` messages. */
  ghost predicate PairOf(req: CompleteRequest, count: nat, pair: seq<Message>) {
    && |pair| == 2
    && pair[0] == Message(req.turnId, User, req.user, count + 1, "[]",
                          Metadata("{}", Some(References({}, {}, {}))), Utf8Bytes(req.user))
    && pair[1] == Message(req.turnId, Assistant, req.assistant, count + 2, req.sources,
                          Metadata(req.metadataText, Some(ReferencesFromPayload(req.payload))),
                          Utf8Bytes(req.assistant) + Utf8Bytes(req.sources) + Utf8Bytes(req.metadataText))
  }

  lemma PairContinues(lim: Limits, c: Conversation, req: CompleteRequest)
    requires ConversationOk(lim, c)
    ensures NextSequence(c.messages) == c.messageCount + 1
    ensures PairOf(req, c.messageCount, Pair(req, NextSequence(c.messages)))
  {
    hide TurnsOk;
    NextSequenceOf(c.messages);
  }

  lemma PairIsTheTurns(lim: Limits, c: Conversation, pair: seq<Message>, turnId: string)
    requires ConversationOk(lim, c) && !(turnId in c.turns && c.turns[turnId].status == Complete)
    requires |pair| == 2 && pair[0].turnId == pair[1].turnId == turnId
    ensures MessagesForTurn(c.messages + pair, turnId) == pair
  {
    hide MessagesForTurn, ConversationOk;
    OnePairPerTurn(lim, c, turnId);
    MessagesOfConcat(c.messages, pair, turnId);
    MessagesOfConcat([pair[0]], [pair[1]], turnId);
    OneMessage(pair[0], turnId);
    OneMessage(pair[1], turnId);
    assert pair == [pair[0]] + [pair[1]];
  }

  /** All four quotas leave room for one more pair of `bytes` bytes. */
  ghost predicate RoomFor(lim: Limits, db: Db, id: string, bytes: nat)
    requires id in db.conversations
  {
    var c := db.conversations[id];
    && (lim.maxConversations <= 0 || c.messageCount > 0
        || |set other | other in db.conversations && other != id && db.conversations[other].messageCount > 0|
           < lim.maxConversations)
    && c.messageCount + 2 <= lim.maxMessages
    && c.payloadBytes + bytes <= lim.maxConversationBytes
    && TotalBytes(db.conversations) + bytes <= lim.maxHistoryBytes
  }

  lemma RoomIffNotOver(lim: Limits, db: Db, id: string, bytes: nat)
    requires id in db.conversations
    ensures RoomFor(lim, db, id, bytes) <==> !OverQuota(lim, db, id, db.conversations[id], bytes)
  {
    assert Committed(db.conversations) - {id} ==
           set other | other in db.conversations && other != id && db.conversations[other].messageCount > 0;
  }

  /**
   A completion by the lease holder, with texts within their limits, is saved
   exactly when all four quotas leave room.  It appends the pair, completes the
   row, moves the last turn to it, adds its bytes, selects exactly the named
   knowledge bases and touches no other conversation.
   */
  lemma HolderCompletes(lim: Limits, db: Db, id: string, req: CompleteRequest, now: real)
    requires DbOk(lim, db) && InScope(db, req.scopeKey, id) && req.turnId in db.conversations[id].turns
    requires db.conversations[id].turns[req.turnId].lease == Some(req.token)
    requires db.conversations[id].turns[req.turnId].fingerprint == req.fingerprint
    requires |req.user| <= lim.maxMessageChars && |req.assistant| <= lim.maxMessageChars
    requires Utf8Bytes(req.sources) <= lim.maxSourcesBytes && Utf8Bytes(req.metadataText) <= lim.maxMetadataBytes
    ensures var c := db.conversations[id];
            var row := c.turns[req.turnId];
            var bytes := Utf8Bytes(req.user) + Utf8Bytes(req.assistant) + Utf8Bytes(req.sources)
                         + Utf8Bytes(req.metadataText);
            var tx := CompleteTurn(lim, db, req, now);
      if !RoomFor(lim, db, id, bytes) then tx == Rollback(QuotaExceeded)
      else
        && tx.Commit? && tx.value.Saved? && id in tx.db.conversations
        && PairOf(req, c.messageCount, tx.value.pair)
        && var c' := tx.db.conversations[id];
        && SelectedExactly(c.knowledgeBases, req.knowledgeBases, c'.knowledgeBases)
        && c' == c.(messages := c.messages + tx.value.pair,
                    turns := c.turns[req.turnId := row.(status := Complete, lease := None, expires := None,
                                                        updatedAt := now)],
                    knowledgeBases := c'.knowledgeBases,
                    messageCount := c.messageCount + 2,
                    payloadBytes := c.payloadBytes + bytes,
                    lastTurn := Some(req.turnId),
                    updatedAt := now)
        && tx.db == db.(conversations := db.conversations[id := c'])
        && tx.value == Saved(c.messageCount + 1, c.messageCount + 2, c.messageCount + 2, c.payloadBytes + bytes,
                             tx.value.pair)
  {
    hide DbOk, ConversationOk, OverQuota, RoomFor, MessagesForTurn, NextSequence, Pair, PairOf, Utf8Bytes;
    var c := db.conversations[id];
    ConversationOf(lim, db, id);
    OwnedRowIsLive(lim, c, req.turnId);
    PairContinues(lim, c, req);
    RoomIffNotOver(lim, db, id, TurnBytes(req));
    PairNamesTheTurn(req, c.messageCount, Pair(req, NextSequence(c.messages)));
    PairIsTheTurns(lim, c, Pair(req, NextSequence(c.messages)), req.turnId);
  }

  lemma PairNamesTheTurn(req: CompleteRequest, count: nat, pair: seq<Message>)
    requires PairOf(req, count, pair)
    ensures |pair| == 2 && pair[0].turnId == pair[1].turnId == req.turnId
  {}

  /**
   Every other completion changes nothing: texts over their limits come first,
   then an unknown turn; a complete turn replays its pair whatever the token, and
   anyone but the lease holder with the same fingerprint is refused.
   */
  lemma OthersDoNotComplete(lim: Limits, db: Db, req: CompleteRequest, now: real)
    requires DbOk(lim, db)
    ensures var tx := CompleteTurn(lim, db, req, now);
            var known := req.scopeKey in db.byScope
                         && req.turnId in db.conversations[db.byScope[req.scopeKey]].turns;
      if |req.user| > lim.maxMessageChars || |req.assistant| > lim.maxMessageChars
         || Utf8Bytes(req.sources) > lim.maxSourcesBytes || Utf8Bytes(req.metadataText) > lim.maxMetadataBytes
      then tx == Rollback(ContentTooLarge)
      else if !known then tx == Rollback(ConversationNotFound)
      else
        var c := db.conversations[db.byScope[req.scopeKey]];
        var row := c.turns[req.turnId];
        if row.status == Complete then tx == Commit(db, Replayed(MessagesForTurn(c.messages, req.turnId)))
        else row.lease != Some(req.token) || row.fingerprint != req.fingerprint ==> tx == Rollback(TurnConflict)
  {
    hide DbOk, OverQuota, MessagesForTurn, Utf8Bytes, Save, NextSequence, TurnBytes;
    IndexOf(lim, db);
  }

  // ----- Operations on a reserved turn ---------------------------------------------------------

  /** The database with this one row replaced. */
  function WithRow(db: Db, id: string, turnId: string, row: Turn): Db
    requires id in db.conversations
  {
    var c := db.conversations[id];
    db.(conversations := db.conversations[id := c.(turns := c.turns[turnId := row])])
  }

  /**
   Marking, renewing and failing succeed for the lease holder, whether the row
   is generating or ready, and for nobody else; each changes its own columns of
   that row and nothing more.
   */
  lemma HolderActs(lim: Limits, db: Db, id: string, scopeKey: string, turnId: string, token: string, digest: string,
                   now: real)
    requires DbOk(lim, db) && InScope(db, scopeKey, id) && turnId in db.conversations[id].turns
    ensures var row := db.conversations[id].turns[turnId];
            var held := row.lease == Some(token);
      && MarkReady(db, scopeKey, turnId, token, digest, now)
         == (if held
             then Commit(WithRow(db, id, turnId, row.(status := Ready, digest := Some(digest), updatedAt := now)),
                         true)
             else Commit(db, false))
      && Renew(lim, db, scopeKey, turnId, token, now)
         == (if held
             then Commit(WithRow(db, id, turnId, row.(expires := Some(now + lim.leaseSeconds as real),
                                                      updatedAt := now)), true)
             else Commit(db, false))
      && Fail(db, scopeKey, turnId, token, now)
         == (if held
             then Commit(WithRow(db, id, turnId, row.(status := Failed, lease := None, expires := None,
                                                      updatedAt := now)), true)
             else Commit(db, false))
      && (held ==> row.status == Generating || row.status == Ready)
  {
    hide DbOk, ConversationOk;
    ConversationOf(lim, db, id);
    OwnedRowIsLive(lim, db.conversations[id], turnId);
  }

  /** Nothing happens to a turn the scope does not hold. */
  lemma UnknownTurnIsLeftAlone(lim: Limits, db: Db, scopeKey: string, turnId: string, token: string, digest: string,
                               fingerprint: string, expected: Option<string>, now: real)
    requires DbOk(lim, db)
    requires scopeKey in db.byScope ==> turnId !in db.conversations[db.byScope[scopeKey]].turns
    ensures MarkReady(db, scopeKey, turnId, token, digest, now) == Commit(db, false)
    ensures Renew(lim, db, scopeKey, turnId, token, now) == Commit(db, false)
    ensures Fail(db, scopeKey, turnId, token, now) == Commit(db, false)
    ensures Recover(lim, db, scopeKey, turnId, fingerprint, expected, now, token) == Rollback(ConversationNotFound)
  {
    hide DbOk;
    IndexOf(lim, db);
  }

  /**
   A recovery is granted exactly to a request with the row's fingerprint that
   saw the lease a ready row still has; a complete row answers with its pair.
   */
  lemma RecoveryOutcome(lim: Limits, db: Db, id: string, scopeKey: string, turnId: string, fingerprint: string,
                        expected: Option<string>, now: real, token: string)
    requires InScope(db, scopeKey, id) && turnId in db.conversations[id].turns
    ensures var c := db.conversations[id];
            var row := c.turns[turnId];
            var expires := now + lim.leaseSeconds as real;
      Recover(lim, db, scopeKey, turnId, fingerprint, expected, now, token) ==
        if row.fingerprint != fingerprint then Rollback(TurnConflict)
        else if row.status == Complete then Commit(db, AlreadyComplete(MessagesForTurn(c.messages, turnId)))
        else if row.status == Ready && row.lease == expected
        then Commit(WithRow(db, id, turnId,
                            Turn(row.parent, fingerprint, Generating, None, Some(token), Some(expires), now)),
                    Recovered(token, expires))
        else Rollback(TurnInProgress)
  {
    hide MessagesForTurn;
  }

  /** The token is the lease of the scope's row for the turn. */
  ghost predicate Held(db: Db, scopeKey: string, turnId: string, token: string) {
    && scopeKey in db.byScope && db.byScope[scopeKey] in db.conversations
    && turnId in db.conversations[db.byScope[scopeKey]].turns
    && db.conversations[db.byScope[scopeKey]].turns[turnId].lease == Some(token)
  }

  /** A mark commits exactly for the lease holder. */
  lemma MarkedIffHeld(lim: Limits, db: Db, scopeKey: string, turnId: string, token: string, digest: string, now: real)
    requires DbOk(lim, db)
    ensures var tx := MarkReady(db, scopeKey, turnId, token, digest, now);
            tx.Commit? && (tx.value <==> Held(db, scopeKey, turnId, token))
  {
    hide DbOk, MarkReady;
    IndexOf(lim, db);
    if scopeKey in db.byScope && turnId in db.conversations[db.byScope[scopeKey]].turns {
      HolderActs(lim, db, db.byScope[scopeKey], scopeKey, turnId, token, digest, now);
    } else {
      UnknownTurnIsLeftAlone(lim, db, scopeKey, turnId, token, digest, "", None, now);
    }
  }

  /** Whoever a begin grants the turn holds its lease, on a row with the request's fingerprint. */
  lemma GrantIsHeld(lim: Limits, db: Db, req: BeginRequest, now: real, token: string, newId: string)
    requires DbOk(lim, db)
    requires Begin(lim, db, req, now, token, newId).Commit? && Begin(lim, db, req, now, token, newId).value.NewTurn?
    ensures var tx := Begin(lim, db, req, now, token, newId);
      && tx.value == NewTurn(token, now + lim.leaseSeconds as real)
      && DbOk(lim, tx.db)
      && Held(tx.db, req.scopeKey, req.turnId, token)
      && var row := tx.db.conversations[tx.db.byScope[req.scopeKey]].turns[req.turnId];
         row.fingerprint == req.fingerprint && row.expires == Some(now + lim.leaseSeconds as real)
  {
    hide DbOk, Cleanup, Begin, BeginCleaned, AssociatedWith, PendingRows, Committed;
    var d := Cleanup(lim, db, now);
    MalformedBegin(lim, db, req, now, token, newId);
    CleanupKeeps(lim, db, now);
    IndexOf(lim, d);
    BeginKeeps(lim, db, req, now, token, newId);
    if req.scopeKey !in d.byScope {
      NewScopeOutcome(lim, db, req, now, token, newId);
    } else if req.turnId in d.conversations[d.byScope[req.scopeKey]].turns {
      KnownTurnOutcome(lim, db, d.byScope[req.scopeKey], req, now, token, newId);
    } else {
      NewTurnOutcome(lim, db, d.byScope[req.scopeKey], req, now, token, newId);
    }
  }

  /** A ready row that has not outlived the incomplete retention comes through a pass untouched. */
  lemma ReadySurvives(lim: Limits, db: Db, id: string, scopeKey: string, turnId: string, now: real)
    requires InScope(db, scopeKey, id) && turnId in db.conversations[id].turns
    requires db.conversations[id].turns[turnId].status == Ready
    requires !RowOutlived(lim, db.conversations[id].turns[turnId], now)
    ensures var d := Cleanup(lim, db, now);
      && InScope(d, scopeKey, id) && turnId in d.conversations[id].turns
      && d.conversations[id].turns[turnId] == db.conversations[id].turns[turnId]
      && d.conversations[id].archived == db.conversations[id].archived
  {
    hide Cleanup, RowOutlived, OlderThan;
    RetentionIsExact(lim, db, id, now);
    RetentionKeepsTheRest(lim, db, now);
    assert !RunOut(db.conversations[id].turns[turnId], now);
  }

  /** A begin of a ready turn reports the row's own digest and lease. */
  lemma ReadyIsReported(lim: Limits, db: Db, id: string, req: BeginRequest, now: real, token: string, newId: string)
    requires DbOk(lim, db) && 0 < |req.turnId| <= 80 && 0 < |req.fingerprint| <= 64
    requires InScope(db, req.scopeKey, id) && req.turnId in db.conversations[id].turns
    requires db.conversations[id].turns[req.turnId].status == Ready
    requires db.conversations[id].turns[req.turnId].fingerprint == req.fingerprint
    requires !RowOutlived(lim, db.conversations[id].turns[req.turnId], now)
    ensures var row, tx := db.conversations[id].turns[req.turnId], Begin(lim, db, req, now, token, newId);
            tx.Commit? && tx.value == ReadyTurn(row.digest, row.lease, row.expires)
  {
    hide DbOk, Cleanup, Begin, RowOutlived, ConversationOk, AssociatedWith;
    ReadySurvives(lim, db, id, req.scopeKey, req.turnId, now);
    KnownTurnOutcome(lim, db, id, req, now, token, newId);
    CleanupKeeps(lim, db, now);
    LiveRowIsActive(lim, Cleanup(lim, db, now), id, req.turnId);
  }

  lemma LiveRowIsActive(lim: Limits, db: Db, id: string, turnId: string)
    requires DbOk(lim, db) && id in db.conversations && turnId in db.conversations[id].turns
    requires Live(db.conversations[id].turns[turnId])
    ensures !db.conversations[id].archived
  {
    hide IndexOk, QuotasOk, LayoutOk, ChainOk, SlotsOk, LeaseOk;
  }

  // ----- Maintenance ---------------------------------------------------------------------------

  /**
   Resetting continuity answers with the last completed turn and fails exactly
   the generating turns whose lease has run out.
   */
  lemma ResetOutcome(lim: Limits, db: Db, id: string, now: real)
    requires DbOk(lim, db)
    ensures var tx := ResetContinuity(db, id, now);
      if id !in db.conversations then tx == Rollback(ConversationNotFound)
      else
        var c := db.conversations[id];
        && tx.Commit? && id in tx.db.conversations
        && tx.value == (if |c.messages| == 0 then None else Some(c.messages[|c.messages| - 1].turnId))
        && var c' := tx.db.conversations[id];
        && tx.db == db.(conversations := db.conversations[id := c'])
        && c' == c.(turns := c'.turns) && c'.turns.Keys == c.turns.Keys
        && (forall t :: t in c.turns ==>
              var row := c.turns[t];
              c'.turns[t] == if row.status == Generating && row.expires.Some? && row.expires.value < now
                             then row.(status := Failed, lease := None, expires := None, updatedAt := now) else row)
  {
    hide DbOk, ConversationOk;
    if id in db.conversations {
      ConversationOf(lim, db, id);
      LastTurnIsLast(lim, db.conversations[id]);
    }
  }

  lemma LastTurnIsLast(lim: Limits, c: Conversation)
    requires ConversationOk(lim, c)
    ensures c.lastTurn == if |c.messages| == 0 then None else Some(c.messages[|c.messages| - 1].turnId)
  {
    hide RowsOk, SlotsOk, Linked, Distinct, CompleteIn, ReferencesOk, MessageBytes;
    if |c.messages| > 0 {
      assert SameTurn(c.messages, |c.messages| - 1);
    }
  }

  /** Archiving waits for a live turn; nothing else is refused, and only the flag and the clock change. */
  lemma UpdateOutcome(db: Db, id: string, archived: Option<bool>, now: real)
    ensures var tx := UpdateConversation(db, id, archived, now);
      if id !in db.conversations then tx == Rollback(ConversationNotFound)
      else
        var c := db.conversations[id];
        if archived == Some(true)
           && exists t :: t in c.turns && (c.turns[t].status == Generating || c.turns[t].status == Ready)
        then tx == Rollback(TurnInProgress)
        else
          && tx.Commit?
          && tx.db == db.(conversations := db.conversations[id := c.(archived := match archived
                                                                                 case Some(flag) => flag
                                                                                 case None => c.archived,
                                                                     updatedAt := now)])
  {}

  /** A summary is swapped in exactly on the version it was made from and past the stored cursor. */
  lemma SummaryOutcome(lim: Limits, db: Db, scopeKey: string, summary: seq<int>, version: int, through: int, now: real)
    requires DbOk(lim, db)
    ensures var tx := UpdateSummary(db, scopeKey, summary, version, through, now);
      && tx.Commit?
      && (tx.value <==>
            && scopeKey in db.byScope
            && db.conversations[db.byScope[scopeKey]].summaryVersion == version
            && db.conversations[db.byScope[scopeKey]].summaryThrough < through)
      && tx.db == if !tx.value then db
                  else
                    var id := db.byScope[scopeKey];
                    var c := db.conversations[id];
                    db.(conversations := db.conversations[id := c.(summary := summary, summaryVersion := version + 1,
                                                                   summaryThrough := through, updatedAt := now)])
  {
    hide ConversationOk, QuotasOk;
  }

  // ----- Deletion ------------------------------------------------------------------------------

  /** Exactly the given conversations are gone, with their scopes and nothing else. */
  ghost predicate Without(db: Db, ids: set<string>, db': Db) {
    && db'.conversations == (map id | id in db.conversations && id !in ids :: db.conversations[id])
    && (forall s :: s in db'.byScope <==> s in db.byScope && db.byScope[s] !in ids)
    && (forall s :: s in db'.byScope ==> db'.byScope[s] == db.byScope[s])
  }

  ghost predicate AllMetadataReadable(db: Db) {
    forall id, m :: id in db.conversations && m in db.conversations[id].messages ==> m.metadata.references.Some?
  }

  /** The plain deletion of one conversation touches no other row and stores no plan. */
  lemma DeleteOutcome(db: Db, id: string)
    ensures var tx := Delete(db, id);
      && tx.Commit? && (tx.value <==> id in db.conversations)
      && tx.db.outbox == db.outbox
      && (if tx.value then Without(db, {id}, tx.db) else tx.db == db)
  {}

  /**
   The deletion with a plan removes the same rows.  The plan is stored under the
   conversation's own key exactly when every message of the workspace can be
   read; a repeated deletion answers with the stored plan, or an unsafe one.
   */
  lemma DeleteWithPlanOutcome(db: Db, id: string)
    ensures var tx, key := DeleteWithCleanup(db, id), "conversation:" + id;
      && tx.Commit? && (tx.value.0 <==> id in db.conversations)
      && (if tx.value.0
          then
            && Without(db, {id}, tx.db)
            && (tx.value.1.safe <==> AllMetadataReadable(db))
            && tx.db.outbox == (if tx.value.1.safe then db.outbox[key := tx.value.1.exclusive] else db.outbox)
          else
            && tx.db == db
            && (tx.value.1.safe <==> key in db.outbox)
            && (key in db.outbox ==> tx.value.1.exclusive == db.outbox[key]))
  {
    hide ExclusiveReferences, OwnedBy;
  }

  /** The same for all conversations that name a knowledge base, selected or not. */
  lemma DeleteByBaseOutcome(db: Db, kb: string)
    ensures var users := set id | id in db.conversations && kb in db.conversations[id].knowledgeBases;
            var tx, key := DeleteByKnowledgeBase(db, kb), "knowledge-base:" + kb;
      && tx.value.0 == |users|
      && (if users != {}
          then
            && Without(db, users, tx.db)
            && (tx.value.1.safe <==> AllMetadataReadable(db))
            && tx.db.outbox == (if tx.value.1.safe then db.outbox[key := tx.value.1.exclusive] else db.outbox)
          else
            && tx.db == db
            && (tx.value.1.safe <==> key in db.outbox)
            && (key in db.outbox ==> tx.value.1.exclusive == db.outbox[key]))
  {
    hide ExclusiveReferences, OwnedBy;
  }

  // ----- Byte counts ---------------------------------------------------------------------------

  /** The UTF-8 form of one character (section 3 of RFC 3629). */
  function EncodeChar(c: char): seq<int> {
    var u := c as int;
    if u <= 0x7F then [u]
    else if u <= 0x7FF then [0xC0 + u / 0x40, 0x80 + u % 0x40]
    else if u <= 0xFFFF then [0xE0 + u / 0x1000, 0x80 + u / 0x40 % 0x40, 0x80 + u % 0x40]
    else [0xF0 + u / 0x4_0000, 0x80 + u / 0x1000 % 0x40, 0x80 + u / 0x40 % 0x40, 0x80 + u % 0x40]
  }

  function Encode(s: string): seq<int> {
    if s == "" then [] else EncodeChar(s[0]) + Encode(s[1..])
  }

  lemma {:induction false} BytesAreTheEncoding(s: string)
    ensures Utf8Bytes(s) == |Encode(s)|
  {
    if s != "" {
      BytesAreTheEncoding(s[1..]);
      FirstCharBytes(s);
    }
  }

  lemma {:induction false} FirstCharBytes(s: string)
    requires s != ""
    ensures Utf8Bytes(s) == CharBytes(s[0]) + Utf8Bytes(s[1..])
  {
    if |s| > 1 {
      FirstCharBytes(s[..|s| - 1]);
      assert s[..|s| - 1][1..] == s[1..][..|s| - 2];
    }
  }
}
