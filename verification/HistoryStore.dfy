/**
 The history store as the object the program uses: one field holding the
 database, transactions that read and update it row by row, and a rollback that
 restores the state at BEGIN IMMEDIATE.  Every method is proved to do exactly
 what its transaction in HistorySpec says, and to keep the database valid.
 */
module HistoryStore {
  import opened Wrappers
  import opened Artifacts
  import opened HistoryModel
  import opened HistorySpec
  import opened HistoryInvariant
  import opened HistoryOutcomes
  import opened Paging

  /** Rows without the given (conversation, turn) pairs. */
  function WithoutTurns(conversations: map<string, Conversation>, rows: set<(string, string)>)
    : map<string, Conversation>
  {
    map id | id in conversations ::
      conversations[id].(turns := map t | t in conversations[id].turns && (id, t) !in rows :: conversations[id].turns[t])
  }

  function ExpireAll(conversations: map<string, Conversation>, now: real): map<string, Conversation> {
    map id | id in conversations :: ExpireLeases(conversations[id], now)
  }

  function ExpiredConversations(lim: Limits, db: Db, now: real): set<string> {
    set id | id in db.conversations && RetentionExpired(lim, db.conversations[id], now)
  }

  function StaleRows(db: Db, cutoff: real): set<(string, string)> {
    set id, t | id in db.conversations && t in db.conversations[id].turns
                && StaleTurn(db.conversations[id].turns[t], cutoff) :: (id, t)
  }

  function StaleStubs(db: Db, cutoff: real): set<string> {
    set id | id in db.conversations && StaleStub(db.conversations[id], cutoff)
  }

  lemma DropTwice(db: Db, a: set<string>, b: set<string>)
    ensures Drop(Drop(db, a), b) == Drop(db, a + b)
  {
    assert Drop(Drop(db, a), b).conversations == Drop(db, a + b).conversations;
    assert Drop(Drop(db, a), b).byScope == Drop(db, a + b).byScope;
  }

  /** The statements of one cleanup, in order. */
  function Statements(lim: Limits, db: Db, now: real): Db {
    var d1 := db.(conversations := ExpireAll(db.conversations, now));
    var d2 := if lim.retentionDays > 0 then Drop(d1, ExpiredConversations(lim, d1, now)) else d1;
    var cutoff := Cutoff(lim.incompleteRetentionDays, now);
    var d3 := d2.(conversations := WithoutTurns(d2.conversations, StaleRows(d2, cutoff)));
    if lim.incompleteRetentionDays > 0 then Drop(d3, StaleStubs(d3, cutoff)) else d2
  }

  /** The index entries whose conversation is still there. */
  ghost predicate IndexFollows(db: Db, d: Db) {
    && (forall s :: s in d.byScope <==>
          s in db.byScope && (db.byScope[s] in db.conversations ==> db.byScope[s] in d.conversations))
    && (forall s :: s in d.byScope ==> d.byScope[s] == db.byScope[s])
  }

  lemma DropFollows(db: Db, d: Db, ids: set<string>)
    requires IndexFollows(db, d) && ids <= d.conversations.Keys <= db.conversations.Keys
    ensures IndexFollows(db, Drop(d, ids)) && Drop(d, ids).conversations.Keys <= db.conversations.Keys
  {}

  lemma StatementsFollow(lim: Limits, db: Db, now: real)
    ensures IndexFollows(db, Statements(lim, db, now))
    ensures Statements(lim, db, now).outbox == db.outbox
    ensures Statements(lim, db, now).conversations.Keys <= db.conversations.Keys
  {
    hide RetentionExpired, StaleRows, StaleStub;
    var d1 := db.(conversations := ExpireAll(db.conversations, now));
    DropFollows(db, d1, ExpiredConversations(lim, d1, now));
    var d2 := if lim.retentionDays > 0 then Drop(d1, ExpiredConversations(lim, d1, now)) else d1;
    var cutoff := Cutoff(lim.incompleteRetentionDays, now);
    var d3 := d2.(conversations := WithoutTurns(d2.conversations, StaleRows(d2, cutoff)));
    SameKeys(d2.conversations, StaleRows(d2, cutoff));
    hide Drop, ExpiredConversations, WithoutTurns;
    assert IndexFollows(db, d3);
    DropFollows(db, d3, StaleStubs(d3, cutoff));
    DropKeepsOutbox(d1, ExpiredConversations(lim, d1, now));
    DropKeepsOutbox(d3, StaleStubs(d3, cutoff));
  }

  lemma DropKeepsOutbox(db: Db, ids: set<string>)
    ensures Drop(db, ids).outbox == db.outbox
  {}

  lemma CleanupFollows(lim: Limits, db: Db, now: real)
    ensures IndexFollows(db, Cleanup(lim, db, now)) && Cleanup(lim, db, now).outbox == db.outbox
  {
    hide CleanConversation;
  }

  /** Executed one after the other, they clean each conversation as specified. */
  lemma StatementsAreCleanup(lim: Limits, db: Db, now: real)
    ensures Statements(lim, db, now) == Cleanup(lim, db, now)
  {
    var d, clean := Statements(lim, db, now), Cleanup(lim, db, now);
    forall id | id in db.conversations
      ensures id in d.conversations <==> id in clean.conversations
      ensures id in d.conversations ==> d.conversations[id] == clean.conversations[id]
    {
      StatementsOnOne(lim, db, now, id);
      hide CleanConversation, Statements;
    }
    StatementsFollow(lim, db, now);
    CleanupFollows(lim, db, now);
    assert clean.conversations.Keys <= db.conversations.Keys;
    hide Statements, Cleanup;
    assert d.conversations == clean.conversations;
    assert d.byScope == clean.byScope;
  }

  lemma StatementsOnOne(lim: Limits, db: Db, now: real, id: string)
    requires id in db.conversations
    ensures var d := Statements(lim, db, now);
      && (id in d.conversations <==> CleanConversation(lim, db.conversations[id], now).Some?)
      && (id in d.conversations ==> CleanConversation(lim, db.conversations[id], now) == Some(d.conversations[id]))
  {
    hide ExpireLeases, RetentionExpired, PruneTurns, StaleStub, StaleRows, WithoutTurns;
    var d1 := db.(conversations := ExpireAll(db.conversations, now));
    var d2 := if lim.retentionDays > 0 then Drop(d1, ExpiredConversations(lim, d1, now)) else d1;
    var cutoff := Cutoff(lim.incompleteRetentionDays, now);
    NotRetained(lim, ExpireLeases(db.conversations[id], now), now);
    if id in d2.conversations {
      PrunedRows(d2, id, cutoff);
    }
    SameKeys(d2.conversations, StaleRows(d2, cutoff));
  }

  lemma NotRetained(lim: Limits, c: Conversation, now: real)
    ensures lim.retentionDays <= 0 ==> !RetentionExpired(lim, c, now)
  {}

  lemma SameKeys(conversations: map<string, Conversation>, rows: set<(string, string)>)
    ensures WithoutTurns(conversations, rows).Keys == conversations.Keys
  {}

  lemma PrunedRows(db: Db, id: string, cutoff: real)
    requires id in db.conversations
    ensures WithoutTurns(db.conversations, StaleRows(db, cutoff))[id] == PruneTurns(db.conversations[id], cutoff)
  {
    assert WithoutTurns(db.conversations, StaleRows(db, cutoff))[id].turns == PruneTurns(db.conversations[id], cutoff).turns;
  }

  lemma WithoutNothing(conversations: map<string, Conversation>)
    ensures WithoutTurns(conversations, {}) == conversations
  {
    forall id | id in conversations
      ensures WithoutTurns(conversations, {})[id] == conversations[id]
    {
      assert WithoutTurns(conversations, {})[id].turns == conversations[id].turns;
    }
  }

  /** Knowledge bases of `existing` already visited and not in the list are unselected. */
  function Unselected(kbs: map<string, bool>, existing: map<string, bool>, left: set<string>, ids: seq<string>)
    : map<string, bool>
  {
    map kb | kb in kbs :: kbs[kb] && !(kb in existing && kb !in left && kb !in ids)
  }

  function Upserted(existing: map<string, bool>, ids: seq<string>): map<string, bool> {
    existing + (map kb | kb in ids && kb != "" :: true)
  }

  lemma AssociateNone(kbs: map<string, bool>)
    ensures Associate(kbs, []) == kbs
  {}

  lemma AssociateOne(kbs: map<string, bool>, ids: seq<string>, id: string)
    ensures var before := Associate(kbs, ids);
            Associate(kbs, ids + [id]) == if id == "" || id in before then before else before[id := false]
  {}

  lemma UpsertedNone(existing: map<string, bool>)
    ensures Upserted(existing, []) == existing
  {}

  lemma UpsertOne(existing: map<string, bool>, ids: seq<string>, id: string)
    ensures Upserted(existing, ids + [id])
         == if id == "" then Upserted(existing, ids) else Upserted(existing, ids)[id := true]
  {}

  lemma UnselectOne(kbs: map<string, bool>, existing: map<string, bool>, left: set<string>, ids: seq<string>, kb: string)
    requires kb in left && left <= existing.Keys <= kbs.Keys
    ensures Unselected(kbs, existing, left - {kb}, ids) ==
            if kb in ids then Unselected(kbs, existing, left, ids)
            else Unselected(kbs, existing, left, ids)[kb := false]
  {}

  lemma SelectedBySteps(existing: map<string, bool>, ids: seq<string>)
    ensures Unselected(Upserted(existing, ids), existing, {}, ids) == Select(existing, ids)
  {}

  // ----- The artifact plan, message by message ------------------------------------------

  /** The readable references of the first messages of one conversation. */
  function ReferencesIn(messages: seq<Message>): References {
    if messages == [] then NoReferences
    else
      var rest, references := ReferencesIn(messages[..|messages| - 1]), messages[|messages| - 1].metadata.references;
      if references.Some? then rest.Union(references.value) else rest
  }

  predicate Readable(messages: seq<Message>) {
    forall i :: 0 <= i < |messages| ==> messages[i].metadata.references.Some?
  }

  lemma {:induction false} ReferencesInHolds(messages: seq<Message>)
    ensures forall a :: a in ReferencesIn(messages).attachments <==>
              exists m :: m in messages && m.metadata.references.Some? && a in m.metadata.references.value.attachments
    ensures forall a :: a in ReferencesIn(messages).images <==>
              exists m :: m in messages && m.metadata.references.Some? && a in m.metadata.references.value.images
    ensures forall a :: a in ReferencesIn(messages).runs <==>
              exists m :: m in messages && m.metadata.references.Some? && a in m.metadata.references.value.runs
  {
    if messages != [] {
      var rest, last := messages[..|messages| - 1], messages[|messages| - 1];
      ReferencesInHolds(rest);
      assert messages == rest + [last];
      assert forall m :: m in messages <==> m in rest || m == last;
      hide ReferencesIn;
      assert ReferencesIn(messages) == if last.metadata.references.Some?
                                       then ReferencesIn(rest).Union(last.metadata.references.value)
                                       else ReferencesIn(rest) by {
        OneMoreMessage(messages);
      }
    }
  }

  lemma OneMoreMessage(messages: seq<Message>)
    requires messages != []
    ensures var rest, last := ReferencesIn(messages[..|messages| - 1]), messages[|messages| - 1].metadata.references;
            ReferencesIn(messages) == if last.Some? then rest.Union(last.value) else rest
  {}

  lemma OwnedByOneMore(db: Db, ids: set<string>, id: string)
    requires id in db.conversations
    ensures OwnedBy(db, ids + {id}) == OwnedBy(db, ids).Union(ReferencesIn(db.conversations[id].messages))
  {
    ReferencesInHolds(db.conversations[id].messages);
    hide ReferencesIn;
    var more, either := OwnedBy(db, ids + {id}), OwnedBy(db, ids).Union(ReferencesIn(db.conversations[id].messages));
    assert forall a :: a in more.attachments <==> a in either.attachments;
    assert forall a :: a in more.images <==> a in either.images;
    assert forall a :: a in more.runs <==> a in either.runs;
  }

  lemma OwnedByNone(db: Db, ids: set<string>)
    requires ids !! db.conversations.Keys
    ensures OwnedBy(db, ids) == NoReferences
  {}

  lemma SameOwners(db: Db, ids: set<string>)
    ensures OwnedBy(db, (db.conversations.Keys - {}) * ids) == OwnedBy(db, ids)
    ensures db.conversations.Keys - {} - ids == db.conversations.Keys - ids
  {}

  lemma ReadableAll(db: Db)
    ensures MetadataReadable(db) <==> forall id :: id in db.conversations ==> Readable(db.conversations[id].messages)
  {
    if forall id :: id in db.conversations ==> Readable(db.conversations[id].messages) {
      forall id, m | id in db.conversations && m in db.conversations[id].messages
        ensures m.metadata.references.Some?
      {
        var i :| 0 <= i < |db.conversations[id].messages| && db.conversations[id].messages[i] == m;
        assert Readable(db.conversations[id].messages);
      }
    }
  }

  class ConversationHistoryStore {
    const lim: Limits
    var db: Db

    ghost predicate Valid()
      reads this
    {
      DbOk(lim, db)
    }

    constructor (lim: Limits)
      ensures Valid() && this.lim == lim && db == EmptyDb
    {
      this.lim := lim;
      this.db := EmptyDb;
      new;
      EmptyDbOk(lim);
    }

    // ----- Retention ---------------------------------------------------------------

    method DeleteConversations(ids: set<string>)
      modifies this`db
      ensures db == Drop(old(db), ids)
    {
      var rows := ids;
      while rows != {}
        invariant rows <= ids
        invariant db == Drop(old(db), ids - rows)
      {
        var id :| id in rows;
        DropTwice(old(db), ids - rows, {id});
        db := Drop(db, {id});
        rows := rows - {id};
        assert ids - rows == (ids - (rows + {id})) + {id};
      }
      assert ids - rows == ids;
    }

    method DeleteTurns(rows: set<(string, string)>)
      modifies this`db
      ensures db == old(db).(conversations := WithoutTurns(old(db).conversations, rows))
    {
      var left := rows;
      WithoutNothing(db.conversations);
      assert rows - left == {};
      while left != {}
        invariant left <= rows
        invariant db == old(db).(conversations := WithoutTurns(old(db).conversations, rows - left))
      {
        var row :| row in left;
        DeleteOneMore(old(db).conversations, rows, left, row);
        db := db.(conversations := WithoutTurns(db.conversations, {row}));
        left := left - {row};
      }
      assert rows - left == rows;
    }

    static lemma DeleteOneMore(conversations: map<string, Conversation>, rows: set<(string, string)>,
                               left: set<(string, string)>, row: (string, string))
      requires row in left && left <= rows
      ensures WithoutTurns(WithoutTurns(conversations, rows - left), {row})
           == WithoutTurns(conversations, rows - (left - {row}))
    {
      var once := WithoutTurns(conversations, rows - left);
      forall id | id in conversations
        ensures WithoutTurns(once, {row})[id] == WithoutTurns(conversations, rows - (left - {row}))[id]
      {
        assert WithoutTurns(once, {row})[id].turns == WithoutTurns(conversations, rows - (left - {row}))[id].turns;
      }
    }

    method CleanupExpiredLocked(now: real)
      modifies this`db
      ensures db == Cleanup(lim, old(db), now)
    {
      StatementsAreCleanup(lim, db, now);
      hide Cleanup, Drop, ExpireAll, ExpiredConversations, StaleRows, StaleStubs, WithoutTurns;
      db := db.(conversations := ExpireAll(db.conversations, now));
      if lim.retentionDays > 0 {
        DeleteConversations(ExpiredConversations(lim, db, now));
      }
      if lim.incompleteRetentionDays > 0 {
        var cutoff := Cutoff(lim.incompleteRetentionDays, now);
        DeleteTurns(StaleRows(db, cutoff));
        DeleteConversations(StaleStubs(db, cutoff));
      }
    }

    method CleanupExpired(now: real)
      requires Valid()
      modifies this`db
      ensures Valid() && db == Cleanup(lim, old(db), now)
    {
      CleanupKeeps(lim, db, now);
      CleanupExpiredLocked(now);
    }

    // ----- Turn lifecycle ------------------------------------------------------------

    method AssociateKnowledgeBases(id: string, ids: seq<string>)
      requires id in db.conversations
      modifies this`db
      ensures db == Put(old(db), id, old(db).conversations[id].(
                          knowledgeBases := Associate(old(db).conversations[id].knowledgeBases, ids)))
    {
      var kbs := db.conversations[id].knowledgeBases;
      AssociateNone(kbs);
      hide Associate;
      for i := 0 to |ids|
        invariant db == old(db) && kbs == Associate(db.conversations[id].knowledgeBases, ids[..i])
      {
        assert ids[..i + 1] == ids[..i] + [ids[i]];
        AssociateOne(db.conversations[id].knowledgeBases, ids[..i], ids[i]);
        if ids[i] != "" && ids[i] !in kbs {
          kbs := kbs[ids[i] := false];
        }
      }
      assert ids[..|ids|] == ids;
      db := Put(db, id, db.conversations[id].(knowledgeBases := kbs));
    }

    method SelectKnowledgeBases(existing: map<string, bool>, ids: seq<string>) returns (kbs: map<string, bool>)
      ensures kbs == Select(existing, ids)
    {
      kbs := UpsertSelected(existing, ids);
      ghost var upserted := kbs;
      var left := existing.Keys;
      assert kbs == Unselected(kbs, existing, left, ids);
      while left != {}
        invariant left <= existing.Keys <= upserted.Keys
        invariant kbs == Unselected(upserted, existing, left, ids)
        decreases left
      {
        var kb :| kb in left;
        UnselectOne(upserted, existing, left, ids, kb);
        if kb !in ids {
          kbs := kbs[kb := false];
        }
        left := left - {kb};
      }
      SelectedBySteps(existing, ids);
    }

    method UpsertSelected(existing: map<string, bool>, ids: seq<string>) returns (kbs: map<string, bool>)
      ensures kbs == Upserted(existing, ids)
    {
      kbs := existing;
      UpsertedNone(existing);
      hide Upserted;
      for i := 0 to |ids|
        invariant kbs == Upserted(existing, ids[..i])
      {
        assert ids[..i + 1] == ids[..i] + [ids[i]];
        UpsertOne(existing, ids[..i], ids[i]);
        if ids[i] != "" {
          kbs := kbs[ids[i] := true];
        }
      }
      assert ids[..|ids|] == ids;
    }

    method AssertLinearParent(id: string, parent: Option<string>) returns (error: Option<HistoryError>)
      requires id in db.conversations
      ensures error == LinearParent(db.conversations[id], parent)
    {
      var expected := db.conversations[id].lastTurn;
      if parent == None {
        if expected != None {
          return Some(ContinuityBroken(expected));
        }
        return None;
      }
      if expected == None {
        return Some(ContinuityBroken(None));
      }
      if expected != parent {
        return Some(ContinuityBroken(expected));
      }
      return None;
    }

    method HandleExistingTurn(id: string, turnId: string, fingerprint: string, now: real, token: string)
      returns (r: Result<BeginOutcome, HistoryError>)
      requires id in db.conversations && turnId in db.conversations[id].turns
      modifies this`db
      ensures match BeginExisting(lim, old(db).conversations[id], turnId, fingerprint, now, token)
              case Err(error) => r == Err(error)
              case Ok(pair) => r == Ok(pair.1) && db == Put(old(db), id, pair.0)
    {
      hide MessagesForTurn, SlotTaken;
      var existing := db.conversations[id].turns[turnId];
      assert Put(db, id, db.conversations[id]) == db by {
        assert db.conversations[id := db.conversations[id]] == db.conversations;
      }
      if existing.fingerprint != fingerprint {
        return Err(TurnConflict);
      }
      if existing.status == Complete {
        return Ok(CompleteTurnReplay(MessagesForTurn(db.conversations[id].messages, turnId)));
      }
      if existing.status == Ready {
        return Ok(ReadyTurn(existing.digest, existing.lease, existing.expires));
      }
      var expires := LeaseEnd(lim, now);
      var renewed := existing.(status := Generating, lease := Some(token), expires := Some(expires), updatedAt := now);
      if existing.status == Failed {
        var broken := AssertLinearParent(id, existing.parent);
        if broken.Some? {
          return Err(broken.value);
        }
        if SlotTaken(db.conversations[id].turns, turnId, existing.parent) {
          return Err(UniqueViolation);
        }
        db := PutRow(db, id, turnId, renewed);
        return Ok(NewTurn(token, expires));
      }
      if existing.expires.Some? && existing.expires.value != 0.0 && existing.expires.value < now {
        db := PutRow(db, id, turnId, renewed);
        return Ok(NewTurn(token, expires));
      }
      return Err(TurnInProgress);
    }

    method ReserveNewTurn(id: string, req: BeginRequest, now: real, token: string)
      returns (r: Result<BeginOutcome, HistoryError>)
      requires id in db.conversations && req.turnId !in db.conversations[id].turns
      modifies this`db
      ensures match BeginNew(lim, old(db).conversations[id], |PendingRows(old(db).conversations)|, req, now, token)
              case Err(error) => r == Err(error)
              case Ok(pair) => r == Ok(pair.1) && db == Put(old(db), id, pair.0)
    {
      hide SlotTaken, PendingRows;
      var broken := AssertLinearParent(id, req.parent);
      if broken.Some? {
        return Err(broken.value);
      }
      if lim.maxPendingTurns > 0 && |PendingRows(db.conversations)| >= lim.maxPendingTurns {
        return Err(QuotaExceeded);
      }
      if SlotTaken(db.conversations[id].turns, req.turnId, req.parent) {
        return Err(TurnInProgress);
      }
      var expires := LeaseEnd(lim, now);
      db := PutRow(db, id, req.turnId,
                   Turn(req.parent, req.fingerprint, Generating, None, Some(token), Some(expires), now));
      return Ok(NewTurn(token, expires));
    }

    method BeginTurn(req: BeginRequest, now: real, token: string, newId: string)
      returns (r: Result<BeginOutcome, HistoryError>)
      requires Valid()
      modifies this`db
      ensures Valid()
      ensures db == After(old(db), Begin(lim, old(db), req, now, token, newId))
      ensures r == Outcome(Begin(lim, old(db), req, now, token, newId))
    {
      hide BeginCleaned, ConversationOk, QuotasOk, Cleanup;
      BeginKeeps(lim, db, req, now, token, newId);
      CleanupKeeps(lim, db, now);
      if req.turnId == "" || |req.turnId| > 80 || req.fingerprint == "" || |req.fingerprint| > 64 {
        return Err(InvalidRequest);
      }
      var savepoint := db;
      CleanupExpiredLocked(now);
      r := BeginInScope(req, now, token, newId);
      if r.Err? {
        db := savepoint;
      }
    }

    /** The part of a begin that runs on the cleaned database, before commit or rollback. */
    method BeginInScope(req: BeginRequest, now: real, token: string, newId: string)
      returns (r: Result<BeginOutcome, HistoryError>)
      requires IndexOk(db)
      modifies this`db
      ensures var tx := BeginCleaned(lim, old(db), req, now, token, newId);
              r == Outcome(tx) && (r.Ok? ==> db == After(old(db), tx))
    {
      hide PendingRows, Committed, BeginExisting, BeginNew, Associate;
      if lim.maxConversations > 0 && req.scopeKey !in db.byScope {
        if |Committed(db.conversations)| >= lim.maxConversations {
          return Err(QuotaExceeded);
        }
      }
      var id;
      if req.scopeKey in db.byScope {
        id := db.byScope[req.scopeKey];
        if db.conversations[id].archived {
          return Err(ConversationArchived);
        }
      } else {
        if newId in db.conversations {
          return Err(UniqueViolation);
        }
        id := newId;
        db := Put(db, id, NewConversation(req.scopeKey, now)).(byScope := db.byScope[req.scopeKey := id]);
      }
      ghost var entered := db;
      AssociateKnowledgeBases(id, req.knowledgeBases);
      AssociationIsNotPending(entered, id, db.conversations[id].knowledgeBases);
      if req.turnId in db.conversations[id].turns {
        r := HandleExistingTurn(id, req.turnId, req.fingerprint, now, token);
      } else {
        r := ReserveNewTurn(id, req, now, token);
      }
      assert forall c, c' :: Put(Put(entered, id, c), id, c') == Put(entered, id, c') by {
        PutTwice(entered, id);
      }
    }

    method RecoverReadyTurn(scopeKey: string, turnId: string, fingerprint: string, expected: Option<string>,
                            now: real, token: string)
      returns (r: Result<RecoverOutcome, HistoryError>)
      requires Valid()
      modifies this`db
      ensures Valid()
      ensures db == After(old(db), Recover(lim, old(db), scopeKey, turnId, fingerprint, expected, now, token))
      ensures r == Outcome(Recover(lim, old(db), scopeKey, turnId, fingerprint, expected, now, token))
    {
      hide ConversationOk, QuotasOk, MessagesForTurn;
      RecoverKeeps(lim, db, scopeKey, turnId, fingerprint, expected, now, token);
      var found := FindTurn(db, scopeKey, turnId);
      if found.None? {
        return Err(ConversationNotFound);
      }
      var row := Row(db, found.value, turnId);
      if row.fingerprint != fingerprint {
        return Err(TurnConflict);
      }
      if row.status == Complete {
        return Ok(AlreadyComplete(MessagesForTurn(db.conversations[found.value].messages, turnId)));
      }
      if row.status != Ready {
        return Err(TurnInProgress);
      }
      if row.lease != expected {
        return Err(TurnInProgress);
      }
      var expires := LeaseEnd(lim, now);
      db := PutRow(db, found.value, turnId,
                   row.(status := Generating, digest := None, lease := Some(token), expires := Some(expires),
                        updatedAt := now));
      return Ok(Recovered(token, expires));
    }

    method MarkTurnReady(scopeKey: string, turnId: string, token: string, digest: string, now: real)
      returns (marked: bool)
      requires Valid()
      modifies this`db
      ensures Valid() && Commit(db, marked) == MarkReady(old(db), scopeKey, turnId, token, digest, now)
    {
      hide ConversationOk, QuotasOk;
      OwnedRowKeeps(lim, db, scopeKey, turnId, token, digest, now);
      var found := FindTurn(db, scopeKey, turnId);
      if found.None? {
        return false;
      }
      var row := Row(db, found.value, turnId);
      if row.lease != Some(token) {
        return false;
      }
      if row.status != Generating && row.status != Ready {
        return false;
      }
      db := PutRow(db, found.value, turnId, row.(status := Ready, digest := Some(digest), updatedAt := now));
      return true;
    }

    method RenewTurnLease(scopeKey: string, turnId: string, token: string, now: real) returns (renewed: bool)
      requires Valid()
      modifies this`db
      ensures Valid() && Commit(db, renewed) == Renew(lim, old(db), scopeKey, turnId, token, now)
    {
      hide ConversationOk, QuotasOk;
      OwnedRowKeeps(lim, db, scopeKey, turnId, token, "", now);
      var found := FindTurn(db, scopeKey, turnId);
      if found.None? || Row(db, found.value, turnId).lease != Some(token) {
        return false;
      }
      var row := Row(db, found.value, turnId);
      if row.status != Generating && row.status != Ready {
        return false;
      }
      db := PutRow(db, found.value, turnId, row.(expires := Some(LeaseEnd(lim, now)), updatedAt := now));
      return true;
    }

    method FailTurn(scopeKey: string, turnId: string, token: string, now: real) returns (failed: bool)
      requires Valid()
      modifies this`db
      ensures Valid() && Commit(db, failed) == Fail(old(db), scopeKey, turnId, token, now)
    {
      hide ConversationOk, QuotasOk;
      OwnedRowKeeps(lim, db, scopeKey, turnId, token, "", now);
      var found := FindTurn(db, scopeKey, turnId);
      if found.None? || Row(db, found.value, turnId).lease != Some(token) {
        return false;
      }
      var row := Row(db, found.value, turnId);
      if row.status == Complete {
        return false;
      }
      db := PutRow(db, found.value, turnId,
                   row.(status := Failed, lease := None, expires := None, updatedAt := now));
      return true;
    }

    // ----- Completion ----------------------------------------------------------------

    method TotalPayload() returns (total: nat)
      ensures total == TotalBytes(db.conversations)
    {
      total := 0;
      var left := db.conversations;
      while left != map[]
        invariant total + TotalBytes(left) == TotalBytes(db.conversations)
        decreases |left|
      {
        var id :| id in left;
        TotalBytesWithout(left, id);
        total := total + left[id].payloadBytes;
        left := left - {id};
      }
    }

    /** Refuses exactly when one of the four quotas leaves no room for the pair. */
    method EnforceQuotas(id: string, bytes: nat) returns (over: bool)
      requires id in db.conversations
      ensures over <==> !RoomFor(lim, db, id, bytes)
      ensures over == OverQuota(lim, db, id, db.conversations[id], bytes)
    {
      hide Committed, TotalBytes, RoomFor;
      RoomIffNotOver(lim, db, id, bytes);
      var c := db.conversations[id];
      if lim.maxConversations > 0 && c.messageCount == 0 {
        if |Committed(db.conversations) - {id}| >= lim.maxConversations {
          return true;
        }
      }
      if c.messageCount + 2 > lim.maxMessages {
        return true;
      }
      if c.payloadBytes + bytes > lim.maxConversationBytes {
        return true;
      }
      var total := TotalPayload();
      return total + bytes > lim.maxHistoryBytes;
    }

    method CompleteTurn(req: CompleteRequest, now: real) returns (r: Result<CompleteOutcome, HistoryError>)
      requires Valid()
      modifies this`db
      ensures Valid()
      ensures db == After(old(db), HistorySpec.CompleteTurn(lim, old(db), req, now))
      ensures r == Outcome(HistorySpec.CompleteTurn(lim, old(db), req, now))
    {
      hide DbOk, MessagesForTurn, OverQuota, ContentFits, TurnBytes, NextSequence, Select, Pair;
      CompleteTurnKeeps(lim, db, req, now);
      if !ContentFits(lim, req) {
        return Err(ContentTooLarge);
      }
      var found := FindTurn(db, req.scopeKey, req.turnId);
      if found.None? {
        return Err(ConversationNotFound);
      }
      var id := found.value;
      var c := db.conversations[id];
      var row := c.turns[req.turnId];
      if row.status == Complete {
        return Ok(Replayed(MessagesForTurn(c.messages, req.turnId)));
      }
      if row.lease != Some(req.token) {
        return Err(TurnConflict);
      }
      if row.fingerprint != req.fingerprint {
        return Err(TurnConflict);
      }
      var bytes := TurnBytes(req);
      var over := EnforceQuotas(id, bytes);
      if over {
        return Err(QuotaExceeded);
      }
      var next := NextSequence(c.messages);
      c := c.(messages := c.messages + Pair(req, next));
      var kbs := SelectKnowledgeBases(c.knowledgeBases, req.knowledgeBases);
      c := c.(knowledgeBases := kbs);
      c := c.(turns := c.turns[req.turnId := row.(status := Complete, lease := None, expires := None, updatedAt := now)]);
      c := c.(messageCount := c.messageCount + 2, payloadBytes := c.payloadBytes + bytes,
              lastTurn := Some(req.turnId), updatedAt := now);
      db := Put(db, id, c);
      return Ok(Saved(next, next + 1, c.messageCount, c.payloadBytes, MessagesForTurn(c.messages, req.turnId)));
    }

    // ----- Maintenance -----------------------------------------------------------------

    method ResetContinuity(id: string, now: real) returns (r: Result<Option<string>, HistoryError>)
      requires Valid()
      modifies this`db
      ensures Valid()
      ensures db == After(old(db), HistorySpec.ResetContinuity(old(db), id, now))
      ensures r == Outcome(HistorySpec.ResetContinuity(old(db), id, now))
    {
      hide ConversationOk, QuotasOk;
      ResetKeeps(lim, db, id, now);
      if id !in db.conversations {
        return Err(ConversationNotFound);
      }
      var c := db.conversations[id];
      db := Put(db, id, c.(turns := map t | t in c.turns :: ResetTurn(c.turns[t], now)));
      return Ok(c.lastTurn);
    }

    method UpdateConversation(id: string, archived: Option<bool>, now: real) returns (r: Result<(), HistoryError>)
      requires Valid()
      modifies this`db
      ensures Valid()
      ensures db == After(old(db), HistorySpec.UpdateConversation(old(db), id, archived, now))
      ensures r == Outcome(HistorySpec.UpdateConversation(old(db), id, archived, now))
    {
      hide ConversationOk, QuotasOk, HasLive;
      UpdateConversationKeeps(lim, db, id, archived, now);
      if id !in db.conversations {
        return Err(ConversationNotFound);
      }
      var c := db.conversations[id];
      if archived == Some(true) {
        if HasLive(c) {
          return Err(TurnInProgress);
        }
      }
      if archived.Some? {
        c := c.(archived := archived.value);
      }
      db := Put(db, id, c.(updatedAt := now));
      return Ok(());
    }

    method UpdateSummary(scopeKey: string, summary: seq<int>, expected: int, through: int, now: real)
      returns (updated: bool)
      requires Valid()
      modifies this`db
      ensures Valid()
      ensures Commit(db, updated) == HistorySpec.UpdateSummary(old(db), scopeKey, summary, expected, through, now)
    {
      hide ConversationOk, QuotasOk;
      UpdateSummaryKeeps(lim, db, scopeKey, summary, expected, through, now);
      if scopeKey !in db.byScope {
        return false;
      }
      var id := db.byScope[scopeKey];
      var c := db.conversations[id];
      if c.summaryVersion != expected {
        return false;
      }
      if through <= c.summaryThrough {
        return false;
      }
      db := Put(db, id, c.(summary := summary, summaryVersion := expected + 1, summaryThrough := through,
                           updatedAt := now));
      return true;
    }

    // ----- Deletion ----------------------------------------------------------------------

    /** The references of one conversation's messages; unreadable metadata is passed over and reported. */
    method CollectReferences(id: string) returns (references: References, readable: bool)
      requires id in db.conversations
      ensures references == ReferencesIn(db.conversations[id].messages)
      ensures readable == Readable(db.conversations[id].messages)
    {
      var messages := db.conversations[id].messages;
      references, readable := NoReferences, true;
      for i := 0 to |messages|
        invariant references == ReferencesIn(messages[..i])
        invariant readable == Readable(messages[..i])
      {
        OneMoreMessage(messages[..i + 1]);
        assert messages[..i + 1][..i] == messages[..i];
        if messages[i].metadata.references.Some? {
          references := references.Union(messages[i].metadata.references.value);
        } else {
          assert !Readable(messages[..i + 1]) by {
            assert messages[..i + 1][i].metadata.references.None?;
          }
          readable := false;
        }
      }
      assert messages[..|messages|] == messages;
    }

    /** Every message of the workspace counts, for the conversations that go or for those that stay. */
    method ArtifactCleanupPlanLocked(ids: set<string>) returns (plan: DeletionPlan)
      ensures plan == if ids == {} then DeletionPlan(NoReferences, true) else CleanupPlan(db, ids)
    {
      hide ReferencesIn, Readable, OwnedBy, ExclusiveReferences, MetadataReadable;
      var target, retained, safe := NoReferences, NoReferences, true;
      if ids == {} {
        return DeletionPlan(NoReferences, true);
      }
      var left := db.conversations.Keys;
      OwnedByNone(db, {});
      assert (db.conversations.Keys - left) * ids == {} && db.conversations.Keys - left - ids == {};
      while left != {}
        invariant left <= db.conversations.Keys
        invariant target == OwnedBy(db, (db.conversations.Keys - left) * ids)
        invariant retained == OwnedBy(db, db.conversations.Keys - left - ids)
        invariant safe <==> forall id :: id in db.conversations && id !in left ==> Readable(db.conversations[id].messages)
        decreases left
      {
        var id :| id in left;
        var references, readable := CollectReferences(id);
        safe := safe && readable;
        ghost var seen := db.conversations.Keys - left;
        left := left - {id};
        assert db.conversations.Keys - left == seen + {id};
        if id in ids {
          OwnedByOneMore(db, seen * ids, id);
          assert (seen + {id}) * ids == seen * ids + {id} && seen + {id} - ids == seen - ids;
          target := target.Union(references);
        } else {
          OwnedByOneMore(db, seen - ids, id);
          assert (seen + {id}) * ids == seen * ids && seen + {id} - ids == seen - ids + {id};
          retained := retained.Union(references);
        }
      }
      ReadableAll(db);
      SameOwners(db, ids);
      if !safe {
        return UnsafePlan;
      }
      return DeletionPlan(ExclusiveReferences(target, retained), true);
    }

    method DeleteWithArtifactCleanup(id: string) returns (deleted: bool, plan: DeletionPlan)
      requires Valid()
      modifies this`db
      ensures Valid() && Commit(db, (deleted, plan)) == DeleteWithCleanup(old(db), id)
    {
      hide ConversationOk, QuotasOk, CleanupPlan, Drop;
      if id !in db.conversations {
        return false, PlanFromOutbox(db, ConversationKey(id));
      }
      DropWithPlanKeeps(lim, db, ConversationKey(id), {id});
      plan := ArtifactCleanupPlanLocked({id});
      if plan.safe {
        db := db.(outbox := db.outbox[ConversationKey(id) := plan.exclusive]);
      }
      DeleteConversations({id});
      return true, plan;
    }

    method DeleteByKnowledgeBaseWithCleanup(kb: string) returns (count: nat, plan: DeletionPlan)
      requires Valid()
      modifies this`db
      ensures Valid() && Commit(db, (count, plan)) == DeleteByKnowledgeBase(old(db), kb)
    {
      hide ConversationOk, QuotasOk, CleanupPlan, Drop, UsersOf;
      var ids := UsersOf(db, kb);
      if ids == {} {
        return 0, PlanFromOutbox(db, KnowledgeBaseKey(kb));
      }
      DropWithPlanKeeps(lim, db, KnowledgeBaseKey(kb), ids);
      plan := ArtifactCleanupPlanLocked(ids);
      if plan.safe {
        db := db.(outbox := db.outbox[KnowledgeBaseKey(kb) := plan.exclusive]);
      }
      DeleteConversations(ids);
      return |ids|, plan;
    }

    method CompleteArtifactCleanup(key: string) returns (removed: bool)
      requires Valid()
      modifies this`db
      ensures Valid() && Commit(db, removed) == HistorySpec.CompleteArtifactCleanup(old(db), key)
    {
      hide ConversationOk, QuotasOk;
      OutboxIsSeparate(lim, db, db.outbox - {key});
      removed := key in db.outbox;
      db := db.(outbox := db.outbox - {key});
    }

    method Delete(id: string) returns (deleted: bool)
      requires Valid()
      modifies this`db
      ensures Valid() && Commit(db, deleted) == HistorySpec.Delete(old(db), id)
    {
      hide ConversationOk, QuotasOk, Drop;
      if id !in db.conversations {
        return false;
      }
      DropKeeps(lim, db, {id});
      DeleteConversations({id});
      return true;
    }

    // ----- Read API ------------------------------------------------------------------------

    /** The row of a scope with its knowledge bases, read in one snapshot. */
    method GetByScopeKey(scopeKey: string) returns (row: Option<(string, Conversation)>)
      requires Valid()
      ensures row == ScopeRow(db, scopeKey)
    {
      if scopeKey !in db.byScope {
        return None;
      }
      var id := db.byScope[scopeKey];
      return Some((id, db.conversations[id]));
    }

    /**
     The page that ends before the cursor, oldest message first, and the
     sequence of its first message exactly when older ones remain.
     */
    method ListMessages(id: string, before: Option<int>, limit: int) returns (r: Result<Page, HistoryError>)
      requires Valid()
      ensures id !in db.conversations ==> r == Err(ConversationNotFound)
      ensures id in db.conversations ==>
                var messages, n := db.conversations[id].messages, ClampLimit(limit);
                var end := if before.None? || before.value > |messages| then |messages|
                           else if before.value < 1 then 0 else before.value - 1;
                var start := if end > n then end - n else 0;
                && r == Ok(PageBefore(messages, before, limit))
                && r.value.messages == messages[start..end]
                && r.value.next == if start > 0 then Some(start + 1) else None
    {
      hide IndexOk, QuotasOk, TurnsOk, MessageBytes, RowsBefore, ReferencesOk;
      if id in db.conversations {
        PageBeforeSlice(db.conversations[id].messages, before, limit);
      }
      if id !in db.conversations {
        return Err(ConversationNotFound);
      }
      var n := ClampLimit(limit);
      var rows := RowsBefore(db.conversations[id].messages, before);
      if |rows| > n + 1 {
        assert rows[|rows| - n - 1..][1..] == rows[|rows| - n..];
        rows := rows[|rows| - n - 1..];
      }
      var hasMore := |rows| > n;
      if hasMore {
        rows := rows[1..];
      }
      var next := None;
      if hasMore && rows != [] {
        next := Some(rows[0].sequence);
      }
      return Ok(Page(rows, next));
    }

    /**
     The slice of the transcript after the cursor, at most a page of it, and the
     sequence of its last row exactly when more rows follow.
     */
    method ListMessagesAfterSequence(id: string, after: int, limit: int) returns (r: Result<Page, HistoryError>)
      requires Valid()
      ensures id !in db.conversations ==> r == Err(ConversationNotFound)
      ensures id in db.conversations ==>
                var messages, n := db.conversations[id].messages, ClampLimit(limit);
                var start := if after < 0 then 0 else if after > |messages| then |messages| else after;
                && r == Ok(PageAfter(messages, after, limit))
                && r.value.messages == messages[start..if |messages| - start > n then start + n else |messages|]
                && r.value.next == if |messages| - start > n then Some(start + n) else None
    {
      hide IndexOk, QuotasOk, TurnsOk, MessageBytes, RowsAfter, ReferencesOk;
      if id in db.conversations {
        PageAfterSlice(db.conversations[id].messages, after, limit);
      }
      if id !in db.conversations {
        return Err(ConversationNotFound);
      }
      var n := ClampLimit(limit);
      var rows := RowsAfter(db.conversations[id].messages, if after > 0 then after else 0);
      if |rows| > n + 1 {
        assert rows[..n + 1][..n] == rows[..n];
        rows := rows[..n + 1];
      }
      var hasMore := |rows| > n;
      if hasMore {
        rows := rows[..n];
      }
      var next := None;
      if hasMore && rows != [] {
        next := Some(rows[|rows| - 1].sequence);
      }
      return Ok(Page(rows, next));
    }

    static lemma PutTwice(d: Db, id: string)
      ensures forall c, c' :: Put(Put(d, id, c), id, c') == Put(d, id, c')
    {
      forall c: Conversation, c': Conversation
        ensures Put(Put(d, id, c), id, c') == Put(d, id, c')
      {
        assert d.conversations[id := c][id := c'] == d.conversations[id := c'];
      }
    }

    static lemma AssociationIsNotPending(d: Db, id: string, kbs: map<string, bool>)
      requires id in d.conversations
      ensures PendingRows(Put(d, id, d.conversations[id].(knowledgeBases := kbs)).conversations)
           == PendingRows(d.conversations)
    {}
  }
}
