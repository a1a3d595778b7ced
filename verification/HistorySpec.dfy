/**
 What each BEGIN IMMEDIATE transaction of the history store does to the
 database: the state it commits, or the error it rolls back with.  Clocks,
 fresh ids and fresh lease tokens are arguments.
 */
module HistorySpec {
  import opened Wrappers
  import opened Artifacts
  import opened HistoryModel

  datatype HistoryError =
    | InvalidRequest
    | ContentTooLarge
    | ConversationNotFound
    | ConversationArchived
    | TurnConflict
    | TurnInProgress
    | ContinuityBroken(expected: Option<string>)
    | QuotaExceeded
    | UniqueViolation

  /** A transaction either commits a new database or leaves the old one untouched. */
  datatype Tx<+T> = Commit(db: Db, value: T) | Rollback(error: HistoryError)

  function Outcome<T>(tx: Tx<T>): Result<T, HistoryError> {
    match tx
    case Commit(_, value) => Ok(value)
    case Rollback(error) => Err(error)
  }

  function After<T>(db: Db, tx: Tx<T>): Db {
    match tx
    case Commit(db', _) => db'
    case Rollback(_) => db
  }

  function Put(db: Db, id: string, c: Conversation): Db {
    db.(conversations := db.conversations[id := c])
  }

  function PutTurn(c: Conversation, turnId: string, t: Turn): Conversation {
    c.(turns := c.turns[turnId := t])
  }

  function Drop(db: Db, ids: set<string>): Db {
    db.(conversations := db.conversations - ids,
        byScope := map s | s in db.byScope && db.byScope[s] !in ids :: db.byScope[s])
  }

  // ----- Retention -------------------------------------------------------------

  const SecondsPerDay := 86400.0

  function LeaseEnd(lim: Limits, now: real): real {
    now + lim.leaseSeconds as real
  }

  function Cutoff(days: int, now: real): real {
    now - days as real * SecondsPerDay
  }

  predicate LeaseExpired(t: Turn, now: real) {
    t.status == Generating && t.expires.Some? && t.expires.value < now
  }

  function FailTurnRow(t: Turn): Turn {
    t.(status := Failed, lease := None, expires := None)
  }

  function ExpireLeases(c: Conversation, now: real): Conversation {
    c.(turns := map t | t in c.turns :: if LeaseExpired(c.turns[t], now) then FailTurnRow(c.turns[t]) else c.turns[t])
  }

  predicate StaleTurn(t: Turn, cutoff: real) {
    (t.status == Ready || t.status == Failed) && t.updatedAt < cutoff
  }

  /** Active, with messages, idle since the cutoff and without a live turn. */
  predicate RetentionExpired(lim: Limits, c: Conversation, now: real) {
    && lim.retentionDays > 0
    && !c.archived
    && c.messageCount > 0
    && c.updatedAt < Cutoff(lim.retentionDays, now)
    && !HasLive(c)
  }

  function PruneTurns(c: Conversation, cutoff: real): Conversation {
    c.(turns := map t | t in c.turns && !StaleTurn(c.turns[t], cutoff) :: c.turns[t])
  }

  /** An empty, idle stub without turns.  Archived stubs are included. */
  predicate StaleStub(c: Conversation, cutoff: real) {
    c.messageCount == 0 && c.updatedAt < cutoff && c.turns == map[]
  }

  /** What one cleanup pass leaves of one conversation. */
  function CleanConversation(lim: Limits, c: Conversation, now: real): Option<Conversation> {
    var c1 := ExpireLeases(c, now);
    if RetentionExpired(lim, c1, now) then None
    else if lim.incompleteRetentionDays <= 0 then Some(c1)
    else
      var cutoff := Cutoff(lim.incompleteRetentionDays, now);
      var c2 := PruneTurns(c1, cutoff);
      if StaleStub(c2, cutoff) then None else Some(c2)
  }

  function Removed(lim: Limits, db: Db, now: real): set<string> {
    set id | id in db.conversations && CleanConversation(lim, db.conversations[id], now).None?
  }

  function Cleanup(lim: Limits, db: Db, now: real): Db {
    Db(map id | id in db.conversations && CleanConversation(lim, db.conversations[id], now).Some?
         :: CleanConversation(lim, db.conversations[id], now).value,
       Drop(db, Removed(lim, db, now)).byScope,
       db.outbox)
  }

  // ----- Turn reservation --------------------------------------------------------

  datatype BeginRequest = BeginRequest(
    scopeKey: string,
    turnId: string,
    parent: Option<string>,
    fingerprint: string,
    knowledgeBases: seq<string>)

  datatype BeginOutcome =
    | NewTurn(lease: string, expires: real)
    | ReadyTurn(digest: Option<string>, readyLease: Option<string>, readyExpires: Option<real>)
    | CompleteTurnReplay(messages: seq<Message>)

  predicate ValidRequest(req: BeginRequest) {
    && req.turnId != "" && |req.turnId| <= 80
    && req.fingerprint != "" && |req.fingerprint| <= 64
  }

  function NewConversation(scopeKey: string, now: real): Conversation {
    Conversation(scopeKey, false, [], 0, 0, 0, 0, None, now, map[], [], map[])
  }

  /** INSERT OR IGNORE of every non-empty knowledge base, not selected. */
  function Associate(kbs: map<string, bool>, ids: seq<string>): map<string, bool> {
    (map kb | kb in ids && kb != "" :: false) + kbs
  }

  /** The parent a caller must name, or the continuity error it gets. */
  function LinearParent(c: Conversation, parent: Option<string>): Option<HistoryError> {
    if parent == c.lastTurn then None else Some(ContinuityBroken(c.lastTurn))
  }

  function Reserve(c: Conversation, turnId: string, t: Turn): Option<Conversation> {
    if SlotTaken(c.turns, turnId, t.parent) then None else Some(PutTurn(c, turnId, t))
  }

  function BeginExisting(lim: Limits, c: Conversation, turnId: string, fingerprint: string, now: real, token: string)
    : Result<(Conversation, BeginOutcome), HistoryError>
    requires turnId in c.turns
  {
    var row := c.turns[turnId];
    var renewed := row.(status := Generating, lease := Some(token), expires := Some(LeaseEnd(lim, now)),
                        updatedAt := now);
    if row.fingerprint != fingerprint then Err(TurnConflict)
    else match row.status
      case Complete => Ok((c, CompleteTurnReplay(MessagesForTurn(c.messages, turnId))))
      case Ready => Ok((c, ReadyTurn(row.digest, row.lease, row.expires)))
      case Failed =>
        (match LinearParent(c, row.parent)
         case Some(error) => Err(error)
         case None =>
           match Reserve(c, turnId, renewed)
           case None => Err(UniqueViolation)
           case Some(c') => Ok((c', NewTurn(token, LeaseEnd(lim, now)))))
      case Generating =>
        if row.expires.Some? && row.expires.value != 0.0 && row.expires.value < now then
          Ok((PutTurn(c, turnId, renewed), NewTurn(token, LeaseEnd(lim, now))))
        else Err(TurnInProgress)
  }

  function BeginNew(lim: Limits, c: Conversation, pending: nat, req: BeginRequest, now: real, token: string)
    : Result<(Conversation, BeginOutcome), HistoryError>
  {
    match LinearParent(c, req.parent)
    case Some(error) => Err(error)
    case None =>
      if lim.maxPendingTurns > 0 && pending >= lim.maxPendingTurns then Err(QuotaExceeded)
      else
        var row := Turn(req.parent, req.fingerprint, Generating, None, Some(token), Some(LeaseEnd(lim, now)), now);
        match Reserve(c, req.turnId, row)
        case None => Err(TurnInProgress)
        case Some(c') => Ok((c', NewTurn(token, LeaseEnd(lim, now))))
  }

  predicate NewScopeOverQuota(lim: Limits, db: Db, scopeKey: string) {
    lim.maxConversations > 0 && scopeKey !in db.byScope && |Committed(db.conversations)| >= lim.maxConversations
  }

  /** SELECT by scope_key, or the freshly inserted stub. */
  function OpenScope(db: Db, scopeKey: string, now: real, newId: string): Tx<string> {
    if scopeKey in db.byScope then
      var id := db.byScope[scopeKey];
      if id in db.conversations && db.conversations[id].archived then Rollback(ConversationArchived)
      else Commit(db, id)
    else if newId in db.conversations then Rollback(UniqueViolation)
    else Commit(Put(db, newId, NewConversation(scopeKey, now)).(byScope := db.byScope[scopeKey := newId]), newId)
  }

  function BeginIn(lim: Limits, db: Db, id: string, req: BeginRequest, now: real, token: string): Tx<BeginOutcome>
    requires id in db.conversations
  {
    var c := db.conversations[id].(knowledgeBases := Associate(db.conversations[id].knowledgeBases, req.knowledgeBases));
    var result :=
      if req.turnId in c.turns then BeginExisting(lim, c, req.turnId, req.fingerprint, now, token)
      else BeginNew(lim, c, |PendingRows(db.conversations)|, req, now, token);
    match result
    case Err(error) => Rollback(error)
    case Ok(pair) => Commit(Put(db, id, pair.0), pair.1)
  }

  function BeginCleaned(lim: Limits, db: Db, req: BeginRequest, now: real, token: string, newId: string)
    : Tx<BeginOutcome>
  {
    if NewScopeOverQuota(lim, db, req.scopeKey) then Rollback(QuotaExceeded)
    else
      match OpenScope(db, req.scopeKey, now, newId)
      case Rollback(error) => Rollback(error)
      case Commit(db2, id) =>
        if id in db2.conversations then BeginIn(lim, db2, id, req, now, token) else Rollback(UniqueViolation)
  }

  /** Every begin first applies retention, in the same transaction. */
  function Begin(lim: Limits, db: Db, req: BeginRequest, now: real, token: string, newId: string): Tx<BeginOutcome> {
    if !ValidRequest(req) then Rollback(InvalidRequest)
    else BeginCleaned(lim, Cleanup(lim, db, now), req, now, token, newId)
  }

  // ----- Operations on a reserved turn --------------------------------------------

  /** The conversation of a scope when it holds a row for the turn. */
  function FindTurn(db: Db, scopeKey: string, turnId: string): Option<string> {
    if scopeKey in db.byScope && db.byScope[scopeKey] in db.conversations
       && turnId in db.conversations[db.byScope[scopeKey]].turns
    then Some(db.byScope[scopeKey]) else None
  }

  /** SELECT * FROM conversations WHERE scope_key = ? */
  function ScopeRow(db: Db, scopeKey: string): Option<(string, Conversation)> {
    if scopeKey in db.byScope && db.byScope[scopeKey] in db.conversations
    then Some((db.byScope[scopeKey], db.conversations[db.byScope[scopeKey]])) else None
  }

  function Row(db: Db, id: string, turnId: string): Turn
    requires id in db.conversations && turnId in db.conversations[id].turns
  {
    db.conversations[id].turns[turnId]
  }

  function PutRow(db: Db, id: string, turnId: string, t: Turn): Db
    requires id in db.conversations
  {
    Put(db, id, PutTurn(db.conversations[id], turnId, t))
  }

  datatype RecoverOutcome = Recovered(lease: string, expires: real) | AlreadyComplete(messages: seq<Message>)

  function Recover(lim: Limits, db: Db, scopeKey: string, turnId: string, fingerprint: string,
                   expected: Option<string>, now: real, token: string): Tx<RecoverOutcome>
  {
    match FindTurn(db, scopeKey, turnId)
    case None => Rollback(ConversationNotFound)
    case Some(id) =>
      var row := Row(db, id, turnId);
      if row.fingerprint != fingerprint then Rollback(TurnConflict)
      else if row.status == Complete then
        Commit(db, AlreadyComplete(MessagesForTurn(db.conversations[id].messages, turnId)))
      else if row.status != Ready || row.lease != expected then Rollback(TurnInProgress)
      else
        Commit(PutRow(db, id, turnId,
                      row.(status := Generating, digest := None, lease := Some(token),
                           expires := Some(LeaseEnd(lim, now)), updatedAt := now)),
               Recovered(token, LeaseEnd(lim, now)))
  }

  predicate Owns(row: Turn, token: string) {
    row.lease == Some(token)
  }

  function MarkReady(db: Db, scopeKey: string, turnId: string, token: string, digest: string, now: real): Tx<bool> {
    match FindTurn(db, scopeKey, turnId)
    case None => Commit(db, false)
    case Some(id) =>
      var row := Row(db, id, turnId);
      if !Owns(row, token) || !Live(row) then Commit(db, false)
      else Commit(PutRow(db, id, turnId, row.(status := Ready, digest := Some(digest), updatedAt := now)), true)
  }

  function Renew(lim: Limits, db: Db, scopeKey: string, turnId: string, token: string, now: real): Tx<bool> {
    match FindTurn(db, scopeKey, turnId)
    case None => Commit(db, false)
    case Some(id) =>
      var row := Row(db, id, turnId);
      if !Owns(row, token) || !Live(row) then Commit(db, false)
      else Commit(PutRow(db, id, turnId, row.(expires := Some(LeaseEnd(lim, now)), updatedAt := now)), true)
  }

  function Fail(db: Db, scopeKey: string, turnId: string, token: string, now: real): Tx<bool> {
    match FindTurn(db, scopeKey, turnId)
    case None => Commit(db, false)
    case Some(id) =>
      var row := Row(db, id, turnId);
      if !Owns(row, token) || row.status == Complete then Commit(db, false)
      else Commit(PutRow(db, id, turnId, FailTurnRow(row).(updatedAt := now)), true)
  }

  // ----- Completion ----------------------------------------------------------------

  datatype CompleteRequest = CompleteRequest(
    scopeKey: string,
    turnId: string,
    token: string,
    fingerprint: string,
    user: string,
    assistant: string,
    sources: string,
    metadataText: string,
    payload: ResponsePayload,
    knowledgeBases: seq<string>)

  datatype CompleteOutcome =
    | Replayed(messages: seq<Message>)
    | Saved(userSequence: int, assistantSequence: int, messageCount: int, payloadBytes: int, pair: seq<Message>)

  predicate ContentFits(lim: Limits, req: CompleteRequest) {
    && |req.user| <= lim.maxMessageChars
    && |req.assistant| <= lim.maxMessageChars
    && Utf8Bytes(req.sources) <= lim.maxSourcesBytes
    && Utf8Bytes(req.metadataText) <= lim.maxMetadataBytes
  }

  function TurnBytes(req: CompleteRequest): nat {
    Utf8Bytes(req.user) + Utf8Bytes(req.assistant) + Utf8Bytes(req.sources) + Utf8Bytes(req.metadataText)
  }

  /** COALESCE(MAX(sequence), 0) + 1 */
  function NextSequence(messages: seq<Message>): int {
    if messages == [] then 1
    else
      var rest := NextSequence(messages[..|messages| - 1]);
      var last := messages[|messages| - 1].sequence + 1;
      if last > rest then last else rest
  }

  function Pair(req: CompleteRequest, next: int): (pair: seq<Message>)
    ensures |pair| == 2
  {
    [Message(req.turnId, User, req.user, next, "[]", Metadata("{}", Some(NoReferences)), Utf8Bytes(req.user)),
     Message(req.turnId, Assistant, req.assistant, next + 1, req.sources,
             Metadata(req.metadataText, Some(ReferencesFromPayload(req.payload))),
             Utf8Bytes(req.assistant) + Utf8Bytes(req.sources) + Utf8Bytes(req.metadataText))]
  }

  /** Selects exactly the given knowledge bases and keeps every earlier association. */
  function Select(kbs: map<string, bool>, ids: seq<string>): map<string, bool> {
    (map kb | kb in kbs :: kb in ids && (kb != "" || kbs[kb])) + (map kb | kb in ids && kb != "" :: true)
  }

  function Save(c: Conversation, req: CompleteRequest, now: real): Conversation
    requires req.turnId in c.turns
  {
    var row := c.turns[req.turnId];
    c.(messages := c.messages + Pair(req, NextSequence(c.messages)),
       turns := c.turns[req.turnId := row.(status := Complete, lease := None, expires := None, updatedAt := now)],
       knowledgeBases := Select(c.knowledgeBases, req.knowledgeBases),
       messageCount := c.messageCount + 2,
       payloadBytes := c.payloadBytes + TurnBytes(req),
       lastTurn := Some(req.turnId),
       updatedAt := now)
  }

  ghost predicate OverQuota(lim: Limits, db: Db, id: string, c: Conversation, bytes: nat) {
    || (lim.maxConversations > 0 && c.messageCount == 0
        && |Committed(db.conversations) - {id}| >= lim.maxConversations)
    || c.messageCount + 2 > lim.maxMessages
    || c.payloadBytes + bytes > lim.maxConversationBytes
    || TotalBytes(db.conversations) + bytes > lim.maxHistoryBytes
  }

  ghost function CompleteTurn(lim: Limits, db: Db, req: CompleteRequest, now: real): Tx<CompleteOutcome> {
    if !ContentFits(lim, req) then Rollback(ContentTooLarge)
    else match FindTurn(db, req.scopeKey, req.turnId)
      case None => Rollback(ConversationNotFound)
      case Some(id) =>
        var c := db.conversations[id];
        var row := c.turns[req.turnId];
        if row.status == Complete then Commit(db, Replayed(MessagesForTurn(c.messages, req.turnId)))
        else if !Owns(row, req.token) || row.fingerprint != req.fingerprint then Rollback(TurnConflict)
        else if OverQuota(lim, db, id, c, TurnBytes(req)) then Rollback(QuotaExceeded)
        else
          var c' := Save(c, req, now);
          var next := NextSequence(c.messages);
          Commit(Put(db, id, c'),
                 Saved(next, next + 1, c'.messageCount, c'.payloadBytes, MessagesForTurn(c'.messages, req.turnId)))
  }

  // ----- Maintenance -----------------------------------------------------------------

  function ResetTurn(t: Turn, now: real): Turn {
    if LeaseExpired(t, now) then FailTurnRow(t).(updatedAt := now) else t
  }

  function ResetContinuity(db: Db, id: string, now: real): Tx<Option<string>> {
    if id !in db.conversations then Rollback(ConversationNotFound)
    else
      var c := db.conversations[id];
      Commit(Put(db, id, c.(turns := map t | t in c.turns :: ResetTurn(c.turns[t], now))), c.lastTurn)
  }

  /** `archived` None renames only, which touches nothing modelled but the timestamp. */
  function UpdateConversation(db: Db, id: string, archived: Option<bool>, now: real): Tx<()> {
    if id !in db.conversations then Rollback(ConversationNotFound)
    else
      var c := db.conversations[id];
      if archived == Some(true) && HasLive(c) then Rollback(TurnInProgress)
      else
        Commit(Put(db, id, c.(archived := if archived.Some? then archived.value else c.archived, updatedAt := now)), ())
  }

  function UpdateSummary(db: Db, scopeKey: string, summary: seq<int>, expected: int, through: int, now: real)
    : Tx<bool>
  {
    if scopeKey !in db.byScope || db.byScope[scopeKey] !in db.conversations then Commit(db, false)
    else
      var id := db.byScope[scopeKey];
      var c := db.conversations[id];
      if c.summaryVersion != expected || through <= c.summaryThrough then Commit(db, false)
      else
        Commit(Put(db, id, c.(summary := summary, summaryVersion := expected + 1, summaryThrough := through,
                              updatedAt := now)), true)
  }

  // ----- Deletion and the artifact outbox -----------------------------------------------

  datatype DeletionPlan = DeletionPlan(exclusive: References, safe: bool)

  const UnsafePlan := DeletionPlan(NoReferences, false)

  predicate MetadataReadable(db: Db) {
    forall id, m :: id in db.conversations && m in db.conversations[id].messages ==> m.metadata.references.Some?
  }

  /** Union of the readable references of the given conversations. */
  function OwnedBy(db: Db, ids: set<string>): References {
    References(
      set id, m, a | id in db.conversations && id in ids && m in db.conversations[id].messages
                     && m.metadata.references.Some? && a in m.metadata.references.value.attachments :: a,
      set id, m, a | id in db.conversations && id in ids && m in db.conversations[id].messages
                     && m.metadata.references.Some? && a in m.metadata.references.value.images :: a,
      set id, m, a | id in db.conversations && id in ids && m in db.conversations[id].messages
                     && m.metadata.references.Some? && a in m.metadata.references.value.runs :: a)
  }

  function CleanupPlan(db: Db, ids: set<string>): DeletionPlan {
    if MetadataReadable(db) then
      DeletionPlan(ExclusiveReferences(OwnedBy(db, ids), OwnedBy(db, db.conversations.Keys - ids)), true)
    else UnsafePlan
  }

  function PlanFromOutbox(db: Db, key: string): DeletionPlan {
    if key in db.outbox then DeletionPlan(db.outbox[key], true) else UnsafePlan
  }

  function DropWithPlan(db: Db, key: string, ids: set<string>): Db {
    var plan := CleanupPlan(db, ids);
    Drop(if plan.safe then db.(outbox := db.outbox[key := plan.exclusive]) else db, ids)
  }

  function ConversationKey(id: string): string {
    "conversation:" + id
  }

  function KnowledgeBaseKey(kb: string): string {
    "knowledge-base:" + kb
  }

  function Delete(db: Db, id: string): Tx<bool> {
    if id !in db.conversations then Commit(db, false) else Commit(Drop(db, {id}), true)
  }

  function DeleteWithCleanup(db: Db, id: string): Tx<(bool, DeletionPlan)> {
    if id !in db.conversations then Commit(db, (false, PlanFromOutbox(db, ConversationKey(id))))
    else Commit(DropWithPlan(db, ConversationKey(id), {id}), (true, CleanupPlan(db, {id})))
  }

  function UsersOf(db: Db, kb: string): set<string> {
    set id | id in db.conversations && kb in db.conversations[id].knowledgeBases
  }

  function DeleteByKnowledgeBase(db: Db, kb: string): (tx: Tx<(nat, DeletionPlan)>)
    ensures tx.Commit?
  {
    var ids := UsersOf(db, kb);
    if ids == {} then Commit(db, (0, PlanFromOutbox(db, KnowledgeBaseKey(kb))))
    else Commit(DropWithPlan(db, KnowledgeBaseKey(kb), ids), (|ids|, CleanupPlan(db, ids)))
  }

  function CompleteArtifactCleanup(db: Db, key: string): Tx<bool> {
    Commit(db.(outbox := db.outbox - {key}), key in db.outbox)
  }

  // ----- Transactions as steps of a run ---------------------------------------------------

  datatype Step =
    | DoBegin(req: BeginRequest, newToken: string, newId: string)
    | DoRecover(scopeKey: string, turnId: string, fingerprint: string, expected: Option<string>, newToken: string)
    | DoMarkReady(scopeKey: string, turnId: string, token: string, digest: string)
    | DoComplete(completion: CompleteRequest)
    | DoRenew(scopeKey: string, turnId: string, token: string)
    | DoFail(scopeKey: string, turnId: string, token: string)
    | DoReset(id: string)
    | DoUpdate(id: string, archived: Option<bool>)
    | DoSummary(scopeKey: string, summary: seq<int>, version: int, through: int)
    | DoCleanup
    | DoDelete(id: string)
    | DoDeleteWithCleanup(id: string)
    | DoDeleteByKnowledgeBase(kb: string)
    | DoAcknowledge(key: string)

  /** Any worker may take any step at any time `now`. */
  ghost function Apply(lim: Limits, db: Db, step: Step, now: real): Db {
    match step
    case DoBegin(req, token, newId) => After(db, Begin(lim, db, req, now, token, newId))
    case DoRecover(s, t, fp, expected, token) => After(db, Recover(lim, db, s, t, fp, expected, now, token))
    case DoMarkReady(s, t, token, digest) => After(db, MarkReady(db, s, t, token, digest, now))
    case DoComplete(req) => After(db, CompleteTurn(lim, db, req, now))
    case DoRenew(s, t, token) => After(db, Renew(lim, db, s, t, token, now))
    case DoFail(s, t, token) => After(db, Fail(db, s, t, token, now))
    case DoReset(id) => After(db, ResetContinuity(db, id, now))
    case DoUpdate(id, archived) => After(db, UpdateConversation(db, id, archived, now))
    case DoSummary(s, summary, version, through) => After(db, UpdateSummary(db, s, summary, version, through, now))
    case DoCleanup => Cleanup(lim, db, now)
    case DoDelete(id) => After(db, Delete(db, id))
    case DoDeleteWithCleanup(id) => After(db, DeleteWithCleanup(db, id))
    case DoDeleteByKnowledgeBase(kb) => After(db, DeleteByKnowledgeBase(db, kb))
    case DoAcknowledge(key) => After(db, CompleteArtifactCleanup(db, key))
  }
}
