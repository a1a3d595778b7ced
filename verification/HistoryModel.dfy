/**
 The tables of one workspace's conversation database and what every committed
 transaction keeps true of them.  Rows that reference a conversation with
 ON DELETE CASCADE (turn requests, messages, knowledge-base links) are stored
 inside it.
 */
module HistoryModel {
  import opened Wrappers
  import opened Artifacts

  // ----- Rows ------------------------------------------------------------------

  datatype TurnStatus = Generating | Ready | Complete | Failed

  datatype Turn = Turn(
    parent: Option<string>,
    fingerprint: string,
    status: TurnStatus,
    digest: Option<string>,
    lease: Option<string>,
    expires: Option<real>,
    updatedAt: real)

  datatype Role = User | Assistant

  /** A metadata column; `references` is None when the stored text is not JSON. */
  datatype Metadata = Metadata(text: string, references: Option<References>)

  datatype Message = Message(
    turnId: string,
    role: Role,
    content: string,
    sequence: int,
    sources: string,
    metadata: Metadata,
    bytes: nat)

  /**
   `summary` lists the assistant sequences folded into the summary text, in
   folding order; the text itself is clamped and carries no more than that.
   `knowledgeBases` maps an associated knowledge base to its is_selected flag.
   */
  datatype Conversation = Conversation(
    scopeKey: string,
    archived: bool,
    summary: seq<int>,
    summaryVersion: int,
    summaryThrough: int,
    messageCount: nat,
    payloadBytes: nat,
    lastTurn: Option<string>,
    updatedAt: real,
    turns: map<string, Turn>,
    messages: seq<Message>,
    knowledgeBases: map<string, bool>)

  /** `byScope` is the UNIQUE index on scope_key, `outbox` the artifact cleanup table. */
  datatype Db = Db(
    conversations: map<string, Conversation>,
    byScope: map<string, string>,
    outbox: map<string, References>)

  const EmptyDb := Db(map[], map[], map[])

  datatype Limits = Limits(
    maxConversations: int,
    maxPendingTurns: int,
    maxMessages: nat,
    maxConversationBytes: nat,
    maxMessageChars: int,
    maxSourcesBytes: int,
    maxMetadataBytes: int,
    maxHistoryBytes: nat,
    retentionDays: int,
    leaseSeconds: int,
    incompleteRetentionDays: int)

  // ----- Byte counts -----------------------------------------------------------

  function CharBytes(c: char): nat {
    if c < '\U{80}' then 1 else if c < '\U{800}' then 2 else if c < '\U{10000}' then 3 else 4
  }

  function Utf8Bytes(s: string): nat {
    if s == "" then 0 else Utf8Bytes(s[..|s| - 1]) + CharBytes(s[|s| - 1])
  }

  function MessageBytes(messages: seq<Message>): nat {
    if messages == [] then 0 else MessageBytes(messages[..|messages| - 1]) + messages[|messages| - 1].bytes
  }

  /** SUM(payload_bytes) over the conversations table. */
  ghost function TotalBytes(conversations: map<string, Conversation>): nat {
    if conversations == map[] then 0
    else
      var id :| id in conversations;
      conversations[id].payloadBytes + TotalBytes(conversations - {id})
  }

  // ----- Queries ---------------------------------------------------------------

  predicate Live(t: Turn) {
    t.status == Generating || t.status == Ready
  }

  /** The rows covered by the partial unique index on the parent slot. */
  predicate Indexed(t: Turn) {
    Live(t) || t.status == Complete
  }

  /** COALESCE(parent_turn_id, '') */
  function Slot(parent: Option<string>): string {
    if parent.None? then "" else parent.value
  }

  predicate HasLive(c: Conversation) {
    exists t :: t in c.turns && Live(c.turns[t])
  }

  /** Another indexed row already holds the parent slot. */
  predicate SlotTaken(turns: map<string, Turn>, turnId: string, parent: Option<string>) {
    exists t :: t in turns && t != turnId && Indexed(turns[t]) && Slot(turns[t].parent) == Slot(parent)
  }

  function MessagesForTurn(messages: seq<Message>, turnId: string): seq<Message> {
    if messages == [] then []
    else
      var last := messages[|messages| - 1];
      MessagesForTurn(messages[..|messages| - 1], turnId) + if last.turnId == turnId then [last] else []
  }

  function PendingRows(conversations: map<string, Conversation>): set<(string, string)> {
    set id, t | id in conversations && t in conversations[id].turns
                && conversations[id].turns[t].status != Complete :: (id, t)
  }

  function Committed(conversations: map<string, Conversation>): set<string> {
    set id | id in conversations && conversations[id].messageCount > 0
  }

  // ----- Invariants of one conversation ------------------------------------------

  /** The message belongs to the same turn as the one before it. */
  predicate SameTurn(messages: seq<Message>, i: int)
    requires 0 < i < |messages|
  {
    messages[i].turnId == messages[i - 1].turnId
  }

  /** Sequences are 1..message_count, odd ones user and even ones assistant, in pairs. */
  ghost predicate TranscriptOk(messages: seq<Message>) {
    && |messages| % 2 == 0
    && (forall i :: 0 <= i < |messages| ==> messages[i].sequence == i + 1)
    && (forall i :: 0 <= i < |messages| ==> messages[i].role == if i % 2 == 0 then User else Assistant)
    && (forall i :: 0 < i < |messages| && i % 2 == 1 ==> SameTurn(messages, i))
  }

  /** Stored references, where they can be read, are what payload extraction yields. */
  ghost predicate ReferencesOk(messages: seq<Message>) {
    forall i :: 0 <= i < |messages| && messages[i].metadata.references.Some? ==>
      WellFormed(messages[i].metadata.references.value)
  }

  ghost predicate LayoutOk(lim: Limits, messages: seq<Message>, count: nat, bytes: nat) {
    && TranscriptOk(messages)
    && ReferencesOk(messages)
    && count == |messages| <= lim.maxMessages
    && bytes == MessageBytes(messages) <= lim.maxConversationBytes
  }

  ghost predicate LeaseOk(t: Turn) {
    && (t.lease.Some? <==> Live(t))
    && (t.expires.Some? <==> Live(t))
    && (t.status == Ready ==> t.digest.Some?)
  }

  /** The completed turns in order of completion, read off the transcript. */
  function Chain(messages: seq<Message>): (chain: seq<string>)
    ensures |chain| == |messages| / 2
  {
    seq(|messages| / 2, i requires 0 <= i < |messages| / 2 => messages[2 * i].turnId)
  }

  function Previous(chain: seq<string>, k: int): Option<string>
    requires 0 <= k <= |chain|
  {
    if k == 0 then None else Some(chain[k - 1])
  }

  predicate LinkedAt(chain: seq<string>, turns: map<string, Turn>, k: int)
    requires 0 <= k < |chain|
  {
    chain[k] in turns && turns[chain[k]].status == Complete && turns[chain[k]].parent == Previous(chain, k)
  }

  /** Every turn of the chain is complete and hangs off its predecessor. */
  ghost predicate Linked(chain: seq<string>, turns: map<string, Turn>) {
    forall k :: 0 <= k < |chain| ==> LinkedAt(chain, turns, k)
  }

  ghost predicate Distinct(chain: seq<string>) {
    forall j, k :: 0 <= j < k < |chain| ==> chain[j] != chain[k]
  }

  ghost predicate CompleteIn(chain: seq<string>, turns: map<string, Turn>) {
    forall t :: t in turns && turns[t].status == Complete ==> t in chain
  }

  ghost predicate ChainOk(chain: seq<string>, turns: map<string, Turn>, lastTurn: Option<string>) {
    && Linked(chain, turns)
    && Distinct(chain)
    && CompleteIn(chain, turns)
    && lastTurn == Previous(chain, |chain|)
  }

  ghost predicate SlotsOk(turns: map<string, Turn>) {
    forall t, u :: t in turns && u in turns && t != u && Indexed(turns[t]) && Indexed(turns[u]) ==>
      Slot(turns[t].parent) != Slot(turns[u].parent)
  }

  ghost predicate RowsOk(turns: map<string, Turn>, lastTurn: Option<string>, archived: bool) {
    && "" !in turns
    && (forall t :: t in turns ==> LeaseOk(turns[t]))
    && (forall t :: t in turns && Live(turns[t]) ==> turns[t].parent == lastTurn && !archived)
  }

  ghost predicate TurnsOk(c: Conversation) {
    && RowsOk(c.turns, c.lastTurn, c.archived)
    && ChainOk(Chain(c.messages), c.turns, c.lastTurn)
    && SlotsOk(c.turns)
  }

  ghost predicate ConversationOk(lim: Limits, c: Conversation) {
    LayoutOk(lim, c.messages, c.messageCount, c.payloadBytes) && TurnsOk(c)
  }

  // ----- Invariants of the database ---------------------------------------------

  ghost predicate IndexOk(db: Db) {
    && (forall s :: s in db.byScope ==>
          db.byScope[s] in db.conversations && db.conversations[db.byScope[s]].scopeKey == s)
    && (forall id :: id in db.conversations ==>
          db.conversations[id].scopeKey in db.byScope && db.byScope[db.conversations[id].scopeKey] == id)
  }

  ghost predicate QuotasOk(lim: Limits, db: Db) {
    && TotalBytes(db.conversations) <= lim.maxHistoryBytes
    && (lim.maxConversations > 0 ==> |Committed(db.conversations)| <= lim.maxConversations)
    && (lim.maxPendingTurns > 0 ==> |PendingRows(db.conversations)| <= lim.maxPendingTurns)
  }

  ghost predicate DbOk(lim: Limits, db: Db) {
    && (forall id :: id in db.conversations ==> ConversationOk(lim, db.conversations[id]))
    && IndexOk(db)
    && QuotasOk(lim, db)
  }
}
