/**
 Every transaction keeps every conversation linear, its transcript dense, its
 leases fenced and all quotas: the proof that `DbOk` is an invariant.
 */
module HistoryInvariant {
  import opened Wrappers
  import opened Artifacts
  import opened HistoryModel
  import opened HistorySpec

  // ----- One conversation --------------------------------------------------------

  lemma IndexOf(lim: Limits, db: Db)
    requires DbOk(lim, db)
    ensures IndexOk(db)
  {
    hide ConversationOk, QuotasOk, IndexOk;
  }

  lemma ConversationOf(lim: Limits, db: Db, id: string)
    requires DbOk(lim, db) && id in db.conversations
    ensures ConversationOk(lim, db.conversations[id])
  {
    hide IndexOk, QuotasOk, ConversationOk;
  }

  lemma PutKeepsRows(turns: map<string, Turn>, lastTurn: Option<string>, archived: bool, turnId: string, row: Turn)
    requires RowsOk(turns, lastTurn, archived)
    requires turnId != "" && LeaseOk(row)
    requires Live(row) ==> row.parent == lastTurn && !archived
    ensures RowsOk(turns[turnId := row], lastTurn, archived)
  {}

  lemma PutKeepsChain(chain: seq<string>, turns: map<string, Turn>, lastTurn: Option<string>, turnId: string, row: Turn)
    requires ChainOk(chain, turns, lastTurn)
    requires row.status != Complete
    requires turnId in turns ==> turns[turnId].status != Complete
    ensures ChainOk(chain, turns[turnId := row], lastTurn)
  {
    SameCompleteRowsLink(chain, turns, turns[turnId := row]);
    hide Linked;
  }

  /** Links depend only on the complete rows. */
  lemma SameCompleteRowsLink(chain: seq<string>, turns: map<string, Turn>, turns': map<string, Turn>)
    requires Linked(chain, turns)
    requires forall t :: t in turns && turns[t].status == Complete ==> t in turns' && turns'[t] == turns[t]
    ensures Linked(chain, turns')
  {
    forall k | 0 <= k < |chain|
      ensures LinkedAt(chain, turns', k)
    {
      assert LinkedAt(chain, turns, k);
    }
  }

  lemma PutKeepsSlots(turns: map<string, Turn>, turnId: string, row: Turn)
    requires SlotsOk(turns)
    requires Indexed(row) ==> !SlotTaken(turns, turnId, row.parent)
    ensures SlotsOk(turns[turnId := row])
  {}

  /** Replacing one reservation that is not complete by another that is not. */
  lemma PutTurnKeeps(lim: Limits, c: Conversation, turnId: string, row: Turn)
    requires ConversationOk(lim, c)
    requires turnId != "" && row.status != Complete && LeaseOk(row)
    requires turnId in c.turns ==> c.turns[turnId].status != Complete
    requires Live(row) ==> row.parent == c.lastTurn && !c.archived && !SlotTaken(c.turns, turnId, row.parent)
    ensures ConversationOk(lim, PutTurn(c, turnId, row))
  {
    hide RowsOk, ChainOk, SlotsOk, LayoutOk, SlotTaken;
    PutKeepsRows(c.turns, c.lastTurn, c.archived, turnId, row);
    PutKeepsChain(Chain(c.messages), c.turns, c.lastTurn, turnId, row);
    PutKeepsSlots(c.turns, turnId, row);
  }

  /** A live row is alone in its parent slot. */
  lemma LiveSlotIsFree(lim: Limits, c: Conversation, turnId: string)
    requires ConversationOk(lim, c) && turnId in c.turns && Live(c.turns[turnId])
    ensures !SlotTaken(c.turns, turnId, c.turns[turnId].parent)
  {}

  /** Some rows failed or, unless complete, removed. */
  ghost predicate Relaxed(turns: map<string, Turn>, relaxed: map<string, Turn>) {
    && (forall t :: t in relaxed ==> t in turns)
    && (forall t :: t in relaxed ==>
          || relaxed[t] == turns[t]
          || (Live(turns[t]) && relaxed[t].status == Failed && relaxed[t].lease.None? && relaxed[t].expires.None?))
    && (forall t :: t in turns && turns[t].status == Complete ==> t in relaxed)
  }

  lemma RelaxedKeepsChain(chain: seq<string>, turns: map<string, Turn>, lastTurn: Option<string>,
                          relaxed: map<string, Turn>)
    requires ChainOk(chain, turns, lastTurn) && Relaxed(turns, relaxed)
    ensures ChainOk(chain, relaxed, lastTurn)
  {
    SameCompleteRowsLink(chain, turns, relaxed);
    hide Linked;
  }

  lemma RelaxedKeepsRows(turns: map<string, Turn>, lastTurn: Option<string>, archived: bool,
                         relaxed: map<string, Turn>)
    requires RowsOk(turns, lastTurn, archived) && Relaxed(turns, relaxed)
    ensures RowsOk(relaxed, lastTurn, archived)
  {}

  lemma RelaxedKeepsSlots(turns: map<string, Turn>, relaxed: map<string, Turn>)
    requires SlotsOk(turns) && Relaxed(turns, relaxed)
    ensures SlotsOk(relaxed)
  {
    hide Slot;
    assert forall t :: t in relaxed && Indexed(relaxed[t]) ==> t in turns && relaxed[t] == turns[t];
  }

  lemma RelaxedKeeps(lim: Limits, c: Conversation, relaxed: map<string, Turn>)
    requires ConversationOk(lim, c) && Relaxed(c.turns, relaxed)
    ensures ConversationOk(lim, c.(turns := relaxed))
  {
    hide RowsOk, ChainOk, SlotsOk, LayoutOk, Relaxed;
    RelaxedKeepsChain(Chain(c.messages), c.turns, c.lastTurn, relaxed);
    RelaxedKeepsRows(c.turns, c.lastTurn, c.archived, relaxed);
    RelaxedKeepsSlots(c.turns, relaxed);
  }

  /** A cleaned conversation is the old one with some rows failed or pruned. */
  lemma CleanedIsRelaxed(lim: Limits, c: Conversation, now: real)
    ensures var kept := CleanConversation(lim, c, now);
            kept.Some? ==> kept.value == c.(turns := kept.value.turns) && Relaxed(c.turns, kept.value.turns)
  {}

  lemma BeginExistingKeeps(lim: Limits, c: Conversation, turnId: string, fingerprint: string, now: real, token: string)
    requires ConversationOk(lim, c) && turnId in c.turns && !c.archived
    ensures var r := BeginExisting(lim, c, turnId, fingerprint, now, token);
            r.Ok? ==> ConversationOk(lim, r.value.0)
  {
    var row := c.turns[turnId];
    var renewed := row.(status := Generating, lease := Some(token), expires := Some(LeaseEnd(lim, now)),
                        updatedAt := now);
    if Live(row) {
      LiveSlotIsFree(lim, c, turnId);
      PutTurnKeeps(lim, c, turnId, renewed);
    } else if row.status == Failed && row.parent == c.lastTurn && !SlotTaken(c.turns, turnId, row.parent) {
      PutTurnKeeps(lim, c, turnId, renewed);
    }
  }

  lemma BeginNewKeeps(lim: Limits, c: Conversation, pending: nat, req: BeginRequest, now: real, token: string)
    requires ConversationOk(lim, c) && req.turnId !in c.turns && req.turnId != "" && !c.archived
    ensures var r := BeginNew(lim, c, pending, req, now, token);
            r.Ok? ==> ConversationOk(lim, r.value.0)
  {
    var row := Turn(req.parent, req.fingerprint, Generating, None, Some(token), Some(LeaseEnd(lim, now)), now);
    if req.parent == c.lastTurn && !SlotTaken(c.turns, req.turnId, req.parent) {
      PutTurnKeeps(lim, c, req.turnId, row);
    }
  }

  // ----- Completion --------------------------------------------------------------

  lemma {:induction false} NextSequenceOf(messages: seq<Message>)
    requires forall i :: 0 <= i < |messages| ==> messages[i].sequence == i + 1
    ensures NextSequence(messages) == |messages| + 1
  {
    if messages != [] {
      NextSequenceOf(messages[..|messages| - 1]);
    }
  }

  lemma {:induction false} MessageBytesOfPair(messages: seq<Message>, a: Message, b: Message)
    ensures MessageBytes(messages + [a, b]) == MessageBytes(messages) + a.bytes + b.bytes
  {
    var both := messages + [a, b];
    assert both[..|both| - 1] == messages + [a];
    assert (messages + [a])[..|messages|] == messages;
  }

  lemma ChainOfPair(messages: seq<Message>, pair: seq<Message>)
    requires |messages| % 2 == 0 && |pair| == 2
    ensures Chain(messages + pair) == Chain(messages) + [pair[0].turnId]
  {}

  lemma AppendKeepsTranscript(messages: seq<Message>, req: CompleteRequest)
    requires TranscriptOk(messages)
    ensures TranscriptOk(messages + Pair(req, NextSequence(messages)))
  {
    NextSequenceOf(messages);
    var all := messages + Pair(req, NextSequence(messages));
    forall i | 0 < i < |all| && i % 2 == 1
      ensures SameTurn(all, i)
    {
      if i < |messages| {
        assert SameTurn(messages, i);
      }
    }
  }

  lemma SaveKeepsLayout(lim: Limits, messages: seq<Message>, count: nat, bytes: nat, req: CompleteRequest)
    requires LayoutOk(lim, messages, count, bytes)
    requires count + 2 <= lim.maxMessages && bytes + TurnBytes(req) <= lim.maxConversationBytes
    ensures LayoutOk(lim, messages + Pair(req, NextSequence(messages)), count + 2, bytes + TurnBytes(req))
  {
    hide TranscriptOk, Utf8Bytes, MessageBytes, NextSequence, WellFormed, ReferencesFromPayload, ReferencesOk;
    var pair := Pair(req, NextSequence(messages));
    assert pair == [pair[0], pair[1]];
    AppendKeepsTranscript(messages, req);
    AppendKeepsReferences(messages, req, NextSequence(messages));
    MessageBytesOfPair(messages, pair[0], pair[1]);
  }

  /** A saved pair references only what was extracted from its payload. */
  lemma AppendKeepsReferences(messages: seq<Message>, req: CompleteRequest, next: int)
    requires ReferencesOk(messages)
    ensures ReferencesOk(messages + Pair(req, next))
  {
    hide Utf8Bytes;
    assert WellFormed(NoReferences);
    assert WellFormed(ReferencesFromPayload(req.payload));
    hide WellFormed, ReferencesFromPayload;
  }

  /** Completing a live turn extends the chain by exactly that turn. */
  lemma CompleteKeepsChain(chain: seq<string>, turns: map<string, Turn>, lastTurn: Option<string>,
                           turnId: string, row: Turn)
    requires ChainOk(chain, turns, lastTurn)
    requires turnId in turns && turns[turnId].status != Complete && turns[turnId].parent == lastTurn
    requires row.status == Complete && row.parent == lastTurn
    ensures ChainOk(chain + [turnId], turns[turnId := row], Some(turnId))
  {
    LinkComplete(chain, turns, turnId, row);
    var chain', turns' := chain + [turnId], turns[turnId := row];
    hide Linked;
    forall t | t in turns' && turns'[t].status == Complete
      ensures t in chain'
    {
      assert t == turnId || t in chain;
    }
  }

  lemma LinkComplete(chain: seq<string>, turns: map<string, Turn>, turnId: string, row: Turn)
    requires Linked(chain, turns)
    requires turnId in turns && turns[turnId].status != Complete
    requires row.status == Complete && row.parent == Previous(chain, |chain|)
    ensures Linked(chain + [turnId], turns[turnId := row])
    ensures turnId !in chain
  {
    var chain', turns' := chain + [turnId], turns[turnId := row];
    forall k | 0 <= k < |chain|
      ensures chain[k] != turnId
    {
      assert LinkedAt(chain, turns, k);
    }
    forall k | 0 <= k < |chain'|
      ensures LinkedAt(chain', turns', k)
    {
      if k < |chain| {
        assert LinkedAt(chain, turns, k);
        assert chain'[k] == chain[k] && Previous(chain', k) == Previous(chain, k);
      }
    }
  }

  /** Once it is complete no other row is live: it would hold the same slot. */
  lemma CompleteKeepsRows(turns: map<string, Turn>, lastTurn: Option<string>, archived: bool, turnId: string, row: Turn)
    requires RowsOk(turns, lastTurn, archived) && SlotsOk(turns)
    requires turnId in turns && Live(turns[turnId])
    requires row.status == Complete && row.parent == turns[turnId].parent && LeaseOk(row)
    ensures RowsOk(turns[turnId := row], Some(turnId), archived)
    ensures SlotsOk(turns[turnId := row])
  {
    forall t | t in turns && Live(turns[t])
      ensures t == turnId
    {
      assert Slot(turns[t].parent) == Slot(turns[turnId].parent);
    }
  }

  lemma SaveKeeps(lim: Limits, c: Conversation, req: CompleteRequest, now: real)
    requires ConversationOk(lim, c) && req.turnId in c.turns && Live(c.turns[req.turnId])
    requires c.messageCount + 2 <= lim.maxMessages
    requires c.payloadBytes + TurnBytes(req) <= lim.maxConversationBytes
    ensures ConversationOk(lim, Save(c, req, now))
  {
    hide RowsOk, ChainOk, SlotsOk, LayoutOk, Chain, TurnBytes, NextSequence, Pair, Select;
    var row := c.turns[req.turnId].(status := Complete, lease := None, expires := None, updatedAt := now);
    LiveParent(c.turns, c.lastTurn, c.archived, req.turnId);
    SaveKeepsLayout(lim, c.messages, c.messageCount, c.payloadBytes, req);
    CompleteKeepsRows(c.turns, c.lastTurn, c.archived, req.turnId, row);
    CompleteKeepsChain(Chain(c.messages), c.turns, c.lastTurn, req.turnId, row);
    ChainOfSaved(lim, c, req);
  }

  lemma ChainOfSaved(lim: Limits, c: Conversation, req: CompleteRequest)
    requires LayoutOk(lim, c.messages, c.messageCount, c.payloadBytes)
    ensures Chain(c.messages + Pair(req, NextSequence(c.messages))) == Chain(c.messages) + [req.turnId]
  {
    ChainOfPair(c.messages, Pair(req, NextSequence(c.messages)));
    hide Chain, NextSequence, MessageBytes;
  }

  lemma LiveParent(turns: map<string, Turn>, lastTurn: Option<string>, archived: bool, turnId: string)
    requires RowsOk(turns, lastTurn, archived) && turnId in turns && Live(turns[turnId])
    ensures turns[turnId].parent == lastTurn && turnId != ""
  {}

  // ----- Sums and counts over the tables ---------------------------------------------

  lemma {:induction false} TotalBytesWithout(m: map<string, Conversation>, id: string)
    requires id in m
    ensures TotalBytes(m) == m[id].payloadBytes + TotalBytes(m - {id})
    decreases |m|
  {
    var first :| first in m && TotalBytes(m) == m[first].payloadBytes + TotalBytes(m - {first});
    if first != id {
      TotalBytesWithout(m - {first}, id);
      TotalBytesWithout(m - {id}, first);
      assert m - {first} - {id} == m - {id} - {first};
    }
  }

  lemma TotalBytesPut(m: map<string, Conversation>, id: string, c: Conversation)
    ensures TotalBytes(m[id := c]) ==
            TotalBytes(m) + c.payloadBytes - (if id in m then m[id].payloadBytes else 0)
  {
    TotalBytesWithout(m[id := c], id);
    assert m[id := c] - {id} == m - {id};
    if id in m {
      TotalBytesWithout(m, id);
    } else {
      assert m - {id} == m;
    }
  }

  /** Fewer rows with the same payloads never weigh more. */
  lemma {:induction false} TotalBytesShrinks(m: map<string, Conversation>, m': map<string, Conversation>)
    requires forall id :: id in m' ==> id in m && m'[id].payloadBytes == m[id].payloadBytes
    ensures TotalBytes(m') <= TotalBytes(m)
    decreases |m|
  {
    if m != map[] {
      var id :| id in m;
      TotalBytesWithout(m, id);
      if id in m' {
        TotalBytesWithout(m', id);
        TotalBytesShrinks(m - {id}, m' - {id});
      } else {
        TotalBytesShrinks(m - {id}, m');
      }
    }
  }

  lemma SubsetSize<T>(a: set<T>, b: set<T>)
    requires a <= b
    ensures |a| <= |b|
  {
    assert b == a + (b - a);
  }

  /**
   The quotas survive when nothing grows: every remaining conversation has the
   payload, message count and at most the incomplete rows it had before.
   */
  lemma ShrinkKeepsQuotas(lim: Limits, db: Db, db': Db)
    requires QuotasOk(lim, db)
    requires forall id :: id in db'.conversations ==>
      && id in db.conversations
      && db'.conversations[id].payloadBytes == db.conversations[id].payloadBytes
      && db'.conversations[id].messageCount == db.conversations[id].messageCount
    requires PendingRows(db'.conversations) <= PendingRows(db.conversations)
    ensures QuotasOk(lim, db')
  {
    TotalBytesShrinks(db.conversations, db'.conversations);
    SubsetSize(Committed(db'.conversations), Committed(db.conversations));
    SubsetSize(PendingRows(db'.conversations), PendingRows(db.conversations));
  }

  /** Storing a conversation back with no new message and no new incomplete row. */
  lemma PutKeeps(lim: Limits, db: Db, id: string, c: Conversation)
    requires DbOk(lim, db) && id in db.conversations && ConversationOk(lim, c)
    requires c.scopeKey == db.conversations[id].scopeKey
    requires c.messageCount == db.conversations[id].messageCount && c.payloadBytes == db.conversations[id].payloadBytes
    requires forall t :: t in c.turns && c.turns[t].status != Complete ==>
      t in db.conversations[id].turns && db.conversations[id].turns[t].status != Complete
    ensures DbOk(lim, Put(db, id, c))
  {
    hide ConversationOk, IndexOk, QuotasOk;
    PutKeepsIndex(db, id, c);
    PutKeepsQuotas(lim, db, id, c);
  }

  lemma PutKeepsQuotas(lim: Limits, db: Db, id: string, c: Conversation)
    requires QuotasOk(lim, db) && id in db.conversations
    requires c.messageCount == db.conversations[id].messageCount && c.payloadBytes == db.conversations[id].payloadBytes
    requires forall t :: t in c.turns && c.turns[t].status != Complete ==>
      t in db.conversations[id].turns && db.conversations[id].turns[t].status != Complete
    ensures QuotasOk(lim, Put(db, id, c))
  {
    hide QuotasOk;
    ShrinkKeepsQuotas(lim, db, Put(db, id, c));
  }

  // ----- Each transaction ----------------------------------------------------------

  ghost predicate RelaxedCopy(c: Conversation, c': Conversation) {
    c' == c.(turns := c'.turns) && Relaxed(c.turns, c'.turns)
  }

  /** Conversations removed, or kept with some of their rows failed or pruned. */
  ghost predicate DbRelaxed(db: Db, db': Db) {
    forall id :: id in db'.conversations ==>
      id in db.conversations && RelaxedCopy(db.conversations[id], db'.conversations[id])
  }

  lemma RelaxedCopyOk(lim: Limits, c: Conversation, c': Conversation)
    requires ConversationOk(lim, c) && RelaxedCopy(c, c')
    ensures ConversationOk(lim, c')
  {
    hide ConversationOk, Relaxed;
    RelaxedKeeps(lim, c, c'.turns);
  }

  lemma DbRelaxedPending(db: Db, db': Db)
    requires DbRelaxed(db, db')
    ensures PendingRows(db'.conversations) <= PendingRows(db.conversations)
  {}

  lemma DbRelaxedKeeps(lim: Limits, db: Db, db': Db)
    requires DbOk(lim, db) && DbRelaxed(db, db') && IndexOk(db')
    ensures DbOk(lim, db')
  {
    hide ConversationOk, IndexOk, QuotasOk, Relaxed, PendingRows;
    forall id | id in db'.conversations
      ensures ConversationOk(lim, db'.conversations[id])
    {
      RelaxedCopyOk(lim, db.conversations[id], db'.conversations[id]);
    }
    DbRelaxedPending(db, db');
    ShrinkKeepsQuotas(lim, db, db');
  }

  lemma RelaxedIsReflexive(turns: map<string, Turn>)
    ensures Relaxed(turns, turns)
  {}

  lemma CleanupKeeps(lim: Limits, db: Db, now: real)
    requires DbOk(lim, db)
    ensures DbOk(lim, Cleanup(lim, db, now))
  {
    hide ConversationOk, QuotasOk, Relaxed, CleanConversation;
    var db' := Cleanup(lim, db, now);
    forall id | id in db'.conversations
      ensures RelaxedCopy(db.conversations[id], db'.conversations[id])
    {
      CleanedIsRelaxed(lim, db.conversations[id], now);
    }
    DbRelaxedKeeps(lim, db, db');
  }

  lemma DropKeeps(lim: Limits, db: Db, ids: set<string>)
    requires DbOk(lim, db)
    ensures DbOk(lim, Drop(db, ids))
  {
    hide ConversationOk, QuotasOk, Relaxed;
    forall c: Conversation ensures RelaxedCopy(c, c) { RelaxedIsReflexive(c.turns); }
    DbRelaxedKeeps(lim, db, Drop(db, ids));
  }

  lemma StubOk(lim: Limits, scopeKey: string, now: real)
    ensures ConversationOk(lim, NewConversation(scopeKey, now))
  {
    assert Chain([]) == [];
  }

  /** A new stub adds no message and no reservation. */
  lemma StubKeepsQuotas(lim: Limits, db: Db, id: string, stub: Conversation)
    requires QuotasOk(lim, db) && id !in db.conversations
    requires stub.messageCount == 0 && stub.payloadBytes == 0 && stub.turns == map[]
    ensures QuotasOk(lim, Put(db, id, stub))
    ensures PendingRows(Put(db, id, stub).conversations) == PendingRows(db.conversations)
  {
    TotalBytesPut(db.conversations, id, stub);
    hide TotalBytes;
    assert Committed(Put(db, id, stub).conversations) == Committed(db.conversations);
    assert PendingRows(Put(db, id, stub).conversations) == PendingRows(db.conversations);
  }

  lemma OpenScopeKeeps(lim: Limits, db: Db, scopeKey: string, now: real, newId: string)
    requires DbOk(lim, db)
    ensures var tx := OpenScope(db, scopeKey, now, newId);
            tx.Commit? ==>
              && DbOk(lim, tx.db)
              && tx.value in tx.db.conversations
              && !tx.db.conversations[tx.value].archived
              && PendingRows(tx.db.conversations) == PendingRows(db.conversations)
  {
    hide ConversationOk, PendingRows, TotalBytes, Committed;
    if scopeKey !in db.byScope && newId !in db.conversations {
      StubOk(lim, scopeKey, now);
      StubKeepsQuotas(lim, db, newId, NewConversation(scopeKey, now));
    }
  }

  /** A new reservation admitted by the pending quota stays within it. */
  lemma ReservationKeepsQuotas(lim: Limits, db: Db, id: string, turnId: string, c: Conversation)
    requires QuotasOk(lim, db) && id in db.conversations
    requires c.turns - {turnId} == db.conversations[id].turns
    requires c.messageCount == db.conversations[id].messageCount && c.payloadBytes == db.conversations[id].payloadBytes
    requires lim.maxPendingTurns > 0 ==> |PendingRows(db.conversations)| < lim.maxPendingTurns
    ensures QuotasOk(lim, Put(db, id, c))
  {
    hide TotalBytes;
    var db' := Put(db, id, c);
    TotalBytesPut(db.conversations, id, c);
    assert Committed(db'.conversations) == Committed(db.conversations);
    ReservationIsPending(db, id, turnId, c);
    hide PendingRows, Committed;
    SubsetSize(PendingRows(db'.conversations), PendingRows(db.conversations) + {(id, turnId)});
  }

  lemma ReservationKeeps(lim: Limits, db: Db, id: string, turnId: string, c: Conversation)
    requires DbOk(lim, db) && id in db.conversations && ConversationOk(lim, c)
    requires c.turns - {turnId} == db.conversations[id].turns
    requires c.scopeKey == db.conversations[id].scopeKey
    requires c.messageCount == db.conversations[id].messageCount && c.payloadBytes == db.conversations[id].payloadBytes
    requires lim.maxPendingTurns > 0 ==> |PendingRows(db.conversations)| < lim.maxPendingTurns
    ensures DbOk(lim, Put(db, id, c))
  {
    hide ConversationOk, QuotasOk, IndexOk, PendingRows;
    ReservationKeepsQuotas(lim, db, id, turnId, c);
    PutKeepsIndex(db, id, c);
  }

  lemma ReservationIsPending(db: Db, id: string, turnId: string, c: Conversation)
    requires id in db.conversations && c.turns - {turnId} == db.conversations[id].turns
    ensures PendingRows(Put(db, id, c).conversations) <= PendingRows(db.conversations) + {(id, turnId)}
  {
    forall i, t | (i, t) in PendingRows(Put(db, id, c).conversations)
      ensures (i, t) in PendingRows(db.conversations) + {(id, turnId)}
    {
      assert i == id && t != turnId ==> t in c.turns - {turnId};
    }
  }

  lemma BeginExistingInKeeps(lim: Limits, db: Db, id: string, c: Conversation, turnId: string, fingerprint: string,
                             now: real, token: string)
    requires DbOk(lim, db) && id in db.conversations && !c.archived && ConversationOk(lim, c)
    requires c == db.conversations[id].(knowledgeBases := c.knowledgeBases) && turnId in c.turns
    ensures var r := BeginExisting(lim, c, turnId, fingerprint, now, token);
            r.Ok? ==> DbOk(lim, Put(db, id, r.value.0))
  {
    hide ConversationOk, IndexOk, QuotasOk, BeginExisting;
    BeginExistingKeeps(lim, c, turnId, fingerprint, now, token);
    ExistingReservation(lim, c, turnId, fingerprint, now, token);
    var r := BeginExisting(lim, c, turnId, fingerprint, now, token);
    if r.Ok? {
      PutKeeps(lim, db, id, r.value.0);
    }
  }

  lemma BeginNewInKeeps(lim: Limits, db: Db, id: string, c: Conversation, req: BeginRequest, now: real, token: string)
    requires DbOk(lim, db) && id in db.conversations && !c.archived && ConversationOk(lim, c)
    requires c == db.conversations[id].(knowledgeBases := c.knowledgeBases)
    requires req.turnId !in c.turns && req.turnId != ""
    ensures var r := BeginNew(lim, c, |PendingRows(db.conversations)|, req, now, token);
            r.Ok? ==> DbOk(lim, Put(db, id, r.value.0))
  {
    hide ConversationOk, IndexOk, QuotasOk, BeginNew, PendingRows;
    var pending := |PendingRows(db.conversations)|;
    BeginNewKeeps(lim, c, pending, req, now, token);
    NewReservation(lim, c, pending, req, now, token);
    var r := BeginNew(lim, c, pending, req, now, token);
    if r.Ok? {
      ReservationKeeps(lim, db, id, req.turnId, r.value.0);
    }
  }

  lemma BeginInKeeps(lim: Limits, db: Db, id: string, req: BeginRequest, now: real, token: string)
    requires DbOk(lim, db) && id in db.conversations && !db.conversations[id].archived && ValidRequest(req)
    ensures DbOk(lim, After(db, BeginIn(lim, db, id, req, now, token)))
  {
    hide ConversationOk, IndexOk, QuotasOk, PendingRows, Associate, BeginExisting, BeginNew, Put;
    var c0 := db.conversations[id];
    var c := c0.(knowledgeBases := Associate(c0.knowledgeBases, req.knowledgeBases));
    AssociationKeeps(lim, c0, c.knowledgeBases);
    if req.turnId in c.turns {
      BeginExistingInKeeps(lim, db, id, c, req.turnId, req.fingerprint, now, token);
    } else {
      BeginNewInKeeps(lim, db, id, c, req, now, token);
    }
  }

  lemma AssociationKeeps(lim: Limits, c: Conversation, kbs: map<string, bool>)
    requires ConversationOk(lim, c)
    ensures ConversationOk(lim, c.(knowledgeBases := kbs))
  {
    hide RowsOk, ChainOk, SlotsOk, LayoutOk;
  }

  /** Resuming a turn changes at most its own row, which stays incomplete. */
  lemma ExistingReservation(lim: Limits, c: Conversation, turnId: string, fingerprint: string, now: real, token: string)
    requires turnId in c.turns
    ensures var r := BeginExisting(lim, c, turnId, fingerprint, now, token);
            r.Ok? ==>
              && r.value.0 == c.(turns := r.value.0.turns)
              && r.value.0.turns.Keys == c.turns.Keys
              && (forall t :: t in c.turns && t != turnId ==> r.value.0.turns[t] == c.turns[t])
              && (r.value.0.turns[turnId].status == Complete <==> c.turns[turnId].status == Complete)
  {
    hide MessagesForTurn;
  }

  /** A granted new turn adds its own row and nothing else, below the pending quota. */
  lemma NewReservation(lim: Limits, c: Conversation, pending: nat, req: BeginRequest, now: real, token: string)
    requires req.turnId !in c.turns
    ensures var r := BeginNew(lim, c, pending, req, now, token);
            r.Ok? ==>
              && r.value.0 == c.(turns := r.value.0.turns)
              && req.turnId in r.value.0.turns
              && r.value.0.turns[req.turnId].status == Generating
              && r.value.0.turns - {req.turnId} == c.turns
              && (lim.maxPendingTurns > 0 ==> pending < lim.maxPendingTurns)
  {}

  lemma BeginKeeps(lim: Limits, db: Db, req: BeginRequest, now: real, token: string, newId: string)
    requires DbOk(lim, db)
    ensures DbOk(lim, After(db, Begin(lim, db, req, now, token, newId)))
  {
    hide DbOk, Cleanup, OpenScope, BeginIn, Committed;
    var db1 := Cleanup(lim, db, now);
    CleanupKeeps(lim, db, now);
    OpenScopeKeeps(lim, db1, req.scopeKey, now, newId);
    var tx := OpenScope(db1, req.scopeKey, now, newId);
    if ValidRequest(req) && tx.Commit? {
      BeginInKeeps(lim, tx.db, tx.value, req, now, token);
    }
  }

  lemma PutRowKeeps(lim: Limits, db: Db, id: string, turnId: string, row: Turn)
    requires DbOk(lim, db) && id in db.conversations && turnId in db.conversations[id].turns
    requires Live(db.conversations[id].turns[turnId]) && row.status != Complete && LeaseOk(row)
    requires row.parent == db.conversations[id].turns[turnId].parent
    ensures DbOk(lim, PutRow(db, id, turnId, row))
  {
    hide DbOk, ConversationOk, LeaseOk, Live;
    ConversationOf(lim, db, id);
    PutLiveRowKeeps(lim, db.conversations[id], turnId, row);
    PutKeeps(lim, db, id, PutTurn(db.conversations[id], turnId, row));
  }

  /** A live row may change anything but its parent, as long as it does not complete. */
  lemma PutLiveRowKeeps(lim: Limits, c: Conversation, turnId: string, row: Turn)
    requires ConversationOk(lim, c) && turnId in c.turns && Live(c.turns[turnId])
    requires row.status != Complete && LeaseOk(row) && row.parent == c.turns[turnId].parent
    ensures ConversationOk(lim, PutTurn(c, turnId, row)) && c.turns[turnId].status != Complete
  {
    hide LayoutOk, ChainOk, SlotsOk, SlotTaken, LeaseOk, PutTurn;
    assert turnId != "" && !c.archived && c.turns[turnId].parent == c.lastTurn;
    hide TurnsOk, RowsOk;
    LiveSlotIsFree(lim, c, turnId);
    hide ConversationOk;
    PutTurnKeeps(lim, c, turnId, row);
  }

  /** A saved pair that passed the quota checks leaves every quota respected. */
  lemma SaveKeepsQuotas(lim: Limits, db: Db, id: string, c: Conversation, bytes: nat)
    requires QuotasOk(lim, db) && id in db.conversations && !OverQuota(lim, db, id, db.conversations[id], bytes)
    requires c.payloadBytes == db.conversations[id].payloadBytes + bytes && c.messageCount > 0
    requires forall t :: t in c.turns && c.turns[t].status != Complete ==>
      t in db.conversations[id].turns && db.conversations[id].turns[t].status != Complete
    ensures QuotasOk(lim, Put(db, id, c))
  {
    var db' := Put(db, id, c);
    TotalBytesPut(db.conversations, id, c);
    var others := Committed(db.conversations) - {id};
    assert Committed(db'.conversations) == others + {id};
    if db.conversations[id].messageCount > 0 {
      assert Committed(db.conversations) == others + {id};
    }
    SubsetSize(PendingRows(db'.conversations), PendingRows(db.conversations));
  }

  lemma CompleteTurnKeeps(lim: Limits, db: Db, req: CompleteRequest, now: real)
    requires DbOk(lim, db)
    ensures DbOk(lim, After(db, CompleteTurn(lim, db, req, now)))
  {
    hide IndexOk, QuotasOk, ConversationOk, TotalBytes, Committed, PendingRows, TurnBytes, MessagesForTurn, NextSequence;
    var tx := CompleteTurn(lim, db, req, now);
    if tx.Commit? && tx.value.Saved? {
      var id := db.byScope[req.scopeKey];
      var c := db.conversations[id];
      OwnedRowIsLive(lim, c, req.turnId);
      SaveKeeps(lim, c, req, now);
      SaveKeepsQuotas(lim, db, id, Save(c, req, now), TurnBytes(req));
      PutKeepsIndex(db, id, Save(c, req, now));
    }
  }

  lemma OwnedRowIsLive(lim: Limits, c: Conversation, turnId: string)
    requires ConversationOk(lim, c) && turnId in c.turns
    ensures LeaseOk(c.turns[turnId])
    ensures c.turns[turnId].lease.Some? <==> Live(c.turns[turnId])
  {}

  lemma PutKeepsIndex(db: Db, id: string, c: Conversation)
    requires IndexOk(db) && id in db.conversations && c.scopeKey == db.conversations[id].scopeKey
    ensures IndexOk(Put(db, id, c))
  {}

  lemma ResetIsRelaxed(turns: map<string, Turn>, now: real)
    ensures Relaxed(turns, map t | t in turns :: ResetTurn(turns[t], now))
  {}

  lemma ResetKeeps(lim: Limits, db: Db, id: string, now: real)
    requires DbOk(lim, db)
    ensures DbOk(lim, After(db, ResetContinuity(db, id, now)))
  {
    hide ConversationOk, IndexOk, QuotasOk;
    if id in db.conversations {
      var c := db.conversations[id];
      var turns := map t | t in c.turns :: ResetTurn(c.turns[t], now);
      ResetIsRelaxed(c.turns, now);
      RelaxedKeeps(lim, c, turns);
      PutKeeps(lim, db, id, c.(turns := turns));
    }
  }

  lemma ArchiveKeeps(lim: Limits, c: Conversation, archived: bool, now: real)
    requires ConversationOk(lim, c) && (archived ==> c.archived || !HasLive(c))
    ensures ConversationOk(lim, c.(archived := archived, updatedAt := now))
  {
    hide ChainOk, SlotsOk, LayoutOk, LeaseOk, Chain;
  }

  lemma UpdateConversationKeeps(lim: Limits, db: Db, id: string, archived: Option<bool>, now: real)
    requires DbOk(lim, db)
    ensures DbOk(lim, After(db, UpdateConversation(db, id, archived, now)))
  {
    hide ConversationOk, IndexOk, QuotasOk, HasLive;
    var tx := UpdateConversation(db, id, archived, now);
    if tx.Commit? {
      var c := db.conversations[id];
      ArchiveKeeps(lim, c, if archived.Some? then archived.value else c.archived, now);
      PutKeeps(lim, db, id, tx.db.conversations[id]);
    }
  }

  lemma UpdateSummaryKeeps(lim: Limits, db: Db, scopeKey: string, summary: seq<int>, expected: int, through: int,
                           now: real)
    requires DbOk(lim, db)
    ensures DbOk(lim, After(db, UpdateSummary(db, scopeKey, summary, expected, through, now)))
  {
    var tx := UpdateSummary(db, scopeKey, summary, expected, through, now);
    if tx.value {
      hide IndexOk, QuotasOk, RowsOk, ChainOk, SlotsOk, LayoutOk, Chain;
      var id := db.byScope[scopeKey];
      assert ConversationOk(lim, tx.db.conversations[id]);
      hide ConversationOk;
      PutKeeps(lim, db, id, tx.db.conversations[id]);
    }
  }

  /** The invariant holds initially and every step of any worker keeps it. */
  lemma ApplyKeeps(lim: Limits, db: Db, step: Step, now: real)
    requires DbOk(lim, db)
    ensures DbOk(lim, Apply(lim, db, step, now))
  {
    hide DbOk, Begin, CompleteTurn, Cleanup, UpdateSummary, ResetContinuity, UpdateConversation, Drop, Recover,
         MarkReady, Renew, Fail, UsersOf, CleanupPlan;
    match step
    case DoBegin(req, token, newId) => BeginKeeps(lim, db, req, now, token, newId);
    case DoRecover(s, t, fp, expected, token) => RecoverKeeps(lim, db, s, t, fp, expected, now, token);
    case DoMarkReady(s, t, token, digest) => OwnedRowKeeps(lim, db, s, t, token, digest, now);
    case DoComplete(req) => CompleteTurnKeeps(lim, db, req, now);
    case DoRenew(s, t, token) => OwnedRowKeeps(lim, db, s, t, token, "", now);
    case DoFail(s, t, token) => OwnedRowKeeps(lim, db, s, t, token, "", now);
    case DoReset(id) => ResetKeeps(lim, db, id, now);
    case DoUpdate(id, archived) => UpdateConversationKeeps(lim, db, id, archived, now);
    case DoSummary(s, summary, version, through) =>
      UpdateSummaryKeeps(lim, db, s, summary, version, through, now);
    case DoCleanup => CleanupKeeps(lim, db, now);
    case DoDelete(id) => DropKeeps(lim, db, {id});
    case DoDeleteWithCleanup(id) => DropWithPlanKeeps(lim, db, ConversationKey(id), {id});
    case DoDeleteByKnowledgeBase(kb) => DropWithPlanKeeps(lim, db, KnowledgeBaseKey(kb), UsersOf(db, kb));
    case DoAcknowledge(key) => OutboxIsSeparate(lim, db, db.outbox - {key});
  }

  lemma RecoverKeeps(lim: Limits, db: Db, scopeKey: string, turnId: string, fingerprint: string,
                     expected: Option<string>, now: real, token: string)
    requires DbOk(lim, db)
    ensures DbOk(lim, After(db, Recover(lim, db, scopeKey, turnId, fingerprint, expected, now, token)))
  {
    hide ConversationOk, IndexOk, QuotasOk, MessagesForTurn;
    var tx := Recover(lim, db, scopeKey, turnId, fingerprint, expected, now, token);
    if tx.Commit? && tx.value.Recovered? {
      var id := db.byScope[scopeKey];
      PutRowKeeps(lim, db, id, turnId, tx.db.conversations[id].turns[turnId]);
    }
  }

  lemma OwnedRowKeeps(lim: Limits, db: Db, scopeKey: string, turnId: string, token: string, digest: string, now: real)
    requires DbOk(lim, db)
    ensures DbOk(lim, After(db, MarkReady(db, scopeKey, turnId, token, digest, now)))
    ensures DbOk(lim, After(db, Renew(lim, db, scopeKey, turnId, token, now)))
    ensures DbOk(lim, After(db, Fail(db, scopeKey, turnId, token, now)))
  {
    hide ConversationOk, IndexOk, QuotasOk;
    match FindTurn(db, scopeKey, turnId)
    case None =>
    case Some(id) =>
      OwnedRowIsLive(lim, db.conversations[id], turnId);
      var row := Row(db, id, turnId);
      if Owns(row, token) {
        PutRowKeeps(lim, db, id, turnId, row.(status := Ready, digest := Some(digest), updatedAt := now));
        PutRowKeeps(lim, db, id, turnId, row.(expires := Some(LeaseEnd(lim, now)), updatedAt := now));
        PutRowKeeps(lim, db, id, turnId, FailTurnRow(row).(updatedAt := now));
      }
  }

  lemma OutboxIsSeparate(lim: Limits, db: Db, outbox: map<string, References>)
    requires DbOk(lim, db)
    ensures DbOk(lim, db.(outbox := outbox))
  {
    hide ConversationOk, QuotasOk;
    assert QuotasOk(lim, db.(outbox := outbox)) by {
      ShrinkKeepsQuotas(lim, db, db.(outbox := outbox));
    }
  }

  lemma DropWithPlanKeeps(lim: Limits, db: Db, key: string, ids: set<string>)
    requires DbOk(lim, db)
    ensures DbOk(lim, DropWithPlan(db, key, ids))
  {
    hide DbOk, Drop, CleanupPlan;
    DropKeeps(lim, db, ids);
    var staged := db.(outbox := db.outbox[key := CleanupPlan(db, ids).exclusive]);
    OutboxIsSeparate(lim, db, staged.outbox);
    DropKeeps(lim, staged, ids);
  }

  lemma EmptyDbOk(lim: Limits)
    ensures DbOk(lim, EmptyDb)
  {}

  // ----- What the invariant says about one conversation -------------------------------

  /** Parent pointers followed from `from` for at most `fuel` rows. */
  function Ancestors(turns: map<string, Turn>, from: Option<string>, fuel: nat): seq<string>
    decreases fuel
  {
    if fuel == 0 || from.None? || from.value !in turns then []
    else Ancestors(turns, turns[from.value].parent, fuel - 1) + [from.value]
  }

  lemma {:induction false} AncestorsAreTheChain(turns: map<string, Turn>, chain: seq<string>, k: nat, fuel: nat)
    requires k <= |chain| && k <= fuel && Linked(chain, turns)
    ensures Ancestors(turns, Previous(chain, k), fuel) == chain[..k]
  {
    if k > 0 {
      assert LinkedAt(chain, turns, k - 1);
      AncestorsAreTheChain(turns, chain, k - 1, fuel - 1);
      assert chain[..k] == chain[..k - 1] + [chain[k - 1]];
    }
  }

  /**
   Walking the parent pointers back from `last_turn_id` ends at the null parent
   after visiting every complete turn exactly once, in transcript order; at most
   one turn is live, it extends that very chain, and an archived conversation
   has none.
   */
  lemma LinearHistory(lim: Limits, c: Conversation)
    requires ConversationOk(lim, c)
    ensures var walk := Ancestors(c.turns, c.lastTurn, |c.turns| + |c.messages|);
            && walk == Chain(c.messages)
            && (forall t :: t in walk <==> t in c.turns && c.turns[t].status == Complete)
            && (forall i, j :: 0 <= i < j < |walk| ==> walk[i] != walk[j])
            && (|walk| > 0 ==> c.turns[walk[0]].parent == None)
    ensures forall t, u :: t in c.turns && u in c.turns && Live(c.turns[t]) && Live(c.turns[u]) ==> t == u
    ensures forall t :: t in c.turns && Live(c.turns[t]) ==> c.turns[t].parent == c.lastTurn
    ensures c.archived ==> !HasLive(c)
  {
    hide LayoutOk, Chain, SlotsOk, Linked, Distinct;
    var chain := Chain(c.messages);
    assert |chain| <= |c.turns| + |c.messages|;
    AncestorsAreTheChain(c.turns, chain, |chain|, |c.turns| + |c.messages|);
    assert chain[..|chain|] == chain;
    ChainIsComplete(chain, c.turns);
    forall t, u | t in c.turns && u in c.turns && Live(c.turns[t]) && Live(c.turns[u])
      ensures t == u
    {
      LiveSlotIsFree(lim, c, t);
      assert Indexed(c.turns[u]) && Slot(c.turns[u].parent) == Slot(c.turns[t].parent);
    }
  }

  lemma ChainIsComplete(chain: seq<string>, turns: map<string, Turn>)
    requires Linked(chain, turns) && Distinct(chain)
    ensures forall t :: t in chain ==> t in turns && turns[t].status == Complete
    ensures forall i, j :: 0 <= i < j < |chain| ==> chain[i] != chain[j]
    ensures |chain| > 0 ==> turns[chain[0]].parent == None
  {
    forall t | t in chain
      ensures t in turns && turns[t].status == Complete
    {
      var k :| 0 <= k < |chain| && chain[k] == t;
      assert LinkedAt(chain, turns, k);
    }
    assert |chain| > 0 ==> LinkedAt(chain, turns, 0);
  }

  lemma ChainLeavesLastSlotFree(chain: seq<string>, turns: map<string, Turn>, lastTurn: Option<string>, t: string)
    requires ChainOk(chain, turns, lastTurn) && "" !in turns
    requires t in turns && turns[t].status == Complete
    ensures Slot(turns[t].parent) != Slot(lastTurn)
  {
    assert t in chain;
    var k :| 0 <= k < |chain| && chain[k] == t;
    assert LinkedAt(chain, turns, k) && LinkedAt(chain, turns, |chain| - 1);
    if k > 0 {
      assert LinkedAt(chain, turns, k - 1);
      assert chain[k - 1] != chain[|chain| - 1];
    }
  }

  /**
   Retrying a failed turn on the current parent runs into the unique index,
   with an error that is not translated, exactly when some turn is live.
   */
  lemma FailedRetryCollidesIff(lim: Limits, c: Conversation, turnId: string, now: real, token: string)
    requires ConversationOk(lim, c) && turnId in c.turns
    requires c.turns[turnId].status == Failed && c.turns[turnId].parent == c.lastTurn
    ensures BeginExisting(lim, c, turnId, c.turns[turnId].fingerprint, now, token) == Err(UniqueViolation)
            <==> HasLive(c)
  {
    hide LayoutOk, SlotsOk, ChainOk, MessagesForTurn;
    if SlotTaken(c.turns, turnId, c.lastTurn) {
      var t :| t in c.turns && t != turnId && Indexed(c.turns[t]) && Slot(c.turns[t].parent) == Slot(c.lastTurn);
      if c.turns[t].status == Complete {
        ChainLeavesLastSlotFree(Chain(c.messages), c.turns, c.lastTurn, t);
      }
    }
    if HasLive(c) {
      var t :| t in c.turns && Live(c.turns[t]);
      assert t != turnId && Indexed(c.turns[t]) && Slot(c.turns[t].parent) == Slot(c.lastTurn);
    }
  }
}
