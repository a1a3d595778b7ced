/**
 Whole runs of the history store: any workers, any interleaving of
 transactions, any clock readings.
 */
module HistoryRuns {
  import opened Wrappers
  import opened Artifacts
  import opened HistoryModel
  import opened HistorySpec
  import opened HistoryInvariant
  import opened HistoryEvolution

  datatype Event = Event(step: Step, now: real)

  ghost function Run(lim: Limits, db: Db, events: seq<Event>): Db
    decreases |events|
  {
    if events == [] then db
    else
      var last := events[|events| - 1];
      Apply(lim, Run(lim, db, events[..|events| - 1]), last.step, last.now)
  }

  /** Linear histories, dense transcripts, leases and quotas in every reachable state. */
  lemma {:induction false} RunKeeps(lim: Limits, db: Db, events: seq<Event>)
    requires DbOk(lim, db)
    ensures DbOk(lim, Run(lim, db, events))
    decreases |events|
  {
    hide DbOk, Apply;
    if events != [] {
      var before := events[..|events| - 1];
      RunKeeps(lim, db, before);
      ApplyKeeps(lim, Run(lim, db, before), events[|events| - 1].step, events[|events| - 1].now);
    }
  }

  lemma ReachableOk(lim: Limits, events: seq<Event>)
    ensures DbOk(lim, Run(lim, EmptyDb, events))
  {
    EmptyDbOk(lim);
    RunKeeps(lim, EmptyDb, events);
  }

  // ----- Fencing -------------------------------------------------------------------

  /** The reservation of this turn in this scope, if there is one, does not carry the token. */
  ghost predicate Released(db: Db, scopeKey: string, turnId: string, token: string) {
    forall id :: id in db.conversations && db.conversations[id].scopeKey == scopeKey
                 && turnId in db.conversations[id].turns ==>
      db.conversations[id].turns[turnId].lease != Some(token)
  }

  ghost predicate NeverIssues(events: seq<Event>, token: string) {
    forall e :: e in events ==> Issued(e.step) != Some(token)
  }

  lemma {:induction false} StaysReleased(lim: Limits, db: Db, events: seq<Event>, scopeKey: string, turnId: string,
                                         token: string)
    requires Released(db, scopeKey, turnId, token) && NeverIssues(events, token)
    ensures Released(Run(lim, db, events), scopeKey, turnId, token)
    decreases |events|
  {
    if events != [] {
      var before := events[..|events| - 1];
      var last := events[|events| - 1];
      StaysReleased(lim, db, before, scopeKey, turnId, token);
      var db1 := Run(lim, db, before);
      var db2 := Apply(lim, db1, last.step, last.now);
      hide Apply, Run;
      forall id | id in db2.conversations && db2.conversations[id].scopeKey == scopeKey
                  && turnId in db2.conversations[id].turns
        ensures db2.conversations[id].turns[turnId].lease != Some(token)
      {
        StepEvolves(lim, db1, last.step, last.now, id);
      }
    }
  }

  /** A worker without the row's current token cannot stage, renew, fail, complete or recover it. */
  lemma ForeignTokenIsInert(lim: Limits, db: Db, scopeKey: string, turnId: string, token: string, fingerprint: string,
                            digest: string, req: CompleteRequest, now: real, newToken: string)
    requires IndexOk(db) && Released(db, scopeKey, turnId, token)
    requires req.scopeKey == scopeKey && req.turnId == turnId && req.token == token
    ensures MarkReady(db, scopeKey, turnId, token, digest, now) == Commit(db, false)
    ensures Renew(lim, db, scopeKey, turnId, token, now) == Commit(db, false)
    ensures Fail(db, scopeKey, turnId, token, now) == Commit(db, false)
    ensures After(db, CompleteTurn(lim, db, req, now)) == db
    ensures After(db, Recover(lim, db, scopeKey, turnId, fingerprint, Some(token), now, newToken)) == db
  {
    hide Utf8Bytes, MessagesForTurn, OverQuota;
  }

  /**
   Once a worker has lost its lease, however the run goes on, its token is dead:
   nothing it still tries on that turn changes the database.
   */
  lemma LostLeaseIsDead(lim: Limits, db: Db, events: seq<Event>, scopeKey: string, turnId: string, token: string,
                        fingerprint: string, digest: string, req: CompleteRequest, now: real, newToken: string)
    requires DbOk(lim, db) && Released(db, scopeKey, turnId, token) && NeverIssues(events, token)
    requires req.scopeKey == scopeKey && req.turnId == turnId && req.token == token
    ensures var db' := Run(lim, db, events);
      && MarkReady(db', scopeKey, turnId, token, digest, now) == Commit(db', false)
      && Renew(lim, db', scopeKey, turnId, token, now) == Commit(db', false)
      && Fail(db', scopeKey, turnId, token, now) == Commit(db', false)
      && After(db', CompleteTurn(lim, db', req, now)) == db'
      && After(db', Recover(lim, db', scopeKey, turnId, fingerprint, Some(token), now, newToken)) == db'
  {
    hide Run, CompleteTurn, Recover, ConversationOk, QuotasOk;
    RunKeeps(lim, db, events);
    StaysReleased(lim, db, events, scopeKey, turnId, token);
    ForeignTokenIsInert(lim, Run(lim, db, events), scopeKey, turnId, token, fingerprint, digest, req, now, newToken);
  }

  /**
   Of all workers that saw the same lost staged result at most one recovers it:
   after one recovery every other with the lease it observed is refused, for ever.
   */
  lemma RecoveredAtMostOnce(lim: Limits, db: Db, scopeKey: string, turnId: string, fingerprint: string, seen: string,
                            now: real, token: string, events: seq<Event>, fingerprint': string, now': real,
                            token': string)
    requires DbOk(lim, db) && token != seen && NeverIssues(events, seen)
    requires var tx := Recover(lim, db, scopeKey, turnId, fingerprint, Some(seen), now, token);
             tx.Commit? && tx.value.Recovered?
    ensures var first := After(db, Recover(lim, db, scopeKey, turnId, fingerprint, Some(seen), now, token));
            var second := Recover(lim, Run(lim, first, events), scopeKey, turnId, fingerprint', Some(seen), now', token');
            second.Rollback? || second.value.AlreadyComplete?
  {
    var first := After(db, Recover(lim, db, scopeKey, turnId, fingerprint, Some(seen), now, token));
    hide ConversationOk, QuotasOk, MessagesForTurn;
    RecoverKeeps(lim, db, scopeKey, turnId, fingerprint, Some(seen), now, token);
    assert Released(first, scopeKey, turnId, seen);
    StaysReleased(lim, first, events, scopeKey, turnId, seen);
    RunKeeps(lim, first, events);
    var db' := Run(lim, first, events);
    hide Run, Released;
    match FindTurn(db', scopeKey, turnId)
    case None =>
    case Some(id) => assert Row(db', id, turnId).lease != Some(seen) by { ReleasedRow(db', scopeKey, turnId, seen, id); }
  }

  lemma ReleasedRow(db: Db, scopeKey: string, turnId: string, token: string, id: string)
    requires IndexOk(db) && Released(db, scopeKey, turnId, token) && FindTurn(db, scopeKey, turnId) == Some(id)
    ensures Row(db, id, turnId).lease != Some(token)
  {}

  // ----- Conversations across a run ----------------------------------------------------

  /** Ids are fresh: no step of the run creates a conversation under this one. */
  ghost predicate NeverCreates(events: seq<Event>, id: string) {
    forall e :: e in events && e.step.DoBegin? ==> e.step.newId != id
  }

  ghost predicate Grown(c: Conversation, c': Conversation) {
    && c'.scopeKey == c.scopeKey
    && c.messages <= c'.messages
    && c.knowledgeBases.Keys <= c'.knowledgeBases.Keys
    && (forall t :: t in c.turns && c.turns[t].status == Complete ==> t in c'.turns && c'.turns[t] == c.turns[t])
    && c.messageCount <= c'.messageCount
    && c.summaryVersion <= c'.summaryVersion
    && c.summaryThrough <= c'.summaryThrough
    && (c.summaryVersion == c'.summaryVersion ==>
          c'.summary == c.summary && c'.summaryThrough == c.summaryThrough)
  }

  lemma GrownTransitive(a: Conversation, b: Conversation, c: Conversation)
    requires Grown(a, b) && Grown(b, c)
    ensures Grown(a, c)
  {}

  lemma EvolvesIsGrown(c: Conversation, c': Conversation, issued: Option<string>)
    requires Evolves(c, c', issued)
    ensures Grown(c, c')
  {}

  /**
   Until it is deleted a conversation keeps its transcript, its complete turns
   and every knowledge base ever associated with it; its summary cursor never
   moves back and an unchanged version means an unchanged summary.
   */
  lemma {:induction false} ConversationGrows(lim: Limits, db: Db, events: seq<Event>, id: string)
    requires id in Run(lim, db, events).conversations && NeverCreates(events, id)
    ensures id in db.conversations && Grown(db.conversations[id], Run(lim, db, events).conversations[id])
    decreases |events|
  {
    hide Apply, Grown, Evolves;
    if events == [] {
      EvolvesReflexive(db.conversations[id], None);
      EvolvesIsGrown(db.conversations[id], db.conversations[id], None);
    } else {
      var before := events[..|events| - 1];
      var last := events[|events| - 1];
      var db1 := Run(lim, db, before);
      StepEvolves(lim, db1, last.step, last.now, id);
      assert last in events;
      ConversationGrows(lim, db, before, id);
      EvolvesIsGrown(db1.conversations[id], Run(lim, db, events).conversations[id], Issued(last.step));
      GrownTransitive(db.conversations[id], db1.conversations[id], Run(lim, db, events).conversations[id]);
    }
  }

  // ----- Exactly one pair per turn -------------------------------------------------------

  lemma {:induction false} NoMessagesOfTurn(messages: seq<Message>, turnId: string)
    requires forall i :: 0 <= i < |messages| ==> messages[i].turnId != turnId
    ensures MessagesForTurn(messages, turnId) == []
  {
    if messages != [] {
      NoMessagesOfTurn(messages[..|messages| - 1], turnId);
    }
  }

  lemma {:induction false} MessagesOfConcat(a: seq<Message>, b: seq<Message>, turnId: string)
    ensures MessagesForTurn(a + b, turnId) == MessagesForTurn(a, turnId) + MessagesForTurn(b, turnId)
  {
    if b == [] {
      assert a + b == a;
    } else {
      MessagesOfConcat(a, b[..|b| - 1], turnId);
      assert (a + b)[..|a + b| - 1] == a + b[..|b| - 1];
    }
  }

  lemma OneMessage(m: Message, turnId: string)
    ensures MessagesForTurn([m], turnId) == if m.turnId == turnId then [m] else []
  {
    assert [m][..0] == [];
  }

  lemma MessagesOfSlice(messages: seq<Message>, from: nat, turnId: string)
    requires from + 2 <= |messages|
    requires messages[from].turnId == turnId && messages[from + 1].turnId == turnId
    requires forall i :: 0 <= i < |messages| && i != from && i != from + 1 ==> messages[i].turnId != turnId
    ensures MessagesForTurn(messages, turnId) == messages[from..from + 2]
  {
    hide MessagesForTurn;
    var before, u, a, rest := messages[..from], messages[from], messages[from + 1], messages[from + 2..];
    NoMessagesOfTurn(before, turnId);
    NoMessagesOfTurn(rest, turnId);
    OneMessage(u, turnId);
    OneMessage(a, turnId);
    MessagesOfConcat([u], [a], turnId);
    MessagesOfConcat(before, [u] + [a], turnId);
    MessagesOfConcat(before + ([u] + [a]), rest, turnId);
    assert messages == before + ([u] + [a]) + rest;
    assert messages[from..from + 2] == [u] + [a];
    assert [] + ([u] + [a]) + [] == [u] + [a];
  }

  lemma OtherTurn(messages: seq<Message>, i: nat, k: nat)
    requires TranscriptOk(messages) && Distinct(Chain(messages)) && 2 * k < |messages| && i < |messages|
    requires i != 2 * k && i != 2 * k + 1
    ensures messages[i].turnId != messages[2 * k].turnId
  {
    hide Chain, TranscriptOk;
    TurnAt(messages, i);
    TurnAt(messages, 2 * k);
    assert i / 2 != k && 2 * k / 2 == k;
  }

  lemma NoOtherMessages(messages: seq<Message>, k: nat)
    requires TranscriptOk(messages) && Distinct(Chain(messages)) && 2 * k < |messages|
    ensures forall i :: 0 <= i < |messages| && i != 2 * k && i != 2 * k + 1 ==>
                          messages[i].turnId != messages[2 * k].turnId
  {
    hide Distinct, Chain, TranscriptOk;
    forall i | 0 <= i < |messages| && i != 2 * k && i != 2 * k + 1
      ensures messages[i].turnId != messages[2 * k].turnId
    {
      OtherTurn(messages, i, k);
    }
  }

  lemma PairOfTurn(messages: seq<Message>, k: nat)
    requires TranscriptOk(messages) && Distinct(Chain(messages)) && 2 * k < |messages|
    ensures 2 * k + 1 < |messages|
    ensures MessagesForTurn(messages, messages[2 * k].turnId) == messages[2 * k..2 * k + 2]
  {
    hide Distinct, Chain, MessagesForTurn, TranscriptOk;
    EvenLength(messages);
    PairShape(messages, k);
    NoOtherMessages(messages, k);
    MessagesOfSlice(messages, 2 * k, messages[2 * k].turnId);
  }

  lemma EvenLength(messages: seq<Message>)
    requires TranscriptOk(messages)
    ensures |messages| % 2 == 0
  {}

  lemma TurnAt(messages: seq<Message>, i: nat)
    requires TranscriptOk(messages) && i < |messages|
    ensures i / 2 < |Chain(messages)| && messages[i].turnId == Chain(messages)[i / 2]
  {
    assert i % 2 == 1 ==> SameTurn(messages, i);
  }

  /** Where a complete turn stands in the chain. */
  lemma ChainPosition(c: Conversation, turnId: string) returns (k: nat)
    requires TurnsOk(c) && turnId in c.turns && c.turns[turnId].status == Complete
    ensures 2 * k + 1 < |c.messages| && c.messages[2 * k].turnId == turnId
  {
    hide Linked, Distinct, SlotsOk, RowsOk;
    var chain := Chain(c.messages);
    assert turnId in chain;
    k :| 0 <= k < |chain| && chain[k] == turnId;
  }

  /** A complete turn has its one user and one assistant message; no other turn has any. */
  lemma OnePairPerTurn(lim: Limits, c: Conversation, turnId: string)
    requires ConversationOk(lim, c)
    ensures turnId in c.turns && c.turns[turnId].status == Complete ==>
              var pair := MessagesForTurn(c.messages, turnId);
              && |pair| == 2
              && pair[0].role == User && pair[1].role == Assistant
              && pair[0].turnId == pair[1].turnId == turnId
              && pair[1].sequence == pair[0].sequence + 1
              && pair[1].sequence % 2 == 0
    ensures !(turnId in c.turns && c.turns[turnId].status == Complete) ==>
              MessagesForTurn(c.messages, turnId) == []
  {
    hide SlotsOk, RowsOk, Distinct, MessageBytes, Chain, MessagesForTurn, TranscriptOk, Linked, CompleteIn;
    if turnId in c.turns && c.turns[turnId].status == Complete {
      var k := ChainPosition(c, turnId);
      PairOfTurn(c.messages, k);
      PairShape(c.messages, k);
    } else {
      OnlyCompleteTurnsHaveMessages(c, turnId);
      NoMessagesOfTurn(c.messages, turnId);
    }
  }

  lemma PairShape(messages: seq<Message>, k: nat)
    requires TranscriptOk(messages) && 2 * k + 1 < |messages|
    ensures var user, assistant := messages[2 * k], messages[2 * k + 1];
      && user.role == User && assistant.role == Assistant
      && user.turnId == assistant.turnId
      && user.sequence == 2 * k + 1 && assistant.sequence == 2 * k + 2
  {
    assert SameTurn(messages, 2 * k + 1);
  }

  lemma OnlyCompleteTurnsHaveMessages(c: Conversation, turnId: string)
    requires TranscriptOk(c.messages) && TurnsOk(c)
    requires !(turnId in c.turns && c.turns[turnId].status == Complete)
    ensures forall i :: 0 <= i < |c.messages| ==> c.messages[i].turnId != turnId
  {
    hide SlotsOk, RowsOk, Distinct, Chain, CompleteIn, TranscriptOk;
    forall i | 0 <= i < |c.messages|
      ensures c.messages[i].turnId != turnId
    {
      TurnAt(c.messages, i);
      assert LinkedAt(Chain(c.messages), c.turns, i / 2);
    }
  }

  /** The pair of a complete turn is the same in every later state of its conversation. */
  lemma PairIsPermanent(lim: Limits, c: Conversation, c': Conversation, turnId: string)
    requires ConversationOk(lim, c) && ConversationOk(lim, c') && Grown(c, c')
    requires turnId in c.turns && c.turns[turnId].status == Complete
    ensures MessagesForTurn(c'.messages, turnId) == MessagesForTurn(c.messages, turnId)
  {
    hide SlotsOk, RowsOk, Linked, Distinct, CompleteIn, MessageBytes, TranscriptOk, Chain;
    var k := ChainPosition(c, turnId);
    PairOfTurn(c.messages, k);
    PairOfTurn(c'.messages, k);
    assert c'.messages[2 * k..2 * k + 2] == c.messages[2 * k..2 * k + 2];
  }

  /**
   Exactly-once: after a turn completed, and for as long as its conversation
   exists, repeating the completion with whatever token and content that fits
   returns the original pair and changes nothing.
   */
  lemma CompletionIsIdempotent(lim: Limits, db: Db, events: seq<Event>, id: string, req: CompleteRequest, now: real)
    requires DbOk(lim, db) && NeverCreates(events, id)
    requires id in db.conversations && id in Run(lim, db, events).conversations
    requires req.scopeKey == db.conversations[id].scopeKey && ContentFits(lim, req)
    requires req.turnId in db.conversations[id].turns && db.conversations[id].turns[req.turnId].status == Complete
    ensures CompleteTurn(lim, Run(lim, db, events), req, now) ==
            Commit(Run(lim, db, events), Replayed(MessagesForTurn(db.conversations[id].messages, req.turnId)))
  {
    hide Run, ConversationOk, MessagesForTurn, QuotasOk, OverQuota, ContentFits;
    ConversationGrows(lim, db, events, id);
    RunKeeps(lim, db, events);
    PairIsPermanent(lim, db.conversations[id], Run(lim, db, events).conversations[id], req.turnId);
  }

  /**
   Exactly-once for retries: a later begin with the same fingerprint replays the
   original pair if and only if the conversation is not archived then; an
   archived one refuses even the replay.  (`id` must still be there after the
   retention pass every begin starts with.)
   */
  lemma RetryReplays(lim: Limits, db: Db, events: seq<Event>, id: string, req: BeginRequest, now: real,
                     token: string, newId: string)
    requires DbOk(lim, db) && NeverCreates(events, id) && ValidRequest(req)
    requires id in db.conversations && id in Cleanup(lim, Run(lim, db, events), now).conversations
    requires req.scopeKey == db.conversations[id].scopeKey
    requires req.turnId in db.conversations[id].turns
    requires db.conversations[id].turns[req.turnId].status == Complete
    requires db.conversations[id].turns[req.turnId].fingerprint == req.fingerprint
    ensures var tx := Begin(lim, Run(lim, db, events), req, now, token, newId);
            var pair := MessagesForTurn(db.conversations[id].messages, req.turnId);
            && (Run(lim, db, events).conversations[id].archived ==> tx == Rollback(ConversationArchived))
            && (!Run(lim, db, events).conversations[id].archived ==>
                  tx.Commit? && tx.value == CompleteTurnReplay(pair))
  {
    hide Run, DbOk, ConversationOk, MessagesForTurn, Cleanup, Begin, TurnsEvolve, DurableStep;
    var later := Run(lim, db, events);
    RunKeeps(lim, db, events);
    CleanupEvolves(lim, later, now, id, None);
    ConversationGrows(lim, db, events, id);
    ConversationOf(lim, db, id);
    ConversationOf(lim, later, id);
    PairIsPermanent(lim, db.conversations[id], later.conversations[id], req.turnId);
    CompleteRowReplays(lim, later, id, req, now, token, newId);
  }

  lemma CompleteRowReplays(lim: Limits, db: Db, id: string, req: BeginRequest, now: real, token: string, newId: string)
    requires DbOk(lim, db) && ValidRequest(req) && id in Cleanup(lim, db, now).conversations
    requires id in db.conversations && req.turnId in db.conversations[id].turns
    requires req.scopeKey == db.conversations[id].scopeKey
    requires db.conversations[id].turns[req.turnId].status == Complete
    requires db.conversations[id].turns[req.turnId].fingerprint == req.fingerprint
    ensures var c, tx := db.conversations[id], Begin(lim, db, req, now, token, newId);
            if c.archived then tx == Rollback(ConversationArchived)
            else tx.Commit? && tx.value == CompleteTurnReplay(MessagesForTurn(c.messages, req.turnId))
  {
    CleanupKeeps(lim, db, now);
    CleanupEvolves(lim, db, now, id, None);
    hide ConversationOk, QuotasOk, MessagesForTurn, Cleanup, PendingRows, Committed, Associate, Linked;
  }

  /** A granted or replayed begin has recorded every knowledge base it names. */
  lemma BeginRecordsOwnership(lim: Limits, db: Db, req: BeginRequest, now: real, token: string, newId: string)
    requires Begin(lim, db, req, now, token, newId).Commit? && IndexOk(Cleanup(lim, db, now))
    ensures var db' := Begin(lim, db, req, now, token, newId).db;
      && req.scopeKey in db'.byScope && db'.byScope[req.scopeKey] in db'.conversations
      && (forall kb :: kb in req.knowledgeBases && kb != "" ==>
            kb in db'.conversations[db'.byScope[req.scopeKey]].knowledgeBases)
  {
    hide Cleanup, PendingRows, Committed, MessagesForTurn, SlotTaken;
  }

  // ----- The artifact outbox ---------------------------------------------------------------

  ghost predicate NeverAcknowledges(events: seq<Event>, key: string) {
    forall e :: e in events ==> e.step != DoAcknowledge(key)
  }

  lemma OutboxStep(lim: Limits, db: Db, step: Step, now: real, id: string)
    requires id !in db.conversations && ConversationKey(id) in db.outbox
    requires step != DoAcknowledge(ConversationKey(id)) && (step.DoBegin? ==> step.newId != id)
    ensures var db' := Apply(lim, db, step, now);
      && id !in db'.conversations
      && ConversationKey(id) in db'.outbox
      && db'.outbox[ConversationKey(id)] == db.outbox[ConversationKey(id)]
  {
    hide Cleanup, CleanupPlan, UsersOf, OverQuota, Utf8Bytes, BeginIn, Committed, Recover, MarkReady, Renew, Fail,
         CompleteTurn, ResetContinuity, UpdateConversation, UpdateSummary;
    if !step.DoBegin? && !Deletes(step) && !step.DoCleanup? && !step.DoAcknowledge? {
      RowStepsLeaveOutbox(lim, db, step, now, id);
    }
    if step.DoBegin? {
      BeginLeavesOutbox(lim, db, step, now, id);
    }
    hide Begin;
    assert forall kb :: KnowledgeBaseKey(kb)[0] != ConversationKey(id)[0];
    assert forall other :: ConversationKey(other)[|"conversation:"|..] == other;
    assert Cleanup(lim, db, now).outbox == db.outbox && id !in Cleanup(lim, db, now).conversations by {
      CleanupOutbox(lim, db, now, id);
    }
  }

  predicate Deletes(step: Step) {
    step.DoDelete? || step.DoDeleteWithCleanup? || step.DoDeleteByKnowledgeBase?
  }

  lemma RowStepsLeaveOutbox(lim: Limits, db: Db, step: Step, now: real, id: string)
    requires id !in db.conversations
    requires !step.DoBegin? && !Deletes(step) && !step.DoCleanup? && !step.DoAcknowledge?
    ensures var db' := Apply(lim, db, step, now); db'.outbox == db.outbox && id !in db'.conversations
  {
    hide MessagesForTurn, OverQuota, Utf8Bytes, HasLive, Save, ResetTurn;
  }

  lemma BeginLeavesOutbox(lim: Limits, db: Db, step: Step, now: real, id: string)
    requires id !in db.conversations && step.DoBegin? && step.newId != id
    ensures var db' := Apply(lim, db, step, now); db'.outbox == db.outbox && id !in db'.conversations
  {
    hide Cleanup, BeginExisting, BeginNew, Committed, PendingRows;
    CleanupOutbox(lim, db, now, id);
  }

  lemma CleanupOutbox(lim: Limits, db: Db, now: real, id: string)
    requires id !in db.conversations
    ensures Cleanup(lim, db, now).outbox == db.outbox && id !in Cleanup(lim, db, now).conversations
  {
    hide CleanConversation;
  }

  /**
   A safe plan survives any crash: until the cleanup is acknowledged, retrying
   the deletion of the vanished conversation returns the very same references.
   */
  lemma {:induction false} PlanSurvives(lim: Limits, db: Db, events: seq<Event>, id: string)
    requires id in db.conversations && CleanupPlan(db, {id}).safe
    requires NeverCreates(events, id) && NeverAcknowledges(events, ConversationKey(id))
    ensures var later := Run(lim, After(db, DeleteWithCleanup(db, id)), events);
      && id !in later.conversations
      && ConversationKey(id) in later.outbox
      && DeleteWithCleanup(later, id) == Commit(later, (false, CleanupPlan(db, {id})))
    decreases |events|
  {
    hide Apply, CleanupPlan;
    if events != [] {
      var before := events[..|events| - 1];
      var last := events[|events| - 1];
      assert last in events;
      PlanSurvives(lim, db, before, id);
      OutboxStep(lim, Run(lim, After(db, DeleteWithCleanup(db, id)), before), last.step, last.now, id);
    }
  }
}
