/**
 What any transaction can do to a conversation it does not delete: append to
 the transcript, add and change incomplete turns, advance the summary by its
 compare-and-swap, and associate more knowledge bases.
 */
module HistoryEvolution {
  import opened Wrappers
  import opened HistoryModel
  import opened HistorySpec
  import opened HistoryInvariant

  /** The columns the summary protocol works on. */
  datatype Durable = Durable(count: int, summary: seq<int>, through: int, version: int)

  function Project(c: Conversation): Durable {
    Durable(c.messageCount, c.summary, c.summaryThrough, c.summaryVersion)
  }

  predicate Commits(d: Durable, d': Durable) {
    d' == d.(count := d.count + 2)
  }

  predicate Swaps(d: Durable, d': Durable) {
    d'.count == d.count && d'.version == d.version + 1 && d'.through > d.through
  }

  predicate DurableStep(d: Durable, d': Durable) {
    d' == d || Commits(d, d') || Swaps(d, d')
  }

  /** Complete rows are final, and a lease was there before or was just issued. */
  ghost predicate TurnsEvolve(turns: map<string, Turn>, turns': map<string, Turn>, issued: Option<string>) {
    && (forall t :: t in turns && turns[t].status == Complete ==> t in turns' && turns'[t] == turns[t])
    && (forall t :: t in turns' ==>
          || turns'[t].lease.None?
          || turns'[t].lease == issued
          || (t in turns && turns'[t].lease == turns[t].lease))
  }

  ghost predicate Evolves(c: Conversation, c': Conversation, issued: Option<string>) {
    && c'.scopeKey == c.scopeKey
    && c.messages <= c'.messages
    && c.knowledgeBases.Keys <= c'.knowledgeBases.Keys
    && DurableStep(Project(c), Project(c'))
    && TurnsEvolve(c.turns, c'.turns, issued)
  }

  /** A conversation of the new state evolved from the same row or from a new stub. */
  ghost predicate EvolvesIn(db: Db, step: Step, now: real, id: string, c': Conversation) {
    || (id in db.conversations && Evolves(db.conversations[id], c', Issued(step)))
    || (step.DoBegin? && id == step.newId && Evolves(NewConversation(step.req.scopeKey, now), c', Issued(step)))
  }

  /** The token a step would put on a row, if any. */
  function Issued(step: Step): Option<string> {
    match step
    case DoBegin(_, token, _) => Some(token)
    case DoRecover(_, _, _, _, token) => Some(token)
    case _ => None
  }

  lemma EvolvesReflexive(c: Conversation, issued: Option<string>)
    ensures Evolves(c, c, issued)
  {}

  lemma RelaxedEvolves(c: Conversation, turns: map<string, Turn>, issued: Option<string>)
    requires Relaxed(c.turns, turns)
    requires forall t :: t in turns ==> turns[t] == c.turns[t] || turns[t] == FailTurnRow(c.turns[t]).(updatedAt := turns[t].updatedAt)
    ensures Evolves(c, c.(turns := turns), issued)
  {}

  lemma CleanedEvolves(lim: Limits, c: Conversation, now: real, issued: Option<string>)
    ensures var kept := CleanConversation(lim, c, now);
            kept.Some? ==> Evolves(c, kept.value, issued) && kept.value == c.(turns := kept.value.turns)
  {
    CleanedIsRelaxed(lim, c, now);
    var kept := CleanConversation(lim, c, now);
    if kept.Some? {
      RelaxedEvolves(c, kept.value.turns, issued);
    }
  }

  /** Changing one row that was not complete, or adding one. */
  lemma PutTurnEvolves(c: Conversation, turnId: string, row: Turn, issued: Option<string>)
    requires turnId in c.turns ==> c.turns[turnId].status != Complete
    requires row.lease.None? || row.lease == issued || (turnId in c.turns && row.lease == c.turns[turnId].lease)
    ensures Evolves(c, PutTurn(c, turnId, row), issued)
  {}

  lemma BeginEvolves(lim: Limits, c: Conversation, req: BeginRequest, pending: nat, now: real, token: string)
    ensures req.turnId in c.turns ==>
              var r := BeginExisting(lim, c, req.turnId, req.fingerprint, now, token);
              r.Ok? ==> Evolves(c, r.value.0, Some(token))
    ensures req.turnId !in c.turns ==>
              var r := BeginNew(lim, c, pending, req, now, token);
              r.Ok? ==> Evolves(c, r.value.0, Some(token))
  {
    hide Evolves, MessagesForTurn, SlotTaken;
    EvolvesReflexive(c, Some(token));
    if req.turnId in c.turns {
      var row := c.turns[req.turnId];
      if row.status != Complete {
        PutTurnEvolves(c, req.turnId,
                       row.(status := Generating, lease := Some(token), expires := Some(LeaseEnd(lim, now)),
                            updatedAt := now), Some(token));
      }
    } else {
      PutTurnEvolves(c, req.turnId,
                     Turn(req.parent, req.fingerprint, Generating, None, Some(token), Some(LeaseEnd(lim, now)), now),
                     Some(token));
    }
  }

  /** Storing back the same conversation, or one that evolved after association. */
  ghost predicate AssociatedThenEvolved(c: Conversation, c': Conversation, ids: seq<string>, issued: Option<string>) {
    || c' == c
    || Evolves(c.(knowledgeBases := Associate(c.knowledgeBases, ids)), c', issued)
  }

  /** Cleanup and association change no message, no summary and issue no lease. */
  lemma EvolvesAfterCleaning(c: Conversation, c1: Conversation, c2: Conversation, ids: seq<string>,
                             issued: Option<string>)
    requires Evolves(c, c1, issued) && c1 == c.(turns := c1.turns)
    requires AssociatedThenEvolved(c1, c2, ids, issued)
    ensures Evolves(c, c2, issued)
  {
    assert c1.knowledgeBases.Keys <= Associate(c1.knowledgeBases, ids).Keys;
    hide Associate;
  }

  lemma BeginInEvolves(lim: Limits, db: Db, id: string, req: BeginRequest, now: real, token: string, other: string)
    requires id in db.conversations && other in After(db, BeginIn(lim, db, id, req, now, token)).conversations
    ensures other in db.conversations
    ensures AssociatedThenEvolved(db.conversations[other],
                                  After(db, BeginIn(lim, db, id, req, now, token)).conversations[other],
                                  req.knowledgeBases, Some(token))
  {
    hide Evolves, BeginExisting, BeginNew, PendingRows, Associate;
    var c := db.conversations[id];
    var c1 := c.(knowledgeBases := Associate(c.knowledgeBases, req.knowledgeBases));
    BeginEvolves(lim, c1, req, |PendingRows(db.conversations)|, now, token);
    var tx := BeginIn(lim, db, id, req, now, token);
    if tx.Commit? {
      assert other != id ==> tx.db.conversations[other] == db.conversations[other];
      assert Evolves(c1, tx.db.conversations[id], Some(token));
    }
  }

  lemma CleanupEvolves(lim: Limits, db: Db, now: real, id: string, issued: Option<string>)
    requires id in Cleanup(lim, db, now).conversations
    ensures var c1 := Cleanup(lim, db, now).conversations[id];
      && id in db.conversations
      && Evolves(db.conversations[id], c1, issued)
      && c1 == db.conversations[id].(turns := c1.turns)
  {
    hide Evolves, CleanConversation;
    CleanedEvolves(lim, db.conversations[id], now, issued);
  }

  lemma OpenedConversation(db: Db, scopeKey: string, now: real, newId: string, id: string)
    requires OpenScope(db, scopeKey, now, newId).Commit?
    requires id in OpenScope(db, scopeKey, now, newId).db.conversations
    ensures var c := OpenScope(db, scopeKey, now, newId).db.conversations[id];
      || (id in db.conversations && c == db.conversations[id])
      || (id == newId && c == NewConversation(scopeKey, now))
  {}

  lemma BeginStepEvolves(lim: Limits, db: Db, req: BeginRequest, now: real, token: string, newId: string, id: string)
    requires id in After(db, Begin(lim, db, req, now, token, newId)).conversations
    ensures EvolvesIn(db, DoBegin(req, token, newId), now, id,
                      After(db, Begin(lim, db, req, now, token, newId)).conversations[id])
  {
    hide Evolves, Cleanup, BeginIn, Committed, AssociatedThenEvolved, OpenScope;
    var db1 := Cleanup(lim, db, now);
    var tx := Begin(lim, db, req, now, token, newId);
    if tx.Rollback? {
      EvolvesReflexive(db.conversations[id], Some(token));
    } else {
      var entry := OpenScope(db1, req.scopeKey, now, newId);
      BeginInEvolves(lim, entry.db, entry.value, req, now, token, id);
      OpenedConversation(db1, req.scopeKey, now, newId, id);
      var c1 := entry.db.conversations[id];
      if id in db1.conversations && c1 == db1.conversations[id] {
        CleanupEvolves(lim, db, now, id, Some(token));
        EvolvesAfterCleaning(db.conversations[id], c1, tx.db.conversations[id], req.knowledgeBases, Some(token));
      } else {
        EvolvesReflexive(c1, Some(token));
        EvolvesAfterCleaning(c1, c1, tx.db.conversations[id], req.knowledgeBases, Some(token));
      }
    }
  }

  lemma SaveEvolves(c: Conversation, req: CompleteRequest, now: real)
    requires req.turnId in c.turns && c.turns[req.turnId].status != Complete
    ensures Evolves(c, Save(c, req, now), None)
  {
    hide NextSequence, Utf8Bytes;
  }

  lemma CompleteStepEvolves(lim: Limits, db: Db, req: CompleteRequest, now: real, id: string)
    requires id in After(db, CompleteTurn(lim, db, req, now)).conversations
    ensures id in db.conversations
    ensures Evolves(db.conversations[id], After(db, CompleteTurn(lim, db, req, now)).conversations[id], None)
  {
    hide Evolves, OverQuota, Save, NextSequence, MessagesForTurn, Utf8Bytes;
    EvolvesReflexive(db.conversations[id], None);
    match FindTurn(db, req.scopeKey, req.turnId)
    case None =>
    case Some(found) =>
      if Row(db, found, req.turnId).status != Complete {
        SaveEvolves(db.conversations[found], req, now);
      }
  }

  lemma RowStepEvolves(lim: Limits, db: Db, step: Step, now: real, id: string)
    requires step.DoRecover? || step.DoMarkReady? || step.DoRenew? || step.DoFail?
    requires id in Apply(lim, db, step, now).conversations
    ensures id in db.conversations
    ensures Evolves(db.conversations[id], Apply(lim, db, step, now).conversations[id], Issued(step))
  {
    hide Evolves, MessagesForTurn;
    EvolvesReflexive(db.conversations[id], Issued(step));
    var db' := Apply(lim, db, step, now);
    match FindTurn(db, step.scopeKey, step.turnId)
    case None =>
    case Some(found) =>
      if db' != db {
        PutTurnEvolves(db.conversations[found], step.turnId, db'.conversations[found].turns[step.turnId], Issued(step));
      }
  }

  lemma MaintenanceStepEvolves(lim: Limits, db: Db, step: Step, now: real, id: string)
    requires step.DoReset? || step.DoUpdate? || step.DoSummary?
    requires id in Apply(lim, db, step, now).conversations
    ensures id in db.conversations
    ensures Evolves(db.conversations[id], Apply(lim, db, step, now).conversations[id], None)
  {
    hide HasLive;
    EvolvesReflexive(db.conversations[id], None);
    if step.DoReset? && step.id in db.conversations {
      var c := db.conversations[step.id];
      ResetIsRelaxed(c.turns, now);
      RelaxedEvolves(c, map t | t in c.turns :: ResetTurn(c.turns[t], now), None);
    }
  }

  /** No transaction does anything else to a conversation it leaves in place. */
  lemma StepEvolves(lim: Limits, db: Db, step: Step, now: real, id: string)
    requires id in Apply(lim, db, step, now).conversations
    ensures EvolvesIn(db, step, now, id, Apply(lim, db, step, now).conversations[id])
  {
    hide Evolves, Begin, CompleteTurn, Cleanup, UpdateSummary, ResetContinuity, UpdateConversation, Recover,
         MarkReady, Renew, Fail, UsersOf, CleanupPlan, CleanConversation;
    match step
    case DoBegin(req, token, newId) => BeginStepEvolves(lim, db, req, now, token, newId, id);
    case DoComplete(req) => CompleteStepEvolves(lim, db, req, now, id);
    case DoRecover(_, _, _, _, _) => RowStepEvolves(lim, db, step, now, id);
    case DoMarkReady(_, _, _, _) => RowStepEvolves(lim, db, step, now, id);
    case DoRenew(_, _, _) => RowStepEvolves(lim, db, step, now, id);
    case DoFail(_, _, _) => RowStepEvolves(lim, db, step, now, id);
    case DoReset(_) => MaintenanceStepEvolves(lim, db, step, now, id);
    case DoUpdate(_, _) => MaintenanceStepEvolves(lim, db, step, now, id);
    case DoSummary(_, _, _, _) => MaintenanceStepEvolves(lim, db, step, now, id);
    case DoCleanup => CleanupEvolves(lim, db, now, id, None);
    case DoDelete(_) => EvolvesReflexive(db.conversations[id], None);
    case DoDeleteWithCleanup(_) => EvolvesReflexive(db.conversations[id], None);
    case DoDeleteByKnowledgeBase(_) => EvolvesReflexive(db.conversations[id], None);
    case DoAcknowledge(_) => EvolvesReflexive(db.conversations[id], None);
  }

  // ----- Only update_summary touches the summary columns ---------------------------------

  predicate SameSummary(c: Conversation, c': Conversation) {
    c'.summary == c.summary && c'.summaryThrough == c.summaryThrough && c'.summaryVersion == c.summaryVersion
  }

  lemma BeginInKeepsColumns(lim: Limits, db: Db, id: string, req: BeginRequest, now: real, token: string, other: string)
    requires id in db.conversations && other in After(db, BeginIn(lim, db, id, req, now, token)).conversations
    ensures other in db.conversations
    ensures Project(After(db, BeginIn(lim, db, id, req, now, token)).conversations[other])
         == Project(db.conversations[other])
  {
    hide MessagesForTurn, SlotTaken, PendingRows, Associate;
  }

  lemma BeginKeepsColumns(lim: Limits, db: Db, req: BeginRequest, now: real, token: string, newId: string, id: string)
    requires id in After(db, Begin(lim, db, req, now, token, newId)).conversations
    ensures var c' := After(db, Begin(lim, db, req, now, token, newId)).conversations[id];
      || (id in db.conversations && Project(c') == Project(db.conversations[id]))
      || (id == newId && Project(c') == Project(NewConversation(req.scopeKey, now)))
  {
    hide Cleanup, BeginIn, Committed, OpenScope, Evolves;
    var db1 := Cleanup(lim, db, now);
    if Begin(lim, db, req, now, token, newId).Commit? {
      var entry := OpenScope(db1, req.scopeKey, now, newId);
      BeginInKeepsColumns(lim, entry.db, entry.value, req, now, token, id);
      OpenedConversation(db1, req.scopeKey, now, newId, id);
      if id in db1.conversations {
        CleanupEvolves(lim, db, now, id, None);
      }
    }
  }

  /** No other transaction changes the summary, its cursor or its version. */
  lemma OnlySummariesSwap(lim: Limits, db: Db, step: Step, now: real, id: string)
    requires !step.DoSummary? && id in Apply(lim, db, step, now).conversations
    ensures var c' := Apply(lim, db, step, now).conversations[id];
      || (id in db.conversations && SameSummary(db.conversations[id], c'))
      || (step.DoBegin? && id == step.newId && SameSummary(NewConversation(step.req.scopeKey, now), c'))
  {
    if step.DoBegin? {
      hide Begin;
      BeginKeepsColumns(lim, db, step.req, now, step.newToken, step.newId, id);
    } else if step.DoCleanup? {
      hide Cleanup, Evolves;
      CleanupEvolves(lim, db, now, id, None);
    } else if step.DoDelete? || step.DoDeleteWithCleanup? || step.DoDeleteByKnowledgeBase? || step.DoAcknowledge? {
      DeletionKeepsSummary(lim, db, step, now, id);
    } else {
      RowStepKeepsSummary(lim, db, step, now, id);
    }
  }

  lemma DeletionKeepsSummary(lim: Limits, db: Db, step: Step, now: real, id: string)
    requires step.DoDelete? || step.DoDeleteWithCleanup? || step.DoDeleteByKnowledgeBase? || step.DoAcknowledge?
    requires id in Apply(lim, db, step, now).conversations
    ensures id in db.conversations && SameSummary(db.conversations[id], Apply(lim, db, step, now).conversations[id])
  {
    hide UsersOf, CleanupPlan;
  }

  lemma RowStepKeepsSummary(lim: Limits, db: Db, step: Step, now: real, id: string)
    requires !step.DoSummary? && !step.DoBegin? && !step.DoCleanup?
    requires !step.DoDelete? && !step.DoDeleteWithCleanup? && !step.DoDeleteByKnowledgeBase? && !step.DoAcknowledge?
    requires id in Apply(lim, db, step, now).conversations
    ensures id in db.conversations && SameSummary(db.conversations[id], Apply(lim, db, step, now).conversations[id])
  {
    hide OverQuota, NextSequence, MessagesForTurn, Utf8Bytes, HasLive, ResetTurn, Select, FailTurnRow, Pair, TurnBytes,
         ContentFits, LeaseEnd;
  }
}
