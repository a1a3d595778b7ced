/** A worker whose heartbeat is on time never loses its lease to retention or to a continuity reset. */
module LeaseLiveness {
  import opened Wrappers
  import opened HistoryModel
  import opened HistorySpec
  import opened HistoryInvariant
  import opened HistoryRuns

  // ----- The heartbeat interval -------------------------------------------------------

  function HeartbeatInterval(lease: real): real {
    var third := lease / 3.0;
    var capped := if third < 30.0 then third else 30.0;
    if capped < 0.25 then 0.25 else capped
  }

  /** A third of the lease, but at most half a minute and at least a quarter of a second. */
  lemma IntervalIsAThird(lease: real)
    ensures HeartbeatInterval(lease) <= lease / 3.0 <==> lease >= 0.75
    ensures 0.75 <= lease <= 90.0 ==> HeartbeatInterval(lease) * 3.0 == lease
    ensures lease >= 90.0 ==> HeartbeatInterval(lease) == 30.0
    ensures lease <= 0.75 ==> HeartbeatInterval(lease) == 0.25
  {}

  // ----- Ownership ----------------------------------------------------------------------

  /** The turn is generating under this token, last renewed at `since`. */
  predicate Owned(lim: Limits, db: Db, id: string, turnId: string, token: string, since: real) {
    && id in db.conversations && turnId in db.conversations[id].turns
    && var row := db.conversations[id].turns[turnId];
       row.status == Generating && row.lease == Some(token) && row.expires == Some(LeaseEnd(lim, since))
  }

  /** The owner stages, completes or fails its turn, which ends the generation. */
  predicate Finishes(step: Step, token: string) {
    match step
    case DoMarkReady(_, _, t, _) => t == token
    case DoComplete(req) => req.token == token
    case DoFail(_, _, t) => t == token
    case _ => false
  }

  predicate Renews(db: Db, step: Step, id: string, turnId: string, token: string) {
    step.DoRenew? && step.turnId == turnId && step.token == token && FindTurn(db, step.scopeKey, turnId) == Some(id)
  }

  lemma CleaningSparesLease(lim: Limits, c: Conversation, turnId: string, now: real, end: real)
    requires turnId in c.turns && c.turns[turnId].status == Generating && c.turns[turnId].expires == Some(end)
    requires now <= end
    ensures var kept := CleanConversation(lim, c, now);
            kept.Some? && turnId in kept.value.turns && kept.value.turns[turnId] == c.turns[turnId]
  {
    var c1 := ExpireLeases(c, now);
    assert c1.turns[turnId] == c.turns[turnId];
    assert HasLive(c1);
    if lim.incompleteRetentionDays > 0 {
      assert turnId in PruneTurns(c1, Cutoff(lim.incompleteRetentionDays, now)).turns;
    }
  }

  lemma CleanupSparesLease(lim: Limits, db: Db, id: string, turnId: string, token: string, since: real, now: real)
    requires Owned(lim, db, id, turnId, token, since) && now <= LeaseEnd(lim, since)
    ensures Owned(lim, Cleanup(lim, db, now), id, turnId, token, since)
  {
    CleaningSparesLease(lim, db.conversations[id], turnId, now, LeaseEnd(lim, since));
    hide CleanConversation;
  }

  /** Retention and continuity resets fail an owned turn exactly when they run after its lease ended. */
  lemma LeaseHoldsIff(lim: Limits, db: Db, id: string, turnId: string, token: string, since: real, now: real)
    requires Owned(lim, db, id, turnId, token, since)
    ensures Owned(lim, Cleanup(lim, db, now), id, turnId, token, since) <==> now <= LeaseEnd(lim, since)
    ensures Owned(lim, After(db, ResetContinuity(db, id, now)), id, turnId, token, since) <==> now <= LeaseEnd(lim, since)
  {
    if now <= LeaseEnd(lim, since) {
      CleanupSparesLease(lim, db, id, turnId, token, since, now);
    } else {
      CleaningTakesLease(lim, db.conversations[id], turnId, now);
    }
    hide CleanConversation, LeaseEnd;
  }

  lemma CleaningTakesLease(lim: Limits, c: Conversation, turnId: string, now: real)
    requires turnId in c.turns && LeaseExpired(c.turns[turnId], now)
    ensures var kept := CleanConversation(lim, c, now);
            kept.Some? && turnId in kept.value.turns ==> kept.value.turns[turnId].status == Failed
  {}

  /** A begin of the same turn is told to wait, and one of another turn leaves the row alone. */
  lemma BeginSparesLease(lim: Limits, db: Db, req: BeginRequest, now: real, newToken: string, newId: string,
                         id: string, turnId: string, token: string, since: real)
    requires Owned(lim, db, id, turnId, token, since) && now <= LeaseEnd(lim, since)
    ensures Owned(lim, After(db, Begin(lim, db, req, now, newToken, newId)), id, turnId, token, since)
  {
    hide Cleanup, Committed, BeginIn, OpenScope;
    CleanupSparesLease(lim, db, id, turnId, token, since, now);
    var db1 := Cleanup(lim, db, now);
    var entry := OpenScope(db1, req.scopeKey, now, newId);
    OpenSparesLease(lim, db1, req.scopeKey, now, newId, id);
    if entry.Commit? && entry.value in entry.db.conversations {
      BeginInSparesLease(lim, entry.db, entry.value, req, now, newToken, id, turnId, token, since);
    }
  }

  lemma OpenSparesLease(lim: Limits, db: Db, scopeKey: string, now: real, newId: string, id: string)
    requires id in db.conversations
    ensures match OpenScope(db, scopeKey, now, newId)
            case Commit(db', _) => id in db'.conversations && db'.conversations[id] == db.conversations[id]
            case _ => true
  {}

  lemma BeginInSparesLease(lim: Limits, db: Db, target: string, req: BeginRequest, now: real, newToken: string,
                           id: string, turnId: string, token: string, since: real)
    requires target in db.conversations
    requires Owned(lim, db, id, turnId, token, since) && now <= LeaseEnd(lim, since)
    ensures Owned(lim, After(db, BeginIn(lim, db, target, req, now, newToken)), id, turnId, token, since)
  {
    hide PendingRows, MessagesForTurn, SlotTaken, Associate;
  }

  lemma RowStepSparesLease(lim: Limits, db: Db, step: Step, now: real, id: string, turnId: string, token: string,
                           since: real)
    requires Owned(lim, db, id, turnId, token, since) && !Finishes(step, token)
    requires step.DoRecover? || step.DoMarkReady? || step.DoRenew? || step.DoFail? || step.DoComplete?
    ensures Owned(lim, Apply(lim, db, step, now), id, turnId, token,
                  if Renews(db, step, id, turnId, token) then now else since)
  {
    hide OverQuota, Select, NextSequence, Pair, MessagesForTurn, Utf8Bytes, LeaseEnd;
  }

  lemma MaintenanceSparesLease(lim: Limits, db: Db, step: Step, now: real, id: string, turnId: string, token: string,
                               since: real)
    requires Owned(lim, db, id, turnId, token, since) && now <= LeaseEnd(lim, since)
    requires step.DoReset? || step.DoUpdate? || step.DoSummary? || step.DoAcknowledge?
    ensures Owned(lim, Apply(lim, db, step, now), id, turnId, token, since)
  {
    hide HasLive, LeaseEnd;
  }

  lemma StepSparesLease(lim: Limits, db: Db, step: Step, now: real, id: string, turnId: string, token: string,
                        since: real)
    requires Owned(lim, db, id, turnId, token, since) && now <= LeaseEnd(lim, since)
    requires !Deletes(step) && !Finishes(step, token)
    ensures Owned(lim, Apply(lim, db, step, now), id, turnId, token,
                  if Renews(db, step, id, turnId, token) then now else since)
  {
    if step.DoRecover? || step.DoMarkReady? || step.DoRenew? || step.DoFail? || step.DoComplete? {
      RowStepSparesLease(lim, db, step, now, id, turnId, token, since);
    } else if step.DoReset? || step.DoUpdate? || step.DoSummary? || step.DoAcknowledge? {
      MaintenanceSparesLease(lim, db, step, now, id, turnId, token, since);
    } else if step.DoBegin? {
      BeginSparesLease(lim, db, step.req, now, step.newToken, step.newId, id, turnId, token, since);
    } else {
      CleanupSparesLease(lim, db, id, turnId, token, since, now);
    }
    hide Owned, Begin, Cleanup, Recover, MarkReady, Renew, Fail, CompleteTurn, ResetContinuity, UpdateConversation,
         UpdateSummary, LeaseEnd;
  }

  // ----- Runs with a punctual heartbeat ---------------------------------------------------

  function LastRenewal(events: seq<Event>, renewal: Step, since: real): real {
    if events == [] then since
    else if events[|events| - 1].step == renewal then events[|events| - 1].now
    else LastRenewal(events[..|events| - 1], renewal, since)
  }

  /** Whatever happens next happens before the last renewal plus one interval plus two thirds of the lease. */
  predicate OnTime(lim: Limits, events: seq<Event>, renewal: Step, since: real)
    decreases |events|
  {
    events == [] ||
    var before, lease := events[..|events| - 1], lim.leaseSeconds as real;
    && OnTime(lim, before, renewal, since)
    && events[|events| - 1].now <= LastRenewal(before, renewal, since) + HeartbeatInterval(lease) + 2.0 * lease / 3.0
  }

  /**
   Under any interleaving with other workers' transactions, cleanups and
   continuity resets at any time, a generating turn renewed on time keeps its
   lease until its own worker finishes it or its conversation is deleted.
   */
  lemma {:induction false} HeartbeatKeepsLease(lim: Limits, db: Db, events: seq<Event>, id: string, scopeKey: string,
                                               turnId: string, token: string, since: real)
    requires DbOk(lim, db) && lim.leaseSeconds >= 1 && NeverCreates(events, id)
    requires Owned(lim, db, id, turnId, token, since) && db.conversations[id].scopeKey == scopeKey
    requires forall e :: e in events ==> !Deletes(e.step) && !Finishes(e.step, token)
    requires OnTime(lim, events, DoRenew(scopeKey, turnId, token), since)
    ensures Owned(lim, Run(lim, db, events), id, turnId, token,
                  LastRenewal(events, DoRenew(scopeKey, turnId, token), since))
    decreases |events|
  {
    hide DbOk, Apply, Owned, Deletes, Finishes, HeartbeatInterval;
    if events != [] {
      var before, last := events[..|events| - 1], events[|events| - 1];
      var renewal := DoRenew(scopeKey, turnId, token);
      var db1, renewed := Run(lim, db, before), LastRenewal(before, renewal, since);
      assert last in events;
      HeartbeatKeepsLease(lim, db, before, id, scopeKey, turnId, token, since);
      RunKeeps(lim, db, before);
      IntervalIsAThird(lim.leaseSeconds as real);
      OwnedIsThere(lim, db1, id, turnId, token, renewed);
      ConversationGrows(lim, db, before, id);
      ScopeResolves(lim, db1, id, turnId, scopeKey);
      StepSparesLease(lim, db1, last.step, last.now, id, turnId, token, renewed);
      RenewalIsOurs(lim, db1, last.step, id, scopeKey, turnId, token);
    }
  }

  lemma OwnedIsThere(lim: Limits, db: Db, id: string, turnId: string, token: string, since: real)
    requires Owned(lim, db, id, turnId, token, since)
    ensures id in db.conversations && turnId in db.conversations[id].turns
  {}

  lemma ScopeResolves(lim: Limits, db: Db, id: string, turnId: string, scopeKey: string)
    requires DbOk(lim, db) && id in db.conversations && turnId in db.conversations[id].turns
    ensures FindTurn(db, scopeKey, turnId) == Some(id) <==> db.conversations[id].scopeKey == scopeKey
  {
    hide ConversationOk, QuotasOk;
  }

  lemma RenewalIsOurs(lim: Limits, db: Db, step: Step, id: string, scopeKey: string, turnId: string, token: string)
    requires DbOk(lim, db) && id in db.conversations && turnId in db.conversations[id].turns
    requires db.conversations[id].scopeKey == scopeKey
    ensures Renews(db, step, id, turnId, token) <==> step == DoRenew(scopeKey, turnId, token)
  {
    hide DbOk;
    if step.DoRenew? {
      ScopeResolves(lim, db, id, turnId, step.scopeKey);
    }
  }
}
