/**
 Retention: what a cleanup pass may remove, and how many passes it takes to
 settle.
 */
module HistoryRetention {
  import opened Wrappers
  import opened HistoryModel
  import opened HistorySpec
  import opened HistoryInvariant

  /** A live turn whose lease, if it is generating, has not run out. */
  predicate StillLive(t: Turn, now: real) {
    Live(t) && !LeaseExpired(t, now)
  }

  /**
   A generating turn with an unexpired lease survives with its conversation; a
   complete turn and the transcript change only if the whole conversation goes;
   and the conversation stays when it has messages and is archived or still
   holds a live turn.
   */
  lemma CleanupSpares(lim: Limits, c: Conversation, now: real, turnId: string)
    requires turnId in c.turns
    ensures var kept := CleanConversation(lim, c, now);
      && (c.turns[turnId].status == Generating && StillLive(c.turns[turnId], now) ==>
            kept.Some? && turnId in kept.value.turns && kept.value.turns[turnId] == c.turns[turnId])
      && (c.turns[turnId].status == Complete && kept.Some? ==>
            turnId in kept.value.turns && kept.value.turns[turnId] == c.turns[turnId])
      && (kept.Some? ==> kept.value == c.(turns := kept.value.turns))
      && (c.messageCount > 0 && (c.archived || StillLive(c.turns[turnId], now)) ==> kept.Some?)
  {
    var c1 := ExpireLeases(c, now);
    if StillLive(c.turns[turnId], now) {
      assert turnId in c1.turns && Live(c1.turns[turnId]);
    }
    if c.turns[turnId].status == Generating && StillLive(c.turns[turnId], now) {
      assert turnId in PruneTurns(c1, Cutoff(lim.incompleteRetentionDays, now)).turns;
    }
  }

  /** More than so many days, of 24 hours each, have passed since then. */
  predicate OlderThan(days: int, since: real, now: real) {
    now - since > days as real * 24.0 * 3600.0
  }

  predicate RunOut(t: Turn, now: real) {
    t.status == Generating && t.expires.Some? && t.expires.value < now
  }

  /** Active, with messages, older than the retention, and no turn is live once the leases are looked at. */
  predicate Outlived(lim: Limits, c: Conversation, now: real) {
    && lim.retentionDays > 0 && OlderThan(lim.retentionDays, c.updatedAt, now)
    && !c.archived && c.messageCount > 0
    && forall t :: t in c.turns && (c.turns[t].status == Generating || c.turns[t].status == Ready) ==>
         RunOut(c.turns[t], now)
  }

  /** Ready, failed or run out, and older than the incomplete retention. */
  predicate RowOutlived(lim: Limits, t: Turn, now: real) {
    && lim.incompleteRetentionDays > 0 && OlderThan(lim.incompleteRetentionDays, t.updatedAt, now)
    && (t.status == Ready || t.status == Failed || RunOut(t, now))
  }

  /** No messages, older than the incomplete retention, and so is every row. */
  predicate StubOutlived(lim: Limits, c: Conversation, now: real) {
    && lim.incompleteRetentionDays > 0 && OlderThan(lim.incompleteRetentionDays, c.updatedAt, now)
    && c.messageCount == 0
    && forall t :: t in c.turns ==> RowOutlived(lim, c.turns[t], now)
  }

  lemma OutlivedIff(lim: Limits, c: Conversation, now: real)
    ensures RetentionExpired(lim, ExpireLeases(c, now), now) <==> Outlived(lim, c, now)
  {
    var c1 := ExpireLeases(c, now);
    if t :| t in c.turns && Live(c.turns[t]) && !RunOut(c.turns[t], now) {
      assert t in c1.turns && Live(c1.turns[t]);
    }
  }

  lemma RowOutlivedIff(lim: Limits, c: Conversation, now: real)
    requires lim.incompleteRetentionDays > 0
    ensures var c1, cutoff := ExpireLeases(c, now), Cutoff(lim.incompleteRetentionDays, now);
      && c1.turns.Keys == c.turns.Keys
      && (forall t :: t in c.turns ==> (StaleTurn(c1.turns[t], cutoff) <==> RowOutlived(lim, c.turns[t], now)))
      && (PruneTurns(c1, cutoff).turns == map[] <==> forall t :: t in c.turns ==> RowOutlived(lim, c.turns[t], now))
  {
    var c1, cutoff := ExpireLeases(c, now), Cutoff(lim.incompleteRetentionDays, now);
    if PruneTurns(c1, cutoff).turns == map[] {
      forall t | t in c.turns
        ensures StaleTurn(c1.turns[t], cutoff)
      {
        assert t !in PruneTurns(c1, cutoff).turns;
      }
    }
  }

  /** What a pass does to one conversation, in days and seconds. */
  lemma ConversationRetention(lim: Limits, c: Conversation, now: real)
    ensures var kept := CleanConversation(lim, c, now);
      && (kept.None? <==> Outlived(lim, c, now) || StubOutlived(lim, c, now))
      && (kept.Some? ==>
            var turns := kept.value.turns;
            && kept.value == c.(turns := turns)
            && (forall t :: t in turns <==> t in c.turns && !RowOutlived(lim, c.turns[t], now))
            && (forall t :: t in turns ==>
                  turns[t] == if RunOut(c.turns[t], now)
                              then c.turns[t].(status := Failed, lease := None, expires := None) else c.turns[t]))
  {
    hide RetentionExpired, Outlived, RowOutlived, StaleTurn, Cutoff;
    OutlivedIff(lim, c, now);
    if lim.incompleteRetentionDays > 0 {
      RowOutlivedIff(lim, c, now);
      StubAge(lim, c, now);
    } else {
      NoRowOutlived(lim, c, now);
    }
  }

  lemma StubAge(lim: Limits, c: Conversation, now: real)
    ensures c.updatedAt < Cutoff(lim.incompleteRetentionDays, now)
            <==> OlderThan(lim.incompleteRetentionDays, c.updatedAt, now)
  {}

  lemma NoRowOutlived(lim: Limits, c: Conversation, now: real)
    requires lim.incompleteRetentionDays <= 0
    ensures forall t :: t in c.turns ==> !RowOutlived(lim, c.turns[t], now)
  {}

  /**
   The retention pass over the database.  A conversation goes when it is
   outlived, with or without messages; a row goes from one that stays when the
   row is; of the rows that stay, exactly those whose lease has run out become
   failed.  A scope goes with its conversation, and no artifact plan goes.
   */
  lemma RetentionIsExact(lim: Limits, db: Db, id: string, now: real)
    requires id in db.conversations
    ensures var c, kept := db.conversations[id], Cleanup(lim, db, now).conversations;
      && (id in kept <==> !Outlived(lim, c, now) && !StubOutlived(lim, c, now))
      && (id in kept ==>
            var turns := kept[id].turns;
            && kept[id] == c.(turns := turns)
            && (forall t :: t in turns <==> t in c.turns && !RowOutlived(lim, c.turns[t], now))
            && (forall t :: t in turns ==>
                  turns[t] == if RunOut(c.turns[t], now)
                              then c.turns[t].(status := Failed, lease := None, expires := None) else c.turns[t]))
  {
    hide CleanConversation, Outlived, RowOutlived, StubOutlived, RunOut;
    ConversationRetention(lim, db.conversations[id], now);
  }

  /** A pass removes no scope but those of the removed conversations, and no artifact plan. */
  lemma RetentionKeepsTheRest(lim: Limits, db: Db, now: real)
    ensures var kept := Cleanup(lim, db, now);
      && kept.conversations.Keys <= db.conversations.Keys
      && kept.outbox == db.outbox
      && (forall s :: s in kept.byScope <==>
            s in db.byScope && (db.byScope[s] in db.conversations ==> db.byScope[s] in kept.conversations))
      && (forall s :: s in kept.byScope ==> kept.byScope[s] == db.byScope[s])
  {
    hide CleanConversation;
  }

  /** An archived stub without messages is not protected: the stub rule ignores the status. */
  lemma ArchivedStubIsRemoved()
    ensures var lim := Limits(0, 0, 0, 0, 0, 0, 0, 0, 90, 900, 7);
            var stub := NewConversation("ws:default:c", 0.0).(archived := true);
            CleanConversation(lim, stub, 8.0 * SecondsPerDay) == None
  {
    var stub := NewConversation("ws:default:c", 0.0).(archived := true);
    var now := 8.0 * SecondsPerDay;
    assert PruneTurns(ExpireLeases(stub, now), Cutoff(7, now)).turns == map[];
  }

  /** An archived conversation is removed exactly when it is an idle stub whose turns are all stale. */
  lemma ArchivedIsRemovedIff(lim: Limits, c: Conversation, now: real)
    requires c.archived
    ensures var cutoff := Cutoff(lim.incompleteRetentionDays, now);
            CleanConversation(lim, c, now).None? <==>
              && lim.incompleteRetentionDays > 0
              && c.messageCount == 0
              && c.updatedAt < cutoff
              && forall t :: t in c.turns ==>
                   StaleTurn(if LeaseExpired(c.turns[t], now) then FailTurnRow(c.turns[t]) else c.turns[t], cutoff)
  {
    var cutoff := Cutoff(lim.incompleteRetentionDays, now);
    var c1 := ExpireLeases(c, now);
    var c2 := PruneTurns(c1, cutoff);
    if c2.turns == map[] {
      forall t | t in c.turns
        ensures StaleTurn(c1.turns[t], cutoff)
      {
        assert t !in c2.turns;
      }
    } else {
      var t :| t in c2.turns;
    }
  }

  /** After one pass no lease is expired and no incomplete row is stale. */
  ghost predicate Settled(lim: Limits, c: Conversation, now: real) {
    && (forall t :: t in c.turns ==> !LeaseExpired(c.turns[t], now))
    && (lim.incompleteRetentionDays > 0 ==>
          && (forall t :: t in c.turns ==> !StaleTurn(c.turns[t], Cutoff(lim.incompleteRetentionDays, now)))
          && !StaleStub(c, Cutoff(lim.incompleteRetentionDays, now)))
  }

  lemma OnePassSettles(lim: Limits, c: Conversation, now: real)
    ensures CleanConversation(lim, c, now).Some? ==> Settled(lim, CleanConversation(lim, c, now).value, now)
  {}

  /** On a settled conversation a pass either removes all of it or nothing. */
  lemma SettledPass(lim: Limits, c: Conversation, now: real)
    requires Settled(lim, c, now)
    ensures CleanConversation(lim, c, now) == if RetentionExpired(lim, c, now) then None else Some(c)
  {
    assert ExpireLeases(c, now).turns == c.turns;
    assert lim.incompleteRetentionDays > 0 ==>
        PruneTurns(c, Cutoff(lim.incompleteRetentionDays, now)).turns == c.turns;
  }

  /** A second pass finds no more rows to fail or prune, so a third changes nothing. */
  lemma TwoPassesConverge(lim: Limits, db: Db, now: real)
    ensures var twice := Cleanup(lim, Cleanup(lim, db, now), now);
            Cleanup(lim, twice, now) == twice
  {
    hide CleanConversation;
    var once := Cleanup(lim, db, now);
    var twice := Cleanup(lim, once, now);
    var thrice := Cleanup(lim, twice, now);
    forall id | id in twice.conversations
      ensures CleanConversation(lim, twice.conversations[id], now) == Some(twice.conversations[id])
    {
      OnePassSettles(lim, db.conversations[id], now);
      SettledPass(lim, once.conversations[id], now);
    }
    assert thrice.conversations == twice.conversations;
    assert Removed(lim, twice, now) == {};
    assert thrice.byScope == twice.byScope;
  }

  /**
   A conversation the first pass leaves for the second: old enough to go, but
   still holding live turns, all of them ready and stale.
   */
  predicate Shielded(lim: Limits, c: Conversation, now: real) {
    var live := ExpireLeases(c, now);
    && lim.retentionDays > 0 && lim.incompleteRetentionDays > 0
    && !c.archived && c.messageCount > 0 && c.updatedAt < Cutoff(lim.retentionDays, now)
    && HasLive(live)
    && forall t :: t in live.turns && Live(live.turns[t]) ==>
         StaleTurn(live.turns[t], Cutoff(lim.incompleteRetentionDays, now))
  }

  lemma ShieldedIff(lim: Limits, c: Conversation, now: real)
    ensures var kept := CleanConversation(lim, c, now);
            kept.Some? && RetentionExpired(lim, kept.value, now) <==> Shielded(lim, c, now)
  {
    var c1 := ExpireLeases(c, now);
    var c2 := PruneTurns(c1, Cutoff(lim.incompleteRetentionDays, now));
    assert forall t :: t in c2.turns ==> t in c1.turns && c2.turns[t] == c1.turns[t];
    if !HasLive(c2) {
      forall t | t in c1.turns && Live(c1.turns[t])
        ensures lim.incompleteRetentionDays > 0 ==> StaleTurn(c1.turns[t], Cutoff(lim.incompleteRetentionDays, now))
      {
        assert t !in c2.turns;
      }
    }
  }

  /** One pass is enough exactly when it finds no shielded conversation. */
  lemma OnePassIsEnoughIff(lim: Limits, db: Db, now: real)
    ensures Cleanup(lim, Cleanup(lim, db, now), now).conversations == Cleanup(lim, db, now).conversations
            <==> forall id :: id in db.conversations ==> !Shielded(lim, db.conversations[id], now)
  {
    var once := Cleanup(lim, db, now);
    var twice := Cleanup(lim, once, now);
    hide Shielded, RetentionExpired, CleanConversation;
    forall id | id in db.conversations
      ensures Shielded(lim, db.conversations[id], now) <==> id in once.conversations && id !in twice.conversations
      ensures id in once.conversations && id in twice.conversations ==>
                twice.conversations[id] == once.conversations[id]
    {
      ShieldedIff(lim, db.conversations[id], now);
      OnePassSettles(lim, db.conversations[id], now);
      if id in once.conversations {
        SettledPass(lim, once.conversations[id], now);
      }
    }
  }

  /** A saved conversation whose follow-up turn was staged but never completed. */
  const STALE_LIMITS := Limits(10, 10, 10, 10, 10, 10, 10, 10, 1, 900, 1)

  const StaleReady := Turn(Some("a"), "fp", Ready, Some("digest"), Some("token"), Some(900.0), 0.0)

  const StaleConversation := Conversation(
    "ws:default:c", false, [], 0, 0, 2, 2, Some("a"), 0.0,
    map["a" := Turn(None, "fp", Complete, None, None, None, 0.0), "b" := StaleReady],
    [Message("a", User, "q", 1, "[]", Metadata("{}", None), 1), Message("a", Assistant, "r", 2, "[]", Metadata("{}", None), 1)],
    map[])

  const StaleDb := Db(map["id" := StaleConversation], map["ws:default:c" := "id"], map[])

  lemma StaleConversationOk()
    ensures ConversationOk(STALE_LIMITS, StaleConversation)
  {
    hide LayoutOk, ChainOk;
    StaleLayoutOk();
    StaleChainOk();
    hide Chain;
  }

  lemma StaleLayoutOk()
    ensures LayoutOk(STALE_LIMITS, StaleConversation.messages, 2, 2)
  {
    var messages := StaleConversation.messages;
    assert messages[..1] == [messages[0]] && messages[..1][..0] == [];
    assert SameTurn(messages, 1);
  }

  lemma StaleChainOk()
    ensures ChainOk(Chain(StaleConversation.messages), StaleConversation.turns, Some("a"))
  {
    assert Chain(StaleConversation.messages) == ["a"];
    hide Chain;
    assert LinkedAt(["a"], StaleConversation.turns, 0);
  }

  lemma StaleQuotasOk()
    ensures QuotasOk(STALE_LIMITS, StaleDb)
  {
    hide TotalBytes;
    var empty: map<string, Conversation> := map[];
    TotalBytesPut(empty, "id", StaleConversation);
    assert empty["id" := StaleConversation] == StaleDb.conversations;
    NoBytes();
    assert Committed(StaleDb.conversations) <= {"id"};
    assert PendingRows(StaleDb.conversations) <= {("id", "b")};
    SubsetSize(Committed(StaleDb.conversations), {"id"});
    SubsetSize(PendingRows(StaleDb.conversations), {("id", "b")});
  }

  lemma NoBytes()
    ensures TotalBytes(map[]) == 0
  {}

  lemma StaleDbOk()
    ensures DbOk(STALE_LIMITS, StaleDb)
  {
    hide ConversationOk, QuotasOk;
    StaleConversationOk();
    StaleQuotasOk();
  }

  /**
   One pass may not be enough: a stale `ready` row shields its old conversation
   from the pass that prunes the row, and the next pass removes it.
   */
  lemma OnePassMayNotConverge()
    ensures var now := 2.0 * SecondsPerDay;
            var once := Cleanup(STALE_LIMITS, StaleDb, now);
      && DbOk(STALE_LIMITS, StaleDb)
      && "id" in once.conversations
      && "id" !in Cleanup(STALE_LIMITS, once, now).conversations
  {
    StaleDbOk();
    var lim, c, now := STALE_LIMITS, StaleConversation, 2.0 * SecondsPerDay;
    hide DbOk;
    assert "b" in ExpireLeases(c, now).turns && Live(ExpireLeases(c, now).turns["b"]);
    var once := Cleanup(lim, StaleDb, now);
    assert "id" in once.conversations;
    var c1 := once.conversations["id"];
    assert c1.turns.Keys == {"a"};
    assert !HasLive(ExpireLeases(c1, now));
  }

  /**
   Every begin cleans up with its own clock first, so the branch that takes an
   expired lease over in place is never reached from it: an expired row is
   already `failed`, and reopening it re-checks the parent and the slot.
   */
  lemma NoTakeoverInPlace(lim: Limits, db: Db, id: string, req: BeginRequest, now: real, token: string)
    requires id in Cleanup(lim, db, now).conversations
    requires req.turnId in Cleanup(lim, db, now).conversations[id].turns
    requires Cleanup(lim, db, now).conversations[id].turns[req.turnId].status == Generating
    ensures BeginIn(lim, Cleanup(lim, db, now), id, req, now, token).Rollback?
  {
    OnePassSettles(lim, db.conversations[id], now);
  }
}
