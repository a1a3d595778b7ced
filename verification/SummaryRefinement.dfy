/** The durable half of the summary protocol is what the history transactions do to one row. */
module SummaryRefinement {
  import opened Wrappers
  import opened HistoryModel
  import opened HistorySpec
  import opened HistoryInvariant
  import opened HistoryEvolution
  import S = SummarySystem

  /** update_summary on the row of a scope is the protocol's compare-and-swap, and touches no other row. */
  lemma UpdateSummaryIsSwap(db: Db, scopeKey: string, summary: seq<int>, expected: int, through: int, now: real)
    requires scopeKey in db.byScope && db.byScope[scopeKey] in db.conversations
    ensures var id := db.byScope[scopeKey];
            var tx := UpdateSummary(db, scopeKey, summary, expected, through, now);
            var db' := After(db, tx);
            var swapped := S.SwapSummary(Project(db.conversations[id]), summary, expected, through);
      && tx.Commit?
      && tx.value == swapped.Some?
      && Project(db'.conversations[id]) == (if swapped.Some? then swapped.value else Project(db.conversations[id]))
      && db'.conversations.Keys == db.conversations.Keys
      && (forall other :: other in db.conversations && other != id ==>
            db'.conversations[other] == db.conversations[other])
  {}

  lemma NextIsCount(lim: Limits, db: Db, id: string)
    requires DbOk(lim, db) && id in db.conversations
    ensures NextSequence(db.conversations[id].messages) == db.conversations[id].messageCount + 1
  {
    hide IndexOk, QuotasOk, TurnsOk, MessageBytes;
    NextSequenceOf(db.conversations[id].messages);
  }

  /**
   A completion that saves is the protocol's commit: the count grows by two and
   the assistant message's sequence is the new count.
   */
  lemma CompletionIsCommit(lim: Limits, db: Db, req: CompleteRequest, now: real, id: string)
    requires DbOk(lim, db) && FindTurn(db, req.scopeKey, req.turnId) == Some(id)
    ensures match CompleteTurn(lim, db, req, now)
            case Commit(db', Saved(_, assistantSequence, messageCount, _, _)) =>
              && id in db'.conversations
              && Commits(Project(db.conversations[id]), Project(db'.conversations[id]))
              && assistantSequence == messageCount == db'.conversations[id].messageCount
            case _ => true
  {
    hide OverQuota, MessagesForTurn, Utf8Bytes, DbOk, NextSequence, Pair, Select, TurnBytes, ContentFits;
    NextIsCount(lim, db, id);
    var c := db.conversations[id];
    var tx := CompleteTurn(lim, db, req, now);
    if tx.Commit? && tx.value.Saved? {
      assert tx.db == Put(db, id, Save(c, req, now));
      assert tx.value.assistantSequence == NextSequence(c.messages) + 1;
      hide CompleteTurn;
    }
  }

  /** Every other transaction that leaves the row in place leaves or grows its count, and keeps its summary. */
  lemma OthersCommitAtMost(lim: Limits, db: Db, step: Step, now: real, id: string)
    requires !step.DoSummary? && id in db.conversations && id in Apply(lim, db, step, now).conversations
    requires !(step.DoBegin? && step.newId == id)
    ensures var d, d' := Project(db.conversations[id]), Project(Apply(lim, db, step, now).conversations[id]);
            d' == d || Commits(d, d')
  {
    hide Apply, TurnsEvolve;
    StepEvolves(lim, db, step, now, id);
    OnlySummariesSwap(lim, db, step, now, id);
  }
}
