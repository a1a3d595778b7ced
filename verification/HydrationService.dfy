/**
 Catching the warm copy up with the durable transcript while other workers
 commit, summarize, recover and delete between any two of this worker's calls.
 */
module HydrationService {
  import opened Wrappers
  import opened HistoryModel
  import opened HistorySpec
  import opened HistoryInvariant
  import opened HistoryEvolution
  import opened HistoryRuns
  import opened HistoryStore
  import opened Paging
  import opened WarmMemory
  import opened WarmStates
  import opened Hydration
  import opened Workers
  import OrderedDicts
  import WarmStore
  import S = SummarySystem

  const HYDRATION_LIMIT_MESSAGES := 200

  /** The exception path, a lost compare-and-swap, or the summary and recent turns. */
  datatype Compaction =
    | Unreadable
    | Contended
    | Compacted(summary: seq<int>, version: int, through: int, turns: seq<WarmTurn>)

  /** The result for the transcript `seen` by the last page, given the row read first. */
  ghost predicate CompactionOf(r: Compaction, c: Conversation, seen: seq<Message>, keep: nat)
    requires r.Compacted?
  {
    var f := Fold(Folding(c.summary, c.summaryThrough, [], None), RowsAfter(seen, Max(0, c.summaryThrough)), keep);
    && r.summary == f.summary
    && r.through == f.through
    && r.turns == f.recent
    && r.version == if f.through > c.summaryThrough then c.summaryVersion + 1 else c.summaryVersion
  }

  function DurableKnowledgeBases(c: Conversation): set<string> {
    set kb | kb in c.knowledgeBases && kb != ""
  }

  /** The copy is the compaction, given the row, of a transcript that continues the row's. */
  ghost predicate CompactedCopy(s: WarmState, c: Conversation, seen: seq<Message>, keep: nat) {
    && TranscriptOk(seen) && c.messages <= seen
    && CompactionOf(Compacted(s.summary, s.version, s.through, s.turns), c, seen, keep)
  }

  /**
   The warm copy represents everything the row counted, carries its knowledge
   bases, and holds the compaction of the transcript that was read.
   */
  ghost predicate CaughtUp(d: WarmStore.Store, keep: nat, warmId: string, c: Conversation) {
    && warmId in d.items
    && Covers(d.items[warmId], c.messageCount)
    && d.items[warmId].knowledgeBases == DurableKnowledgeBases(c)
    && exists seen :: CompactedCopy(d.items[warmId], c, seen, keep)
  }

  lemma KnownToAll(c: Conversation, kbs: set<string>)
    requires DurableKnowledgeBases(c) <= kbs
    ensures forall kb :: kb in c.knowledgeBases && kb != "" ==> kb in kbs
  {
    assert forall kb :: kb in c.knowledgeBases && kb != "" ==> kb in DurableKnowledgeBases(c);
  }

  // ----- The compaction result, for honest cursors ----------------------------------------

  /**
   For an even cursor the paged loop returns exactly the turns after its new
   cursor, at most `keep`, with everything between the two cursors folded.
   */
  lemma PagedCompactionIsSimple(r: Compaction, c: Conversation, seen: seq<Message>, keep: nat)
    requires r.Compacted? && CompactionOf(r, c, seen, keep)
    requires TranscriptOk(seen) && keep >= 1 && 0 <= c.summaryThrough <= |seen| && c.summaryThrough % 2 == 0
    ensures var through := CompactedThrough(|seen|, c.summaryThrough, keep);
      && r.through == through
      && r.summary == c.summary + S.Between(c.summaryThrough, through)
      && |seen| % 2 == 0 && through <= |seen| && through % 2 == 0
      && r.turns == TurnsAfter(seen, through)
      && |r.turns| == if (|seen| - c.summaryThrough) / 2 < keep then (|seen| - c.summaryThrough) / 2 else keep
  {
    hide Fold, TranscriptOk, S.Between, TurnsAfter, RowsAfter;
    EvenTranscript(seen);
    NumberedTranscript(seen);
    RowsAfterIsSuffix(seen, c.summaryThrough);
    FoldIsCompaction(seen, c.summary, c.summaryThrough, keep);
  }

  /** What the loop returns covers the transcript it has seen. */
  lemma CompactionCovers(r: Compaction, c: Conversation, seen: seq<Message>, keep: nat, s: WarmState)
    requires r.Compacted? && CompactionOf(r, c, seen, keep)
    requires TranscriptOk(seen) && keep >= 1 && c.summaryThrough >= 0 && c.summaryThrough % 2 == 0
    requires s.through == r.through && s.turns == r.turns
    ensures Covers(s, |seen|)
  {
    if c.summaryThrough <= |seen| {
      PagedCompactionIsSimple(r, c, seen, keep);
      CompactionIsContiguous(seen, r.through);
      S.ReachesCovers(s, |seen|);
    } else {
      RowsAfterIsSuffix(seen, c.summaryThrough);
    }
  }

  /** The compaction is the protocol's fold of an even number of messages, ending where the transcript ends. */
  lemma CompactionIsAFold(r: Compaction, c: Conversation, seen: seq<Message>, keep: nat)
    requires r.Compacted? && CompactionOf(r, c, seen, keep)
    requires TranscriptOk(seen) && keep >= 1 && 0 <= c.summaryThrough <= |seen| && c.summaryThrough % 2 == 0
    ensures var folded := (r.through - c.summaryThrough) / 2;
      && folded >= 0 && r.through == c.summaryThrough + 2 * folded
      && r.summary == c.summary + S.Between(c.summaryThrough, r.through)
      && S.Contiguous(r.through, r.turns)
      && r.through + 2 * |r.turns| == |seen|
  {
    hide CompactionOf, TranscriptOk, S.Between, S.Contiguous;
    PagedCompactionIsSimple(r, c, seen, keep);
    CompactionIsContiguous(seen, r.through);
  }

  /**
   A caught-up copy, spelled out for an honest row: of some transcript that
   continues the row's, it keeps the newest `keep` turns after the row's cursor,
   or all of them if there are fewer, word for word, and its summary stands for
   the row's summary and every turn in between.  It carries every knowledge base
   associated with the row, selected or not.
   */
  lemma CaughtUpIsExact(d: WarmStore.Store, keep: nat, warmId: string, c: Conversation) returns (seen: seq<Message>)
    requires CaughtUp(d, keep, warmId, c) && keep >= 1
    requires EvenCursor(c) && c.summaryThrough <= |c.messages|
    ensures c.messages <= seen && |seen| % 2 == 0 && TranscriptOk(seen)
    ensures var s, after := d.items[warmId], (|seen| - c.summaryThrough) / 2;
      && |s.turns| == (if after < keep then after else keep)
      && s.through == |seen| - 2 * |s.turns| && s.through >= 0 && s.through % 2 == 0
      && s.turns == TurnsAfter(seen, s.through)
      && s.summary == c.summary + S.Between(c.summaryThrough, s.through)
      && s.version == (if s.through > c.summaryThrough then c.summaryVersion + 1 else c.summaryVersion)
      && (forall kb :: kb in s.knowledgeBases <==> kb in c.knowledgeBases && kb != "")
  {
    hide TranscriptOk, TurnsAfter, S.Between, Covers, Fold;
    seen :| CompactedCopy(d.items[warmId], c, seen, keep);
    var s := d.items[warmId];
    PagedCompactionIsSimple(Compacted(s.summary, s.version, s.through, s.turns), c, seen, keep);
  }

  // ----- One page ---------------------------------------------------------------------------

  method FoldPage(f: Folding, page: seq<Message>, keep: nat) returns (folded: Folding)
    ensures folded == Fold(f, page, keep)
  {
    var summary, through, recent, pendingUser := f.summary, f.through, f.recent, f.pendingUser;
    for i := 0 to |page|
      invariant Folding(summary, through, recent, pendingUser) == Fold(f, page[..i], keep)
    {
      assert page[..i + 1][..i] == page[..i];
      var message := page[i];
      if message.role == User {
        pendingUser := Some(message);
        continue;
      }
      if message.role != Assistant || pendingUser.None? {
        continue;
      }
      var turn := WarmTurn(pendingUser.value.content, message.content, Some(message.sequence));
      pendingUser := None;
      recent := recent + [turn];
      if |recent| > keep {
        var evicted := recent[0];
        recent := recent[1..];
        summary := FallbackSummary(SummaryJob(summary, [evicted], recent, 0));
        through := if evicted.sequence.Some? then evicted.sequence.value else 0;
      }
    }
    assert page[..|page|] == page;
    return Folding(summary, through, recent, pendingUser);
  }

  // ----- Progress of the page loop -----------------------------------------------------------

  /** The messages consumed so far are the transcript between the first cursor and the current one. */
  ghost predicate ReadSoFar(db: Db, id: string, c: Conversation, consumed: seq<Message>, after: int) {
    var from := Max(0, c.summaryThrough);
    && (if consumed == [] then after == c.summaryThrough else after == from + |consumed|)
    && (id in db.conversations ==>
          var messages := db.conversations[id].messages;
          && c.messages <= messages
          && (consumed != [] ==> after <= |messages| && messages[from..after] == consumed))
  }

  lemma TranscriptOf(lim: Limits, db: Db, id: string)
    requires DbOk(lim, db) && id in db.conversations
    ensures TranscriptOk(db.conversations[id].messages) && |db.conversations[id].messages| <= lim.maxMessages
  {
    hide IndexOk, QuotasOk, TurnsOk, MessageBytes, TranscriptOk;
  }

  lemma NumberedTranscript(messages: seq<Message>)
    requires TranscriptOk(messages)
    ensures Numbered(messages)
  {}

  /** The cursor of the next page always advances, and the last page completes the tail. */
  lemma NextPage(db: Db, id: string, c: Conversation, consumed: seq<Message>, after: int, limit: int)
    requires id in db.conversations && ReadSoFar(db, id, c, consumed, after)
    requires TranscriptOk(db.conversations[id].messages)
    ensures var messages := db.conversations[id].messages;
            var page := PageAfter(messages, after, limit);
      && (page.next.None? ==> consumed + page.messages == RowsAfter(messages, Max(0, c.summaryThrough)))
      && (page.next.Some? ==>
            && Max(0, after) < page.next.value <= |messages|
            && page.messages != []
            && ReadSoFar(db, id, c, consumed + page.messages, page.next.value))
  {
    hide TranscriptOk, RowsAfter, PageAfter;
    var messages, from, start := db.conversations[id].messages, Max(0, c.summaryThrough), Max(0, after);
    var n := ClampLimit(limit);
    NumberedTranscript(messages);
    PageFromZero(messages, after, limit);
    RowsAfterIsSuffix(messages, from);
    if start > |messages| {
      assert consumed == [];
      PageBeyond(messages, start, limit);
    } else {
      PageAfterIs(messages, start, limit);
      if consumed == [] {
        assert consumed + messages[start..] == messages[from..];
        if |messages| - start > n {
          assert consumed + messages[start..start + n] == messages[from..start + n];
        }
      } else {
        SlicesJoin(messages, from, start, |messages|);
        if |messages| - start > n {
          SlicesJoin(messages, from, start, start + n);
        }
      }
    }
  }

  lemma SlicesJoin(messages: seq<Message>, from: nat, mid: nat, to: nat)
    requires from <= mid <= to <= |messages|
    ensures messages[from..mid] + messages[mid..to] == messages[from..to]
    ensures messages[to..] == messages[to..|messages|] && messages[..|messages|] == messages
  {}

  lemma PageFromZero(messages: seq<Message>, after: int, limit: int)
    ensures PageAfter(messages, after, limit) == PageAfter(messages, Max(0, after), limit)
  {}

  lemma PageBeyond(messages: seq<Message>, after: nat, limit: int)
    requires Numbered(messages) && after > |messages|
    ensures PageAfter(messages, after, limit) == Page([], None)
  {
    RowsAfterIsSuffix(messages, after);
  }

  lemma StillRead(lim: Limits, ids: set<string>, db: Db, db': Db, id: string, c: Conversation, consumed: seq<Message>,
                  after: int)
    requires ReadSoFar(db, id, c, consumed, after) && Later(lim, ids, db, db') && id in ids
    ensures ReadSoFar(db', id, c, consumed, after)
  {
    hide Later;
    if id in db'.conversations {
      LaterGrows(lim, ids, db, db', id);
      var before, now := db.conversations[id].messages, db'.conversations[id].messages;
      if consumed != [] {
        assert now[Max(0, c.summaryThrough)..after] == before[Max(0, c.summaryThrough)..after];
      }
    }
  }

  lemma NothingFolded(f: Folding, keep: nat)
    ensures Fold(f, [], keep) == f
  {}

  // ----- Steps of one hydration ----------------------------------------------------------------

  lemma RowIsRead(db: Db, scopeKey: string)
    requires ScopeRow(db, scopeKey).Some?
    ensures var row := ScopeRow(db, scopeKey).value;
            row.0 in db.conversations && row.1 == db.conversations[row.0]
            && ReadSoFar(db, row.0, row.1, [], row.1.summaryThrough)
  {}

  lemma CountIsLength(lim: Limits, db: Db, id: string)
    requires DbOk(lim, db) && id in db.conversations
    ensures db.conversations[id].messageCount == |db.conversations[id].messages|
  {
    hide IndexOk, QuotasOk, TurnsOk, MessageBytes, TranscriptOk;
  }

  /** A snapshot that was installed is the most recently used entry, so no eviction removes it. */
  lemma InstalledIsKept(d: WarmStore.Store, warmId: string, snapshot: Snapshot, ttl: real, max: nat, now: real)
    requires OrderedDicts.Valid(d) && max >= 1
    ensures var live := WarmStore.Purged(d, ttl, now);
            var stored := WarmStore.Stored(live, warmId, FromDurable(snapshot, now), max);
            warmId in stored.items && stored.items[warmId] == FromDurable(snapshot, now)
  {
    OrderedDicts.MinusValid(d, WarmStore.Expired(d, ttl, now));
    WarmStore.StoredIsKept(WarmStore.Purged(d, ttl, now), warmId, FromDurable(snapshot, now), max);
  }

  lemma SnapshotCatchesUp(r: Compaction, c: Conversation, seen: seq<Message>, keep: nat, snapshot: Snapshot, now: real)
    requires r.Compacted? && CompactionOf(r, c, seen, keep) && TranscriptOk(seen) && c.messages <= seen && keep >= 1
    requires c.messageCount == |c.messages|
    requires snapshot == Snapshot(r.summary, r.through, r.turns, DurableKnowledgeBases(c), Some(r.version))
    requires EvenCursor(c)
    ensures var s := FromDurable(snapshot, now);
            Covers(s, c.messageCount) && s.knowledgeBases == DurableKnowledgeBases(c) && CompactedCopy(s, c, seen, keep)
  {
    hide TranscriptOk, CompactionOf;
    NewCursorIsEven(r, c, seen, keep);
    CompactionCovers(r, c, seen, keep, FromDurable(snapshot, now));
  }

  /** The compaction only ever moves an even cursor to another assistant sequence. */
  lemma NewCursorIsEven(r: Compaction, c: Conversation, seen: seq<Message>, keep: nat)
    requires r.Compacted? && CompactionOf(r, c, seen, keep) && TranscriptOk(seen) && keep >= 1 && EvenCursor(c)
    ensures r.through >= 0 && r.through % 2 == 0
  {
    hide TranscriptOk, CompactionOf;
    if c.summaryThrough <= |seen| {
      PagedCompactionIsSimple(r, c, seen, keep);
    } else {
      NothingBeyond(r, c, seen, keep);
    }
  }

  lemma NothingBeyond(r: Compaction, c: Conversation, seen: seq<Message>, keep: nat)
    requires r.Compacted? && CompactionOf(r, c, seen, keep) && TranscriptOk(seen)
    requires c.summaryThrough > |seen|
    ensures r.through == c.summaryThrough && r.turns == []
  {
    NumberedTranscript(seen);
    RowsAfterIsSuffix(seen, c.summaryThrough);
  }

  lemma SummaryIsLater(lim: Limits, ids: set<string>, start: Db, read: Db, before: Db, scopeKey: string,
                       summary: seq<int>, version: int, through: int, now: real)
    requires Later(lim, ids, start, read) && Later(lim, ids, read, before)
    requires through >= 0 && through % 2 == 0
    ensures var after := After(before, HistorySpec.UpdateSummary(before, scopeKey, summary, version, through, now));
            Later(lim, ids, before, after) && Later(lim, ids, start, after)
  {
    hide Later, UpdateSummary;
    LaterStep(lim, ids, before, DoSummary(scopeKey, summary, version, through), now);
    LaterTransitive(lim, ids, start, read, before);
    LaterTransitive(lim, ids, start, before,
                    After(before, HistorySpec.UpdateSummary(before, scopeKey, summary, version, through, now)));
  }

  lemma RefusedSummary(db: Db, scopeKey: string, summary: seq<int>, version: int, through: int, now: real)
    ensures var tx := HistorySpec.UpdateSummary(db, scopeKey, summary, version, through, now);
            tx.Commit? && (!tx.value ==> tx.db == db)
  {}

  // ----- Without other workers -----------------------------------------------------------------

  /** The highest sequence a row and its transcript represent. */
  function Reach(c: Conversation): int {
    Max(c.summaryThrough, c.messageCount)
  }

  /** A live copy that represents more than the row is never replaced. */
  predicate Ahead(live: WarmStore.Store, warmId: string, c: Conversation) {
    warmId in live.items && HighestSequence(live.items[warmId].turns, live.items[warmId].through) > Reach(c)
  }

  /** The row is still there and represents as much as before. */
  ghost predicate SameReach(db: Db, scopeKey: string, c: Conversation) {
    ScopeRow(db, scopeKey).Some? && Reach(ScopeRow(db, scopeKey).value.1) == Reach(c)
  }

  /** What one attempt does when nobody else is active, from `db` and `d` to `db'` and `d'`. */
  ghost predicate HydratesAlone(db: Db, d: WarmStore.Store, db': Db, d': WarmStore.Store, scopeKey: string,
                                warmId: string, replace: bool, ttl: real, now: real, r: Option<bool>)
  {
    var live := WarmStore.Purged(d, ttl, now);
    match ScopeRow(db, scopeKey)
    case None => r == Some(false) && db' == db && d' == d
    case Some(row) =>
      if warmId == "" then r == Some(false) && db' == db && d' == d
      else
        && r == Some(if replace then !Ahead(live, warmId, row.1) else warmId !in live.items)
        && SameReach(db', scopeKey, row.1)
        && (r == Some(false) ==> d' == live)
        && (replace ==> Ahead(WarmStore.Purged(d', ttl, now), warmId, row.1) == Ahead(live, warmId, row.1))
  }

  /** A rebuild succeeds exactly when there is a row and no live copy is ahead of it. */
  ghost predicate RehydratesAlone(db: Db, d: WarmStore.Store, db': Db, d': WarmStore.Store, scopeKey: string,
                                  warmId: string, ttl: real, now: real, r: bool, read: Db)
  {
    var live := WarmStore.Purged(d, ttl, now);
    match ScopeRow(db, scopeKey)
    case None => !r && db' == db && d' == d
    case Some(row) =>
      if warmId == "" then !r && db' == db && d' == d
      else
        && (r <==> !Ahead(live, warmId, row.1))
        && (r ==> read == db)
        && SameReach(db', scopeKey, row.1)
        && (!r ==> d' == live)
        && Ahead(WarmStore.Purged(d', ttl, now), warmId, row.1) == Ahead(live, warmId, row.1)
  }

  /** A live copy is current when it covers the row's count and knows every knowledge base of the row. */
  ghost predicate Current(live: WarmStore.Store, warmId: string, c: Conversation) {
    && warmId in live.items
    && Covers(live.items[warmId], c.messageCount)
    && (forall kb :: kb in c.knowledgeBases && kb != "" ==> kb in live.items[warmId].knowledgeBases)
  }

  /** A sync finds a current copy or rebuilds it, unless the copy is ahead of the row. */
  ghost predicate SyncsAlone(db: Db, d: WarmStore.Store, db': Db, d': WarmStore.Store, scopeKey: string, warmId: string,
                             ttl: real, now: real, r: bool, current: bool, checked: WarmStore.Store)
  {
    var live := WarmStore.Purged(d, ttl, now);
    match ScopeRow(db, scopeKey)
    case None => !r && !current && db' == db && d' == d
    case Some(row) =>
      if warmId == "" then !r && !current && db' == db && d' == d
      else
        && checked == live
        && (current <==> Current(live, warmId, row.1))
        && (r <==> !current && !Ahead(live, warmId, row.1))
        && (!r ==> d' == live)
        && (current ==> db' == db)
        && SameReach(db', scopeKey, row.1)
        && Ahead(WarmStore.Purged(d', ttl, now), warmId, row.1) == Ahead(live, warmId, row.1)
  }

  lemma RowIsEven(db: Db, scopeKey: string)
    requires CursorsEven(db) && ScopeRow(db, scopeKey).Some?
    ensures EvenCursor(ScopeRow(db, scopeKey).value.1)
  {}

  /** What the compaction of a whole transcript represents. */
  lemma CompactionReaches(r: Compaction, c: Conversation, keep: nat)
    requires r.Compacted? && CompactionOf(r, c, c.messages, keep) && TranscriptOk(c.messages) && keep >= 1
    requires EvenCursor(c) && c.messageCount == |c.messages|
    ensures HighestSequence(r.turns, r.through) == Reach(c)
    ensures r.through > c.summaryThrough ==> r.through <= c.messageCount
  {
    hide TranscriptOk, CompactionOf, S.Contiguous, S.Between;
    if c.summaryThrough <= |c.messages| {
      CompactionIsAFold(r, c, c.messages, keep);
      S.ContiguousHighest(r.through, r.turns);
    } else {
      NothingBeyond(r, c, c.messages, keep);
    }
  }

  /** A swap on the row's own version wins, and changes nothing but the summary columns. */
  lemma OwnRowSwaps(db: Db, scopeKey: string, summary: seq<int>, through: int, now: real)
    requires ScopeRow(db, scopeKey).Some? && through > ScopeRow(db, scopeKey).value.1.summaryThrough
    ensures var c := ScopeRow(db, scopeKey).value.1;
            var tx := HistorySpec.UpdateSummary(db, scopeKey, summary, c.summaryVersion, through, now);
      && tx.Commit? && tx.value && ScopeRow(tx.db, scopeKey).Some?
      && ScopeRow(tx.db, scopeKey).value.1.messageCount == c.messageCount
      && ScopeRow(tx.db, scopeKey).value.1.summaryThrough == through
  {}

  lemma RowOfRead(db: Db, scopeKey: string, id: string, c: Conversation)
    requires ScopeRow(db, scopeKey) == Some((id, c))
    ensures id in db.conversations && db.conversations[id] == c
  {}

  lemma {:induction false} NothingExpired(d: WarmStore.Store, ttl: real, now: real)
    ensures var live := WarmStore.Purged(d, ttl, now); WarmStore.Purged(live, ttl, now) == live
  {
    var live := WarmStore.Purged(d, ttl, now);
    assert WarmStore.Expired(live, ttl, now) == {};
    OrderedDicts.WithoutNone(live.order);
    assert live.items - {} == live.items;
  }

  /** Installing a snapshot that represents as much as the row leaves no copy ahead of it. */
  lemma InstalledIsNotAhead(d: WarmStore.Store, warmId: string, snapshot: Snapshot, ttl: real, max: nat, now: real,
                            c: Conversation)
    requires OrderedDicts.Valid(d) && HighestSequence(snapshot.turns, snapshot.through) == Reach(c)
    ensures var stored := WarmStore.Stored(WarmStore.Purged(d, ttl, now), warmId, FromDurable(snapshot, now), max);
            !Ahead(WarmStore.Purged(stored, ttl, now), warmId, c)
  {
    OrderedDicts.MinusValid(d, WarmStore.Expired(d, ttl, now));
    WarmStore.StoredCopy(WarmStore.Purged(d, ttl, now), warmId, FromDurable(snapshot, now), max);
    NegativeCursor(snapshot.turns, snapshot.through);
    hide WarmStore.Stored, HighestSequence, OrderedDicts.Valid;
  }

  // ----- The service ---------------------------------------------------------------------------

  class ConversationService {
    const history: ConversationHistoryStore
    const memory: WarmStore.ConversationMemoryStore
    /** No other worker is active. */
    const alone: bool

    ghost predicate Valid()
      reads history, memory
    {
      history.Valid() && CursorsEven(history.db) && OrderedDicts.Valid(memory.conversations) && memory.keep >= 1
    }

    constructor (history: ConversationHistoryStore, memory: WarmStore.ConversationMemoryStore, alone: bool)
      requires history.Valid() && CursorsEven(history.db)
      requires OrderedDicts.Valid(memory.conversations) && memory.keep >= 1
      ensures this.history == history && this.memory == memory && this.alone == alone && Valid()
    {
      this.history, this.memory, this.alone := history, memory, alone;
    }

    /** Other workers commit; `ids` are conversation ids that fresh ids never repeat. */
    method OthersCommit(ids: set<string>)
      requires Valid()
      modifies history`db
      ensures Valid() && Later(history.lim, ids, old(history.db), history.db)
      ensures alone ==> history.db == old(history.db)
    {
      hide DbOk, CursorsEven, Later;
      LaterReflexive(history.lim, ids, history.db);
      if !alone {
        Workers.OthersCommit(history, ids);
        LaterKeeps(history.lim, ids, old(history.db), history.db);
      }
    }

    /** Other workers use the memory store. */
    method OthersRemember()
      requires OrderedDicts.Valid(memory.conversations)
      modifies memory`conversations
      ensures OrderedDicts.Valid(memory.conversations)
      ensures LaterWarm(memory.ttl, memory.max, old(memory.conversations), memory.conversations)
      ensures alone ==> memory.conversations == old(memory.conversations)
    {
      hide LaterWarm, OrderedDicts.Valid;
      WarmReflexive(memory.ttl, memory.max, memory.conversations);
      if !alone {
        Workers.OthersRemember(memory);
      }
    }

    /** Streams the tail after the cursor page by page and folds all but the newest turns. */
    method StreamTail(id: string, c: Conversation, ids: set<string>) returns (r: Result<Folding, HistoryError>)
      requires Valid() && ReadSoFar(history.db, id, c, [], c.summaryThrough) && id in ids
      modifies history`db
      ensures Valid() && Later(history.lim, ids, old(history.db), history.db)
      ensures r.Ok? ==>
                && id in history.db.conversations
                && var seen := history.db.conversations[id].messages;
                && TranscriptOk(seen) && c.messages <= seen
                && r.value == Fold(Folding(c.summary, c.summaryThrough, [], None),
                                   RowsAfter(seen, Max(0, c.summaryThrough)), memory.keep)
      ensures alone ==> history.db == old(history.db) && (id in history.db.conversations ==> r.Ok?)
    {
      hide DbOk, CursorsEven, Later, Fold, TranscriptOk, PageAfter;
      var f := Folding(c.summary, c.summaryThrough, [], None);
      ghost var start, consumed := f, [];
      var after := c.summaryThrough;
      LaterReflexive(history.lim, ids, history.db);
      NothingFolded(f, memory.keep);
      while true
        invariant Valid() && Later(history.lim, ids, old(history.db), history.db)
        invariant ReadSoFar(history.db, id, c, consumed, after)
        invariant alone ==> history.db == old(history.db)
        invariant f == Fold(start, consumed, memory.keep)
        decreases history.lim.maxMessages - Max(0, after)
      {
        var page := history.ListMessagesAfterSequence(id, after, HYDRATION_LIMIT_MESSAGES);
        if page.Err? {
          return Err(ConversationNotFound);
        }
        TranscriptOf(history.lim, history.db, id);
        NextPage(history.db, id, c, consumed, after, HYDRATION_LIMIT_MESSAGES);
        f := FoldPage(f, page.value.messages, memory.keep);
        FoldJoins(start, consumed, page.value.messages, memory.keep);
        consumed := consumed + page.value.messages;
        if page.value.next.None? {
          return Ok(f);
        }
        assert page.value.next.value > after;
        after := page.value.next.value;
        ghost var before := history.db;
        OthersCommit(ids);
        LaterTransitive(history.lim, ids, old(history.db), before, history.db);
        StillRead(history.lim, ids, before, history.db, id, c, consumed, after);
      }
    }

    /**
     The streamed tail, with the new cursor persisted by compare-and-swap when
     it moved: `read` is the state of the last page, `before` the state the
     swap ran on.
     */
    method CompactedHydrationTail(scopeKey: string, id: string, c: Conversation, now: real, ids: set<string>)
      returns (r: Compaction, ghost read: Db, ghost before: Db)
      requires Valid() && ReadSoFar(history.db, id, c, [], c.summaryThrough) && id in ids && EvenCursor(c)
      modifies history`db
      ensures Valid() && Later(history.lim, ids, old(history.db), history.db)
      ensures Later(history.lim, ids, old(history.db), read)
      ensures r.Unreadable? ==> history.db == read
      ensures r.Compacted? ==>
                && id in read.conversations
                && var seen := read.conversations[id].messages;
                && TranscriptOk(seen) && c.messages <= seen && CompactionOf(r, c, seen, memory.keep)
                && if r.through <= c.summaryThrough then history.db == read
                   else
                     && Later(history.lim, ids, read, before)
                     && HistorySpec.UpdateSummary(before, scopeKey, r.summary, c.summaryVersion, r.through, now)
                          == Commit(history.db, true)
      ensures r.Contended? ==> Later(history.lim, ids, read, before) && history.db == before
      ensures alone ==> read == before == old(history.db)
      ensures alone && ScopeRow(old(history.db), scopeKey) == Some((id, c)) ==> r.Compacted?
    {
      hide DbOk, CursorsEven, Later, Fold, TranscriptOk, UpdateSummary, ReadSoFar, ScopeRow;
      if ScopeRow(history.db, scopeKey) == Some((id, c)) {
        RowOfRead(history.db, scopeKey, id, c);
      }
      var tail := StreamTail(id, c, ids);
      read, before := history.db, history.db;
      if tail.Err? {
        return Unreadable, read, before;
      }
      var f := tail.value;
      ghost var result := Compacted(f.summary, if f.through > c.summaryThrough then c.summaryVersion + 1 else c.summaryVersion,
                                    f.through, f.recent);
      NewCursorIsEven(result, c, read.conversations[id].messages, memory.keep);
      var version := c.summaryVersion;
      if f.through > c.summaryThrough {
        OthersCommit(ids);
        before := history.db;
        if alone && ScopeRow(history.db, scopeKey) == Some((id, c)) {
          OwnRowSwaps(history.db, scopeKey, f.summary, f.through, now);
        }
        var swapped := history.UpdateSummary(scopeKey, f.summary, version, f.through, now);
        SummaryIsLater(history.lim, ids, old(history.db), read, before, scopeKey, f.summary, version, f.through, now);
        LaterKeeps(history.lim, ids, before, history.db);
        if !swapped {
          RefusedSummary(before, scopeKey, f.summary, version, f.through, now);
          return Contended, read, before;
        }
        version := version + 1;
      }
      return Compacted(f.summary, version, f.through, f.recent), read, before;
    }

    /**
     None asks the caller to try again.  Whoever commits in between, a true
     answer leaves the warm copy covering the row read at the start and
     carrying its knowledge bases.  Alone, the answer is true exactly when there
     is a row and the copy may be installed.
     */
    method HydrateForPrompt(scopeKey: string, warmId: string, replace: bool, now: real, ids: set<string>)
      returns (r: Option<bool>)
      requires Valid()
      modifies history`db, memory`conversations
      ensures Valid() && Later(history.lim, ids, old(history.db), history.db)
      ensures LaterWarm(memory.ttl, memory.max, old(memory.conversations), memory.conversations)
      ensures r == Some(true) && memory.max >= 1 ==>
                && ScopeRow(old(history.db), scopeKey).Some?
                && CaughtUp(memory.conversations, memory.keep, warmId, ScopeRow(old(history.db), scopeKey).value.1)
      ensures alone ==> HydratesAlone(old(history.db), old(memory.conversations), history.db, memory.conversations,
                                      scopeKey, warmId, replace, memory.ttl, now, r)
    {
      hide DbOk, CursorsEven, Later, LaterWarm, TranscriptOk, CompactionOf, ReadSoFar, UpdateSummary, CaughtUp, Ahead,
           SameReach, WarmStore.Purged, OrderedDicts.Valid, ScopeRow;
      LaterReflexive(history.lim, ids, history.db);
      WarmReflexive(memory.ttl, memory.max, memory.conversations);
      if warmId == "" {
        return Some(false);
      }
      var row := history.GetByScopeKey(scopeKey);
      if row.None? {
        return Some(false);
      }
      var id, c := row.value.0, row.value.1;
      RowIsRead(history.db, scopeKey);
      RowIsEven(history.db, scopeKey);
      CountIsLength(history.lim, history.db, id);
      OthersCommit(ids + {id});
      ghost var mid := history.db;
      StillRead(history.lim, ids + {id}, old(history.db), mid, id, c, [], c.summaryThrough);
      var compacted, read, before := CompactedHydrationTail(scopeKey, id, c, now, ids + {id});
      LaterTransitive(history.lim, ids + {id}, old(history.db), mid, history.db);
      LaterNarrow(history.lim, ids + {id}, ids, old(history.db), history.db);
      if compacted.Unreadable? {
        return Some(false);
      }
      if compacted.Contended? {
        return None;
      }
      if alone {
        AloneReach(history.lim, scopeKey, id, c, compacted, memory.keep, now, read, history.db);
      }
      ghost var swapped := history.db;
      OthersCommit(ids);
      LaterTransitive(history.lim, ids, old(history.db), swapped, history.db);
      r := Install(warmId, c, compacted, replace, now, read.conversations[id].messages);
    }

    /** Alone, the compaction represents exactly what the row does, before and after the swap. */
    static lemma AloneReach(lim: Limits, scopeKey: string, id: string, c: Conversation, r: Compaction, keep: nat, now: real,
                            read: Db, db: Db)
      requires DbOk(lim, read) && ScopeRow(read, scopeKey) == Some((id, c)) && EvenCursor(c) && keep >= 1
      requires r.Compacted? && CompactionOf(r, c, c.messages, keep)
      requires if r.through <= c.summaryThrough then db == read
               else
                 HistorySpec.UpdateSummary(read, scopeKey, r.summary, c.summaryVersion, r.through, now) == Commit(db, true)
      ensures HighestSequence(r.turns, r.through) == Reach(c) && SameReach(db, scopeKey, c)
    {
      hide DbOk, CompactionOf, UpdateSummary, TranscriptOk, HighestSequence, ScopeRow;
      RowOfRead(read, scopeKey, id, c);
      CountIsLength(lim, read, id);
      TranscriptOf(lim, read, id);
      CompactionReaches(r, c, keep);
      if r.through > c.summaryThrough {
        OwnRowSwaps(read, scopeKey, r.summary, r.through, now);
      }
    }

    /** The last step of a hydration, on whatever the memory store holds by then. */
    method Install(warmId: string, c: Conversation, compacted: Compaction, replace: bool, now: real,
                   ghost seen: seq<Message>)
      returns (r: Option<bool>)
      requires OrderedDicts.Valid(memory.conversations) && memory.keep >= 1 && warmId != ""
      requires compacted.Compacted? && CompactionOf(compacted, c, seen, memory.keep)
      requires TranscriptOk(seen) && c.messages <= seen && c.messageCount == |c.messages| && EvenCursor(c)
      modifies memory`conversations
      ensures OrderedDicts.Valid(memory.conversations)
      ensures LaterWarm(memory.ttl, memory.max, old(memory.conversations), memory.conversations)
      ensures r == Some(true) && memory.max >= 1 ==> CaughtUp(memory.conversations, memory.keep, warmId, c)
      ensures alone && HighestSequence(compacted.turns, compacted.through) == Reach(c) ==>
        InstallsAlone(old(memory.conversations), memory.conversations, warmId, c, replace, now, r)
    {
      hide LaterWarm, TranscriptOk, Covers, CompactionOf, HighestSequence, WarmStore.Purged, WarmStore.Stored,
           OrderedDicts.Valid;
      OthersRemember();
      var snapshot := Snapshot(compacted.summary, compacted.through, compacted.turns, DurableKnowledgeBases(c),
                               Some(compacted.version));
      ghost var found := memory.conversations;
      var done;
      if replace {
        done := memory.ReplaceFromDurable(warmId, snapshot, now);
        WarmStep(memory.ttl, memory.max, old(memory.conversations), found, CallReplace(warmId, snapshot, now));
      } else {
        done := memory.HydrateIfAbsent(warmId, snapshot, now);
        WarmStep(memory.ttl, memory.max, old(memory.conversations), found, CallHydrate(warmId, snapshot, now));
      }
      if done && memory.max >= 1 {
        InstalledIsKept(found, warmId, snapshot, memory.ttl, memory.max, now);
        SnapshotCatchesUp(compacted, c, seen, memory.keep, snapshot, now);
      }
      if HighestSequence(compacted.turns, compacted.through) == Reach(c) {
        InstalledIsNotAhead(found, warmId, snapshot, memory.ttl, memory.max, now, c);
        NothingExpired(found, memory.ttl, now);
      }
      return Some(done);
    }

    ghost predicate InstallsAlone(d: WarmStore.Store, d': WarmStore.Store, warmId: string, c: Conversation, replace: bool,
                                  now: real, r: Option<bool>)
    {
      var live := WarmStore.Purged(d, memory.ttl, now);
      && r == Some(if replace then !Ahead(live, warmId, c) else warmId !in live.items)
      && (r == Some(false) ==> d' == live)
      && (replace ==> Ahead(WarmStore.Purged(d', memory.ttl, now), warmId, c) == Ahead(live, warmId, c))
    }

    /** Being ahead depends only on how much the row represents. */
    static lemma StillAhead(db: Db, scopeKey: string, c: Conversation, live: WarmStore.Store, warmId: string)
      requires SameReach(db, scopeKey, c)
      ensures Ahead(live, warmId, ScopeRow(db, scopeKey).value.1) == Ahead(live, warmId, c)
    {}

    /** Up to three attempts, each from a new read of the row; `read` is the state of the one that succeeded. */
    method RehydrateForPrompt(scopeKey: string, warmId: string, now: real, ids: set<string>)
      returns (r: bool, ghost read: Db)
      requires Valid()
      modifies history`db, memory`conversations
      ensures Valid() && Later(history.lim, ids, old(history.db), read) && Later(history.lim, ids, read, history.db)
      ensures Later(history.lim, ids, old(history.db), history.db)
      ensures LaterWarm(memory.ttl, memory.max, old(memory.conversations), memory.conversations)
      ensures r && memory.max >= 1 ==>
                && ScopeRow(read, scopeKey).Some?
                && CaughtUp(memory.conversations, memory.keep, warmId, ScopeRow(read, scopeKey).value.1)
      ensures alone ==> RehydratesAlone(old(history.db), old(memory.conversations), history.db, memory.conversations,
                                        scopeKey, warmId, memory.ttl, now, r, read)
    {
      hide DbOk, CursorsEven, Later, LaterWarm, CaughtUp, ScopeRow, OrderedDicts.Valid, Ahead, WarmStore.Purged, Reach;
      LaterReflexive(history.lim, ids, history.db);
      WarmReflexive(memory.ttl, memory.max, memory.conversations);
      NothingExpired(memory.conversations, memory.ttl, now);
      read := history.db;
      for attempt := 0 to 3
        invariant Valid() && Later(history.lim, ids, old(history.db), history.db)
        invariant Later(history.lim, ids, old(history.db), read) && Later(history.lim, ids, read, history.db)
        invariant LaterWarm(memory.ttl, memory.max, old(memory.conversations), memory.conversations)
        invariant alone && attempt == 0 ==>
          history.db == old(history.db) && memory.conversations == old(memory.conversations)
        invariant alone && attempt > 0 ==>
          RehydratesAlone(old(history.db), old(memory.conversations), history.db, memory.conversations, scopeKey, warmId,
                          memory.ttl, now, false, read)
      {
        read := history.db;
        ghost var before := memory.conversations;
        var hydrated := HydrateForPrompt(scopeKey, warmId, true, now, ids);
        LaterTransitive(history.lim, ids, old(history.db), read, history.db);
        WarmTransitive(memory.ttl, memory.max, old(memory.conversations), before, memory.conversations);
        if alone && attempt > 0 && ScopeRow(old(history.db), scopeKey).Some? {
          StillAhead(read, scopeKey, ScopeRow(old(history.db), scopeKey).value.1, before, warmId);
        }
        if hydrated == Some(true) {
          return true, read;
        }
      }
      return false, read;
    }

    /**
     A copy is left alone (`current`) only when at the check it covered the
     row's message count and afterwards still knew every knowledge base of the
     row; otherwise it is rebuilt from a row read as late as `read`.
     */
    method SyncForPrompt(scopeKey: string, warmId: string, now: real, ids: set<string>)
      returns (r: bool, ghost current: bool, ghost checked: WarmStore.Store, ghost read: Db)
      requires Valid()
      modifies history`db, memory`conversations
      ensures Valid() && Later(history.lim, ids, old(history.db), read) && Later(history.lim, ids, read, history.db)
      ensures Later(history.lim, ids, old(history.db), history.db)
      ensures LaterWarm(memory.ttl, memory.max, old(memory.conversations), checked)
      ensures LaterWarm(memory.ttl, memory.max, checked, memory.conversations)
      ensures current ==>
                && ScopeRow(old(history.db), scopeKey).Some?
                && var c := ScopeRow(old(history.db), scopeKey).value.1;
                && warmId in checked.items && Covers(checked.items[warmId], c.messageCount)
                && (forall kb :: kb in c.knowledgeBases && kb != "" ==>
                      warmId in memory.conversations.items
                      && kb in memory.conversations.items[warmId].knowledgeBases)
      ensures r && memory.max >= 1 ==>
                && ScopeRow(read, scopeKey).Some?
                && CaughtUp(memory.conversations, memory.keep, warmId, ScopeRow(read, scopeKey).value.1)
      ensures alone ==> SyncsAlone(old(history.db), old(memory.conversations), history.db, memory.conversations, scopeKey,
                                   warmId, memory.ttl, now, r, current, checked)
    {
      hide DbOk, CursorsEven, Later, LaterWarm, CaughtUp, Covers, OrderedDicts.Valid, WarmStore.Purged, Ahead, Reach;
      NothingExpired(memory.conversations, memory.ttl, now);
      LaterReflexive(history.lim, ids, history.db);
      WarmReflexive(memory.ttl, memory.max, memory.conversations);
      current, checked, read := false, memory.conversations, history.db;
      if warmId == "" {
        return false, current, checked, read;
      }
      var row := history.GetByScopeKey(scopeKey);
      if row.None? {
        return false, current, checked, read;
      }
      OthersRemember();
      ghost var m1 := memory.conversations;
      var covered := memory.DurableStateIsCurrent(warmId, row.value.1.messageCount, now);
      WarmStep(memory.ttl, memory.max, old(memory.conversations), m1, CallPurge(now));
      checked := memory.conversations;
      OthersRemember();
      ghost var m2 := memory.conversations;
      var kbs := memory.KnowledgeBaseIds(warmId, now);
      WarmStep(memory.ttl, memory.max, checked, m2, CallPurge(now));
      if covered && DurableKnowledgeBases(row.value.1) <= kbs {
        KnownToAll(row.value.1, kbs);
        return false, true, checked, read;
      }
      OthersCommit(ids);
      ghost var d1, m3 := history.db, memory.conversations;
      r, read := RehydrateForPrompt(scopeKey, warmId, now, ids);
      LaterTransitive(history.lim, ids, old(history.db), d1, read);
      LaterTransitive(history.lim, ids, old(history.db), d1, history.db);
      WarmTransitive(memory.ttl, memory.max, checked, m3, memory.conversations);
    }
  }
}
