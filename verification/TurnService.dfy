/**
 The life of one turn across the three stores: reserve it, stage its result,
 replay it, recover it when the staged result is lost, complete it, fail it.
 Other workers run between any two calls.
 */
module TurnService {
  import opened Wrappers
  import opened HistoryModel
  import opened HistorySpec
  import opened HistoryInvariant
  import opened HistoryRuns
  import opened HistoryRetention
  import opened HistoryOutcomes
  import opened HistoryStore
  import opened WarmMemory
  import opened WarmStates
  import opened Workers
  import opened HydrationService
  import OrderedDicts
  import WarmStore

  // ----- Pending results ----------------------------------------------------------------

  datatype Staged = Staged(token: string, digest: string, result: string)

  /** scope, turn and lease token */
  type PendingKey = (string, string, string)

  type Records = map<PendingKey, Staged>

  /** Every record is kept under its own token and carries the digest of its own payload. */
  ghost predicate RecordsOk(records: Records, digestOf: string -> string) {
    forall key :: key in records ==>
      && key.0 != "" && key.1 != "" && key.2 != ""
      && records[key].token == key.2 && records[key].digest == digestOf(records[key].result)
  }

  /** SHA-256 of the canonical payload: two payloads with one digest are the same. */
  ghost predicate Injective(digestOf: string -> string) {
    forall a, b :: digestOf(a) == digestOf(b) ==> a == b
  }

  function LookupRecord(records: Records, scopeKey: string, turnId: string, token: Option<string>): Option<Staged> {
    if token.Some? && (scopeKey, turnId, token.value) in records then Some(records[(scopeKey, turnId, token.value)])
    else None
  }

  function OtherScopes(records: Records, scopeKey: string): Records {
    map key | key in records && key.0 != scopeKey :: records[key]
  }

  /** What other workers do to the store: each record under its own token, with its payload's digest. */
  datatype StageCall =
    | StagePut(scopeKey: string, turnId: string, token: string, result: string)
    | StageDrop(scopeKey: string, turnId: string, token: string)

  function AfterStage(digestOf: string -> string, records: Records, call: StageCall): Records {
    match call
    case StagePut(scopeKey, turnId, token, result) =>
      if scopeKey == "" || turnId == "" || token == "" then records
      else records[(scopeKey, turnId, token) := Staged(token, digestOf(result), result)]
    case StageDrop(scopeKey, turnId, token) => records - {(scopeKey, turnId, token)}
  }

  function AfterStages(digestOf: string -> string, records: Records, calls: seq<StageCall>): Records {
    if calls == [] then records
    else AfterStage(digestOf, AfterStages(digestOf, records, calls[..|calls| - 1]), calls[|calls| - 1])
  }

  lemma {:induction false} StagesKeepRecords(digestOf: string -> string, records: Records, calls: seq<StageCall>)
    requires RecordsOk(records, digestOf)
    ensures RecordsOk(AfterStages(digestOf, records, calls), digestOf)
  {
    if calls != [] {
      StagesKeepRecords(digestOf, records, calls[..|calls| - 1]);
    }
  }

  /** The volatile store of results computed but not yet saved; its backend may refuse a put. */
  class PendingTurnStore {
    var records: Records

    constructor ()
      ensures records == map[]
    {
      records := map[];
    }

    method Put(scopeKey: string, turnId: string, staged: Staged, accepts: bool) returns (stored: bool)
      modifies this
      ensures stored <==> accepts && scopeKey != "" && turnId != "" && staged.token != ""
      ensures records == if stored then old(records)[(scopeKey, turnId, staged.token) := staged] else old(records)
    {
      stored := accepts && scopeKey != "" && turnId != "" && staged.token != "";
      if stored {
        records := records[(scopeKey, turnId, staged.token) := staged];
      }
    }

    /** The record under the token, or without one any record of the turn. */
    method Get(scopeKey: string, turnId: string, token: Option<string>) returns (staged: Option<Staged>)
      ensures staged.Some? ==>
                exists key :: key in records && key.0 == scopeKey && key.1 == turnId && records[key] == staged.value
      ensures token.Some? && token.value != "" ==>
                staged == if (scopeKey, turnId, token.value) in records
                          then Some(records[(scopeKey, turnId, token.value)]) else None
    {
      if token.Some? && token.value != "" {
        var key := (scopeKey, turnId, token.value);
        return if key in records then Some(records[key]) else None;
      }
      var candidates := set key | key in records && key.0 == scopeKey && key.1 == turnId;
      if candidates == {} {
        return None;
      }
      var key :| key in candidates;
      return Some(records[key]);
    }

    method DeleteIfLease(scopeKey: string, turnId: string, token: string)
      modifies this
      ensures records == old(records) - {(scopeKey, turnId, token)}
    {
      records := records - {(scopeKey, turnId, token)};
    }

    method ClearScope(scopeKey: string)
      modifies this
      ensures records == OtherScopes(old(records), scopeKey)
      ensures forall key :: key in records <==> key in old(records) && key.0 != scopeKey
      ensures forall key :: key in records ==> records[key] == old(records)[key]
    {
      records := OtherScopes(records, scopeKey);
    }
  }

  // ----- Replies --------------------------------------------------------------------------

  datatype BeginReply =
    | Granted(lease: string, expires: real)
    | StagedReply(readyLease: string, digest: string, result: string, readyExpires: Option<real>)
    | SavedReply(messages: seq<Message>)
    | Refused(error: HistoryError)
    | Raised(uncaught: HistoryError)
    | VolatileResultLost

  /** The errors a begin turns into a status; the others propagate. */
  predicate Reported(error: HistoryError) {
    error.TurnConflict? || error.TurnInProgress? || error.ContinuityBroken? || error.ConversationArchived?
    || error.QuotaExceeded?
  }

  /** The staged record is the one the row's token and digest name. */
  predicate Matches(found: Option<Staged>, lease: Option<string>, digest: Option<string>) {
    found.Some? && lease == Some(found.value.token) && digest == Some(found.value.digest)
  }

  // ----- Facts about single transactions -------------------------------------------------------

  /** A ready outcome carries the digest and the token of the row itself. */
  lemma ReadyIsTheRow(lim: Limits, db: Db, req: BeginRequest, now: real, token: string, newId: string)
    requires DbOk(lim, db)
    ensures match Begin(lim, db, req, now, token, newId)
            case Commit(db', ReadyTurn(digest, lease, expires)) =>
              && FindTurn(db', req.scopeKey, req.turnId).Some?
              && var row := Row(db', FindTurn(db', req.scopeKey, req.turnId).value, req.turnId);
              && row.status == Ready && row.fingerprint == req.fingerprint
              && row.digest == digest && row.lease == lease && digest.Some? && lease.Some?
            case _ => true
  {
    hide DbOk, ConversationOk, QuotasOk, Cleanup, PendingRows, Committed, MessagesForTurn, SlotTaken, Associate;
    CleanupKeeps(lim, db, now);
    BeginKeeps(lim, db, req, now, token, newId);
    IndexOf(lim, Cleanup(lim, db, now));
    var tx := Begin(lim, db, req, now, token, newId);
    if tx.Commit? && tx.value.ReadyTurn? {
      LeaseOfRow(lim, tx.db, tx.db.byScope[req.scopeKey], req.turnId);
      hide IndexOk;
    }
  }

  lemma LeaseOfRow(lim: Limits, db: Db, id: string, turnId: string)
    requires DbOk(lim, db)
    ensures id in db.conversations && turnId in db.conversations[id].turns ==>
              LeaseOk(db.conversations[id].turns[turnId])
  {
    hide IndexOk, QuotasOk, LayoutOk, ChainOk, SlotsOk, LeaseOk;
  }

  /** As long as retention keeps the row, a staged turn replays under its token and digest. */
  lemma StagedTurnReplays(lim: Limits, db: Db, id: string, req: BeginRequest, now: real, token: string, newId: string)
    requires DbOk(lim, db) && ValidRequest(req)
    requires FindTurn(db, req.scopeKey, req.turnId) == Some(id)
    requires Row(db, id, req.turnId).status == Ready && Row(db, id, req.turnId).fingerprint == req.fingerprint
    requires id in Cleanup(lim, db, now).conversations
    requires req.turnId in Cleanup(lim, db, now).conversations[id].turns
    ensures var row, tx := Row(db, id, req.turnId), Begin(lim, db, req, now, token, newId);
            tx.Commit? && tx.value == ReadyTurn(row.digest, row.lease, row.expires)
  {
    hide DbOk, Cleanup, PendingRows, Committed, MessagesForTurn, Associate, TotalBytes, Reserve, BeginNew, LinearParent;
    IndexOf(lim, db);
    CleanupKeeps(lim, db, now);
    IndexOf(lim, Cleanup(lim, db, now));
    LiveIsActive(lim, db, id, req.turnId);
    CleanedRow(lim, db, now, id, req.turnId);
  }

  lemma LiveIsActive(lim: Limits, db: Db, id: string, turnId: string)
    requires DbOk(lim, db) && id in db.conversations && turnId in db.conversations[id].turns
    requires Live(db.conversations[id].turns[turnId])
    ensures !db.conversations[id].archived
  {
    hide IndexOk, QuotasOk, LayoutOk, ChainOk, SlotsOk, LeaseOk;
  }

  /** Retention changes no row that is not an expired generating one. */
  lemma CleanedRow(lim: Limits, db: Db, now: real, id: string, turnId: string)
    requires id in Cleanup(lim, db, now).conversations && turnId in Cleanup(lim, db, now).conversations[id].turns
    ensures var c := Cleanup(lim, db, now).conversations[id];
      && id in db.conversations && turnId in db.conversations[id].turns
      && c.scopeKey == db.conversations[id].scopeKey && c.archived == db.conversations[id].archived
      && (db.conversations[id].turns[turnId].status != Generating ==> c.turns[turnId] == db.conversations[id].turns[turnId])
  {
    hide HasLive, StaleStub;
  }

  lemma ReadyInKeepsRows(lim: Limits, db: Db, target: string, req: BeginRequest, now: real, token: string, id: string)
    requires target in db.conversations
    ensures match BeginIn(lim, db, target, req, now, token)
            case Commit(db', ReadyTurn(_, _, _)) =>
              && req.turnId in db.conversations[target].turns
              && (id in db'.conversations ==>
                    id in db.conversations && db'.conversations[id].turns == db.conversations[id].turns)
            case _ => true
  {
    hide PendingRows, MessagesForTurn, SlotTaken, Associate;
  }

  /** A begin that finds its turn ready changes no row at all beyond its retention pass. */
  lemma ReadyBeginKeepsRows(lim: Limits, db: Db, req: BeginRequest, now: real, token: string, newId: string, id: string)
    ensures match Begin(lim, db, req, now, token, newId)
            case Commit(db', ReadyTurn(_, _, _)) =>
              id in db'.conversations ==>
                && id in Cleanup(lim, db, now).conversations
                && db'.conversations[id].turns == Cleanup(lim, db, now).conversations[id].turns
            case _ => true
  {
    hide Cleanup, BeginIn, Committed;
    var db1 := Cleanup(lim, db, now);
    if Begin(lim, db, req, now, token, newId).Commit? {
      var entry := OpenScope(db1, req.scopeKey, now, newId);
      ReadyInKeepsRows(lim, entry.db, entry.value, req, now, token, id);
    }
  }

  /** A committed mark leaves the row ready under the token, with the digest. */
  lemma MarkedRow(db: Db, scopeKey: string, turnId: string, token: string, digest: string, now: real)
    ensures match MarkReady(db, scopeKey, turnId, token, digest, now)
            case Commit(db', true) =>
              && FindTurn(db', scopeKey, turnId).Some?
              && var row := Row(db', FindTurn(db', scopeKey, turnId).value, turnId);
                 row.status == Ready && row.lease == Some(token) && row.digest == Some(digest)
            case _ => true
  {}

  /**
   A turn that was granted and staged under its token is replayed: the mark
   commits, and until the incomplete retention runs out a begin that finds the
   staged record answers with its token, its digest and its payload, and leaves
   the pending store as it is.  (Alone, `BeginTurn` runs on what retention
   leaves of the marked database.)
   */
  lemma StagedIsReplayed(lim: Limits, digestOf: string -> string, ids: set<string>, db: Db, first: BeginCall,
                         result: string, marked: real, again: BeginCall, was: Records, reply: BeginReply, left: Records,
                         lost: Db, db': Db)
    requires DbOk(lim, db) && first.token != ""
    requires var tx := Begin(lim, db, first.req, first.now, first.token, first.newId); tx.Commit? && tx.value.NewTurn?
    requires again.req == first.req && again.early == []
    requires lim.incompleteRetentionDays > 0 ==> !OlderThan(lim.incompleteRetentionDays, marked, again.now)
    requires (first.req.scopeKey, first.req.turnId, first.token) in was
    requires was[(first.req.scopeKey, first.req.turnId, first.token)] == Staged(first.token, digestOf(result), result)
    ensures var s, t, begun := first.req.scopeKey, first.req.turnId,
                               Begin(lim, db, first.req, first.now, first.token, first.newId).db;
            var mark := MarkReady(begun, s, t, first.token, digestOf(result), marked);
      && mark.Commit? && mark.value
      && (Answers(lim, digestOf, ids, again, reply, was, left, Cleanup(lim, mark.db, again.now), lost, db') ==>
            && reply == StagedReply(first.token, digestOf(result), result, Some(first.now + lim.leaseSeconds as real))
            && left == was)
  {
    hide DbOk, Begin, Cleanup, OlderThan, MarkReady;
    var s, t := first.req.scopeKey, first.req.turnId;
    var begun := Begin(lim, db, first.req, first.now, first.token, first.newId).db;
    MalformedBegin(lim, db, first.req, first.now, first.token, first.newId);
    GrantIsHeld(lim, db, first.req, first.now, first.token, first.newId);
    var id := begun.byScope[s];
    HolderActs(lim, begun, id, s, t, first.token, digestOf(result), marked);
    OwnedRowKeeps(lim, begun, s, t, first.token, digestOf(result), marked);
    var ready := MarkReady(begun, s, t, first.token, digestOf(result), marked).db;
    ReadySurvives(lim, ready, id, s, t, again.now);
    CleanupKeeps(lim, ready, again.now);
    ReadyIsReported(lim, Cleanup(lim, ready, again.now), id, again.req, again.now, again.token, again.newId);
  }

  /** The five refusals a client is told about become statuses; any other error of the reservation propagates. */
  lemma RefusalsAreReported(lim: Limits, digestOf: string -> string, ids: set<string>, call: BeginCall, reply: BeginReply,
                            was: Records, left: Records, before: Db, lost: Db, db: Db)
    requires Answers(lim, digestOf, ids, call, reply, was, left, before, lost, db)
    requires Begin(lim, before, call.req, call.now, call.token, call.newId).Rollback?
    ensures db == before && left == was
    ensures match Begin(lim, before, call.req, call.now, call.token, call.newId).error
            case TurnConflict => reply == Refused(TurnConflict)
            case TurnInProgress => reply == Refused(TurnInProgress)
            case ContinuityBroken(expected) => reply == Refused(ContinuityBroken(expected))
            case ConversationArchived => reply == Refused(ConversationArchived)
            case QuotaExceeded => reply == Refused(QuotaExceeded)
            case error => reply == Raised(error)
  {
    hide Begin, AnswersReady;
  }

  // ----- At most one recovery over a whole run -----------------------------------------------

  /** The i-th step of the run is a recovery from the observed lease, and it obtains a new one. */
  ghost predicate RecoversAt(lim: Limits, db: Db, events: seq<Event>, i: nat, scopeKey: string, turnId: string, seen: string)
    requires i < |events|
  {
    match events[i].step
    case DoRecover(s, t, fp, expected, token) =>
      && s == scopeKey && t == turnId && expected == Some(seen)
      && var tx := Recover(lim, Run(lim, db, events[..i]), s, t, fp, expected, events[i].now, token);
         tx.Commit? && tx.value.Recovered?
    case _ => false
  }

  /**
   Any number of begins that saw the same lost result may ask for recovery, in
   any interleaving with anything else: at most one of them is granted a lease.
   */
  lemma AtMostOneRecovers(lim: Limits, db: Db, events: seq<Event>, i: nat, j: nat, scopeKey: string, turnId: string,
                          seen: string)
    requires DbOk(lim, db) && NeverIssues(events, seen) && i < j < |events|
    ensures !(RecoversAt(lim, db, events, i, scopeKey, turnId, seen)
              && RecoversAt(lim, db, events, j, scopeKey, turnId, seen))
  {
    hide DbOk, Run, Recover, Apply;
    if RecoversAt(lim, db, events, i, scopeKey, turnId, seen) && events[j].step.DoRecover? {
      var first, second := events[i], events[j];
      var before := Run(lim, db, events[..i]);
      var between := events[i + 1..j];
      RunKeeps(lim, db, events[..i]);
      assert first in events && events[..j] == events[..i + 1] + between;
      assert events[..i + 1][..i] == events[..i];
      RunJoins(lim, db, events[..i + 1], between);
      RunUnfolds(lim, db, events[..i + 1]);
      ApplyRecover(lim, before, first.step, first.now);
      RecoveredAtMostOnce(lim, before, scopeKey, turnId, first.step.fingerprint, seen, first.now, first.step.newToken,
                          between, second.step.fingerprint, second.now, second.step.newToken);
    }
  }

  lemma RunUnfolds(lim: Limits, db: Db, events: seq<Event>)
    requires events != []
    ensures var last := events[|events| - 1];
            Run(lim, db, events) == Apply(lim, Run(lim, db, events[..|events| - 1]), last.step, last.now)
  {
    hide Apply;
  }

  lemma ApplyRecover(lim: Limits, db: Db, step: Step, now: real)
    requires step.DoRecover?
    ensures Apply(lim, db, step, now)
         == After(db, Recover(lim, db, step.scopeKey, step.turnId, step.fingerprint, step.expected, now, step.newToken))
  {
    hide Recover;
  }

  /**
   The arguments of one begin, with the clock and the fresh values it may use,
   and what the others stage before it reads the pending store and after.
   */
  datatype BeginCall = BeginCall(
    req: BeginRequest,
    recover: bool,
    now: real,
    token: string,
    newId: string,
    recoveryToken: string,
    early: seq<StageCall>,
    late: seq<StageCall>)

  /** Some record of the turn may be gone, and the one under the lease is. */
  ghost predicate Withdrawn(records: Records, left: Records, scopeKey: string, turnId: string, lease: Option<string>) {
    && (forall key :: key in left ==> key in records && left[key] == records[key])
    && (forall key :: key in records && (key.0 != scopeKey || key.1 != turnId) ==> key in left)
    && (lease.Some? && lease.value != "" ==> left == records - {(scopeKey, turnId, lease.value)})
  }

  /**
   How a ready row, read in state `begun`, is answered when the pending store
   was `was` at the call.  The record under the row's own token and digest is
   returned, and its payload is the only one with that digest.  Without such a
   record nothing is granted, unless recovery was asked for, and then only by a
   committed recovery on the state `lost`.
   */
  ghost predicate AnswersReady(lim: Limits, digestOf: string -> string, ids: set<string>, call: BeginCall,
                               digest: Option<string>, lease: Option<string>, expires: Option<real>,
                               reply: BeginReply, was: Records, left: Records, begun: Db, lost: Db, db: Db)
  {
    var scopeKey, turnId := call.req.scopeKey, call.req.turnId;
    var records := AfterStages(digestOf, was, call.early);
    var found := LookupRecord(records, scopeKey, turnId, lease);
    if Matches(found, lease, digest) then
      && reply == StagedReply(found.value.token, found.value.digest, found.value.result, expires)
      && (forall payload :: Some(digestOf(payload)) == digest <==> payload == reply.result)
      && left == records
      && Later(lim, ids, begun, db)
    else if !call.recover then
      reply == VolatileResultLost && Withdrawn(records, left, scopeKey, turnId, lease) && Later(lim, ids, begun, db)
    else
      && Later(lim, ids, begun, lost)
      && (lease.Some? && lease.value != "" ==>
            left == AfterStages(digestOf, records - {(scopeKey, turnId, lease.value)}, call.late))
      && var tx := Recover(lim, lost, scopeKey, turnId, call.req.fingerprint, lease, call.now, call.recoveryToken);
      && db == After(lost, tx)
      && match tx
         case Commit(_, Recovered(newLease, newExpires)) => reply == Granted(newLease, newExpires)
         case Commit(_, AlreadyComplete(messages)) => reply == SavedReply(messages)
         case Rollback(error) => reply == if error == TurnInProgress then Refused(error) else Raised(error)
  }

  /**
   What a begin answers and leaves in the database `db` and the pending store
   `left`.  The reservation runs on `before`; besides its own transactions only
   other workers change anything.
   */
  ghost predicate Answers(lim: Limits, digestOf: string -> string, ids: set<string>, call: BeginCall, reply: BeginReply,
                          was: Records, left: Records, before: Db, lost: Db, db: Db)
  {
    var tx := Begin(lim, before, call.req, call.now, call.token, call.newId);
    match tx
    case Rollback(error) =>
      db == before && left == was && reply == if Reported(error) then Refused(error) else Raised(error)
    case Commit(_, NewTurn(lease, expires)) => db == tx.db && left == was && reply == Granted(lease, expires)
    case Commit(_, CompleteTurnReplay(messages)) => db == tx.db && left == was && reply == SavedReply(messages)
    case Commit(_, ReadyTurn(digest, lease, expires)) =>
      AnswersReady(lim, digestOf, ids, call, digest, lease, expires, reply, was, left, tx.db, lost, db)
  }

  lemma BeginIsLater(lim: Limits, ids: set<string>, start: Db, before: Db, req: BeginRequest, now: real,
                     token: string, newId: string)
    requires Later(lim, ids, start, before) && newId !in ids
    ensures var after := After(before, Begin(lim, before, req, now, token, newId));
      && Later(lim, ids, start, after)
      && (DbOk(lim, before) ==> DbOk(lim, after)) && (CursorsEven(before) ==> CursorsEven(after))
  {
    hide Later, Begin, DbOk, CursorsEven;
    var after := After(before, Begin(lim, before, req, now, token, newId));
    LaterStep(lim, ids, before, DoBegin(req, token, newId), now);
    LaterKeeps(lim, ids, before, after);
    LaterTransitive(lim, ids, start, before, after);
  }

  lemma RecoverIsLater(lim: Limits, ids: set<string>, start: Db, before: Db, req: BeginRequest, lease: Option<string>,
                       now: real, token: string)
    requires Later(lim, ids, start, before)
    ensures var after := After(before, Recover(lim, before, req.scopeKey, req.turnId, req.fingerprint, lease, now, token));
      && Later(lim, ids, start, after)
      && (DbOk(lim, before) ==> DbOk(lim, after)) && (CursorsEven(before) ==> CursorsEven(after))
  {
    hide Later, Recover, DbOk, CursorsEven;
    var after := After(before, Recover(lim, before, req.scopeKey, req.turnId, req.fingerprint, lease, now, token));
    LaterStep(lim, ids, before, DoRecover(req.scopeKey, req.turnId, req.fingerprint, lease, token), now);
    LaterKeeps(lim, ids, before, after);
    LaterTransitive(lim, ids, start, before, after);
  }

  lemma MarkIsLater(lim: Limits, ids: set<string>, start: Db, before: Db, scopeKey: string, turnId: string,
                    token: string, digest: string, now: real)
    requires Later(lim, ids, start, before)
    ensures var after := After(before, MarkReady(before, scopeKey, turnId, token, digest, now));
      && Later(lim, ids, start, after)
      && (DbOk(lim, before) ==> DbOk(lim, after)) && (CursorsEven(before) ==> CursorsEven(after))
  {
    hide Later, MarkReady, DbOk, CursorsEven;
    var after := After(before, MarkReady(before, scopeKey, turnId, token, digest, now));
    LaterStep(lim, ids, before, DoMarkReady(scopeKey, turnId, token, digest), now);
    LaterKeeps(lim, ids, before, after);
    LaterTransitive(lim, ids, start, before, after);
  }

  lemma MarkRefused(db: Db, scopeKey: string, turnId: string, token: string, digest: string, now: real)
    ensures var tx := MarkReady(db, scopeKey, turnId, token, digest, now);
            tx.Commit? && (!tx.value ==> tx.db == db)
  {}

  lemma FailIsLater(lim: Limits, ids: set<string>, start: Db, before: Db, scopeKey: string, turnId: string,
                    token: string, now: real)
    requires Later(lim, ids, start, before)
    ensures var after := After(before, Fail(before, scopeKey, turnId, token, now));
      && Later(lim, ids, start, after)
      && (DbOk(lim, before) ==> DbOk(lim, after)) && (CursorsEven(before) ==> CursorsEven(after))
  {
    hide Later, Fail, DbOk, CursorsEven;
    var after := After(before, Fail(before, scopeKey, turnId, token, now));
    LaterStep(lim, ids, before, DoFail(scopeKey, turnId, token), now);
    LaterKeeps(lim, ids, before, after);
    LaterTransitive(lim, ids, start, before, after);
  }

  lemma CompleteIsLater(lim: Limits, ids: set<string>, before: Db, req: CompleteRequest, now: real)
    ensures var after := After(before, HistorySpec.CompleteTurn(lim, before, req, now));
      && Later(lim, ids, before, after)
      && (DbOk(lim, before) ==> DbOk(lim, after)) && (CursorsEven(before) ==> CursorsEven(after))
  {
    hide Later, HistorySpec.CompleteTurn, DbOk, CursorsEven;
    LaterStep(lim, ids, before, DoComplete(req), now);
    LaterKeeps(lim, ids, before, After(before, HistorySpec.CompleteTurn(lim, before, req, now)));
  }

  // ----- The service ------------------------------------------------------------------------

  class TurnLifecycle {
    const service: ConversationService
    const pending: PendingTurnStore
    /** compute_result_digest */
    const digestOf: string -> string

    ghost predicate Valid()
      reads service, service.history, service.memory, pending
    {
      service.Valid() && RecordsOk(pending.records, digestOf) && Injective(digestOf)
    }

    constructor (service: ConversationService, pending: PendingTurnStore, digestOf: string -> string)
      requires service.Valid() && RecordsOk(pending.records, digestOf) && Injective(digestOf)
      ensures this.service == service && this.pending == pending && this.digestOf == digestOf && Valid()
    {
      this.service, this.pending, this.digestOf := service, pending, digestOf;
    }

    /** Other workers stage and withdraw results, each under its own token and digest. */
    method OthersStage(calls: seq<StageCall>)
      requires RecordsOk(pending.records, digestOf)
      modifies pending
      ensures pending.records == AfterStages(digestOf, old(pending.records), calls)
      ensures RecordsOk(pending.records, digestOf)
    {
      StagesKeepRecords(digestOf, pending.records, calls);
      for i := 0 to |calls|
        invariant pending.records == AfterStages(digestOf, old(pending.records), calls[..i])
      {
        assert calls[..i + 1][..i] == calls[..i];
        pending.records := AfterStage(digestOf, pending.records, calls[i]);
      }
      assert calls[..|calls|] == calls;
    }

    method Others(ids: set<string>, calls: seq<StageCall>)
      requires Valid()
      modifies service.history`db, service.memory`conversations, pending
      ensures Valid() && Later(service.history.lim, ids, old(service.history.db), service.history.db)
      ensures LaterWarm(service.memory.ttl, service.memory.max, old(service.memory.conversations),
                        service.memory.conversations)
      ensures pending.records == AfterStages(digestOf, old(pending.records), calls)
      ensures service.alone ==> service.history.db == old(service.history.db)
                                && service.memory.conversations == old(service.memory.conversations)
    {
      hide DbOk, CursorsEven, Later, LaterWarm, OrderedDicts.Valid, AfterStages;
      service.OthersCommit(ids);
      service.OthersRemember();
      OthersStage(calls);
    }

    /** The retention pass and whatever the others commit before the reservation. */
    method BeforeBegin(now: real, ids: set<string>)
      requires Valid()
      modifies service.history`db, service.memory`conversations, pending
      ensures Valid() && Later(service.history.lim, ids, old(service.history.db), service.history.db)
      ensures LaterWarm(service.memory.ttl, service.memory.max, old(service.memory.conversations),
                        service.memory.conversations)
      ensures pending.records == old(pending.records)
      ensures service.alone ==> service.history.db == Cleanup(service.history.lim, old(service.history.db), now)
                                && service.memory.conversations == old(service.memory.conversations)
    {
      hide DbOk, CursorsEven, Later, LaterWarm, OrderedDicts.Valid, Cleanup, Injective;
      var lim := service.history.lim;
      service.history.CleanupExpired(now);
      LaterStep(lim, ids, old(service.history.db), DoCleanup, now);
      LaterKeeps(lim, ids, old(service.history.db), service.history.db);
      ghost var cleaned := service.history.db;
      Others(ids, []);
      LaterTransitive(lim, ids, old(service.history.db), cleaned, service.history.db);
    }

    /**
     The reservation runs on `before`, a later state than the one at the call.
     A ready row is answered from the pending store as it is then, by the record
     under the row's own token and digest, and its payload is the only one with
     that digest.  Without such a record nothing is granted, unless recovery was
     asked for, and then only by a committed recovery on `lost`.  Between its
     own transactions only other workers change anything; alone, the reservation
     runs on what retention leaves, and the warm copies are not touched.
     */
    method BeginTurn(call: BeginCall, ids: set<string>) returns (reply: BeginReply, ghost before: Db, ghost lost: Db)
      requires Valid() && call.newId !in ids
      modifies service.history`db, service.memory`conversations, pending
      ensures Valid() && Later(service.history.lim, ids, old(service.history.db), service.history.db)
      ensures Later(service.history.lim, ids, old(service.history.db), before)
      ensures Answers(service.history.lim, digestOf, ids, call, reply, old(pending.records), pending.records, before, lost,
                      service.history.db)
      ensures LaterWarm(service.memory.ttl, service.memory.max, old(service.memory.conversations),
                        service.memory.conversations)
      ensures service.alone ==> before == Cleanup(service.history.lim, old(service.history.db), call.now)
                                && service.memory.conversations == old(service.memory.conversations)
    {
      hide DbOk, CursorsEven, Later, LaterWarm, Begin, Recover, OrderedDicts.Valid, AnswersReady, RecordsOk, Injective,
           Cleanup;
      var history := service.history;
      ghost var lim, start := history.lim, history.db;
      BeforeBegin(call.now, ids);
      before, lost := history.db, history.db;
      var r := history.BeginTurn(call.req, call.now, call.token, call.newId);
      BeginIsLater(lim, ids, start, before, call.req, call.now, call.token, call.newId);
      if r.Err? {
        reply := if Reported(r.error) then Refused(r.error) else Raised(r.error);
        return;
      }
      match r.value {
        case NewTurn(lease, expires) => reply := Granted(lease, expires);
        case CompleteTurnReplay(messages) => reply := SavedReply(messages);
        case ReadyTurn(digest, lease, expires) =>
          ghost var begun, m1 := history.db, service.memory.conversations;
          reply, lost := AnswerReady(call, digest, lease, expires, ids);
          WarmTransitive(service.memory.ttl, service.memory.max, old(service.memory.conversations), m1,
                         service.memory.conversations);
          LaterTransitive(lim, ids, start, begun, history.db);
      }
    }

    /** What a begin does once its row turned out to be ready. */
    method AnswerReady(call: BeginCall, digest: Option<string>, lease: Option<string>, expires: Option<real>,
                       ids: set<string>)
      returns (reply: BeginReply, ghost lost: Db)
      requires Valid()
      modifies service.history`db, service.memory`conversations, pending
      ensures Valid() && Later(service.history.lim, ids, old(service.history.db), service.history.db)
      ensures AnswersReady(service.history.lim, digestOf, ids, call, digest, lease, expires, reply, old(pending.records),
                           pending.records, old(service.history.db), lost, service.history.db)
      ensures LaterWarm(service.memory.ttl, service.memory.max, old(service.memory.conversations),
                        service.memory.conversations)
      ensures service.alone ==> lost == old(service.history.db)
                                && service.memory.conversations == old(service.memory.conversations)
    {
      hide DbOk, CursorsEven, Later, LaterWarm, Recover, OrderedDicts.Valid, AfterStages;
      PayloadIsUnique(digest);
      var history, scopeKey, turnId := service.history, call.req.scopeKey, call.req.turnId;
      ghost var lim, start := history.lim, history.db;
      lost := history.db;
      Others(ids, call.early);
      var staged := ReadStaged(scopeKey, turnId, digest, lease);
      if Matches(staged, lease, digest) {
        reply := StagedReply(staged.value.token, staged.value.digest, staged.value.result, expires);
        return;
      }
      if !call.recover {
        reply := VolatileResultLost;
        return;
      }
      ghost var before, m1 := history.db, service.memory.conversations;
      Others(ids, call.late);
      WarmTransitive(service.memory.ttl, service.memory.max, old(service.memory.conversations), m1,
                     service.memory.conversations);
      LaterTransitive(lim, ids, start, before, history.db);
      lost := history.db;
      reply := RecoverLost(call, lease, ids, start);
    }

    /** A digest names one payload. */
    lemma PayloadIsUnique(digest: Option<string>)
      requires Injective(digestOf)
      ensures forall a, b :: Some(digestOf(a)) == digest && Some(digestOf(b)) == digest ==> a == b
    {}

    /** The record of the turn, withdrawn unless it is the one the row's token and digest name. */
    method ReadStaged(scopeKey: string, turnId: string, digest: Option<string>, lease: Option<string>)
      returns (staged: Option<Staged>)
      requires RecordsOk(pending.records, digestOf)
      modifies pending
      ensures var found := LookupRecord(old(pending.records), scopeKey, turnId, lease);
        && Matches(staged, lease, digest) == Matches(found, lease, digest)
        && (Matches(found, lease, digest) ==> staged == found && pending.records == old(pending.records))
        && (!Matches(found, lease, digest) ==> Withdrawn(old(pending.records), pending.records, scopeKey, turnId, lease))
      ensures RecordsOk(pending.records, digestOf)
    {
      ghost var was := pending.records;
      staged := pending.Get(scopeKey, turnId, lease);
      if !Matches(staged, lease, digest) {
        if staged.Some? {
          pending.DeleteIfLease(scopeKey, turnId, staged.value.token);
        } else {
          assert lease.Some? ==> was - {(scopeKey, turnId, lease.value)} == was;
        }
      }
    }

    /** The recovery of a lost result, by the lease the row carried when it was read. */
    method RecoverLost(call: BeginCall, lease: Option<string>, ids: set<string>, ghost start: Db)
      returns (reply: BeginReply)
      requires Valid() && Later(service.history.lim, ids, start, service.history.db)
      modifies service.history`db
      ensures Valid() && Later(service.history.lim, ids, start, service.history.db)
      ensures var tx := Recover(service.history.lim, old(service.history.db), call.req.scopeKey, call.req.turnId,
                                call.req.fingerprint, lease, call.now, call.recoveryToken);
        && service.history.db == After(old(service.history.db), tx)
        && match tx
           case Commit(_, Recovered(newLease, newExpires)) => reply == Granted(newLease, newExpires)
           case Commit(_, AlreadyComplete(messages)) => reply == SavedReply(messages)
           case Rollback(error) => reply == if error == TurnInProgress then Refused(error) else Raised(error)
    {
      hide DbOk, CursorsEven, Later, Recover, OrderedDicts.Valid, RecordsOk, Injective;
      var history := service.history;
      RecoverIsLater(history.lim, ids, start, history.db, call.req, lease, call.now, call.recoveryToken);
      var recovered := history.RecoverReadyTurn(call.req.scopeKey, call.req.turnId, call.req.fingerprint, lease, call.now,
                                                call.recoveryToken);
      match recovered {
        case Err(error) => reply := if error == TurnInProgress then Refused(error) else Raised(error);
        case Ok(Recovered(newLease, newExpires)) => reply := Granted(newLease, newExpires);
        case Ok(AlreadyComplete(messages)) => reply := SavedReply(messages);
      }
    }

    /**
     Puts the record, then marks the row ready under the same token and digest.
     Staged means the mark committed; otherwise the database is as the others
     left it and the record is withdrawn, if it was accepted at all.
     */
    method StageResult(scopeKey: string, turnId: string, token: string, result: string, digest: string, now: real,
                       ids: set<string>, others: seq<StageCall>, accepts: bool)
      returns (staged: bool, ghost before: Db)
      requires Valid() && digest == digestOf(result)
      modifies service.history`db, service.memory`conversations, pending
      ensures Valid() && Later(service.history.lim, ids, old(service.history.db), before)
      ensures Later(service.history.lim, ids, old(service.history.db), service.history.db)
      ensures LaterWarm(service.memory.ttl, service.memory.max, old(service.memory.conversations),
                        service.memory.conversations)
      ensures if accepts && scopeKey != "" && turnId != "" && token != "" then
                MarkReady(before, scopeKey, turnId, token, digest, now) == Commit(service.history.db, staged)
              else !staged && before == old(service.history.db)
      ensures staged <==> accepts && scopeKey != "" && turnId != "" && token != ""
                          && Held(before, scopeKey, turnId, token)
      ensures staged ==>
        pending.records == AfterStages(digestOf, old(pending.records)[(scopeKey, turnId, token) :=
                                                                        Staged(token, digest, result)], others)
      ensures !staged ==> service.history.db == before
      ensures service.alone ==> before == old(service.history.db)
                                && service.memory.conversations == old(service.memory.conversations)
      ensures !staged ==> pending.records == old(pending.records) || (scopeKey, turnId, token) !in pending.records
    {
      hide DbOk, CursorsEven, Later, LaterWarm, MarkReady, OrderedDicts.Valid, AfterStages, Held;
      var history := service.history;
      ghost var lim, start := history.lim, history.db;
      before := history.db;
      LaterReflexive(lim, ids, start);
      WarmReflexive(service.memory.ttl, service.memory.max, service.memory.conversations);
      if scopeKey == "" || turnId == "" || token == "" {
        return false, before;
      }
      var stored := pending.Put(scopeKey, turnId, Staged(token, digest, result), accepts);
      if !stored {
        return false, before;
      }
      Others(ids, others);
      before := history.db;
      MarkedIffHeld(lim, before, scopeKey, turnId, token, digest, now);
      var marked := history.MarkTurnReady(scopeKey, turnId, token, digest, now);
      MarkIsLater(lim, ids, start, before, scopeKey, turnId, token, digest, now);
      if !marked {
        MarkRefused(before, scopeKey, turnId, token, digest, now);
        pending.DeleteIfLease(scopeKey, turnId, token);
        return false, before;
      }
      return true, before;
    }

    /**
     Saves on the database as it is at the call, withdraws the staged record,
     then appends the saved sequence to the memory store `warm` it finds, or
     rebuilds the warm copy on a replay.  Fresh ids never repeat one that was
     there at the call; `others` is what other workers stage before the record
     is withdrawn.
     */
    method CompleteTurn(req: CompleteRequest, warmId: string, warmKbs: set<string>, now: real, ids: set<string>,
                        others: seq<StageCall>)
      returns (r: Result<CompleteOutcome, HistoryError>, job: Option<SummaryJob>, ghost warm: WarmStore.Store,
               ghost rebuilt: bool, ghost read: Db)
      requires Valid()
      modifies service.history`db, service.memory`conversations, pending
      ensures Valid()
      ensures var tx := HistorySpec.CompleteTurn(service.history.lim, old(service.history.db), req, now);
              var saved := After(old(service.history.db), tx);
        && r == Outcome(tx)
        && Later(service.history.lim, ids + old(service.history.db).conversations.Keys, saved, service.history.db)
        && (r.Err? ==> service.history.db == old(service.history.db)
                       && service.memory.conversations == old(service.memory.conversations))
      ensures LaterWarm(service.memory.ttl, service.memory.max, old(service.memory.conversations), warm)
      ensures var m := service.memory;
        if r.Ok? && r.value.Saved? && warmId != "" then
          var t := WarmTurn(req.user, req.assistant, Some(r.value.assistantSequence));
          && m.conversations == WarmStore.AppendIn(warm, warmId, t, warmKbs, m.ttl, m.max, now)
          && job == WarmStore.AppendJob(warm, warmId, t, warmKbs, m.ttl, m.keep, m.oversize, now)
        else job == None && LaterWarm(m.ttl, m.max, warm, m.conversations)
      ensures pending.records ==
        if r.Ok? then AfterStages(digestOf, old(pending.records), others) - {(req.scopeKey, req.turnId, req.token)}
        else if r.error == TurnConflict then old(pending.records) - {(req.scopeKey, req.turnId, req.token)}
        else old(pending.records)
      ensures service.alone ==> warm == old(service.memory.conversations)
      ensures service.alone && r.Ok? && (r.value.Saved? || warmId == "") ==>
        service.history.db == After(old(service.history.db),
                                    HistorySpec.CompleteTurn(service.history.lim, old(service.history.db), req, now))
      ensures rebuilt && service.memory.max >= 1 ==>
                && ScopeRow(read, req.scopeKey).Some?
                && CaughtUp(service.memory.conversations, service.memory.keep, warmId, ScopeRow(read, req.scopeKey).value.1)
      ensures service.alone && r.Ok? && r.value.Replayed? && warmId != "" ==>
        RehydratesAlone(After(old(service.history.db),
                              HistorySpec.CompleteTurn(service.history.lim, old(service.history.db), req, now)),
                        old(service.memory.conversations), service.history.db, service.memory.conversations,
                        req.scopeKey, warmId, service.memory.ttl, now, rebuilt, read)
      ensures service.alone && warmId == "" ==> service.memory.conversations == old(service.memory.conversations)
    {
      hide DbOk, CursorsEven, Later, LaterWarm, HistorySpec.CompleteTurn, WarmStore.AppendIn, WarmStore.AppendJob,
           OrderedDicts.Valid, Injective, AfterStages, RehydratesAlone,
           CaughtUp;
      var memory, history := service.memory, service.history;
      ghost var lim, start := history.lim, history.db;
      job, warm, rebuilt, read := None, memory.conversations, false, history.db;
      WarmReflexive(memory.ttl, memory.max, warm);
      var kept := ids + history.db.conversations.Keys;
      r := history.CompleteTurn(req, now);
      CompleteIsLater(lim, kept, start, req, now);
      LaterReflexive(lim, kept, history.db);
      if r.Err? {
        if r.error == TurnConflict {
          pending.DeleteIfLease(req.scopeKey, req.turnId, req.token);
        }
        return;
      }
      ghost var saved := history.db;
      Others(kept, others);
      ghost var m1, d1 := memory.conversations, history.db;
      pending.DeleteIfLease(req.scopeKey, req.turnId, req.token);
      if warmId == "" {
        return;
      }
      if r.value.Replayed? {
        var again, row := service.RehydrateForPrompt(req.scopeKey, warmId, now, kept);
        rebuilt, read := again, row;
        LaterTransitive(lim, kept, saved, d1, history.db);
        WarmTransitive(memory.ttl, memory.max, warm, m1, memory.conversations);
        return;
      }
      service.OthersRemember();
      WarmTransitive(memory.ttl, memory.max, warm, m1, memory.conversations);
      warm := memory.conversations;
      job := memory.AppendTurn(warmId, WarmTurn(req.user, req.assistant, Some(r.value.assistantSequence)), warmKbs, now);
    }

    /**
     Withdraws the record, then fails the turn under its own token on the state
     `before`, which is later than the withdrawal; `others` is staged in between.
     */
    method FailTurn(scopeKey: string, turnId: string, token: string, now: real, ids: set<string>, others: seq<StageCall>)
      returns (failed: bool, ghost before: Db)
      requires Valid()
      modifies service.history`db, service.memory`conversations, pending
      ensures Valid() && Later(service.history.lim, ids, old(service.history.db), before)
      ensures Later(service.history.lim, ids, old(service.history.db), service.history.db)
      ensures if token == "" then !failed && service.history.db == old(service.history.db)
              else Fail(before, scopeKey, turnId, token, now) == Commit(service.history.db, failed)
      ensures pending.records == if token == "" then old(pending.records)
                                 else AfterStages(digestOf, old(pending.records) - {(scopeKey, turnId, token)}, others)
      ensures LaterWarm(service.memory.ttl, service.memory.max, old(service.memory.conversations),
                        service.memory.conversations)
      ensures service.alone ==> before == old(service.history.db)
                                && service.memory.conversations == old(service.memory.conversations)
    {
      hide DbOk, CursorsEven, Later, LaterWarm, Fail, OrderedDicts.Valid, AfterStages;
      WarmReflexive(service.memory.ttl, service.memory.max, service.memory.conversations);
      before := service.history.db;
      LaterReflexive(service.history.lim, ids, before);
      if token == "" {
        return false, before;
      }
      pending.DeleteIfLease(scopeKey, turnId, token);
      Others(ids, others);
      before := service.history.db;
      failed := service.history.FailTurn(scopeKey, turnId, token, now);
      FailIsLater(service.history.lim, ids, old(service.history.db), before, scopeKey, turnId, token, now);
    }
  }
}
