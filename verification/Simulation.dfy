/**
 Every run of a deployment is, for each of its conversations, a run of the
 summary protocol; so what is proved of the protocol holds of the database.
 */
module Simulation {
  import opened Wrappers
  import opened HistoryModel
  import opened HistorySpec
  import opened HistoryInvariant
  import opened HistoryEvolution
  import opened HistoryRuns
  import opened WarmMemory
  import opened WarmStates
  import opened Hydration
  import opened HydrationService
  import opened SummaryRefinement
  import opened SummaryBounds
  import opened SummaryPaths
  import opened Workers
  import opened Deployment
  import OrderedDicts
  import WarmStore
  import P = Paging
  import S = SummarySystem

  // ----- What every reachable site keeps --------------------------------------------------

  /**
   A worker that pages through a conversation has read its transcript from the
   cursor of the row on; unless it is late, the row is still that of its scope.
   */
  ghost predicate Placed(db: Db, o: Worker, late: bool) {
    && o.scope != ""
    && (o.task.Paging? ==>
          && ReadSoFar(db, o.task.id, o.task.c, o.task.consumed, o.task.after)
          && (!late && ScopeRow(db, o.scope).Some? ==> ScopeRow(db, o.scope).value.0 == o.task.id))
  }

  ghost predicate SiteOk(settings: Settings, site: Site) {
    && DbOk(settings.lim, site.db)
    && (forall p :: p in site.memories ==> OrderedDicts.Valid(site.memories[p]))
    && (forall w :: w in site.workers ==> Placed(site.db, site.workers[w], w in site.late))
    && (forall s :: ScopeRow(site.db, s).Some? ==> SystemBounded(View(site, s)))
  }

  predicate Moves(action: Action) {
    !action.Transact? && !action.Forget? && !action.Restart?
  }

  /**
   When a scope key is used again, workers of the earlier row take no further
   step, and no turn is appended to a live copy of the earlier row.
   */
  predicate Timely(settings: Settings, site: Site, action: Action)
    requires Allowed(site, action)
  {
    && (Moves(action) && !action.Crash? && action.w in site.workers ==> action.w !in site.late)
    && (action.AppendTurn? ==>
          var o := site.workers[action.w];
          o.scope in WarmStore.Purged(Memory(site, o.process), settings.ttl, action.now).items ==>
            (o.process, o.scope) !in site.stale)
  }

  /** The copy a turn is appended to covers everything before the turn. */
  predicate CoveredAction(settings: Settings, site: Site, action: Action)
    requires Allowed(site, action)
  {
    action.AppendTurn? ==>
      var o := site.workers[action.w];
      var live := WarmStore.Purged(Memory(site, o.process), settings.ttl, action.now);
      if o.scope in live.items then Covers(live.items[o.scope], o.task.sequence - 2) else o.task.sequence == 2
  }

  // ----- Bystanders ----------------------------------------------------------------------

  function Lost(a: S.System, p: nat, gone: bool): S.System {
    if gone then a.(warm := a.warm - {p}) else a
  }

  lemma LoseReaches(keep: nat, a: S.System, p: nat, gone: bool)
    ensures Reaches(keep, true, a, Lost(a, p, gone))
  {
    hide Reaches;
    if gone {
      ReachesStep(keep, true, a, S.LoseWarm(p));
    } else {
      ReachesReflexive(keep, true, a);
    }
  }

  /** Another conversation's action commits to this row at most, and loses this copy at most. */
  lemma BystanderReaches(keep: nat, a: S.System, b: S.System, p: nat, gone: bool)
    requires b.durable == a.durable || Commits(a.durable, b.durable)
    requires b == Lost(a, p, gone).(durable := b.durable)
    ensures Reaches(keep, true, a, b)
  {
    hide Reaches;
    LoseReaches(keep, a, p, gone);
    var lost := Lost(a, p, gone);
    if b.durable != a.durable {
      ReachesStep(keep, true, lost, S.CommitOnly);
      ReachesTransitive(keep, true, true, a, lost, b);
    }
  }

  // ----- The row ---------------------------------------------------------------------------

  lemma RowId(lim: Limits, db: Db, scope: string)
    requires DbOk(lim, db) && ScopeRow(db, scope).Some?
    ensures var row := ScopeRow(db, scope).value;
            row.0 in db.conversations && row.1 == db.conversations[row.0] && row.1.scopeKey == scope
  {
    hide ConversationOk, QuotasOk;
  }

  lemma RowOf(lim: Limits, db: Db, id: string)
    requires DbOk(lim, db) && id in db.conversations
    ensures ScopeRow(db, db.conversations[id].scopeKey) == Some((id, db.conversations[id]))
  {
    hide ConversationOk, QuotasOk;
  }

  /** A row that was there before is the same row; another one was just created. */
  lemma RowStays(lim: Limits, db: Db, e: Event, scope: string)
    requires DbOk(lim, db) && (e.step.DoBegin? ==> e.step.newId !in db.conversations)
    requires ScopeRow(Apply(lim, db, e.step, e.now), scope).Some?
    ensures var id := ScopeRow(Apply(lim, db, e.step, e.now), scope).value.0;
            if id in db.conversations then ScopeRow(db, scope) == Some((id, db.conversations[id]))
            else e.step.DoBegin? && id == e.step.newId && e.step.req.scopeKey == scope
  {
    hide DbOk, Apply, TurnsEvolve, DurableStep, ScopeRow;
    var db' := Apply(lim, db, e.step, e.now);
    ApplyKeeps(lim, db, e.step, e.now);
    RowId(lim, db', scope);
    var id := ScopeRow(db', scope).value.0;
    StepEvolves(lim, db, e.step, e.now, id);
    if id in db.conversations {
      RowOf(lim, db, id);
    }
  }

  /** Unless it writes this conversation's summary, a transaction commits to it at most. */
  lemma OtherColumns(lim: Limits, db: Db, e: Event, scope: string)
    requires DbOk(lim, db) && (e.step.DoBegin? ==> e.step.newId !in db.conversations)
    requires !(e.step.DoSummary? && e.step.scopeKey == scope)
    requires ScopeRow(db, scope).Some?
    requires var row := ScopeRow(Apply(lim, db, e.step, e.now), scope);
             row.Some? && row.value.0 == ScopeRow(db, scope).value.0
    ensures var d := Project(ScopeRow(db, scope).value.1);
            var d' := Project(ScopeRow(Apply(lim, db, e.step, e.now), scope).value.1);
            d' == d || Commits(d, d')
  {
    hide DbOk, Apply, ScopeRow;
    var db' := Apply(lim, db, e.step, e.now);
    ApplyKeeps(lim, db, e.step, e.now);
    RowId(lim, db, scope);
    RowId(lim, db', scope);
    var id := ScopeRow(db, scope).value.0;
    if e.step.DoSummary? {
      OtherSummary(lim, db, e, id);
    } else {
      OthersCommitAtMost(lim, db, e.step, e.now, id);
    }
  }

  lemma OtherSummary(lim: Limits, db: Db, e: Event, id: string)
    requires DbOk(lim, db) && e.step.DoSummary? && id in db.conversations
    requires e.step.scopeKey != db.conversations[id].scopeKey
    ensures var db' := Apply(lim, db, e.step, e.now);
            id in db'.conversations && db'.conversations[id] == db.conversations[id]
  {
    hide ConversationOk, QuotasOk;
  }

  // ----- The copies --------------------------------------------------------------------------

  lemma StoredIsValid(ttl: real, max: nat, d: WarmStore.Store, now: real, id: string, s: WarmState)
    requires OrderedDicts.Valid(d)
    ensures OrderedDicts.Valid(WarmStore.Purged(d, ttl, now))
    ensures OrderedDicts.Valid(WarmStore.Stored(WarmStore.Purged(d, ttl, now), id, s, max))
  {
    hide OrderedDicts.Valid, WarmStore.Stored, WarmStore.Expired;
    OrderedDicts.MinusValid(d, WarmStore.Expired(d, ttl, now));
    WarmStore.StoredIsKept(WarmStore.Purged(d, ttl, now), id, s, max);
  }

  lemma WrittenIsValid(d: WarmStore.Store, id: string, s: WarmState)
    requires OrderedDicts.Valid(d)
    ensures OrderedDicts.Valid(OrderedDicts.Touch(OrderedDicts.Set(d, id, s), id))
  {
    OrderedDicts.SetValid(d, id, s);
    OrderedDicts.TouchValid(OrderedDicts.Set(d, id, s), id);
  }

  lemma AfterCallValid(ttl: real, max: nat, d: WarmStore.Store, call: WarmCall)
    requires OrderedDicts.Valid(d)
    ensures OrderedDicts.Valid(AfterCall(ttl, max, d, call))
  {
    hide OrderedDicts.Valid, WarmStates.ApplySummary, Append, FromDurable, ReplaceRefused, WarmStore.Stored,
         WarmStore.Purged, OrderedDicts.Pop, OrderedDicts.Set, OrderedDicts.Touch;
    match call
    case CallClear(id) => OrderedDicts.PopValid(d, id);
    case CallPurge(now) => StoredIsValid(ttl, max, d, now, "", NewState(now));
    case CallAppend(id, t, kbs, now) =>
      var live := WarmStore.Purged(d, ttl, now);
      StoredIsValid(ttl, max, d, now, id, Append(WarmStore.StateOr(live, id, NewState(now)), t, kbs, now));
    case CallApply(id, job, summary, now) =>
      StoredIsValid(ttl, max, d, now, id, NewState(now));
      var live := WarmStore.Purged(d, ttl, now);
      if id in live.items && WarmStates.ApplySummary(live.items[id], job, summary, now).Some? {
        WrittenIsValid(live, id, WarmStates.ApplySummary(live.items[id], job, summary, now).value);
      }
    case CallReplace(id, snapshot, now) => StoredIsValid(ttl, max, d, now, id, FromDurable(snapshot, now));
    case CallHydrate(id, snapshot, now) => StoredIsValid(ttl, max, d, now, id, FromDurable(snapshot, now));
  }

  /** What is stored beside a purged store's entries is one of them, unless it is the new one. */
  lemma StoredLeavesOthers(ttl: real, max: nat, d: WarmStore.Store, now: real, id: string, s: WarmState, scope: string)
    requires OrderedDicts.Valid(d) && id != scope
    ensures var stored := WarmStore.Stored(WarmStore.Purged(d, ttl, now), id, s, max);
            scope in stored.items ==> scope in d.items && stored.items[scope] == d.items[scope]
  {
    OrderedDicts.MinusValid(d, WarmStore.Expired(d, ttl, now));
    WarmStore.StoredIsKept(WarmStore.Purged(d, ttl, now), id, s, max);
    hide WarmStore.Stored, OrderedDicts.Valid, WarmStore.Expired;
  }

  /** A call that is not about the conversation leaves its copy as it was, or drops it. */
  lemma OtherCopy(ttl: real, max: nat, d: WarmStore.Store, call: WarmCall, scope: string)
    requires OrderedDicts.Valid(d) && !About(call, scope)
    ensures var d' := AfterCall(ttl, max, d, call);
            scope in d'.items ==> scope in d.items && d'.items[scope] == d.items[scope]
  {
    hide OrderedDicts.Valid, WarmStates.ApplySummary, Append, FromDurable, ReplaceRefused, WarmStore.Stored,
         WarmStore.Expired;
    match call
    case CallClear(_) =>
    case CallPurge(_) =>
    case CallAppend(id, t, kbs, now) =>
      var live := WarmStore.Purged(d, ttl, now);
      StoredLeavesOthers(ttl, max, d, now, id, Append(WarmStore.StateOr(live, id, NewState(now)), t, kbs, now), scope);
    case CallApply(_, _, _, _) =>
    case CallReplace(id, snapshot, now) => StoredLeavesOthers(ttl, max, d, now, id, FromDurable(snapshot, now), scope);
    case CallHydrate(id, snapshot, now) => StoredLeavesOthers(ttl, max, d, now, id, FromDurable(snapshot, now), scope);
  }

  lemma MemoryValid(settings: Settings, site: Site, p: nat)
    requires SiteOk(settings, site)
    ensures OrderedDicts.Valid(Memory(site, p))
  {
    hide DbOk, Placed, SystemBounded;
  }

  // ----- Actions for other conversations ----------------------------------------------------

  /** The action moves a worker of the conversation, or makes one. */
  ghost predicate Own(settings: Settings, site: Site, action: Action, scope: string)
    requires Allowed(site, action)
  {
    match action
    case Transact(_, _) => false
    case Forget(_, _) => false
    case Restart(_) => false
    case Complete(_, _, req, _) => req.scopeKey == scope && TaskOf(settings, site, action).Some?
    case ReadRow(_, _, s) => s == scope
    case Crash(w) => w in site.workers && site.workers[w].scope == scope && w !in site.late
    case _ => site.workers[action.w].scope == scope
  }

  lemma OtherTasks(settings: Settings, site: Site, action: Action, scope: string)
    requires Allowed(site, action) && Timely(settings, site, action) && !Own(settings, site, action, scope)
    requires Created(settings, site, action) != Some(scope)
    ensures TasksOf(Act(settings, site, action), scope) == TasksOf(site, scope)
  {
    hide CompleteTurn, WarmStore.AppendJob, GuardTask, PageTask, ScopeRow, DbAfter, MemoriesAfter, StaleAfter,
         Abstract;
    if action.Crash? && action.w in site.late {
      TasksDrop(site.workers, site.late, LateAfter(settings, site, action), action.w, scope);
    } else if Moves(action) {
      TasksAfter(settings, site, action, scope);
      hide Tasks;
    }
  }

  lemma OtherCopies(settings: Settings, site: Site, action: Action, scope: string) returns (p: nat, gone: bool)
    requires SiteOk(settings, site) && Allowed(site, action) && Timely(settings, site, action)
    requires !Own(settings, site, action, scope) && Created(settings, site, action) != Some(scope)
    ensures CopiesOf(Act(settings, site, action), scope)
         == if gone then CopiesOf(site, scope) - {p} else CopiesOf(site, scope)
  {
    hide SiteOk, AfterCall, Memory, DbAfter, WorkersAfter, LateAfter, TaskOf;
    var stale' := StaleAfter(settings, site, action);
    p := if action.Restart? then action.process
         else if CallOf(site, action).Some? then CallOf(site, action).value.0 else 0;
    gone := action.Restart?;
    forall q | q in site.memories && scope in site.memories[q].items
               && (action.Restart? || CallOf(site, action).Some? ==> q != p)
      ensures (q, scope) in stale' <==> (q, scope) in site.stale
    {
      StaleElsewhere(settings, site, action, q, scope);
    }
    if action.Restart? {
      CopiesUpdate(site.memories, site.stale, stale', p, OrderedDicts.Empty(), scope);
    } else if CallOf(site, action).Some? {
      gone := OtherCall(settings, site, action, scope);
    }
  }

  /** A call that is not about the conversation. */
  lemma OtherCall(settings: Settings, site: Site, action: Action, scope: string) returns (gone: bool)
    requires SiteOk(settings, site) && Allowed(site, action) && Created(settings, site, action) != Some(scope)
    requires CallOf(site, action).Some? && !action.Restart? && !About(CallOf(site, action).value.1, scope)
    ensures CopiesOf(Act(settings, site, action), scope)
         == if gone then CopiesOf(site, scope) - {CallOf(site, action).value.0} else CopiesOf(site, scope)
  {
    hide SiteOk, AfterCall, Copies, DbAfter, WorkersAfter, LateAfter, Created;
    var call := CallOf(site, action).value;
    var p := call.0;
    var d := Memory(site, p);
    var d' := AfterCall(settings.ttl, settings.max, d, call.1);
    MemoryValid(settings, site, p);
    OtherCopy(settings.ttl, settings.max, d, call.1, scope);
    CopiesAfter(settings, site, action, scope);
    CopiesAt(site, p, scope);
    gone := scope !in d'.items;
    if !gone {
      assert (p, scope) in StaleAfter(settings, site, action) <==> (p, scope) in site.stale;
      assert p in CopiesOf(site, scope) ==> CopiesOf(site, scope)[p := d'.items[scope]] == CopiesOf(site, scope);
      assert p !in CopiesOf(site, scope) ==> CopiesOf(site, scope) - {p} == CopiesOf(site, scope);
    }
  }

  /** The copies after a call, given what it left in this process. */
  lemma CopiesAfter(settings: Settings, site: Site, action: Action, scope: string)
    requires Allowed(site, action) && CallOf(site, action).Some? && !action.Restart?
    requires Created(settings, site, action) != Some(scope)
    ensures var call, copies := CallOf(site, action).value, CopiesOf(site, scope);
            var d := AfterCall(settings.ttl, settings.max, Memory(site, call.0), call.1);
            CopiesOf(Act(settings, site, action), scope)
              == if scope in d.items && (call.0, scope) !in StaleAfter(settings, site, action)
                 then copies[call.0 := d.items[scope]] else copies - {call.0}
  {
    hide AfterCall, Copies, DbAfter, WorkersAfter, LateAfter, StaleAfter, Created;
    var call, stale' := CallOf(site, action).value, StaleAfter(settings, site, action);
    forall q | q in site.memories && q != call.0 && scope in site.memories[q].items
      ensures (q, scope) in stale' <==> (q, scope) in site.stale
    {
      StaleElsewhere(settings, site, action, q, scope);
    }
    CopiesUpdate(site.memories, site.stale, stale', call.0,
                 AfterCall(settings.ttl, settings.max, Memory(site, call.0), call.1), scope);
  }

  lemma OwnStep(settings: Settings, site: Site, action: Action, scope: string)
    requires Allowed(site, action) && !Own(settings, site, action, scope)
    ensures StepOf(site, action).Some? ==>
              var step := StepOf(site, action).value.step; !(step.DoSummary? && step.scopeKey == scope)
    ensures StepOf(site, action).Some? && StepOf(site, action).value.step.DoBegin? ==>
              StepOf(site, action).value.step.newId !in site.db.conversations
  {
    hide CompleteTurn, WarmStore.AppendJob, GuardTask, PageTask, ScopeRow;
  }

  /** An action after which the scope still has the row it had creates no row there. */
  lemma SameRowIsNotCreated(settings: Settings, site: Site, action: Action, scope: string)
    requires SiteOk(settings, site) && Allowed(site, action) && ScopeRow(site.db, scope).Some?
    requires var row := ScopeRow(DbAfter(settings, site, action), scope);
             row.Some? && row.value.0 == ScopeRow(site.db, scope).value.0
    ensures Created(settings, site, action) != Some(scope)
  {
    hide SiteOk, DbOk, Apply, ScopeRow, TurnsEvolve, DurableStep;
    DbOf(settings, site);
    var created := Created(settings, site, action);
    if created.Some? {
      var e, db' := StepOf(site, action).value, DbAfter(settings, site, action);
      RowId(settings.lim, site.db, scope);
      ApplyKeeps(settings.lim, site.db, e.step, e.now);
      StepEvolves(settings.lim, site.db, e.step, e.now, e.step.newId);
      RowOf(settings.lim, db', e.step.newId);
    }
  }

  lemma BystanderSimulates(settings: Settings, site: Site, action: Action, scope: string)
    requires SiteOk(settings, site) && Allowed(site, action) && Timely(settings, site, action)
    requires !Own(settings, site, action, scope) && ScopeRow(site.db, scope).Some?
    requires var row := ScopeRow(DbAfter(settings, site, action), scope);
             row.Some? && row.value.0 == ScopeRow(site.db, scope).value.0
    ensures Reaches(settings.keep, true, View(site, scope), View(Act(settings, site, action), scope))
  {
    hide SiteOk, Apply, Own, CopiesOf, TasksOf, MemoriesAfter, WorkersAfter, StaleAfter, LateAfter, StepOf, ScopeRow,
         Allowed, Timely, Created, Reaches;
    DbOf(settings, site);
    SameRowIsNotCreated(settings, site, action, scope);
    OwnStep(settings, site, action, scope);
    var e := StepOf(site, action);
    if e.Some? {
      OtherColumns(settings.lim, site.db, e.value, scope);
    }
    OtherTasks(settings, site, action, scope);
    var p, gone := OtherCopies(settings, site, action, scope);
    BystanderReaches(settings.keep, View(site, scope), View(Act(settings, site, action), scope), p, gone);
  }

  lemma DbOf(settings: Settings, site: Site)
    requires SiteOk(settings, site)
    ensures DbOk(settings.lim, site.db)
  {
    hide DbOk, Placed, SystemBounded, OrderedDicts.Valid;
  }

  // ----- Actions of the conversation's own workers, on the row ------------------------------------

  lemma WorkerIn(site: Site, w: nat, scope: string)
    requires w in site.workers && site.workers[w].scope == scope && w !in site.late
    ensures w in TasksOf(site, scope) && TasksOf(site, scope)[w] == Abstract(site.workers[w].task)
  {}

  /** An action that makes no memory call leaves the copies of every conversation. */
  lemma CopiesStay(settings: Settings, site: Site, action: Action, scope: string)
    requires Allowed(site, action) && Moves(action) && CallOf(site, action).None?
    ensures CopiesOf(Act(settings, site, action), scope) == CopiesOf(site, scope)
  {
    hide DbAfter, WorkersAfter, LateAfter, StaleAfter, AfterCall;
    forall q | q in site.memories && scope in site.memories[q].items
      ensures (q, scope) in StaleAfter(settings, site, action) <==> (q, scope) in site.stale
    {
      StaleElsewhere(settings, site, action, q, scope);
    }
  }

  lemma CompleteSimulates(settings: Settings, site: Site, action: Action, scope: string)
    requires SiteOk(settings, site) && Allowed(site, action) && Timely(settings, site, action)
    requires action.Complete? && Own(settings, site, action, scope)
    requires ScopeRow(site.db, scope).Some?
    requires var row := ScopeRow(DbAfter(settings, site, action), scope);
             row.Some? && row.value.0 == ScopeRow(site.db, scope).value.0
    ensures Reaches(settings.keep, true, View(site, scope), View(Act(settings, site, action), scope))
  {
    hide SiteOk, CopiesOf, TasksOf, WorkersAfter, StaleAfter, LateAfter, Reaches, CompleteTurn, DbOk, PageTask,
         GuardTask;
    DbOf(settings, site);
    var id, a, b := ScopeRow(site.db, scope).value.0, View(site, scope), View(Act(settings, site, action), scope);
    SavedTurnIsFound(settings.lim, site.db, action.req, action.now);
    CompletionIsCommit(settings.lim, site.db, action.req, action.now, id);
    var o := TaskOf(settings, site, action).value;
    TasksAfter(settings, site, action, scope);
    CopiesStay(settings, site, action, scope);
    ReachesStep(settings.keep, true, a, S.Commit(action.w));
    assert b == S.ApplyEvent(a, settings.keep, S.Commit(action.w));
  }

  lemma SavedTurnIsFound(lim: Limits, db: Db, req: CompleteRequest, now: real)
    requires CompleteTurn(lim, db, req, now).Commit?
    ensures ScopeRow(db, req.scopeKey).Some?
            && FindTurn(db, req.scopeKey, req.turnId) == Some(ScopeRow(db, req.scopeKey).value.0)
  {
    hide OverQuota, MessagesForTurn, TurnBytes, ContentFits, NextSequence, HistorySpec.Save;
  }

  lemma GuardSimulates(settings: Settings, site: Site, action: Action, scope: string)
    requires SiteOk(settings, site) && Allowed(site, action) && Timely(settings, site, action)
    requires action.Guard? && Own(settings, site, action, scope)
    requires ScopeRow(site.db, scope).Some?
    ensures Reaches(settings.keep, true, View(site, scope), View(Act(settings, site, action), scope))
  {
    hide SiteOk, CopiesOf, TasksOf, WorkersAfter, StaleAfter, LateAfter, Reaches, S.JobFollows, ThroughSequence,
         ScopeRow;
    var a, b, w := View(site, scope), View(Act(settings, site, action), scope), action.w;
    WorkerIn(site, w, scope);
    TasksAfter(settings, site, action, scope);
    CopiesStay(settings, site, action, scope);
    ReachesStep(settings.keep, true, a, S.CheckJob(w));
    assert b == S.ApplyEvent(a, settings.keep, S.CheckJob(w));
  }

  /** The compare-and-swap of a worker of this scope is the protocol's. */
  lemma OwnSwap(lim: Limits, db: Db, scope: string, summary: seq<int>, version: int, through: int, now: real)
    requires DbOk(lim, db) && ScopeRow(db, scope).Some?
    ensures var db' := Apply(lim, db, DoSummary(scope, summary, version, through), now);
            var d := Project(ScopeRow(db, scope).value.1);
            var swapped := S.SwapSummary(d, summary, version, through);
      && ScopeRow(db', scope).Some?
      && SwapWins(db, scope, version, through) == swapped.Some?
      && Project(ScopeRow(db', scope).value.1) == if swapped.Some? then swapped.value else d
  {
    hide ConversationOk, QuotasOk;
    UpdateSummaryIsSwap(db, scope, summary, version, through, now);
  }

  lemma SwapSimulates(settings: Settings, site: Site, action: Action, scope: string)
    requires SiteOk(settings, site) && Allowed(site, action) && Timely(settings, site, action)
    requires action.SwapSummary? && Own(settings, site, action, scope)
    requires ScopeRow(site.db, scope).Some? && ScopeRow(DbAfter(settings, site, action), scope).Some?
    ensures Reaches(settings.keep, true, View(site, scope), View(Act(settings, site, action), scope))
  {
    hide SiteOk, CopiesOf, TasksOf, WorkersAfter, StaleAfter, LateAfter, Reaches, ScopeRow, Apply, SwapWins,
         S.SwapSummary, FallbackSummary, DbOk;
    var a, b, w := View(site, scope), View(Act(settings, site, action), scope), action.w;
    DbOf(settings, site);
    WorkerIn(site, w, scope);
    TasksAfter(settings, site, action, scope);
    CopiesStay(settings, site, action, scope);
    var Guarded(job, through, _, version) := site.workers[w].task;
    OwnSwap(settings.lim, site.db, scope, FallbackSummary(job), version, through, action.now);
    ReachesStep(settings.keep, true, a, S.SwapJob(w));
    assert b == S.ApplyEvent(a, settings.keep, S.SwapJob(w));
  }

  lemma SwapTailSimulates(settings: Settings, site: Site, action: Action, scope: string)
    requires SiteOk(settings, site) && Allowed(site, action) && Timely(settings, site, action)
    requires action.SwapTail? && Own(settings, site, action, scope)
    requires ScopeRow(site.db, scope).Some? && ScopeRow(DbAfter(settings, site, action), scope).Some?
    ensures Reaches(settings.keep, true, View(site, scope), View(Act(settings, site, action), scope))
  {
    hide SiteOk, CopiesOf, TasksOf, WorkersAfter, StaleAfter, LateAfter, Reaches, ScopeRow, Apply, SwapWins,
         S.SwapSummary, DbOk;
    var a, b, w := View(site, scope), View(Act(settings, site, action), scope), action.w;
    DbOf(settings, site);
    WorkerIn(site, w, scope);
    TasksAfter(settings, site, action, scope);
    CopiesStay(settings, site, action, scope);
    var Tail(summary, cursor, version, through, turns, kbs) := site.workers[w].task;
    OwnSwap(settings.lim, site.db, scope, summary, version, through, action.now);
    ReachesStep(settings.keep, true, a, S.SwapFolded(w, kbs));
    assert b == S.ApplyEvent(a, settings.keep, S.SwapFolded(w, kbs));
  }

  lemma ReadRowSimulates(settings: Settings, site: Site, action: Action, scope: string)
    requires SiteOk(settings, site) && Allowed(site, action) && Timely(settings, site, action)
    requires action.ReadRow? && Own(settings, site, action, scope)
    requires ScopeRow(site.db, scope).Some?
    ensures Reaches(settings.keep, true, View(site, scope), View(Act(settings, site, action), scope))
  {
    hide SiteOk, CopiesOf, TasksOf, WorkersAfter, StaleAfter, LateAfter, Reaches, ScopeRow;
    var a, b, w := View(site, scope), View(Act(settings, site, action), scope), action.w;
    TasksAfter(settings, site, action, scope);
    CopiesStay(settings, site, action, scope);
    ReachesStep(settings.keep, true, a, S.ReadRow(w));
    assert b == S.ApplyEvent(a, settings.keep, S.ReadRow(w));
  }

  lemma CrashSimulates(settings: Settings, site: Site, action: Action, scope: string)
    requires SiteOk(settings, site) && Allowed(site, action) && Timely(settings, site, action)
    requires action.Crash? && Own(settings, site, action, scope)
    requires ScopeRow(site.db, scope).Some?
    ensures Reaches(settings.keep, true, View(site, scope), View(Act(settings, site, action), scope))
  {
    hide SiteOk, CopiesOf, TasksOf, WorkersAfter, StaleAfter, LateAfter, Reaches, ScopeRow;
    var a, b, w := View(site, scope), View(Act(settings, site, action), scope), action.w;
    TasksAfter(settings, site, action, scope);
    CopiesStay(settings, site, action, scope);
    ReachesStep(settings.keep, true, a, S.Crash(w));
    assert b == S.ApplyEvent(a, settings.keep, S.Crash(w));
  }

  // ----- The paged tail --------------------------------------------------------------------------

  lemma PlacedOf(settings: Settings, site: Site, w: nat)
    requires SiteOk(settings, site) && w in site.workers
    ensures Placed(site.db, site.workers[w], w in site.late)
  {
    hide DbOk, Placed, SystemBounded, OrderedDicts.Valid;
  }

  lemma BoundedView(settings: Settings, site: Site, scope: string)
    requires SiteOk(settings, site) && ScopeRow(site.db, scope).Some?
    ensures SystemBounded(View(site, scope))
  {
    hide DbOk, Placed, SystemBounded, OrderedDicts.Valid;
  }

  /** The row read first, bounded by the messages the last page saw. */
  lemma CursorWithin(settings: Settings, site: Site, w: nat, scope: string)
    requires SiteOk(settings, site) && w in site.workers && site.workers[w].scope == scope && w !in site.late
    requires site.workers[w].task.Paging? && ScopeRow(site.db, scope).Some?
    ensures var row, c := ScopeRow(site.db, scope).value, site.workers[w].task.c;
      && 0 <= c.summaryThrough <= |row.1.messages| && c.summaryThrough % 2 == 0
      && row.1.messageCount == |row.1.messages| && TranscriptOk(row.1.messages)
      && row.0 in site.db.conversations && row.1 == site.db.conversations[row.0]
      && |row.1.messages| <= settings.lim.maxMessages
  {
    hide SiteOk, TasksOf, CopiesOf, DbOk, TranscriptOk, ScopeRow;
    DbOf(settings, site);
    RowId(settings.lim, site.db, scope);
    BoundedView(settings, site, scope);
    WorkerIn(site, w, scope);
    WorkerIsBounded(View(site, scope), w);
    CountIsLength(settings.lim, site.db, ScopeRow(site.db, scope).value.0);
    TranscriptOf(settings.lim, site.db, ScopeRow(site.db, scope).value.0);
  }

  /** After the last page the folded tail is the protocol's fold. */
  lemma LastPageFolds(settings: Settings, db: Db, task: Task, limit: int, seen: seq<Message>) returns (folded: nat)
    requires task.Paging? && task.id in db.conversations && seen == db.conversations[task.id].messages
    requires ReadSoFar(db, task.id, task.c, task.consumed, task.after) && TranscriptOk(seen) && settings.keep >= 1
    requires 0 <= task.c.summaryThrough <= |seen| && task.c.summaryThrough % 2 == 0
    requires P.PageAfter(seen, task.after, limit).next.None?
    ensures var c, tail := task.c, PageTask(db, task, limit, settings.keep).value;
      && tail.Tail? && tail.cursor == c.summaryThrough && tail.version == c.summaryVersion
      && tail.through == c.summaryThrough + 2 * folded
      && tail.summary == c.summary + S.Between(c.summaryThrough, tail.through)
      && S.Contiguous(tail.through, tail.turns)
      && tail.through + 2 * |tail.turns| == |seen|
  {
    hide Fold, TranscriptOk, S.Between, S.Contiguous, P.PageAfter, P.RowsAfter, ReadSoFar;
    NextPage(db, task.id, task.c, task.consumed, task.after, limit);
    var c, tail := task.c, PageTask(db, task, limit, settings.keep).value;
    var r := Compacted(tail.summary, if tail.through > c.summaryThrough then c.summaryVersion + 1 else c.summaryVersion,
                       tail.through, tail.turns);
    CompactionIsAFold(r, c, seen, settings.keep);
    folded := (r.through - c.summaryThrough) / 2;
  }

  lemma ReadPageSimulates(settings: Settings, site: Site, action: Action, scope: string)
    requires SiteOk(settings, site) && Allowed(site, action) && Timely(settings, site, action)
    requires action.ReadPage? && Own(settings, site, action, scope)
    requires ScopeRow(site.db, scope).Some? && settings.keep >= 1
    ensures Reaches(settings.keep, true, View(site, scope), View(Act(settings, site, action), scope))
  {
    hide SiteOk, CopiesOf, TasksOf, WorkersAfter, StaleAfter, LateAfter, Reaches, ScopeRow, ReadSoFar, TranscriptOk,
         P.PageAfter, Fold, S.Between, S.Contiguous;
    var a, b, w := View(site, scope), View(Act(settings, site, action), scope), action.w;
    var task := site.workers[w].task;
    PlacedOf(settings, site, w);
    CursorWithin(settings, site, w, scope);
    WorkerIn(site, w, scope);
    TasksAfter(settings, site, action, scope);
    CopiesStay(settings, site, action, scope);
    var seen := site.db.conversations[task.id].messages;
    if P.PageAfter(seen, task.after, action.limit).next.Some? {
      assert b == a;
      ReachesReflexive(settings.keep, true, a);
    } else {
      var folded := LastPageFolds(settings, site.db, task, action.limit, seen);
      var e := S.FoldTail(w, TaskOf(settings, site, action).value.task.turns, folded);
      ReachesStep(settings.keep, true, a, e);
      assert b == S.ApplyEvent(a, settings.keep, e);
    }
  }

  // ----- Actions of the conversation's own workers, on a copy ---------------------------------

  /** One event between losing an expired copy and losing the new one to eviction. */
  lemma SandwichReaches(keep: nat, covered: bool, a: S.System, p: nat, expired: bool, e: S.Event, evicted: bool)
    requires S.Enabled(Lost(a, p, expired), e) && (covered ==> S.Covered(Lost(a, p, expired), e))
    ensures Reaches(keep, covered, a, Lost(S.ApplyEvent(Lost(a, p, expired), keep, e), p, evicted))
  {
    hide Reaches, S.Enabled, S.ApplyEvent, S.Covered, Lost;
    var a1 := Lost(a, p, expired);
    var a2 := S.ApplyEvent(a1, keep, e);
    LoseReaches(keep, a, p, expired);
    ReachesStep(keep, covered, a1, e);
    LoseReaches(keep, a2, p, evicted);
    ReachesTransitive(keep, true, covered, a, a1, a2);
    ReachesTransitive(keep, covered, true, a, a2, Lost(a2, p, evicted));
  }

  /** After a purge, the copy of this process is the live one, unless that is of an earlier row. */
  lemma PurgedCopy(settings: Settings, site: Site, p: nat, now: real, scope: string)
    requires SiteOk(settings, site)
    ensures var live, copies := WarmStore.Purged(Memory(site, p), settings.ttl, now), CopiesOf(site, scope);
            var here := scope in live.items && (p, scope) !in site.stale;
            var left := if here then copies else copies - {p};
      && OrderedDicts.Valid(live)
      && (p in left <==> here)
      && (here ==> left[p] == live.items[scope])
      && ((p, scope) in site.stale ==> copies - {p} == copies)
  {
    hide SiteOk, Copies, OrderedDicts.Valid, WarmStore.Expired;
    MemoryValid(settings, site, p);
    OrderedDicts.MinusValid(Memory(site, p), WarmStore.Expired(Memory(site, p), settings.ttl, now));
    CopiesAt(site, p, scope);
  }

  /** Whether the copy a call leaves is one of an earlier row. */
  lemma StaleHere(settings: Settings, site: Site, action: Action, scope: string)
    requires Allowed(site, action) && Moves(action) && CallOf(site, action).Some?
    ensures var call := CallOf(site, action).value;
            var d := Memory(site, call.0);
            (call.0, scope) in StaleAfter(settings, site, action) <==>
              && scope in d.items && (call.0, scope) in site.stale
              && scope in AfterCall(settings.ttl, settings.max, d, call.1).items
              && !MakesAnew(settings, d, call.1, scope)
  {
    hide AfterCall, MakesAnew, DbAfter;
  }

  /** What a worker does to a live copy of an earlier row is nothing to the conversation but its own end. */
  lemma StaleCopySimulates(settings: Settings, site: Site, action: Action, scope: string)
    requires SiteOk(settings, site) && Allowed(site, action) && Timely(settings, site, action)
    requires action.ApplyJob? || action.Replace? || action.Hydrate?
    requires Own(settings, site, action, scope) && ScopeRow(site.db, scope).Some?
    requires var call := CallOf(site, action).value;
      && (call.0, scope) in site.stale
      && scope in WarmStore.Purged(Memory(site, call.0), settings.ttl, action.now).items
      && !MakesAnew(settings, Memory(site, call.0), call.1, scope)
    ensures Reaches(settings.keep, true, View(site, scope), View(Act(settings, site, action), scope))
  {
    hide SiteOk, CopiesOf, TasksOf, WorkersAfter, StaleAfter, LateAfter, Reaches, ScopeRow, MakesAnew, Memory,
         OrderedDicts.Valid, WarmStore.Expired, AfterCall, WarmStates.ApplySummary;
    var a, b, w := View(site, scope), View(Act(settings, site, action), scope), action.w;
    var p := site.workers[w].process;
    PurgedCopy(settings, site, p, action.now, scope);
    CopiesAfter(settings, site, action, scope);
    StaleHere(settings, site, action, scope);
    TasksAfter(settings, site, action, scope);
    assert scope in Memory(site, p).items;
    ReachesStep(settings.keep, true, a, S.Crash(w));
    assert b == S.ApplyEvent(a, settings.keep, S.Crash(w));
  }

  lemma AppendSimulates(settings: Settings, site: Site, action: Action, scope: string)
    requires SiteOk(settings, site) && Allowed(site, action) && Timely(settings, site, action)
    requires action.AppendTurn? && Own(settings, site, action, scope)
    requires ScopeRow(site.db, scope).Some? && scope != ""
    ensures Reaches(settings.keep, CoveredAction(settings, site, action), View(site, scope),
                    View(Act(settings, site, action), scope))
  {
    hide SiteOk, CopiesOf, TasksOf, WorkersAfter, StaleAfter, LateAfter, Reaches, ScopeRow, Append, Added, JobOf,
         Covers, WarmStore.Purged, WarmStore.Stored, Memory, OrderedDicts.Valid;
    var AppendTurn(w, user, assistant, kbs, now) := action;
    var a, b, o := View(site, scope), View(Act(settings, site, action), scope), site.workers[w];
    var p, t := o.process, WarmTurn(user, assistant, Some(o.task.sequence));
    var live := WarmStore.Purged(Memory(site, p), settings.ttl, now);
    var before := WarmStore.StateOr(live, scope, NewState(now));
    var s := Append(before, t, kbs, now);
    PurgedCopy(settings, site, p, now, scope);
    WarmStore.StoredCopy(live, scope, s, settings.max);
    CopiesAfter(settings, site, action, scope);
    StaleHere(settings, site, action, scope);
    WorkerIn(site, w, scope);
    TasksAfter(settings, site, action, scope);
    var evicted := scope !in WarmStore.Stored(live, scope, s, settings.max).items;
    var e := S.AppendWarm(w, p, t, kbs, settings.oversize(s), now);
    SandwichReaches(settings.keep, CoveredAction(settings, site, action), a, p, scope !in live.items, e, evicted);
    var a2 := S.ApplyEvent(Lost(a, p, scope !in live.items), settings.keep, e);
    assert Lost(a2, p, evicted).warm == b.warm;
    assert Lost(a2, p, evicted).workers == b.workers;
  }

  lemma ApplySimulates(settings: Settings, site: Site, action: Action, scope: string)
    requires SiteOk(settings, site) && Allowed(site, action) && Timely(settings, site, action)
    requires action.ApplyJob? && Own(settings, site, action, scope)
    requires var call := CallOf(site, action).value;
      (call.0, scope) in site.stale && scope in WarmStore.Purged(Memory(site, call.0), settings.ttl, action.now).items ==>
        MakesAnew(settings, Memory(site, call.0), call.1, scope)
    requires ScopeRow(site.db, scope).Some?
    ensures Reaches(settings.keep, true, View(site, scope), View(Act(settings, site, action), scope))
  {
    hide SiteOk, CopiesOf, TasksOf, WorkersAfter, StaleAfter, LateAfter, Reaches, ScopeRow, WarmStates.ApplySummary,
         FallbackSummary, WarmStore.Purged, Memory, OrderedDicts.Valid;
    var ApplyJob(w, now) := action;
    var a, b, o := View(site, scope), View(Act(settings, site, action), scope), site.workers[w];
    var p := o.process;
    var live := WarmStore.Purged(Memory(site, p), settings.ttl, now);
    PurgedCopy(settings, site, p, now, scope);
    CopiesAfter(settings, site, action, scope);
    StaleHere(settings, site, action, scope);
    WorkerIn(site, w, scope);
    TasksAfter(settings, site, action, scope);
    var e := S.ApplyWarm(w, p, now);
    SandwichReaches(settings.keep, true, a, p, scope !in live.items, e, false);
    var a2 := S.ApplyEvent(Lost(a, p, scope !in live.items), settings.keep, e);
    assert a2.warm == b.warm;
    assert a2.workers == b.workers;
  }

  lemma NothingRefuses(snapshot: Snapshot)
    ensures !ReplaceRefused(None, snapshot)
  {}

  lemma ReplaceSimulates(settings: Settings, site: Site, action: Action, scope: string)
    requires SiteOk(settings, site) && Allowed(site, action) && Timely(settings, site, action)
    requires action.Replace? && Own(settings, site, action, scope)
    requires var call := CallOf(site, action).value;
      (call.0, scope) in site.stale && scope in WarmStore.Purged(Memory(site, call.0), settings.ttl, action.now).items ==>
        MakesAnew(settings, Memory(site, call.0), call.1, scope)
    requires ScopeRow(site.db, scope).Some? && scope != ""
    ensures Reaches(settings.keep, true, View(site, scope), View(Act(settings, site, action), scope))
  {
    hide SiteOk, CopiesOf, TasksOf, WorkersAfter, StaleAfter, LateAfter, Reaches, ScopeRow, FromDurable,
         ReplaceRefused, WarmStore.Purged, WarmStore.Stored, Memory, OrderedDicts.Valid;
    var Replace(w, now) := action;
    var a, b := View(site, scope), View(Act(settings, site, action), scope);
    var p, snapshot := site.workers[w].process, site.workers[w].task.snapshot;
    var live := WarmStore.Purged(Memory(site, p), settings.ttl, now);
    PurgedCopy(settings, site, p, now, scope);
    WarmStore.StoredCopy(live, scope, FromDurable(snapshot, now), settings.max);
    CopiesAfter(settings, site, action, scope);
    StaleHere(settings, site, action, scope);
    WorkerIn(site, w, scope);
    TasksAfter(settings, site, action, scope);
    var expired := scope !in live.items || (p, scope) in site.stale;
    var evicted := !ReplaceRefused(OrderedDicts.Get(live, scope), snapshot)
                   && scope !in WarmStore.Stored(live, scope, FromDurable(snapshot, now), settings.max).items;
    NothingRefuses(snapshot);
    assert S.WarmOf(Lost(a, p, expired), p) == OrderedDicts.Get(live, scope)
           || (!ReplaceRefused(OrderedDicts.Get(live, scope), snapshot) && S.WarmOf(Lost(a, p, expired), p) == None);
    var e := S.ReplaceWarm(w, p, now);
    SandwichReaches(settings.keep, true, a, p, expired, e, evicted);
    var a2 := S.ApplyEvent(Lost(a, p, expired), settings.keep, e);
    assert Lost(a2, p, evicted).warm == b.warm;
    assert Lost(a2, p, evicted).workers == b.workers;
  }

  lemma HydrateSimulates(settings: Settings, site: Site, action: Action, scope: string)
    requires SiteOk(settings, site) && Allowed(site, action) && Timely(settings, site, action)
    requires action.Hydrate? && Own(settings, site, action, scope)
    requires var call := CallOf(site, action).value;
      (call.0, scope) in site.stale && scope in WarmStore.Purged(Memory(site, call.0), settings.ttl, action.now).items ==>
        MakesAnew(settings, Memory(site, call.0), call.1, scope)
    requires ScopeRow(site.db, scope).Some? && scope != ""
    ensures Reaches(settings.keep, true, View(site, scope), View(Act(settings, site, action), scope))
  {
    hide SiteOk, CopiesOf, TasksOf, WorkersAfter, StaleAfter, LateAfter, Reaches, ScopeRow, FromDurable,
         WarmStore.Purged, WarmStore.Stored, Memory, OrderedDicts.Valid;
    var Hydrate(w, now) := action;
    var a, b := View(site, scope), View(Act(settings, site, action), scope);
    var p, snapshot := site.workers[w].process, site.workers[w].task.snapshot;
    var live := WarmStore.Purged(Memory(site, p), settings.ttl, now);
    PurgedCopy(settings, site, p, now, scope);
    WarmStore.StoredCopy(live, scope, FromDurable(snapshot, now), settings.max);
    CopiesAfter(settings, site, action, scope);
    StaleHere(settings, site, action, scope);
    WorkerIn(site, w, scope);
    TasksAfter(settings, site, action, scope);
    var evicted := !(scope in live.items)
                   && scope !in WarmStore.Stored(live, scope, FromDurable(snapshot, now), settings.max).items;
    var e := S.HydrateAbsent(w, p, now);
    SandwichReaches(settings.keep, true, a, p, scope !in live.items, e, evicted);
    var a2 := S.ApplyEvent(Lost(a, p, scope !in live.items), settings.keep, e);
    assert Lost(a2, p, evicted).warm == b.warm;
    assert Lost(a2, p, evicted).workers == b.workers;
  }

  // ----- Every action ------------------------------------------------------------------------------

  /** The worker finds a live copy of an earlier row, and leaves it. */
  predicate OnStaleCopy(settings: Settings, site: Site, action: Action, scope: string)
    requires Allowed(site, action) && (action.ApplyJob? || action.Replace? || action.Hydrate?)
  {
    var call := CallOf(site, action).value;
    && (call.0, scope) in site.stale
    && scope in WarmStore.Purged(Memory(site, call.0), settings.ttl, action.now).items
    && !MakesAnew(settings, Memory(site, call.0), call.1, scope)
  }

  /**
   Each action of any worker, whatever the processes do, is zero or more events
   of the protocol for every conversation that is there before and after it.
   */
  lemma ActionSimulates(settings: Settings, site: Site, action: Action, scope: string)
    requires SiteOk(settings, site) && Allowed(site, action) && Timely(settings, site, action) && settings.keep >= 1
    requires ScopeRow(site.db, scope).Some?
    requires var row := ScopeRow(DbAfter(settings, site, action), scope);
             row.Some? && row.value.0 == ScopeRow(site.db, scope).value.0
    ensures Reaches(settings.keep, CoveredAction(settings, site, action), View(site, scope),
                    View(Act(settings, site, action), scope))
  {
    hide SiteOk, Reaches, ScopeRow, View, DbAfter, MemoriesAfter, WorkersAfter, CoveredAction, TaskOf, Timely,
         MakesAnew, WarmStore.Purged, StaleAfter, LateAfter;
    var a, b, covered := View(site, scope), View(Act(settings, site, action), scope), CoveredAction(settings, site, action);
    if !Own(settings, site, action, scope) {
      BystanderSimulates(settings, site, action, scope);
    } else if (action.ApplyJob? || action.Replace? || action.Hydrate?) && OnStaleCopy(settings, site, action, scope) {
      StaleCopySimulates(settings, site, action, scope);
    } else {
      match action
      case Complete(_, _, _, _) => CompleteSimulates(settings, site, action, scope);
      case AppendTurn(w, _, _, _, _) =>
        PlacedOf(settings, site, w);
        AppendSimulates(settings, site, action, scope);
      case Guard(_) => GuardSimulates(settings, site, action, scope);
      case SwapSummary(_, _) => SwapSimulates(settings, site, action, scope);
      case ApplyJob(_, _) => ApplySimulates(settings, site, action, scope);
      case ReadRow(_, _, _) => ReadRowSimulates(settings, site, action, scope);
      case ReadPage(_, _) => ReadPageSimulates(settings, site, action, scope);
      case SwapTail(_, _) => SwapTailSimulates(settings, site, action, scope);
      case Replace(w, _) =>
        PlacedOf(settings, site, w);
        ReplaceSimulates(settings, site, action, scope);
      case Hydrate(w, _) =>
        PlacedOf(settings, site, w);
        HydrateSimulates(settings, site, action, scope);
      case Crash(_) => CrashSimulates(settings, site, action, scope);
    }
    if !action.AppendTurn? || !Own(settings, site, action, scope) {
      WeakerReach(settings.keep, covered, a, b);
    }
  }

  lemma WeakerReach(keep: nat, covered: bool, a: S.System, b: S.System)
    requires Reaches(keep, true, a, b)
    ensures Reaches(keep, covered, a, b)
  {
    hide S.Possible, S.RunSystem, S.AlwaysCovered;
    var events :| Path(keep, true, a, b, events);
    assert Path(keep, covered, a, b, events);
  }

  // ----- Every action keeps the site in order --------------------------------------------------------

  lemma StepKeepsRead(lim: Limits, db: Db, e: Event, task: Task)
    requires task.Paging? && ReadSoFar(db, task.id, task.c, task.consumed, task.after)
    requires e.step.DoBegin? ==> e.step.newId != task.id
    ensures ReadSoFar(Apply(lim, db, e.step, e.now), task.id, task.c, task.consumed, task.after)
  {
    hide Apply, Run;
    var db', id := Apply(lim, db, e.step, e.now), task.id;
    OneEvent(lim, db, e.step, e.now);
    if id in db'.conversations {
      ConversationGrows(lim, db, [e], id);
      if task.consumed != [] {
        var from := Max(0, task.c.summaryThrough);
        var before, later := db.conversations[id].messages, db'.conversations[id].messages;
        assert later[from..task.after] == before[from..task.after];
      }
    }
  }

  lemma StepKeepsPlaced(settings: Settings, site: Site, action: Action, w: nat)
    requires SiteOk(settings, site) && Allowed(site, action) && w in site.workers
    ensures var o := site.workers[w];
            Placed(DbAfter(settings, site, action), o,
                   w in site.late || Created(settings, site, action) == Some(o.scope))
  {
    hide SiteOk, Apply, ReadSoFar, ScopeRow, DbOk;
    PlacedOf(settings, site, w);
    DbOf(settings, site);
    var o, e := site.workers[w], StepOf(site, action);
    if e.Some? && o.task.Paging? {
      StepKeepsRead(settings.lim, site.db, e.value, o.task);
      var row := ScopeRow(DbAfter(settings, site, action), o.scope);
      if row.Some? {
        RowStays(settings.lim, site.db, e.value, o.scope);
        ApplyKeeps(settings.lim, site.db, e.value.step, e.value.now);
        RowId(settings.lim, DbAfter(settings, site, action), o.scope);
      }
    }
  }

  lemma MovedIsPlaced(settings: Settings, site: Site, action: Action)
    requires SiteOk(settings, site) && Allowed(site, action)
    requires Moves(action) && TaskOf(settings, site, action).Some?
    requires action.w in site.workers ==> Placed(DbAfter(settings, site, action), site.workers[action.w], false)
    ensures Placed(DbAfter(settings, site, action), TaskOf(settings, site, action).value, false)
  {
    hide SiteOk, Apply, ReadSoFar, ScopeRow, DbOk, CompleteTurn, WarmStore.AppendJob, S.JobFollows, P.PageAfter, Fold,
         TranscriptOk;
    if action.ReadRow? {
      RowIsRead(site.db, action.scope);
    }
    if action.ReadPage? {
      var task := site.workers[action.w].task;
      DbOf(settings, site);
      TranscriptOf(settings.lim, site.db, task.id);
      NextPage(site.db, task.id, task.c, task.consumed, task.after, action.limit);
    }
  }

  lemma CrashedIsGone(settings: Settings, site: Site, action: Action)
    requires Allowed(site, action) && action.Crash?
    ensures TaskOf(settings, site, action).None?
  {}

  lemma WorkersStayPlaced(settings: Settings, site: Site, action: Action)
    requires SiteOk(settings, site) && Allowed(site, action) && Timely(settings, site, action)
    ensures var site' := Act(settings, site, action);
            forall w :: w in site'.workers ==> Placed(site'.db, site'.workers[w], w in site'.late)
  {
    hide SiteOk, Allowed, DbAfter, TaskOf, Placed, MemoriesAfter, StaleAfter;
    var site' := Act(settings, site, action);
    forall w | w in site'.workers
      ensures Placed(site'.db, site'.workers[w], w in site'.late)
    {
      if w in site.workers {
        StepKeepsPlaced(settings, site, action, w);
      }
      if action.Crash? {
        CrashedIsGone(settings, site, action);
      } else if Moves(action) && w == action.w {
        MovedIsPlaced(settings, site, action);
      }
    }
  }

  lemma MemoriesStayValid(settings: Settings, site: Site, action: Action)
    requires SiteOk(settings, site) && Allowed(site, action)
    ensures var memories := MemoriesAfter(settings, site, action);
            forall p :: p in memories ==> OrderedDicts.Valid(memories[p])
  {
    hide DbOk, Placed, SystemBounded, OrderedDicts.Valid, AfterCall, Memory, CallOf, Allowed;
    var call := if action.Restart? then None else CallOf(site, action);
    if call.Some? {
      MemoryValid(settings, site, call.value.0);
      AfterCallValid(settings.ttl, settings.max, Memory(site, call.value.0), call.value.1);
    }
  }

  /** A row that was just created is a conversation in the protocol's start state. */
  lemma CreatedView(settings: Settings, site: Site, action: Action, scope: string)
    requires SiteOk(settings, site) && Allowed(site, action)
    requires var row := ScopeRow(DbAfter(settings, site, action), scope);
             row.Some? && row.value.0 !in site.db.conversations
    ensures View(Act(settings, site, action), scope) == S.Start
  {
    hide SiteOk, DbOk, Apply, ScopeRow, Begin;
    DbOf(settings, site);
    if StepOf(site, action).None? {
      RowId(settings.lim, site.db, scope);
    }
    var e := StepOf(site, action).value;
    var db' := DbAfter(settings, site, action);
    RowStays(settings.lim, site.db, e, scope);
    ApplyKeeps(settings.lim, site.db, e.step, e.now);
    RowId(settings.lim, db', scope);
    CreatedColumns(settings.lim, site.db, e);
    NothingToSee(settings, site, action, scope);
  }

  lemma CreatedColumns(lim: Limits, db: Db, e: Event)
    requires e.step.DoBegin? && e.step.newId !in db.conversations
    ensures var db' := Apply(lim, db, e.step, e.now);
            e.step.newId in db'.conversations ==> Project(db'.conversations[e.step.newId]) == Durable(0, [], 0, 0)
  {
    hide Begin;
    var DoBegin(req, token, newId) := e.step;
    if newId in Apply(lim, db, e.step, e.now).conversations {
      BeginKeepsColumns(lim, db, req, e.now, token, newId, newId);
    }
  }

  /** Every copy and worker of the scope belongs to an earlier row once a row is created. */
  lemma NothingToSee(settings: Settings, site: Site, action: Action, scope: string)
    requires Allowed(site, action) && Created(settings, site, action) == Some(scope)
    ensures CopiesOf(Act(settings, site, action), scope) == map[] && TasksOf(Act(settings, site, action), scope) == map[]
  {
    hide DbAfter;
  }

  /** Whatever the action, the row of a scope afterwards is the one before, or a new one. */
  lemma RowBefore(settings: Settings, site: Site, action: Action, scope: string)
    requires SiteOk(settings, site) && Allowed(site, action)
    requires ScopeRow(DbAfter(settings, site, action), scope).Some?
    ensures var id := ScopeRow(DbAfter(settings, site, action), scope).value.0;
            id in site.db.conversations ==> ScopeRow(site.db, scope) == Some((id, site.db.conversations[id]))
  {
    hide SiteOk, DbOk, Apply, ScopeRow;
    DbOf(settings, site);
    var e := StepOf(site, action);
    if e.Some? {
      RowStays(settings.lim, site.db, e.value, scope);
    } else {
      RowId(settings.lim, site.db, scope);
    }
  }

  lemma ActKeeps(settings: Settings, site: Site, action: Action)
    requires SiteOk(settings, site) && Allowed(site, action) && Timely(settings, site, action) && settings.keep >= 1
    ensures SiteOk(settings, Act(settings, site, action))
  {
    hide DbOk, Placed, SystemBounded, OrderedDicts.Valid, Allowed, Timely, Apply, MemoriesAfter, WorkersAfter,
         StaleAfter, LateAfter, ScopeRow, View, CoveredAction, Reaches;
    var site', e := Act(settings, site, action), StepOf(site, action);
    if e.Some? {
      ApplyKeeps(settings.lim, site.db, e.value.step, e.value.now);
    }
    MemoriesStayValid(settings, site, action);
    WorkersStayPlaced(settings, site, action);
    forall s | ScopeRow(site'.db, s).Some?
      ensures SystemBounded(View(site', s))
    {
      RowBefore(settings, site, action, s);
      if ScopeRow(site'.db, s).value.0 in site.db.conversations {
        ActionSimulates(settings, site, action, s);
        ReachesBounded(settings.keep, CoveredAction(settings, site, action), View(site, s), View(site', s));
      } else {
        CreatedView(settings, site, action, s);
        StartBounded();
      }
    }
  }

  // ----- All runs --------------------------------------------------------------------------------------

  /** Any interleaving of allowed, timely actions. */
  ghost predicate Runs(settings: Settings, actions: seq<Action>)
    decreases |actions|, 0
  {
    actions == [] ||
    (var before, last := actions[..|actions| - 1], actions[|actions| - 1];
     && Runs(settings, before)
     && Allowed(RunSite(settings, before), last)
     && Timely(settings, RunSite(settings, before), last))
  }

  ghost function RunSite(settings: Settings, actions: seq<Action>): Site
    requires Runs(settings, actions)
    decreases |actions|, 1
  {
    if actions == [] then EmptySite
    else Act(settings, RunSite(settings, actions[..|actions| - 1]), actions[|actions| - 1])
  }

  ghost predicate AllCovered(settings: Settings, actions: seq<Action>)
    requires Runs(settings, actions)
    decreases |actions|
  {
    actions == [] ||
    (var before, last := actions[..|actions| - 1], actions[|actions| - 1];
     AllCovered(settings, before) && CoveredAction(settings, RunSite(settings, before), last))
  }

  lemma EmptySiteOk(settings: Settings)
    ensures SiteOk(settings, EmptySite)
  {
    hide DbOk;
    EmptyDbOk(settings.lim);
  }

  lemma {:induction false} RunKeepsSite(settings: Settings, actions: seq<Action>)
    requires Runs(settings, actions) && settings.keep >= 1
    ensures SiteOk(settings, RunSite(settings, actions))
    decreases |actions|
  {
    hide SiteOk, Act, Allowed, Timely;
    if actions == [] {
      EmptySiteOk(settings);
    } else {
      var before := actions[..|actions| - 1];
      RunKeepsSite(settings, before);
      ActKeeps(settings, RunSite(settings, before), actions[|actions| - 1]);
    }
  }

  /**
   Simulation: in every run of a deployment, each conversation went through a
   run of the summary protocol from its start state to where it stands, and
   through a covered one if every turn was appended to a covering copy.
   */
  lemma {:induction false} RunSimulates(settings: Settings, actions: seq<Action>, scope: string)
    requires Runs(settings, actions) && settings.keep >= 1
    requires ScopeRow(RunSite(settings, actions).db, scope).Some?
    ensures Reaches(settings.keep, AllCovered(settings, actions), S.Start, View(RunSite(settings, actions), scope))
    decreases |actions|
  {
    hide SiteOk, Allowed, Timely, CoveredAction, Reaches, ScopeRow, View, DbAfter, MemoriesAfter, WorkersAfter;
    assert actions != [] by {
      NoRowAtFirst(scope);
    }
    var before, last := actions[..|actions| - 1], actions[|actions| - 1];
    var site := RunSite(settings, before);
    RunKeepsSite(settings, before);
    RowBefore(settings, site, last, scope);
    if ScopeRow(DbAfter(settings, site, last), scope).value.0 in site.db.conversations {
      RunSimulates(settings, before, scope);
      ActionSimulates(settings, site, last, scope);
      ReachesTransitive(settings.keep, AllCovered(settings, before), CoveredAction(settings, site, last), S.Start,
                        View(site, scope), View(RunSite(settings, actions), scope));
    } else {
      CreatedView(settings, site, last, scope);
      ReachesReflexive(settings.keep, AllCovered(settings, actions), S.Start);
    }
  }

  lemma NoRowAtFirst(scope: string)
    ensures ScopeRow(EmptySite.db, scope).None?
  {}

  /**
   In every state of the database that workers in any number of processes can
   produce, if every turn was appended to a copy that covered the turns before
   it: the summary of each conversation folds exactly the assistant sequences
   2, 4, .. up to its cursor, and every copy of it is honest and without a gap.
   Copies left from an earlier row under the same scope key may be anything.
   */
  lemma DatabaseIsHonest(settings: Settings, actions: seq<Action>, id: string)
    requires Runs(settings, actions) && AllCovered(settings, actions) && settings.keep >= 1
    requires id in RunSite(settings, actions).db.conversations
    ensures var site := RunSite(settings, actions);
            var c := site.db.conversations[id];
      && c.summaryThrough % 2 == 0 && 0 <= c.summaryThrough <= c.messageCount
      && |c.summary| == c.summaryThrough / 2
      && (forall i :: 0 <= i < |c.summary| ==> c.summary[i] == 2 * i + 2)
      && forall p :: p in site.memories && c.scopeKey in site.memories[p].items && (p, c.scopeKey) !in site.stale ==>
           var s := site.memories[p].items[c.scopeKey]; S.Honest(s.summary, s.through) && S.Contiguous(s.through, s.turns)
  {
    hide Runs, RunSite, AllCovered, Reaches, SiteOk, ScopeRow, S.Honest, S.Contiguous;
    var site := RunSite(settings, actions);
    var c := site.db.conversations[id];
    RunKeepsSite(settings, actions);
    DbOf(settings, site);
    RowOf(settings.lim, site.db, id);
    RunSimulates(settings, actions, c.scopeKey);
    ReachedIsHonest(settings.keep, View(site, c.scopeKey));
    forall p | p in site.memories && c.scopeKey in site.memories[p].items && (p, c.scopeKey) !in site.stale
      ensures var s := site.memories[p].items[c.scopeKey]; S.Honest(s.summary, s.through) && S.Contiguous(s.through, s.turns)
    {
      assert p in View(site, c.scopeKey).warm;
    }
  }

  /**
   Why a worker must not go on when its scope key is used again: a job cut from
   the earlier row's first turns passes the guard of the new row, wins its swap,
   and leaves a cursor beyond the new row's messages.
   */
  lemma LeftoverJobOverruns(settings: Settings, site: Site, w: nat, now: real)
    requires DbOk(settings.lim, site.db) && Allowed(site, Guard(w))
    requires var o := site.workers[w];
      && ScopeRow(site.db, o.scope).Some?
      && Project(ScopeRow(site.db, o.scope).value.1) == Durable(0, [], 0, 0)
      && S.JobFollows(o.task.job, 0)
    ensures var o, guarded := site.workers[w], Act(settings, site, Guard(w));
      && Allowed(guarded, SwapSummary(w, now))
      && var row := ScopeRow(Act(settings, guarded, SwapSummary(w, now)).db, o.scope);
         row.Some? && row.value.1.summaryThrough > row.value.1.messageCount == 0
  {
    hide DbOk, S.JobFollows, ScopeRow, MemoriesAfter, StaleAfter, LateAfter, Apply, SwapWins;
    var o, guarded := site.workers[w], Act(settings, site, Guard(w));
    JobGoesOn(o.task.job);
    assert guarded.db == site.db && guarded.workers[w].task.Guarded?;
    var task := guarded.workers[w].task;
    OwnSwap(settings.lim, site.db, o.scope, FallbackSummary(task.job), task.version, task.through, now);
  }

  lemma JobGoesOn(job: SummaryJob)
    requires S.JobFollows(job, 0)
    ensures ThroughSequence(job.toSummarize).Some? && ThroughSequence(job.toSummarize).value > 0
  {}

  /** The database of a deployment is one that some run of the history store reaches. */
  lemma {:induction false} DatabaseRuns(settings: Settings, actions: seq<Action>) returns (events: seq<Event>)
    requires Runs(settings, actions)
    ensures RunSite(settings, actions).db == Run(settings.lim, EmptyDb, events)
    decreases |actions|
  {
    hide Apply, Allowed, Timely, MemoriesAfter, WorkersAfter;
    if actions == [] {
      events := [];
    } else {
      var before, last := actions[..|actions| - 1], actions[|actions| - 1];
      events := DatabaseRuns(settings, before);
      var e := StepOf(RunSite(settings, before), last);
      if e.Some? {
        assert (events + [e.value])[..|events|] == events;
        events := events + [e.value];
      }
    }
  }
}
