/**
 A whole deployment: one conversation database, the in-process memory store of
 every worker process, and workers that stand between two of their calls.  Each
 action is one transaction or one memory call.
 */
module Deployment {
  import opened Wrappers
  import opened HistoryModel
  import opened HistorySpec
  import opened HistoryInvariant
  import opened HistoryEvolution
  import opened HistoryRuns
  import opened Paging
  import opened WarmMemory
  import opened WarmStates
  import opened Hydration
  import opened HydrationService
  import opened SummaryRefinement
  import opened SummaryBounds
  import opened SummaryPaths
  import opened Workers
  import OrderedDicts
  import WarmStore
  import S = SummarySystem

  /** `oversize` decides whether a warm state is too long and gets a summary job. */
  datatype Settings = Settings(lim: Limits, ttl: real, max: nat, keep: nat, oversize: WarmState -> bool)

  /** What a worker holds between two calls. */
  datatype Task =
    | Appending(sequence: int)
    | Cut(job: SummaryJob)
    | Guarded(job: SummaryJob, through: int, cursor: int, version: int)
    | Swapped(job: SummaryJob)
    | Paging(id: string, c: Conversation, consumed: seq<Message>, after: int)
    | Tail(summary: seq<int>, cursor: int, version: int, through: int, turns: seq<WarmTurn>, kbs: set<string>)
    | Installing(snapshot: Snapshot)

  datatype Worker = Worker(process: nat, scope: string, task: Task)

  /**
   `stale` and `late` are the copies (process and scope key) and the workers that
   were there when a new row was created under their scope key: they belong to
   an earlier row.
   */
  datatype Site = Site(
    db: Db,
    memories: map<nat, WarmStore.Store>,
    workers: map<nat, Worker>,
    stale: set<(nat, string)>,
    late: set<nat>)

  const EmptySite := Site(EmptyDb, map[], map[], {}, {})

  datatype Action =
    | Transact(step: Step, now: real)
    | Complete(w: nat, process: nat, req: CompleteRequest, now: real)
    | AppendTurn(w: nat, user: string, assistant: string, kbs: set<string>, now: real)
    | Guard(w: nat)
    | SwapSummary(w: nat, now: real)
    | ApplyJob(w: nat, now: real)
    | ReadRow(w: nat, process: nat, scope: string)
    | ReadPage(w: nat, limit: int)
    | SwapTail(w: nat, now: real)
    | Replace(w: nat, now: real)
    | Hydrate(w: nat, now: real)
    | Forget(process: nat, call: WarmCall)
    | Restart(process: nat)
    | Crash(w: nat)

  // ----- What an action does ---------------------------------------------------------------

  predicate Holds(site: Site, w: nat, task: Task -> bool) {
    w in site.workers && task(site.workers[w].task)
  }

  /** Fresh ids repeat neither a stored conversation nor one a worker still pages through. */
  predicate FreshId(site: Site, id: string) {
    && id !in site.db.conversations
    && forall w :: w in site.workers && site.workers[w].task.Paging? ==> site.workers[w].task.id != id
  }

  /** What a worker must hold; only the two summarizers write summaries, only workers add or apply turns. */
  predicate Allowed(site: Site, action: Action) {
    match action
    case Transact(step, _) => !step.DoSummary? && (step.DoBegin? ==> FreshId(site, step.newId))
    case Complete(w, _, req, _) => w !in site.workers && req.scopeKey != ""
    case AppendTurn(w, _, _, _, _) => Holds(site, w, (t: Task) => t.Appending?)
    case Guard(w) => Holds(site, w, (t: Task) => t.Cut?)
    case SwapSummary(w, _) => Holds(site, w, (t: Task) => t.Guarded?)
    case ApplyJob(w, _) => Holds(site, w, (t: Task) => t.Swapped?)
    case ReadRow(w, _, scope) => w !in site.workers && scope != ""
    case ReadPage(w, _) => Holds(site, w, (t: Task) => t.Paging?)
    case SwapTail(w, _) => Holds(site, w, (t: Task) => t.Tail?)
    case Replace(w, _) => Holds(site, w, (t: Task) => t.Installing?)
    case Hydrate(w, _) => Holds(site, w, (t: Task) => t.Installing?)
    case Forget(_, call) => call.CallClear? || call.CallPurge?
    case Restart(_) => true
    case Crash(_) => true
  }

  /** The transaction an action runs, if any. */
  function StepOf(site: Site, action: Action): Option<Event>
    requires Allowed(site, action)
  {
    match action
    case Transact(step, now) => Some(Event(step, now))
    case Complete(_, _, req, now) => Some(Event(DoComplete(req), now))
    case SwapSummary(w, now) =>
      var o := site.workers[w];
      Some(Event(DoSummary(o.scope, FallbackSummary(o.task.job), o.task.version, o.task.through), now))
    case SwapTail(w, now) =>
      var o := site.workers[w];
      if o.task.through <= o.task.cursor then None
      else Some(Event(DoSummary(o.scope, o.task.summary, o.task.version, o.task.through), now))
    case _ => None
  }

  /** The memory call an action makes, if any, and the process it makes it in. */
  function CallOf(site: Site, action: Action): Option<(nat, WarmCall)>
    requires Allowed(site, action)
  {
    match action
    case AppendTurn(w, user, assistant, kbs, now) =>
      var o := site.workers[w];
      Some((o.process, CallAppend(o.scope, WarmTurn(user, assistant, Some(o.task.sequence)), kbs, now)))
    case ApplyJob(w, now) =>
      var o := site.workers[w];
      Some((o.process, CallApply(o.scope, o.task.job, FallbackSummary(o.task.job), now)))
    case Replace(w, now) => var o := site.workers[w]; Some((o.process, CallReplace(o.scope, o.task.snapshot, now)))
    case Hydrate(w, now) => var o := site.workers[w]; Some((o.process, CallHydrate(o.scope, o.task.snapshot, now)))
    case Forget(process, call) => Some((process, call))
    case _ => None
  }

  function Memory(site: Site, process: nat): WarmStore.Store {
    if process in site.memories then site.memories[process] else OrderedDicts.Empty()
  }

  /** The next page, and after the last one the folded tail. */
  function PageTask(db: Db, task: Task, limit: int, keep: nat): Option<Task>
    requires task.Paging?
  {
    if task.id !in db.conversations then None
    else
      var page := PageAfter(db.conversations[task.id].messages, task.after, limit);
      var consumed, c := task.consumed + page.messages, task.c;
      if page.next.Some? then Some(Paging(task.id, c, consumed, page.next.value))
      else
        var f := Fold(Folding(c.summary, c.summaryThrough, [], None), consumed, keep);
        Some(Tail(f.summary, c.summaryThrough, c.summaryVersion, f.through, f.recent, DurableKnowledgeBases(c)))
  }

  function GuardTask(db: Db, scope: string, job: SummaryJob): Option<Task> {
    match ScopeRow(db, scope)
    case None => None
    case Some(row) =>
      if S.JobFollows(job, row.1.summaryThrough)
      then Some(Guarded(job, ThroughSequence(job.toSummarize).value, row.1.summaryThrough, row.1.summaryVersion))
      else None
  }

  predicate SwapWins(db: Db, scope: string, version: int, through: int) {
    && ScopeRow(db, scope).Some?
    && ScopeRow(db, scope).value.1.summaryVersion == version
    && through > ScopeRow(db, scope).value.1.summaryThrough
  }

  /** The worker an action moves, and where it stands afterwards; None when it is done. */
  ghost function TaskOf(settings: Settings, site: Site, action: Action): Option<Worker>
    requires Allowed(site, action) && !action.Transact? && !action.Forget? && !action.Restart?
  {
    match action
    case Complete(_, process, req, now) =>
      var tx := CompleteTurn(settings.lim, site.db, req, now);
      if tx.Commit? && tx.value.Saved? then Some(Worker(process, req.scopeKey, Appending(tx.value.assistantSequence)))
      else None
    case AppendTurn(w, user, assistant, kbs, now) =>
      var o := site.workers[w];
      var job := WarmStore.AppendJob(Memory(site, o.process), o.scope, WarmTurn(user, assistant, Some(o.task.sequence)),
                                     kbs, settings.ttl, settings.keep, settings.oversize, now);
      if job.Some? then Some(o.(task := Cut(job.value))) else None
    case Guard(w) =>
      var o := site.workers[w];
      var task := GuardTask(site.db, o.scope, o.task.job);
      if task.Some? then Some(o.(task := task.value)) else None
    case SwapSummary(w, _) =>
      var o := site.workers[w];
      if SwapWins(site.db, o.scope, o.task.version, o.task.through) then Some(o.(task := Swapped(o.task.job))) else None
    case ReadRow(_, process, scope) =>
      var row := ScopeRow(site.db, scope);
      if row.Some? then Some(Worker(process, scope, Paging(row.value.0, row.value.1, [], row.value.1.summaryThrough)))
      else None
    case ReadPage(w, limit) =>
      var o := site.workers[w];
      var task := PageTask(site.db, o.task, limit, settings.keep);
      if task.Some? then Some(o.(task := task.value)) else None
    case SwapTail(w, _) =>
      var o := site.workers[w];
      var Tail(summary, cursor, version, through, turns, kbs) := o.task;
      if through <= cursor then Some(o.(task := Installing(Snapshot(summary, through, turns, kbs, Some(version)))))
      else if SwapWins(site.db, o.scope, version, through) then
        Some(o.(task := Installing(Snapshot(summary, through, turns, kbs, Some(version + 1)))))
      else None
    case ApplyJob(_, _) => None
    case Replace(_, _) => None
    case Hydrate(_, _) => None
    case Crash(_) => None
  }

  ghost function DbAfter(settings: Settings, site: Site, action: Action): Db
    requires Allowed(site, action)
  {
    match StepOf(site, action)
    case None => site.db
    case Some(e) => Apply(settings.lim, site.db, e.step, e.now)
  }

  function MemoriesAfter(settings: Settings, site: Site, action: Action): map<nat, WarmStore.Store>
    requires Allowed(site, action)
  {
    if action.Restart? then site.memories - {action.process}
    else
      match CallOf(site, action)
      case None => site.memories
      case Some(call) =>
        site.memories[call.0 := AfterCall(settings.ttl, settings.max, Memory(site, call.0), call.1)]
  }

  ghost function WorkersAfter(settings: Settings, site: Site, action: Action): map<nat, Worker>
    requires Allowed(site, action)
  {
    if action.Transact? || action.Forget? || action.Restart? then site.workers
    else
      match TaskOf(settings, site, action)
      case None => site.workers - {action.w}
      case Some(o) => site.workers[action.w := o]
  }

  /** The scope key under which the action creates a row. */
  ghost function Created(settings: Settings, site: Site, action: Action): Option<string>
    requires Allowed(site, action)
  {
    if action.Transact? && action.step.DoBegin? && action.step.newId in DbAfter(settings, site, action).conversations
    then Some(action.step.req.scopeKey) else None
  }

  predicate About(call: WarmCall, scope: string) {
    !call.CallClear? && !call.CallPurge? && call.id == scope
  }

  /** A call makes a copy anew when there is no live one, or when it replaces the live one. */
  predicate MakesAnew(settings: Settings, d: WarmStore.Store, call: WarmCall, scope: string) {
    && About(call, scope)
    && var live := WarmStore.Purged(d, settings.ttl, call.now);
       scope !in live.items || (call.CallReplace? && !ReplaceRefused(OrderedDicts.Get(live, scope), call.snapshot))
  }

  /** The copy is still there, and not made anew. */
  predicate Remains(settings: Settings, site: Site, action: Action, p: nat, scope: string)
    requires Allowed(site, action)
  {
    var memories := MemoriesAfter(settings, site, action);
    && p in memories && scope in memories[p].items
    && match CallOf(site, action)
       case None => true
       case Some(call) => call.0 == p ==> !MakesAnew(settings, Memory(site, p), call.1, scope)
  }

  ghost function StaleAfter(settings: Settings, site: Site, action: Action): set<(nat, string)>
    requires Allowed(site, action)
  {
    set p, scope | p in site.memories && scope in site.memories[p].items
                   && ((p, scope) in site.stale || Created(settings, site, action) == Some(scope))
                   && Remains(settings, site, action, p, scope) :: (p, scope)
  }

  ghost function LateAfter(settings: Settings, site: Site, action: Action): set<nat>
    requires Allowed(site, action)
  {
    set w | w in site.workers && w in WorkersAfter(settings, site, action)
            && (w in site.late || Created(settings, site, action) == Some(site.workers[w].scope))
  }

  ghost function Act(settings: Settings, site: Site, action: Action): Site
    requires Allowed(site, action)
  {
    Site(DbAfter(settings, site, action), MemoriesAfter(settings, site, action), WorkersAfter(settings, site, action),
         StaleAfter(settings, site, action), LateAfter(settings, site, action))
  }

  // ----- One conversation of the deployment ---------------------------------------------------

  function Abstract(task: Task): S.Worker {
    match task
    case Appending(sequence) => S.Appending(sequence)
    case Cut(job) => S.Holding(job)
    case Guarded(job, through, cursor, version) => S.Checked(job, through, cursor, version)
    case Swapped(job) => S.Persisted(job)
    case Paging(_, c, _, _) => S.Reading(c.summary, c.summaryThrough, c.summaryVersion)
    case Tail(summary, cursor, version, through, turns, _) => S.Folded(summary, cursor, version, through, turns)
    case Installing(snapshot) => S.Replacing(snapshot)
  }

  /** The copy of a conversation in every process that has one, unless it belongs to an earlier row. */
  function Copies(memories: map<nat, WarmStore.Store>, stale: set<(nat, string)>, scope: string): map<nat, WarmState> {
    map p | p in memories && scope in memories[p].items && (p, scope) !in stale :: memories[p].items[scope]
  }

  /** The workers of a conversation, but for those of an earlier row. */
  function Tasks(workers: map<nat, Worker>, late: set<nat>, scope: string): map<nat, S.Worker> {
    map w | w in workers && workers[w].scope == scope && w !in late :: Abstract(workers[w].task)
  }

  function CopiesOf(site: Site, scope: string): map<nat, WarmState> {
    Copies(site.memories, site.stale, scope)
  }

  function TasksOf(site: Site, scope: string): map<nat, S.Worker> {
    Tasks(site.workers, site.late, scope)
  }

  function View(site: Site, scope: string): S.System
    requires ScopeRow(site.db, scope).Some?
  {
    S.System(Project(ScopeRow(site.db, scope).value.1), CopiesOf(site, scope), TasksOf(site, scope))
  }

  /** What changing one process's store, and which copies are stale there, does to the copies. */
  lemma CopiesUpdate(memories: map<nat, WarmStore.Store>, stale: set<(nat, string)>, stale': set<(nat, string)>, p: nat,
                     d: WarmStore.Store, scope: string)
    requires forall q :: q in memories && q != p && scope in memories[q].items ==>
               ((q, scope) in stale' <==> (q, scope) in stale)
    ensures var copies := Copies(memories, stale, scope);
      && Copies(memories[p := d], stale', scope)
           == (if scope in d.items && (p, scope) !in stale' then copies[p := d.items[scope]] else copies - {p})
      && Copies(memories - {p}, stale', scope) == copies - {p}
  {}

  lemma CopiesAt(site: Site, p: nat, scope: string)
    ensures var d := Memory(site, p);
      && (p in CopiesOf(site, scope) <==> scope in d.items && (p, scope) !in site.stale)
      && (p in CopiesOf(site, scope) ==> CopiesOf(site, scope)[p] == d.items[scope])
  {}

  /** Without a new row, copies elsewhere keep their standing, and so do the workers that stay. */
  lemma StaleElsewhere(settings: Settings, site: Site, action: Action, q: nat, scope: string)
    requires Allowed(site, action) && Created(settings, site, action) != Some(scope)
    requires q in site.memories && scope in site.memories[q].items
    requires action.Restart? ==> q != action.process
    requires CallOf(site, action).Some? ==> q != CallOf(site, action).value.0
    ensures (q, scope) in StaleAfter(settings, site, action) <==> (q, scope) in site.stale
  {
    hide AfterCall, MakesAnew, CallOf, DbAfter;
  }

  lemma TasksUpdate(workers: map<nat, Worker>, late: set<nat>, late': set<nat>, w: nat, o: Worker, scope: string)
    requires w in workers ==> workers[w].scope == o.scope
    requires w !in late' && (w in workers ==> w !in late)
    requires forall v :: v in workers && v != w && workers[v].scope == scope ==> (v in late' <==> v in late)
    ensures Tasks(workers[w := o], late', scope)
         == if o.scope == scope then Tasks(workers, late, scope)[w := Abstract(o.task)] else Tasks(workers, late, scope)
  {
    hide Abstract;
  }

  lemma TasksDrop(workers: map<nat, Worker>, late: set<nat>, late': set<nat>, w: nat, scope: string)
    requires forall v :: v in workers && v != w && workers[v].scope == scope ==> (v in late' <==> v in late)
    ensures Tasks(workers - {w}, late', scope) == Tasks(workers, late, scope) - {w}
    ensures (w in workers ==> workers[w].scope != scope || w in late) ==>
              Tasks(workers - {w}, late', scope) == Tasks(workers, late, scope)
    ensures w in Tasks(workers, late, scope) <==> w in workers && workers[w].scope == scope && w !in late
  {
    hide Abstract;
  }

  /** The workers of a conversation after an action of a worker that is not late. */
  lemma TasksAfter(settings: Settings, site: Site, action: Action, scope: string)
    requires Allowed(site, action) && !action.Transact? && !action.Forget? && !action.Restart?
    requires action.w in site.workers ==> action.w !in site.late
    ensures var o, tasks := TaskOf(settings, site, action), TasksOf(site, scope);
      && (action.w in tasks <==> action.w in site.workers && site.workers[action.w].scope == scope)
      && TasksOf(Act(settings, site, action), scope)
           == if o.Some? && o.value.scope == scope then tasks[action.w := Abstract(o.value.task)]
              else if o.Some? then tasks else tasks - {action.w}
  {
    hide Tasks, Abstract, CompleteTurn, WarmStore.AppendJob, GuardTask, PageTask, ScopeRow, DbAfter, MemoriesAfter,
         StaleAfter;
    var o, late' := TaskOf(settings, site, action), LateAfter(settings, site, action);
    TasksDrop(site.workers, site.late, late', action.w, scope);
    if o.Some? {
      TasksUpdate(site.workers, site.late, late', action.w, o.value, scope);
    }
  }
}
