/**
 The resumable job that deletes one knowledge base: ordered destructive steps
 over the catalog, settings, secrets, vectors, files, caches, conversations,
 volatile state and API keys.  It may stop after any single step; running it
 again must end in the same state.
 */
module KnowledgeBaseDeletion {
  import opened Wrappers
  import opened Artifacts
  import opened HistoryModel
  import opened HistorySpec
  import opened WarmMemory
  import WarmStore

  // ----- The world the job works on --------------------------------------------------

  datatype DataSource = DataSource(knowledgeBase: string, secretRefs: set<string>)

  datatype ApiKey = ApiKey(knowledgeBases: seq<string>, scopes: set<string>, enabled: bool)

  datatype Counters = Counters(
    collections: int,
    conversations: int,
    chunks: int,
    files: int,
    sources: int,
    secrets: int,
    keysUpdated: int,
    keysDisabled: int)

  datatype JobStatus = Running | Completed | Failed

  datatype Job = Job(status: JobStatus, active: bool, processed: int, counters: Counters)

  /** `indexes` maps a data folder to the chunk counts of its file index. */
  datatype World = World(
    catalog: map<string, string>,
    sources: seq<DataSource>,
    secrets: set<string>,
    collections: set<string>,
    indexes: map<string, seq<int>>,
    folders: set<string>,
    cached: set<(string, string)>,
    db: Db,
    warm: map<string, WarmState>,
    pending: set<(string, string, string)>,
    uploads: set<string>,
    pictures: set<string>,
    runs: set<string>,
    jobs: map<string, string>,
    apiKeys: map<string, ApiKey>,
    job: Job)

  datatype Target = Target(
    workspace: string,
    kb: string,
    collection: string,
    dataFolder: string,
    uploadFolder: string)

  const DEFAULT_KNOWLEDGE_BASE_ID := "default"
  const API_SCOPES_REQUIRING_KB := {"query", "ingest", "agent_manage", "history_read", "history_manage"}

  // ----- What each store forgets --------------------------------------------------------

  function SourceKnowledgeBase(s: DataSource): string {
    if s.knowledgeBase == "" then DEFAULT_KNOWLEDGE_BASE_ID else s.knowledgeBase
  }

  function KeptSources(sources: seq<DataSource>, kb: string): seq<DataSource> {
    if sources == [] then []
    else
      KeptSources(sources[..|sources| - 1], kb)
      + if SourceKnowledgeBase(sources[|sources| - 1]) == kb then [] else [sources[|sources| - 1]]
  }

  function RefsOf(sources: seq<DataSource>, kb: string): set<string> {
    set s, ref | s in sources && SourceKnowledgeBase(s) == kb && ref in s.secretRefs && ref != "" :: ref
  }

  function SecretOwner(t: Target): string {
    t.workspace + ":" + t.kb
  }

  function OwnedSecrets(secrets: set<string>, t: Target): set<string> {
    set ref | ref in secrets && SecretOwner(t) + ":" <= ref
  }

  function ScopePrefix(t: Target): string {
    t.workspace + ":kb:" + t.kb + ":"
  }

  /** scope_keys_by_knowledge_base */
  function ScopesUsing(db: Db, kb: string): set<string> {
    set id | id in UsersOf(db, kb) :: db.conversations[id].scopeKey
  }

  function WarmUsers(warm: map<string, WarmState>, t: Target): set<string> {
    set id | id in warm && WarmStore.UsesKnowledgeBase(id, warm[id], t.workspace, t.kb)
  }

  function PendingUsers(pending: set<(string, string, string)>, t: Target): set<(string, string, string)> {
    set p | p in pending && ScopePrefix(t) <= p.0
  }

  function PendingOf(pending: set<(string, string, string)>, scopes: set<string>): set<(string, string, string)> {
    set p | p in pending && p.0 in scopes
  }

  function RemoveId(ids: seq<string>, id: string): (rest: seq<string>)
    ensures id !in rest && (id !in ids ==> rest == ids)
  {
    if ids == [] then []
    else RemoveId(ids[..|ids| - 1], id) + if ids[|ids| - 1] == id then [] else [ids[|ids| - 1]]
  }

  predicate Disables(key: ApiKey, kb: string) {
    var scopes := if key.scopes == {} then {"query"} else key.scopes;
    && kb in key.knowledgeBases
    && RemoveId(key.knowledgeBases, kb) == []
    && (API_SCOPES_REQUIRING_KB * scopes != {} || "kb_manage" !in scopes)
  }

  function Revoked(key: ApiKey, kb: string): ApiKey {
    if kb !in key.knowledgeBases then key
    else key.(knowledgeBases := RemoveId(key.knowledgeBases, kb), enabled := key.enabled && !Disables(key, kb))
  }

  function RevokeAll(keys: map<string, ApiKey>, kb: string): map<string, ApiKey> {
    map k | k in keys :: Revoked(keys[k], kb)
  }

  /** The artifact plan a deletion at this point would use. */
  function PlanNow(db: Db, kb: string): DeletionPlan {
    DeleteByKnowledgeBase(db, kb).value.1
  }

  function Removable(plan: DeletionPlan): References {
    if plan.safe then plan.exclusive else NoReferences
  }

  // ----- The state every complete run ends in -----------------------------------------------

  const NoJob := Job(Completed, false, 0, Counters(0, 0, 0, 0, 0, 0, 0, 0))

  /** Everything but the job record itself and the secrets, which depend on where a run stopped. */
  function Core(w: World): World {
    w.(job := NoJob, secrets := {})
  }

  /** The secrets one run leaves that is not interrupted. */
  function FinalSecrets(t: Target, w: World): set<string> {
    w.secrets - RefsOf(w.sources, t.kb) - OwnedSecrets(w.secrets, t)
  }

  function FinalDb(db: Db, kb: string): Db {
    Drop(db, UsersOf(db, kb)).(outbox := db.outbox - {KnowledgeBaseKey(kb)})
  }

  function Final(t: Target, w: World): World {
    var refs, scopes := Removable(PlanNow(w.db, t.kb)), ScopesUsing(w.db, t.kb);
    World(
      w.catalog - {t.kb},
      KeptSources(w.sources, t.kb),
      {},
      w.collections - {t.collection},
      w.indexes - {t.dataFolder},
      w.folders - {t.uploadFolder},
      (set e | e in w.cached && e.1 != t.collection),
      FinalDb(w.db, t.kb),
      w.warm - WarmUsers(w.warm, t) - scopes,
      w.pending - PendingUsers(w.pending, t) - PendingOf(w.pending, scopes),
      (set n | n in w.uploads && !NamesUpload(refs, n)),
      (set n | n in w.pictures && !NamesPicture(refs, n)),
      (set n | n in w.runs && !NamesRun(refs, n)),
      (map j | j in w.jobs && w.jobs[j] != t.kb :: w.jobs[j]),
      RevokeAll(w.apiKeys, t.kb),
      NoJob)
  }

  // ----- Invariants ------------------------------------------------------------------------

  predicate SettingsGone(t: Target, w: World) {
    NoSources(w.sources, t.kb) && OwnedSecrets(w.secrets, t) == {}
  }

  predicate FilesGone(t: Target, w: World) {
    t.collection !in w.collections && t.dataFolder !in w.indexes && t.uploadFolder !in w.folders
  }

  /** No warm or staged state of any conversation that uses the knowledge base. */
  predicate VolatileGone(t: Target, w: World) {
    && (forall e :: e in w.cached ==> e.1 != t.collection)
    && WarmUsers(w.warm, t) == {}
    && PendingUsers(w.pending, t) == {}
    && (forall s :: s in ScopesUsing(w.db, t.kb) ==> s !in w.warm)
    && PendingOf(w.pending, ScopesUsing(w.db, t.kb)) == {}
  }

  predicate HistoryGone(t: Target, w: World) {
    UsersOf(w.db, t.kb) == {} && KnowledgeBaseKey(t.kb) !in w.db.outbox
  }

  predicate JobsGone(t: Target, w: World) {
    forall j :: j in w.jobs ==> w.jobs[j] != t.kb
  }

  predicate CleanedUp(t: Target, w: World) {
    SettingsGone(t, w) && FilesGone(t, w) && VolatileGone(t, w) && HistoryGone(t, w) && JobsGone(t, w)
  }

  /** Every stored secret of the knowledge base's sources is under its own prefix. */
  predicate StoredUnderPrefix(t: Target, w: World) {
    forall ref :: ref in RefsOf(w.sources, t.kb) && ref in w.secrets ==> SecretOwner(t) + ":" <= ref
  }

  /**
   A missing catalog record while the job runs means the cleanup checkpoint was
   passed, and past it nothing but the API keys and the catalog is left.
   */
  predicate Resumable(t: Target, w: World) {
    && (w.job.status == Running && t.kb !in w.catalog ==> w.job.processed >= 5)
    && (w.job.processed >= 5 ==> CleanedUp(t, w))
    && (KnowledgeBaseKey(t.kb) in w.db.outbox ==> UsersOf(w.db, t.kb) == {})
  }

  // ----- Progress ------------------------------------------------------------------------------

  predicate AtMost(a: Counters, b: Counters) {
    forall name :: Read(a, name) <= Read(b, name)
  }

  /** Counters and `processed` never decrease. */
  predicate Monotone(a: Job, b: Job) {
    a.processed <= b.processed && AtMost(a.counters, b.counters)
  }

  /** Durable rows only disappear, with their volatile state gone first; others are untouched. */
  predicate NoOrphans(t: Target, before: World, after: World) {
    && (forall id :: id in after.db.conversations ==>
          id in before.db.conversations && after.db.conversations[id] == before.db.conversations[id])
    && (forall id :: id in before.db.conversations && id !in after.db.conversations ==>
          && id in UsersOf(before.db, t.kb)
          && before.db.conversations[id].scopeKey !in after.warm
          && PendingOf(after.pending, {before.db.conversations[id].scopeKey}) == {})
    && (forall s :: s in after.warm ==> s in before.warm && after.warm[s] == before.warm[s])
    && after.pending <= before.pending
  }

  function Max(a: int, b: int): int {
    if a < b then b else a
  }

  function NonnegativeInt(value: int): nat {
    if value < 0 then 0 else value
  }

  function Retain(previous: int, observed: int): nat {
    Max(NonnegativeInt(previous), NonnegativeInt(observed))
  }

  function Add(previous: int, added: int): nat {
    NonnegativeInt(previous) + NonnegativeInt(added)
  }

  datatype Counter = Collections | Conversations | Chunks | Files | Sources | Secrets | KeysUpdated | KeysDisabled

  function Read(c: Counters, name: Counter): int {
    match name
    case Collections => c.collections
    case Conversations => c.conversations
    case Chunks => c.chunks
    case Files => c.files
    case Sources => c.sources
    case Secrets => c.secrets
    case KeysUpdated => c.keysUpdated
    case KeysDisabled => c.keysDisabled
  }

  function Write(c: Counters, name: Counter, value: int): Counters {
    match name
    case Collections => c.(collections := value)
    case Conversations => c.(conversations := value)
    case Chunks => c.(chunks := value)
    case Files => c.(files := value)
    case Sources => c.(sources := value)
    case Secrets => c.(secrets := value)
    case KeysUpdated => c.(keysUpdated := value)
    case KeysDisabled => c.(keysDisabled := value)
  }

  predicate Nonnegative(c: Counters) {
    forall name :: Read(c, name) >= 0
  }

  /** retain_result_count and add_result_count: whatever is observed, no counter goes down. */
  function RetainCount(c: Counters, name: Counter, observed: int): (r: Counters)
    ensures Nonnegative(c) ==> AtMost(c, r) && Nonnegative(r)
  {
    Write(c, name, Retain(Read(c, name), observed))
  }

  function AddCount(c: Counters, name: Counter, added: int): (r: Counters)
    ensures Nonnegative(c) ==> AtMost(c, r) && Nonnegative(r)
  {
    Write(c, name, Add(Read(c, name), added))
  }

  lemma AtMostTransitive(a: Counters, b: Counters, c: Counters)
    requires AtMost(a, b) && AtMost(b, c)
    ensures AtMost(a, c)
  {}

  /** The counters a run starts with: those stored, with garbage below zero cleared. */
  function Restored(c: Counters): (r: Counters)
    ensures AtMost(c, r) && Nonnegative(r)
  {
    Counters(NonnegativeInt(c.collections), NonnegativeInt(c.conversations), NonnegativeInt(c.chunks),
             NonnegativeInt(c.files), NonnegativeInt(c.sources), NonnegativeInt(c.secrets),
             NonnegativeInt(c.keysUpdated), NonnegativeInt(c.keysDisabled))
  }

  function SumChunks(entries: seq<int>): nat {
    if entries == [] then 0 else SumChunks(entries[..|entries| - 1]) + NonnegativeInt(entries[|entries| - 1])
  }

  // ----- Every single step continues towards the same final state ----------------------------

  /** Only secrets under the owner's prefix, or named, may go. */
  ghost predicate SecretsShrink(t: Target, before: World, after: World, named: set<string>) {
    && after.secrets <= before.secrets
    && before.secrets - named - OwnedSecrets(before.secrets, t) <= after.secrets
    && RefsOf(after.sources, t.kb) <= RefsOf(before.sources, t.kb)
  }

  ghost predicate ContinuesBut(t: Target, before: World, after: World, named: set<string>) {
    && Resumable(t, after)
    && Final(t, after) == Final(t, before)
    && Monotone(before.job, after.job)
    && NoOrphans(t, before, after)
    && SecretsShrink(t, before, after, named)
  }

  ghost predicate Continues(t: Target, before: World, after: World) {
    ContinuesBut(t, before, after, RefsOf(before.sources, t.kb))
  }

  lemma ContinuesReflexive(t: Target, w: World)
    requires Resumable(t, w)
    ensures Continues(t, w, w) && forall named :: ContinuesBut(t, w, w, named)
  {
    hide Resumable, Final;
  }

  lemma ContinuesTransitive(t: Target, a: World, b: World, c: World)
    requires Continues(t, a, b) && Continues(t, b, c)
    ensures Continues(t, a, c)
  {
    hide ContinuesBut;
    assert RefsOf(b.sources, t.kb) <= RefsOf(a.sources, t.kb) by {
      RefsShrink(t, a, b, RefsOf(a.sources, t.kb));
    }
    ContinuesButTransitive(t, a, b, c, RefsOf(a.sources, t.kb), RefsOf(b.sources, t.kb));
  }

  lemma RefsShrink(t: Target, a: World, b: World, named: set<string>)
    requires ContinuesBut(t, a, b, named)
    ensures RefsOf(b.sources, t.kb) <= RefsOf(a.sources, t.kb)
  {}

  lemma ContinuesButTransitive(t: Target, a: World, b: World, c: World, named: set<string>, also: set<string>)
    requires ContinuesBut(t, a, b, named) && ContinuesBut(t, b, c, also) && also <= named
    ensures ContinuesBut(t, a, c, named)
  {
    hide Resumable, Final, UsersOf, NoOrphans, SecretsShrink, AtMost;
    AtMostTransitive(a.job.counters, b.job.counters, c.job.counters);
    NoOrphansTransitive(t, a, b, c);
    SecretsShrinkTransitive(t, a, b, c, named, also);
  }

  lemma SecretsShrinkTransitive(t: Target, a: World, b: World, c: World, named: set<string>, also: set<string>)
    requires SecretsShrink(t, a, b, named) && SecretsShrink(t, b, c, also) && also <= named
    ensures SecretsShrink(t, a, c, named)
  {
    hide RefsOf;
  }

  lemma NoOrphansTransitive(t: Target, a: World, b: World, c: World)
    requires NoOrphans(t, a, b) && NoOrphans(t, b, c)
    ensures NoOrphans(t, a, c)
  {
    hide UsersOf;
    UsersShrink(t, a, b);
  }

  lemma UsersShrink(t: Target, before: World, after: World)
    requires NoOrphans(t, before, after)
    ensures UsersOf(after.db, t.kb) <= UsersOf(before.db, t.kb)
  {}

  predicate NoSources(sources: seq<DataSource>, kb: string) {
    forall i :: 0 <= i < |sources| ==> SourceKnowledgeBase(sources[i]) != kb
  }

  lemma {:induction false} KeptHasNone(sources: seq<DataSource>, kb: string)
    ensures NoSources(KeptSources(sources, kb), kb)
    ensures forall s :: s in KeptSources(sources, kb) ==> s in sources
  {
    if sources != [] {
      KeptHasNone(sources[..|sources| - 1], kb);
    }
  }

  lemma {:induction false} KeptAll(sources: seq<DataSource>, kb: string)
    requires NoSources(sources, kb)
    ensures KeptSources(sources, kb) == sources
  {
    if sources != [] {
      KeptAll(sources[..|sources| - 1], kb);
    }
  }

  lemma NoRefsLeft(sources: seq<DataSource>, kb: string)
    requires NoSources(sources, kb)
    ensures RefsOf(sources, kb) == {}
  {}

  lemma SettingsStep(t: Target, w: World, sources: seq<DataSource>)
    requires sources == w.sources || sources == KeptSources(w.sources, t.kb)
    ensures KeptSources(sources, t.kb) == KeptSources(w.sources, t.kb)
    ensures RefsOf(sources, t.kb) <= RefsOf(w.sources, t.kb)
    ensures NoSources(w.sources, t.kb) ==> NoSources(sources, t.kb)
  {
    KeptHasNone(w.sources, t.kb);
    KeptAll(KeptSources(w.sources, t.kb), t.kb);
    hide KeptSources, NoSources;
  }

  lemma RevokedTwice(keys: map<string, ApiKey>, kb: string)
    ensures RevokeAll(RevokeAll(keys, kb), kb) == RevokeAll(keys, kb)
  {
    hide RemoveId, Disables;
  }

  /** Steps outside the conversation database and its volatile state. */
  ghost predicate PlainStep(t: Target, w: World, w': World) {
    && w' == w.(catalog := w'.catalog, sources := w'.sources, collections := w'.collections, indexes := w'.indexes,
                folders := w'.folders, jobs := w'.jobs, apiKeys := w'.apiKeys)
    && w'.catalog - {t.kb} == w.catalog - {t.kb}
    && (t.kb in w.catalog && t.kb !in w'.catalog ==> w.job.processed >= 5)
    && (w'.sources == w.sources || w'.sources == KeptSources(w.sources, t.kb))
    && (w'.collections == w.collections || w'.collections == w.collections - {t.collection})
    && (w'.indexes == w.indexes || w'.indexes == w.indexes - {t.dataFolder})
    && (w'.folders == w.folders || w'.folders == w.folders - {t.uploadFolder})
    && (w'.jobs == w.jobs || w'.jobs == map j | j in w.jobs && w.jobs[j] != t.kb :: w.jobs[j])
    && (w'.apiKeys == w.apiKeys || w'.apiKeys == RevokeAll(w.apiKeys, t.kb))
  }

  lemma PlainStepFinal(t: Target, w: World, w': World)
    requires PlainStep(t, w, w')
    ensures Final(t, w') == Final(t, w)
  {
    SettingsStep(t, w, w'.sources);
    RevokedTwice(w.apiKeys, t.kb);
    hide PlanNow, FinalDb, UsersOf, WarmUsers, PendingUsers, PendingOf, NamesUpload, NamesPicture, NamesRun,
         KeptSources, RevokeAll, ScopesUsing, Removable, OwnedSecrets;
  }

  lemma PlainStepContinues(t: Target, w: World, w': World)
    requires Resumable(t, w) && PlainStep(t, w, w')
    ensures Continues(t, w, w')
  {
    PlainStepFinal(t, w, w');
    SettingsStep(t, w, w'.sources);
    hide Final, UsersOf, WarmUsers, PendingUsers, PendingOf, KeptSources, RevokeAll, ScopesUsing, RefsOf, NoSources,
         OwnedSecrets;
  }

  lemma CacheStepContinues(t: Target, w: World)
    requires Resumable(t, w)
    ensures Continues(t, w, w.(cached := set e | e in w.cached && e.1 != t.collection))
  {
    hide UsersOf, PlanNow, FinalDb, WarmUsers, PendingUsers, PendingOf, KeptSources, RevokeAll, ScopesUsing, RefsOf,
         NoSources, OwnedSecrets, NamesUpload, NamesPicture, NamesRun, Removable;
  }

  /** Clearing warm or staged state that the deletion is to clear anyway. */
  lemma VolatileStepContinues(t: Target, w: World, ids: set<string>, staged: set<(string, string, string)>)
    requires Resumable(t, w)
    requires ids <= WarmUsers(w.warm, t) + ScopesUsing(w.db, t.kb)
    requires staged <= PendingUsers(w.pending, t) + PendingOf(w.pending, ScopesUsing(w.db, t.kb))
    ensures Continues(t, w, w.(warm := w.warm - ids, pending := w.pending - staged))
  {
    var w', scopes := w.(warm := w.warm - ids, pending := w.pending - staged), ScopesUsing(w.db, t.kb);
    hide UsersOf, PlanNow, FinalDb, KeptSources, RevokeAll, ScopesUsing, RefsOf, NoSources, OwnedSecrets, NamesUpload,
         NamesPicture, NamesRun, Removable;
    assert WarmUsers(w'.warm, t) == WarmUsers(w.warm, t) - ids;
    assert PendingUsers(w'.pending, t) == PendingUsers(w.pending, t) - staged;
    assert PendingOf(w'.pending, scopes) == PendingOf(w.pending, scopes) - staged;
    hide WarmUsers, PendingUsers, PendingOf;
    assert w'.warm - WarmUsers(w'.warm, t) - scopes == w.warm - WarmUsers(w.warm, t) - scopes;
    assert w'.pending - PendingUsers(w'.pending, t) - PendingOf(w'.pending, scopes)
        == w.pending - PendingUsers(w.pending, t) - PendingOf(w.pending, scopes);
  }

  /** The durable cascade: who used the knowledge base is gone, and the plan survives in the outbox. */
  lemma CascadeOutcome(t: Target, db: Db)
    requires KnowledgeBaseKey(t.kb) in db.outbox ==> UsersOf(db, t.kb) == {}
    ensures var db' := DeleteByKnowledgeBase(db, t.kb).db;
      && UsersOf(db', t.kb) == {}
      && FinalDb(db', t.kb) == FinalDb(db, t.kb)
      && PlanNow(db', t.kb) == PlanNow(db, t.kb)
      && db'.conversations == db.conversations - UsersOf(db, t.kb)
  {
    if !CleanupPlan(db, UsersOf(db, t.kb)).safe {
      assert CleanupPlan(db, UsersOf(db, t.kb)) == UnsafePlan;
    }
    hide CleanupPlan;
    var db', key := DeleteByKnowledgeBase(db, t.kb).db, KnowledgeBaseKey(t.kb);
    if UsersOf(db, t.kb) != {} {
      assert db'.conversations == db.conversations - UsersOf(db, t.kb);
      assert UsersOf(db', t.kb) == {};
      assert db'.outbox - {key} == db.outbox - {key};
      assert Drop(db', {}) == db';
    } else {
      assert db.conversations - {} == db.conversations;
    }
  }

  /** Because volatile state went first, no deleted conversation leaves any behind. */
  lemma CascadeLeavesNoOrphans(t: Target, w: World)
    requires VolatileGone(t, w)
    requires KnowledgeBaseKey(t.kb) in w.db.outbox ==> UsersOf(w.db, t.kb) == {}
    ensures NoOrphans(t, w, w.(db := DeleteByKnowledgeBase(w.db, t.kb).db))
  {
    CascadeOutcome(t, w.db);
    hide DeleteByKnowledgeBase, PlanNow, FinalDb, WarmUsers, PendingUsers, PendingOf;
    forall id | id in UsersOf(w.db, t.kb)
      ensures w.db.conversations[id].scopeKey !in w.warm
      ensures PendingOf(w.pending, {w.db.conversations[id].scopeKey}) == {}
    {
      assert w.db.conversations[id].scopeKey in ScopesUsing(w.db, t.kb);
      PendingOfMember(w.pending, ScopesUsing(w.db, t.kb), w.db.conversations[id].scopeKey);
    }
  }

  lemma CascadeKeepsFinal(t: Target, w: World)
    requires VolatileGone(t, w)
    requires KnowledgeBaseKey(t.kb) in w.db.outbox ==> UsersOf(w.db, t.kb) == {}
    ensures var w' := w.(db := DeleteByKnowledgeBase(w.db, t.kb).db);
            Final(t, w') == Final(t, w) && VolatileGone(t, w')
  {
    CascadeOutcome(t, w.db);
    NoOneLeft(w.pending);
    var w' := w.(db := DeleteByKnowledgeBase(w.db, t.kb).db);
    assert ScopesUsing(w'.db, t.kb) == {};
    hide DeleteByKnowledgeBase, PlanNow, FinalDb, WarmUsers, PendingUsers, PendingOf, KeptSources, RevokeAll,
         OwnedSecrets, NamesUpload, NamesPicture, NamesRun, Removable, ScopesUsing, UsersOf;
    assert w.warm - {} - ScopesUsing(w.db, t.kb) == w.warm - {} - {};
  }

  lemma HistoryStepContinues(t: Target, w: World)
    requires Resumable(t, w) && VolatileGone(t, w)
    ensures Continues(t, w, w.(db := DeleteByKnowledgeBase(w.db, t.kb).db))
    ensures VolatileGone(t, w.(db := DeleteByKnowledgeBase(w.db, t.kb).db))
  {
    CascadeLeavesNoOrphans(t, w);
    CascadeKeepsFinal(t, w);
    CascadeOutcome(t, w.db);
    if UsersOf(w.db, t.kb) == {} {
      NothingChangesWithoutUsers(t, w.db);
    }
    hide DeleteByKnowledgeBase, PlanNow, FinalDb, WarmUsers, PendingUsers, KeptSources, RevokeAll, RefsOf, Final,
         NoOrphans, NoSources, OwnedSecrets, UsersOf, VolatileGone;
  }

  lemma NoOneLeft(pending: set<(string, string, string)>)
    ensures PendingOf(pending, {}) == {}
  {}

  lemma PendingOfMember(pending: set<(string, string, string)>, scopes: set<string>, scope: string)
    requires PendingOf(pending, scopes) == {} && scope in scopes
    ensures PendingOf(pending, {scope}) == {}
  {
    assert PendingOf(pending, {scope}) <= PendingOf(pending, scopes);
  }

  /** A rerun of the cascade finds nobody and, without an outbox entry, changes nothing. */
  lemma NothingChangesWithoutUsers(t: Target, db: Db)
    requires UsersOf(db, t.kb) == {}
    ensures DeleteByKnowledgeBase(db, t.kb).db == db
  {}

  /** Artifacts named by the surviving plan, all of them or the first few. */
  lemma ArtifactStepContinues(t: Target, w: World, uploads: set<string>, pictures: set<string>, runs: set<string>)
    requires Resumable(t, w)
    requires var refs := Removable(PlanNow(w.db, t.kb));
      && (forall n :: n in uploads ==> NamesUpload(refs, n))
      && (forall n :: n in pictures ==> NamesPicture(refs, n))
      && (forall n :: n in runs ==> NamesRun(refs, n))
    ensures Continues(t, w, w.(uploads := w.uploads - uploads, pictures := w.pictures - pictures, runs := w.runs - runs))
  {
    hide UsersOf, PlanNow, FinalDb, WarmUsers, PendingUsers, PendingOf, KeptSources, RevokeAll, ScopesUsing, RefsOf,
         NoSources, OwnedSecrets, NamesUpload, NamesPicture, NamesRun, Removable;
  }

  predicate ArtifactsGone(t: Target, w: World) {
    var refs := Removable(PlanNow(w.db, t.kb));
    && (forall n :: n in w.uploads ==> !NamesUpload(refs, n))
    && (forall n :: n in w.pictures ==> !NamesPicture(refs, n))
    && (forall n :: n in w.runs ==> !NamesRun(refs, n))
  }

  /** Acknowledging a plan changes nothing the final state of the database or the artifacts depends on. */
  lemma AcknowledgedDb(t: Target, db: Db)
    requires UsersOf(db, t.kb) == {}
    ensures var db' := db.(outbox := db.outbox - {KnowledgeBaseKey(t.kb)});
      && UsersOf(db', t.kb) == {} && ScopesUsing(db', t.kb) == {} == ScopesUsing(db, t.kb)
      && FinalDb(db', t.kb) == FinalDb(db, t.kb)
      && Removable(PlanNow(db', t.kb)) == NoReferences
  {
    var db', key := db.(outbox := db.outbox - {KnowledgeBaseKey(t.kb)}), KnowledgeBaseKey(t.kb);
    assert db'.outbox - {key} == db.outbox - {key};
    assert PlanNow(db', t.kb) == UnsafePlan;
    assert db.conversations - {} == db.conversations;
  }

  lemma AcknowledgeStepContinues(t: Target, w: World)
    requires Resumable(t, w) && UsersOf(w.db, t.kb) == {} && ArtifactsGone(t, w)
    ensures Continues(t, w, w.(db := w.db.(outbox := w.db.outbox - {KnowledgeBaseKey(t.kb)})))
  {
    hide WarmUsers, PendingUsers, PendingOf, KeptSources, RevokeAll, ScopesUsing, RefsOf, NoSources, OwnedSecrets,
         NamesUpload, NamesPicture, NamesRun, PlanNow, UsersOf, FinalDb, Removable;
    AcknowledgedDb(t, w.db);
    NothingNamedIn(w.uploads, w.pictures, w.runs);
  }

  lemma JobStepContinues(t: Target, w: World, job: Job)
    requires Resumable(t, w) && Monotone(w.job, job)
    requires job.status == Running ==> w.job.status == Running
    requires job.processed >= 5 ==> CleanedUp(t, w)
    ensures Continues(t, w, w.(job := job))
  {
    hide UsersOf, PlanNow, FinalDb, WarmUsers, PendingUsers, PendingOf, KeptSources, RevokeAll, ScopesUsing, RefsOf,
         NoSources, OwnedSecrets, NamesUpload, NamesPicture, NamesRun, Removable, AtMost;
  }

  lemma SourcesStep(t: Target, w: World)
    requires Resumable(t, w)
    ensures Continues(t, w, w.(sources := KeptSources(w.sources, t.kb)))
    ensures NoSources(KeptSources(w.sources, t.kb), t.kb)
    ensures RefsOf(KeptSources(w.sources, t.kb), t.kb) == {}
  {
    KeptHasNone(w.sources, t.kb);
    PlainStepContinues(t, w, w.(sources := KeptSources(w.sources, t.kb)));
    NoRefsLeft(KeptSources(w.sources, t.kb), t.kb);
    hide Continues, KeptSources, NoSources, RefsOf, CleanedUp;
  }

  lemma SecretsStep(t: Target, w: World, gone: set<string>, named: set<string>)
    requires Resumable(t, w) && gone <= OwnedSecrets(w.secrets, t) + named
    ensures ContinuesBut(t, w, w.(secrets := w.secrets - gone), named)
  {
    hide UsersOf, PlanNow, FinalDb, WarmUsers, PendingUsers, PendingOf, KeptSources, RevokeAll, ScopesUsing, RefsOf,
         NoSources, NamesUpload, NamesPicture, NamesRun, Removable;
  }

  lemma OwnerStep(t: Target, w: World, named: set<string>)
    requires Resumable(t, w)
    ensures ContinuesBut(t, w, w.(secrets := w.secrets - OwnedSecrets(w.secrets, t)), named)
    ensures Continues(t, w, w.(secrets := w.secrets - OwnedSecrets(w.secrets, t)))
    ensures OwnedSecrets(w.secrets - OwnedSecrets(w.secrets, t), t) == {}
  {
    SecretsStep(t, w, OwnedSecrets(w.secrets, t), named);
    SecretsStep(t, w, OwnedSecrets(w.secrets, t), RefsOf(w.sources, t.kb));
    hide ContinuesBut;
  }

  lemma NoneOwnedLeft(t: Target, before: set<string>, after: set<string>)
    requires after <= before && OwnedSecrets(after, t) == {}
    ensures after !! OwnedSecrets(before, t)
  {
    forall ref | ref in after
      ensures ref !in OwnedSecrets(before, t)
    {
      assert ref !in OwnedSecrets(after, t);
    }
  }

  /** An uninterrupted run's secrets: nothing named or owned is left, and nothing else went. */
  lemma SecretsAreFinal(t: Target, before: World, after: World)
    requires Continues(t, before, after) && SettingsGone(t, after)
    requires after.secrets !! RefsOf(before.sources, t.kb)
    ensures after.secrets == FinalSecrets(t, before)
  {
    hide RefsOf, Resumable, Final, NoOrphans, Monotone, NoSources;
    NoneOwnedLeft(t, before.secrets, after.secrets);
    hide OwnedSecrets;
  }

  /** Wherever the runs stopped, the secrets are between those of one uninterrupted run and all but the owner's. */
  lemma SecretsBetween(t: Target, before: World, after: World)
    requires Continues(t, before, after) && SettingsGone(t, after)
    ensures FinalSecrets(t, before) <= after.secrets <= before.secrets - OwnedSecrets(before.secrets, t)
    ensures StoredUnderPrefix(t, before) ==> after.secrets == FinalSecrets(t, before)
  {
    hide RefsOf, Resumable, Final, NoOrphans, Monotone, NoSources;
    NoneOwnedLeft(t, before.secrets, after.secrets);
  }

  lemma CollectionStep(t: Target, w: World)
    requires Resumable(t, w)
    ensures Continues(t, w, w.(collections := w.collections - {t.collection}))
  {
    PlainStepContinues(t, w, w.(collections := w.collections - {t.collection}));
  }

  lemma IndexStep(t: Target, w: World)
    requires Resumable(t, w)
    ensures Continues(t, w, w.(indexes := w.indexes - {t.dataFolder}))
  {
    PlainStepContinues(t, w, w.(indexes := w.indexes - {t.dataFolder}));
  }

  lemma FolderStep(t: Target, w: World)
    requires Resumable(t, w)
    ensures Continues(t, w, w.(folders := w.folders - {t.uploadFolder}))
  {
    PlainStepContinues(t, w, w.(folders := w.folders - {t.uploadFolder}));
  }

  lemma JobsStep(t: Target, w: World)
    requires Resumable(t, w)
    ensures Continues(t, w, w.(jobs := map j | j in w.jobs && w.jobs[j] != t.kb :: w.jobs[j]))
    ensures var w' := w.(jobs := map j | j in w.jobs && w.jobs[j] != t.kb :: w.jobs[j]);
      SettingsGone(t, w) && FilesGone(t, w) && VolatileGone(t, w) && HistoryGone(t, w) ==> CleanedUp(t, w')
  {
    PlainStepContinues(t, w, w.(jobs := map j | j in w.jobs && w.jobs[j] != t.kb :: w.jobs[j]));
  }

  lemma KeysStep(t: Target, w: World)
    requires Resumable(t, w)
    ensures Continues(t, w, w.(apiKeys := RevokeAll(w.apiKeys, t.kb)))
    ensures RevokeAll(RevokeAll(w.apiKeys, t.kb), t.kb) == RevokeAll(w.apiKeys, t.kb)
  {
    RevokedTwice(w.apiKeys, t.kb);
    PlainStepContinues(t, w, w.(apiKeys := RevokeAll(w.apiKeys, t.kb)));
  }

  lemma CatalogStep(t: Target, w: World)
    requires Resumable(t, w) && w.job.processed >= 5
    ensures Continues(t, w, w.(catalog := w.catalog - {t.kb}))
  {
    PlainStepContinues(t, w, w.(catalog := w.catalog - {t.kb}));
  }

  lemma MarkStep(t: Target, w: World, status: string)
    requires Resumable(t, w) && t.kb in w.catalog
    ensures Continues(t, w, w.(catalog := w.catalog[t.kb := status]))
  {
    PlainStepContinues(t, w, w.(catalog := w.catalog[t.kb := status]));
  }

  lemma ScopeStep(t: Target, w: World, scope: string)
    requires Resumable(t, w) && scope in ScopesUsing(w.db, t.kb)
    ensures Continues(t, w, w.(warm := w.warm - {scope}))
    ensures Continues(t, w, w.(pending := w.pending - PendingOf(w.pending, {scope})))
  {
    assert w.pending - {} == w.pending && w.warm - {} == w.warm;
    VolatileStepContinues(t, w, {scope}, {});
    VolatileStepContinues(t, w, {}, PendingOf(w.pending, {scope}));
  }

  lemma PrefixStep(t: Target, w: World)
    requires Resumable(t, w)
    ensures Continues(t, w, w.(pending := w.pending - PendingUsers(w.pending, t)))
    ensures PendingUsers(w.pending - PendingUsers(w.pending, t), t) == {}
  {
    assert w.warm - {} == w.warm;
    VolatileStepContinues(t, w, {}, PendingUsers(w.pending, t));
  }

  lemma WarmUsersStep(t: Target, w: World)
    requires Resumable(t, w)
    ensures Continues(t, w, w.(warm := w.warm - WarmUsers(w.warm, t)))
    ensures WarmUsers(w.warm - WarmUsers(w.warm, t), t) == {}
  {
    assert w.pending - {} == w.pending;
    VolatileStepContinues(t, w, WarmUsers(w.warm, t), {});
  }

  /** After the cascade the plan in hand is the one a rerun would find. */
  lemma CascadePlan(t: Target, w: World)
    requires Resumable(t, w)
    ensures var deletion := DeleteByKnowledgeBase(w.db, t.kb);
      && PlanNow(deletion.db, t.kb) == deletion.value.1
      && (deletion.value.1.safe ==> Removable(PlanNow(deletion.db, t.kb)) == deletion.value.1.exclusive)
      && UsersOf(deletion.db, t.kb) == {}
  {
    hide CleanedUp;
    CascadeOutcome(t, w.db);
  }

  lemma VolatileIgnoresTheRest(t: Target, w: World, w': World)
    requires VolatileGone(t, w)
    requires w'.cached == w.cached && w'.warm == w.warm && w'.pending == w.pending && w'.db == w.db
    ensures VolatileGone(t, w')
  {}

  lemma AcknowledgedHistory(t: Target, w: World)
    requires VolatileGone(t, w) && UsersOf(w.db, t.kb) == {}
    ensures var w' := w.(db := w.db.(outbox := w.db.outbox - {KnowledgeBaseKey(t.kb)}));
            HistoryGone(t, w') && VolatileGone(t, w')
  {
    hide WarmUsers, PendingUsers, PendingOf;
    var w' := w.(db := w.db.(outbox := w.db.outbox - {KnowledgeBaseKey(t.kb)}));
    assert UsersOf(w'.db, t.kb) == {};
    assert ScopesUsing(w'.db, t.kb) == ScopesUsing(w.db, t.kb);
  }

  lemma UnsafeHasNoEntry(t: Target, w: World)
    requires UsersOf(w.db, t.kb) == {} && !PlanNow(w.db, t.kb).safe
    ensures HistoryGone(t, w)
  {}

  lemma CleanedIgnoresJob(t: Target, w: World, w': World)
    requires CleanedUp(t, w) && w' == w.(job := w'.job)
    ensures CleanedUp(t, w')
  {}

  /** Settings and files are not touched again. */
  lemma GoneStaysGone(t: Target, w: World, w': World)
    requires SettingsGone(t, w) && FilesGone(t, w)
    requires w'.sources == w.sources && w'.secrets == w.secrets && w'.collections == w.collections
             && w'.indexes == w.indexes && w'.folders == w.folders
    ensures SettingsGone(t, w') && FilesGone(t, w')
  {}

  lemma FinalOf(t: Target, before: World, after: World)
    requires Continues(t, before, after)
    ensures Final(t, after) == Final(t, before)
  {}

  lemma CleanedPastFive(t: Target, w: World)
    requires Resumable(t, w) && w.job.processed >= 5
    ensures CleanedUp(t, w)
  {}

  lemma FinishStep(t: Target, w: World)
    requires Resumable(t, w)
    ensures var w' := w.(job := w.job.(status := Completed, active := false));
            Continues(t, w, w') && Resumable(t, w') && (w.job.processed >= 5 ==> CleanedUp(t, w'))
  {
    JobStepContinues(t, w, w.job.(status := Completed, active := false));
  }

  /** With nothing left to remove, the world is the final one. */
  lemma DoneIsFinal(t: Target, w: World)
    requires CleanedUp(t, w) && t.kb !in w.catalog && RevokeAll(w.apiKeys, t.kb) == w.apiKeys
    ensures Core(w) == Final(t, w)
  {
    hide SettingsGone, VolatileGone, HistoryGone, PlanNow, FinalDb, ScopesUsing, NamesUpload, NamesPicture, NamesRun,
         RevokeAll, KeptSources, OwnedSecrets, WarmUsers, PendingUsers, PendingOf, Removable;
    DoneSettings(t, w);
    DoneVolatile(t, w);
    DoneHistory(t, w);
    NothingNamedIn(w.uploads, w.pictures, w.runs);
    assert w.warm - {} - {} == w.warm && w.pending - {} - {} == w.pending;
  }

  lemma DoneSettings(t: Target, w: World)
    requires SettingsGone(t, w)
    ensures KeptSources(w.sources, t.kb) == w.sources
  {
    KeptAll(w.sources, t.kb);
  }

  lemma DoneVolatile(t: Target, w: World)
    requires VolatileGone(t, w) && HistoryGone(t, w)
    ensures WarmUsers(w.warm, t) == {} && PendingUsers(w.pending, t) == {} && ScopesUsing(w.db, t.kb) == {}
    ensures PendingOf(w.pending, ScopesUsing(w.db, t.kb)) == {}
    ensures (set e | e in w.cached && e.1 != t.collection) == w.cached
  {
    hide WarmUsers, PendingUsers, PendingOf;
  }

  lemma DoneHistory(t: Target, w: World)
    requires HistoryGone(t, w)
    ensures FinalDb(w.db, t.kb) == w.db && Removable(PlanNow(w.db, t.kb)) == NoReferences
  {
    NothingToDrop(w.db, t.kb);
  }

  lemma NothingNamedIn(uploads: set<string>, pictures: set<string>, runs: set<string>)
    ensures (set n | n in uploads && !NamesUpload(NoReferences, n)) == uploads
    ensures (set n | n in pictures && !NamesPicture(NoReferences, n)) == pictures
    ensures (set n | n in runs && !NamesRun(NoReferences, n)) == runs
  {
    forall n
      ensures !NamesUpload(NoReferences, n) && !NamesPicture(NoReferences, n) && !NamesRun(NoReferences, n)
    {
      NothingNamed(n);
    }
    hide NamesUpload, NamesPicture, NamesRun;
  }

  lemma NothingToDrop(db: Db, kb: string)
    requires UsersOf(db, kb) == {} && KnowledgeBaseKey(kb) !in db.outbox
    ensures FinalDb(db, kb) == db && Removable(PlanNow(db, kb)) == NoReferences
  {
    assert db.conversations - {} == db.conversations;
    assert db.outbox - {KnowledgeBaseKey(kb)} == db.outbox;
  }

  lemma CleanedSettings(t: Target, w: World)
    requires CleanedUp(t, w)
    ensures SettingsGone(t, w)
  {}

  lemma CleanedHasNoRefs(t: Target, w: World)
    requires CleanedUp(t, w)
    ensures RefsOf(w.sources, t.kb) == {}
  {
    NoRefsLeft(w.sources, t.kb);
  }

  lemma FinishedSecrets(t: Target, before: World, between: World, after: World)
    requires between.secrets !! RefsOf(before.sources, t.kb) && Continues(t, between, after)
    requires Continues(t, before, after) && CleanedUp(t, after)
    ensures after.secrets == FinalSecrets(t, before)
  {
    hide Resumable, Final, NoOrphans, Monotone, FinalSecrets;
    CleanedSettings(t, after);
    SecretsAreFinal(t, before, after);
  }

  /** A job that is no longer running is left alone. */
  lemma CompletedStays(t: Target, w: World, w': World)
    requires w.job.status == Completed && w == w'
    ensures w'.job.status == Completed && Core(w') == Core(w)
  {}

  lemma NoRefsRemain(t: Target, w: World)
    ensures RefsOf(KeptSources(w.sources, t.kb), t.kb) == {}
  {
    KeptHasNone(w.sources, t.kb);
    NoRefsLeft(KeptSources(w.sources, t.kb), t.kb);
  }

  lemma SecretsDiffer(t: Target, w: World, secrets: set<string>)
    requires secrets == w.secrets - OwnedSecrets(w.secrets, t)
    ensures secrets == FinalSecrets(t, w) <==> StoredUnderPrefix(t, w)
  {
    hide RefsOf;
    if secrets == FinalSecrets(t, w) {
      forall ref | ref in RefsOf(w.sources, t.kb) && ref in w.secrets
        ensures SecretOwner(t) + ":" <= ref
      {
        assert ref !in FinalSecrets(t, w);
      }
    }
  }

  /** What a run leaves that is killed right after it took the data sources out of the settings. */
  function SourcesRemoved(t: Target, w: World): World {
    w.(catalog := w.catalog[t.kb := "deleting"], sources := KeptSources(w.sources, t.kb))
  }

  // ----- What the counters end up at --------------------------------------------------------------

  lemma AddNothing(c: Counters, name: Counter)
    requires Nonnegative(c)
    ensures AddCount(c, name, 0) == c
  {
    assert Read(c, name) >= 0;
  }

  lemma AddTwice(c: Counters, name: Counter, a: int, b: int)
    requires Nonnegative(c) && a >= 0 && b >= 0
    ensures AddCount(AddCount(c, name, a), name, b) == AddCount(c, name, a + b)
  {
    assert Read(c, name) >= 0;
  }

  lemma AddedTwice(c: Counters, a: set<string>, b: set<string>, left: set<string>)
    requires Nonnegative(c) && left <= b <= a
    ensures AddCount(AddCount(c, Secrets, |a| - |b|), Secrets, |b| - |left|) == AddCount(c, Secrets, |a| - |left|)
  {
    FewerSecrets(a, b);
    FewerSecrets(b, left);
    AddTwice(c, Secrets, |a| - |b|, |b| - |left|);
  }

  lemma FewerSecrets(secrets: set<string>, left: set<string>)
    requires left <= secrets
    ensures |left| <= |secrets|
  {
    assert secrets == left + (secrets - left);
  }

  lemma OwnedCount(secrets: set<string>, t: Target)
    ensures |OwnedSecrets(secrets, t)| == |secrets| - |secrets - OwnedSecrets(secrets, t)|
  {
    assert secrets == OwnedSecrets(secrets, t) + (secrets - OwnedSecrets(secrets, t));
  }

  lemma CascadeCount(db: Db, kb: string)
    ensures DeleteByKnowledgeBase(db, kb).value.0 == |UsersOf(db, kb)|
  {
    hide CleanupPlan;
  }

  /** Chunk counts add up over the index, with anything below zero left out. */
  lemma {:induction false} ChunksAddUp(a: seq<int>, b: seq<int>)
    ensures SumChunks(a + b) == SumChunks(a) + SumChunks(b)
    ensures |a| == 1 ==> SumChunks(a) == if a[0] > 0 then a[0] else 0
  {
    if |a| == 1 {
      assert a[..0] == [];
    }
    if b == [] {
      assert a + b == a;
    } else {
      ChunksAddUp(a, b[..|b| - 1]);
      assert (a + b)[..|a + b| - 1] == a + b[..|b| - 1];
    }
  }

  /** The counters after the settings, secrets and files are gone, `secrets` of them removed. */
  ghost function SettingsTally(t: Target, w: World, c: Counters, secrets: int): Counters {
    var sourced := RetainCount(c, Sources, |w.sources| - |KeptSources(w.sources, t.kb)|);
    RetainCount(AddCount(sourced, Secrets, secrets), Collections, if t.collection in w.collections then 1 else 0)
  }

  ghost function CleanupTally(t: Target, w: World, c: Counters, secrets: int): Counters {
    var indexed := if t.dataFolder in w.indexes
                   then RetainCount(RetainCount(c, Files, |w.indexes[t.dataFolder]|), Chunks,
                                    SumChunks(w.indexes[t.dataFolder]))
                   else c;
    RetainCount(SettingsTally(t, w, indexed, secrets), Conversations, |UsersOf(w.db, t.kb)|)
  }

  ghost function KeysTally(t: Target, w: World, c: Counters): Counters {
    RetainCount(RetainCount(c, KeysUpdated, |set k | k in w.apiKeys && t.kb in w.apiKeys[k].knowledgeBases|), KeysDisabled,
                |set k | k in w.apiKeys && Disables(w.apiKeys[k], t.kb)|)
  }

  /** The higher of what was stored, if it made sense, and what is observed. */
  function AtLeast(stored: int, observed: int): int {
    if stored < observed then observed else stored
  }

  /**
   The counters of a finished run: everything that was there for the run to
   remove, unless an earlier run had counted more; the secrets add up.
   */
  ghost predicate ReportsRemoved(t: Target, w: World, c: Counters) {
    var was, chunks := w.job.counters, if t.dataFolder in w.indexes then w.indexes[t.dataFolder] else [];
    && c.collections == AtLeast(AtLeast(was.collections, 0), if t.collection in w.collections then 1 else 0)
    && c.conversations == AtLeast(was.conversations, |UsersOf(w.db, t.kb)|)
    && c.files == AtLeast(was.files, |chunks|)
    && c.chunks == AtLeast(was.chunks, SumChunks(chunks))
    && c.sources == AtLeast(AtLeast(was.sources, 0), |w.sources| - |KeptSources(w.sources, t.kb)|)
    && c.secrets == AtLeast(was.secrets, 0) + |w.secrets| - |FinalSecrets(t, w)|
    && c.keysUpdated == AtLeast(was.keysUpdated, |set k | k in w.apiKeys && t.kb in w.apiKeys[k].knowledgeBases|)
    && c.keysDisabled == AtLeast(was.keysDisabled, |set k | k in w.apiKeys && Disables(w.apiKeys[k], t.kb)|)
  }

  lemma KeysTallyOf(t: Target, w: World, w': World, c: Counters)
    requires w'.apiKeys == w.apiKeys
    ensures KeysTally(t, w', c) == KeysTally(t, w, c)
  {
    hide RetainCount, Disables;
  }

  lemma RetainIs(c: Counters, observed: int)
    ensures RetainCount(c, Collections, observed) == c.(collections := AtLeast(AtLeast(c.collections, 0), observed))
    ensures RetainCount(c, Conversations, observed) == c.(conversations := AtLeast(AtLeast(c.conversations, 0), observed))
    ensures RetainCount(c, Chunks, observed) == c.(chunks := AtLeast(AtLeast(c.chunks, 0), observed))
    ensures RetainCount(c, Files, observed) == c.(files := AtLeast(AtLeast(c.files, 0), observed))
    ensures RetainCount(c, Sources, observed) == c.(sources := AtLeast(AtLeast(c.sources, 0), observed))
    ensures RetainCount(c, KeysUpdated, observed) == c.(keysUpdated := AtLeast(AtLeast(c.keysUpdated, 0), observed))
    ensures RetainCount(c, KeysDisabled, observed) == c.(keysDisabled := AtLeast(AtLeast(c.keysDisabled, 0), observed))
    ensures observed >= 0 ==> AddCount(c, Secrets, observed) == c.(secrets := AtLeast(c.secrets, 0) + observed)
  {}

  /** The tally of settings and files as one record. */
  lemma SettingsTallyIs(t: Target, w: World, c: Counters, secrets: int)
    requires secrets >= 0
    ensures SettingsTally(t, w, c, secrets) ==
              c.(sources := AtLeast(AtLeast(c.sources, 0), |w.sources| - |KeptSources(w.sources, t.kb)|),
                 secrets := AtLeast(c.secrets, 0) + secrets,
                 collections := AtLeast(AtLeast(c.collections, 0), if t.collection in w.collections then 1 else 0))
  {
    hide RetainCount, AddCount, KeptSources;
    var removed := |w.sources| - |KeptSources(w.sources, t.kb)|;
    var sourced := RetainCount(c, Sources, removed);
    RetainIs(c, removed);
    RetainIs(sourced, secrets);
    RetainIs(AddCount(sourced, Secrets, secrets), if t.collection in w.collections then 1 else 0);
  }

  lemma CleanupTallyIs(t: Target, w: World, c: Counters, secrets: int)
    requires secrets >= 0
    ensures var files := if t.dataFolder in w.indexes then |w.indexes[t.dataFolder]| else 0;
            var chunks := if t.dataFolder in w.indexes then SumChunks(w.indexes[t.dataFolder]) else 0;
            var d := c.(files := if t.dataFolder in w.indexes then AtLeast(AtLeast(c.files, 0), files) else c.files,
                        chunks := if t.dataFolder in w.indexes then AtLeast(AtLeast(c.chunks, 0), chunks) else c.chunks);
            var e := SettingsTally(t, w, d, secrets);
            CleanupTally(t, w, c, secrets) == e.(conversations := AtLeast(AtLeast(e.conversations, 0), |UsersOf(w.db, t.kb)|))
  {
    hide RetainCount, SettingsTally, UsersOf, SumChunks;
    if t.dataFolder in w.indexes {
      RetainIs(c, |w.indexes[t.dataFolder]|);
      RetainIs(RetainCount(c, Files, |w.indexes[t.dataFolder]|), SumChunks(w.indexes[t.dataFolder]));
    }
    var d := if t.dataFolder in w.indexes
             then RetainCount(RetainCount(c, Files, |w.indexes[t.dataFolder]|), Chunks,
                              SumChunks(w.indexes[t.dataFolder]))
             else c;
    RetainIs(SettingsTally(t, w, d, secrets), |UsersOf(w.db, t.kb)|);
  }

  lemma KeysTallyIs(t: Target, w: World, c: Counters)
    ensures KeysTally(t, w, c) ==
              c.(keysUpdated := AtLeast(AtLeast(c.keysUpdated, 0),
                                        |set k | k in w.apiKeys && t.kb in w.apiKeys[k].knowledgeBases|),
                 keysDisabled := AtLeast(AtLeast(c.keysDisabled, 0), |set k | k in w.apiKeys && Disables(w.apiKeys[k], t.kb)|))
  {
    hide RetainCount, Disables;
    var updated := |set k | k in w.apiKeys && t.kb in w.apiKeys[k].knowledgeBases|;
    RetainIs(c, updated);
    RetainIs(RetainCount(c, KeysUpdated, updated), |set k | k in w.apiKeys && Disables(w.apiKeys[k], t.kb)|);
  }

  lemma TallyReports(t: Target, w: World, c: Counters, secrets: int)
    requires c == CleanupTally(t, w, Restored(w.job.counters), secrets)
    requires secrets == |w.secrets| - |FinalSecrets(t, w)|
    ensures ReportsRemoved(t, w, KeysTally(t, w, c))
  {
    FewerFinalSecrets(t, w);
    hide UsersOf, KeptSources, FinalSecrets, Disables, RetainCount, AddCount, SettingsTally, CleanupTally, KeysTally, SumChunks;
    var c0, indexed := Restored(w.job.counters), t.dataFolder in w.indexes;
    var d := c0.(files := if indexed then AtLeast(AtLeast(c0.files, 0), |w.indexes[t.dataFolder]|) else c0.files,
                 chunks := if indexed then AtLeast(AtLeast(c0.chunks, 0), SumChunks(w.indexes[t.dataFolder])) else c0.chunks);
    CleanupTallyIs(t, w, c0, secrets);
    SettingsTallyIs(t, w, d, secrets);
    KeysTallyIs(t, w, c);
    ChunksOfNone();
  }

  lemma ChunksOfNone()
    ensures SumChunks([]) == 0
  {}

  lemma FewerFinalSecrets(t: Target, w: World)
    ensures |FinalSecrets(t, w)| <= |w.secrets|
  {
    FewerSecrets(w.secrets, FinalSecrets(t, w));
  }

  /** Past the cleanup only secrets can be left to count. */
  lemma NothingElseToCount(t: Target, w: World, c: Counters, secrets: int)
    requires CleanedUp(t, w) && Nonnegative(c) && secrets >= 0
    ensures CleanupTally(t, w, c, secrets) == AddCount(c, Secrets, secrets)
  {
    KeptAll(w.sources, t.kb);
    hide KeptSources, UsersOf, VolatileGone, JobsGone;
    assert |w.sources| - |KeptSources(w.sources, t.kb)| == 0;
    var added := AddCount(c, Secrets, secrets);
    forall name ensures Read(c, name) >= 0 && Read(added, name) >= 0 {}
  }

  // ----- The job -------------------------------------------------------------------------------

  class DeleteJob {
    const t: Target
    var w: World
    /** The local counters and the progress read when this run started. */
    var result: Counters
    var started: int
    /** How many more steps an interruptible run takes before it is killed. */
    var lifetime: nat

    constructor (t: Target, w: World)
      requires Resumable(t, w)
      ensures this.t == t && this.w == w
    {
      this.t, this.w := t, w;
      result, started, lifetime := w.job.counters, 0, 0;
    }

    ghost predicate Ready()
      reads this`w, this`result, this`started
    {
      Resumable(t, w) && AtMost(w.job.counters, result) && Nonnegative(result)
      && 0 <= started <= Max(w.job.processed, 0)
    }

    /** A crash, a kill or a lost lease may stop an interruptible run after any step. */
    method Interrupted(interruptible: bool) returns (stop: bool)
      modifies this`lifetime
      ensures stop == (interruptible && old(lifetime) == 0)
      ensures lifetime == if old(lifetime) == 0 then 0 else old(lifetime) - 1
    {
      stop := interruptible && lifetime == 0;
      if lifetime > 0 {
        lifetime := lifetime - 1;
      }
    }

    /** update_job(processed=max(processed, checkpoint), result=result) */
    method UpdateJob(checkpoint: int, save: bool)
      requires Ready() && w.job.processed <= Max(started, checkpoint)
      requires checkpoint >= 5 ==> CleanedUp(t, w)
      modifies this`w
      ensures Ready() && Continues(t, old(w), w)
      ensures w == old(w).(job := w.job) && w.job.status == old(w).job.status && w.job.active == old(w).job.active
      ensures w.job.processed == Max(started, checkpoint)
      ensures w.job.counters == if save then result else old(w).job.counters
    {
      var job := w.job.(processed := Max(started, checkpoint), counters := if save then result else w.job.counters);
      JobStepContinues(t, w, job);
      hide RefsOf, Resumable, Final, NoOrphans;
      w := w.(job := job);
    }

    /** update_job(result=result) */
    method SaveResult()
      requires Ready()
      modifies this`w
      ensures Ready() && Continues(t, old(w), w)
      ensures w == old(w).(job := old(w).job.(counters := result))
    {
      JobStepContinues(t, w, w.job.(counters := result));
      hide RefsOf, Resumable, Final, NoOrphans;
      w := w.(job := w.job.(counters := result));
    }

    /** What every stage keeps, wherever it stops. */
    ghost predicate Kept(before: World, checkpoint: int)
      reads this`w, this`result, this`started
    {
      KeptBut(before, checkpoint, RefsOf(before.sources, t.kb))
    }

    ghost predicate KeptBut(before: World, checkpoint: int, named: set<string>)
      reads this`w, this`result, this`started
    {
      && Ready() && ContinuesBut(t, before, w, named)
      && w.job.status == before.job.status && w.job.active == before.job.active
      && w.job.processed <= Max(started, checkpoint)
    }

    /** Takes one step that is known to continue. */
    method Take(next: World, ghost named: set<string> := RefsOf(w.sources, t.kb))
      requires Ready() && ContinuesBut(t, w, next, named) && next.job == w.job
      modifies this`w
      ensures w == next && Ready()
    {
      hide RefsOf, Resumable, Final, NoOrphans;
      w := next;
    }

    method RetainResult(name: Counter, value: int)
      requires Ready()
      modifies this`result
      ensures Ready() && result == RetainCount(old(result), name, value)
    {
      hide RefsOf, Resumable, RetainCount;
      AtMostTransitive(w.job.counters, result, RetainCount(result, name, value));
      hide AtMost, Nonnegative;
      result := RetainCount(result, name, value);
    }

    method AddResult(name: Counter, value: int)
      requires Ready()
      modifies this`result
      ensures Ready() && result == AddCount(old(result), name, value)
    {
      hide RefsOf, Resumable, AddCount;
      AtMostTransitive(w.job.counters, result, AddCount(result, name, value));
      hide AtMost, Nonnegative;
      result := AddCount(result, name, value);
    }

    /** Data sources leave the settings; their secret references are remembered in this run only. */
    method RemoveSources(interruptible: bool) returns (stopped: bool, refs: set<string>)
      requires Ready() && w.job.processed <= Max(started, 1)
      modifies this`w, this`result, this`lifetime
      ensures Kept(old(w), 1) && (!interruptible ==> !stopped)
      ensures w == old(w).(sources := w.sources, job := w.job)
      ensures NoSources(w.sources, t.kb) && RefsOf(w.sources, t.kb) == {}
      ensures refs == RefsOf(old(w).sources, t.kb)
      ensures w.sources == KeptSources(old(w).sources, t.kb)
      ensures !stopped ==> result == RetainCount(old(result), Sources, |old(w).sources| - |w.sources|)
      ensures interruptible && old(lifetime) == 0 ==>
        stopped && w == old(w).(sources := KeptSources(old(w).sources, t.kb))
    {
      hide Resumable, Final, NoOrphans, CleanedUp, RefsOf, KeptSources, NoSources, ContinuesBut, AtMost, Nonnegative,
           RetainCount;
      ghost var w0 := w;
      var kept := KeptSources(w.sources, t.kb);
      refs := RefsOf(w.sources, t.kb);
      var removed := |w.sources| - |kept|;
      SourcesStep(t, w);
      Take(w.(sources := kept));
      stopped := Interrupted(interruptible);
      if stopped {
        return;
      }
      RetainResult(Sources, removed);
      ghost var w1 := w;
      SaveResult();
      ContinuesTransitive(t, w0, w1, w);
      stopped := Interrupted(interruptible);
    }

    /** The remembered references one by one, then everything under the owner's prefix. */
    method RemoveSecrets(interruptible: bool, removed: set<string>) returns (stopped: bool)
      requires Ready() && w.job.processed <= Max(started, 1) && RefsOf(w.sources, t.kb) == {}
      modifies this`w, this`result, this`lifetime
      ensures KeptBut(old(w), 2, removed) && (!interruptible ==> !stopped)
      ensures w == old(w).(secrets := w.secrets, job := w.job)
      ensures !stopped ==> OwnedSecrets(w.secrets, t) == {} && w.secrets !! removed
      ensures !stopped ==> result == AddCount(old(result), Secrets, |old(w).secrets| - |w.secrets|)
    {
      hide Resumable, Final, NoOrphans, CleanedUp, OwnedSecrets, ContinuesBut, AtMost, Nonnegative, RefsOf, AddCount;
      ghost var w0, r0 := w, result;
      stopped := RemoveNamed(interruptible, removed);
      if stopped {
        return;
      }
      ghost var w1 := w;
      stopped := RemoveOwned(interruptible, 2);
      AddedTwice(r0, w0.secrets, w1.secrets, w.secrets);
      ContinuesButTransitive(t, w0, w1, w, removed, {});
    }

    method RemoveNamed(interruptible: bool, removed: set<string>) returns (stopped: bool)
      requires Ready() && w.job.processed <= Max(started, 1) && RefsOf(w.sources, t.kb) == {}
      modifies this`w, this`result, this`lifetime
      ensures KeptBut(old(w), 1, removed) && (!interruptible ==> !stopped)
      ensures w == old(w).(secrets := w.secrets, job := w.job) && w.secrets <= old(w).secrets
      ensures !stopped ==> w.secrets !! removed
      ensures !stopped ==> result == AddCount(old(result), Secrets, |old(w).secrets| - |w.secrets|)
    {
      hide Resumable, Final, NoOrphans, CleanedUp, OwnedSecrets, ContinuesBut, AtMost, Nonnegative, RefsOf, AddCount;
      ghost var w0, r0 := w, result;
      var refs := removed;
      ContinuesReflexive(t, w);
      AddNothing(result, Secrets);
      stopped := false;
      while refs != {}
        invariant KeptBut(w0, 1, removed) && refs <= removed && !stopped
        invariant w == w0.(secrets := w.secrets, job := w.job)
        invariant w.secrets !! removed - refs
        invariant w.secrets <= w0.secrets && result == AddCount(r0, Secrets, |w0.secrets| - |w.secrets|)
        decreases refs
      {
        var ref :| ref in refs;
        refs := refs - {ref};
        ghost var w1 := w;
        stopped := RemoveSecret(interruptible, ref);
        AddedTwice(r0, w0.secrets, w1.secrets, w.secrets);
        ContinuesButTransitive(t, w0, w1, w, removed, {ref});
        if stopped {
          return;
        }
      }
    }

    /** Every stored secret under the owner's prefix, then the checkpoint. */
    method RemoveOwned(interruptible: bool, checkpoint: int) returns (stopped: bool)
      requires Ready() && w.job.processed <= Max(started, checkpoint) && RefsOf(w.sources, t.kb) == {}
      requires checkpoint >= 5 ==> w.job.processed >= 5
      modifies this`w, this`result, this`lifetime
      ensures KeptBut(old(w), checkpoint, {}) && (!interruptible ==> !stopped)
      ensures w == old(w).(secrets := old(w).secrets - OwnedSecrets(old(w).secrets, t), job := w.job)
      ensures OwnedSecrets(w.secrets, t) == {} && w.job.processed >= old(w).job.processed
      ensures result == AddCount(old(result), Secrets, |old(w).secrets| - |w.secrets|)
    {
      hide RefsOf, Resumable, Final, NoOrphans, CleanedUp, OwnedSecrets, ContinuesBut, AtMost, Nonnegative, AddCount;
      ghost var w0 := w;
      OwnerStep(t, w, {});
      OwnedCount(w.secrets, t);
      AddResult(Secrets, |OwnedSecrets(w.secrets, t)|);
      Take(w.(secrets := w.secrets - OwnedSecrets(w.secrets, t)), {});
      stopped := Interrupted(interruptible);
      if stopped {
        return;
      }
      ghost var w1 := w;
      if checkpoint >= 5 {
        CleanedPastFive(t, w);
      }
      UpdateJob(checkpoint, true);
      ContinuesButTransitive(t, w0, w1, w, {}, {});
      stopped := Interrupted(interruptible);
    }

    method RemoveSecret(interruptible: bool, ref: string) returns (stopped: bool)
      requires Ready() && w.job.processed <= Max(started, 1) && RefsOf(w.sources, t.kb) == {}
      modifies this`w, this`result, this`lifetime
      ensures KeptBut(old(w), 1, {ref}) && (!interruptible ==> !stopped)
      ensures w == old(w).(secrets := old(w).secrets - {ref}, job := w.job)
      ensures result == AddCount(old(result), Secrets, |old(w).secrets| - |w.secrets|)
    {
      hide Resumable, Final, NoOrphans, CleanedUp, ContinuesBut, AtMost, Nonnegative, RefsOf, AddCount;
      assert |w.secrets| - |w.secrets - {ref}| == if ref in w.secrets then 1 else 0;
      ghost var w0 := w;
      AddResult(Secrets, if ref in w.secrets then 1 else 0);
      SecretsStep(t, w, {ref}, {ref});
      Take(w.(secrets := w.secrets - {ref}), {ref});
      stopped := Interrupted(interruptible);
      if stopped {
        return;
      }
      ghost var w1 := w;
      SaveResult();
      ContinuesButTransitive(t, w0, w1, w, {ref}, {});
      stopped := Interrupted(interruptible);
    }

    /** The vector collection, then the data and upload folders. */
    method RemoveFiles(interruptible: bool) returns (stopped: bool)
      requires Ready() && w.job.processed <= Max(started, 2)
      modifies this`w, this`result, this`lifetime
      ensures Kept(old(w), 4) && (!interruptible ==> !stopped)
      ensures w == old(w).(collections := w.collections, indexes := w.indexes, folders := w.folders, job := w.job)
      ensures !stopped ==> FilesGone(t, w)
      ensures !stopped ==> result == RetainCount(old(result), Collections, if t.collection in old(w).collections then 1 else 0)
    {
      hide RefsOf, Resumable, Final, NoOrphans, CleanedUp, ContinuesBut, AtMost, Nonnegative, RetainCount;
      ghost var w0 := w;
      stopped := RemoveCollection(interruptible);
      if stopped {
        return;
      }
      ghost var w1 := w;
      stopped := RemoveFolders(interruptible);
      ContinuesTransitive(t, w0, w1, w);
    }

    method RemoveCollection(interruptible: bool) returns (stopped: bool)
      requires Ready() && w.job.processed <= Max(started, 2)
      modifies this`w, this`result, this`lifetime
      ensures Kept(old(w), 3) && (!interruptible ==> !stopped)
      ensures w == old(w).(collections := old(w).collections - {t.collection}, job := w.job)
      ensures result == RetainCount(old(result), Collections, if t.collection in old(w).collections then 1 else 0)
    {
      hide RefsOf, Resumable, Final, NoOrphans, CleanedUp, ContinuesBut, AtMost, Nonnegative, RetainCount;
      ghost var w0 := w;
      RetainResult(Collections, if t.collection in w.collections then 1 else 0);
      CollectionStep(t, w);
      Take(w.(collections := w.collections - {t.collection}));
      stopped := Interrupted(interruptible);
      if stopped {
        return;
      }
      ghost var w1 := w;
      UpdateJob(3, true);
      ContinuesTransitive(t, w0, w1, w);
      stopped := Interrupted(interruptible);
    }

    method RemoveFolders(interruptible: bool) returns (stopped: bool)
      requires Ready() && w.job.processed <= Max(started, 3)
      modifies this`w, this`lifetime
      ensures Kept(old(w), 4) && (!interruptible ==> !stopped)
      ensures w == old(w).(indexes := w.indexes, folders := w.folders, job := w.job)
      ensures !stopped ==> t.dataFolder !in w.indexes && t.uploadFolder !in w.folders
    {
      hide RefsOf, Resumable, Final, NoOrphans, CleanedUp, ContinuesBut, AtMost, Nonnegative;
      ghost var w0 := w;
      IndexStep(t, w);
      Take(w.(indexes := w.indexes - {t.dataFolder}));
      stopped := Interrupted(interruptible);
      if stopped {
        return;
      }
      ghost var w1 := w;
      FolderStep(t, w);
      Take(w.(folders := w.folders - {t.uploadFolder}));
      ContinuesTransitive(t, w0, w1, w);
      stopped := Interrupted(interruptible);
      if stopped {
        return;
      }
      w1 := w;
      UpdateJob(4, false);
      ContinuesTransitive(t, w0, w1, w);
      stopped := Interrupted(interruptible);
    }

    /** The query cache, then warm and staged state: first by conversation, then by prefix. */
    method ClearVolatile(interruptible: bool) returns (stopped: bool)
      requires Ready() && w.job.processed <= Max(started, 4)
      modifies this`w, this`lifetime
      ensures Kept(old(w), 4) && (!interruptible ==> !stopped)
      ensures w == old(w).(cached := w.cached, warm := w.warm, pending := w.pending)
      ensures !stopped ==> VolatileGone(t, w)
    {
      hide RefsOf, Resumable, Final, NoOrphans, CleanedUp, ContinuesBut, AtMost, Nonnegative, ScopesUsing, VolatileGone,
           PendingOf, WarmUsers, PendingUsers;
      ghost var w0, w1 := w, w;
      CacheStepContinues(t, w);
      Take(w.(cached := set e | e in w.cached && e.1 != t.collection));
      stopped := Interrupted(interruptible);
      if stopped {
        return;
      }
      w1 := w;
      stopped := ClearScopes(interruptible);
      ContinuesTransitive(t, w0, w1, w);
      if stopped {
        return;
      }
      w1 := w;
      stopped := ClearPrefixes(interruptible);
      ContinuesTransitive(t, w0, w1, w);
    }

    /** Staged results under the knowledge base's prefix, then the warm chats that use it. */
    method ClearPrefixes(interruptible: bool) returns (stopped: bool)
      requires Ready()
      requires forall s :: s in ScopesUsing(w.db, t.kb) ==> s !in w.warm
      requires PendingOf(w.pending, ScopesUsing(w.db, t.kb)) == {}
      requires forall e :: e in w.cached ==> e.1 != t.collection
      modifies this`w, this`lifetime
      ensures Ready() && Continues(t, old(w), w) && (!interruptible ==> !stopped)
      ensures w == old(w).(warm := w.warm, pending := w.pending)
      ensures !stopped ==> VolatileGone(t, w)
    {
      hide RefsOf, Resumable, Final, NoOrphans, CleanedUp, ContinuesBut, AtMost, Nonnegative, ScopesUsing, WarmUsers,
           PendingUsers;
      ghost var w0 := w;
      PrefixStep(t, w);
      Take(w.(pending := w.pending - PendingUsers(w.pending, t)));
      stopped := Interrupted(interruptible);
      if stopped {
        return;
      }
      ghost var w1 := w;
      WarmUsersStep(t, w);
      Take(w.(warm := w.warm - WarmUsers(w.warm, t)));
      ContinuesTransitive(t, w0, w1, w);
      stopped := Interrupted(interruptible);
      if !stopped {
        assert PendingOf(w.pending, ScopesUsing(w.db, t.kb)) == {};
      }
    }

    /** For each scope the database lists: its warm state, then its staged results. */
    method ClearScopes(interruptible: bool) returns (stopped: bool)
      requires Ready()
      modifies this`w, this`lifetime
      ensures Ready() && Continues(t, old(w), w) && (!interruptible ==> !stopped)
      ensures w == old(w).(warm := w.warm, pending := w.pending)
      ensures !stopped ==> forall s :: s in ScopesUsing(w.db, t.kb) ==> s !in w.warm
      ensures !stopped ==> PendingOf(w.pending, ScopesUsing(w.db, t.kb)) == {}
    {
      hide RefsOf, Resumable, Final, NoOrphans, CleanedUp, ContinuesBut, AtMost, Nonnegative, ScopesUsing;
      ghost var w0 := w;
      ContinuesReflexive(t, w);
      var left := ScopesUsing(w.db, t.kb);
      stopped := false;
      while left != {}
        invariant Ready() && Continues(t, w0, w) && !stopped
        invariant w == w0.(warm := w.warm, pending := w.pending)
        invariant left <= ScopesUsing(w.db, t.kb)
        invariant forall s :: s in ScopesUsing(w.db, t.kb) && s !in left ==> s !in w.warm
        invariant forall p :: p in w.pending && p.0 in ScopesUsing(w.db, t.kb) ==> p.0 in left
        decreases left
      {
        var scope :| scope in left;
        ghost var w1 := w;
        ScopeStep(t, w, scope);
        Take(w.(warm := w.warm - {scope}));
        ContinuesTransitive(t, w0, w1, w);
        stopped := Interrupted(interruptible);
        if stopped {
          return;
        }
        w1 := w;
        ScopeStep(t, w, scope);
        Take(w.(pending := w.pending - PendingOf(w.pending, {scope})));
        ContinuesTransitive(t, w0, w1, w);
        stopped := Interrupted(interruptible);
        if stopped {
          return;
        }
        left := left - {scope};
      }
    }

    /** The durable cascade with its artifact plan, the artifacts, and the acknowledgement. */
    method DeleteHistory(interruptible: bool) returns (stopped: bool)
      requires Ready() && w.job.processed <= Max(started, 4) && VolatileGone(t, w)
      modifies this`w, this`result, this`lifetime
      ensures Kept(old(w), 4) && (!interruptible ==> !stopped)
      ensures w == old(w).(db := w.db, uploads := w.uploads, pictures := w.pictures, runs := w.runs, job := w.job)
      ensures !stopped ==> HistoryGone(t, w) && VolatileGone(t, w)
      ensures !stopped ==> result == RetainCount(old(result), Conversations, |UsersOf(old(w).db, t.kb)|)
    {
      hide RefsOf, Resumable, Final, NoOrphans, CleanedUp, ContinuesBut, AtMost, Nonnegative, VolatileGone, UsersOf,
           DeleteByKnowledgeBase, Removable, RetainCount;
      ghost var w0 := w;
      CascadePlan(t, w);
      CascadeCount(w.db, t.kb);
      HistoryStepContinues(t, w);
      var deletion := DeleteByKnowledgeBase(w.db, t.kb);
      var count, plan := deletion.value.0, deletion.value.1;
      Take(w.(db := deletion.db));
      stopped := Interrupted(interruptible);
      if stopped {
        return;
      }
      RetainResult(Conversations, count);
      ghost var w1 := w;
      SaveResult();
      VolatileIgnoresTheRest(t, w1, w);
      ContinuesTransitive(t, w0, w1, w);
      stopped := Interrupted(interruptible);
      if stopped {
        return;
      }
      if plan.safe {
        w1 := w;
        stopped := CleanArtifacts(interruptible, plan.exclusive);
        VolatileIgnoresTheRest(t, w1, w);
        ContinuesTransitive(t, w0, w1, w);
        if stopped {
          return;
        }
        w1 := w;
        AcknowledgeStepContinues(t, w);
        Take(w.(db := w.db.(outbox := w.db.outbox - {KnowledgeBaseKey(t.kb)})));
        AcknowledgedHistory(t, w1);
        ContinuesTransitive(t, w0, w1, w);
        stopped := Interrupted(interruptible);
      } else {
        UnsafeHasNoEntry(t, w);
      }
    }

    /** Removes what the plan names; an interruption leaves any part of it behind. */
    method CleanArtifacts(interruptible: bool, plan: References) returns (stopped: bool)
      requires Ready() && plan == Removable(PlanNow(w.db, t.kb))
      modifies this`w, this`lifetime
      ensures Ready() && Continues(t, old(w), w) && (!interruptible ==> !stopped)
      ensures w == old(w).(uploads := w.uploads, pictures := w.pictures, runs := w.runs)
      ensures !stopped ==> ArtifactsGone(t, w)
    {
      hide RefsOf, Resumable, Final, NoOrphans, CleanedUp, ContinuesBut, AtMost, Nonnegative, NamesUpload, NamesPicture,
           NamesRun, PlanNow, Removable;
      var uploads := set n | n in w.uploads && NamesUpload(plan, n);
      var pictures := set n | n in w.pictures && NamesPicture(plan, n);
      var runs := set n | n in w.runs && NamesRun(plan, n);
      stopped := Interrupted(interruptible);
      if stopped {
        uploads :| uploads <= (set n | n in w.uploads && NamesUpload(plan, n));
        pictures :| pictures <= (set n | n in w.pictures && NamesPicture(plan, n));
        runs :| runs <= (set n | n in w.runs && NamesRun(plan, n));
      }
      ArtifactStepContinues(t, w, uploads, pictures, runs);
      Take(w.(uploads := w.uploads - uploads, pictures := w.pictures - pictures, runs := w.runs - runs));
    }

    /** The other jobs of the knowledge base, then the checkpoint past which only keys and catalog are left. */
    method ClearJobs(interruptible: bool) returns (stopped: bool)
      requires Ready() && w.job.processed <= Max(started, 4)
      requires SettingsGone(t, w) && FilesGone(t, w) && VolatileGone(t, w) && HistoryGone(t, w)
      modifies this`w, this`lifetime
      ensures Kept(old(w), 5) && (!interruptible ==> !stopped)
      ensures w == old(w).(jobs := w.jobs, job := w.job)
      ensures !stopped ==> CleanedUp(t, w) && w.job.processed >= 5
    {
      hide RefsOf, Resumable, Final, NoOrphans, ContinuesBut, AtMost, Nonnegative, VolatileGone, HistoryGone, SettingsGone,
           FilesGone;
      ghost var w0 := w;
      JobsStep(t, w);
      Take(w.(jobs := map j | j in w.jobs && w.jobs[j] != t.kb :: w.jobs[j]));
      stopped := Interrupted(interruptible);
      if stopped {
        return;
      }
      ghost var w1 := w;
      UpdateJob(5, false);
      CleanedIgnoresJob(t, w1, w);
      ContinuesTransitive(t, w0, w1, w);
      stopped := Interrupted(interruptible);
    }

    /** API keys are committed before the catalog record goes; then the last checkpoints. */
    method FinalizeKeys(interruptible: bool) returns (stopped: bool)
      requires Ready() && w.job.processed <= Max(started, 5) && w.job.processed >= 5 && w.job.status == Running
      modifies this`w, this`result, this`lifetime
      ensures Ready() && Continues(t, old(w), w) && (!interruptible ==> !stopped)
      ensures stopped ==> w.job.status == old(w).job.status && w.job.active == old(w).job.active
      ensures !stopped ==> w.job.status == Completed && Core(w) == Final(t, w) && CleanedUp(t, w)
      ensures !stopped ==> w.job.counters == KeysTally(t, old(w), old(result)) && w.secrets == old(w).secrets
    {
      hide Resumable, Final, NoOrphans, ContinuesBut, AtMost, Nonnegative, CleanedUp, RevokeAll, Core, RefsOf, Disables,
           RemoveId, RetainCount;
      ghost var w0 := w;
      var updated := |set k | k in w.apiKeys && t.kb in w.apiKeys[k].knowledgeBases|;
      var disabled := |set k | k in w.apiKeys && Disables(w.apiKeys[k], t.kb)|;
      stopped := RevokeKeys(interruptible);
      if stopped {
        return;
      }
      ghost var w1 := w;
      stopped := RemoveCatalog(interruptible);
      ContinuesTransitive(t, w0, w1, w);
      if stopped {
        return;
      }
      RetainResult(KeysUpdated, updated);
      RetainResult(KeysDisabled, disabled);
      stopped := Finish(interruptible, w0);
    }

    method RevokeKeys(interruptible: bool) returns (stopped: bool)
      requires Ready()
      modifies this`w, this`lifetime
      ensures Ready() && Continues(t, old(w), w) && (!interruptible ==> !stopped)
      ensures w == old(w).(apiKeys := RevokeAll(old(w).apiKeys, t.kb)) && RevokeAll(w.apiKeys, t.kb) == w.apiKeys
    {
      hide Resumable, Final, NoOrphans, ContinuesBut, AtMost, Nonnegative, CleanedUp, RevokeAll, RefsOf;
      KeysStep(t, w);
      Take(w.(apiKeys := RevokeAll(w.apiKeys, t.kb)));
      stopped := Interrupted(interruptible);
    }

    /** The finalize callback of the API-key update. */
    method RemoveCatalog(interruptible: bool) returns (stopped: bool)
      requires Ready() && w.job.processed >= 5
      modifies this`w, this`lifetime
      ensures Ready() && Continues(t, old(w), w) && (!interruptible ==> !stopped)
      ensures w == old(w).(catalog := old(w).catalog - {t.kb})
    {
      hide RefsOf, Resumable, Final, NoOrphans, ContinuesBut, AtMost, Nonnegative;
      CatalogStep(t, w);
      Take(w.(catalog := w.catalog - {t.kb}));
      stopped := Interrupted(interruptible);
    }

    method Finish(interruptible: bool, ghost before: World) returns (stopped: bool)
      requires Ready() && w.job.processed <= Max(started, 5) && w.job.processed >= 5
      requires Continues(t, before, w) && w.job.status == before.job.status && w.job.active == before.job.active
      requires t.kb !in w.catalog && RevokeAll(w.apiKeys, t.kb) == w.apiKeys
      modifies this`w, this`lifetime
      ensures Ready() && Continues(t, before, w) && (!interruptible ==> !stopped)
      ensures stopped ==> w.job.status == before.job.status && w.job.active == before.job.active
      ensures !stopped ==> w.job.status == Completed && Core(w) == Final(t, w) && CleanedUp(t, w)
      ensures !stopped ==> w.job.counters == old(result) && w.secrets == old(w).secrets
    {
      hide Resumable, Final, NoOrphans, ContinuesBut, AtMost, Nonnegative, CleanedUp, RevokeAll, Core, RefsOf, Disables,
           RemoveId, RetainCount;
      ghost var w1 := w;
      CleanedPastFive(t, w);
      UpdateJob(6, true);
      ContinuesTransitive(t, before, w1, w);
      stopped := Interrupted(interruptible);
      if stopped {
        return;
      }
      w1 := w;
      CleanedPastFive(t, w);
      UpdateJob(7, true);
      ContinuesTransitive(t, before, w1, w);
      stopped := Interrupted(interruptible);
      if stopped {
        return;
      }
      w1 := w;
      FinishStep(t, w);
      CleanedPastFive(t, w);
      w := w.(job := w.job.(status := Completed, active := false));
      ContinuesTransitive(t, before, w1, w);
      DoneIsFinal(t, w);
    }

    /** The catalog record is gone: only secrets stored since then can be left. */
    method ResumeCleanup(interruptible: bool) returns (stopped: bool)
      requires Ready() && w.job.processed >= 5 && w.job.processed <= Max(started, 5)
      modifies this`w, this`result, this`lifetime
      ensures Kept(old(w), 5) && w.job.processed >= 5 && (!interruptible ==> !stopped)
      ensures w.catalog == old(w).catalog && w.apiKeys == old(w).apiKeys && w.secrets <= old(w).secrets
      ensures !stopped ==> result == AddCount(old(result), Secrets, |old(w).secrets| - |w.secrets|)
    {
      hide RefsOf, Resumable, Final, NoOrphans, CleanedUp, OwnedSecrets, ContinuesBut, AtMost, Nonnegative, AddCount;
      CleanedPastFive(t, w);
      CleanedHasNoRefs(t, w);
      stopped := RemoveOwned(interruptible, 5);
    }

    /** The full cleanup, with the record still in the catalog. */
    method CleanUp(interruptible: bool) returns (stopped: bool)
      requires Ready() && w.job.processed <= started && t.kb in w.catalog
      modifies this`w, this`result, this`lifetime
      ensures Kept(old(w), 5) && (!interruptible ==> !stopped)
      ensures !stopped ==> w.job.processed >= 5 && w.secrets !! RefsOf(old(w).sources, t.kb)
      ensures w.apiKeys == old(w).apiKeys
      ensures !stopped ==> result == CleanupTally(t, old(w), old(result), |old(w).secrets| - |w.secrets|)
      ensures interruptible && old(lifetime) == 1 ==> stopped && w == SourcesRemoved(t, old(w))
    {
      hide Resumable, Final, NoOrphans, CleanedUp, ContinuesBut, AtMost, Nonnegative, SettingsGone, FilesGone, VolatileGone,
           HistoryGone, RefsOf, KeptSources, RetainCount, AddCount, UsersOf, SumChunks;
      ghost var w0, w1 := w, w;
      MarkStep(t, w, "deleting");
      Take(w.(catalog := w.catalog[t.kb := "deleting"]));
      stopped := Interrupted(interruptible);
      if stopped {
        return;
      }
      if t.dataFolder in w.indexes {
        RetainResult(Files, |w.indexes[t.dataFolder]|);
        RetainResult(Chunks, SumChunks(w.indexes[t.dataFolder]));
      }
      w1 := w;
      stopped := RemoveSettingsAndFiles(interruptible);
      ContinuesTransitive(t, w0, w1, w);
      if stopped {
        return;
      }
      w1 := w;
      stopped := RemoveHistory(interruptible);
      ContinuesTransitive(t, w0, w1, w);
    }

    /** Volatile state before durable rows, then the other jobs and the checkpoint. */
    method RemoveHistory(interruptible: bool) returns (stopped: bool)
      requires Ready() && w.job.processed <= Max(started, 4) && SettingsGone(t, w) && FilesGone(t, w)
      modifies this`w, this`result, this`lifetime
      ensures Kept(old(w), 5) && (!interruptible ==> !stopped) && w.secrets == old(w).secrets
      ensures w.apiKeys == old(w).apiKeys
      ensures !stopped ==> w.job.processed >= 5
      ensures !stopped ==> result == RetainCount(old(result), Conversations, |UsersOf(old(w).db, t.kb)|)
    {
      hide Resumable, Final, NoOrphans, CleanedUp, ContinuesBut, AtMost, Nonnegative, SettingsGone, FilesGone, VolatileGone,
           HistoryGone, RefsOf, RetainCount, UsersOf;
      ghost var w0, w1 := w, w;
      stopped := ClearVolatile(interruptible);
      if stopped {
        return;
      }
      GoneStaysGone(t, w1, w);
      w1 := w;
      stopped := DeleteHistory(interruptible);
      ContinuesTransitive(t, w0, w1, w);
      if stopped {
        return;
      }
      GoneStaysGone(t, w1, w);
      w1 := w;
      stopped := ClearJobs(interruptible);
      ContinuesTransitive(t, w0, w1, w);
    }

    method RemoveSettingsAndFiles(interruptible: bool) returns (stopped: bool)
      requires Ready() && w.job.processed <= Max(started, 1)
      modifies this`w, this`result, this`lifetime
      ensures Kept(old(w), 4) && (!interruptible ==> !stopped)
      ensures !stopped ==> SettingsGone(t, w) && FilesGone(t, w) && w.secrets !! RefsOf(old(w).sources, t.kb)
      ensures w.apiKeys == old(w).apiKeys && w.db == old(w).db
      ensures !stopped ==> result == SettingsTally(t, old(w), old(result), |old(w).secrets| - |w.secrets|)
      ensures interruptible && old(lifetime) == 0 ==>
        stopped && w == old(w).(sources := KeptSources(old(w).sources, t.kb))
    {
      hide Resumable, Final, NoOrphans, CleanedUp, ContinuesBut, AtMost, Nonnegative, OwnedSecrets, NoSources, RefsOf,
           KeptSources, RetainCount, AddCount;
      ghost var w0 := w;
      var refs;
      stopped, refs := RemoveSources(interruptible);
      if stopped {
        return;
      }
      ghost var w1 := w;
      stopped := RemoveSecrets(interruptible, refs);
      ContinuesButTransitive(t, w0, w1, w, refs, refs);
      if stopped {
        return;
      }
      w1 := w;
      stopped := RemoveFiles(interruptible);
      ContinuesTransitive(t, w0, w1, w);
    }

    /**
     One run of the job.  Wherever an interruptible run stops, it has moved
     towards the same final state, no counter has gone down, and a deleted
     conversation has left no volatile state; a run that finishes is there, and
     the secrets its sources named are gone with those of the owner, and no others.
     */
    method Run(interruptible: bool) returns (finished: bool)
      requires Resumable(t, w)
      modifies this
      ensures Continues(t, old(w), w)
      ensures old(w).job.status != Running || !old(w).job.active ==> w == old(w) && !finished
      ensures old(w).job.status == Running && old(w).job.active && !interruptible ==> finished
      ensures finished ==> w.job.status == Completed && Core(w) == Final(t, old(w))
      ensures finished ==> w.secrets == FinalSecrets(t, old(w)) && CleanedUp(t, w)
      ensures finished ==> ReportsRemoved(t, old(w), w.job.counters)
      ensures !finished ==> w.job.status == old(w).job.status && w.job.active == old(w).job.active
      ensures Starts(old(w)) && t.kb in old(w).catalog && interruptible && old(lifetime) == 1 ==>
        !finished && w == SourcesRemoved(t, old(w))
    {
      hide Final, NoOrphans, CleanedUp, ContinuesBut, AtMost, Nonnegative, Core, UsersOf, RefsOf, FinalSecrets, KeptSources,
           CleanupTally, KeysTally, ReportsRemoved, AddCount;
      ContinuesReflexive(t, w);
      if w.job.status != Running || !w.job.active {
        return false;
      }
      started := NonnegativeInt(w.job.processed);
      result := Restored(w.job.counters);
      ghost var w0 := w;
      var stopped;
      if t.kb !in w.catalog {
        assert started >= 5;
        CleanedHasNoRefs(t, w);
        ghost var r0 := result;
        CleanedPastFive(t, w);
        stopped := ResumeCleanup(interruptible);
        FewerSecrets(w0.secrets, w.secrets);
        NothingElseToCount(t, w0, r0, |w0.secrets| - |w.secrets|);
      } else {
        stopped := CleanUp(interruptible);
      }
      if stopped {
        return false;
      }
      ghost var w1, r1 := w, result;
      stopped := FinalizeKeys(interruptible);
      ContinuesTransitive(t, w0, w1, w);
      if !stopped {
        FinalOf(t, w0, w);
        FinishedSecrets(t, w0, w1, w);
        KeysTallyOf(t, w0, w1, r1);
        TallyReports(t, w0, r1, |w0.secrets| - |w.secrets|);
      }
      return !stopped;
    }

    ghost predicate Starts(w: World) {
      w.job.status == Running && w.job.active
    }

    /**
     Crash-resumability: any number of runs, each killed after any number of
     steps, followed by one that is left alone end exactly where a single
     uninterrupted run ends; for the secrets, if all were stored under the
     owner's prefix, and otherwise no secret of another owner is lost that the
     sources did not name.
     */
    method InterruptAndRerun(lifetimes: seq<nat>)
      requires Resumable(t, w) && Starts(w)
      modifies this
      ensures w.job.status == Completed && Core(w) == Final(t, old(w))
      ensures FinalSecrets(t, old(w)) <= w.secrets <= old(w).secrets - OwnedSecrets(old(w).secrets, t)
      ensures StoredUnderPrefix(t, old(w)) ==> w.secrets == FinalSecrets(t, old(w))
      ensures Monotone(old(w).job, w.job) && NoOrphans(t, old(w), w)
    {
      hide RefsOf, Resumable, Final, NoOrphans, Monotone, Core, SecretsShrink, CleanedUp, FinalSecrets;
      ghost var w0 := w;
      ContinuesReflexive(t, w);
      var finished := false;
      for i := 0 to |lifetimes|
        invariant Continues(t, w0, w)
        invariant finished ==> w.job.status == Completed && Core(w) == Final(t, w0) && CleanedUp(t, w)
        invariant !finished ==> Starts(w)
      {
        ghost var w1 := w;
        lifetime := lifetimes[i];
        var now := Run(true);
        ContinuesTransitive(t, w0, w1, w);
        if finished {
          CompletedStays(t, w1, w);
        }
        finished := finished || now;
      }
      if !finished {
        ghost var w1 := w;
        var _ := Run(false);
        ContinuesTransitive(t, w0, w1, w);
      }
      CleanedSettings(t, w);
      SecretsBetween(t, w0, w);
    }

    /**
     The references are known only to the run that took the sources out of the
     settings.  When that run is killed right there, the rerun ends with the
     secrets of an uninterrupted one if and only if every stored reference is
     under the owner's prefix.
     */
    method KillAfterSources()
      requires Resumable(t, w) && Starts(w) && t.kb in w.catalog
      modifies this
      ensures w.job.status == Completed && Core(w) == Final(t, old(w))
      ensures w.secrets == old(w).secrets - OwnedSecrets(old(w).secrets, t)
      ensures w.secrets == FinalSecrets(t, old(w)) <==> StoredUnderPrefix(t, old(w))
    {
      hide RefsOf, Resumable, Final, NoOrphans, Monotone, Core, SecretsShrink, CleanedUp;
      ghost var w0 := w;
      lifetime := 1;
      var _ := Run(true);
      assert w == SourcesRemoved(t, w0);
      NoRefsRemain(t, w0);
      ghost var w1 := w;
      var _ := Run(false);
      ContinuesTransitive(t, w0, w1, w);
      SecretsDiffer(t, w0, w.secrets);
    }
  }

  // ----- Secrets outside the owner's prefix ---------------------------------------------------

  const FOREIGN_SECRET := "other:token"

  const LEAKY_TARGET := Target("ws", "kb", "c", "d", "u")

  /** A job about to start on a base whose only source names a secret of another owner. */
  const LEAKY_WORLD := World(
    map["kb" := "ready"], [DataSource("kb", {FOREIGN_SECRET})], {FOREIGN_SECRET}, {}, map[], {}, {}, EmptyDb,
    map[], {}, {}, {}, {}, map[], map[], Job(Running, true, 0, Counters(0, 0, 0, 0, 0, 0, 0, 0)))

  lemma LeakyWorldRuns()
    ensures Resumable(LEAKY_TARGET, LEAKY_WORLD) && LEAKY_TARGET.kb in LEAKY_WORLD.catalog
    ensures FinalSecrets(LEAKY_TARGET, LEAKY_WORLD) == {}
    ensures OwnedSecrets(LEAKY_WORLD.secrets, LEAKY_TARGET) == {}
  {
    var s, prefix := LEAKY_WORLD.sources[0], SecretOwner(LEAKY_TARGET) + ":";
    assert FOREIGN_SECRET in s.secretRefs && s in LEAKY_WORLD.sources && SourceKnowledgeBase(s) == "kb";
    assert FOREIGN_SECRET in RefsOf(LEAKY_WORLD.sources, "kb");
    assert prefix[0] == 'w' && FOREIGN_SECRET[0] == 'o';
    assert !(prefix <= FOREIGN_SECRET);
  }

  /** One uninterrupted run removes the secret; killed after the sources and rerun, the job keeps it. */
  method KilledJobKeepsSecret() returns (whole: set<string>, killed: set<string>)
    ensures whole == {} && killed == {FOREIGN_SECRET}
  {
    hide Resumable, FinalSecrets, OwnedSecrets, Core, Final, NoOrphans, Monotone, CleanedUp;
    LeakyWorldRuns();
    var job := new DeleteJob(LEAKY_TARGET, LEAKY_WORLD);
    var _ := job.Run(false);
    whole := job.w.secrets;
    job := new DeleteJob(LEAKY_TARGET, LEAKY_WORLD);
    job.KillAfterSources();
    killed := job.w.secrets;
  }
}
