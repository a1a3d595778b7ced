/**
 Deleting one conversation for good: volatile state first, then the row with
 its artifact plan, then the files, then the acknowledgement.  The lifecycle
 write lock keeps every other worker out.
 */
module ConversationDeletion {
  import opened Wrappers
  import opened Artifacts
  import opened HistoryModel
  import opened HistorySpec
  import opened HistoryInvariant
  import opened HistoryRuns
  import opened HistoryStore
  import opened ArtifactPlans
  import opened Workers
  import opened TurnService
  import OrderedDicts
  import WarmStore

  datatype DeletionError = VolatileUnavailable | ArtifactCleanupFailed

  /** Which of the volatile backends can be reached. */
  datatype Backends = Backends(memory: bool, pending: bool)

  /** What the three artifact directories hold. */
  datatype Disk = Disk(uploads: map<string, EntryKind>, pics: map<string, EntryKind>, runs: map<string, EntryKind>)

  function Contents(folders: ArtifactFolders): Disk
    reads folders
  {
    Disk(folders.uploads, folders.pics, folders.runs)
  }

  /** Everything the conversation references is still on disk as it was. */
  ghost predicate FilesKept(c: Conversation, before: Disk, after: Disk) {
    && (forall n :: n in before.uploads && RefersTo(c, n, NamesUpload) ==>
          n in after.uploads && after.uploads[n] == before.uploads[n])
    && (forall n :: n in before.pics && RefersTo(c, n, NamesPicture) ==>
          n in after.pics && after.pics[n] == before.pics[n])
    && (forall n :: n in before.runs && RefersTo(c, n, NamesRun) ==>
          n in after.runs && after.runs[n] == before.runs[n])
  }

  /** Only what the references name may be missing. */
  ghost predicate OnlyNamedRemoved(refs: References, before: Disk, after: Disk) {
    && (forall n :: n in before.uploads && !NamesUpload(refs, n) ==>
          n in after.uploads && after.uploads[n] == before.uploads[n])
    && (forall n :: n in before.pics && !NamesPicture(refs, n) ==>
          n in after.pics && after.pics[n] == before.pics[n])
    && (forall n :: n in before.runs && !NamesRun(refs, n) ==>
          n in after.runs && after.runs[n] == before.runs[n])
  }

  ghost predicate NoneNamed(refs: References, disk: Disk) {
    && (forall n :: n in disk.uploads ==> !NamesUpload(refs, n))
    && (forall n :: n in disk.pics ==> !NamesPicture(refs, n))
    && (forall n :: n in disk.runs ==> !NamesRun(refs, n))
  }

  lemma RetainedFilesKept(lim: Limits, db: Db, id: string, other: string, before: Disk, after: Disk)
    requires DbOk(lim, db) && other in db.conversations && other != id
    requires OnlyNamedRemoved(CleanupPlan(db, {id}).exclusive, before, after)
    ensures FilesKept(db.conversations[other], before, after)
  {
    hide DbOk, CleanupPlan, RefersTo;
    forall n
      ensures var c, plan := db.conversations[other], CleanupPlan(db, {id}).exclusive;
        && (RefersTo(c, n, NamesUpload) ==> !NamesUpload(plan, n))
        && (RefersTo(c, n, NamesPicture) ==> !NamesPicture(plan, n))
        && (RefersTo(c, n, NamesRun) ==> !NamesRun(plan, n))
    {
      PlanSparesRetained(lim, db, {id}, other, n);
    }
  }

  class ConversationRemoval {
    const turns: TurnLifecycle
    const folders: ArtifactFolders

    constructor (turns: TurnLifecycle, folders: ArtifactFolders)
      ensures this.turns == turns && this.folders == folders
    {
      this.turns, this.folders := turns, folders;
    }

    /** No warm state and no staged result is left under the scope. */
    ghost predicate VolatileGone(scopeKey: string)
      reads this, turns, turns.service, turns.service.memory, turns.pending
    {
      && (scopeKey != "" ==> scopeKey !in turns.service.memory.conversations.items)
      && forall key :: key in turns.pending.records ==> key.0 != scopeKey
    }

    /** The warm copy, then the staged results; the first backend that cannot be reached ends it. */
    method ClearVolatile(scopeKey: string, backends: Backends) returns (cleared: bool)
      requires turns.Valid() && scopeKey != ""
      modifies turns.service.memory`conversations, turns.pending
      ensures turns.Valid()
      ensures cleared <==> backends.memory && backends.pending
      ensures turns.service.memory.conversations
           == if backends.memory then OrderedDicts.Pop(old(turns.service.memory.conversations), scopeKey)
              else old(turns.service.memory.conversations)
      ensures turns.pending.records
           == if cleared then OtherScopes(old(turns.pending.records), scopeKey) else old(turns.pending.records)
    {
      hide DbOk, CursorsEven, Injective, OrderedDicts.Valid, OrderedDicts.Pop;
      if !backends.memory {
        return false;
      }
      var _ := turns.service.memory.Clear(scopeKey);
      if !backends.pending {
        return false;
      }
      turns.pending.ClearScope(scopeKey);
      return true;
    }

    /** Exactly the scope's warm copy and staged results are gone; without a scope key nothing is. */
    ghost predicate OnlyScopeCleared(d: WarmStore.Store, records: Records, scopeKey: string)
      reads turns.service.memory, turns.pending
    {
      && turns.service.memory.conversations == (if scopeKey == "" then d else OrderedDicts.Pop(d, scopeKey))
      && turns.pending.records == (if scopeKey == "" then records
                                   else map key | key in records && key.0 != scopeKey :: records[key])
    }

    static lemma OtherScopesStay(records: Records, scopeKey: string)
      ensures OtherScopes(records, scopeKey) == map key | key in records && key.0 != scopeKey :: records[key]
    {}

    lemma ClearedIsGone(d: WarmStore.Store, records: Records, scopeKey: string)
      requires RecordsOk(records, turns.digestOf) && OnlyScopeCleared(d, records, scopeKey)
      ensures VolatileGone(scopeKey)
    {}

    method RemoveFiles(refs: References) returns (errors: bool)
      modifies folders
      ensures OnlyNamedRemoved(refs, old(Contents(folders)), Contents(folders))
      ensures !errors ==> NoneNamed(refs, Contents(folders))
    {
      hide NamesUpload, NamesPicture, NamesRun;
      errors := folders.Cleanup(refs);
    }

    /**
     Volatile state goes first: while it cannot be cleared, neither the row nor a
     file is touched.  A deleted conversation leaves no volatile state, every
     other scope keeps its own, and no file any retained conversation references
     is touched.  Unreadable metadata anywhere in the
     workspace means that no file is touched at all.  Unless it fails, nothing
     the plan names is left and the outbox entry is gone; when it fails, the
     entry stays for a retry.
     */
    method DeleteConversation(id: string, backends: Backends) returns (r: Result<bool, DeletionError>)
      requires turns.Valid()
      modifies turns.service.history`db, turns.service.memory`conversations, turns.pending, folders
      ensures turns.Valid()
      ensures r == Err(VolatileUnavailable) <==>
                && id in old(turns.service.history.db).conversations
                && old(turns.service.history.db).conversations[id].scopeKey != ""
                && (!backends.memory || !backends.pending)
      ensures r == Err(VolatileUnavailable) ==>
        && turns.service.history.db == old(turns.service.history.db) && Contents(folders) == old(Contents(folders))
        && turns.pending.records == old(turns.pending.records)
        && turns.service.memory.conversations
             == (if backends.memory then OrderedDicts.Pop(old(turns.service.memory.conversations),
                                                          old(turns.service.history.db).conversations[id].scopeKey)
                 else old(turns.service.memory.conversations))
      ensures r != Err(VolatileUnavailable) ==>
        var was := old(turns.service.history.db);
        var d, records := old(turns.service.memory.conversations), old(turns.pending.records);
        if id in was.conversations then OnlyScopeCleared(d, records, was.conversations[id].scopeKey)
        else turns.service.memory.conversations == d && turns.pending.records == records
      ensures r != Err(VolatileUnavailable) ==>
        var was, db := old(turns.service.history.db), turns.service.history.db;
        var deletion := DeleteWithCleanup(was, id);
        var plan := deletion.value.1;
        && db.conversations == was.conversations - {id}
        && (id in was.conversations ==> VolatileGone(was.conversations[id].scopeKey))
        && (if plan.safe then OnlyNamedRemoved(plan.exclusive, old(Contents(folders)), Contents(folders))
            else Contents(folders) == old(Contents(folders)))
        && (plan.safe && r.Ok? ==> NoneNamed(plan.exclusive, Contents(folders)) && ConversationKey(id) !in db.outbox)
        && (r.Err? ==> plan.safe && db == deletion.db && ConversationKey(id) in db.outbox)
        && (r.Ok? ==> r.value == (id in was.conversations || plan.safe))
        && (id in was.conversations && !MetadataReadable(was) ==> Contents(folders) == old(Contents(folders)))
        && forall other :: other in db.conversations && id in was.conversations ==>
             FilesKept(db.conversations[other], old(Contents(folders)), Contents(folders))
    {
      hide DbOk, CursorsEven, Injective, OrderedDicts.Valid, RecordsOk, CleanupPlan, FilesKept, RefersTo, NamesUpload,
           NamesPicture, NamesRun, MetadataReadable, VolatileGone, OrderedDicts.Pop, OtherScopes, OnlyNamedRemoved,
           NoneNamed, DeleteWithCleanup,
           CompleteArtifactCleanup;
      var history := turns.service.history;
      ghost var was, disk := history.db, Contents(folders);
      UnreadableIsUnsafe(was, {id});
      DeletionFacts(history.lim, was, id);
      if id in history.db.conversations {
        var scopeKey := history.db.conversations[id].scopeKey;
        if scopeKey != "" {
          var cleared := ClearVolatile(scopeKey, backends);
          if !cleared {
            return Err(VolatileUnavailable);
          }
        }
        OtherScopesStay(old(turns.pending.records), scopeKey);
        ClearedIsGone(old(turns.service.memory.conversations), old(turns.pending.records), scopeKey);
      }
      var deleted, plan := history.DeleteWithArtifactCleanup(id);
      assert Contents(folders) == disk;
      if !plan.safe {
        forall other | other in history.db.conversations && id in was.conversations
          ensures FilesKept(history.db.conversations[other], disk, Contents(folders))
        {
          SameDiskKept(history.db.conversations[other], disk);
        }
        return Ok(deleted);
      }
      var errors := RemoveFiles(plan.exclusive);
      assert OnlyNamedRemoved(plan.exclusive, disk, Contents(folders));
      forall other | other in history.db.conversations && id in was.conversations
        ensures FilesKept(history.db.conversations[other], disk, Contents(folders))
      {
        RetainedFilesKept(history.lim, was, id, other, disk, Contents(folders));
      }
      if errors {
        return Err(ArtifactCleanupFailed);
      }
      AcknowledgeFacts(history.lim, history.db, ConversationKey(id));
      ghost var clean := Contents(folders);
      var _ := history.CompleteArtifactCleanup(ConversationKey(id));
      assert Contents(folders) == clean;
      return Ok(true);
    }
  }

  lemma SameDiskKept(c: Conversation, disk: Disk)
    ensures FilesKept(c, disk, disk)
  {}

  lemma UnreadableIsUnsafe(db: Db, ids: set<string>)
    ensures CleanupPlan(db, ids).safe <==> MetadataReadable(db)
    ensures !MetadataReadable(db) ==> CleanupPlan(db, ids) == UnsafePlan
  {}

  lemma DeletionFacts(lim: Limits, db: Db, id: string)
    requires CursorsEven(db)
    ensures var deletion := DeleteWithCleanup(db, id);
      && deletion.Commit?
      && deletion.db.conversations == db.conversations - {id}
      && CursorsEven(deletion.db)
      && (deletion.value.1.safe ==> ConversationKey(id) in deletion.db.outbox)
      && (id in db.conversations ==> deletion.value.1 == CleanupPlan(db, {id}))
      && deletion.value.0 == (id in db.conversations)
  {
    hide CleanupPlan;
    if id !in db.conversations {
      assert db.conversations - {id} == db.conversations;
    }
  }

  lemma AcknowledgeFacts(lim: Limits, db: Db, key: string)
    requires CursorsEven(db)
    ensures var tx := CompleteArtifactCleanup(db, key);
            tx.Commit? && CursorsEven(tx.db) && key !in tx.db.outbox && tx.db.conversations == db.conversations
  {}
}
