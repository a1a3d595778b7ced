/** What an artifact plan may name: never anything a retained conversation references. */
module ArtifactPlans {
  import opened Wrappers
  import opened Artifacts
  import opened HistoryModel
  import opened HistorySpec
  import opened HistoryInvariant
  import opened HistoryRuns

  /** Some readable metadata of the conversation references the upload, the image or the run directory. */
  predicate RefersTo(c: Conversation, name: string, named: (References, string) -> bool) {
    exists i | 0 <= i < |c.messages| ::
      c.messages[i].metadata.references.Some? && named(c.messages[i].metadata.references.value, name)
  }

  lemma MessageReferencesOk(lim: Limits, db: Db, id: string)
    requires DbOk(lim, db) && id in db.conversations
    ensures ReferencesOk(db.conversations[id].messages)
  {
    hide IndexOk, QuotasOk, TurnsOk, MessageBytes, TranscriptOk, ReferencesOk;
  }

  lemma OwnedIsWellFormed(lim: Limits, db: Db, ids: set<string>)
    requires DbOk(lim, db)
    ensures WellFormed(OwnedBy(db, ids))
  {
    hide DbOk;
    forall id | id in db.conversations
      ensures ReferencesOk(db.conversations[id].messages)
    {
      MessageReferencesOk(lim, db, id);
    }
  }

  lemma OwnedIncludes(db: Db, ids: set<string>, id: string, i: nat)
    requires id in db.conversations && id in ids && i < |db.conversations[id].messages|
    requires db.conversations[id].messages[i].metadata.references.Some?
    ensures var refs, owned := db.conversations[id].messages[i].metadata.references.value, OwnedBy(db, ids);
            refs.attachments <= owned.attachments && refs.images <= owned.images && refs.runs <= owned.runs
  {
    assert db.conversations[id].messages[i] in db.conversations[id].messages;
  }

  /** A plan computed in any valid state spares every artifact some retained conversation references. */
  lemma PlanSparesRetained(lim: Limits, db: Db, ids: set<string>, id: string, name: string)
    requires DbOk(lim, db) && id in db.conversations && id !in ids
    ensures var c, plan := db.conversations[id], CleanupPlan(db, ids).exclusive;
      && (RefersTo(c, name, NamesUpload) ==> !NamesUpload(plan, name))
      && (RefersTo(c, name, NamesPicture) ==> !NamesPicture(plan, name))
      && (RefersTo(c, name, NamesRun) ==> !NamesRun(plan, name))
  {
    hide OwnedBy, DbOk, NamesUpload, NamesPicture, NamesRun, MetadataReadable, ExclusiveReferences, RefersTo;
    OwnedIsWellFormed(lim, db, ids);
    OwnedIsWellFormed(lim, db, db.conversations.Keys - ids);
    ExclusiveSparesRetained(OwnedBy(db, ids), OwnedBy(db, db.conversations.Keys - ids), name);
    RetainedOwnsReferred(db, ids, id, name);
    NothingNamed(name);
  }

  lemma RetainedOwnsReferred(db: Db, ids: set<string>, id: string, name: string)
    requires id in db.conversations && id !in ids
    ensures var c, retained := db.conversations[id], OwnedBy(db, db.conversations.Keys - ids);
      && (RefersTo(c, name, NamesUpload) ==> NamesUpload(retained, name))
      && (RefersTo(c, name, NamesPicture) ==> NamesPicture(retained, name))
      && (RefersTo(c, name, NamesRun) ==> NamesRun(retained, name))
  {
    hide OwnedBy, NamesUpload, NamesPicture, NamesRun, RefersTo;
    TargetOwnsReferred(db, db.conversations.Keys - ids, id, name);
  }

  lemma NamesGrow(refs: References, more: References, name: string)
    requires refs.attachments <= more.attachments && refs.images <= more.images && refs.runs <= more.runs
    ensures NamesUpload(refs, name) ==> NamesUpload(more, name)
    ensures NamesPicture(refs, name) ==> NamesPicture(more, name)
    ensures NamesRun(refs, name) ==> NamesRun(more, name)
  {}

  /** What the union names, one of the conversations references. */
  lemma OwnedIsReferred(db: Db, ids: set<string>, name: string)
    requires forall id :: id in ids && id in db.conversations ==>
      && !RefersTo(db.conversations[id], name, NamesUpload)
      && !RefersTo(db.conversations[id], name, NamesPicture)
      && !RefersTo(db.conversations[id], name, NamesRun)
    ensures var owned := OwnedBy(db, ids);
      !NamesUpload(owned, name) && !NamesPicture(owned, name) && !NamesRun(owned, name)
  {
    hide RefersTo, NamesUpload, NamesPicture, NamesRun;
    forall id, m | id in ids && id in db.conversations && m in db.conversations[id].messages
                   && m.metadata.references.Some?
      ensures var refs := m.metadata.references.value;
        !NamesUpload(refs, name) && !NamesPicture(refs, name) && !NamesRun(refs, name)
    {
      MessageNamesNothing(db.conversations[id], m, name);
    }
    UnionNamesNothing(db, ids, name);
  }

  lemma MessageNamesNothing(c: Conversation, m: Message, name: string)
    requires m in c.messages && m.metadata.references.Some?
    requires !RefersTo(c, name, NamesUpload) && !RefersTo(c, name, NamesPicture) && !RefersTo(c, name, NamesRun)
    ensures var refs := m.metadata.references.value;
      !NamesUpload(refs, name) && !NamesPicture(refs, name) && !NamesRun(refs, name)
  {}

  lemma UnionNamesNothing(db: Db, ids: set<string>, name: string)
    requires forall id, m :: id in ids && id in db.conversations && m in db.conversations[id].messages
                             && m.metadata.references.Some? ==>
               var refs := m.metadata.references.value;
               !NamesUpload(refs, name) && !NamesPicture(refs, name) && !NamesRun(refs, name)
    ensures var owned := OwnedBy(db, ids);
      !NamesUpload(owned, name) && !NamesPicture(owned, name) && !NamesRun(owned, name)
  {}

  lemma TargetOwnsReferred(db: Db, ids: set<string>, id: string, name: string)
    requires id in db.conversations && id in ids
    ensures var c, owned := db.conversations[id], OwnedBy(db, ids);
      && (RefersTo(c, name, NamesUpload) ==> NamesUpload(owned, name))
      && (RefersTo(c, name, NamesPicture) ==> NamesPicture(owned, name))
      && (RefersTo(c, name, NamesRun) ==> NamesRun(owned, name))
  {
    hide OwnedBy, NamesUpload, NamesPicture, NamesRun;
    var c := db.conversations[id];
    forall i | 0 <= i < |c.messages| && c.messages[i].metadata.references.Some?
      ensures var refs, owned := c.messages[i].metadata.references.value, OwnedBy(db, ids);
        && (NamesUpload(refs, name) ==> NamesUpload(owned, name))
        && (NamesPicture(refs, name) ==> NamesPicture(owned, name))
        && (NamesRun(refs, name) ==> NamesRun(owned, name))
    {
      OwnedIncludes(db, ids, id, i);
      NamesGrow(c.messages[i].metadata.references.value, OwnedBy(db, ids), name);
    }
  }

  /**
   The other half: when every message of the workspace can be read, the plan is
   safe, and it names every artifact that a deleted conversation references and
   no retained one does.
   */
  lemma PlanReachesTheRest(lim: Limits, db: Db, ids: set<string>, id: string, name: string)
    requires DbOk(lim, db) && id in db.conversations && id in ids
    requires forall other, m :: other in db.conversations && m in db.conversations[other].messages ==>
      m.metadata.references.Some?
    requires forall other :: other in db.conversations && other !in ids ==>
      && !RefersTo(db.conversations[other], name, NamesUpload)
      && !RefersTo(db.conversations[other], name, NamesPicture)
      && !RefersTo(db.conversations[other], name, NamesRun)
    ensures var c, plan := db.conversations[id], CleanupPlan(db, ids);
      && plan.safe
      && (RefersTo(c, name, NamesUpload) ==> NamesUpload(plan.exclusive, name))
      && (RefersTo(c, name, NamesPicture) ==> NamesPicture(plan.exclusive, name))
      && (RefersTo(c, name, NamesRun) ==> NamesRun(plan.exclusive, name))
  {
    hide OwnedBy, DbOk, NamesUpload, NamesPicture, NamesRun, ExclusiveReferences, RefersTo;
    OwnedIsWellFormed(lim, db, ids);
    OwnedIsWellFormed(lim, db, db.conversations.Keys - ids);
    OwnedIsReferred(db, db.conversations.Keys - ids, name);
    TargetOwnsReferred(db, ids, id, name);
    ExclusiveReachesTheRest(OwnedBy(db, ids), OwnedBy(db, db.conversations.Keys - ids), name);
  }

  /**
   The plan a crashed deletion left in the outbox, retried after any run until
   it is acknowledged, still spares whatever was retained when it was computed.
   */
  lemma RetriedPlanSparesRetained(lim: Limits, db: Db, events: seq<Event>, id: string, other: string, name: string)
    requires DbOk(lim, db) && id in db.conversations && CleanupPlan(db, {id}).safe
    requires NeverCreates(events, id) && NeverAcknowledges(events, ConversationKey(id))
    requires other in db.conversations && other != id
    ensures var later := Run(lim, After(db, DeleteWithCleanup(db, id)), events);
            var c, plan := db.conversations[other], DeleteWithCleanup(later, id).value.1.exclusive;
      && (RefersTo(c, name, NamesUpload) ==> !NamesUpload(plan, name))
      && (RefersTo(c, name, NamesPicture) ==> !NamesPicture(plan, name))
      && (RefersTo(c, name, NamesRun) ==> !NamesRun(plan, name))
  {
    hide DbOk, Run, CleanupPlan, RefersTo;
    PlanSurvives(lim, db, events, id);
    PlanSparesRetained(lim, db, {id}, other, name);
  }
}
