/**
 What a finished knowledge-base deletion leaves of each store, item by item:
 everything of that base is gone and nothing of any other base is.
 */
module KnowledgeBaseOutcome {
  import opened Wrappers
  import opened HistoryModel
  import opened HistorySpec
  import opened WarmMemory
  import opened KnowledgeBaseDeletion
  import WarmStore

  // ----- Settings, secrets and files -----------------------------------------------------------

  lemma {:induction false} KeptCount(sources: seq<DataSource>, kb: string, s: DataSource)
    ensures multiset(KeptSources(sources, kb))[s]
         == if (if s.knowledgeBase == "" then "default" else s.knowledgeBase) == kb then 0 else multiset(sources)[s]
  {
    if sources != [] {
      var front, last := sources[..|sources| - 1], sources[|sources| - 1];
      KeptCount(front, kb, s);
      assert sources == front + [last];
      if SourceKnowledgeBase(last) == kb {
        assert KeptSources(sources, kb) == KeptSources(front, kb);
      } else {
        assert KeptSources(sources, kb) == KeptSources(front, kb) + [last];
      }
    }
  }

  /** Catalog, data sources, vectors, folders, cached answers and other jobs: only what names the base goes. */
  lemma SettingsOutcome(t: Target, w: World)
    ensures var f := Final(t, w);
      && (forall kb :: kb in f.catalog <==> kb in w.catalog && kb != t.kb)
      && (forall kb :: kb in f.catalog ==> f.catalog[kb] == w.catalog[kb])
      && (forall s :: multiset(f.sources)[s] ==
            if (if s.knowledgeBase == "" then "default" else s.knowledgeBase) == t.kb then 0 else multiset(w.sources)[s])
      && (forall c :: c in f.collections <==> c in w.collections && c != t.collection)
      && (forall d :: d in f.indexes <==> d in w.indexes && d != t.dataFolder)
      && (forall d :: d in f.indexes ==> f.indexes[d] == w.indexes[d])
      && (forall d :: d in f.folders <==> d in w.folders && d != t.uploadFolder)
      && (forall e :: e in f.cached <==> e in w.cached && e.1 != t.collection)
      && (forall j :: j in f.jobs <==> j in w.jobs && w.jobs[j] != t.kb)
      && (forall j :: j in f.jobs ==> f.jobs[j] == w.jobs[j])
  {
    hide KeptSources, PlanNow, FinalDb, ScopesUsing, WarmUsers, PendingUsers, PendingOf, Removable, RevokeAll;
    forall s
      ensures multiset(KeptSources(w.sources, t.kb))[s] ==
        if (if s.knowledgeBase == "" then "default" else s.knowledgeBase) == t.kb then 0 else multiset(w.sources)[s]
    {
      KeptCount(w.sources, t.kb, s);
    }
  }

  /**
   The secrets that go are those under the base's own prefix and those its data
   sources name.  In particular a secret stored for another base stays unless a
   source of this base names it.
   */
  lemma SecretsOutcome(t: Target, w: World, ref: string)
    ensures ref in FinalSecrets(t, w) <==>
              && ref in w.secrets
              && !(t.workspace + ":" + t.kb + ":" <= ref)
              && !(ref != "" && exists s :: s in w.sources && ref in s.secretRefs
                                      && (if s.knowledgeBase == "" then "default" else s.knowledgeBase) == t.kb)
  {
    assert SecretOwner(t) + ":" == t.workspace + ":" + t.kb + ":";
    if s :| s in w.sources && SourceKnowledgeBase(s) == t.kb && ref in s.secretRefs {
      assert ref != "" ==> ref in RefsOf(w.sources, t.kb);
    }
  }

  lemma OtherBasesSecretsStay(t: Target, w: World, other: string, name: string)
    requires ':' !in t.kb && ':' !in other && other != t.kb
    requires var ref := t.workspace + ":" + other + ":" + name; ref in w.secrets && ref !in RefsOf(w.sources, t.kb)
    ensures t.workspace + ":" + other + ":" + name in FinalSecrets(t, w)
  {
    WarmStore.SameName(t.workspace + ":", t.kb, other, name);
    assert SecretOwner(t) + ":" == t.workspace + ":" + t.kb + ":";
    hide RefsOf;
  }

  // ----- Conversations ---------------------------------------------------------------------------

  /** A conversation used the base under this scope key. */
  ghost predicate UsedUnder(db: Db, kb: string, scope: string) {
    exists id :: id in db.conversations && kb in db.conversations[id].knowledgeBases
                 && db.conversations[id].scopeKey == scope
  }

  /** The conversations that name the base go, with their scopes and its plan; every other row stays as it is. */
  lemma ConversationsOutcome(t: Target, w: World)
    ensures var f := Final(t, w);
      && (forall id :: id in f.db.conversations <==>
            id in w.db.conversations && t.kb !in w.db.conversations[id].knowledgeBases)
      && (forall id :: id in f.db.conversations ==> f.db.conversations[id] == w.db.conversations[id])
      && (forall s :: s in f.db.byScope <==>
            s in w.db.byScope && !(w.db.byScope[s] in w.db.conversations
                                   && t.kb in w.db.conversations[w.db.byScope[s]].knowledgeBases))
      && (forall s :: s in f.db.byScope ==> f.db.byScope[s] == w.db.byScope[s])
      && f.db.outbox == w.db.outbox - {"knowledge-base:" + t.kb}
  {
    hide KeptSources, PlanNow, ScopesUsing, WarmUsers, PendingUsers, PendingOf, Removable, RevokeAll;
  }

  /**
   Warm copies and staged results go when they stand under the base's own
   prefix, under the scope of a conversation that used it, or, for a warm
   multi-base chat, when it selected the base; all others stay as they are.
   */
  lemma VolatileOutcome(t: Target, w: World)
    ensures var f, own := Final(t, w), t.workspace + ":kb:" + t.kb + ":";
      && (forall id :: id in f.warm <==>
            && id in w.warm && !(own <= id) && !UsedUnder(w.db, t.kb, id)
            && !(t.workspace + ":multi-chat:" <= id && t.kb in w.warm[id].knowledgeBases))
      && (forall id :: id in f.warm ==> f.warm[id] == w.warm[id])
      && (forall p :: p in f.pending <==> p in w.pending && !(own <= p.0) && !UsedUnder(w.db, t.kb, p.0))
  {
    hide KeptSources, PlanNow, FinalDb, Removable, RevokeAll, WarmUsers, PendingUsers, PendingOf;
    var scopes := ScopesUsing(w.db, t.kb);
    forall s
      ensures s in scopes <==> UsedUnder(w.db, t.kb, s)
    {
      ScopeIsUsed(w.db, t.kb, s);
    }
    hide ScopesUsing, UsedUnder;
    VolatileUsers(t, w, scopes);
  }

  lemma ScopeIsUsed(db: Db, kb: string, scope: string)
    ensures scope in ScopesUsing(db, kb) <==> UsedUnder(db, kb, scope)
  {
    if UsedUnder(db, kb, scope) {
      var id :| id in db.conversations && kb in db.conversations[id].knowledgeBases
                && db.conversations[id].scopeKey == scope;
      assert id in UsersOf(db, kb);
    }
  }

  lemma VolatileUsers(t: Target, w: World, scopes: set<string>)
    ensures forall id :: id in WarmUsers(w.warm, t) <==>
              && id in w.warm
              && (t.workspace + ":kb:" + t.kb + ":" <= id
                  || (t.workspace + ":multi-chat:" <= id && t.kb in w.warm[id].knowledgeBases))
    ensures forall p :: p in PendingUsers(w.pending, t) <==> p in w.pending && t.workspace + ":kb:" + t.kb + ":" <= p.0
    ensures forall p :: p in PendingOf(w.pending, scopes) <==> p in w.pending && p.0 in scopes
  {}

  // ----- Artifacts and API keys --------------------------------------------------------------------

  /** Only artifacts that the deletion's own plan names go, and none when the plan is unsafe. */
  lemma ArtifactsOutcome(t: Target, w: World, name: string)
    ensures var f, plan := Final(t, w), DeleteByKnowledgeBase(w.db, t.kb).value.1;
      && (name in f.uploads <==> name in w.uploads && !(plan.safe && Artifacts.NamesUpload(plan.exclusive, name)))
      && (name in f.pictures <==> name in w.pictures && !(plan.safe && Artifacts.NamesPicture(plan.exclusive, name)))
      && (name in f.runs <==> name in w.runs && !(plan.safe && Artifacts.NamesRun(plan.exclusive, name)))
  {
    hide KeptSources, DeleteByKnowledgeBase, FinalDb, RevokeAll, WarmUsers, PendingUsers, PendingOf, ScopesUsing,
         Artifacts.NamesUpload, Artifacts.NamesPicture, Artifacts.NamesRun;
    Artifacts.NothingNamed(name);
  }

  lemma {:induction false} RemoveIdCount(ids: seq<string>, id: string, other: string)
    ensures multiset(RemoveId(ids, id))[other] == if other == id then 0 else multiset(ids)[other]
  {
    if ids != [] {
      var front, last := ids[..|ids| - 1], ids[|ids| - 1];
      RemoveIdCount(front, id, other);
      assert ids == front + [last];
      if last == id {
        assert RemoveId(ids, id) == RemoveId(front, id);
      }
    }
  }

  /** A key stands on the base alone: nothing else is granted to it. */
  predicate OnlyGrant(key: ApiKey, kb: string) {
    kb in key.knowledgeBases && forall other :: other in key.knowledgeBases ==> other == kb
  }

  lemma NothingGranted(key: ApiKey, kb: string)
    ensures kb in key.knowledgeBases && RemoveId(key.knowledgeBases, kb) == [] <==> OnlyGrant(key, kb)
  {
    var rest := RemoveId(key.knowledgeBases, kb);
    forall other
      ensures other in rest <==> other in key.knowledgeBases && other != kb
    {
      RemoveIdCount(key.knowledgeBases, kb, other);
      assert other in rest <==> multiset(rest)[other] > 0;
      assert other in key.knowledgeBases <==> multiset(key.knowledgeBases)[other] > 0;
    }
    if rest != [] {
      assert rest[0] in rest;
    }
  }

  /**
   API keys lose the base and keep every other one.  A key is disabled exactly
   when the base was its only one and either one of its scopes needs a base (no
   scope at all means querying) or it may not manage bases.
   */
  lemma KeysOutcome(t: Target, w: World, k: string)
    ensures var keys, was := Final(t, w).apiKeys, w.apiKeys;
      && (k in keys <==> k in was)
      && (k in keys ==>
            && keys[k].scopes == was[k].scopes
            && (forall kb :: multiset(keys[k].knowledgeBases)[kb] ==
                  if kb == t.kb then 0 else multiset(was[k].knowledgeBases)[kb])
            && (keys[k].enabled <==> was[k].enabled && !(OnlyGrant(was[k], t.kb) && StandsOnBases(was[k].scopes))))
  {
    hide KeptSources, PlanNow, FinalDb, ScopesUsing, WarmUsers, PendingUsers, PendingOf, Removable, RemoveId, Revoked,
         OnlyGrant, StandsOnBases;
    if k in w.apiKeys {
      RevokedKey(w.apiKeys[k], t.kb);
    }
  }

  /** The scopes include one that reads or writes a base, or leave out managing them. */
  predicate StandsOnBases(scopes: set<string>) {
    || scopes == {}
    || "query" in scopes || "ingest" in scopes || "agent_manage" in scopes
    || "history_read" in scopes || "history_manage" in scopes
    || "kb_manage" !in scopes
  }

  lemma RevokedKey(key: ApiKey, kb: string)
    ensures var revoked := Revoked(key, kb);
      && revoked.scopes == key.scopes
      && (forall other :: multiset(revoked.knowledgeBases)[other] ==
            if other == kb then 0 else multiset(key.knowledgeBases)[other])
      && (revoked.enabled <==> key.enabled && !(OnlyGrant(key, kb) && StandsOnBases(key.scopes)))
  {
    forall other
      ensures multiset(RemoveId(key.knowledgeBases, kb))[other] ==
        if other == kb then 0 else multiset(key.knowledgeBases)[other]
    {
      RemoveIdCount(key.knowledgeBases, kb, other);
    }
    NothingGranted(key, kb);
    hide RemoveId;
    var scopes := if key.scopes == {} then {"query"} else key.scopes;
    var needing := API_SCOPES_REQUIRING_KB * scopes;
    if s :| s in scopes && s in API_SCOPES_REQUIRING_KB {
      assert s in needing;
    }
  }
}
