/**
 The in-process memory store: a dictionary of warm states, least recently used
 first, bounded in size and in age.  Every public call first purges what is
 too old, and every write evicts what is over the limit.
 */
module WarmStore {
  import opened Wrappers
  import opened OrderedDicts
  import opened WarmMemory
  import opened WarmStates

  type Store = Ordered<WarmState>

  // ----- What each call does to the dictionary -----------------------------------------

  function Expired(d: Store, ttl: real, now: real): set<string> {
    set k | k in d.items && now - d.items[k].updatedAt > ttl
  }

  function Purged(d: Store, ttl: real, now: real): Store {
    Minus(d, Expired(d, ttl, now))
  }

  /** Stores a state as the most recently used one, then evicts the surplus. */
  function Stored(d: Store, id: string, s: WarmState, max: nat): Store {
    Evict(Touch(Set(d, id, s), id), max)
  }

  function StateOr(d: Store, id: string, s: WarmState): WarmState {
    if id in d.items then d.items[id] else s
  }

  function AppendIn(d: Store, id: string, t: WarmTurn, kbs: set<string>, ttl: real, max: nat, now: real): Store {
    var live := Purged(d, ttl, now);
    Stored(live, id, Append(StateOr(live, id, NewState(now)), t, kbs, now), max)
  }

  function AppendJob(d: Store, id: string, t: WarmTurn, kbs: set<string>, ttl: real, keep: nat,
                     oversize: WarmState -> bool, now: real): Option<SummaryJob>
  {
    var live := Purged(d, ttl, now);
    var before := StateOr(live, id, NewState(now));
    var s := Append(before, t, kbs, now);
    if Added(before, t) then JobOf(s, keep, oversize(s)) else None
  }

  function ReplaceIn(d: Store, id: string, snapshot: Snapshot, ttl: real, max: nat, now: real): Store {
    var live := Purged(d, ttl, now);
    if ReplaceRefused(Get(live, id), snapshot) then live else Stored(live, id, FromDurable(snapshot, now), max)
  }

  function HydrateIn(d: Store, id: string, snapshot: Snapshot, ttl: real, max: nat, now: real): Store {
    var live := Purged(d, ttl, now);
    if id in live.items then live else Stored(live, id, FromDurable(snapshot, now), max)
  }

  function ApplyIn(d: Store, id: string, job: SummaryJob, summary: seq<int>, ttl: real, now: real): Store {
    var live := Purged(d, ttl, now);
    var applied := if id in live.items then ApplySummary(live.items[id], job, summary, now) else None;
    if applied.None? then live else Touch(Set(live, id, applied.value), id)
  }

  /** The copy holds the snapshot, touched now; without a version it counts the turns. */
  predicate CopyOfSnapshot(s: WarmState, d: Snapshot, now: real) {
    && s.summary == d.summary && s.turns == d.turns && s.knowledgeBases == d.knowledgeBases && s.updatedAt == now
    && s.through == (if d.through < 0 then 0 else d.through)
    && s.version == (if d.version == None then |d.turns| else d.version.value)
  }

  /** The summary is in, only the job's recent turns are left, and the cursor moved past the summarized ones. */
  predicate Applied(s: WarmState, job: SummaryJob, summary: seq<int>, now: real, s': WarmState) {
    && s'.summary == summary && s'.turns == job.recent && s'.knowledgeBases == s.knowledgeBases
    && s'.updatedAt == now && s'.version == s.version + 1
    && s'.through == if ThroughSequence(job.toSummarize).Some? then ThroughSequence(job.toSummarize).value else s.through
  }

  predicate StartsWith(s: string, prefix: string) {
    prefix <= s
  }

  /** The keys a knowledge-base delete clears: its own chats, and multi-chats that selected it. */
  predicate UsesKnowledgeBase(id: string, s: WarmState, workspace: string, kb: string) {
    || StartsWith(id, workspace + ":kb:" + kb + ":")
    || (StartsWith(id, workspace + ":multi-chat:") && kb in s.knowledgeBases)
  }

  function UsersOf(d: Store, workspace: string, kb: string): set<string> {
    set k | k in d.items && UsesKnowledgeBase(k, d.items[k], workspace, kb)
  }

  // ----- What a call does to one conversation ---------------------------------------------

  /** With room for one entry, the appended state is there afterwards. */
  lemma AppendIsKept(d: Store, id: string, t: WarmTurn, kbs: set<string>, ttl: real, max: nat, now: real)
    requires Valid(d) && max >= 1
    ensures var live, after := Purged(d, ttl, now), AppendIn(d, id, t, kbs, ttl, max, now);
            Get(after, id) == Some(Append(StateOr(live, id, NewState(now)), t, kbs, now))
  {
    MinusValid(d, Expired(d, ttl, now));
    var live := Purged(d, ttl, now);
    StoredIsKept(live, id, Append(StateOr(live, id, NewState(now)), t, kbs, now), max);
  }

  /**
   A job comes out of an append exactly when the turn was added, the new state
   is oversize and there is something to summarize before the recent turns.
   */
  lemma AppendCutsJob(d: Store, id: string, t: WarmTurn, kbs: set<string>, ttl: real, keep: nat,
                      oversize: WarmState -> bool, now: real)
    ensures var live, job := Purged(d, ttl, now), AppendJob(d, id, t, kbs, ttl, keep, oversize, now);
            var before := if id in live.items then live.items[id] else WarmState([], 0, [], {}, now, 0);
            var s := Append(before, t, kbs, now);
      && (job.Some? <==> s.turns != before.turns && oversize(s) && (|s.turns| >= 2 || |s.turns| > keep))
      && (job.Some? ==> CutOf(s, keep, job.value))
  {
    hide Purged, InsertTurn, CutOf, JobOf;
    var live := Purged(d, ttl, now);
    var before := StateOr(live, id, NewState(now));
    var s := Append(before, t, kbs, now);
    AddedIffChanged(before, t);
    JobCutsAtRecent(s, keep, oversize(s));
  }

  /** A purge keeps exactly the copies touched within the time to live, as they are. */
  lemma PurgeKeepsRecent(d: Store, ttl: real, now: real, id: string)
    ensures id in Purged(d, ttl, now).items <==> id in d.items && now - d.items[id].updatedAt <= ttl
    ensures id in Purged(d, ttl, now).items ==> Purged(d, ttl, now).items[id] == d.items[id]
  {}

  /** Two names without a colon that stand before a colon in the same place are the same. */
  lemma SameName(prefix: string, a: string, b: string, rest: string)
    requires ':' !in a && ':' !in b
    ensures StartsWith(prefix + b + ":" + rest, prefix + a + ":") <==> a == b
  {
    var long, short := prefix + b + ":" + rest, prefix + a + ":";
    assert short[|prefix| + |a|] == ':' && long[|prefix| + |b|] == ':';
    if |a| < |b| {
      assert b[|a|] in b && long[|prefix| + |a|] == b[|a|];
    } else if |b| < |a| {
      assert a[|b|] in a && short[|prefix| + |b|] == a[|b|];
    } else {
      assert long[..|short|] == prefix + b + ":";
      assert (prefix + b + ":")[|prefix|..|prefix| + |b|] == b && short[|prefix|..|prefix| + |a|] == a;
    }
    if a == b {
      assert long[..|short|] == short;
    }
  }

  /**
   A base's warm copies are its own chats and the multi-base chats that selected
   it.  A chat of another base is not among them, nor is a multi-base chat that
   did not select it.
   */
  lemma OnlyItsOwnCopies(workspace: string, kb: string, other: string, rest: string, s: WarmState)
    requires ':' !in kb && ':' !in other
    ensures UsesKnowledgeBase(workspace + ":kb:" + other + ":" + rest, s, workspace, kb) <==> other == kb
    ensures UsesKnowledgeBase(workspace + ":multi-chat:" + rest, s, workspace, kb) <==> kb in s.knowledgeBases
  {
    SameName(workspace + ":kb:", kb, other, rest);
    var single, multi := workspace + ":kb:" + other + ":" + rest, workspace + ":multi-chat:" + rest;
    assert single[|workspace| + 1] == 'k' && multi[|workspace| + 1] == 'm';
    assert (workspace + ":kb:" + kb + ":")[|workspace| + 1] == 'k' && (workspace + ":multi-chat:")[|workspace| + 1] == 'm';
    assert multi[..|workspace + ":multi-chat:"|] == workspace + ":multi-chat:";
  }

  lemma StoredIsKept(d: Store, id: string, s: WarmState, max: nat)
    requires Valid(d)
    ensures Valid(Stored(d, id, s, max))
    ensures max >= 1 ==> Get(Stored(d, id, s, max), id) == Some(s)
    ensures forall k :: k in Stored(d, id, s, max).items && k != id ==>
                          k in d.items && Stored(d, id, s, max).items[k] == d.items[k]
  {
    SetValid(d, id, s);
    TouchValid(Set(d, id, s), id);
    EvictKeepsNewest(Touch(Set(d, id, s), id), max);
    if max >= 1 {
      TouchedSurvives(Set(d, id, s), id, max);
    }
  }

  /** What a stored state becomes: itself, unless it was evicted at once. */
  lemma StoredCopy(d: Store, id: string, s: WarmState, max: nat)
    requires Valid(d)
    ensures var stored := Stored(d, id, s, max); id in stored.items ==> stored.items[id] == s
  {
    SetValid(d, id, s);
    TouchValid(Set(d, id, s), id);
    EvictKeepsNewest(Touch(Set(d, id, s), id), max);
    hide Evict, Valid;
  }

  /** A call for one conversation leaves every other one as it was, or drops it. */
  lemma OthersKeepOrLose(d: Store, id: string, t: WarmTurn, kbs: set<string>, snapshot: Snapshot, job: SummaryJob,
                         summary: seq<int>, ttl: real, max: nat, now: real, other: string)
    requires Valid(d) && other != id
    ensures Get(AppendIn(d, id, t, kbs, ttl, max, now), other) in {None, Get(d, other)}
    ensures Get(ReplaceIn(d, id, snapshot, ttl, max, now), other) in {None, Get(d, other)}
    ensures Get(HydrateIn(d, id, snapshot, ttl, max, now), other) in {None, Get(d, other)}
    ensures Get(ApplyIn(d, id, job, summary, ttl, now), other) in {None, Get(d, other)}
  {
    MinusValid(d, Expired(d, ttl, now));
    var live := Purged(d, ttl, now);
    StoredIsKept(live, id, Append(StateOr(live, id, NewState(now)), t, kbs, now), max);
    StoredIsKept(live, id, FromDurable(snapshot, now), max);
    hide Stored, Valid, Append, WarmStates.ApplySummary, Expired;
  }

  /** Replacing never lowers the highest sequence a live conversation represents. */
  lemma ReplaceInNeverLowers(d: Store, id: string, snapshot: Snapshot, ttl: real, max: nat, now: real)
    requires Valid(d) && max >= 1 && id in Purged(d, ttl, now).items
    ensures var s := d.items[id];
            var after := ReplaceIn(d, id, snapshot, ttl, max, now);
      && id in after.items
      && HighestSequence(after.items[id].turns, after.items[id].through) >= HighestSequence(s.turns, s.through)
  {
    MinusValid(d, Expired(d, ttl, now));
    StoredIsKept(Purged(d, ttl, now), id, FromDurable(snapshot, now), max);
    ReplaceNeverLowers(d.items[id], snapshot, now);
    hide Stored, Valid, HighestSequence;
  }

  // ----- Loops over turns -----------------------------------------------------------------

  lemma {:induction false} InsertSkips(turns: seq<WarmTurn>, t: WarmTurn, k: nat)
    requires t.sequence.Some? && k <= |turns|
    requires forall i :: 0 <= i < k ==> turns[i].sequence.None? || turns[i].sequence.value < t.sequence.value
    ensures InsertSorted(turns, t) == turns[..k] + InsertSorted(turns[k..], t)
  {
    hide InsertSorted;
    if k == 0 {
      assert turns[0..] == turns && turns[..0] == [];
      assert [] + InsertSorted(turns, t) == InsertSorted(turns, t);
    } else {
      var rest := turns[1..];
      InsertSkips(rest, t, k - 1);
      InsertUnfolds(turns, t);
      SkipOne(turns, InsertSorted(turns[k..], t), k);
      assert rest[k - 1..] == turns[k..];
    }
  }

  lemma SkipOne(turns: seq<WarmTurn>, tail: seq<WarmTurn>, k: nat)
    requires 0 < k <= |turns|
    ensures [turns[0]] + (turns[1..][..k - 1] + tail) == turns[..k] + tail
  {
    assert [turns[0]] + turns[1..][..k - 1] == turns[..k];
    assert [turns[0]] + (turns[1..][..k - 1] + tail) == [turns[0]] + turns[1..][..k - 1] + tail;
  }

  lemma InsertUnfolds(turns: seq<WarmTurn>, t: WarmTurn)
    requires t.sequence.Some? && turns != []
    requires turns[0].sequence.None? || turns[0].sequence.value < t.sequence.value
    ensures InsertSorted(turns, t) == [turns[0]] + InsertSorted(turns[1..], t)
  {}

  method InsertTurnBySequence(turns: seq<WarmTurn>, through: int, t: WarmTurn)
    returns (inserted: seq<WarmTurn>, added: bool)
    ensures inserted == InsertTurn(turns, through, t)
    ensures added <==> |inserted| != |turns|
  {
    if t.sequence.None? {
      return turns + [t], true;
    }
    var sequence := t.sequence.value;
    if sequence <= through {
      return turns, false;
    }
    for index := 0 to |turns|
      invariant forall i :: 0 <= i < index ==> turns[i].sequence.None? || turns[i].sequence.value < sequence
    {
      InsertSkips(turns, t, index);
      var existing := turns[index];
      if existing.sequence.Some? {
        if existing.sequence.value == sequence {
          assert turns[..index] + turns[index..] == turns;
          return turns, false;
        }
        if existing.sequence.value > sequence {
          assert InsertSorted(turns[index..], t) == [t] + turns[index..];
          return turns[..index] + [t] + turns[index..], true;
        }
      }
    }
    InsertSkips(turns, t, |turns|);
    return turns + [t], true;
  }

  method DurableStateSequence(turns: seq<WarmTurn>, through: int) returns (highest: int)
    ensures highest == HighestSequence(turns, through)
  {
    highest := Max(0, through);
    for i := 0 to |turns|
      invariant highest == HighestSequence(turns[..i], through)
    {
      assert turns[..i + 1][..i] == turns[..i];
      if turns[i].sequence.Some? {
        highest := Max(highest, turns[i].sequence.value);
      }
    }
    assert turns[..|turns|] == turns;
  }

  method JobThroughSequence(turns: seq<WarmTurn>) returns (through: Option<int>)
    ensures through == ThroughSequence(turns)
  {
    if turns == [] {
      return None;
    }
    var highest := 0;
    for i := 0 to |turns|
      invariant highest == HighestSequence(turns[..i], 0)
      invariant forall j :: 0 <= j < i ==> turns[j].sequence.Some?
    {
      assert turns[..i + 1][..i] == turns[..i];
      if turns[i].sequence.None? {
        assert turns[i] in turns;
        return None;
      }
      highest := Max(highest, turns[i].sequence.value);
    }
    assert turns[..|turns|] == turns;
    return Some(highest);
  }

  /** Looks every even sequence up in the set of those present. */
  method StateCoversSequence(state: Option<WarmState>, target: int) returns (covers: bool)
    ensures covers <==> state.Some? && Covers(state.value, target)
  {
    if state.None? {
      return false;
    }
    if Max(0, target) == 0 {
      return true;
    }
    var s := state.value;
    var present := set x | x in Sequences(s.turns);
    var sequence := 2;
    while sequence <= target
      invariant sequence >= 2 && sequence % 2 == 0
      invariant forall e | 2 <= e < sequence && e % 2 == 0 :: e <= s.through || e in Sequences(s.turns)
    {
      if sequence > Max(0, s.through) && sequence !in present {
        return false;
      }
      sequence := sequence + 2;
    }
    return true;
  }

  // ----- The store --------------------------------------------------------------------------

  class ConversationMemoryStore {
    const keep: nat
    const ttl: real
    const max: nat
    const oversize: WarmState -> bool
    var conversations: Store

    constructor (recentTurnsToKeep: int, ttl: real, max: nat, oversize: WarmState -> bool)
      ensures conversations == Empty() && Valid(conversations)
      ensures this.keep == (if recentTurnsToKeep < 1 then 1 else recentTurnsToKeep)
      ensures this.ttl == ttl && this.max == max && this.oversize == oversize
    {
      keep := if recentTurnsToKeep < 1 then 1 else recentTurnsToKeep;
      this.ttl, this.max, this.oversize := ttl, max, oversize;
      conversations := Empty();
    }

    method PurgeExpired(now: real)
      requires Valid(conversations)
      modifies this`conversations
      ensures conversations == Purged(old(conversations), ttl, now) && Valid(conversations)
      ensures forall k :: k in conversations.items <==>
                k in old(conversations).items && now - old(conversations).items[k].updatedAt <= ttl
    {
      var expired := [];
      for i := 0 to |conversations.order|
        invariant conversations == old(conversations)
        invariant forall k :: k in expired <==> k in conversations.order[..i] && now - conversations.items[k].updatedAt > ttl
      {
        var id := conversations.order[i];
        assert id in conversations.items;
        if now - conversations.items[id].updatedAt > ttl {
          expired := expired + [id];
        }
      }
      assert conversations.order[..|conversations.order|] == conversations.order;
      assert Keys(expired) == Expired(conversations, ttl, now);
      MinusValid(conversations, Keys(expired));
      conversations := PopAll(conversations, expired);
    }

    /** Writes the entry and moves it to the end. */
    method WriteLast(id: string, s: WarmState)
      requires Valid(conversations)
      modifies this`conversations
      ensures conversations == Touch(Set(old(conversations), id, s), id) && Valid(conversations)
      ensures id in conversations.items && conversations.items[id] == s
    {
      SetValid(conversations, id, s);
      conversations := Set(conversations, id, s);
      TouchValid(conversations, id);
      conversations := Touch(conversations, id);
    }

    /** Writes the entry last and evicts the oldest ones over the limit. */
    method Store(id: string, s: WarmState)
      requires Valid(conversations)
      modifies this`conversations
      ensures conversations == Stored(old(conversations), id, s, max) && Valid(conversations)
    {
      WriteLast(id, s);
      EvictKeepsNewest(conversations, max);
      conversations := PopSurplus(conversations, max);
    }

    method AppendTurn(id: string, t: WarmTurn, kbs: set<string>, now: real) returns (job: Option<SummaryJob>)
      requires Valid(conversations)
      modifies this`conversations
      ensures Valid(conversations)
      ensures conversations == if id == "" then old(conversations)
                               else AppendIn(old(conversations), id, t, kbs, ttl, max, now)
      ensures job == if id == "" then None else AppendJob(old(conversations), id, t, kbs, ttl, keep, oversize, now)
      ensures var live := Purged(old(conversations), ttl, now);
              var before := if id in live.items then live.items[id] else WarmState([], 0, [], {}, now, 0);
              var s := Append(before, t, kbs, now);
        && (job.Some? <==> id != "" && s.turns != before.turns && oversize(s) && (|s.turns| >= 2 || |s.turns| > keep))
        && (job.Some? ==> CutOf(s, keep, job.value))
    {
      if id == "" {
        return None;
      }
      hide Purged, Stored, Valid, InsertTurn, CutOf;
      AppendCutsJob(conversations, id, t, kbs, ttl, keep, oversize, now);
      PurgeExpired(now);
      var before := StateOr(conversations, id, NewState(now));
      var s, added := AppendToState(before, t, kbs, now);
      Store(id, s);
      if !added || !oversize(s) {
        return None;
      }
      return CutJob(s);
    }

    method AppendToState(before: WarmState, t: WarmTurn, kbs: set<string>, now: real) returns (s: WarmState, added: bool)
      ensures s == Append(before, t, kbs, now) && added == Added(before, t)
    {
      var turns, inserted := InsertTurnBySequence(before.turns, before.through, t);
      var all := before.knowledgeBases + kbs;
      var version := if inserted || all != before.knowledgeBases then before.version + 1 else before.version;
      return WarmState(before.summary, before.through, turns, all, now, version), inserted;
    }

    /** Cuts before the newest `keep` turns, or before the last one. */
    function CutJob(s: WarmState): (job: Option<SummaryJob>)
      ensures job == JobOf(s, keep, true)
      ensures job.Some? ==> CutOf(s, keep, job.value)
    {
      var split := SplitIndex(|s.turns|, keep);
      if split <= 0 then None
      else Some(SummaryJob(s.summary, s.turns[..split], s.turns[split..], s.version))
    }

    method ApplySummary(id: string, job: SummaryJob, summary: seq<int>, now: real) returns (applied: bool)
      requires Valid(conversations)
      modifies this`conversations
      ensures Valid(conversations)
      ensures conversations == ApplyIn(old(conversations), id, job, summary, ttl, now)
      ensures var live := Purged(old(conversations), ttl, now);
              applied <==> id in live.items && live.items[id].version == job.version
      ensures var live := Purged(old(conversations), ttl, now);
              applied ==> id in conversations.items
                          && Applied(live.items[id], job, summary, now, conversations.items[id])
    {
      hide Valid, Touch, Set, Purged, ThroughSequence;
      PurgeExpired(now);
      if id !in conversations.items || conversations.items[id].version != job.version {
        return false;
      }
      var s := conversations.items[id];
      var through := JobThroughSequence(job.toSummarize);
      s := s.(summary := summary, turns := job.recent);
      if through.Some? {
        s := s.(through := through.value);
      }
      s := s.(updatedAt := now, version := s.version + 1);
      assert WarmStates.ApplySummary(conversations.items[id], job, summary, now) == Some(s);
      WriteLast(id, s);
      return true;
    }

    method ReplaceFromDurable(id: string, snapshot: Snapshot, now: real) returns (replaced: bool)
      requires Valid(conversations)
      modifies this`conversations
      ensures Valid(conversations)
      ensures conversations == if id == "" then old(conversations)
                               else ReplaceIn(old(conversations), id, snapshot, ttl, max, now)
      ensures replaced <==> id != "" && !ReplaceRefused(Get(Purged(old(conversations), ttl, now), id), snapshot)
      ensures replaced && max >= 1 ==>
        id in conversations.items && CopyOfSnapshot(conversations.items[id], snapshot, now)
    {
      if id == "" {
        return false;
      }
      ghost var live := Purged(conversations, ttl, now);
      var durableMax := DurableStateSequence(snapshot.turns, snapshot.through);
      PurgeExpired(now);
      var existing := Get(conversations, id);
      if existing.Some? {
        var highest := DurableStateSequence(existing.value.turns, existing.value.through);
        if highest > durableMax {
          return false;
        }
      }
      StoredIsKept(live, id, FromDurable(snapshot, now), max);
      Store(id, FromDurable(snapshot, now));
      return true;
    }

    method HydrateIfAbsent(id: string, snapshot: Snapshot, now: real) returns (hydrated: bool)
      requires Valid(conversations)
      modifies this`conversations
      ensures Valid(conversations)
      ensures conversations == if id == "" then old(conversations)
                               else HydrateIn(old(conversations), id, snapshot, ttl, max, now)
      ensures hydrated <==> id != "" && id !in Purged(old(conversations), ttl, now).items
      ensures hydrated && max >= 1 ==>
        id in conversations.items && CopyOfSnapshot(conversations.items[id], snapshot, now)
    {
      if id == "" {
        return false;
      }
      PurgeExpired(now);
      if id in conversations.items {
        return false;
      }
      StoredIsKept(conversations, id, FromDurable(snapshot, now), max);
      Store(id, FromDurable(snapshot, now));
      return true;
    }

    method DurableStateIsCurrent(id: string, target: int, now: real) returns (current: bool)
      requires Valid(conversations)
      modifies this`conversations
      ensures Valid(conversations)
      ensures conversations == if id == "" then old(conversations) else Purged(old(conversations), ttl, now)
      ensures current <==> id != "" && id in conversations.items && Covers(conversations.items[id], target)
    {
      if id == "" {
        return false;
      }
      PurgeExpired(now);
      current := StateCoversSequence(Get(conversations, id), target);
    }

    method KnowledgeBaseIds(id: string, now: real) returns (kbs: set<string>)
      requires Valid(conversations)
      modifies this`conversations
      ensures Valid(conversations)
      ensures conversations == if id == "" then old(conversations) else Purged(old(conversations), ttl, now)
      ensures kbs == if id != "" && id in conversations.items then conversations.items[id].knowledgeBases else {}
    {
      if id == "" {
        return {};
      }
      PurgeExpired(now);
      return if id in conversations.items then conversations.items[id].knowledgeBases else {};
    }

    method Clear(id: string) returns (cleared: bool)
      requires Valid(conversations)
      modifies this`conversations
      ensures Valid(conversations)
      ensures conversations == if id == "" then old(conversations) else Pop(old(conversations), id)
      ensures cleared <==> id != "" && id in old(conversations).items
    {
      if id == "" {
        return false;
      }
      cleared := id in conversations.items;
      PopValid(conversations, id);
      conversations := Pop(conversations, id);
    }

    /** Clears only the state an earlier snapshot saw. */
    method ClearIfVersion(id: string, version: Option<int>, now: real) returns (cleared: bool)
      requires Valid(conversations)
      modifies this`conversations
      ensures Valid(conversations)
      ensures var live := Purged(old(conversations), ttl, now);
        && (cleared <==> id != "" && version.Some? && id in live.items && live.items[id].version == version.value)
        && conversations == (if id == "" || version.None? then old(conversations)
                             else if cleared then Pop(live, id) else live)
    {
      if id == "" || version.None? {
        return false;
      }
      PurgeExpired(now);
      if id !in conversations.items || conversations.items[id].version != version.value {
        return false;
      }
      PopValid(conversations, id);
      conversations := Pop(conversations, id);
      return true;
    }

    method KeysUsing(workspace: string, kb: string) returns (ids: seq<string>)
      requires Valid(conversations)
      ensures Keys(ids) == UsersOf(conversations, workspace, kb) && |ids| == |Keys(ids)|
    {
      hide UsesKnowledgeBase;
      ids := [];
      for i := 0 to |conversations.order|
        invariant |Keys(ids)| == |ids|
        invariant forall k :: k in ids <==>
          k in conversations.order[..i] && UsesKnowledgeBase(k, conversations.items[k], workspace, kb)
      {
        var id := conversations.order[i];
        assert id in conversations.items;
        if UsesKnowledgeBase(id, conversations.items[id], workspace, kb) {
          assert id !in conversations.order[..i];
          assert Keys(ids + [id]) == Keys(ids) + {id};
          ids := ids + [id];
        }
      }
      assert conversations.order[..|conversations.order|] == conversations.order;
      assert Keys(ids) == UsersOf(conversations, workspace, kb);
    }

    method ClearByKnowledgeBase(workspace: string, kb: string) returns (removed: nat)
      requires Valid(conversations)
      modifies this`conversations
      ensures Valid(conversations)
      ensures conversations == Minus(old(conversations), UsersOf(old(conversations), workspace, kb))
      ensures removed == |UsersOf(old(conversations), workspace, kb)|
    {
      hide UsersOf, Minus, Valid;
      var ids := KeysUsing(workspace, kb);
      MinusValid(conversations, Keys(ids));
      conversations := PopAll(conversations, ids);
      return |ids|;
    }
  }
}
