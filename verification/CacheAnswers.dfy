/**
 What the query cache answers over any sequence of lookups, saves and clears, in
 terms of the requests themselves: the last answer saved for an equal request,
 or nothing.
 */
module CacheAnswers {
  import opened Wrappers
  import opened Cache
  import OrderedDicts

  // ----- Keys name requests ------------------------------------------------------------------

  /** The request as it is hashed: without a namespace it is a stateless one. */
  function Filled(r: Request): Request {
    Request(r.query, r.k, r.model, if |r.namespace| == 0 then "stateless" else r.namespace)
  }

  /** The two requests are told apart by the truncated hash. */
  ghost predicate Apart(h: Hashes, a: Request, b: Request) {
    h.request(Filled(a)) == h.request(Filled(b)) ==> Filled(a) == Filled(b)
  }

  lemma KeyEndsInHash(h: Hashes, r: Request)
    requires HashesOk(h)
    ensures var key := GenerateKey(h, r); |key| >= 20 && key[|key| - 20..] == h.request(Filled(r))
  {
    hide Tokens, Sorted, CollectionsOf, FirstLine;
    var hash := h.request(Filled(r));
    assert IsHexText(hash, 20);
    var key := GenerateKey(h, r);
    assert key[..|key| - 20] + hash == key;
  }

  /**
   Two requests share a key exactly when they agree on query, k, model and
   namespace, where no namespace means a stateless one.
   */
  lemma KeysTellRequestsApart(h: Hashes, a: Request, b: Request)
    requires HashesOk(h) && Apart(h, a, b)
    ensures GenerateKey(h, a) == GenerateKey(h, b) <==>
              && a.query == b.query && a.k == b.k && a.model == b.model
              && (if a.namespace == "" then "stateless" else a.namespace)
                 == (if b.namespace == "" then "stateless" else b.namespace)
  {
    KeyEndsInHash(h, a);
    KeyEndsInHash(h, b);
    hide Tokens, Sorted, CollectionsOf, FirstLine;
  }

  // ----- The collections a query names -----------------------------------------------------------

  /** "|".join(names) */
  function Join(names: seq<string>): string {
    if |names| == 0 then "" else if |names| == 1 then names[0] else names[0] + "|" + Join(names[1..])
  }

  lemma {:induction false} FirstLineOf(line: string, rest: string)
    requires '\n' !in line
    ensures FirstLine(line + "\n" + rest) == line
  {
    var s := line + "\n" + rest;
    if line == "" {
      assert s[0] == '\n';
    } else {
      FirstLineOf(line[1..], rest);
      assert s[1..] == line[1..] + "\n" + rest;
    }
  }

  lemma {:induction false} SplitAt(name: string, rest: string)
    requires '|' !in name
    ensures Split(name + "|" + rest) == [name] + Split(rest)
    ensures Split(name) == [name]
  {
    var s := name + "|" + rest;
    if name == "" {
      assert s[0] == '|' && s[1..] == rest;
    } else {
      SplitAt(name[1..], rest);
      assert s[1..] == name[1..] + "|" + rest;
      assert s[0] == name[0] && name[0] in name;
      assert [name[0]] + name[1..] == name;
    }
  }

  lemma {:induction false} SplitJoins(names: seq<string>)
    requires names != [] && forall name :: name in names ==> '|' !in name
    ensures Split(Join(names)) == names
  {
    assert names[0] in names;
    SplitAt(names[0], Join(names[1..]));
    if |names| > 1 {
      assert forall name :: name in names[1..] ==> name in names;
      SplitJoins(names[1..]);
    } else {
      assert names == [names[0]];
    }
  }

  lemma {:induction false} AllNonEmpty(names: seq<string>)
    requires forall name :: name in names ==> name != ""
    ensures NonEmpty(names) == names
  {
    if names != [] {
      assert names[0] in names && forall name :: name in names[1..] ==> name in names;
      AllNonEmpty(names[1..]);
    }
  }

  lemma {:induction false} OneLine(names: seq<string>)
    requires forall name :: name in names ==> '\n' !in name
    ensures '\n' !in Join(names)
  {
    assert |names| > 0 ==> names[0] in names;
    if |names| > 1 {
      assert forall name :: name in names[1..] ==> name in names;
      OneLine(names[1..]);
    }
  }

  /** A query on one collection, as retrieval builds it, names that collection; a federated one names all of its. */
  lemma QueriesNameTheirCollections(names: seq<string>, query: string)
    requires names != []
    requires forall name :: name in names ==> name != "" && '|' !in name && '\n' !in name
    ensures CollectionsOf("multi-v2:" + Join(names) + "\n" + query) == names
    ensures !StartsWith(names[0], "multi-v2:") ==> CollectionsOf(names[0] + "\n" + query) == [names[0]]
  {
    assert names[0] in names;
    OneLine(names);
    FirstLineOf("multi-v2:" + Join(names), query);
    FirstLineOf(names[0], query);
    SplitJoins(names);
    AllNonEmpty(names);
    assert ("multi-v2:" + Join(names))[|MultiPrefix|..] == Join(names);
    hide Split, NonEmpty, Join, FirstLine;
  }

  lemma {:induction false} BeforeIsTotal(a: string, b: string)
    ensures Before(a, b) || Before(b, a)
  {
    if a != "" && b != "" && a[0] == b[0] {
      BeforeIsTotal(a[1..], b[1..]);
    }
  }

  ghost predicate Ascending(names: seq<string>) {
    forall i :: 0 <= i < |names| - 1 ==> Before(names[i], names[i + 1])
  }

  lemma {:induction false} InsertedAscends(names: seq<string>, name: string)
    requires Ascending(names)
    ensures Ascending(Inserted(names, name)) && multiset(Inserted(names, name)) == multiset(names) + multiset{name}
    ensures Inserted(names, name)[0] == name || (names != [] && Inserted(names, name)[0] == names[0])
  {
    if names != [] {
      assert names == [names[0]] + names[1..];
      if !Before(name, names[0]) {
        BeforeIsTotal(name, names[0]);
        InsertedAscends(names[1..], name);
      }
    }
  }

  /** The tokens of a federated key stand in the order of the names. */
  lemma {:induction false} SortedAscends(names: seq<string>)
    ensures Ascending(Sorted(names)) && multiset(Sorted(names)) == multiset(names)
  {
    if names != [] {
      SortedAscends(names[1..]);
      InsertedAscends(Sorted(names[1..]), names[0]);
      assert names == [names[0]] + names[1..];
    }
  }

  // ----- Runs ----------------------------------------------------------------------------------

  datatype Call =
    | Lookup(r: Request, now: real)
    | Save(r: Request, results: string, ttl: real, now: real)
    | Forget(name: string)
    | ForgetAll

  function OpOf(h: Hashes, d: Store, call: Call): Op {
    match call
    case Lookup(r, now) => GetOp(GenerateKey(h, r), now)
    case Save(r, results, ttl, now) => SetOp(GenerateKey(h, r), CacheEntry(results, now, ttl))
    case Forget(name) => ClearOp(Cleared(h, d, name))
    case ForgetAll => ClearOp(set key | key in d.items)
  }

  /** The cache after the calls, each of which does what its method does. */
  function Answering(h: Hashes, max: nat, calls: seq<Call>): Usage {
    if calls == [] then Usage(OrderedDicts.Empty(), map[], 0)
    else
      var u := Answering(h, max, calls[..|calls| - 1]);
      Step(u, max, OpOf(h, u.cache, calls[|calls| - 1]))
  }

  /**
   What an unbounded cache would hold for the request: the last answer saved for
   an equal one, unless a collection it reads was cleared since, or a lookup
   found it older than its time to live.
   */
  function Stored(calls: seq<Call>, r: Request): Option<CacheEntry> {
    if calls == [] then None
    else
      var before := Stored(calls[..|calls| - 1], r);
      match calls[|calls| - 1]
      case Save(q, results, ttl, now) => if Filled(q) == Filled(r) then Some(CacheEntry(results, now, ttl)) else before
      case Lookup(q, now) =>
        if Filled(q) == Filled(r) && before.Some? && now - before.value.createdAt > before.value.ttl then None else before
      case Forget(name) =>
        if (if name == "" then "documents" else name) in CollectionsOf(r.query) then None else before
      case ForgetAll => None
  }

  /** The other requests saved or looked up since this one was last saved, or looked up while surely cached. */
  function OthersSince(max: nat, calls: seq<Call>, r: Request): set<Request> {
    if calls == [] then {}
    else
      var before := OthersSince(max, calls[..|calls| - 1], r);
      match calls[|calls| - 1]
      case Save(q, _, _, _) => if Filled(q) == Filled(r) then {} else before + {Filled(q)}
      case Lookup(q, _) =>
        if Filled(q) != Filled(r) then before + {Filled(q)} else if |before| < max then {} else before
      case _ => before
  }

  /** No two requests or names that meet in the calls share a truncated hash. */
  ghost predicate NoCollision(h: Hashes, call: Call, r: Request) {
    match call
    case Lookup(q, _) => Apart(h, q, r)
    case Save(q, _, _, _) => Apart(h, q, r)
    case Forget(name) => Injective(h, {ClearedName(name)} + set c | c in CollectionsOf(r.query))
    case ForgetAll => true
  }

  ghost predicate UsedSince(h: Hashes, uses: map<string, nat>, key: string, others: set<Request>) {
    key in uses && forall k :: k in uses && uses[k] > uses[key] ==> exists q :: q in others && GenerateKey(h, q) == k
  }

  /** The invariant of one request's key. */
  ghost predicate Tracks(h: Hashes, max: nat, u: Usage, r: Request, stored: Option<CacheEntry>, others: set<Request>) {
    var key := GenerateKey(h, r);
    && UsageOk(u, max)
    && (key in u.cache.items ==> stored == Some(u.cache.items[key]))
    && (stored.Some? && |others| < max ==> key in u.cache.items && UsedSince(h, u.uses, key, others))
  }

  lemma FilledKey(h: Hashes, q: Request)
    ensures GenerateKey(h, Filled(q)) == GenerateKey(h, q)
  {
    hide Tokens, Sorted, CollectionsOf, FirstLine;
  }

  lemma SameFilledKey(h: Hashes, q: Request, r: Request)
    requires HashesOk(h) && Apart(h, q, r)
    ensures GenerateKey(h, q) == GenerateKey(h, r) <==> Filled(q) == Filled(r)
  {
    hide GenerateKey, HashesOk;
    KeysTellRequestsApart(h, q, r);
  }

  lemma {:induction false} AtMostAsManyKeys(h: Hashes, keys: set<string>, others: set<Request>)
    requires forall k :: k in keys ==> exists q :: q in others && GenerateKey(h, q) == k
    ensures |keys| <= |others|
  {
    hide GenerateKey;
    if keys != {} {
      var k :| k in keys;
      var q :| q in others && GenerateKey(h, q) == k;
      forall k' | k' in keys - {k}
        ensures exists q' :: q' in others - {q} && GenerateKey(h, q') == k'
      {
        var q' :| q' in others && GenerateKey(h, q') == k';
      }
      AtMostAsManyKeys(h, keys - {k}, others - {q});
    }
  }

  lemma {:induction false} AsManyAsListed(order: seq<string>)
    requires forall i, j :: 0 <= i < j < |order| ==> order[i] != order[j]
    ensures |(set k | k in order)| == |order|
  {
    if order != [] {
      var front, last := order[..|order| - 1], order[|order| - 1];
      AsManyAsListed(front);
      assert (set k | k in order) == (set k | k in front) + {last};
    }
  }

  /** A key dropped by an overflowing set was used before the `max` keys that stay. */
  lemma OverflowDropsOldest(u: Usage, max: nat, k: string, e: CacheEntry, key: string) returns (rest: seq<string>)
    requires UsageOk(u, max) && key in u.cache.items && k != key
    requires key !in SetIn(u.cache, max, k, e).items
    ensures |rest| == max && forall i, j :: 0 <= i < j < |rest| ==> rest[i] != rest[j]
    ensures var uses := u.uses[k := u.clock];
            key in uses && forall x :: x in rest ==> x in uses && uses[x] > uses[key]
  {
    OrderedDicts.PopValid(u.cache, k);
    PopSmaller(u.cache, k);
    OrderedDicts.SetValid(OrderedDicts.Pop(u.cache, k), k, e);
    UseKeepsRecency(u.cache.order, k, u.uses, u.clock);
    var all := OrderedDicts.Set(OrderedDicts.Pop(u.cache, k), k, e);
    assert all.order[0] == key && |all.order| == max + 1;
    rest := all.order[1..];
    LaterThanFirst(all.order, u.uses[k := u.clock]);
  }

  lemma LaterThanFirst(order: seq<string>, uses: map<string, nat>)
    requires ByRecency(order, uses) && order != []
    ensures forall x :: x in order[1..] ==> x in uses && uses[x] > uses[order[0]]
  {
    forall x | x in order[1..]
      ensures x in uses && uses[x] > uses[order[0]]
    {
      var i :| 0 <= i < |order[1..]| && order[1..][i] == x;
      assert order[i + 1] == x;
    }
  }

  lemma OverflowHasManyUses(h: Hashes, u: Usage, max: nat, k: string, e: CacheEntry, key: string, others: set<Request>)
    requires UsageOk(u, max) && key in u.cache.items && k != key
    requires key !in SetIn(u.cache, max, k, e).items
    requires UsedSince(h, u.uses[k := u.clock], key, others)
    ensures |others| >= max
  {
    var rest := OverflowDropsOldest(u, max, k, e, key);
    hide GenerateKey, UsageOk, SetIn;
    AsManyAsListed(rest);
    AtMostAsManyKeys(h, (set x | x in rest), others);
  }

  lemma MoreUses(h: Hashes, uses: map<string, nat>, clock: nat, key: string, q: Request, others: set<Request>)
    requires UsedSince(h, uses, key, others) && GenerateKey(h, q) != key
    ensures UsedSince(h, uses[GenerateKey(h, q) := clock], key, others + {Filled(q)})
  {
    FilledKey(h, q);
    hide GenerateKey;
    var uses' := uses[GenerateKey(h, q) := clock];
    forall k | k in uses' && uses'[k] > uses'[key]
      ensures exists q' :: q' in others + {Filled(q)} && GenerateKey(h, q') == k
    {
      if k == GenerateKey(h, q) {
        assert Filled(q) in others + {Filled(q)};
      } else {
        var q' :| q' in others && GenerateKey(h, q') == k;
      }
    }
  }

  lemma FewerBefore(others: set<Request>, q: Request)
    ensures |others| <= |others + {q}|
  {
    if q in others {
      assert others + {q} == others;
    }
  }

  lemma SaveTracks(h: Hashes, max: nat, u: Usage, r: Request, stored: Option<CacheEntry>, others: set<Request>,
                   q: Request, e: CacheEntry)
    requires HashesOk(h) && Apart(h, q, r) && max >= 1 && Tracks(h, max, u, r, stored, others)
    ensures var same := Filled(q) == Filled(r);
            Tracks(h, max, Step(u, max, SetOp(GenerateKey(h, q), e)), r, if same then Some(e) else stored,
                   if same then {} else others + {Filled(q)})
  {
    SameFilledKey(h, q, r);
    hide GenerateKey, HashesOk, UsedSince;
    var key, k := GenerateKey(h, r), GenerateKey(h, q);
    var u' := Step(u, max, SetOp(k, e));
    StepKeeps(u, max, SetOp(k, e));
    hide UsageOk, Tracks;
    if k == key {
      SetIsThere(u, max, key, e);
      NothingSince(h, u.uses, u.clock, key);
    } else {
      OthersOnlyLeave(u, max, k, e, key);
      if stored.Some? && |others + {Filled(q)}| < max {
        FewerBefore(others, Filled(q));
        MoreUses(h, u.uses, u.clock, key, q, others);
        if key !in u'.cache.items {
          OverflowHasManyUses(h, u, max, k, e, key, others + {Filled(q)});
        }
      }
    }
  }

  lemma SetIsThere(u: Usage, max: nat, key: string, e: CacheEntry)
    requires UsageOk(u, max) && max >= 1
    ensures var d := SetIn(u.cache, max, key, e); key in d.items && d.items[key] == e
  {
    OrderedDicts.PopValid(u.cache, key);
    PopSmaller(u.cache, key);
    var all := OrderedDicts.Set(OrderedDicts.Pop(u.cache, key), key, e);
    assert all.order[|all.order| - 1] == key;
    if |all.order| > max {
      OrderedDicts.SetValid(OrderedDicts.Pop(u.cache, key), key, e);
      assert all.order[0] != key;
    }
  }

  lemma OthersOnlyLeave(u: Usage, max: nat, k: string, e: CacheEntry, key: string)
    requires UsageOk(u, max) && k != key
    ensures var d := SetIn(u.cache, max, k, e);
            key in d.items ==> key in u.cache.items && d.items[key] == u.cache.items[key]
  {}

  lemma NothingSince(h: Hashes, uses: map<string, nat>, clock: nat, key: string)
    requires forall k :: k in uses ==> uses[k] < clock
    ensures UsedSince(h, uses[key := clock], key, {})
  {}

  lemma LookupTracks(h: Hashes, max: nat, u: Usage, r: Request, stored: Option<CacheEntry>, others: set<Request>,
                     q: Request, now: real)
    requires HashesOk(h) && Apart(h, q, r) && Tracks(h, max, u, r, stored, others)
    ensures var same := Filled(q) == Filled(r);
            Tracks(h, max, Step(u, max, GetOp(GenerateKey(h, q), now)), r,
                   if same && stored.Some? && now - stored.value.createdAt > stored.value.ttl then None else stored,
                   if !same then others + {Filled(q)} else if |others| < max then {} else others)
  {
    SameFilledKey(h, q, r);
    hide GenerateKey, HashesOk, UsedSince;
    var key, k := GenerateKey(h, r), GenerateKey(h, q);
    StepKeeps(u, max, GetOp(k, now));
    if k == key {
      NothingSince(h, u.uses, u.clock, key);
    } else if stored.Some? && |others + {Filled(q)}| < max {
      FewerBefore(others, Filled(q));
      MoreUses(h, u.uses, u.clock, key, q, others);
      StillUsedSince(h, u.uses, key, others, Filled(q));
    }
  }

  lemma StillUsedSince(h: Hashes, uses: map<string, nat>, key: string, others: set<Request>, q: Request)
    requires UsedSince(h, uses, key, others)
    ensures UsedSince(h, uses, key, others + {q})
  {
    hide GenerateKey;
    forall k | k in uses && uses[k] > uses[key]
      ensures exists q' :: q' in others + {q} && GenerateKey(h, q') == k
    {
      var q' :| q' in others && GenerateKey(h, q') == k;
    }
  }

  lemma ClearTracks(h: Hashes, max: nat, u: Usage, r: Request, stored: Option<CacheEntry>, others: set<Request>,
                    keys: set<string>, cleared: bool)
    requires Tracks(h, max, u, r, stored, others)
    requires GenerateKey(h, r) in u.cache.items ==> (GenerateKey(h, r) in keys <==> cleared)
    ensures Tracks(h, max, Step(u, max, ClearOp(keys)), r, if cleared then None else stored, others)
  {
    hide GenerateKey, UsedSince;
    StepKeeps(u, max, ClearOp(keys));
  }

  lemma {:induction false} AnsweringTracks(h: Hashes, max: nat, calls: seq<Call>, r: Request)
    requires HashesOk(h) && max >= 1
    requires forall call :: call in calls ==> NoCollision(h, call, r)
    ensures Tracks(h, max, Answering(h, max, calls), r, Stored(calls, r), OthersSince(max, calls, r))
  {
    if calls != [] {
      var front, last := calls[..|calls| - 1], calls[|calls| - 1];
      AnsweringTracks(h, max, front, r);
      var u, stored, others := Answering(h, max, front), Stored(front, r), OthersSince(max, front, r);
      assert NoCollision(h, last, r);
      hide GenerateKey, HashesOk, Tracks, CollectionsOf, Step, Clears;
      match last {
        case Lookup(q, now) => LookupTracks(h, max, u, r, stored, others, q, now);
        case Save(q, results, ttl, now) =>
          SaveTracks(h, max, u, r, stored, others, q, CacheEntry(results, now, ttl));
        case Forget(name) =>
          ClearsExactlyItsReaders(h, r, name);
          ClearTracks(h, max, u, r, stored, others, OpOf(h, u.cache, last).keys,
                      ClearedName(name) in CollectionsOf(r.query));
        case ForgetAll => ClearTracks(h, max, u, r, stored, others, OpOf(h, u.cache, last).keys, true);
      }
    }
  }

  /**
   The cache never answers with anything but the last answer saved for an equal
   request, not cleared since and not yet found too old; and it still has it as
   long as fewer than `max` other requests came since.
   */
  lemma AnswersAreTheLastSaved(h: Hashes, max: nat, calls: seq<Call>, r: Request)
    requires HashesOk(h) && max >= 1
    requires forall call :: call in calls ==> NoCollision(h, call, r)
    ensures var items := Answering(h, max, calls).cache.items;
            var key := GenerateKey(h, r);
      && (key in items ==> Stored(calls, r) == Some(items[key]))
      && (Stored(calls, r).Some? && |OthersSince(max, calls, r)| < max ==> key in items)
  {
    hide GenerateKey, HashesOk, UsedSince, Answering, NoCollision;
    AnsweringTracks(h, max, calls, r);
  }

  /**
   A lookup after the calls, answered as the cache's own method answers it:
   whatever it returns is the last answer saved for an equal request and not
   older than its time to live, and such an answer is returned as long as fewer
   than `max` other requests came since.
   */
  lemma LookupServes(h: Hashes, max: nat, calls: seq<Call>, r: Request, now: real, value: Option<string>)
    requires HashesOk(h) && max >= 1
    requires forall call :: call in calls ==> NoCollision(h, call, r)
    requires var items, key := Answering(h, max, calls).cache.items, GenerateKey(h, r);
             value == if key in items && now - items[key].createdAt <= items[key].ttl then Some(items[key].value) else None
    ensures var last := Stored(calls, r);
      && (value.Some? ==> last.Some? && last.value.value == value.value && now - last.value.createdAt <= last.value.ttl)
      && (last.Some? && now - last.value.createdAt <= last.value.ttl && |OthersSince(max, calls, r)| < max ==>
            value == Some(last.value.value))
  {
    hide GenerateKey, HashesOk, Answering, NoCollision, Stored, OthersSince;
    AnswersAreTheLastSaved(h, max, calls, r);
  }
}
