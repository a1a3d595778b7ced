/**
 The in-process query cache: a least-recently-used store, keys that encode the
 collections a query reads, and clearing by collection through those keys.
 */
module Cache {
  import opened Wrappers
  import opened OrderedDicts

  // ----- Least recently used ------------------------------------------------------------

  datatype CacheEntry = CacheEntry(value: string, createdAt: real, ttl: real)

  type Store = Ordered<CacheEntry>

  predicate IsExpired(e: CacheEntry, now: real) {
    now - e.createdAt > e.ttl
  }

  function GetIn(d: Store, key: string, now: real): Store {
    if key !in d.items then d
    else if IsExpired(d.items[key], now) then Pop(d, key)
    else Touch(d, key)
  }

  function SetIn(d: Store, max: nat, key: string, e: CacheEntry): Store {
    var stored := Set(Pop(d, key), key, e);
    if |stored.order| > max then PopOldest(stored) else stored
  }

  predicate StartsWith(s: string, prefix: string) {
    prefix <= s
  }

  predicate At(s: string, i: int, t: string) {
    0 <= i <= |s| - |t| && s[i..i + |t|] == t
  }

  predicate Contains(s: string, t: string) {
    exists i | 0 <= i <= |s| :: At(s, i, t)
  }

  function WithPrefix(d: Store, prefix: string): set<string> {
    set key | key in d.items && StartsWith(key, prefix)
  }

  function MultiKeysWith(d: Store, token: string): set<string> {
    set key | key in d.items && StartsWith(key, "v2:") && Contains(key, token)
  }

  class SimpleLRUCache {
    const max: nat
    var cache: Store

    ghost predicate Valid()
      reads this
    {
      OrderedDicts.Valid(cache) && |cache.order| <= max
    }

    constructor (max: nat)
      ensures Valid() && this.max == max && cache == Empty()
    {
      this.max, cache := max, Empty();
    }

    method Get(key: string, now: real) returns (value: Option<string>)
      requires Valid()
      modifies this`cache
      ensures Valid() && cache == GetIn(old(cache), key, now)
      ensures value == if key in old(cache).items && !IsExpired(old(cache).items[key], now)
                       then Some(old(cache).items[key].value) else None
    {
      if key !in cache.items {
        return None;
      }
      var entry := cache.items[key];
      if IsExpired(entry, now) {
        PopValid(cache, key);
        PopSmaller(cache, key);
        cache := Pop(cache, key);
        return None;
      }
      TouchValid(cache, key);
      cache := Touch(cache, key);
      return Some(entry.value);
    }

    method Set(key: string, value: string, ttl: real, now: real)
      requires Valid()
      modifies this`cache
      ensures Valid() && cache == SetIn(old(cache), max, key, CacheEntry(value, now, ttl))
    {
      PopValid(cache, key);
      PopSmaller(cache, key);
      cache := Pop(cache, key);
      SetValid(cache, key, CacheEntry(value, now, ttl));
      cache := OrderedDicts.Set(cache, key, CacheEntry(value, now, ttl));
      if |cache.order| > max {
        PopOldestValid(cache);
        cache := PopOldest(cache);
      }
    }

    method Clear()
      modifies this`cache
      ensures Valid() && cache == Empty()
    {
      cache := Empty();
    }

    method ClearPrefix(prefix: string) returns (count: nat)
      requires Valid()
      modifies this`cache
      ensures Valid() && cache == Minus(old(cache), WithPrefix(old(cache), prefix))
      ensures count == |WithPrefix(old(cache), prefix)|
    {
      var keys := [];
      for i := 0 to |cache.order|
        invariant cache == old(cache) && |Keys(keys)| == |keys|
        invariant forall k :: k in keys <==> k in cache.order[..i] && StartsWith(k, prefix)
      {
        var key := cache.order[i];
        if StartsWith(key, prefix) {
          assert key !in cache.order[..i];
          assert Keys(keys + [key]) == Keys(keys) + {key};
          keys := keys + [key];
        }
      }
      assert cache.order[..|cache.order|] == cache.order;
      assert Keys(keys) == WithPrefix(cache, prefix);
      MinusValid(cache, Keys(keys));
      cache := PopAll(cache, keys);
      return |keys|;
    }

    /** clear_matching with the predicate of clear_collection. */
    method ClearMulti(token: string) returns (count: nat)
      requires Valid()
      modifies this`cache
      ensures Valid() && cache == Minus(old(cache), MultiKeysWith(old(cache), token))
      ensures count == |MultiKeysWith(old(cache), token)|
    {
      hide Contains;
      var keys := [];
      for i := 0 to |cache.order|
        invariant cache == old(cache) && |Keys(keys)| == |keys|
        invariant forall k :: k in keys <==>
          k in cache.order[..i] && StartsWith(k, "v2:") && Contains(k, token)
      {
        var key := cache.order[i];
        if StartsWith(key, "v2:") && Contains(key, token) {
          assert key !in cache.order[..i];
          assert Keys(keys + [key]) == Keys(keys) + {key};
          keys := keys + [key];
        }
      }
      assert cache.order[..|cache.order|] == cache.order;
      assert Keys(keys) == MultiKeysWith(cache, token);
      MinusValid(cache, Keys(keys));
      cache := PopAll(cache, keys);
      return |keys|;
    }
  }

  lemma PopSmaller<V>(d: Ordered<V>, key: string)
    requires OrderedDicts.Valid(d)
    ensures |Pop(d, key).order| <= |d.order| && (key in d.order ==> |Pop(d, key).order| == |d.order| - 1)
  {
    WithoutKeepsDistinct(d.order, key);
  }

  // ----- Recency over whole runs ------------------------------------------------------------

  datatype Op =
    | GetOp(key: string, now: real)
    | SetOp(key: string, entry: CacheEntry)
    | ClearOp(keys: set<string>)

  /** `uses` remembers when each key was last set or read with a hit. */
  datatype Usage = Usage(cache: Store, uses: map<string, nat>, clock: nat)

  predicate Hits(d: Store, op: Op) {
    match op
    case GetOp(key, now) => key in d.items && !IsExpired(d.items[key], now)
    case SetOp(_, _) => true
    case ClearOp(_) => false
  }

  function Step(u: Usage, max: nat, op: Op): Usage {
    var next := match op
      case GetOp(key, now) => GetIn(u.cache, key, now)
      case SetOp(key, entry) => SetIn(u.cache, max, key, entry)
      case ClearOp(keys) => Minus(u.cache, keys);
    Usage(next, if Hits(u.cache, op) then u.uses[op.key := u.clock] else u.uses, u.clock + 1)
  }

  function RunOps(max: nat, ops: seq<Op>): Usage {
    if ops == [] then Usage(Empty(), map[], 0)
    else Step(RunOps(max, ops[..|ops| - 1]), max, ops[|ops| - 1])
  }

  /** The keys stand in the order of their last use. */
  ghost predicate ByRecency(order: seq<string>, uses: map<string, nat>) {
    && (forall i :: 0 <= i < |order| ==> order[i] in uses)
    && (forall i, j :: 0 <= i < j < |order| ==> uses[order[i]] < uses[order[j]])
  }

  ghost predicate UsageOk(u: Usage, max: nat) {
    && OrderedDicts.Valid(u.cache) && |u.cache.order| <= max
    && ByRecency(u.cache.order, u.uses)
    && (forall k :: k in u.uses ==> u.uses[k] < u.clock)
  }

  lemma {:induction false} WithoutKeepsRecency(order: seq<string>, key: string, uses: map<string, nat>)
    requires ByRecency(order, uses)
    ensures ByRecency(Without(order, key), uses)
    ensures forall i :: 0 <= i < |Without(order, key)| && order != [] ==>
                          uses[Without(order, key)[i]] <= uses[order[|order| - 1]]
  {
    if order != [] {
      var front := order[..|order| - 1];
      WithoutKeepsRecency(front, key, uses);
      if front != [] {
        assert uses[front[|front| - 1]] < uses[order[|order| - 1]];
      }
    }
  }

  lemma {:induction false} WithoutAllKeepsRecency(order: seq<string>, keys: set<string>, uses: map<string, nat>)
    requires ByRecency(order, uses)
    ensures ByRecency(WithoutAll(order, keys), uses)
    ensures forall i :: 0 <= i < |WithoutAll(order, keys)| && order != [] ==>
                          uses[WithoutAll(order, keys)[i]] <= uses[order[|order| - 1]]
  {
    if order != [] {
      var front := order[..|order| - 1];
      WithoutAllKeepsRecency(front, keys, uses);
      if front != [] {
        assert uses[front[|front| - 1]] < uses[order[|order| - 1]];
      }
    }
  }

  /** Moving a key to the end and stamping it with the clock keeps the order of use. */
  lemma UseKeepsRecency(order: seq<string>, key: string, uses: map<string, nat>, clock: nat)
    requires ByRecency(order, uses) && forall k :: k in uses ==> uses[k] < clock
    ensures ByRecency(Without(order, key) + [key], uses[key := clock])
  {
    WithoutKeepsRecency(order, key, uses);
    var rest := Without(order, key);
    assert forall i :: 0 <= i < |rest| ==> rest[i] in rest && rest[i] != key;
  }

  lemma StepKeeps(u: Usage, max: nat, op: Op)
    requires UsageOk(u, max)
    ensures UsageOk(Step(u, max, op), max)
  {
    match op
    case GetOp(key, now) =>
      if key in u.cache.items {
        if IsExpired(u.cache.items[key], now) {
          PopValid(u.cache, key);
          PopSmaller(u.cache, key);
          WithoutKeepsRecency(u.cache.order, key, u.uses);
        } else {
          TouchValid(u.cache, key);
          UseKeepsRecency(u.cache.order, key, u.uses, u.clock);
        }
      }
    case SetOp(key, entry) => SetKeeps(u, max, key, entry);
    case ClearOp(keys) =>
      MinusValid(u.cache, keys);
      WithoutAllKeepsRecency(u.cache.order, keys, u.uses);
  }

  lemma SetKeeps(u: Usage, max: nat, key: string, entry: CacheEntry)
    requires UsageOk(u, max)
    ensures UsageOk(Step(u, max, SetOp(key, entry)), max)
  {
    PopValid(u.cache, key);
    PopSmaller(u.cache, key);
    SetValid(Pop(u.cache, key), key, entry);
    UseKeepsRecency(u.cache.order, key, u.uses, u.clock);
    var stored := Set(Pop(u.cache, key), key, entry);
    if |stored.order| > max {
      PopOldestValid(stored);
    }
  }

  /** After any operations the cache is within its size and ordered by last use. */
  lemma {:induction false} RunKeeps(max: nat, ops: seq<Op>)
    ensures UsageOk(RunOps(max, ops), max)
  {
    if ops != [] {
      RunKeeps(max, ops[..|ops| - 1]);
      StepKeeps(RunOps(max, ops[..|ops| - 1]), max, ops[|ops| - 1]);
    }
  }

  /** No other key has waited longer for its next use. */
  predicate LeastRecentlyUsed(u: Usage, key: string) {
    && key in u.cache.items && key in u.uses
    && forall other :: other in u.cache.items && other != key ==> other in u.uses && u.uses[key] < u.uses[other]
  }

  lemma FirstIsLeastRecent(u: Usage, max: nat)
    requires UsageOk(u, max) && u.cache.order != []
    ensures LeastRecentlyUsed(u, u.cache.order[0])
  {
    var oldest := u.cache.order[0];
    assert oldest in u.cache.order;
    forall other | other in u.cache.items && other != oldest
      ensures other in u.uses && u.uses[oldest] < u.uses[other]
    {
      assert other in u.cache.order;
      var i :| 0 <= i < |u.cache.order| && u.cache.order[i] == other;
    }
  }

  /**
   A set evicts nothing while there is room or the key is there already;
   otherwise exactly one entry goes: the least recently used.
   */
  lemma EvictsLeastRecentlyUsed(max: nat, ops: seq<Op>, key: string, entry: CacheEntry)
    requires max >= 1
    ensures var u := RunOps(max, ops);
            var after := SetIn(u.cache, max, key, entry);
      if key in u.cache.items || |u.cache.order| < max then after.items == u.cache.items[key := entry]
      else exists oldest :: LeastRecentlyUsed(u, oldest) && after.items == (u.cache.items - {oldest})[key := entry]
  {
    RunKeeps(max, ops);
    var u := RunOps(max, ops);
    hide RunOps;
    PopSmaller(u.cache, key);
    assert (u.cache.items - {key})[key := entry] == u.cache.items[key := entry];
    if key in u.cache.items || |u.cache.order| < max {
      assert key in u.cache.items ==> key in u.cache.order;
    } else {
      FirstIsLeastRecent(u, max);
      FullSet(u.cache, max, key, entry);
    }
  }

  lemma FullSet(d: Store, max: nat, key: string, entry: CacheEntry)
    requires OrderedDicts.Valid(d) && max >= 1 && |d.order| == max && key !in d.items
    ensures SetIn(d, max, key, entry).items == (d.items - {d.order[0]})[key := entry]
  {
    assert key !in d.order && d.order[0] in d.order;
    hide OrderedDicts.Valid, Without;
    assert d.items - {key} == d.items;
    assert Pop(d, key) == d;
    var stored := Set(Pop(d, key), key, entry);
    assert stored.order[0] == d.order[0] && d.order[0] != key;
    assert d.items[key := entry] - {d.order[0]} == (d.items - {d.order[0]})[key := entry];
  }

  // ----- Keys ----------------------------------------------------------------------------

  /** The two truncated hashes, as hexadecimal text; the query hash covers the whole request. */
  datatype Request = Request(query: string, k: int, model: string, namespace: string)

  datatype Hashes = Hashes(name: string -> string, request: Request -> string)

  predicate IsHex(c: char) {
    '0' <= c <= '9' || 'a' <= c <= 'f'
  }

  predicate IsHexText(s: string, n: nat) {
    |s| == n && forall i :: 0 <= i < |s| ==> IsHex(s[i])
  }

  /** Twelve and twenty hexadecimal digits, as the code truncates them. */
  ghost predicate HashesOk(h: Hashes) {
    && (forall name :: IsHexText(h.name(name), 12))
    && (forall r :: IsHexText(h.request(r), 20))
  }

  const MultiPrefix := "multi-v2:"

  function FirstLine(s: string): string {
    if s == "" || s[0] == '\n' then "" else [s[0]] + FirstLine(s[1..])
  }

  /** split("|") */
  function Split(s: string): (parts: seq<string>)
    ensures parts != []
  {
    if s == "" then [""]
    else
      var rest := Split(s[1..]);
      if s[0] == '|' then [""] + rest else [[s[0]] + rest[0]] + rest[1..]
  }

  function NonEmpty(parts: seq<string>): seq<string> {
    if parts == [] then [] else (if parts[0] == "" then [] else [parts[0]]) + NonEmpty(parts[1..])
  }

  predicate Before(a: string, b: string) {
    a == "" || (b != "" && (a[0] < b[0] || (a[0] == b[0] && Before(a[1..], b[1..]))))
  }

  function Inserted(names: seq<string>, name: string): seq<string> {
    if names == [] || Before(name, names[0]) then [name] + names else [names[0]] + Inserted(names[1..], name)
  }

  function Sorted(names: seq<string>): seq<string> {
    if names == [] then [] else Inserted(Sorted(names[1..]), names[0])
  }

  /** The collections a query names on its first line. */
  function CollectionsOf(query: string): seq<string> {
    var first := FirstLine(query);
    if StartsWith(first, MultiPrefix) then NonEmpty(Split(first[|MultiPrefix|..])) else [first]
  }

  function Token(h: Hashes, name: string): string {
    "|" + h.name(name) + "|"
  }

  function Tokens(h: Hashes, names: seq<string>): string {
    if names == [] then "" else Token(h, names[0]) + Tokens(h, names[1..])
  }

  function GenerateKey(h: Hashes, r: Request): string {
    var request := if r.namespace == "" then r.(namespace := "stateless") else r;
    var first := FirstLine(r.query);
    if StartsWith(first, MultiPrefix) then "v2:" + Tokens(h, Sorted(CollectionsOf(r.query))) + ":" + h.request(request)
    else h.name(first) + ":" + h.request(request)
  }

  function ClearedName(name: string): string {
    if name == "" then "documents" else name
  }

  /** Which keys clear_collection removes. */
  predicate Clears(h: Hashes, name: string, key: string) {
    || StartsWith(key, h.name(ClearedName(name)) + ":")
    || (StartsWith(key, "v2:") && Contains(key, Token(h, ClearedName(name))))
  }

  lemma {:induction false} InsertedIs(names: seq<string>, name: string, x: string)
    ensures x in Inserted(names, name) <==> x == name || x in names
  {
    if names != [] && !Before(name, names[0]) {
      InsertedIs(names[1..], name, x);
    }
  }

  lemma {:induction false} SortedIs(names: seq<string>, x: string)
    ensures x in Sorted(names) <==> x in names
  {
    if names != [] {
      SortedIs(names[1..], x);
      InsertedIs(Sorted(names[1..]), names[0], x);
    }
  }

  // ----- Where a token can stand in a key ---------------------------------------------------

  /** Bars stand only at the two ends of each fourteen-character token. */
  lemma {:induction false} TokensAt(h: Hashes, names: seq<string>)
    requires HashesOk(h)
    ensures |Tokens(h, names)| == 14 * |names|
    ensures forall p :: 0 <= p < |Tokens(h, names)| ==> (Tokens(h, names)[p] == '|' <==> p % 14 == 0 || p % 14 == 13)
    ensures forall j :: 0 <= j < |names| ==> Tokens(h, names)[14 * j..14 * j + 14] == Token(h, names[j])
  {
    if names != [] {
      var rest, all, first := Tokens(h, names[1..]), Tokens(h, names), Token(h, names[0]);
      TokensAt(h, names[1..]);
      TokenBars(h, names[0]);
      forall p | 0 <= p < |all|
        ensures all[p] == '|' <==> p % 14 == 0 || p % 14 == 13
      {
        if p >= 14 {
          assert all[p] == rest[p - 14] && (p - 14) % 14 == p % 14;
        } else {
          assert all[p] == first[p];
        }
      }
      forall j | 0 <= j < |names|
        ensures all[14 * j..14 * j + 14] == Token(h, names[j])
      {
        if j > 0 {
          assert all[14 * j..14 * j + 14] == rest[14 * (j - 1)..14 * (j - 1) + 14];
        } else {
          assert all[0..14] == first;
        }
      }
    }
  }

  lemma TokenBars(h: Hashes, name: string)
    requires HashesOk(h)
    ensures |Token(h, name)| == 14
    ensures forall p :: 0 <= p < 14 ==> (Token(h, name)[p] == '|' <==> p == 0 || p == 13)
  {
    var hash := h.name(name);
    assert IsHexText(hash, 12);
    forall p | 0 < p < 13
      ensures Token(h, name)[p] != '|'
    {
      assert Token(h, name)[p] == hash[p - 1] && IsHex(hash[p - 1]);
    }
  }

  /** A token occurs in a multi-collection key exactly when one of its names has that hash. */
  lemma TokenInKey(h: Hashes, names: seq<string>, r: Request, name: string)
    requires HashesOk(h)
    ensures Contains("v2:" + Tokens(h, names) + ":" + h.request(r), Token(h, name))
            <==> exists other :: other in names && h.name(other) == h.name(name)
  {
    var tokens, tail := Tokens(h, names), ":" + h.request(r);
    var key, token := "v2:" + tokens + ":" + h.request(r), Token(h, name);
    assert key == "v2:" + tokens + tail;
    TokensAt(h, names);
    TokenBars(h, name);
    hide Tokens, HashesOk, IsHexText;
    if Contains(key, token) {
      var i :| 0 <= i <= |key| && At(key, i, token);
      OccurrenceIsToken(h, names, r, name, i);
    }
    if exists other :: other in names && h.name(other) == h.name(name) {
      var other :| other in names && h.name(other) == h.name(name);
      var j :| 0 <= j < |names| && names[j] == other;
      TokenOccurs(tokens, tail, j, token);
      assert At(key, 3 + 14 * j, token);
    }
  }

  lemma TokenOccurs(tokens: string, tail: string, j: nat, token: string)
    requires 14 * j + 14 <= |tokens| && |token| == 14
    ensures ("v2:" + tokens + tail)[3 + 14 * j..3 + 14 * j + 14] == tokens[14 * j..14 * j + 14]
  {}

  lemma OccurrenceIsToken(h: Hashes, names: seq<string>, r: Request, name: string, i: int)
    requires HashesOk(h)
    requires At("v2:" + Tokens(h, names) + ":" + h.request(r), i, Token(h, name))
    ensures exists other :: other in names && h.name(other) == h.name(name)
  {
    var tokens, tail := Tokens(h, names), ":" + h.request(r);
    var key, token := "v2:" + tokens + ":" + h.request(r), Token(h, name);
    assert key == "v2:" + tokens + tail;
    TokensAt(h, names);
    TokenBars(h, name);
    assert token[0] == '|' && token[13] == '|';
    Shifted(key, i, token);
    BarsInTokens(h, names, r, i);
    BarsInTokens(h, names, r, i + 13);
    hide Tokens, Token, HashesOk, IsHexText, At;
    var j := Aligned(i - 3, |names|);
    TokenOccurs(tokens, tail, j, token);
    TokenDetermines(h, names[j], name);
    assert names[j] in names;
  }

  /** Two bars thirteen characters apart are the ends of one token. */
  lemma Aligned(p: int, n: nat) returns (j: nat)
    requires 0 <= p && p + 13 < 14 * n
    requires (p % 14 == 0 || p % 14 == 13) && ((p + 13) % 14 == 0 || (p + 13) % 14 == 13)
    ensures p == 14 * j && j < n
  {
    j := p / 14;
  }

  lemma Shifted(key: string, i: int, token: string)
    requires At(key, i, token) && |token| == 14
    ensures key[i] == token[0] && key[i + 13] == token[13] && key[i..i + 14] == token
  {
    assert key[i..i + 14][0] == key[i] && key[i..i + 14][13] == key[i + 13];
  }

  lemma TokenDetermines(h: Hashes, a: string, b: string)
    ensures Token(h, a) == Token(h, b) ==> h.name(a) == h.name(b)
  {
    assert Token(h, a)[1..|Token(h, a)| - 1] == h.name(a);
    assert Token(h, b)[1..|Token(h, b)| - 1] == h.name(b);
  }

  lemma BarsInTokens(h: Hashes, names: seq<string>, r: Request, p: int)
    requires HashesOk(h)
    requires var key := "v2:" + Tokens(h, names) + ":" + h.request(r); 0 <= p < |key| && key[p] == '|'
    ensures 3 <= p < 3 + 14 * |names| && ((p - 3) % 14 == 0 || (p - 3) % 14 == 13)
  {
    var tokens, hash := Tokens(h, names), h.request(r);
    var key := "v2:" + tokens + ":" + hash;
    TokensAt(h, names);
    assert IsHexText(hash, 20);
    hide Tokens;
    assert forall i :: 0 <= i < |hash| ==> IsHex(hash[i]);
    assert key[..3] == "v2:";
    assert forall i :: 0 <= i < |tokens| ==> key[i + 3] == tokens[i];
    assert key[3 + |tokens|] == ':';
    assert key[4 + |tokens|..] == hash;
    if 3 <= p < 3 + |tokens| {
      assert tokens[p - 3] == '|';
    }
  }

  // ----- Clearing by collection ---------------------------------------------------------------

  lemma SingleKey(h: Hashes, first: string, r: Request, name: string)
    requires HashesOk(h)
    ensures StartsWith(h.name(first) + ":" + h.request(r), h.name(name) + ":") <==> h.name(first) == h.name(name)
    ensures !StartsWith(h.name(first) + ":" + h.request(r), "v2:")
  {
    assert IsHexText(h.name(first), 12) && IsHexText(h.name(name), 12);
    var key, prefix := h.name(first) + ":" + h.request(r), h.name(name) + ":";
    if prefix <= key {
      assert key[..13] == prefix;
      assert key[..13][..12] == h.name(first) && prefix[..12] == h.name(name);
    }
    if h.name(first) == h.name(name) {
      assert key[..13] == prefix;
    }
    assert IsHex(h.name(first)[0]) && key[0] == h.name(first)[0];
  }

  lemma MultiKeyIsNotSingle(h: Hashes, rest: string, name: string)
    requires HashesOk(h)
    ensures !StartsWith("v2:" + rest, h.name(name) + ":")
  {
    assert IsHexText(h.name(name), 12);
    assert IsHex(h.name(name)[0]);
    assert (h.name(name) + ":")[0] != ("v2:" + rest)[0];
  }

  /** Names that hash alike are alike, among the names in use. */
  ghost predicate Injective(h: Hashes, names: set<string>) {
    forall a, b :: a in names && b in names && h.name(a) == h.name(b) ==> a == b
  }

  /**
   Complete and precise: a cached answer is cleared exactly when its query
   reads the collection, alone or among others.
   */
  lemma ClearsExactlyItsReaders(h: Hashes, r: Request, name: string)
    requires HashesOk(h)
    requires Injective(h, {ClearedName(name)} + set c | c in CollectionsOf(r.query))
    ensures Clears(h, name, GenerateKey(h, r)) <==> ClearedName(name) in CollectionsOf(r.query)
  {
    var request := if r.namespace == "" then r.(namespace := "stateless") else r;
    var first, target, names := FirstLine(r.query), ClearedName(name), CollectionsOf(r.query);
    hide HashesOk, Contains, ClearedName, FirstLine, Split, NonEmpty, Tokens, Sorted, Token;
    if StartsWith(first, MultiPrefix) {
      MultiKeyClears(h, names, request, target);
    } else {
      assert names == [first];
      SingleKey(h, first, request, target);
    }
  }

  lemma MultiKeyClears(h: Hashes, names: seq<string>, r: Request, name: string)
    requires HashesOk(h) && Injective(h, {name} + set c | c in names)
    ensures var key := "v2:" + Tokens(h, Sorted(names)) + ":" + h.request(r);
      && StartsWith(key, "v2:") && !StartsWith(key, h.name(name) + ":")
      && (Contains(key, Token(h, name)) <==> name in names)
  {
    var rest := Tokens(h, Sorted(names)) + ":" + h.request(r);
    assert "v2:" + rest == "v2:" + Tokens(h, Sorted(names)) + ":" + h.request(r);
    MultiKeyIsNotSingle(h, rest, name);
    TokenInKey(h, Sorted(names), r, name);
    SortedIs(names, name);
    hide HashesOk, Contains, Tokens, Sorted, Token, StartsWith;
    forall other | other in Sorted(names) && h.name(other) == h.name(name)
      ensures other == name
    {
      SortedIs(names, other);
    }
    assert ("v2:" + rest)[..3] == "v2:";
  }

  class RAGCache {
    const hashes: Hashes
    const lru: SimpleLRUCache

    constructor (hashes: Hashes, lru: SimpleLRUCache)
      ensures this.hashes == hashes && this.lru == lru
    {
      this.hashes, this.lru := hashes, lru;
    }

    /** The stored answer while it is not older than its time to live; an older one is dropped. */
    method Get(r: Request, now: real) returns (value: Option<string>)
      requires lru.Valid()
      modifies lru`cache
      ensures lru.Valid() && lru.cache == GetIn(old(lru.cache), GenerateKey(hashes, r), now)
      ensures var items, key := old(lru.cache).items, GenerateKey(hashes, r);
              value == if key in items && now - items[key].createdAt <= items[key].ttl then Some(items[key].value) else None
    {
      value := lru.Get(GenerateKey(hashes, r), now);
    }

    method Set(r: Request, results: string, ttl: real, now: real)
      requires lru.Valid()
      modifies lru`cache
      ensures lru.Valid()
      ensures lru.cache == SetIn(old(lru.cache), lru.max, GenerateKey(hashes, r), CacheEntry(results, now, ttl))
    {
      lru.Set(GenerateKey(hashes, r), results, ttl, now);
    }

    method Clear()
      modifies lru`cache
      ensures lru.Valid() && lru.cache == Empty()
    {
      lru.Clear();
    }

    /**
     Single-collection keys by prefix, then multi-collection keys by token; the
     other entries keep their values and their order.
     */
    method ClearCollection(name: string) returns (deleted: nat)
      requires lru.Valid()
      modifies lru`cache
      ensures lru.Valid()
      ensures lru.cache == Minus(old(lru.cache), Cleared(hashes, old(lru.cache), name))
      ensures deleted == |Cleared(hashes, old(lru.cache), name)|
    {
      hide Contains, StartsWith, WithPrefix, MultiKeysWith, Minus, Cleared, OrderedDicts.Valid;
      ClearedInTwo(hashes, lru.cache, name);
      var hash := hashes.name(ClearedName(name));
      var single := lru.ClearPrefix(hash + ":");
      var multi := lru.ClearMulti("|" + hash + "|");
      return single + multi;
    }
  }

  /** Clearing first by prefix and then by token clears the same keys at once. */
  lemma ClearedInTwo(h: Hashes, d: Store, name: string)
    ensures var hash := h.name(ClearedName(name));
            var first := WithPrefix(d, hash + ":");
            var second := MultiKeysWith(Minus(d, first), "|" + hash + "|");
      && Minus(Minus(d, first), second) == Minus(d, Cleared(h, d, name))
      && |first| + |second| == |Cleared(h, d, name)|
  {
    hide Contains, StartsWith;
    var hash := h.name(ClearedName(name));
    var first := WithPrefix(d, hash + ":");
    var second := MultiKeysWith(Minus(d, first), "|" + hash + "|");
    MinusTwice(d, first, second);
    assert first + second == Cleared(h, d, name) && first !! second;
  }

  /** The cached keys that clear_collection removes. */
  function Cleared(h: Hashes, d: Store, name: string): set<string> {
    set key | key in d.items && Clears(h, name, key)
  }

  /** In terms of requests: after the clear no reader of the collection hits, and every other one still does. */
  lemma AfterClear(h: Hashes, d: Store, name: string, r: Request)
    requires HashesOk(h)
    requires Injective(h, {ClearedName(name)} + set c | c in CollectionsOf(r.query))
    ensures GenerateKey(h, r) in Minus(d, Cleared(h, d, name)).items <==>
              GenerateKey(h, r) in d.items && ClearedName(name) !in CollectionsOf(r.query)
  {
    hide Clears, GenerateKey, CollectionsOf;
    ClearsExactlyItsReaders(h, r, name);
  }
}
