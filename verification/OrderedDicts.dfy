/** An insertion-ordered dictionary, oldest key first, as both in-process stores use it. */
module OrderedDicts {
  import opened Wrappers

  datatype Ordered<V> = Ordered(order: seq<string>, items: map<string, V>)

  function Empty<V>(): Ordered<V> {
    Ordered([], map[])
  }

  ghost predicate Valid<V>(d: Ordered<V>) {
    && (forall i, j :: 0 <= i < j < |d.order| ==> d.order[i] != d.order[j])
    && (forall k :: k in d.order <==> k in d.items)
  }

  function Get<V>(d: Ordered<V>, key: string): Option<V> {
    if key in d.items then Some(d.items[key]) else None
  }

  function Without(order: seq<string>, key: string): (rest: seq<string>)
    ensures forall k :: k in rest <==> k in order && k != key
    ensures key !in order ==> rest == order
  {
    if order == [] then []
    else Without(order[..|order| - 1], key) + if order[|order| - 1] == key then [] else [order[|order| - 1]]
  }

  lemma {:induction false} WithoutKeepsDistinct(order: seq<string>, key: string)
    requires forall i, j :: 0 <= i < j < |order| ==> order[i] != order[j]
    ensures var rest := Without(order, key); forall i, j :: 0 <= i < j < |rest| ==> rest[i] != rest[j]
    ensures |Without(order, key)| == |order| - if key in order then 1 else 0
  {
    if order != [] {
      var front := order[..|order| - 1];
      WithoutKeepsDistinct(front, key);
      assert order[|order| - 1] !in front;
    }
  }

  function Pop<V>(d: Ordered<V>, key: string): Ordered<V> {
    Ordered(Without(d.order, key), d.items - {key})
  }

  /** d[key] = value: a present key keeps its place, a new one goes last. */
  function Set<V>(d: Ordered<V>, key: string, value: V): Ordered<V> {
    Ordered(if key in d.items then d.order else d.order + [key], d.items[key := value])
  }

  /** move_to_end(key) */
  function Touch<V>(d: Ordered<V>, key: string): Ordered<V> {
    if key in d.items then Ordered(Without(d.order, key) + [key], d.items) else d
  }

  /** popitem(last=False) */
  function PopOldest<V>(d: Ordered<V>): Ordered<V>
    requires d.order != []
  {
    Ordered(d.order[1..], d.items - {d.order[0]})
  }

  /** Pops the oldest entries until at most `max` are left. */
  function Evict<V>(d: Ordered<V>, max: nat): Ordered<V>
    decreases |d.order|
  {
    if |d.order| <= max then d else Evict(PopOldest(d), max)
  }

  lemma PopValid<V>(d: Ordered<V>, key: string)
    requires Valid(d)
    ensures Valid(Pop(d, key))
  {
    WithoutKeepsDistinct(d.order, key);
  }

  lemma SetValid<V>(d: Ordered<V>, key: string, value: V)
    requires Valid(d)
    ensures Valid(Set(d, key, value))
  {}

  lemma TouchValid<V>(d: Ordered<V>, key: string)
    requires Valid(d)
    ensures Valid(Touch(d, key))
    ensures |Touch(d, key).order| == |d.order|
  {
    WithoutKeepsDistinct(d.order, key);
  }

  lemma PopOldestValid<V>(d: Ordered<V>)
    requires Valid(d) && d.order != []
    ensures Valid(PopOldest(d))
  {
    var d' := PopOldest(d);
    forall k
      ensures k in d'.order <==> k in d'.items
    {
      assert k in d.order <==> k == d.order[0] || k in d'.order;
    }
  }

  /** Eviction drops exactly the oldest surplus keys and leaves the rest in order. */
  lemma {:induction false} EvictKeepsNewest<V>(d: Ordered<V>, max: nat)
    requires Valid(d)
    ensures Valid(Evict(d, max))
    ensures Evict(d, max).order == if |d.order| <= max then d.order else d.order[|d.order| - max..]
    ensures forall k :: k in Evict(d, max).items ==> k in d.items && Evict(d, max).items[k] == d.items[k]
    decreases |d.order|
  {
    if |d.order| > max {
      var d' := PopOldest(d);
      PopOldestValid(d);
      hide Valid;
      EvictKeepsNewest(d', max);
      assert Evict(d, max) == Evict(d', max);
      hide Evict;
      if |d'.order| > max {
        assert d'.order[|d'.order| - max..] == d.order[|d.order| - max..];
      }
    }
  }

  /** The entry just moved to the end survives any eviction that keeps one. */
  lemma TouchedSurvives<V>(d: Ordered<V>, key: string, max: nat)
    requires Valid(d) && key in d.items && max >= 1
    ensures var kept := Evict(Touch(d, key), max);
            key in kept.items && kept.items[key] == d.items[key] && Valid(kept) && |kept.order| <= max
  {
    TouchValid(d, key);
    EvictKeepsNewest(Touch(d, key), max);
    var kept := Evict(Touch(d, key), max);
    assert kept.order[|kept.order| - 1] == key;
    assert key in kept.order;
  }

  // ----- Removing many keys ---------------------------------------------------------

  function WithoutAll(order: seq<string>, ids: set<string>): (rest: seq<string>)
    ensures forall k :: k in rest <==> k in order && k !in ids
  {
    if order == [] then []
    else WithoutAll(order[..|order| - 1], ids) + if order[|order| - 1] in ids then [] else [order[|order| - 1]]
  }

  function Minus<V>(d: Ordered<V>, ids: set<string>): Ordered<V> {
    Ordered(WithoutAll(d.order, ids), d.items - ids)
  }

  lemma {:induction false} WithoutAllKeepsDistinct(order: seq<string>, ids: set<string>)
    requires forall i, j :: 0 <= i < j < |order| ==> order[i] != order[j]
    ensures var rest := WithoutAll(order, ids);
            (forall i, j :: 0 <= i < j < |rest| ==> rest[i] != rest[j]) && |rest| <= |order|
  {
    if order != [] {
      WithoutAllKeepsDistinct(order[..|order| - 1], ids);
      assert order[|order| - 1] !in order[..|order| - 1];
    }
  }

  lemma MinusValid<V>(d: Ordered<V>, ids: set<string>)
    requires Valid(d)
    ensures Valid(Minus(d, ids)) && |Minus(d, ids).order| <= |d.order|
  {
    WithoutAllKeepsDistinct(d.order, ids);
  }

  lemma WithoutLast(rest: seq<string>, last: string, key: string)
    ensures Without(rest + [last], key) == Without(rest, key) + if last == key then [] else [last]
  {
    assert (rest + [last])[..|rest|] == rest;
  }

  lemma {:induction false} WithoutOneMore(order: seq<string>, ids: set<string>, key: string)
    ensures Without(WithoutAll(order, ids), key) == WithoutAll(order, ids + {key})
  {
    if order != [] {
      var front, last := order[..|order| - 1], order[|order| - 1];
      var rest := WithoutAll(front, ids);
      WithoutOneMore(front, ids, key);
      WithoutLast(rest, last, key);
      hide Without;
      if last in ids {
        assert rest + [] == rest;
      }
    }
  }

  lemma {:induction false} WithoutNone(order: seq<string>)
    ensures WithoutAll(order, {}) == order
  {
    if order != [] {
      WithoutNone(order[..|order| - 1]);
    }
  }

  lemma {:induction false} WithoutAllTwice(order: seq<string>, a: set<string>, b: set<string>)
    ensures WithoutAll(WithoutAll(order, a), b) == WithoutAll(order, a + b)
  {
    if order != [] {
      var front, last := order[..|order| - 1], order[|order| - 1];
      WithoutAllTwice(front, a, b);
      if last in a {
        assert WithoutAll(order, a) == WithoutAll(front, a);
      } else {
        assert (WithoutAll(front, a) + [last])[..|WithoutAll(front, a)|] == WithoutAll(front, a);
      }
    }
  }

  lemma MinusTwice<V>(d: Ordered<V>, a: set<string>, b: set<string>)
    ensures Minus(Minus(d, a), b) == Minus(d, a + b)
  {
    WithoutAllTwice(d.order, a, b);
    assert d.items - a - b == d.items - (a + b);
  }

  function Keys(ids: seq<string>): set<string> {
    set k | k in ids
  }

  /** Pops every listed key, as each clearing operation does after collecting its keys. */
  method PopAll<V>(d: Ordered<V>, ids: seq<string>) returns (rest: Ordered<V>)
    ensures rest == Minus(d, Keys(ids))
  {
    rest := d;
    WithoutNone(d.order);
    assert Keys(ids[..0]) == {} && d.items - {} == d.items;
    for i := 0 to |ids|
      invariant rest == Minus(d, Keys(ids[..i]))
    {
      WithoutOneMore(d.order, Keys(ids[..i]), ids[i]);
      assert Keys(ids[..i + 1]) == Keys(ids[..i]) + {ids[i]};
      rest := Pop(rest, ids[i]);
    }
    assert ids[..|ids|] == ids;
  }

  /** Pops oldest entries one at a time while more than `max` are left. */
  method PopSurplus<V>(d: Ordered<V>, max: nat) returns (rest: Ordered<V>)
    ensures rest == Evict(d, max)
  {
    rest := d;
    while |rest.order| > max
      invariant Evict(rest, max) == Evict(d, max)
      decreases |rest.order|
    {
      rest := PopOldest(rest);
    }
  }
}
