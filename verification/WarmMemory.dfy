/**
 The warm copy of a conversation: a summary, a cursor and recent turns.  What
 inserting a turn, applying a summary and replacing the copy do, and when the
 copy may be trusted to represent the durable transcript.
 */
module WarmMemory {
  import opened Wrappers

  datatype WarmTurn = WarmTurn(user: string, assistant: string, sequence: Option<int>)

  /** `summary` lists the assistant sequences folded into the summary text. */
  datatype WarmState = WarmState(
    summary: seq<int>,
    through: int,
    turns: seq<WarmTurn>,
    knowledgeBases: set<string>,
    updatedAt: real,
    version: int)

  datatype SummaryJob = SummaryJob(
    previous: seq<int>,
    toSummarize: seq<WarmTurn>,
    recent: seq<WarmTurn>,
    version: int)

  /** The assistant sequences of the sequenced turns, in list order. */
  function Sequences(turns: seq<WarmTurn>): seq<int> {
    if turns == [] then []
    else (if turns[0].sequence.Some? then [turns[0].sequence.value] else []) + Sequences(turns[1..])
  }

  predicate Sequenced(turns: seq<WarmTurn>) {
    forall t :: t in turns ==> t.sequence.Some?
  }

  predicate Ascending(xs: seq<int>) {
    forall i, j :: 0 <= i < j < |xs| ==> xs[i] < xs[j]
  }

  predicate AllAbove(xs: seq<int>, bound: int) {
    forall x :: x in xs ==> x > bound
  }

  // ----- Inserting a turn ----------------------------------------------------------

  /** Before the first turn with a higher sequence, unless the sequence is already there. */
  function InsertSorted(turns: seq<WarmTurn>, t: WarmTurn): seq<WarmTurn>
    requires t.sequence.Some?
  {
    if turns == [] then [t]
    else
      var first := turns[0];
      if first.sequence.None? then [first] + InsertSorted(turns[1..], t)
      else if first.sequence.value == t.sequence.value then turns
      else if first.sequence.value > t.sequence.value then [t] + turns
      else [first] + InsertSorted(turns[1..], t)
  }

  function InsertTurn(turns: seq<WarmTurn>, through: int, t: WarmTurn): seq<WarmTurn> {
    if t.sequence.None? then turns + [t]
    else if t.sequence.value <= through then turns
    else InsertSorted(turns, t)
  }

  function InsertAll(turns: seq<WarmTurn>, through: int, batch: seq<WarmTurn>): seq<WarmTurn>
    decreases |batch|
  {
    if batch == [] then turns else InsertAll(InsertTurn(turns, through, batch[0]), through, batch[1..])
  }

  lemma SequencesUnfold(turns: seq<WarmTurn>)
    requires turns != []
    ensures Sequences(turns)
         == (if turns[0].sequence.Some? then [turns[0].sequence.value] else []) + Sequences(turns[1..])
  {}

  lemma {:induction false} SequencesOfConcat(a: seq<WarmTurn>, b: seq<WarmTurn>)
    ensures Sequences(a + b) == Sequences(a) + Sequences(b)
  {
    if a == [] {
      assert a + b == b;
    } else {
      var first, rest := if a[0].sequence.Some? then [a[0].sequence.value] else [], Sequences(a[1..]);
      assert (a + b)[1..] == a[1..] + b;
      SequencesOfConcat(a[1..], b);
      SequencesUnfold(a);
      SequencesUnfold(a + b);
      hide Sequences;
      assert first + (rest + Sequences(b)) == first + rest + Sequences(b);
    }
  }

  lemma {:induction false} SequenceIn(turns: seq<WarmTurn>, x: int)
    ensures x in Sequences(turns) <==> exists t :: t in turns && t.sequence == Some(x)
  {
    if turns != [] {
      SequenceIn(turns[1..], x);
      if turns[0].sequence == Some(x) {
        assert turns[0] in turns;
      }
      assert forall t :: t in turns <==> t == turns[0] || t in turns[1..];
    }
  }

  /** The same insertion on a list of numbers. */
  function InsertNumber(xs: seq<int>, x: int): seq<int> {
    if xs == [] then [x]
    else if xs[0] == x then xs
    else if xs[0] > x then [x] + xs
    else [xs[0]] + InsertNumber(xs[1..], x)
  }

  lemma {:induction false} InsertNumberOrders(xs: seq<int>, x: int)
    requires Ascending(xs)
    ensures Ascending(InsertNumber(xs, x))
    ensures forall y :: y in InsertNumber(xs, x) <==> y in xs || y == x
    ensures x in xs ==> InsertNumber(xs, x) == xs
  {
    if xs != [] {
      var rest := xs[1..];
      assert xs == [xs[0]] + rest;
      if xs[0] < x {
        InsertNumberOrders(rest, x);
        var ys := InsertNumber(rest, x);
        assert forall y :: y in xs <==> y == xs[0] || y in rest;
        assert forall y :: y in ys ==> y > xs[0];
        AscendingCons(xs[0], ys);
        assert InsertNumber(xs, x) == [xs[0]] + ys;
        assert forall y :: y in [xs[0]] + ys <==> y == xs[0] || y in ys;
      } else if xs[0] > x {
        assert forall y :: y in xs ==> y > x;
        AscendingCons(x, xs);
      }
    }
  }

  lemma AscendingCons(x: int, ys: seq<int>)
    requires Ascending(ys) && forall y :: y in ys ==> y > x
    ensures Ascending([x] + ys)
  {
    var all := [x] + ys;
    forall i, j | 0 <= i < j < |all|
      ensures all[i] < all[j]
    {
      assert all[j] == ys[j - 1] && ys[j - 1] in ys;
    }
  }

  lemma {:induction false} InsertSortedSequences(turns: seq<WarmTurn>, t: WarmTurn)
    requires t.sequence.Some?
    ensures Sequences(InsertSorted(turns, t)) == InsertNumber(Sequences(turns), t.sequence.value)
  {
    if turns != [] {
      var first, rest := turns[0], turns[1..];
      InsertSortedSequences(rest, t);
      SequencesOfConcat([first], InsertSorted(rest, t));
      SequencesOfConcat([t], turns);
      assert Sequences([t]) == [t.sequence.value];
      if first.sequence.None? {
        assert Sequences([first]) == [];
        assert Sequences(turns) == Sequences(rest);
      } else {
        var x := first.sequence.value;
        assert Sequences([first]) == [x];
        assert Sequences(turns) == [x] + Sequences(rest);
        assert Sequences(turns)[1..] == Sequences(rest);
        if x < t.sequence.value {
          assert InsertSorted(turns, t) == [first] + InsertSorted(rest, t);
        } else if x > t.sequence.value {
          assert InsertSorted(turns, t) == [t] + turns;
        }
      }
    }
  }

  /**
   Whatever unsequenced turns stand between them, inserting keeps the sequenced
   turns strictly ascending and adds exactly a missing one above the cursor.
   */
  lemma InsertTurnOrders(turns: seq<WarmTurn>, through: int, t: WarmTurn)
    requires Ascending(Sequences(turns))
    ensures var xs, ys := Sequences(turns), Sequences(InsertTurn(turns, through, t));
      && Ascending(ys)
      && (forall y :: y in ys <==> y in xs || (t.sequence == Some(y) && y > through))
  {
    if t.sequence.None? {
      SequencesOfConcat(turns, [t]);
    } else if t.sequence.value > through {
      InsertSortedSequences(turns, t);
      InsertNumberOrders(Sequences(turns), t.sequence.value);
    }
  }

  lemma {:induction false} InsertSortedSplices(turns: seq<WarmTurn>, t: WarmTurn) returns (i: nat)
    requires t.sequence.Some?
    ensures i <= |turns|
    ensures InsertSorted(turns, t) == turns || InsertSorted(turns, t) == turns[..i] + [t] + turns[i..]
  {
    if turns == [] || (turns[0].sequence.Some? && turns[0].sequence.value >= t.sequence.value) {
      i := 0;
      assert turns[..0] + [t] + turns[0..] == [t] + turns;
    } else {
      var j := InsertSortedSplices(turns[1..], t);
      i := j + 1;
      assert turns == [turns[0]] + turns[1..];
      assert turns[..i] == [turns[0]] + turns[1..][..j] && turns[i..] == turns[1..][j..];
    }
  }

  /**
   Inserting changes no turn: the new one stands at one place among the others,
   at the end when it has no sequence, or it is left out, exactly when its
   sequence is summarized or there already.
   */
  lemma InsertTurnSplices(turns: seq<WarmTurn>, through: int, t: WarmTurn) returns (i: nat)
    ensures var after := InsertTurn(turns, through, t);
      && i <= |turns|
      && (after == turns || after == turns[..i] + [t] + turns[i..])
      && (t.sequence.None? ==> after == turns + [t])
      && (t.sequence.Some? && Ascending(Sequences(turns)) ==>
            (after == turns <==> t.sequence.value <= through || t.sequence.value in Sequences(turns)))
  {
    if t.sequence.None? {
      i := |turns|;
      assert turns[..i] + [t] + turns[i..] == turns + [t];
    } else {
      i := InsertSortedSplices(turns, t);
      InsertSortedSequences(turns, t);
      if Ascending(Sequences(turns)) {
        InsertNumberOrders(Sequences(turns), t.sequence.value);
        if t.sequence.value in Sequences(turns) {
          InsertPresent(turns, t);
        }
      }
    }
  }

  lemma {:induction false} InsertPresent(turns: seq<WarmTurn>, t: WarmTurn)
    requires t.sequence.Some? && Ascending(Sequences(turns)) && t.sequence.value in Sequences(turns)
    ensures InsertSorted(turns, t) == turns
  {
    SequencesUnfold(turns);
    var first, rest, xs := turns[0], Sequences(turns[1..]), Sequences(turns);
    assert turns == [first] + turns[1..];
    if first.sequence.None? {
      assert xs == rest;
      InsertPresent(turns[1..], t);
    } else if first.sequence.value < t.sequence.value {
      assert xs == [first.sequence.value] + rest;
      assert forall i :: 0 <= i < |rest| ==> rest[i] == xs[i + 1];
      InsertPresent(turns[1..], t);
    } else {
      AscendingFirst(xs, t.sequence.value);
    }
  }

  lemma AscendingFirst(xs: seq<int>, x: int)
    requires Ascending(xs) && x in xs
    ensures xs[0] <= x
  {}

  lemma {:induction false} InsertAllOrders(turns: seq<WarmTurn>, through: int, batch: seq<WarmTurn>)
    requires Ascending(Sequences(turns))
    ensures var xs, ys := Sequences(turns), Sequences(InsertAll(turns, through, batch));
      && Ascending(ys)
      && (forall y :: y in ys <==> y in xs || (y > through && y in Sequences(batch)))
    decreases |batch|
  {
    if batch != [] {
      InsertTurnOrders(turns, through, batch[0]);
      InsertAllOrders(InsertTurn(turns, through, batch[0]), through, batch[1..]);
    }
  }

  // ----- Order and repetition do not matter ------------------------------------------

  /** Two strictly ascending lists with the same elements are equal. */
  lemma {:induction false} AscendingIsCanonical(xs: seq<int>, ys: seq<int>)
    requires Ascending(xs) && Ascending(ys) && forall x :: x in xs <==> x in ys
    ensures xs == ys
  {
    assert xs != [] ==> xs[0] in xs;
    assert ys != [] ==> ys[0] in ys;
    if xs != [] && ys != [] {
      var x0, y0 := xs[0], ys[0];
      assert x0 in xs && y0 in ys;
      assert forall x :: x in xs ==> x >= x0;
      assert forall y :: y in ys ==> y >= y0;
      assert x0 == y0;
      forall x
        ensures x in xs[1..] <==> x in ys[1..]
      {
        assert x in xs <==> x == xs[0] || x in xs[1..];
        assert x in ys <==> x == ys[0] || x in ys[1..];
      }
      AscendingIsCanonical(xs[1..], ys[1..]);
      assert xs == [x0] + xs[1..] && ys == [y0] + ys[1..];
    }
  }

  /** Each sequence number stands for one turn, as the durable transcript guarantees. */
  ghost predicate OneTurnPerSequence(turns: set<WarmTurn>) {
    forall t, u :: t in turns && u in turns && t.sequence == u.sequence ==> t == u
  }

  function TurnsOf(turns: seq<WarmTurn>): set<WarmTurn> {
    set t | t in turns
  }

  lemma {:induction false} InsertedFrom(turns: seq<WarmTurn>, t: WarmTurn)
    requires t.sequence.Some?
    ensures TurnsOf(InsertSorted(turns, t)) <= TurnsOf(turns) + {t}
  {
    if turns != [] {
      InsertedFrom(turns[1..], t);
      assert TurnsOf([turns[0]] + InsertSorted(turns[1..], t)) == {turns[0]} + TurnsOf(InsertSorted(turns[1..], t));
      assert TurnsOf([t] + turns) == {t} + TurnsOf(turns);
      assert TurnsOf(turns) == {turns[0]} + TurnsOf(turns[1..]);
    }
  }

  lemma {:induction false} AllInsertedFrom(turns: seq<WarmTurn>, through: int, batch: seq<WarmTurn>)
    requires Sequenced(batch)
    ensures TurnsOf(InsertAll(turns, through, batch)) <= TurnsOf(turns) + TurnsOf(batch)
    decreases |batch|
  {
    if batch != [] {
      assert batch[0] in batch && TurnsOf(batch) == {batch[0]} + TurnsOf(batch[1..]);
      InsertedFrom(turns, batch[0]);
      AllInsertedFrom(InsertTurn(turns, through, batch[0]), through, batch[1..]);
    }
  }

  lemma {:induction false} SequencesCount(turns: seq<WarmTurn>)
    requires Sequenced(turns)
    ensures |Sequences(turns)| == |turns|
  {
    if turns != [] {
      assert turns[0] in turns;
      SequencesCount(turns[1..]);
    }
  }

  /** A list of sequenced turns is determined by its sequences. */
  lemma {:induction false} SequencesDetermine(a: seq<WarmTurn>, b: seq<WarmTurn>)
    requires Sequenced(a) && Sequenced(b) && Sequences(a) == Sequences(b)
    requires OneTurnPerSequence(TurnsOf(a) + TurnsOf(b))
    ensures a == b
  {
    SequencesCount(a);
    SequencesCount(b);
    if a != [] {
      assert a[0] in a && b[0] in b;
      assert Sequences(a)[0] == a[0].sequence.value && Sequences(b)[0] == b[0].sequence.value;
      assert Sequences(a)[1..] == Sequences(a[1..]) && Sequences(b)[1..] == Sequences(b[1..]);
      assert forall t :: t in a[1..] ==> t in a;
      assert forall t :: t in b[1..] ==> t in b;
      SequencesDetermine(a[1..], b[1..]);
      assert a == [a[0]] + a[1..] && b == [b[0]] + b[1..];
    }
  }

  /** What inserting a batch of sequenced turns into an empty list leaves. */
  lemma InsertedExactly(through: int, batch: seq<WarmTurn>)
    requires Sequenced(batch) && OneTurnPerSequence(TurnsOf(batch))
    ensures var result := InsertAll([], through, batch);
      && Ascending(Sequences(result))
      && (forall x :: x in Sequences(result) <==> x > through && x in Sequences(batch))
      && TurnsOf(result) == set t | t in batch && t.sequence.value > through
  {
    InsertAllOrders([], through, batch);
    AllInsertedFrom([], through, batch);
    hide InsertAll, Ascending, OneTurnPerSequence, Sequenced;
    assert TurnsOf([]) + TurnsOf(batch) == TurnsOf(batch);
    ExactlyAbove(through, batch, InsertAll([], through, batch));
  }

  /** Equal ascending sequences of turns taken from one batch make equal lists. */
  lemma SameSequencesSameTurns(batch: seq<WarmTurn>, a: seq<WarmTurn>, b: seq<WarmTurn>)
    requires Sequenced(batch) && OneTurnPerSequence(TurnsOf(batch))
    requires TurnsOf(a) <= TurnsOf(batch) && TurnsOf(b) <= TurnsOf(batch)
    requires Ascending(Sequences(a)) && Ascending(Sequences(b))
    requires forall x :: x in Sequences(a) <==> x in Sequences(b)
    ensures a == b
  {
    AscendingIsCanonical(Sequences(a), Sequences(b));
    hide Ascending, Sequences;
    assert forall t :: t in a ==> t in TurnsOf(a);
    assert forall t :: t in b ==> t in TurnsOf(b);
    assert forall t :: t in TurnsOf(batch) ==> t in batch;
    SequencesDetermine(a, b);
  }

  /**
   Replays, retries and late arrivals: any two orders of the same sequenced
   turns, with any repetitions, leave the same list, which is strictly ascending
   and holds exactly those above the summary cursor.
   */
  lemma InsertionIsOrderInsensitive(through: int, one: seq<WarmTurn>, other: seq<WarmTurn>)
    requires Sequenced(one) && Sequenced(other) && TurnsOf(one) == TurnsOf(other)
    requires OneTurnPerSequence(TurnsOf(one))
    ensures InsertAll([], through, one) == InsertAll([], through, other)
    ensures var result := InsertAll([], through, one);
      && Ascending(Sequences(result))
      && (forall x :: x in Sequences(result) <==> x > through && x in Sequences(one))
      && TurnsOf(result) == set t | t in one && t.sequence.value > through
  {
    hide InsertAll, Ascending, OneTurnPerSequence, Sequenced, Sequences;
    InsertedExactly(through, one);
    InsertedExactly(through, other);
    SameSequences(one, other);
    FilteredSubset(through, one);
    FilteredSubset(through, other);
    SameSequencesSameTurns(one, InsertAll([], through, one), InsertAll([], through, other));
  }

  lemma FilteredSubset(through: int, batch: seq<WarmTurn>)
    requires Sequenced(batch)
    ensures (set t | t in batch && t.sequence.value > through) <= TurnsOf(batch)
  {}

  lemma SameSequences(one: seq<WarmTurn>, other: seq<WarmTurn>)
    requires TurnsOf(one) == TurnsOf(other)
    ensures forall x :: x in Sequences(one) <==> x in Sequences(other)
  {
    assert forall t :: t in one <==> t in TurnsOf(one);
    assert forall t :: t in other <==> t in TurnsOf(other);
    forall x
      ensures x in Sequences(one) <==> x in Sequences(other)
    {
      SequenceIn(one, x);
      SequenceIn(other, x);
    }
  }

  lemma ExactlyAbove(through: int, batch: seq<WarmTurn>, result: seq<WarmTurn>)
    requires Sequenced(batch) && OneTurnPerSequence(TurnsOf(batch))
    requires TurnsOf(result) <= TurnsOf(batch)
    requires forall x :: x in Sequences(result) <==> x > through && x in Sequences(batch)
    ensures TurnsOf(result) == set t | t in batch && t.sequence.value > through
  {
    assert forall t :: t in result ==> t in TurnsOf(result);
    forall t
      ensures t in TurnsOf(result) <==> t in batch && t.sequence.value > through
    {
      if t in result {
        assert t in batch;
        SequenceIn(result, t.sequence.value);
      }
      if t in batch && t.sequence.value > through {
        SequenceIn(batch, t.sequence.value);
        SequenceIn(result, t.sequence.value);
        var u :| u in result && u.sequence == Some(t.sequence.value);
        assert u in TurnsOf(batch) && t in TurnsOf(batch);
      }
    }
  }
}
