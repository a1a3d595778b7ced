/**
 What the cold-start compaction computes from the messages it streams: the
 newest turns, everything older folded into the summary.
 */
module Hydration {
  import opened Wrappers
  import opened HistoryModel
  import opened WarmMemory
  import opened WarmStates
  import opened SummarySystem

  /** The loop's variables; a user message waits for its assistant across page ends. */
  datatype Folding = Folding(
    summary: seq<int>,
    through: int,
    recent: seq<WarmTurn>,
    pendingUser: Option<Message>)

  function FoldMessage(f: Folding, m: Message, keep: nat): Folding {
    if m.role == User then f.(pendingUser := Some(m))
    else if f.pendingUser.None? then f
    else
      var recent := f.recent + [WarmTurn(f.pendingUser.value.content, m.content, Some(m.sequence))];
      if |recent| <= keep then f.(recent := recent, pendingUser := None)
      else
        Folding(FallbackSummary(SummaryJob(f.summary, [recent[0]], recent[1..], 0)),
                if recent[0].sequence.Some? then recent[0].sequence.value else 0, recent[1..], None)
  }

  function Fold(f: Folding, messages: seq<Message>, keep: nat): Folding {
    if messages == [] then f
    else FoldMessage(Fold(f, messages[..|messages| - 1], keep), messages[|messages| - 1], keep)
  }

  lemma {:induction false} FoldJoins(f: Folding, a: seq<Message>, b: seq<Message>, keep: nat)
    ensures Fold(Fold(f, a, keep), b, keep) == Fold(f, a + b, keep)
  {
    if b == [] {
      assert a + b == a;
    } else {
      FoldJoins(f, a, b[..|b| - 1], keep);
      assert (a + b)[..|a + b| - 1] == a + b[..|b| - 1];
    }
  }

  // ----- The simple specification ----------------------------------------------------

  /** The k-th turn of a transcript of user and assistant pairs. */
  function TurnOf(messages: seq<Message>, k: nat): WarmTurn
    requires 2 * k + 1 < |messages|
  {
    WarmTurn(messages[2 * k].content, messages[2 * k + 1].content, Some(messages[2 * k + 1].sequence))
  }

  /** All turns after an even cursor, in order. */
  function TurnsAfter(messages: seq<Message>, cursor: nat): (turns: seq<WarmTurn>)
    requires cursor % 2 == 0 && cursor <= |messages| && |messages| % 2 == 0
    ensures |turns| == (|messages| - cursor) / 2
  {
    seq((|messages| - cursor) / 2, i requires 0 <= i < (|messages| - cursor) / 2 => TurnOf(messages, cursor / 2 + i))
  }

  /** The cursor after folding all but the newest `keep` turns. */
  function CompactedThrough(count: nat, cursor: nat, keep: nat): nat {
    if count - cursor > 2 * keep then count - 2 * keep else cursor
  }

  /** The newest turns, at most `keep`, with everything between the two cursors folded. */
  ghost predicate Compacts(messages: seq<Message>, summary: seq<int>, cursor: nat, keep: nat, f: Folding)
    requires cursor % 2 == 0 && cursor <= |messages| && |messages| % 2 == 0
  {
    var through := CompactedThrough(|messages|, cursor, keep);
    && f.through == through
    && f.summary == summary + Between(cursor, through)
    && f.recent == TurnsAfter(messages, through)
    && |f.recent| <= keep
    && f.pendingUser.None?
  }

  lemma TurnsGrow(messages: seq<Message>, cursor: nat)
    requires |messages| % 2 == 0 && cursor % 2 == 0 && cursor <= |messages| - 2
    ensures TurnsAfter(messages, cursor)
         == TurnsAfter(messages[..|messages| - 2], cursor) + [TurnOf(messages, |messages| / 2 - 1)]
  {
    var front := messages[..|messages| - 2];
    var all, most := TurnsAfter(messages, cursor), TurnsAfter(front, cursor);
    assert |all| == |most| + 1;
    forall i | 0 <= i < |most|
      ensures all[i] == most[i]
    {
      assert all[i] == TurnOf(messages, cursor / 2 + i) == TurnOf(front, cursor / 2 + i);
    }
    assert cursor / 2 + |most| == |messages| / 2 - 1;
    assert all[|most|] == TurnOf(messages, |messages| / 2 - 1);
  }

  lemma FirstTurn(messages: seq<Message>, cursor: nat)
    requires TranscriptOk(messages) && cursor % 2 == 0 && cursor <= |messages| - 2
    ensures var turns := TurnsAfter(messages, cursor);
            turns[0].sequence == Some(cursor + 2) && turns[1..] == TurnsAfter(messages, cursor + 2)
  {
    var turns, rest := TurnsAfter(messages, cursor), TurnsAfter(messages, cursor + 2);
    assert turns[0] == TurnOf(messages, cursor / 2);
    forall i | 0 <= i < |rest|
      ensures turns[1..][i] == rest[i]
    {
      assert turns[i + 1] == TurnOf(messages, cursor / 2 + i + 1) == rest[i];
    }
  }

  /** What the loop does with one user message and its assistant message. */
  lemma FoldTwo(f: Folding, user: Message, assistant: Message, keep: nat)
    requires user.role == User && assistant.role == Assistant && f.pendingUser.None? && keep >= 1
    ensures var grown := f.recent + [WarmTurn(user.content, assistant.content, Some(assistant.sequence))];
            FoldMessage(FoldMessage(f, user, keep), assistant, keep) ==
              if |grown| <= keep then Folding(f.summary, f.through, grown, None)
              else Folding(f.summary + Sequences([grown[0]]),
                           if grown[0].sequence.Some? then grown[0].sequence.value else 0, grown[1..], None)
  {}

  lemma LastPair(messages: seq<Message>)
    requires TranscriptOk(messages) && messages != []
    ensures messages[|messages| - 2].role == User && messages[|messages| - 1].role == Assistant
  {}

  lemma OneSequence(t: WarmTurn)
    requires t.sequence.Some?
    ensures Sequences([t]) == [t.sequence.value]
  {}

  lemma FoldPair(messages: seq<Message>, summary: seq<int>, cursor: nat, keep: nat, f: Folding)
    requires |messages| >= 2 && TranscriptOk(messages) && keep >= 1
    requires cursor % 2 == 0 && cursor <= |messages| - 2
    requires Compacts(messages[..|messages| - 2], summary, cursor, keep, f)
    ensures var n := |messages|;
            Compacts(messages, summary, cursor, keep,
                     FoldMessage(FoldMessage(f, messages[n - 2], keep), messages[n - 1], keep))
  {
    hide FoldMessage, TurnsAfter, TranscriptOk, Between, Sequences;
    var n := |messages|;
    var before := CompactedThrough(n - 2, cursor, keep);
    var turn := TurnOf(messages, n / 2 - 1);
    EvenTranscript(messages);
    LastPair(messages);
    FoldTwo(f, messages[n - 2], messages[n - 1], keep);
    TurnsGrow(messages, before);
    FirstTurn(messages, before);
    FoldedOneMore(summary, cursor, before);
    var grown := f.recent + [turn];
    assert grown == TurnsAfter(messages, before);
    if |grown| > keep {
      assert grown[0] == TurnsAfter(messages, before)[0];
      OneSequence(grown[0]);
      assert summary + Between(cursor, before) + [before + 2] == summary + Between(cursor, before + 2);
    }
  }

  lemma FoldedOneMore(summary: seq<int>, cursor: nat, through: nat)
    requires cursor <= through && cursor % 2 == 0 && through % 2 == 0
    ensures summary + Between(cursor, through) + [through + 2] == summary + Between(cursor, through + 2)
  {
    BetweenJoins(cursor, through, through + 2);
    assert Between(through, through + 2) == [through + 2];
  }

  /**
   Streaming every message after the cursor one by one computes exactly the
   simple specification, whatever the transcript length and `keep`.
   */
  lemma {:induction false} FoldIsCompaction(messages: seq<Message>, summary: seq<int>, cursor: nat, keep: nat)
    requires TranscriptOk(messages) && cursor % 2 == 0 && cursor <= |messages| && keep >= 1
    ensures Compacts(messages, summary, cursor, keep,
                     Fold(Folding(summary, cursor, [], None), messages[cursor..], keep))
    decreases |messages|
  {
    hide Compacts, Fold, TranscriptOk;
    var n, start := |messages|, Folding(summary, cursor, [], None);
    EvenTranscript(messages);
    if cursor == n {
      NothingToFold(messages, summary, keep);
    } else {
      var front, tail := messages[..n - 2], messages[cursor..];
      FoldIsCompaction(front, summary, cursor, keep);
      assert front[cursor..] == messages[cursor..n - 2] == tail[..|tail| - 2];
      FoldPair(messages, summary, cursor, keep, Fold(start, tail[..|tail| - 2], keep));
      FoldLastTwo(start, tail, keep);
    }
  }

  lemma EvenTranscript(messages: seq<Message>)
    requires TranscriptOk(messages)
    ensures |messages| % 2 == 0 && (messages != [] ==> TranscriptOk(messages[..|messages| - 2]))
  {
    if messages != [] {
      var front := messages[..|messages| - 2];
      forall i | 0 < i < |front| && i % 2 == 1
        ensures SameTurn(front, i)
      {
        assert SameTurn(messages, i);
      }
    }
  }

  lemma NothingToFold(messages: seq<Message>, summary: seq<int>, keep: nat)
    requires |messages| % 2 == 0
    ensures var n := |messages|; Compacts(messages, summary, n, keep, Fold(Folding(summary, n, [], None), messages[n..], keep))
  {
    assert summary + Between(|messages|, |messages|) == summary;
  }

  lemma FoldLastTwo(f: Folding, messages: seq<Message>, keep: nat)
    requires |messages| >= 2
    ensures Fold(f, messages, keep)
         == FoldMessage(FoldMessage(Fold(f, messages[..|messages| - 2], keep), messages[|messages| - 2], keep),
                        messages[|messages| - 1], keep)
  {
    var most := messages[..|messages| - 1];
    assert most[..|most| - 1] == messages[..|messages| - 2];
    assert Fold(f, most, keep) == FoldMessage(Fold(f, messages[..|messages| - 2], keep), messages[|messages| - 2], keep);
  }

  /** The recent turns a compaction leaves continue its cursor without a gap. */
  lemma CompactionIsContiguous(messages: seq<Message>, cursor: nat)
    requires TranscriptOk(messages) && cursor % 2 == 0 && cursor <= |messages|
    ensures Contiguous(cursor, TurnsAfter(messages, cursor))
  {
    var turns := TurnsAfter(messages, cursor);
    forall i | 0 <= i < |turns|
      ensures turns[i].sequence == Some(cursor + 2 + 2 * i)
    {
      assert turns[i] == TurnOf(messages, cursor / 2 + i);
    }
    ContiguousAt(cursor, turns);
  }
}
