/** Cursor pagination over one transcript, backwards for clients and forwards for hydration. */
module Paging {
  import opened Wrappers
  import opened HistoryModel

  /** max(1, min(limit, 200)) */
  function ClampLimit(limit: int): (n: nat)
    ensures 1 <= n <= 200
    ensures 1 <= limit <= 200 ==> n == limit
    ensures limit < 1 ==> n == 1
    ensures limit > 200 ==> n == 200
  {
    if limit < 1 then 1 else if limit > 200 then 200 else limit
  }

  /** WHERE sequence < before ORDER BY sequence, without a bound when there is no cursor. */
  function RowsBefore(messages: seq<Message>, before: Option<int>): seq<Message> {
    if messages == [] then []
    else
      var last := messages[|messages| - 1];
      RowsBefore(messages[..|messages| - 1], before)
      + if before.None? || last.sequence < before.value then [last] else []
  }

  function RowsAfter(messages: seq<Message>, after: int): seq<Message> {
    if messages == [] then []
    else
      var last := messages[|messages| - 1];
      RowsAfter(messages[..|messages| - 1], after) + if last.sequence > after then [last] else []
  }

  datatype Page = Page(messages: seq<Message>, next: Option<int>)

  /** The newest `limit` rows before the cursor, oldest first. */
  function PageBefore(messages: seq<Message>, before: Option<int>, limit: int): Page {
    var rows, n := RowsBefore(messages, before), ClampLimit(limit);
    if |rows| > n then
      var page := rows[|rows| - n..];
      Page(page, Some(page[0].sequence))
    else Page(rows, None)
  }

  /** The oldest `limit` rows after the cursor. */
  function PageAfter(messages: seq<Message>, after: int, limit: int): Page {
    var rows, n := RowsAfter(messages, if after > 0 then after else 0), ClampLimit(limit);
    if |rows| > n then
      var page := rows[..n];
      Page(page, Some(page[n - 1].sequence))
    else Page(rows, None)
  }

  ghost predicate Numbered(messages: seq<Message>) {
    forall i :: 0 <= i < |messages| ==> messages[i].sequence == i + 1
  }

  lemma {:induction false} RowsBeforeIsPrefix(messages: seq<Message>, before: Option<int>)
    requires Numbered(messages)
    ensures var n := if before.None? || before.value > |messages| then |messages|
                     else if before.value < 1 then 0 else before.value - 1;
            RowsBefore(messages, before) == messages[..n]
  {
    if messages != [] {
      RowsBeforeIsPrefix(messages[..|messages| - 1], before);
    }
  }

  lemma RowsAfterUnfolds(messages: seq<Message>, after: int)
    requires messages != []
    ensures var last := messages[|messages| - 1];
            RowsAfter(messages, after)
              == RowsAfter(messages[..|messages| - 1], after) + if last.sequence > after then [last] else []
  {}

  lemma SuffixGrows(messages: seq<Message>, after: nat)
    requires after < |messages|
    ensures messages[after..] == messages[..|messages| - 1][after..] + [messages[|messages| - 1]]
  {}

  lemma {:induction false} RowsAfterIsSuffix(messages: seq<Message>, after: nat)
    requires Numbered(messages)
    ensures RowsAfter(messages, after) == if after > |messages| then [] else messages[after..]
  {
    if messages != [] {
      RowsAfterUnfolds(messages, after);
      hide RowsAfter;
      assert messages[|messages| - 1].sequence == |messages|;
      var rest := messages[..|messages| - 1];
      assert Numbered(rest);
      hide Numbered;
      RowsAfterIsSuffix(rest, after);
      if after < |messages| {
        SuffixGrows(messages, after);
      } else {
        assert RowsAfter(rest, after) == [];
        assert after == |messages| ==> messages[after..] == [];
      }
    }
  }

  /** Which rows a forward page holds, and whether more follow. */
  lemma PageAfterIs(messages: seq<Message>, after: nat, limit: int)
    requires Numbered(messages) && after <= |messages|
    ensures var page, n := PageAfter(messages, after, limit), ClampLimit(limit);
      if |messages| - after > n then page == Page(messages[after..after + n], Some(after + n))
      else page == Page(messages[after..], None)
  {
    RowsAfterIsSuffix(messages, after);
    var n := ClampLimit(limit);
    if |messages| - after > n {
      assert messages[after..][..n] == messages[after..after + n];
      assert messages[after..][n - 1] == messages[after + n - 1];
    }
  }

  /** The same for any cursor, also a negative one or one past the end. */
  lemma PageAfterSlice(messages: seq<Message>, after: int, limit: int)
    requires Numbered(messages)
    ensures var start := if after < 0 then 0 else if after > |messages| then |messages| else after;
            var n := ClampLimit(limit);
      && PageAfter(messages, after, limit).messages
           == messages[start..if |messages| - start > n then start + n else |messages|]
      && PageAfter(messages, after, limit).next == if |messages| - start > n then Some(start + n) else None
  {
    hide RowsAfter, Numbered, ClampLimit;
    if after > |messages| {
      RowsAfterIsSuffix(messages, after);
    } else {
      assert PageAfter(messages, after, limit) == PageAfter(messages, if after < 0 then 0 else after, limit);
      hide PageAfter;
      PageAfterIs(messages, if after < 0 then 0 else after, limit);
    }
  }

  lemma PageBeforeIs(messages: seq<Message>, before: nat, limit: int)
    requires Numbered(messages) && 1 <= before <= |messages| + 1
    ensures var page, n := PageBefore(messages, Some(before), limit), ClampLimit(limit);
      if before - 1 > n then page == Page(messages[before - 1 - n..before - 1], Some(before - n))
      else page == Page(messages[..before - 1], None)
  {
    RowsBeforeIsPrefix(messages, Some(before));
    var n := ClampLimit(limit);
    if before - 1 > n {
      assert messages[..before - 1][before - 1 - n..] == messages[before - 1 - n..before - 1];
    }
  }

  /** The same for any cursor, or none. */
  lemma PageBeforeSlice(messages: seq<Message>, before: Option<int>, limit: int)
    requires Numbered(messages)
    ensures var end := if before.None? || before.value > |messages| then |messages|
                       else if before.value < 1 then 0 else before.value - 1;
            var start := if end > ClampLimit(limit) then end - ClampLimit(limit) else 0;
      && PageBefore(messages, before, limit).messages == messages[start..end]
      && PageBefore(messages, before, limit).next == if start > 0 then Some(start + 1) else None
  {
    hide RowsBefore, ClampLimit;
    RowsBeforeIsPrefix(messages, before);
    var n, rows := ClampLimit(limit), RowsBefore(messages, before);
    if |rows| > n {
      assert rows[|rows| - n..] == messages[|rows| - n..|rows|];
    }
  }

  /** All pages a client sees when it follows `next_cursor` backwards, put in order. */
  function FollowBack(messages: seq<Message>, before: Option<int>, limit: int, fuel: nat): seq<Message>
    decreases fuel
  {
    var page := PageBefore(messages, before, limit);
    if page.next.None? || fuel == 0 then page.messages
    else FollowBack(messages, page.next, limit, fuel - 1) + page.messages
  }

  lemma FollowOnce(messages: seq<Message>, before: Option<int>, limit: int, fuel: nat)
    ensures var page := PageBefore(messages, before, limit);
            FollowBack(messages, before, limit, fuel)
              == if page.next.None? || fuel == 0 then page.messages
                 else FollowBack(messages, page.next, limit, fuel - 1) + page.messages
  {}

  lemma {:induction false} FollowBackIsPrefix(messages: seq<Message>, before: nat, limit: int, fuel: nat)
    requires Numbered(messages) && 1 <= before <= |messages| + 1 && fuel >= before
    ensures FollowBack(messages, Some(before), limit, fuel) == messages[..before - 1]
    decreases fuel
  {
    hide FollowBack, PageBefore, RowsBefore, Numbered;
    PageBeforeIs(messages, before, limit);
    FollowOnce(messages, Some(before), limit, fuel);
    var n := ClampLimit(limit);
    if before - 1 > n {
      FollowBackIsPrefix(messages, before - n, limit, fuel - 1);
      assert messages[..before - 1 - n] + messages[before - 1 - n..before - 1] == messages[..before - 1];
    }
  }

  /** Following the cursors yields the whole transcript, with no gap and no repeat, for any page size. */
  lemma FollowBackIsTranscript(messages: seq<Message>, limit: int)
    requires Numbered(messages)
    ensures FollowBack(messages, None, limit, |messages| + 1) == messages
  {
    RowsBeforeIsPrefix(messages, None);
    RowsBeforeIsPrefix(messages, Some(|messages| + 1));
    FollowBackIsPrefix(messages, |messages| + 1, limit, |messages| + 1);
    assert PageBefore(messages, None, limit) == PageBefore(messages, Some(|messages| + 1), limit);
  }
}
