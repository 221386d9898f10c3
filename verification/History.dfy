/** Message history, a page at a time (`Store::history`, crates/pickle-server/src/store.rs:126-189). */
module History {
  import opened Common

  type MessageId = nat
  datatype Message = Message(channel: nat, content: string)
  type Messages = map<MessageId, Message>

  const MAX_HISTORY_LIMIT: nat := 200

  function Clamp(limit: nat): (n: nat)
    ensures 1 <= n <= 200 && (1 <= limit <= 200 ==> n == limit) && (limit > 200 ==> n == 200)
  {
    if limit < 1 then 1 else if limit > MAX_HISTORY_LIMIT then MAX_HISTORY_LIMIT else limit
  }

  /** The ids a query selects: one channel, older than `before` when it is given. */
  function Matching(messages: Messages, channel: nat, before: Option<MessageId>): set<MessageId> {
    set id | id in messages && messages[id].channel == channel && (before.Some? ==> id < before.value)
  }

  predicate IsNewest(ids: set<MessageId>, m: MessageId) { m in ids && forall x :: x in ids ==> x <= m }

  lemma {:induction false} HasNewest(ids: set<MessageId>)
    requires ids != {}
    ensures exists m :: IsNewest(ids, m)
    decreases |ids|
  {
    var x :| x in ids;
    var rest := ids - {x};
    if rest == {} {
      assert ids == {x};
      assert IsNewest(ids, x);
    } else {
      HasNewest(rest);
      var m :| IsNewest(rest, m);
      assert forall y :: y in ids ==> y == x || y in rest;
      assert IsNewest(ids, if x > m then x else m);
    }
  }

  function Newest(ids: set<MessageId>): (m: MessageId)
    requires ids != {}
    ensures IsNewest(ids, m)
  {
    HasNewest(ids);
    var m :| IsNewest(ids, m);
    m
  }

  /** `ORDER BY id DESC LIMIT n`. */
  function Descending(ids: set<MessageId>, n: nat): (rows: seq<MessageId>)
    ensures |rows| == if n < |ids| then n else |ids|
    ensures forall i :: 0 <= i < |rows| ==> rows[i] in ids
    decreases n
  {
    if n == 0 || ids == {} then [] else [Newest(ids)] + Descending(ids - {Newest(ids)}, n - 1)
  }

  predicate Falling(rows: seq<MessageId>) { forall i, j :: 0 <= i < j < |rows| ==> rows[i] > rows[j] }
  predicate Rising(ids: seq<MessageId>) { forall i, j :: 0 <= i < j < |ids| ==> ids[i] < ids[j] }

  /** The n largest, largest first: whatever is left out is older than all of them. */
  lemma {:induction false} DescendingIs(ids: set<MessageId>, n: nat)
    ensures Falling(Descending(ids, n))
    ensures forall x, y :: x in ids && x !in Descending(ids, n) && y in Descending(ids, n) ==> x < y
    decreases n
  {
    if n != 0 && ids != {} {
      var m := Newest(ids);
      var rest := Descending(ids - {m}, n - 1);
      DescendingIs(ids - {m}, n - 1);
      assert Descending(ids, n) == [m] + rest;
      forall x, y | x in ids && x !in [m] + rest && y in [m] + rest ensures x < y {
        assert x != m && x in ids - {m} && x !in rest;
      }
    }
  }

  function Reversed(rows: seq<MessageId>): (s: seq<MessageId>)
    ensures |s| == |rows| && forall i :: 0 <= i < |s| ==> s[i] == rows[|rows| - 1 - i]
  {
    seq(|rows|, i requires 0 <= i < |rows| => rows[|rows| - 1 - i])
  }

  datatype Page = Page(messages: seq<MessageId>, reachedStart: bool)

  /**
  One page: the newest messages before `before`, oldest first, at least one if there is any and at most the clamped
  limit; `reachedStart` says exactly whether anything older was left out.
  */
  method FetchPage(messages: Messages, channel: nat, before: Option<MessageId>, limit: nat) returns (page: Page)
    ensures Rising(page.messages) && |page.messages| <= Clamp(limit)
    ensures forall id :: id in page.messages ==> id in Matching(messages, channel, before)
    ensures forall x, y :: x in Matching(messages, channel, before) && x !in page.messages && y in page.messages ==>
              x < y
    ensures page.reachedStart <==> forall x :: x in Matching(messages, channel, before) ==> x in page.messages
    ensures !page.reachedStart ==> |page.messages| == Clamp(limit)
  {
    var n := Clamp(limit);
    var ids := Matching(messages, channel, before);
    var rows := Descending(ids, n + 1);
    var reached := |rows| <= n;
    var kept := if |rows| <= n then rows else rows[..n];
    KeptIsPage(ids, n);
    page := Page(Reversed(kept), reached);
    SameMembers(kept);
    forall i, j | 0 <= i < j < |page.messages| ensures page.messages[i] < page.messages[j] {
      assert kept[|kept| - 1 - j] > kept[|kept| - 1 - i];
    }
  }

  lemma {:induction false} SameMembers(rows: seq<MessageId>)
    ensures forall x :: x in Reversed(rows) <==> x in rows
  {
    forall x | x in rows ensures x in Reversed(rows) {
      var i :| 0 <= i < |rows| && rows[i] == x;
      assert Reversed(rows)[|rows| - 1 - i] == x;
    }
  }

  /** Probing for one row too many and dropping it gives the n newest, and tells whether there were more. */
  lemma {:induction false} KeptIsPage(ids: set<MessageId>, n: nat)
    requires n > 0
    ensures var rows := Descending(ids, n + 1);
            var kept := if |rows| <= n then rows else rows[..n];
            && Falling(kept)
            && (forall id :: id in kept ==> id in ids)
            && (forall x, y :: x in ids && x !in kept && y in kept ==> x < y)
            && (|rows| <= n <==> forall x :: x in ids ==> x in kept)
  {
    var rows := Descending(ids, n + 1);
    var kept := if |rows| <= n then rows else rows[..n];
    DescendingIs(ids, n + 1);
    if |rows| <= n {
      AllListed(rows, ids);
    } else {
      assert rows[n] in ids && rows[n] !in kept;
      forall x, y | x in ids && x !in kept && y in kept ensures x < y {
        CutIsNewest(rows, n, x, y);
      }
    }
  }

  lemma {:induction false} CutIsNewest(rows: seq<MessageId>, n: nat, x: MessageId, y: MessageId)
    requires Falling(rows) && n < |rows| && x !in rows[..n] && y in rows[..n]
    requires x !in rows ==> forall z :: z in rows ==> x < z
    ensures x < y
  {
    var j :| 0 <= j < n && rows[..n][j] == y;
    assert rows[j] == y && y in rows;
    forall i | 0 <= i < n ensures rows[i] in rows[..n] {
      assert rows[..n][i] == rows[i];
    }
    if x in rows {
      var i :| 0 <= i < |rows| && rows[i] == x;
      assert rows[j] > rows[i];
    }
  }

  lemma {:induction false} FallingCount(rows: seq<MessageId>, ids: set<MessageId>)
    requires Falling(rows) && forall i :: 0 <= i < |rows| ==> rows[i] in ids
    ensures |ids| == |rows| + |ids - set x | x in rows|
    decreases |rows|
  {
    if rows == [] {
      assert ids - (set x | x in rows) == ids;
    } else {
      FallingCount(rows[1..], ids - {rows[0]});
      assert (ids - {rows[0]}) - (set x | x in rows[1..]) == ids - set x | x in rows;
    }
  }

  lemma {:induction false} AllListed(rows: seq<MessageId>, ids: set<MessageId>)
    requires Falling(rows) && |rows| == |ids| && forall i :: 0 <= i < |rows| ==> rows[i] in ids
    ensures forall x :: x in ids ==> x in rows
  {
    FallingCount(rows, ids);
    forall x | x in ids ensures x in rows {
      assert x !in ids - set y | y in rows;
    }
  }

  // ---- Paging all the way back ---------------------------------------------------------------------------

  ghost predicate Complete(messages: Messages, channel: nat, held: seq<MessageId>) {
    Rising(held) && forall id :: id in held <==> id in Matching(messages, channel, None)
  }

  lemma {:induction false} JoinPages(older: seq<MessageId>, held: seq<MessageId>)
    requires Rising(older) && Rising(held) && forall x, y :: x in older && y in held ==> x < y
    ensures Rising(older + held)
  {
    var s := older + held;
    forall i, j | 0 <= i < j < |s| ensures s[i] < s[j] {
      if i < |older| <= j {
        assert s[i] in older && s[j] in held;
      }
    }
  }

  /**
  Ask again and again for the page before the oldest message held, with any limits at all, until the start is reached.
  It ends, and what has been collected is every message of the channel, once each, in ascending order.
  */
  method FetchAll(messages: Messages, channel: nat, limits: nat -> nat) returns (held: seq<MessageId>)
    ensures Complete(messages, channel, held)
  {
    held := [];
    var before: Option<MessageId> := None;
    var asked := 0;
    var reached := false;
    while !reached
      invariant Rising(held)
      invariant forall id :: id in Matching(messages, channel, None) <==>
                  id in held || id in Matching(messages, channel, before)
      invariant forall x, y :: x in Matching(messages, channel, before) && y in held ==> x < y
      invariant reached ==> Matching(messages, channel, before) == {}
      decreases !reached, Matching(messages, channel, before)
    {
      var page := FetchPage(messages, channel, before, limits(asked));
      asked := asked + 1;
      reached := page.reachedStart;
      JoinPages(page.messages, held);
      if page.messages != [] {
        before := Some(page.messages[0]);
        assert page.messages[0] in page.messages;
      }
      held := page.messages + held;
    }
  }
}
