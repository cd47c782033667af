/** Cursor pages of a channel's messages, newest first. Ids grow with time; soft-deleted messages keep their place. */
module Pagination {
  import opened Common

  datatype MessageId = MessageId(uuid: int)

  const DEFAULT_MESSAGE_LIMIT := 50
  const MAX_MESSAGE_LIMIT := 100

  // ---- ORDER BY id DESC ----

  predicate Descending(xs: seq<MessageId>) {
    forall i, j :: 0 <= i < j < |xs| ==> xs[i].uuid > xs[j].uuid
  }

  ghost predicate Lists(xs: seq<MessageId>, ids: set<MessageId>) {
    forall m :: m in xs <==> m in ids
  }

  ghost function Newest(ids: set<MessageId>): (m: MessageId)
    requires ids != {}
    ensures m in ids && forall x :: x in ids ==> x.uuid <= m.uuid
  {
    var m := Pick(ids);
    var rest := ids - {m};
    if rest == {} then
      assert ids == {m};
      m
    else
      var n := Newest(rest);
      assert ids == rest + {m};
      if n.uuid < m.uuid then m else n
  }

  /** The ids from the newest down. */
  ghost function NewestFirst(ids: set<MessageId>): (xs: seq<MessageId>)
    ensures Descending(xs) && Lists(xs, ids) && |xs| == |ids|
  {
    if ids == {} then []
    else
      var m := Newest(ids);
      [m] + NewestFirst(ids - {m})
  }

  lemma ListsNothing(xs: seq<MessageId>, ids: set<MessageId>)
    requires Lists(xs, ids)
    ensures xs == [] <==> ids == {}
  {
    if xs != [] {
      assert xs[0] in ids;
    }
  }

  /** There is only one such listing. */
  lemma {:induction false} OneListing(xs: seq<MessageId>, ys: seq<MessageId>, ids: set<MessageId>)
    requires Descending(xs) && Descending(ys) && Lists(xs, ids) && Lists(ys, ids)
    ensures xs == ys
  {
    ListsNothing(xs, ids);
    ListsNothing(ys, ids);
    if xs != [] {
      assert xs[0] in ids && xs[0] in ys;
      assert ys[0] in ids && ys[0] in xs;
      assert xs[0] == ys[0];
      OneListing(xs[1..], ys[1..], ids - {xs[0]});
      assert xs == [xs[0]] + xs[1..] && ys == [ys[0]] + ys[1..];
    }
  }

  // ---- one page ----

  function Below(ids: set<MessageId>, before: Option<MessageId>): set<MessageId> {
    set m | m in ids && (before.Some? ==> m.uuid < before.value.uuid)
  }

  function Min(x: nat, y: nat): nat {
    if x < y then x else y
  }

  /** `list_page`: the newest `limit` messages below the cursor. */
  ghost function ListPage(ids: set<MessageId>, before: Option<MessageId>, limit: nat): seq<MessageId> {
    var rows := NewestFirst(Below(ids, before));
    rows[..Min(limit, |rows|)]
  }

  function EffectiveLimit(limit: Option<nat>): nat {
    Min(limit.GetOr(DEFAULT_MESSAGE_LIMIT), MAX_MESSAGE_LIMIT)
  }

  /** The handler: a cursor only after a full page. */
  ghost function NextCursor(page: seq<MessageId>, limit: Option<nat>): Option<MessageId> {
    if |page| == EffectiveLimit(limit) && page != [] then Some(page[|page| - 1]) else None
  }

  /**
   A page holds, newest first, messages older than the cursor, and leaves one out only
   if it is full and the one left out is older than all it holds. It is full at the
   limit asked for, 50 if none is, and never more than 100.
   */
  lemma {:induction false} PageHoldsTheNewest(ids: set<MessageId>, before: Option<MessageId>, limit: Option<nat>)
    ensures var page := ListPage(ids, before, EffectiveLimit(limit));
            var full := match limit case None => 50 case Some(n) => if n <= 100 then n else 100;
            && |page| <= full
            && (forall i, j :: 0 <= i < j < |page| ==> page[i].uuid > page[j].uuid)
            && (forall m :: m in page ==> m in ids && (before.Some? ==> m.uuid < before.value.uuid))
            && (forall m :: m in ids && (before.Some? ==> m.uuid < before.value.uuid) && m !in page ==>
                  |page| == full && forall i :: 0 <= i < |page| ==> m.uuid < page[i].uuid)
  {
    var rows := NewestFirst(Below(ids, before));
    var page := ListPage(ids, before, EffectiveLimit(limit));
    hide NewestFirst;
    forall m | m in page
      ensures m in rows
    {
    }
    forall m | m in Below(ids, before) && m !in page
      ensures |page| == EffectiveLimit(limit) && forall i :: 0 <= i < |page| ==> m.uuid < page[i].uuid
    {
      var k :| 0 <= k < |rows| && rows[k] == m;
      assert forall l :: 0 <= l < |page| ==> rows[l] == page[l] && rows[l] in page;
    }
  }

  // ---- following the cursors ----

  /** What follows position `n` of a listing is the listing of what is older than the element before it. */
  lemma {:induction false} RestIsOlder(rows: seq<MessageId>, ids: set<MessageId>, older: set<MessageId>, n: nat)
    requires Descending(rows) && Lists(rows, ids) && 0 < n <= |rows|
    requires forall m :: m in older <==> m in ids && m.uuid < rows[n - 1].uuid
    ensures Descending(rows[n..]) && Lists(rows[n..], older)
  {
    forall m | m in older
      ensures m in rows[n..]
    {
      var i :| 0 <= i < |rows| && rows[i] == m;
      assert rows[n..][i - n] == m;
    }
    forall i | 0 <= i < |rows[n..]|
      ensures rows[n..][i] in older
    {
      assert rows[n + i] in rows;
    }
  }

  /** After a full page the next one starts exactly where it ended. */
  lemma {:induction false} NextPageContinues(
    ids: set<MessageId>, before: Option<MessageId>, rows: seq<MessageId>, n: nat)
    requires rows == NewestFirst(Below(ids, before)) && 0 < n <= |rows|
    ensures rows[n - 1] in Below(ids, before)
    ensures NewestFirst(Below(ids, Some(rows[n - 1]))) == rows[n..]
  {
    hide NewestFirst;
    var rest := Below(ids, Some(rows[n - 1]));
    assert rows[n - 1] in rows;
    RestIsOlder(rows, Below(ids, before), rest, n);
    OneListing(NewestFirst(rest), rows[n..], rest);
  }

  lemma FewerBelow(ids: set<MessageId>, before: Option<MessageId>, cursor: MessageId)
    requires cursor in Below(ids, before)
    ensures |Below(ids, Some(cursor))| < |Below(ids, before)|
  {
    var rest := Below(ids, Some(cursor));
    assert rest <= Below(ids, before) - {cursor};
    assert Below(ids, before) == rest + (Below(ids, before) - rest);
    assert cursor in Below(ids, before) - rest;
  }

  /** All the pages a client collects by following `next_cursor` from `before`, concatenated. */
  ghost function Walk(ids: set<MessageId>, before: Option<MessageId>, limit: Option<nat>): seq<MessageId>
    decreases |Below(ids, before)|
  {
    var page := ListPage(ids, before, EffectiveLimit(limit));
    var next := NextCursor(page, limit);
    if next.None? then page
    else
      FewerBelow(ids, before, next.value);
      page + Walk(ids, next, limit)
  }

  /** The walk from one page on, with the page and the cursor spelled out. */
  lemma {:induction false} WalkStep(
    ids: set<MessageId>, before: Option<MessageId>, limit: Option<nat>, rows: seq<MessageId>)
    requires rows == NewestFirst(Below(ids, before)) && EffectiveLimit(limit) > 0
    ensures |rows| < EffectiveLimit(limit) ==> Walk(ids, before, limit) == rows
    ensures |rows| >= EffectiveLimit(limit) ==>
              Walk(ids, before, limit) ==
              rows[..EffectiveLimit(limit)] + Walk(ids, Some(rows[EffectiveLimit(limit) - 1]), limit)
  {
    hide NewestFirst, EffectiveLimit, Below;
    var page := ListPage(ids, before, EffectiveLimit(limit));
    if |rows| < EffectiveLimit(limit) {
      assert page == rows;
    } else {
      assert page == rows[..EffectiveLimit(limit)];
    }
  }

  lemma {:induction false} WalkListsRest(ids: set<MessageId>, before: Option<MessageId>, limit: Option<nat>)
    requires EffectiveLimit(limit) > 0
    ensures Walk(ids, before, limit) == NewestFirst(Below(ids, before))
    decreases |Below(ids, before)|
  {
    hide NewestFirst, Below, Walk, EffectiveLimit;
    var rows := NewestFirst(Below(ids, before));
    var n := EffectiveLimit(limit);
    WalkStep(ids, before, limit, rows);
    if n <= |rows| {
      NextPageContinues(ids, before, rows, n);
      FewerBelow(ids, before, rows[n - 1]);
      WalkListsRest(ids, Some(rows[n - 1]), limit);
      assert rows == rows[..n] + rows[n..];
    }
  }

  /**
   Following the cursors from the start ends, and yields every message of the
   channel exactly once from the newest to the oldest, exactly when the limit is not
   0 or there is nothing to list. With a limit of 0 the first page is empty and final.
   */
  lemma {:induction false} WalkIsComplete(ids: set<MessageId>, limit: Option<nat>)
    ensures Walk(ids, None, limit) == NewestFirst(ids) <==> limit != Some(0) || ids == {}
    ensures limit == Some(0) ==> Walk(ids, None, limit) == []
  {
    assert Below(ids, None) == ids;
    if EffectiveLimit(limit) > 0 {
      WalkListsRest(ids, None, limit);
    }
  }
}
