/** Keyset pagination over the otxs of one account. */
module Pagination {
  import opened Types
  import opened Lifecycle
  import opened Invariant
  import opened Preservation
  import opened Growth
  import opened Theorems
  import Queries
  import opened World

  predicate Owns(s: State, a: Address, id: nat) {
    id in s.otx && s.otx[id].account == a
  }

  /** The ids of an account's otxs below `bound`, in order. */
  function IdsBelow(s: State, a: Address, bound: nat): seq<nat> {
    if bound == 0 then [] else IdsBelow(s, a, bound - 1) + if Owns(s, a, bound - 1) then [bound - 1] else []
  }

  /** All of them, in order. */
  function Ids(s: State, a: Address): seq<nat> {
    IdsBelow(s, a, s.idSeq)
  }

  predicate Ascending(ids: seq<nat>) {
    forall i, j :: 0 <= i < j < |ids| ==> ids[i] < ids[j]
  }

  lemma {:induction false} IdsBelowAre(s: State, a: Address, bound: nat)
    ensures Ascending(IdsBelow(s, a, bound))
    ensures forall id: nat :: id in IdsBelow(s, a, bound) <==> id < bound && Owns(s, a, id)
    decreases bound
  {
    if bound > 0 {
      IdsBelowAre(s, a, bound - 1);
      hide Owns;
      var before := IdsBelow(s, a, bound - 1);
      assert forall i :: 0 <= i < |before| ==> before[i] in before;
    }
  }

  lemma IdsAre(s: State, a: Address)
    requires Inv(s)
    ensures Ascending(Ids(s, a)) && forall id: nat :: id in Ids(s, a) <==> Owns(s, a, id)
  {
    IdsBelowAre(s, a, s.idSeq);
    Queries.IdsBelowSequence(s);
    hide Inv, IdsBelow;
  }

  // ----- the three queries: WHERE, ORDER BY, LIMIT over the join with dispatch

  /** otx INNER JOIN dispatch: one result row per dispatch row. */
  function Join(s: State, ids: seq<nat>): seq<(nat, Status)> {
    if ids == [] then [] else
      var statuses := StatusesOf(s, ids[0]);
      seq(|statuses|, i requires 0 <= i < |statuses| => (ids[0], statuses[i])) + Join(s, ids[1..])
  }

  function TakeFirst<T>(rows: seq<T>, limit: nat): seq<T> {
    if |rows| <= limit then rows else rows[..limit]
  }

  function TakeLast<T>(rows: seq<T>, limit: nat): seq<T> {
    if |rows| <= limit then rows else rows[|rows| - limit..]
  }

  function Above(ids: seq<nat>, cursor: int): seq<nat> {
    if ids == [] then [] else if ids[0] > cursor then [ids[0]] + Above(ids[1..], cursor) else Above(ids[1..], cursor)
  }

  function Below(ids: seq<nat>, cursor: int): seq<nat> {
    if ids == [] then [] else if ids[0] < cursor then [ids[0]] + Below(ids[1..], cursor) else Below(ids[1..], cursor)
  }

  function QueryFirst(s: State, a: Address, limit: nat): seq<(nat, Status)> {
    TakeFirst(Join(s, Ids(s, a)), limit)
  }

  function QueryNext(s: State, a: Address, cursor: int, limit: nat): seq<(nat, Status)> {
    TakeFirst(Join(s, Above(Ids(s, a), cursor)), limit)
  }

  /** ORDER BY id DESC LIMIT, then in ascending order again. */
  function QueryPrevious(s: State, a: Address, cursor: int, limit: nat): seq<(nat, Status)> {
    TakeLast(Join(s, Below(Ids(s, a), cursor)), limit)
  }

  function PageIds(rows: seq<(nat, Status)>): seq<nat> {
    seq(|rows|, i requires 0 <= i < |rows| => rows[i].0)
  }

  /** The join duplicates nothing: every otx has one dispatch row. */
  lemma {:induction false} JoinIsOneToOne(s: State, ids: seq<nat>)
    requires Inv(s) && forall id :: id in ids ==> id in s.otx
    ensures PageIds(Join(s, ids)) == ids
    decreases |ids|
  {
    if ids != [] {
      hide Inv, StatusesOf, Join, PageIds;
      OneStatus(s, ids[0]);
      JoinIsOneToOne(s, ids[1..]);
      JoinHead(s, ids);
    }
  }

  /** Each row of the join is an otx of the list with its own dispatch status. */
  lemma {:induction false} JoinRows(s: State, ids: seq<nat>)
    requires Inv(s) && forall id :: id in ids ==> id in s.otx
    ensures forall row :: row in Join(s, ids) ==> row.0 in ids && StatusesOf(s, row.0) == [row.1]
    decreases |ids|
  {
    if ids != [] {
      hide Inv;
      OneStatus(s, ids[0]);
      JoinRows(s, ids[1..]);
      hide StatusesOf;
    }
  }

  /** What any of the three queries returns is the account's own, and each row has the status of its dispatch. */
  lemma RowsAreTrue(s: State, a: Address, cursor: int, limit: nat)
    requires Inv(s)
    ensures forall row ::
              row in QueryFirst(s, a, limit) || row in QueryNext(s, a, cursor, limit)
                || row in QueryPrevious(s, a, cursor, limit) ==>
                row.0 in s.otx && s.otx[row.0].account == a && StatusesOf(s, row.0) == [row.1]
  {
    hide Inv, Ids, StatusesOf, Join, Owns;
    var ids := Ids(s, a);
    IdsOfAccount(s, a);
    AboveAndBelow(ids, cursor);
    JoinRows(s, ids);
    JoinRows(s, Above(ids, cursor));
    JoinRows(s, Below(ids, cursor));
  }

  /** All of the account's otxs are listed, and no others. */
  lemma IdsOfAccount(s: State, a: Address)
    requires Inv(s)
    ensures forall id: nat :: id in Ids(s, a) <==> id in s.otx && s.otx[id].account == a
  {
    IdsAre(s, a);
    hide Inv, Ids;
  }

  lemma {:induction false} AboveAndBelow(ids: seq<nat>, cursor: int)
    ensures forall id :: id in Above(ids, cursor) <==> id in ids && id > cursor
    ensures forall id :: id in Below(ids, cursor) <==> id in ids && id < cursor
    decreases |ids|
  {
    if ids != [] {
      AboveAndBelow(ids[1..], cursor);
      assert ids == [ids[0]] + ids[1..];
    }
  }

  lemma OneStatus(s: State, o: nat)
    requires Inv(s) && o in s.otx
    ensures |StatusesOf(s, o)| == 1
  {
    CurrentVersionFact(s, o);
    hide Inv;
  }

  lemma JoinHead(s: State, ids: seq<nat>)
    requires ids != [] && |StatusesOf(s, ids[0])| == 1
    ensures PageIds(Join(s, ids)) == [ids[0]] + PageIds(Join(s, ids[1..]))
  {
    hide StatusesOf;
  }

  lemma AscendingTail(ids: seq<nat>)
    requires Ascending(ids) && ids != []
    ensures Ascending(ids[1..]) && forall i :: 0 <= i < |ids[1..]| ==> ids[1..][i] > ids[0]
  {
  }

  lemma {:induction false} AboveAt(ids: seq<nat>, i: nat)
    requires Ascending(ids) && i < |ids|
    ensures Above(ids, ids[i]) == ids[i + 1..]
    decreases |ids|
  {
    AscendingTail(ids);
    if i == 0 {
      AboveAll(ids[1..], ids[0]);
    } else {
      AboveAt(ids[1..], i - 1);
    }
  }

  lemma {:induction false} AboveAll(ids: seq<nat>, cursor: int)
    requires forall i :: 0 <= i < |ids| ==> ids[i] > cursor
    ensures Above(ids, cursor) == ids
    decreases |ids|
  {
    if ids != [] {
      AboveAll(ids[1..], cursor);
    }
  }

  lemma {:induction false} BelowAt(ids: seq<nat>, i: nat)
    requires Ascending(ids) && i < |ids|
    ensures Below(ids, ids[i]) == ids[..i]
    decreases |ids|
  {
    AscendingTail(ids);
    if i == 0 {
      BelowNone(ids, ids[0]);
    } else {
      BelowAt(ids[1..], i - 1);
      assert ids[..i] == [ids[0]] + ids[1..][..i - 1];
    }
  }

  lemma {:induction false} BelowNone(ids: seq<nat>, cursor: int)
    requires forall i :: 0 <= i < |ids| ==> ids[i] >= cursor
    ensures Below(ids, cursor) == []
    decreases |ids|
  {
    if ids != [] {
      BelowNone(ids[1..], cursor);
    }
  }

  lemma Subset(s: State, a: Address, ids: seq<nat>)
    requires Inv(s) && forall id :: id in ids ==> id in Ids(s, a)
    ensures PageIds(Join(s, ids)) == ids
  {
    IdsAre(s, a);
    hide Inv, Ids;
    JoinIsOneToOne(s, ids);
  }

  /** What each query returns, as a slice of the account's ids. */
  lemma FirstIs(s: State, a: Address, limit: nat)
    requires Inv(s)
    ensures PageIds(QueryFirst(s, a, limit)) == TakeFirst(Ids(s, a), limit)
  {
    Subset(s, a, Ids(s, a));
    hide Inv, Ids, Join;
  }

  lemma NextIs(s: State, a: Address, i: nat, limit: nat)
    requires Inv(s) && i < |Ids(s, a)|
    ensures PageIds(QueryNext(s, a, Ids(s, a)[i], limit)) == TakeFirst(Ids(s, a)[i + 1..], limit)
  {
    IdsAre(s, a);
    AboveAt(Ids(s, a), i);
    Subset(s, a, Ids(s, a)[i + 1..]);
    hide Inv, Ids, Join;
  }

  lemma PreviousIs(s: State, a: Address, i: nat, limit: nat)
    requires Inv(s) && i < |Ids(s, a)|
    ensures PageIds(QueryPrevious(s, a, Ids(s, a)[i], limit)) == TakeLast(Ids(s, a)[..i], limit)
  {
    IdsAre(s, a);
    BelowAt(Ids(s, a), i);
    Subset(s, a, Ids(s, a)[..i]);
    hide Inv, Ids, Join;
  }

  /** Later commits only add ids at the end, because within an account id order is nonce order. */
  lemma IdsOnlyAppend(s: State, t: State, a: Address)
    requires Inv(s) && Inv(t) && Grows(s, t)
    ensures Ids(s, a) <= Ids(t, a)
  {
    IdsAre(s, a);
    IdsAre(t, a);
    hide Inv, Ids;
    OwnedLater(s, t, a);
    hide Grows, Owns;
    PrefixOf(Ids(s, a), Ids(t, a));
  }

  lemma OwnedLater(s: State, t: State, a: Address)
    requires Grows(s, t)
    ensures forall id :: Owns(s, a, id) ==> Owns(t, a, id)
    ensures forall id, o :: Owns(t, a, id) && !Owns(s, a, id) && Owns(s, a, o) ==> o < id
  {
    hide NoncesGrow, ChainGrows, PendingNotReentered;
    forall id | id in s.otx ensures Owns(s, a, id) <==> Owns(t, a, id) {
      assert Kept(s, t, id);
    }
    hide Kept;
  }

  lemma {:induction false} PrefixOf(x: seq<nat>, y: seq<nat>)
    requires Ascending(x) && Ascending(y)
    requires forall id :: id in x ==> id in y
    requires forall id, o :: id in y && id !in x && o in x ==> o < id
    ensures x <= y
    decreases |x|
  {
    if x != [] {
      assert x[0] in x && x[0] in y;
      var k :| 0 <= k < |y| && y[k] == x[0];
      assert y[0] <= x[0] && y[0] in y && x[0] in x;
      assert y[0] in x;
      var m :| 0 <= m < |x| && x[m] == y[0];
      assert x[0] <= x[m];
      AscendingTail(x);
      AscendingTail(y);
      forall id | id in x[1..] ensures id in y[1..] {
        assert id in x && id in y && id != y[0];
      }
      forall id, o | id in y[1..] && id !in x[1..] && o in x[1..] ensures o < id {
        assert id in y && o in x && id != x[0];
      }
      PrefixOf(x[1..], y[1..]);
    }
  }

  // ----- following the cursors

  function Concat(pages: seq<seq<nat>>): seq<nat> {
    if pages == [] then [] else Concat(pages[..|pages| - 1]) + pages[|pages| - 1]
  }

  /** A client starts with the first page and keeps asking for the next one after the last id it got, with any
      page sizes, while others commit; only its last page may be empty. */
  ghost predicate Followed(ss: seq<State>, a: Address, limits: seq<nat>, pages: seq<seq<nat>>) {
    && 0 < |pages| == |ss| == |limits|
    && (forall i :: 0 <= i < |ss| ==> Inv(ss[i]) && limits[i] > 0)
    && (forall i, j :: 0 <= i < |ss| - 1 && j == i + 1 ==> Grows(ss[i], ss[j]))
    && (forall i :: 0 <= i < |pages| - 1 ==> pages[i] != [])
    && pages[0] == PageIds(QueryFirst(ss[0], a, limits[0]))
    && (forall i, j :: 0 <= i < |pages| - 1 && j == i + 1 ==>
          pages[j] == PageIds(QueryNext(ss[j], a, pages[i][|pages[i]| - 1], limits[j])))
  }

  lemma FollowedBefore(ss: seq<State>, a: Address, limits: seq<nat>, pages: seq<seq<nat>>)
    requires Followed(ss, a, limits, pages) && |pages| > 1
    ensures var k := |pages| - 1; Followed(ss[..k], a, limits[..k], pages[..k]) && pages[..k][k - 1] != []
  {
    hide Inv, Grows, QueryFirst, QueryNext;
  }

  /** The pages together are the account's otxs in id order, each exactly once, as far as they go; and a page that
      is not full was the end. */
  lemma {:induction false} NextEnumeratesEachOnce(ss: seq<State>, a: Address, limits: seq<nat>, pages: seq<seq<nat>>)
    requires Followed(ss, a, limits, pages)
    ensures Concat(pages) <= Ids(ss[|ss| - 1], a)
    ensures |pages[|pages| - 1]| < limits[|limits| - 1] ==> Concat(pages) == Ids(ss[|ss| - 1], a)
    decreases |pages|
  {
    hide Inv, Grows, QueryFirst, QueryNext, Ids, PageIds;
    var k := |pages| - 1;
    assert Inv(ss[k]);
    if k == 0 {
      FirstIs(ss[0], a, limits[0]);
      assert Concat(pages) == Concat(pages[..0]) + pages[0] == pages[0];
    } else {
      FollowedBefore(ss, a, limits, pages);
      NextEnumeratesEachOnce(ss[..k], a, limits[..k], pages[..k]);
      var p, ids := Concat(pages[..k]), Ids(ss[k], a);
      assert p == Concat(pages[..k][..k - 1]) + pages[..k][k - 1];
      assert Inv(ss[k - 1]) && Grows(ss[k - 1], ss[k]);
      IdsOnlyAppend(ss[k - 1], ss[k], a);
      PrefixStep(p, Ids(ss[k - 1], a), ids);
      assert ids[|p| - 1] == pages[k - 1][|pages[k - 1]| - 1];
      NextIs(ss[k], a, |p| - 1, limits[k]);
      PageExtends(p, pages[k], ids, limits[k]);
    }
  }

  lemma PageExtends(p: seq<nat>, page: seq<nat>, ids: seq<nat>, limit: nat)
    requires p <= ids && page == TakeFirst(ids[|p|..], limit)
    ensures p + page <= ids && (|page| < limit ==> p + page == ids)
  {
  }

  lemma PrefixStep(x: seq<nat>, y: seq<nat>, z: seq<nat>)
    requires x <= y <= z
    ensures x <= z
  {
  }

  /** The cursor of an empty page is 0, and following that one starts over from the beginning. */
  lemma EmptyPageRestarts(s: State, a: Address, limit: nat)
    requires Inv(s) && Ids(s, a) != [] && Ids(s, a)[0] > 0
    ensures PageIds(QueryNext(s, a, 0, limit)) == PageIds(QueryFirst(s, a, limit))
  {
    IdsAre(s, a);
    hide Inv, Ids;
    AboveAll(Ids(s, a), 0);
  }

  /** Going back from the first id of a page gives the page it was reached from, if that page was full or the
      first; otherwise it gives more than that page. */
  lemma PreviousUndoesNextIff(s: State, a: Address, start: nat, size: nat, limit: nat)
    requires Inv(s) && 0 < size <= limit && start + size < |Ids(s, a)|
    ensures var ids := Ids(s, a);
            PageIds(QueryPrevious(s, a, ids[start + size], limit)) == ids[start..start + size] <==>
              size == limit || start == 0
  {
    hide Inv, Ids, QueryPrevious, TakeLast;
    PreviousIs(s, a, start + size, limit);
    LastOfSlice(Ids(s, a), start, size, limit);
  }

  lemma LastOfSlice(ids: seq<nat>, start: nat, size: nat, limit: nat)
    requires 0 < size <= limit && start + size < |ids|
    ensures TakeLast(ids[..start + size], limit) == ids[start..start + size] <==> size == limit || start == 0
  {
    var before := ids[..start + size];
    if |before| <= limit {
      assert start == 0 ==> before == ids[start..start + size];
      assert start > 0 ==> |before| > size;
    } else {
      assert |before[|before| - limit..]| == limit;
      assert size == limit ==> before[start..] == ids[start..start + size];
    }
  }

  /** With the same page size and no commits in between, a page that has a successor is full, so going forward and
      back returns to it. */
  lemma ForthAndBack(s: State, a: Address, i: nat, limit: nat)
    requires Inv(s) && limit > 0 && i < |Ids(s, a)|
    requires var page := PageIds(QueryNext(s, a, Ids(s, a)[i], limit));
             page != [] && PageIds(QueryNext(s, a, page[|page| - 1], limit)) != []
    ensures var page := PageIds(QueryNext(s, a, Ids(s, a)[i], limit));
            var after := PageIds(QueryNext(s, a, page[|page| - 1], limit));
            PageIds(QueryPrevious(s, a, after[0], limit)) == page
  {
    hide Inv, Ids, QueryNext, QueryPrevious;
    var ids := Ids(s, a);
    NextIs(s, a, i, limit);
    var page := PageIds(QueryNext(s, a, ids[i], limit));
    assert page == ids[i + 1..i + 1 + |page|];
    NextIs(s, a, i + |page|, limit);
    PreviousUndoesNextIff(s, a, i + 1, |page|, limit);
  }

  // ----- the handler

  /** A validated request: the page size is positive. */
  datatype Request = Request(perPage: int, cursor: int, next: bool)

  datatype Pagination = Pagination(perPage: int, cursor: int, next: bool, firstPage: bool)

  function ValidatePagination(q: Request): (p: Pagination)
    ensures p.perPage <= 100 && (q.perPage <= 100 ==> p.perPage == q.perPage)
    ensures q.perPage > 0 ==> p.perPage > 0
    ensures p.firstPage ==> !p.next && q.cursor <= 0
    ensures !p.firstPage && !p.next ==> q.cursor > 0
  {
    var capped := if q.perPage > 100 then q.(perPage := 100) else q;
    Pagination(capped.perPage, capped.cursor, capped.next, !capped.next && capped.cursor < 1)
  }

  datatype Response = Response(otx: seq<(nat, Status)>, first: nat, last: nat)

  /** At most 100 rows of one consistent snapshot, and the ids to go on or back from. */
  method GetOtxByAddress(w: World, a: Address, req: Request) returns (r: Option<Response>)
    requires w.Valid() && req.perPage > 0
    modifies w
    ensures w.Later(old(w.s), old(w.log)) && w.own == old(w.own)
    ensures r.Some? ==> |r.value.otx| <= req.perPage && |r.value.otx| <= 100
    ensures var limit := if req.perPage > 100 then 100 else req.perPage;
            r.Some? ==> r.value.otx == if !req.next && req.cursor < 1 then QueryFirst(w.s, a, limit)
                                       else if req.next then QueryNext(w.s, a, req.cursor, limit)
                                       else QueryPrevious(w.s, a, req.cursor, limit)
    ensures r.Some? && r.value.otx != [] ==>
              PageIds(r.value.otx)[0] == r.value.first && PageIds(r.value.otx)[|r.value.otx| - 1] == r.value.last
    ensures r.Some? ==> forall row :: row in r.value.otx ==>
              row.0 in w.s.otx && w.s.otx[row.0].account == a && StatusesOf(w.s, row.0) == [row.1]
    ensures r.Some? && r.value.otx == [] ==> r.value.first == r.value.last == 0
    ensures w.quiet ==> r.Some? && w.s == old(w.s)
  {
    hide Run, Init, Ids, Join, Inv, Reachable, StatusesOf;
    var pagination := ValidatePagination(req);
    w.Interfere();
    var failed: bool := *;
    if failed && !w.quiet {
      return None;
    }
    var otx: seq<(nat, Status)> := [];
    if pagination.firstPage {
      otx := QueryFirst(w.s, a, pagination.perPage);
    } else if pagination.next {
      otx := QueryNext(w.s, a, pagination.cursor, pagination.perPage);
    } else {
      otx := QueryPrevious(w.s, a, pagination.cursor, pagination.perPage);
    }
    w.Known();
    RowsAreTrue(w.s, a, req.cursor, pagination.perPage);
    var first, last := 0, 0;
    if |otx| > 0 {
      first := otx[0].0;
      last := otx[|otx| - 1].0;
    }
    r := Some(Response(otx, first, last));
  }
}
