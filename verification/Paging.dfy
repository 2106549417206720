/** Keyset pagination of the three listings (ListJobs, ListNotebooks, ListBatchJobs) and what a client that follows
    the `after` cursor collects. */
module Paging {
  import opened Common

  /** Public IDs and project IDs are strings that are only ever compared; zero stands for the empty string. */
  type Token = nat

  const EMPTY: Token := 0

  /** The columns a listing looks at. `id` is the auto-incremented primary key, `key` the public ID. */
  datatype Row = Row(id: nat, key: Token, projectId: Token, deleted: bool)

  datatype Kind = Jobs | Notebooks | BatchJobs

  const DEFAULT_PAGE_SIZE := 20
  const MAX_PAGE_SIZE := 100

  /** A table in ID order. Both IDs are unique. */
  ghost predicate TableOk(t: seq<Row>) {
    t != [] ==>
      var front, last := t[..|t| - 1], t[|t| - 1];
      0 < last.id && last.key != EMPTY && AllUnder(front, last.id) && FreshKey(front, last.key) && TableOk(front)
  }

  ghost predicate AllUnder(t: seq<Row>, bound: nat) {
    forall i :: 0 <= i < |t| ==> 0 < t[i].id < bound
  }

  ghost predicate FreshKey(t: seq<Row>, key: Token) {
    forall i :: 0 <= i < |t| ==> t[i].key != key
  }

  lemma {:induction false} UniqueKey(t: seq<Row>, r: Row, s: Row)
    requires TableOk(t) && r in t && s in t && r.key == s.key
    ensures r == s && 0 < r.id && r.key != EMPTY
  {
    var front, last := t[..|t| - 1], t[|t| - 1];
    assert t == front + [last];
    if r != last && s != last {
      UniqueKey(front, r, s);
    }
  }

  /** Fine-tuning jobs have no deleted state; the other two listings leave deleted rows out. */
  predicate Eligible(k: Kind, project: Token, r: Row) {
    r.projectId == project && (k == Jobs || !r.deleted)
  }

  predicate Below(r: Row, after: nat) {
    after == 0 || r.id < after
  }

  /** The query without its limit: eligible rows below the cursor, `ORDER BY id DESC`. */
  function Matching(k: Kind, project: Token, t: seq<Row>, after: nat): seq<Row> {
    if t == [] then [] else
      var last, rest := t[|t| - 1], Matching(k, project, t[..|t| - 1], after);
      if Eligible(k, project, last) && Below(last, after) then [last] + rest else rest
  }

  function Take<T>(s: seq<T>, n: nat): seq<T> {
    if |s| <= n then s else s[..n]
  }

  /** One page, and whether it leaves something out. */
  function Page(k: Kind, project: Token, t: seq<Row>, after: nat, limit: nat): (seq<Row>, bool) {
    var m := Matching(k, project, t, after);
    (Take(m, limit), |m| > limit)
  }

  function PageSize(limit: nat): nat {
    if limit == 0 then DEFAULT_PAGE_SIZE else if limit > MAX_PAGE_SIZE then MAX_PAGE_SIZE else limit
  }

  /** Whether a row can serve as cursor: batch jobs look for an active row, the others for any row. */
  predicate IsCursor(k: Kind, project: Token, key: Token, r: Row) {
    r.key == key && r.projectId == project && (k == BatchJobs ==> !r.deleted)
  }

  function FindCursor(k: Kind, project: Token, t: seq<Row>, key: Token): (r: Option<Row>)
    ensures r.Some? ==> r.value in t && IsCursor(k, project, key, r.value)
    ensures r.None? ==> forall c <- t :: !IsCursor(k, project, key, c)
  {
    if t == [] then None
    else if IsCursor(k, project, key, t[0]) then Some(t[0])
    else FindCursor(k, project, t[1..], key)
  }

  /** `count` is what the count query found. */
  datatype Reply = Listed(data: seq<Row>, hasMore: bool, count: nat) | Rejected(code: Code)

  /** The int32 field of the response. */
  function TotalItems(reply: Reply): int
    requires reply.Listed?
  {
    ToInt32(reply.count)
  }

  /** The count query. */
  function Count(k: Kind, project: Token, t: seq<Row>): nat {
    |set r | r in t && Eligible(k, project, r)|
  }

  function List(k: Kind, project: Token, t: seq<Row>, after: Token, limit: int): Reply {
    if limit < 0 then Rejected(InvalidArgument)
    else if after != EMPTY && FindCursor(k, project, t, after).None? then Rejected(InvalidArgument)
    else
      var (data, hasMore) := Page(k, project, t, CursorId(k, project, t, after), PageSize(limit));
      Listed(data, hasMore, Count(k, project, t))
  }

  function CursorId(k: Kind, project: Token, t: seq<Row>, after: Token): nat
    requires after == EMPTY || FindCursor(k, project, t, after).Some?
  {
    if after == EMPTY then 0 else FindCursor(k, project, t, after).value.id
  }

  /** Newest first. */
  predicate Descending(rows: seq<Row>) {
    forall i, j :: 0 <= i < j < |rows| ==> rows[i].id > rows[j].id
  }

  /** What the query returns: exactly the eligible rows below the cursor, newest first. */
  lemma {:induction false} MatchingSpec(k: Kind, project: Token, t: seq<Row>, after: nat)
    requires TableOk(t)
    ensures Descending(Matching(k, project, t, after))
    ensures forall r :: r in Matching(k, project, t, after) <==> r in t && Eligible(k, project, r) && Below(r, after)
  {
    if t != [] {
      var n := |t| - 1;
      MatchingSpec(k, project, t[..n], after);
      assert t == t[..n] + [t[n]];
      var rest := Matching(k, project, t[..n], after);
      forall i | 0 <= i < |rest| ensures rest[i].id < t[n].id {
        MatchingUnder(k, project, t[..n], after, i, t[n].id);
      }
    }
  }

  lemma {:induction false} NoneAbove(k: Kind, project: Token, t: seq<Row>, a: nat, b: nat)
    requires (a == 0 || AllUnder(t, a)) && (b == 0 || AllUnder(t, b))
    ensures Matching(k, project, t, a) == Matching(k, project, t, b)
  {
    if t != [] {
      NoneAbove(k, project, t[..|t| - 1], a, b);
    }
  }

  lemma {:induction false} MatchingUnder(k: Kind, project: Token, t: seq<Row>, after: nat, n: nat, bound: nat)
    requires n < |Matching(k, project, t, after)| && AllUnder(t, bound)
    ensures 0 < Matching(k, project, t, after)[n].id < bound
  {
    var last, front := t[|t| - 1], t[..|t| - 1];
    if !Eligible(k, project, last) || !Below(last, after) {
      MatchingUnder(k, project, front, after, n, bound);
    } else if n > 0 {
      MatchingUnder(k, project, front, after, n - 1, bound);
    }
  }

  /** The rows after a page are those below its last row. */
  lemma {:induction false} MatchingSplit(k: Kind, project: Token, t: seq<Row>, after: nat, n: nat)
    requires TableOk(t) && 0 < n <= |Matching(k, project, t, after)|
    ensures var m := Matching(k, project, t, after); m[n..] == Matching(k, project, t, m[n - 1].id)
  {
    var last, front := t[|t| - 1], t[..|t| - 1];
    if !Eligible(k, project, last) || !Below(last, after) {
      MatchingUnder(k, project, front, after, n - 1, last.id);
      MatchingSplit(k, project, front, after, n);
    } else if n == 1 {
      NoneAbove(k, project, front, after, last.id);
    } else {
      MatchingUnder(k, project, front, after, n - 2, last.id);
      MatchingSplit(k, project, front, after, n - 1);
    }
  }

  lemma {:induction false} DistinctCount(rows: seq<Row>)
    requires Descending(rows)
    ensures |set r | r in rows| == |rows|
  {
    if rows != [] {
      DistinctCount(rows[1..]);
      assert (set r | r in rows) == {rows[0]} + set r | r in rows[1..];
      assert rows[0] !in rows[1..];
    } else {
      assert (set r | r in rows) == {};
    }
  }

  lemma CountIsLength(k: Kind, project: Token, t: seq<Row>)
    requires TableOk(t)
    ensures Count(k, project, t) == |Matching(k, project, t, 0)|
  {
    MatchingSpec(k, project, t, 0);
    DistinctCount(Matching(k, project, t, 0));
    assert (set r | r in Matching(k, project, t, 0)) == set r | r in t && Eligible(k, project, r);
  }

  /** What one page holds, in terms of the table alone: the newest eligible rows below the cursor, as many as fit,
      and `hasMore` says whether something is left. */
  ghost predicate PageExact(
      k: Kind, project: Token, t: seq<Row>, after: nat, limit: nat, data: seq<Row>, hasMore: bool) {
    && Descending(data) && |data| <= limit && (hasMore ==> |data| == limit)
    && (forall r <- data :: r in t && Eligible(k, project, r) && Below(r, after))
    && (forall r <- t :: Eligible(k, project, r) && Below(r, after) ==>
          r in data || (hasMore && (data == [] || r.id < data[|data| - 1].id)))
    && (hasMore ==> exists r <- t :: Eligible(k, project, r) && Below(r, after) && r !in data)
  }

  lemma PageSpec(k: Kind, project: Token, t: seq<Row>, after: nat, limit: nat)
    requires TableOk(t)
    ensures var (data, hasMore) := Page(k, project, t, after, limit);
      PageExact(k, project, t, after, limit, data, hasMore)
  {
    var m := Matching(k, project, t, after);
    MatchingSpec(k, project, t, after);
    var (data, hasMore) := Page(k, project, t, after, limit);
    assert forall i :: 0 <= i < |data| ==> data[i] == m[i];
    if hasMore {
      assert m[limit] in t && m[limit] !in data;
    }
    forall r <- t | Eligible(k, project, r) && Below(r, after) && r !in data
      ensures hasMore && (data == [] || r.id < data[|data| - 1].id)
    {
      var i :| 0 <= i < |m| && m[i] == r;
    }
  }

  /** The store's paginated query: it asks for one row more than the limit, to see whether there are more, and cuts
      it off again. */
  method Paginate(k: Kind, project: Token, t: seq<Row>, after: nat, limit: nat) returns (rows: seq<Row>, hasMore: bool)
    ensures (rows, hasMore) == Page(k, project, t, after, limit)
  {
    var m := Matching(k, project, t, after);
    rows, hasMore := Take(m, limit + 1), false;
    if |rows| > limit {
      rows, hasMore := rows[..limit], true;
      assert rows == m[..limit];
    }
  }

  /** The three listing handlers. A cursor that names no row, or a negative limit, is an invalid argument. */
  method ListRows(k: Kind, project: Token, t: seq<Row>, after: Token, limit: int) returns (reply: Reply)
    requires TableOk(t)
    ensures reply == List(k, project, t, after, limit)
    ensures reply.Rejected? <==> limit < 0 || (after != EMPTY && forall c <- t :: !IsCursor(k, project, after, c))
    ensures reply.Listed? ==> |reply.data| <= MAX_PAGE_SIZE && (reply.hasMore ==> reply.data != [])
    ensures reply.Listed? ==> reply.count == |Matching(k, project, t, 0)|
  {
    CountIsLength(k, project, t);
    if limit < 0 {
      return Rejected(InvalidArgument);
    }
    var size := limit;
    if size == 0 {
      size := DEFAULT_PAGE_SIZE;
    }
    if size > MAX_PAGE_SIZE {
      size := MAX_PAGE_SIZE;
    }
    var afterId := 0;
    if after != EMPTY {
      var c := FindCursor(k, project, t, after);
      if c.None? {
        return Rejected(InvalidArgument);
      }
      afterId := c.value.id;
    }
    var rows, hasMore := Paginate(k, project, t, afterId, size);
    return Listed(rows, hasMore, Count(k, project, t));
  }

  /** One request of a client that pages through a listing: the table as it stands then, and the limit asked for. */
  datatype Moment = Moment(table: seq<Row>, limit: int)

  ghost predicate HasRow(t: seq<Row>, id: nat, key: Token, project: Token) {
    exists r <- t :: r.id == id && r.key == key && r.projectId == project
  }

  /** Rows keep their IDs and project and are never removed; other columns change and new rows appear. */
  ghost predicate Evolves(a: seq<Row>, b: seq<Row>) {
    forall id, key, project :: HasRow(a, id, key, project) ==> HasRow(b, id, key, project)
  }

  ghost predicate History(ms: seq<Moment>) {
    ms != [] ==>
      && TableOk(ms[0].table)
      && (|ms| > 1 ==> Evolves(ms[0].table, ms[1].table))
      && History(ms[1..])
  }

  datatype End = Complete | Ongoing | Stopped(code: Code)

  datatype Walked = Walked(rows: seq<Row>, end: End)

  /** Following `after` until `has_more` is false. */
  function Walk(k: Kind, project: Token, after: Token, ms: seq<Moment>): Walked
    decreases |ms|
  {
    if ms == [] then Walked([], Ongoing) else
      match List(k, project, ms[0].table, after, ms[0].limit)
      case Rejected(code) => Walked([], Stopped(code))
      case Listed(data, hasMore, _) =>
        if !hasMore then Walked(data, Complete)
        else
          var w := Walk(k, project, data[|data| - 1].key, ms[1..]);
          Walked(data + w.rows, w.end)
  }

  ghost predicate EligibleIn(k: Kind, project: Token, t: seq<Row>, id: nat) {
    exists r <- t :: r.id == id && Eligible(k, project, r)
  }

  ghost predicate StaysEligible(k: Kind, project: Token, ms: seq<Moment>, id: nat) {
    forall i :: 0 <= i < |ms| ==> EligibleIn(k, project, ms[i].table, id)
  }

  ghost predicate Returned(rows: seq<Row>, id: nat) {
    exists r <- rows :: r.id == id
  }

  /** The row was eligible at a moment of the walk. */
  ghost predicate WasEligible(k: Kind, project: Token, ms: seq<Moment>, r: Row) {
    exists i :: 0 <= i < |ms| && r in ms[i].table && Eligible(k, project, r)
  }

  /** The cursor's place in the order, wherever the cursor came from. */
  ghost predicate CursorAt(t: seq<Row>, project: Token, after: Token, id: nat) {
    if after == EMPTY then id == 0
    else 0 < id && HasRow(t, id, after, project)
  }

  /** The cursor's row is there but can no longer be found: only batch jobs look for an active row. */
  ghost predicate CursorGone(k: Kind, t: seq<Row>, after: Token) {
    k == BatchJobs && exists c <- t :: c.key == after && c.deleted
  }

  lemma CursorFound(k: Kind, project: Token, t: seq<Row>, after: Token, id: nat)
    requires TableOk(t) && CursorAt(t, project, after, id) && after != EMPTY
    ensures FindCursor(k, project, t, after).None? <==> CursorGone(k, t, after)
    ensures FindCursor(k, project, t, after).Some? ==> FindCursor(k, project, t, after).value.id == id
  {
    var c :| c in t && c.id == id && c.key == after && c.projectId == project;
    forall s <- t | s.key == after ensures s == c {
      UniqueKey(t, c, s);
    }
  }

  /** The reply to a request whose cursor names a row: refused exactly when the limit is negative or a batch job that
      serves as cursor has been deleted; otherwise the page below that row and the count of all eligible rows. */
  lemma ListSpec(k: Kind, project: Token, t: seq<Row>, after: Token, limit: int, id: nat)
    requires TableOk(t) && CursorAt(t, project, after, id)
    ensures List(k, project, t, after, limit).Rejected? <==> limit < 0 || (after != EMPTY && CursorGone(k, t, after))
    ensures var reply := List(k, project, t, after, limit);
      if reply.Rejected? then reply.code == InvalidArgument
      else (reply.data, reply.hasMore) == Page(k, project, t, id, PageSize(limit))
           && reply.count == |Matching(k, project, t, 0)|
  {
    if after != EMPTY {
      CursorFound(k, project, t, after, id);
    }
    CountIsLength(k, project, t);
  }

  /** A page whose `has_more` is set leaves a cursor below the last one. */
  lemma CursorMoves(k: Kind, project: Token, t: seq<Row>, after: nat, limit: nat) returns (c: Row)
    requires TableOk(t) && 0 < limit && Page(k, project, t, after, limit).1
    ensures var data := Page(k, project, t, after, limit).0; data != [] && c == data[|data| - 1]
    ensures c in t && 0 < c.id && Eligible(k, project, c) && Below(c, after)
  {
    MatchingSpec(k, project, t, after);
    c := Matching(k, project, t, after)[limit - 1];
    assert c in Matching(k, project, t, after);
    UniqueKey(t, c, c);
  }

  /** And that cursor is still there at the next moment. */
  lemma CursorCarries(t: seq<Row>, u: seq<Row>, c: Row)
    requires TableOk(t) && TableOk(u) && Evolves(t, u) && c in t
    ensures CursorAt(u, c.projectId, c.key, c.id)
  {
    UniqueKey(t, c, c);
    assert HasRow(t, c.id, c.key, c.projectId);
  }

  lemma Joined(a: seq<Row>, b: seq<Row>)
    requires a != [] && Descending(a) && Descending(b) && forall r <- b :: r.id < a[|a| - 1].id
    ensures Descending(a + b)
  {
    forall i, j | 0 <= i < j < |a + b| ensures (a + b)[i].id > (a + b)[j].id {
      if i < |a| <= j {
        assert b[j - |a|] in b;
      }
    }
  }

  lemma WasEligibleLater(k: Kind, project: Token, ms: seq<Moment>, r: Row)
    requires ms != [] && WasEligible(k, project, ms[1..], r)
    ensures WasEligible(k, project, ms, r)
  {
    var i :| 0 <= i < |ms[1..]| && r in ms[1..][i].table && Eligible(k, project, r);
    assert r in ms[i + 1].table;
  }

  /** IDs strictly descend, so nothing comes twice; what comes was eligible when it was read; and a completed walk
      has every row below the cursor that was eligible throughout. */
  ghost predicate Exact(k: Kind, project: Token, ms: seq<Moment>, w: Walked, id: nat) {
    && Descending(w.rows)
    && (forall r <- w.rows :: WasEligible(k, project, ms, r) && Below(r, id))
    && (w.end == Complete ==>
          forall x: nat :: StaysEligible(k, project, ms, x) && (id == 0 || x < id) ==> Returned(w.rows, x))
  }

  /** A walk, by its first reply. */
  lemma WalkUnfolds(k: Kind, project: Token, after: Token, ms: seq<Moment>, data: seq<Row>, hasMore: bool, count: nat)
    requires ms != [] && List(k, project, ms[0].table, after, ms[0].limit) == Listed(data, hasMore, count)
    ensures !hasMore ==> Walk(k, project, after, ms) == Walked(data, Complete)
    ensures hasMore && data != [] ==>
      var w := Walk(k, project, data[|data| - 1].key, ms[1..]);
      Walk(k, project, after, ms) == Walked(data + w.rows, w.end)
  {
  }

  lemma PageStep(k: Kind, project: Token, ms: seq<Moment>, id: nat, size: nat) returns (data: seq<Row>, hasMore: bool)
    requires History(ms) && ms != [] && 0 < size
    ensures (data, hasMore) == Page(k, project, ms[0].table, id, size)
    ensures PageExact(k, project, ms[0].table, id, size, data, hasMore)
    ensures hasMore ==>
      && data != [] && 0 < data[|data| - 1].id
      && (|ms| > 1 ==> CursorAt(ms[1].table, project, data[|data| - 1].key, data[|data| - 1].id))
  {
    var p := Page(k, project, ms[0].table, id, size);
    data, hasMore := p.0, p.1;
    PageSpec(k, project, ms[0].table, id, size);
    if hasMore {
      var c := CursorMoves(k, project, ms[0].table, id, size);
      if |ms| > 1 {
        CursorCarries(ms[0].table, ms[1].table, c);
      }
    }
  }

  /** Page walks are exact, whatever is inserted, changed or marked deleted between the pages. */
  lemma {:induction false} WalkExact(k: Kind, project: Token, after: Token, ms: seq<Moment>, id: nat)
    requires History(ms) && (ms != [] ==> CursorAt(ms[0].table, project, after, id))
    ensures Exact(k, project, ms, Walk(k, project, after, ms), id)
    decreases |ms|
  {
    if ms != [] {
      ListSpec(k, project, ms[0].table, after, ms[0].limit, id);
      var reply := List(k, project, ms[0].table, after, ms[0].limit);
      if reply.Listed? {
        var size := PageSize(ms[0].limit);
        var data, hasMore := PageStep(k, project, ms, id, size);
        WalkUnfolds(k, project, after, ms, data, hasMore, reply.count);
        if hasMore {
          var c := data[|data| - 1];
          WalkExact(k, project, c.key, ms[1..], c.id);
          WalkJoins(k, project, ms, id, size, data, Walk(k, project, c.key, ms[1..]));
        } else {
          WalkLast(k, project, ms, id, size, data);
        }
      }
    }
  }

  lemma WalkLast(k: Kind, project: Token, ms: seq<Moment>, id: nat, size: nat, data: seq<Row>)
    requires ms != [] && PageExact(k, project, ms[0].table, id, size, data, false)
    ensures Exact(k, project, ms, Walked(data, Complete), id)
  {
    assert forall r <- data :: r in ms[0].table;
    forall x: nat | StaysEligible(k, project, ms, x) && (id == 0 || x < id) ensures Returned(data, x) {
      assert EligibleIn(k, project, ms[0].table, x);
    }
  }

  lemma WalkJoins(k: Kind, project: Token, ms: seq<Moment>, id: nat, size: nat, data: seq<Row>, w: Walked)
    requires ms != [] && PageExact(k, project, ms[0].table, id, size, data, true)
    requires data != [] && 0 < data[|data| - 1].id && Exact(k, project, ms[1..], w, data[|data| - 1].id)
    ensures Exact(k, project, ms, Walked(data + w.rows, w.end), id)
  {
    Joined(data, w.rows);
    var c := data[|data| - 1];
    forall r <- data + w.rows ensures WasEligible(k, project, ms, r) && Below(r, id) {
      if r in w.rows {
        WasEligibleLater(k, project, ms, r);
        assert c in data;
      } else {
        assert r in ms[0].table;
      }
    }
    if w.end == Complete {
      forall x: nat | StaysEligible(k, project, ms, x) && (id == 0 || x < id) ensures Returned(data + w.rows, x) {
        assert EligibleIn(k, project, ms[0].table, x);
        var r :| r in ms[0].table && r.id == x && Eligible(k, project, r);
        if r in data {
          assert r in data + w.rows;
        } else {
          assert StaysEligible(k, project, ms[1..], x);
          var q :| q in w.rows && q.id == x;
          assert q in data + w.rows;
        }
      }
    }
  }

  predicate LimitsOk(ms: seq<Moment>) {
    forall i :: 0 <= i < |ms| ==> 0 <= ms[i].limit
  }

  /** There is a moment at which the row can no longer serve as cursor. */
  ghost predicate GoneAt(k: Kind, ms: seq<Moment>, key: Token) {
    exists i :: 0 <= i < |ms| && CursorGone(k, ms[i].table, key)
  }

  /** Enough requests to come to the end: one for every ID below the cursor. */
  ghost predicate Enough(t: seq<Row>, id: nat, requests: nat) {
    if id == 0 then AllUnder(t, requests) else id <= requests
  }

  lemma EnoughNext(t: seq<Row>, id: nat, requests: nat, c: Row)
    requires Enough(t, id, requests) && c in t && 0 < c.id && Below(c, id)
    ensures c.id < requests
  {
  }

  /** A page with more to come leaves a cursor for the rest of the walk. */
  lemma NextCursor(k: Kind, project: Token, ms: seq<Moment>, id: nat, size: nat) returns (c: Row)
    requires History(ms) && ms != [] && 0 < size && Enough(ms[0].table, id, |ms|)
    requires Page(k, project, ms[0].table, id, size).1
    ensures var data := Page(k, project, ms[0].table, id, size).0; data != [] && c == data[|data| - 1]
    ensures |ms| > 1 && 0 < c.id <= |ms| - 1 && CursorAt(ms[1].table, project, c.key, c.id)
  {
    c := CursorMoves(k, project, ms[0].table, id, size);
    EnoughNext(ms[0].table, id, |ms|, c);
    CursorCarries(ms[0].table, ms[1].table, c);
  }

  lemma GoneLater(k: Kind, ms: seq<Moment>, key: Token)
    requires ms != [] && GoneAt(k, ms[1..], key)
    ensures GoneAt(k, ms, key)
  {
    var i :| 0 <= i < |ms[1..]| && CursorGone(k, ms[1..][i].table, key);
    assert CursorGone(k, ms[i + 1].table, key);
  }

  /** A walk that may go on long enough ends: the cursor's ID falls with every page, even while rows are inserted.
      Jobs and notebooks are always walked to the end; a walk over batch jobs can only be stopped by the deletion of
      the row it stands on. */
  lemma {:induction false} WalkEnds(k: Kind, project: Token, after: Token, ms: seq<Moment>, id: nat)
    requires History(ms) && ms != [] && LimitsOk(ms) && CursorAt(ms[0].table, project, after, id)
    requires Enough(ms[0].table, id, |ms|)
    ensures Walk(k, project, after, ms).end == Complete || StoppedByDeletion(k, after, ms, Walk(k, project, after, ms))
    decreases |ms|
  {
    ListSpec(k, project, ms[0].table, after, ms[0].limit, id);
    var reply := List(k, project, ms[0].table, after, ms[0].limit);
    if reply.Rejected? {
      assert GoneAt(k, ms, after);
    } else {
      WalkUnfolds(k, project, after, ms, reply.data, reply.hasMore, reply.count);
      if reply.hasMore {
        var c := NextCursor(k, project, ms, id, PageSize(ms[0].limit));
        RestHasLimits(ms);
        WalkEnds(k, project, c.key, ms[1..], c.id);
        var w := Walk(k, project, c.key, ms[1..]);
        if w.end != Complete {
          StopCarries(k, after, ms, reply.data, w);
        }
      }
    }
  }

  lemma RestHasLimits(ms: seq<Moment>)
    requires LimitsOk(ms) && ms != []
    ensures LimitsOk(ms[1..])
  {
  }

  ghost predicate StoppedByDeletion(k: Kind, after: Token, ms: seq<Moment>, w: Walked) {
    w.end == Stopped(InvalidArgument) && GoneAt(k, ms, if w.rows == [] then after else w.rows[|w.rows| - 1].key)
  }

  lemma StopCarries(k: Kind, after: Token, ms: seq<Moment>, data: seq<Row>, w: Walked)
    requires ms != [] && data != [] && StoppedByDeletion(k, data[|data| - 1].key, ms[1..], w)
    ensures StoppedByDeletion(k, after, ms, Walked(data + w.rows, w.end))
  {
    GoneLater(k, ms, if w.rows == [] then data[|data| - 1].key else w.rows[|w.rows| - 1].key);
  }

  ghost predicate Static(ms: seq<Moment>, t: seq<Row>) {
    forall i :: 0 <= i < |ms| ==> ms[i].table == t && 0 <= ms[i].limit
  }

  lemma NotGone(k: Kind, project: Token, t: seq<Row>, r: Row)
    requires TableOk(t) && r in t && Eligible(k, project, r)
    ensures !CursorGone(k, t, r.key) && CursorAt(t, project, r.key, r.id)
  {
    forall s <- t | s.key == r.key ensures s == r {
      UniqueKey(t, r, s);
    }
    UniqueKey(t, r, r);
  }

  /** A page with more to come, and what the rest of the walk has to find. */
  lemma StaticNext(k: Kind, project: Token, t: seq<Row>, id: nat, size: nat, requests: nat) returns (c: Row)
    requires TableOk(t) && 0 < size && Enough(t, id, requests) && Page(k, project, t, id, size).1
    ensures var data := Page(k, project, t, id, size).0;
      data != [] && c == data[|data| - 1] && Matching(k, project, t, id) == data + Matching(k, project, t, c.id)
    ensures 0 < c.id < requests && CursorAt(t, project, c.key, c.id) && !CursorGone(k, t, c.key)
  {
    c := CursorMoves(k, project, t, id, size);
    EnoughNext(t, id, requests, c);
    NotGone(k, project, t, c);
    MatchingSplit(k, project, t, id, size);
  }

  /** On a table that does not change, the walk is the unlimited query, whatever the limits. */
  lemma {:induction false} StaticWalk(k: Kind, project: Token, after: Token, ms: seq<Moment>, t: seq<Row>, id: nat)
    requires TableOk(t) && Static(ms, t) && ms != []
    requires CursorAt(t, project, after, id) && (after == EMPTY || !CursorGone(k, t, after))
    requires Enough(t, id, |ms|)
    ensures Walk(k, project, after, ms) == Walked(Matching(k, project, t, id), Complete)
    decreases |ms|
  {
    ListSpec(k, project, t, after, ms[0].limit, id);
    var reply := List(k, project, t, after, ms[0].limit);
    WalkUnfolds(k, project, after, ms, reply.data, reply.hasMore, reply.count);
    if reply.hasMore {
      var c := StaticNext(k, project, t, id, PageSize(ms[0].limit), |ms|);
      StaticWalk(k, project, c.key, ms[1..], t, c.id);
    }
  }

  /** From the empty cursor, the page sizes add up to what the count query finds, which `total_items` shows. */
  lemma PagesAddUp(k: Kind, project: Token, ms: seq<Moment>, t: seq<Row>)
    requires TableOk(t) && Static(ms, t) && ms != [] && AllUnder(t, |ms|)
    ensures var w := Walk(k, project, EMPTY, ms);
      && w.end == Complete && |w.rows| == Count(k, project, t)
      && (forall i :: 0 <= i < |ms| ==>
            List(k, project, t, EMPTY, ms[i].limit).Listed?
                && TotalItems(List(k, project, t, EMPTY, ms[i].limit)) == ToInt32(|w.rows|))
  {
    StaticWalk(k, project, EMPTY, ms, t, 0);
    CountIsLength(k, project, t);
    forall i | 0 <= i < |ms|
      ensures List(k, project, t, EMPTY, ms[i].limit).Listed?
      ensures List(k, project, t, EMPTY, ms[i].limit).count == Count(k, project, t)
    {
      ListSpec(k, project, t, EMPTY, ms[i].limit, 0);
    }
  }

  /** Two batch jobs, of which the newer may be deleted. */
  function TwoJobs(project: Token, deleted: bool): seq<Row> {
    [Row(1, 1, project, false), Row(2, 2, project, deleted)]
  }

  lemma TwoJobsOk(project: Token, deleted: bool)
    ensures TableOk(TwoJobs(project, deleted)) && EligibleIn(BatchJobs, project, TwoJobs(project, deleted), 1)
    ensures HasRow(TwoJobs(project, deleted), 1, 1, project) && HasRow(TwoJobs(project, deleted), 2, 2, project)
  {
    var t := TwoJobs(project, deleted);
    assert t[..1] == [t[0]] && t[..1][..0] == [];
    assert t[0] in t && t[1] in t;
  }

  lemma TwoJobsEvolve(project: Token)
    ensures Evolves(TwoJobs(project, false), TwoJobs(project, true))
  {
    TwoJobsOk(project, true);
  }

  lemma FirstOfTwo(project: Token)
    ensures var reply := List(BatchJobs, project, TwoJobs(project, false), EMPTY, 1);
            reply.Listed? && reply.hasMore && reply.data == [Row(2, 2, project, false)]
  {
    var t := TwoJobs(project, false);
    TwoJobsOk(project, false);
    assert t[..1] == [t[0]] && [t[0]][..0] == [];
    assert Matching(BatchJobs, project, [t[0]], 0) == [t[0]];
    assert Matching(BatchJobs, project, t, 0) == [t[1], t[0]];
    ListSpec(BatchJobs, project, t, EMPTY, 1, 0);
  }

  lemma SecondOfTwo(project: Token)
    ensures List(BatchJobs, project, TwoJobs(project, true), 2, 1) == Rejected(InvalidArgument)
  {
    var t := TwoJobs(project, true);
    TwoJobsOk(project, true);
    assert t[1] in t && CursorGone(BatchJobs, t, 2);
    ListSpec(BatchJobs, project, t, 2, 1, 2);
  }

  /** A batch job deleted while it is the cursor stops the walk, and a row that was eligible throughout is missed. */
  lemma DeletedCursorStops(project: Token) returns (ms: seq<Moment>)
    ensures History(ms) && LimitsOk(ms) && StaysEligible(BatchJobs, project, ms, 1)
    ensures Walk(BatchJobs, project, EMPTY, ms).end == Stopped(InvalidArgument)
    ensures !Returned(Walk(BatchJobs, project, EMPTY, ms).rows, 1)
  {
    var t, u := TwoJobs(project, false), TwoJobs(project, true);
    ms := [Moment(t, 1), Moment(u, 1)];
    TwoJobsOk(project, false);
    TwoJobsOk(project, true);
    TwoJobsEvolve(project);
    assert ms[1..] == [Moment(u, 1)] && ms[1..][1..] == [];
    FirstOfTwo(project);
    SecondOfTwo(project);
    WalkUnfolds(BatchJobs, project, EMPTY, ms, [t[1]], true, List(BatchJobs, project, t, EMPTY, 1).count);
    assert Walk(BatchJobs, project, 2, ms[1..]) == Walked([], Stopped(InvalidArgument));
  }

  // The terms of the promise, from the fields of a row and the number asked for.

  /** What a listing is about: the rows of the project below the cursor; of notebooks and batch jobs, those that are not
      deleted. */
  lemma MatchingExactly(k: Kind, project: Token, t: seq<Row>, after: nat, r: Row)
    requires TableOk(t)
    ensures r in Matching(k, project, t, after) <==>
            && r in t && r.projectId == project && (k == Jobs || !r.deleted) && (after == 0 || r.id < after)
  {
    MatchingSpec(k, project, t, after);
  }

  /** Which requests are rejected: a negative limit, or a cursor that names no row of the project; of batch jobs it must
      not be deleted. */
  lemma RejectedExactly(k: Kind, project: Token, t: seq<Row>, after: Token, limit: int)
    ensures List(k, project, t, after, limit).Rejected? <==>
      || limit < 0
      || (after != EMPTY && forall r <- t :: r.key == after && r.projectId == project ==> k == BatchJobs && r.deleted)
    ensures List(k, project, t, after, limit).Rejected? ==> List(k, project, t, after, limit).code == InvalidArgument
  {
  }

  /** How many rows a reply holds: as many as asked for, 20 if nothing is asked for and never more than 100, or all
      there are if that is fewer; and whether there are more. */
  lemma PageLengthExactly(k: Kind, project: Token, t: seq<Row>, after: Token, limit: int, id: nat)
    requires TableOk(t) && CursorAt(t, project, after, id) && 0 <= limit && (after == EMPTY || !CursorGone(k, t, after))
    ensures var reply, all := List(k, project, t, after, limit), |Matching(k, project, t, id)|;
      && reply.Listed?
      && (1 <= limit <= 100 ==> |reply.data| == (if all <= limit then all else limit) && reply.hasMore == (all > limit))
      && (limit == 0 ==> |reply.data| == (if all <= 20 then all else 20) && reply.hasMore == (all > 20))
      && (100 < limit ==> |reply.data| == (if all <= 100 then all else 100) && reply.hasMore == (all > 100))
  {
    ListSpec(k, project, t, after, limit, id);
  }
}
