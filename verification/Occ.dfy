/** Optimistic concurrency as every table of the server uses it.

A handler reads a row, checks its guards against that snapshot, and later issues one
`UPDATE ... WHERE id = ? AND version = ?` that writes some columns and the next version.
The two halves of different handlers interleave freely. The notebook, fine-tuning and batch
tables are three instances of the `Table` below. */
module Occ {

  type Tid = nat

  /** What a table does with a request `q`:
      - `writes(q, s)`: a handler that read `s` passes its guards and issues an update;
      - `updated(q, s, r)`: row `r` after the update computed from the snapshot `s` lands on it
        (columns the update does not name keep their value in `r`);
      - `version(r)`: the version column. */
  datatype Table<!R, !Q> = Table(writes: (Q, R) -> bool, updated: (Q, R, R) -> R, version: R -> nat)

  /** A handler between its read and its update. */
  datatype Pending<R, Q> = Pending(id: string, snap: R, q: Q)

  datatype Entry<R, Q> = Inserted(id: string, row: R) | Landed(id: string, was: R, q: Q)

  datatype State<R, Q> = State(rows: map<string, R>, pending: map<Tid, Pending<R, Q>>, log: seq<Entry<R, Q>>)

  datatype Event<R, Q> =
    | Insert(id: string, row: R)
    | Read(tid: Tid, id: string, q: Q)
    | Commit(tid: Tid)
    | Drop(tid: Tid)

  /** Every update writes the version after the one it found. */
  ghost predicate BumpsVersion<R(!new), Q(!new)>(t: Table<R, Q>) {
    forall q, s, r :: t.version(t.updated(q, s, r)) == t.version(r) + 1
  }

  /** The WHERE clause of the update issued by `p` still selects its row. */
  predicate Current<R, Q>(t: Table<R, Q>, rows: map<string, R>, p: Pending<R, Q>) {
    p.id in rows && t.version(rows[p.id]) == t.version(p.snap)
  }

  /** One event. An event that is not enabled changes nothing. */
  function Step<R, Q>(t: Table<R, Q>, s: State<R, Q>, e: Event<R, Q>): State<R, Q> {
    match e
    case Insert(id, row) =>
      if id in s.rows then s
      else s.(rows := s.rows[id := row], log := s.log + [Inserted(id, row)])
    case Read(tid, id, q) =>
      if tid in s.pending || id !in s.rows || !t.writes(q, s.rows[id]) then s
      else s.(pending := s.pending[tid := Pending(id, s.rows[id], q)])
    case Commit(tid) =>
      if tid !in s.pending then s
      else
        var p := s.pending[tid];
        if Current(t, s.rows, p) then
          State(s.rows[p.id := t.updated(p.q, p.snap, s.rows[p.id])], s.pending - {tid},
                s.log + [Landed(p.id, p.snap, p.q)])
        else s.(pending := s.pending - {tid})
    case Drop(tid) => s.(pending := s.pending - {tid})
  }

  function Run<R, Q>(t: Table<R, Q>, s: State<R, Q>, es: seq<Event<R, Q>>): State<R, Q> {
    if es == [] then s else Step(t, Run(t, s, es[..|es| - 1]), es[|es| - 1])
  }

  function Start<R, Q>(rows: map<string, R>): State<R, Q> {
    State(rows, map[], [])
  }

  /** One handler run alone, reading and writing without interruption. */
  function Alone<R, Q>(t: Table<R, Q>, rows: map<string, R>, id: string, q: Q): map<string, R> {
    if id in rows && t.writes(q, rows[id]) then rows[id := t.updated(q, rows[id], rows[id])] else rows
  }

  /** The serial run of a log: every entry on its own, in order. */
  function Replay<R, Q>(t: Table<R, Q>, rows: map<string, R>, log: seq<Entry<R, Q>>): map<string, R> {
    if log == [] then rows
    else
      var before := Replay(t, rows, log[..|log| - 1]);
      match log[|log| - 1]
      case Inserted(id, row) => before[id := row]
      case Landed(id, _, q) => Alone(t, before, id, q)
  }

  /** Entry `i` of the log happened to exactly the row it read. */
  ghost predicate Faithful<R, Q>(t: Table<R, Q>, rows: map<string, R>, log: seq<Entry<R, Q>>, i: nat)
    requires i < |log|
  {
    var before := Replay(t, rows, log[..i]);
    match log[i]
    case Inserted(id, _) => id !in before
    case Landed(id, was, q) => id in before && before[id] == was && t.writes(q, was)
  }

  /** A pending handler whose version is still current read the current row. */
  ghost predicate Fresh<R, Q>(t: Table<R, Q>, rows: map<string, R>, p: Pending<R, Q>) {
    && p.id in rows
    && t.writes(p.q, p.snap)
    && t.version(p.snap) <= t.version(rows[p.id])
    && (t.version(p.snap) == t.version(rows[p.id]) ==> p.snap == rows[p.id])
  }

  ghost predicate Snapshots<R, Q>(t: Table<R, Q>, s: State<R, Q>) {
    forall tid <- s.pending :: Fresh(t, s.rows, s.pending[tid])
  }

  lemma SnapshotsKept<R(!new), Q(!new)>(t: Table<R, Q>, s: State<R, Q>, e: Event<R, Q>)
    requires BumpsVersion(t) && Snapshots(t, s)
    ensures Snapshots(t, Step(t, s, e))
  {
    var s' := Step(t, s, e);
    forall tid <- s'.pending
      ensures Fresh(t, s'.rows, s'.pending[tid])
    {
      if tid in s.pending {
        assert Fresh(t, s.rows, s.pending[tid]);
      }
    }
  }

  lemma {:induction false} SnapshotsAlways<R(!new), Q(!new)>(t: Table<R, Q>, s: State<R, Q>, es: seq<Event<R, Q>>)
    requires BumpsVersion(t) && Snapshots(t, s)
    ensures Snapshots(t, Run(t, s, es))
  {
    if es != [] {
      SnapshotsAlways(t, s, es[..|es| - 1]);
      SnapshotsKept(t, Run(t, s, es[..|es| - 1]), es[|es| - 1]);
    }
  }

  /** A handler reads the current row, if it passes its guards there; its update lands exactly if the row still has the
      version it read, and otherwise nothing happens to any row. */
  lemma HandlerExactly<R, Q>(t: Table<R, Q>, s: State<R, Q>, tid: Tid, id: string, q: Q)
    ensures tid !in s.pending && id in s.rows ==>
      Step(t, s, Read(tid, id, q)) ==
        if t.writes(q, s.rows[id]) then State(s.rows, s.pending[tid := Pending(id, s.rows[id], q)], s.log) else s
    ensures tid in s.pending ==>
      var p, s' := s.pending[tid], Step(t, s, Commit(tid));
      && s'.pending == s.pending - {tid}
      && s'.rows == if p.id in s.rows && t.version(s.rows[p.id]) == t.version(p.snap)
                    then s.rows[p.id := t.updated(p.q, p.snap, s.rows[p.id])] else s.rows
  {
  }

  /** The request an event lets land on row `id`, if any. */
  function Lands<R, Q>(t: Table<R, Q>, s: State<R, Q>, e: Event<R, Q>, id: string): (r: set<Q>)
    ensures |r| <= 1
  {
    if e.Commit? && e.tid in s.pending && s.pending[e.tid].id == id && Current(t, s.rows, s.pending[e.tid])
    then {s.pending[e.tid].q} else {}
  }

  /** Seen from one row, an interleaved step is nothing, an insertion, or one handler run alone on it. */
  lemma StepIsSerial<R(!new), Q(!new)>(t: Table<R, Q>, s: State<R, Q>, e: Event<R, Q>, id: string)
    requires BumpsVersion(t) && Snapshots(t, s)
    requires id in s.rows
    ensures id in Step(t, s, e).rows
    ensures Lands(t, s, e, id) == {} ==> Step(t, s, e).rows[id] == s.rows[id]
    ensures forall q <- Lands(t, s, e, id) ::
              t.writes(q, s.rows[id]) && Step(t, s, e).rows[id] == t.updated(q, s.rows[id], s.rows[id])
  {
    if e.Commit? && e.tid in s.pending {
      assert Fresh(t, s.rows, s.pending[e.tid]);
    }
  }

  /** What holds of every inserted row and survives every handler run alone
      holds of every row in every interleaving. */
  lemma {:induction false} Lift<R(!new), Q(!new)>(
      t: Table<R, Q>, s: State<R, Q>, es: seq<Event<R, Q>>, good: R -> bool)
    requires BumpsVersion(t) && Snapshots(t, s)
    requires forall id <- s.rows :: good(s.rows[id])
    requires forall e <- es :: e.Insert? ==> good(e.row)
    requires forall q, r :: good(r) && t.writes(q, r) ==> good(t.updated(q, r, r))
    ensures forall id <- Run(t, s, es).rows :: good(Run(t, s, es).rows[id])
  {
    if es != [] {
      var init, e := es[..|es| - 1], es[|es| - 1];
      assert forall x <- init :: x in es;
      Lift(t, s, init, good);
      SnapshotsAlways(t, s, init);
      var mid := Run(t, s, init);
      forall id <- Run(t, s, es).rows
        ensures good(Run(t, s, es).rows[id])
      {
        if id in mid.rows {
          StepIsSerial(t, mid, e, id);
        } else {
          assert e in es;
        }
      }
    }
  }

  lemma PrefixFaithful<R, Q>(t: Table<R, Q>, rows: map<string, R>, log: seq<Entry<R, Q>>, last: Entry<R, Q>)
    requires forall i: nat :: i < |log| ==> Faithful(t, rows, log, i)
    requires Faithful(t, rows, log + [last], |log|)
    ensures forall i: nat :: i < |log + [last]| ==> Faithful(t, rows, log + [last], i)
  {
    forall i: nat | i < |log|
      ensures Faithful(t, rows, log + [last], i)
    {
      assert Faithful(t, rows, log, i);
      assert (log + [last])[..i] == log[..i];
    }
  }

  /** Serializability: the rows after any interleaving are those of the serial run of the handlers
      that succeeded, in commit order, and each of them overwrote exactly the row it had read. */
  lemma {:induction false} Serializable<R(!new), Q(!new)>(
      t: Table<R, Q>, rows: map<string, R>, es: seq<Event<R, Q>>)
    requires BumpsVersion(t)
    ensures var s := Run(t, Start(rows), es);
            && s.rows == Replay(t, rows, s.log)
            && forall i: nat :: i < |s.log| ==> Faithful(t, rows, s.log, i)
  {
    if es != [] {
      var before := Run(t, Start(rows), es[..|es| - 1]);
      var e := es[|es| - 1];
      Serializable(t, rows, es[..|es| - 1]);
      SnapshotsAlways(t, Start(rows), es[..|es| - 1]);
      var after := Step(t, before, e);
      if after.log != before.log {
        assert |after.log| == |before.log| + 1;
        var last := after.log[|before.log|];
        assert after.log == before.log + [last];
        assert after.log[..|before.log|] == before.log;
        if e.Commit? {
          assert Fresh(t, before.rows, before.pending[e.tid]);
        }
        PrefixFaithful(t, rows, before.log, last);
      }
    }
  }

  function Count<R, Q>(log: seq<Entry<R, Q>>, id: string): nat {
    if log == [] then 0
    else Count(log[..|log| - 1], id) + (if log[|log| - 1].Landed? && log[|log| - 1].id == id then 1 else 0)
  }

  /** Between any two points of a run, the version of a row that was there at the first rises by
      exactly the number of successful updates to it. */
  lemma {:induction false} VersionCountsSuccesses<R(!new), Q(!new)>(
      t: Table<R, Q>, rows: map<string, R>, log: seq<Entry<R, Q>>, id: string, i: nat, j: nat)
    requires BumpsVersion(t)
    requires forall k: nat :: k < |log| ==> Faithful(t, rows, log, k)
    requires i <= j <= |log| && id in Replay(t, rows, log[..i])
    ensures id in Replay(t, rows, log[..j])
    ensures t.version(Replay(t, rows, log[..j])[id])
         == t.version(Replay(t, rows, log[..i])[id]) + Count(log[..j], id) - Count(log[..i], id)
    decreases j
  {
    if i < j {
      VersionCountsSuccesses(t, rows, log, id, i, j - 1);
      assert Faithful(t, rows, log, j - 1);
      assert log[..j][..j - 1] == log[..j - 1];
    }
  }

  lemma {:induction false} CountGrows<R, Q>(log: seq<Entry<R, Q>>, id: string, i: nat, j: nat)
    requires i < j <= |log| && log[i].Landed? && log[i].id == id
    ensures Count(log[..i], id) < Count(log[..j], id)
    decreases j
  {
    assert log[..j][..j - 1] == log[..j - 1];
    if i < j - 1 {
      CountGrows(log, id, i, j - 1);
    }
  }

  /** At most one update per version of a row wins: of two successes on a row, the later one
      read a higher version. */
  lemma OneWinnerPerVersion<R(!new), Q(!new)>(
      t: Table<R, Q>, rows: map<string, R>, es: seq<Event<R, Q>>, i: nat, j: nat)
    requires BumpsVersion(t)
    requires i < j < |Run(t, Start(rows), es).log|
    requires var log := Run(t, Start(rows), es).log;
             log[i].Landed? && log[j].Landed? && log[i].id == log[j].id
    ensures var log := Run(t, Start(rows), es).log; t.version(log[i].was) < t.version(log[j].was)
  {
    var log := Run(t, Start(rows), es).log;
    Serializable(t, rows, es);
    assert Faithful(t, rows, log, i) && Faithful(t, rows, log, j);
    VersionCountsSuccesses(t, rows, log, log[i].id, i, j);
    CountGrows(log, log[i].id, i, j);
  }

  /** Everything optimistic concurrency promises of a run: the rows are those of the serial run of its successes;
      each success overwrote exactly the row it read; a version counts the successes on its row; and of two
      successes on a row the later one read a higher version. */
  ghost predicate Serialized<R(!new), Q(!new)>(t: Table<R, Q>, rows: map<string, R>, es: seq<Event<R, Q>>) {
    var s := Run(t, Start(rows), es);
    && s.rows == Replay(t, rows, s.log)
    && (forall i: nat :: i < |s.log| ==> Faithful(t, rows, s.log, i))
    && (forall id <- rows :: id in s.rows && t.version(s.rows[id]) == t.version(rows[id]) + Count(s.log, id))
    && (forall i: nat, j: nat :: i < j < |s.log| && SameRow(s.log[i], s.log[j]) ==>
          t.version(s.log[i].was) < t.version(s.log[j].was))
  }

  predicate SameRow<R, Q>(a: Entry<R, Q>, b: Entry<R, Q>) {
    a.Landed? && b.Landed? && a.id == b.id
  }

  lemma AlwaysSerialized<R(!new), Q(!new)>(t: Table<R, Q>, rows: map<string, R>, es: seq<Event<R, Q>>)
    requires BumpsVersion(t)
    ensures Serialized(t, rows, es)
  {
    var s := Run(t, Start(rows), es);
    Serializable(t, rows, es);
    forall id <- rows
      ensures id in s.rows && t.version(s.rows[id]) == t.version(rows[id]) + Count(s.log, id)
    {
      VersionCountsSuccesses(t, rows, s.log, id, 0, |s.log|);
      assert s.log[..|s.log|] == s.log;
    }
    forall i: nat, j: nat | i < j < |s.log| && SameRow(s.log[i], s.log[j])
      ensures t.version(s.log[i].was) < t.version(s.log[j].was)
    {
      OneWinnerPerVersion(t, rows, es, i, j);
    }
  }

  /** A row after requests handled one by one. */
  function Chain<R, Q>(t: Table<R, Q>, r: R, qs: seq<Q>): R {
    if qs == [] then r
    else
      var before := Chain(t, r, qs[..|qs| - 1]);
      if t.writes(qs[|qs| - 1], before) then t.updated(qs[|qs| - 1], before, before) else before
  }

  lemma ChainMore<R, Q>(t: Table<R, Q>, r: R, qs: seq<Q>, q: Q)
    ensures var before := Chain(t, r, qs);
            Chain(t, r, qs + [q]) == if t.writes(q, before) then t.updated(q, before, before) else before
  {
    assert (qs + [q])[..|qs|] == qs;
  }

  /** The events of handlers run one after another on a fresh row. */
  function Serially<R, Q>(id: string, r: R, qs: seq<Q>): seq<Event<R, Q>> {
    if qs == [] then [Insert(id, r)]
    else Serially(id, r, qs[..|qs| - 1]) + [Read(0, id, qs[|qs| - 1]), Commit(0)]
  }

  lemma {:induction false} SeriallyReaches<R(!new), Q(!new)>(t: Table<R, Q>, id: string, r: R, qs: seq<Q>)
    ensures var s := Run(t, Start(map[]), Serially(id, r, qs));
            id in s.rows && s.rows[id] == Chain(t, r, qs) && s.pending == map[]
    ensures forall e <- Serially(id, r, qs) :: e.Insert? ==> e.row == r
  {
    var none: seq<Event<R, Q>> := [];
    if qs == [] {
      var only: seq<Event<R, Q>> := [Insert(id, r)];
      assert only[..0] == none;
      assert Run(t, Start(map[]), none) == Start(map[]);
    } else {
      var init, q := Serially(id, r, qs[..|qs| - 1]), qs[|qs| - 1];
      SeriallyReaches(t, id, r, qs[..|qs| - 1]);
      var read: Event<R, Q> := Read(0, id, q);
      assert Serially(id, r, qs)[..|init| + 1] == init + [read];
      assert (init + [read])[..|init|] == init;
    }
  }
}
