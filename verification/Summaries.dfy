/** Job statistics: the group-by queries (server/internal/store/summary.go) and their re-accumulation by
timestamp, type and state (server/internal/server/summaries.go). */
module Summaries {
  import opened Common
  import NotebookStore
  import Jobs
  import Batches

  datatype JobType = FineTuning | Batch | Notebook

  /** The job_state column over the three tables, and `Created`, the extra key of the response. */
  datatype Label =
    | Succeeded | Failed | Canceled | Stopped | Running | Initializing | Deleted | Requeued | Queued
    | Created

  function OfNotebook(s: NotebookStore.State): (l: Label)
    ensures l != Created
  {
    match s
    case Queued => Queued
    case Initializing => Initializing
    case Running => Running
    case Stopped => Stopped
    case Failed => Failed
    case Deleted => Deleted
    case Requeued => Requeued
  }

  function OfJob(s: Jobs.State): (l: Label)
    ensures l != Created
  {
    match s
    case Queued => Queued
    case Running => Running
    case Failed => Failed
    case Succeeded => Succeeded
    case Canceled => Canceled
  }

  function OfBatch(s: Batches.State): (l: Label)
    ensures l != Created
  {
    match s
    case Queued => Queued
    case Running => Running
    case Succeeded => Succeeded
    case Failed => Failed
    case Canceled => Canceled
    case Deleted => Deleted
  }

  /** What the queries read of a row of a table with states `S`; times in nanoseconds. */
  datatype Record<S> =
    Record(state: S, projectId: string, tenantId: string, clusterId: string, created: nat, updatedAt: int)

  datatype Tables = Tables(
    jobs: seq<Record<Jobs.State>>, batches: seq<Record<Batches.State>>, notebooks: seq<Record<NotebookStore.State>>)

  /** A record with the name of its table and its state as a label. */
  datatype Row = Row(
      jobType: JobType, status: Label, projectId: string, tenantId: string, clusterId: string, created: nat,
      updatedAt: int)

  function RowsOf<S>(jobType: JobType, labelOf: S -> Label, records: seq<Record<S>>): seq<Row> {
    if records == [] then []
    else
      var r := records[|records| - 1];
      RowsOf(jobType, labelOf, records[..|records| - 1])
        + [Row(jobType, labelOf(r.state), r.projectId, r.tenantId, r.clusterId, r.created, r.updatedAt)]
  }

  /** The rows of all three tables. */
  function AllRows(t: Tables): seq<Row> {
    RowsOf(FineTuning, OfJob, t.jobs) + RowsOf(Batch, OfBatch, t.batches) + RowsOf(Notebook, OfNotebook, t.notebooks)
  }

  type Interval = i: int | 0 < i witness 1

  function Bucket(created: nat, interval: Interval): nat {
    created / interval * interval
  }

  /** The columns of the GROUP BY; the tenant is fixed by the query. */
  datatype Key = Key(status: Label, projectId: string, clusterId: string, timestamp: nat)

  function KeyOf(r: Row, interval: Interval): Key {
    Key(r.status, r.projectId, r.clusterId, Bucket(r.created, interval))
  }

  /** Rows are in one group exactly if state, project, cluster and bucket agree. */
  lemma SameGroup(a: Row, b: Row, interval: Interval)
    ensures KeyOf(a, interval) == KeyOf(b, interval) <==>
            && a.status == b.status && a.projectId == b.projectId && a.clusterId == b.clusterId
            && Bucket(a.created, interval) == Bucket(b.created, interval)
  {
  }

  datatype Summary = Summary(jobType: JobType, key: Key, count: nat)

  /** The query's WHERE clause. */
  function Matching(rows: seq<Row>, jobType: JobType, tenantId: string, start: int, end: int): seq<Row> {
    if rows == [] then []
    else
      var rest := Matching(rows[..|rows| - 1], jobType, tenantId, start, end);
      var r := rows[|rows| - 1];
      if r.jobType == jobType && r.tenantId == tenantId && start <= r.updatedAt < end then rest + [r] else rest
  }

  function CountIn(rows: seq<Row>, interval: Interval, keys: set<Key>): nat {
    if rows == [] then 0
    else CountIn(rows[..|rows| - 1], interval, keys) + (if KeyOf(rows[|rows| - 1], interval) in keys then 1 else 0)
  }

  /** A result of the query over the matching rows: one line per group that occurs, in any order. */
  ghost predicate IsGroupBy(rows: seq<Row>, jobType: JobType, interval: Interval, sums: seq<Summary>) {
    && (forall s <- sums :: s.jobType == jobType && s.count == CountIn(rows, interval, {s.key}) > 0)
    && (forall i, j :: 0 <= i < j < |sums| ==> sums[i].key != sums[j].key)
    && (forall r <- rows :: exists i :: 0 <= i < |sums| && sums[i].key == KeyOf(r, interval))
  }

  // Direct counting.

  function CountDirect(rows: seq<Row>, interval: Interval, status: Label, timestamp: nat): nat {
    if rows == [] then 0
    else
      var r := rows[|rows| - 1];
      CountDirect(rows[..|rows| - 1], interval, status, timestamp)
        + (if r.status == status && Bucket(r.created, interval) == timestamp then 1 else 0)
  }

  function CountBucket(rows: seq<Row>, interval: Interval, timestamp: nat): nat {
    if rows == [] then 0
    else CountBucket(rows[..|rows| - 1], interval, timestamp)
           + (if Bucket(rows[|rows| - 1].created, interval) == timestamp then 1 else 0)
  }

  function SumOf(sums: seq<Summary>, jobType: JobType, status: Label, timestamp: nat): nat {
    if sums == [] then 0
    else
      var s := sums[|sums| - 1];
      SumOf(sums[..|sums| - 1], jobType, status, timestamp)
        + (if s.jobType == jobType && s.key.status == status && s.key.timestamp == timestamp then s.count else 0)
  }

  lemma {:induction false} CountInUnion(rows: seq<Row>, interval: Interval, keys: set<Key>, k: Key)
    requires k !in keys
    ensures CountIn(rows, interval, keys + {k}) == CountIn(rows, interval, keys) + CountIn(rows, interval, {k})
  {
    if rows != [] {
      CountInUnion(rows[..|rows| - 1], interval, keys, k);
    }
  }

  lemma {:induction false} CountInNone(rows: seq<Row>, interval: Interval)
    ensures CountIn(rows, interval, {}) == 0
  {
    if rows != [] {
      CountInNone(rows[..|rows| - 1], interval);
    }
  }

  predicate IsAt(k: Key, status: Label, timestamp: nat) {
    k.status == status && k.timestamp == timestamp
  }

  /** The group keys with a given state and bucket. */
  function KeysOf(sums: seq<Summary>, status: Label, timestamp: nat): set<Key> {
    if sums == [] then {}
    else KeysOf(sums[..|sums| - 1], status, timestamp)
           + (if IsAt(sums[|sums| - 1].key, status, timestamp) then {sums[|sums| - 1].key} else {})
  }

  lemma {:induction false} KeysOfExactly(sums: seq<Summary>, status: Label, timestamp: nat, k: Key)
    ensures k in KeysOf(sums, status, timestamp) <==>
        IsAt(k, status, timestamp) && exists i :: 0 <= i < |sums| && sums[i].key == k
  {
    if sums != [] {
      var init := sums[..|sums| - 1];
      KeysOfExactly(init, status, timestamp, k);
      if exists i :: 0 <= i < |sums| && sums[i].key == k {
        var i :| 0 <= i < |sums| && sums[i].key == k;
        assert i < |init| ==> init[i].key == k;
      }
    }
  }

  lemma {:induction false} SumCountsKeys(
      rows: seq<Row>, jobType: JobType, interval: Interval, sums: seq<Summary>, status: Label, timestamp: nat)
    requires forall s <- sums :: s.jobType == jobType && s.count == CountIn(rows, interval, {s.key})
    requires forall i, j :: 0 <= i < j < |sums| ==> sums[i].key != sums[j].key
    ensures SumOf(sums, jobType, status, timestamp) == CountIn(rows, interval, KeysOf(sums, status, timestamp))
  {
    if sums == [] {
      CountInNone(rows, interval);
    } else {
      var init, s := sums[..|sums| - 1], sums[|sums| - 1];
      assert forall x <- init :: x in sums;
      SumCountsKeys(rows, jobType, interval, init, status, timestamp);
      assert s in sums;
      KeysOfExactly(init, status, timestamp, s.key);
      if IsAt(s.key, status, timestamp) {
        CountInUnion(rows, interval, KeysOf(init, status, timestamp), s.key);
      } else {
        assert KeysOf(sums, status, timestamp) == KeysOf(init, status, timestamp);
      }
    }
  }

  lemma {:induction false} KeysCoverRows(
      rows: seq<Row>, interval: Interval, keys: set<Key>, status: Label, timestamp: nat)
    requires forall k <- keys :: k.status == status && k.timestamp == timestamp
    requires forall r <- rows :: r.status == status && Bucket(r.created, interval) == timestamp ==>
        KeyOf(r, interval) in keys
    ensures CountIn(rows, interval, keys) == CountDirect(rows, interval, status, timestamp)
  {
    if rows != [] {
      var init := rows[..|rows| - 1];
      assert forall r <- init :: r in rows;
      assert rows[|rows| - 1] in rows;
      KeysCoverRows(init, interval, keys, status, timestamp);
    }
  }

  /** Summing the lines of a group-by gives the direct count: every matching row is counted exactly once. */
  lemma GroupByCounts(
      rows: seq<Row>, jobType: JobType, interval: Interval, sums: seq<Summary>, status: Label, timestamp: nat)
    requires IsGroupBy(rows, jobType, interval, sums)
    ensures SumOf(sums, jobType, status, timestamp) == CountDirect(rows, interval, status, timestamp)
  {
    SumCountsKeys(rows, jobType, interval, sums, status, timestamp);
    forall r <- rows | r.status == status && Bucket(r.created, interval) == timestamp
      ensures KeyOf(r, interval) in KeysOf(sums, status, timestamp)
    {
      KeysOfExactly(sums, status, timestamp, KeyOf(r, interval));
    }
    forall k <- KeysOf(sums, status, timestamp)
      ensures IsAt(k, status, timestamp)
    {
      KeysOfExactly(sums, status, timestamp, k);
    }
    KeysCoverRows(rows, interval, KeysOf(sums, status, timestamp), status, timestamp);
  }

  lemma {:induction false} SumOfOther(sums: seq<Summary>, jobType: JobType, status: Label, timestamp: nat)
    requires forall s <- sums :: s.jobType != jobType
    ensures SumOf(sums, jobType, status, timestamp) == 0
  {
    if sums != [] {
      assert forall x <- sums[..|sums| - 1] :: x in sums;
      assert sums[|sums| - 1] in sums;
      SumOfOther(sums[..|sums| - 1], jobType, status, timestamp);
    }
  }

  lemma {:induction false} SumOfConcat(
      a: seq<Summary>, b: seq<Summary>, jobType: JobType, status: Label, timestamp: nat)
    ensures SumOf(a + b, jobType, status, timestamp) ==
        SumOf(a, jobType, status, timestamp) + SumOf(b, jobType, status, timestamp)
  {
    if b == [] {
      assert a + b == a;
    } else {
      SumOfConcat(a, b[..|b| - 1], jobType, status, timestamp);
      assert (a + b)[..|a + b| - 1] == a + b[..|b| - 1];
    }
  }

  // Re-accumulation by timestamp, type and state.

  type States = map<Label, int>
  type ByTime = map<nat, map<JobType, States>>

  function At(states: States, l: Label): int {
    if l in states then states[l] else 0
  }

  function StatesAt(m: ByTime, timestamp: nat, jobType: JobType): States {
    if timestamp in m && jobType in m[timestamp] then m[timestamp][jobType] else map[]
  }

  function SumAll(sums: seq<Summary>, jobType: JobType, timestamp: nat): nat {
    if sums == [] then 0
    else
      var s := sums[|sums| - 1];
      SumAll(sums[..|sums| - 1], jobType, timestamp)
        + (if s.jobType == jobType && s.key.timestamp == timestamp then s.count else 0)
  }

  predicate IsFor(s: Summary, timestamp: nat, jobType: JobType) {
    s.key.timestamp == timestamp && s.jobType == jobType
  }

  /** An entry exists for the types and buckets that occur. */
  ghost predicate Present(m: ByTime, sums: seq<Summary>, timestamp: nat, jobType: JobType) {
    timestamp in m && jobType in m[timestamp] <==> exists i :: 0 <= i < |sums| && IsFor(sums[i], timestamp, jobType)
  }

  /** The accumulated count of a type, bucket and label is the sum over the lines read so far; `Created` counts
      the lines whose bucket starts within the range. */
  predicate Tallied(m: ByTime, sums: seq<Summary>, start: int, end: int, timestamp: nat, jobType: JobType, l: Label) {
    At(StatesAt(m, timestamp, jobType), l) ==
    if l != Created then SumOf(sums, jobType, l, timestamp)
    else if start <= timestamp < end then SumAll(sums, jobType, timestamp) else 0
  }

  function Bumped(states: States, l: Label, n: int): States {
    states[l := At(states, l) + n]
  }

  /** One line added. */
  function Added(m: ByTime, s: Summary, start: int, end: int): ByTime {
    var states := Bumped(StatesAt(m, s.key.timestamp, s.jobType), s.key.status, s.count);
    var states := if start <= s.key.timestamp < end then Bumped(states, Created, s.count) else states;
    var types := if s.key.timestamp in m then m[s.key.timestamp] else map[];
    m[s.key.timestamp := types[s.jobType := states]]
  }

  lemma AddedPresent(m: ByTime, sums: seq<Summary>, s: Summary, start: int, end: int, timestamp: nat, jobType: JobType)
    requires Present(m, sums, timestamp, jobType)
    ensures Present(Added(m, s, start, end), sums + [s], timestamp, jobType)
  {
    var sums' := sums + [s];
    if i :| 0 <= i < |sums| && IsFor(sums[i], timestamp, jobType) {
      assert IsFor(sums'[i], timestamp, jobType);
    }
    if IsFor(s, timestamp, jobType) {
      assert IsFor(sums'[|sums|], timestamp, jobType);
    }
  }

  /** What a line adds to the count of a type, bucket and label. */
  function Adds(s: Summary, start: int, end: int, timestamp: nat, jobType: JobType, l: Label): int {
    if IsFor(s, timestamp, jobType) && (l == s.key.status || (l == Created && start <= timestamp < end))
    then s.count else 0
  }

  lemma AddedAt(m: ByTime, s: Summary, start: int, end: int, timestamp: nat, jobType: JobType, l: Label)
    requires s.key.status != Created
    ensures At(StatesAt(Added(m, s, start, end), timestamp, jobType), l)
         == At(StatesAt(m, timestamp, jobType), l) + Adds(s, start, end, timestamp, jobType, l)
  {
    if !IsFor(s, timestamp, jobType) {
      assert StatesAt(Added(m, s, start, end), timestamp, jobType) == StatesAt(m, timestamp, jobType);
    }
  }

  lemma SumsNext(sums: seq<Summary>, s: Summary, jobType: JobType, l: Label, timestamp: nat)
    ensures SumOf(sums + [s], jobType, l, timestamp)
         == SumOf(sums, jobType, l, timestamp) + if IsFor(s, timestamp, jobType) && s.key.status == l
             then s.count else 0
    ensures SumAll(sums + [s], jobType, timestamp)
         == SumAll(sums, jobType, timestamp) + if IsFor(s, timestamp, jobType) then s.count else 0
  {
    assert (sums + [s])[..|sums|] == sums;
  }

  lemma AddedTallies(
      m: ByTime, sums: seq<Summary>, s: Summary, start: int, end: int, timestamp: nat, jobType: JobType, l: Label)
    requires s.key.status != Created && Tallied(m, sums, start, end, timestamp, jobType, l)
    ensures Tallied(Added(m, s, start, end), sums + [s], start, end, timestamp, jobType, l)
  {
    AddedAt(m, s, start, end, timestamp, jobType, l);
    SumsNext(sums, s, jobType, l, timestamp);
  }

  method Accumulate(sums: seq<Summary>, start: int, end: int) returns (m: ByTime)
    requires forall s <- sums :: s.key.status != Created
    ensures forall ts, jt :: Present(m, sums, ts, jt)
    ensures forall ts, jt, l :: Tallied(m, sums, start, end, ts, jt, l)
  {
    m := map[];
    var i := 0;
    while i < |sums|
      invariant 0 <= i <= |sums|
      invariant forall ts, jt :: Present(m, sums[..i], ts, jt)
      invariant forall ts, jt, l :: Tallied(m, sums[..i], start, end, ts, jt, l)
    {
      ghost var upTo := sums[..i + 1];
      assert upTo == sums[..i] + [sums[i]];
      ghost var before := m;
      m := AddLine(m, sums[i], start, end);
      forall ts, jt
        ensures Present(m, upTo, ts, jt)
      {
        AddedPresent(before, sums[..i], sums[i], start, end, ts, jt);
      }
      forall ts, jt, l
        ensures Tallied(m, upTo, start, end, ts, jt, l)
      {
        AddedTallies(before, sums[..i], sums[i], start, end, ts, jt, l);
      }
      i := i + 1;
    }
    assert sums[..i] == sums;
  }

  /** The body of the accumulating loop. */
  method AddLine(before: ByTime, s: Summary, start: int, end: int) returns (m: ByTime)
    ensures m == Added(before, s, start, end)
  {
    m := before;
    var ts, jt := s.key.timestamp, s.jobType;
    if ts !in m {
      m := m[ts := map[]];
    }
    if jt !in m[ts] {
      m := m[ts := m[ts][jt := map[]]];
    }
    var states := m[ts][jt];
    assert states == StatesAt(before, ts, jt);
    states := states[s.key.status := At(states, s.key.status) + s.count];
    if start <= ts < end {
      states := states[Created := At(states, Created) + s.count];
    }
    ghost var types := if ts in before then before[ts] else map[];
    m := m[ts := m[ts][jt := states]];
    assert m[ts] == types[jt := states];
    assert m == before[ts := types[jt := states]];
  }

  // Response values.

  datatype Value = Value(
    jobType: JobType, completed: int, failed: int, cancelled: int, stopped: int, running: int,
    deleted: int, queued: int, created: int, unfinished: int)

  /** The response value of given counts per label: initializing counts as running, requeued as queued. */
  function ValueOf(jobType: JobType, states: States): Value {
    var running := At(states, Running) + At(states, Initializing);
    var queued := At(states, Queued) + At(states, Requeued);
    Value(jobType, At(states, Succeeded), At(states, Failed), At(states, Canceled), At(states, Stopped), running,
          At(states, Deleted), queued, At(states, Created), queued + running)
  }

  /** The counts of the labels seen so far; `unfinished` comes last. */
  predicate IsPartial(v: Value, jobType: JobType, seen: States) {
    v == ValueOf(jobType, seen).(unfinished := 0)
  }

  /** The keys of a map in some order, as a Go range loop visits them. */
  method Order<T(==)>(keys: set<T>) returns (o: seq<T>)
    ensures forall x :: x in o <==> x in keys
    ensures forall i, j :: 0 <= i < j < |o| ==> o[i] != o[j]
  {
    o := [];
    var todo := keys;
    while todo != {}
      invariant todo <= keys
      invariant forall x :: x in keys <==> x in todo || x in o
      invariant forall x :: x in todo ==> x !in o
      invariant forall i, j :: 0 <= i < j < |o| ==> o[i] != o[j]
      decreases todo
    {
      var x :| x in todo;
      o, todo := o + [x], todo - {x};
    }
  }

  function Pick<T(!new)>(m: map<T, int>, o: seq<T>): (r: map<T, int>)
    requires forall x :: x in o ==> x in m
    ensures forall x :: x in r <==> x in o
    ensures forall x :: x in r ==> r[x] == m[x]
  {
    if o == [] then map[] else Pick(m, o[..|o| - 1])[o[|o| - 1] := m[o[|o| - 1]]]
  }

  /** The switch on the state. */
  function Counted(v: Value, l: Label, count: int): Value {
    match l
    case Succeeded => v.(completed := v.completed + count)
    case Failed => v.(failed := v.failed + count)
    case Canceled => v.(cancelled := v.cancelled + count)
    case Stopped => v.(stopped := v.stopped + count)
    case Running => v.(running := v.running + count)
    case Initializing => v.(running := v.running + count)
    case Deleted => v.(deleted := v.deleted + count)
    case Requeued => v.(queued := v.queued + count)
    case Queued => v.(queued := v.queued + count)
    case Created => v.(created := v.created + count)
  }

  function Folded(jobType: JobType, states: States, o: seq<Label>): Value
    requires forall x :: x in o ==> x in states
  {
    if o == [] then Value(jobType, 0, 0, 0, 0, 0, 0, 0, 0, 0)
    else Counted(Folded(jobType, states, o[..|o| - 1]), o[|o| - 1], states[o[|o| - 1]])
  }

  lemma CountedIsPartial(jobType: JobType, v: Value, l: Label, count: int, seen: States)
    requires IsPartial(v, jobType, seen) && l !in seen
    ensures IsPartial(Counted(v, l, count), jobType, seen[l := count])
  {
  }

  /** The order of the walk does not matter. */
  lemma {:induction false} FoldedIsPartial(jobType: JobType, states: States, o: seq<Label>)
    requires (forall x :: x in o ==> x in states) && (forall i, j :: 0 <= i < j < |o| ==> o[i] != o[j])
    ensures IsPartial(Folded(jobType, states, o), jobType, Pick(states, o))
  {
    if o != [] {
      var init, l := o[..|o| - 1], o[|o| - 1];
      FoldedIsPartial(jobType, states, init);
      CountedIsPartial(jobType, Folded(jobType, states, init), l, states[l], Pick(states, init));
    }
  }

  /** Walks the states in any order. */
  method Totals(jobType: JobType, states: States) returns (v: Value)
    ensures v == ValueOf(jobType, states)
  {
    v := Value(jobType, 0, 0, 0, 0, 0, 0, 0, 0, 0);
    var o := Order(states.Keys);
    var i := 0;
    while i < |o|
      invariant 0 <= i <= |o|
      invariant v == Folded(jobType, states, o[..i])
    {
      assert o[..i + 1][..i] == o[..i];
      v := Counted(v, o[i], states[o[i]]);
      i := i + 1;
    }
    assert o[..i] == o;
    FoldedIsPartial(jobType, states, o);
    PickAll(states, o);
    v := v.(unfinished := v.queued + v.running);
  }

  lemma PickAll<T(!new)>(m: map<T, int>, o: seq<T>)
    requires forall x :: x in o <==> x in m
    ensures Pick(m, o) == m
  {
  }

  datatype Datapoint = Datapoint(timestamp: nat, values: seq<Value>)

  predicate Has(values: seq<Value>, jobType: JobType) {
    exists i :: 0 <= i < |values| && values[i].jobType == jobType
  }

  /** The values of one timestamp: one per type that occurs, in any order. */
  ghost predicate ValuesOf(types: map<JobType, States>, values: seq<Value>) {
    && (forall i, j :: 0 <= i < j < |values| ==> values[i].jobType != values[j].jobType)
    && (forall v <- values :: v.jobType in types && v == ValueOf(v.jobType, types[v.jobType]))
    && (forall jt <- types :: Has(values, jt))
  }

  method Values(types: map<JobType, States>) returns (values: seq<Value>)
    ensures ValuesOf(types, values)
  {
    values := [];
    var todo := types.Keys;
    while todo != {}
      invariant todo <= types.Keys
      invariant ValuesOf(map jt | jt in types && jt !in todo :: types[jt], values)
      decreases todo
    {
      var jt :| jt in todo;
      var v := Totals(jt, types[jt]);
      ghost var done := map t | t in types && t !in todo :: types[t];
      ghost var before := values;
      values := values + [v];
      todo := todo - {jt};
      forall t <- done + map[jt := types[jt]]
        ensures Has(values, t)
      {
        if t == jt {
          assert values[|before|].jobType == t;
        } else {
          assert Has(before, t);
          var i :| 0 <= i < |before| && before[i].jobType == t;
          assert values[i].jobType == t;
        }
      }
      assert forall w <- values :: w in before || w == v;
    }
    assert types == map jt | jt in types && jt !in todo :: types[jt];
  }

  predicate Increasing(dps: seq<Datapoint>) {
    forall i, j :: 0 <= i < j < |dps| ==> dps[i].timestamp < dps[j].timestamp
  }

  predicate HasTime(dps: seq<Datapoint>, timestamp: nat) {
    exists i :: 0 <= i < |dps| && dps[i].timestamp == timestamp
  }

  method Least(s: set<nat>) returns (x: nat)
    requires s != {}
    ensures x in s && forall y <- s :: x <= y
  {
    x :| x in s;
    var rest := s - {x};
    while rest != {}
      invariant x in s && rest <= s && forall y <- s :: y in rest || x <= y
      decreases rest
    {
      var y :| y in rest;
      rest := rest - {y};
      if y < x { x := y; }
    }
  }

  ghost predicate DatapointOk(m: ByTime, dp: Datapoint) {
    dp.timestamp in m && ValuesOf(m[dp.timestamp], dp.values)
  }

  /** The datapoints of the accumulated counts, in order of time. */
  method Datapoints(m: ByTime) returns (dps: seq<Datapoint>)
    ensures Increasing(dps)
    ensures forall i :: 0 <= i < |dps| ==> DatapointOk(m, dps[i])
    ensures forall ts <- m :: HasTime(dps, ts)
  {
    dps := [];
    var todo := m.Keys;
    while todo != {}
      invariant todo <= m.Keys && Increasing(dps)
      invariant forall i :: 0 <= i < |dps| ==> DatapointOk(m, dps[i])
      invariant forall i, ts :: 0 <= i < |dps| && ts in todo ==> dps[i].timestamp < ts
      invariant forall ts <- m :: ts in todo || HasTime(dps, ts)
      decreases todo
    {
      var ts := Least(todo);
      var values := Values(m[ts]);
      assert DatapointOk(m, Datapoint(ts, values));
      ghost var before := dps;
      dps := dps + [Datapoint(ts, values)];
      todo := todo - {ts};
      forall t <- m | t !in todo
        ensures HasTime(dps, t)
      {
        if t == ts {
          assert dps[|before|].timestamp == t;
        } else {
          assert HasTime(before, t);
          var i :| 0 <= i < |before| && before[i].timestamp == t;
          assert dps[i].timestamp == t;
        }
      }
    }
  }

  // The whole: two-level aggregation against direct counting.

  datatype Query = Query(tenantId: string, start: int, end: int, interval: Interval)

  function Rows(rows: seq<Row>, q: Query, jobType: JobType): seq<Row> {
    Matching(rows, jobType, q.tenantId, q.start, q.end)
  }

  /** A response value counted directly from the table. */
  function Direct(rows: seq<Row>, q: Query, jobType: JobType, timestamp: nat): Value {
    var rs := Rows(rows, q, jobType);
    var running := CountDirect(rs, q.interval, Running, timestamp)
        + CountDirect(rs, q.interval, Initializing, timestamp);
    var queued := CountDirect(rs, q.interval, Queued, timestamp) + CountDirect(rs, q.interval, Requeued, timestamp);
    Value(jobType, CountDirect(rs, q.interval, Succeeded, timestamp), CountDirect(rs, q.interval, Failed, timestamp),
          CountDirect(rs, q.interval, Canceled, timestamp), CountDirect(rs, q.interval, Stopped, timestamp), running,
          CountDirect(rs, q.interval, Deleted, timestamp), queued,
          if q.start <= timestamp < q.end then CountBucket(rs, q.interval, timestamp) else 0,
          queued + running)
  }

  /** The rows of all states but `Created`. */
  predicate Real(rows: seq<Row>) {
    forall r <- rows :: r.status != Created
  }

  lemma {:induction false} RowsOfReal<S>(jobType: JobType, labelOf: S -> Label, records: seq<Record<S>>)
    requires forall s :: labelOf(s) != Created
    ensures Real(RowsOf(jobType, labelOf, records))
  {
    if records != [] {
      RowsOfReal(jobType, labelOf, records[..|records| - 1]);
    }
  }

  /** Every state of every table has its label. */
  lemma AllReal(t: Tables)
    ensures Real(AllRows(t))
  {
    RowsOfReal(FineTuning, OfJob, t.jobs);
    RowsOfReal(Batch, OfBatch, t.batches);
    RowsOfReal(Notebook, OfNotebook, t.notebooks);
  }

  lemma {:induction false} MatchingReal(rows: seq<Row>, q: Query, jobType: JobType)
    requires Real(rows)
    ensures Real(Rows(rows, q, jobType))
  {
    if rows != [] {
      assert forall r <- rows[..|rows| - 1] :: r in rows;
      MatchingReal(rows[..|rows| - 1], q, jobType);
      assert rows[|rows| - 1] in rows;
    }
  }

  /** Every row of a bucket is counted under exactly one of the nine states. */
  lemma {:induction false} BucketSplits(rows: seq<Row>, interval: Interval, ts: nat)
    requires Real(rows)
    ensures CountBucket(rows, interval, ts) ==
            CountDirect(rows, interval, Succeeded, ts) + CountDirect(rows, interval, Failed, ts)
                + CountDirect(rows, interval, Canceled, ts)
            + CountDirect(rows, interval, Stopped, ts) + CountDirect(rows, interval, Running, ts)
                + CountDirect(rows, interval, Initializing, ts)
            + CountDirect(rows, interval, Deleted, ts) + CountDirect(rows, interval, Requeued, ts)
                + CountDirect(rows, interval, Queued, ts)
  {
    if rows != [] {
      assert forall r <- rows[..|rows| - 1] :: r in rows;
      assert rows[|rows| - 1] in rows;
      BucketSplits(rows[..|rows| - 1], interval, ts);
    }
  }

  /** What a line contributes to one state. */
  function Share(s: Summary, jt: JobType, l: Label, ts: nat): nat {
    if IsFor(s, ts, jt) && s.key.status == l then s.count else 0
  }

  lemma SharesSplit(s: Summary, jt: JobType, ts: nat)
    requires s.key.status != Created
    ensures (if IsFor(s, ts, jt) then s.count else 0) ==
            Share(s, jt, Succeeded, ts) + Share(s, jt, Failed, ts) + Share(s, jt, Canceled, ts)
            + Share(s, jt, Stopped, ts) + Share(s, jt, Running, ts) + Share(s, jt, Initializing, ts)
            + Share(s, jt, Deleted, ts) + Share(s, jt, Requeued, ts) + Share(s, jt, Queued, ts)
  {
  }

  lemma SumGrows(sums: seq<Summary>, jt: JobType, l: Label, ts: nat)
    requires sums != []
    ensures SumOf(sums, jt, l, ts) == SumOf(sums[..|sums| - 1], jt, l, ts) + Share(sums[|sums| - 1], jt, l, ts)
  {
  }

  lemma {:induction false} SumAllSplits(sums: seq<Summary>, jt: JobType, ts: nat)
    requires forall s <- sums :: s.key.status != Created
    ensures SumAll(sums, jt, ts) ==
            SumOf(sums, jt, Succeeded, ts) + SumOf(sums, jt, Failed, ts) + SumOf(sums, jt, Canceled, ts)
            + SumOf(sums, jt, Stopped, ts) + SumOf(sums, jt, Running, ts) + SumOf(sums, jt, Initializing, ts)
            + SumOf(sums, jt, Deleted, ts) + SumOf(sums, jt, Requeued, ts) + SumOf(sums, jt, Queued, ts)
  {
    if sums != [] {
      var init, s := sums[..|sums| - 1], sums[|sums| - 1];
      assert forall x <- init :: x in sums;
      assert s in sums;
      SumAllSplits(init, jt, ts);
      SharesSplit(s, jt, ts);
      forall l
        ensures SumOf(sums, jt, l, ts) == SumOf(init, jt, l, ts) + Share(s, jt, l, ts)
      {
        SumGrows(sums, jt, l, ts);
      }
    }
  }

  lemma {:induction false} GroupHasRow(rows: seq<Row>, interval: Interval, k: Key)
    requires CountIn(rows, interval, {k}) > 0
    ensures exists r :: r in rows && KeyOf(r, interval) == k
  {
    if KeyOf(rows[|rows| - 1], interval) == k {
      assert rows[|rows| - 1] in rows;
    } else {
      GroupHasRow(rows[..|rows| - 1], interval, k);
      var r :| r in rows[..|rows| - 1] && KeyOf(r, interval) == k;
      assert r in rows;
    }
  }

  lemma GroupsReal(rows: seq<Row>, jobType: JobType, interval: Interval, sums: seq<Summary>)
    requires Real(rows) && IsGroupBy(rows, jobType, interval, sums)
    ensures forall s <- sums :: s.key.status != Created
  {
    forall s <- sums
      ensures s.key.status != Created
    {
      GroupHasRow(rows, interval, s.key);
    }
  }

  /** The three query results, as the store answers them. */
  ghost predicate Answers(rows: seq<Row>, q: Query, ft: seq<Summary>, batch: seq<Summary>, nb: seq<Summary>) {
    && IsGroupBy(Rows(rows, q, FineTuning), FineTuning, q.interval, ft)
    && IsGroupBy(Rows(rows, q, Batch), Batch, q.interval, batch)
    && IsGroupBy(Rows(rows, q, Notebook), Notebook, q.interval, nb)
  }

  lemma OneTableSums(
      rows: seq<Row>, table: JobType, interval: Interval, sums: seq<Summary>, jt: JobType, l: Label, ts: nat)
    requires IsGroupBy(rows, table, interval, sums)
    ensures SumOf(sums, jt, l, ts) == if jt == table then CountDirect(rows, interval, l, ts) else 0
  {
    if jt == table {
      GroupByCounts(rows, table, interval, sums, l, ts);
    } else {
      SumOfOther(sums, jt, l, ts);
    }
  }

  lemma SumsAreDirect(
      rows: seq<Row>, q: Query, ft: seq<Summary>, batch: seq<Summary>, nb: seq<Summary>, jt: JobType, l: Label, ts: nat)
    requires Answers(rows, q, ft, batch, nb)
    ensures SumOf(ft + batch + nb, jt, l, ts) == CountDirect(Rows(rows, q, jt), q.interval, l, ts)
  {
    SumOfConcat(ft + batch, nb, jt, l, ts);
    SumOfConcat(ft, batch, jt, l, ts);
    OneTableSums(Rows(rows, q, FineTuning), FineTuning, q.interval, ft, jt, l, ts);
    OneTableSums(Rows(rows, q, Batch), Batch, q.interval, batch, jt, l, ts);
    OneTableSums(Rows(rows, q, Notebook), Notebook, q.interval, nb, jt, l, ts);
  }

  lemma AllSumsAreDirect(
      rows: seq<Row>, q: Query, ft: seq<Summary>, batch: seq<Summary>, nb: seq<Summary>, jt: JobType, ts: nat)
    requires Answers(rows, q, ft, batch, nb) && Real(rows)
    requires forall s <- ft + batch + nb :: s.key.status != Created
    ensures forall l :: SumOf(ft + batch + nb, jt, l, ts) == CountDirect(Rows(rows, q, jt), q.interval, l, ts)
    ensures SumAll(ft + batch + nb, jt, ts) == CountBucket(Rows(rows, q, jt), q.interval, ts)
  {
    forall l
      ensures SumOf(ft + batch + nb, jt, l, ts) == CountDirect(Rows(rows, q, jt), q.interval, l, ts)
    {
      SumsAreDirect(rows, q, ft, batch, nb, jt, l, ts);
    }
    SumAllSplits(ft + batch + nb, jt, ts);
    MatchingReal(rows, q, jt);
    BucketSplits(Rows(rows, q, jt), q.interval, ts);
  }

  lemma ValueIsDirect(m: ByTime, rows: seq<Row>, q: Query, sums: seq<Summary>, jt: JobType, ts: nat)
    requires forall l :: Tallied(m, sums, q.start, q.end, ts, jt, l)
    requires forall l :: SumOf(sums, jt, l, ts) == CountDirect(Rows(rows, q, jt), q.interval, l, ts)
    requires SumAll(sums, jt, ts) == CountBucket(Rows(rows, q, jt), q.interval, ts)
    ensures ValueOf(jt, StatesAt(m, ts, jt)) == Direct(rows, q, jt, ts)
  {
    forall l
      ensures At(StatesAt(m, ts, jt), l) ==
              if l != Created then CountDirect(Rows(rows, q, jt), q.interval, l, ts)
              else if q.start <= ts < q.end then CountBucket(Rows(rows, q, jt), q.interval, ts) else 0
    {
      assert Tallied(m, sums, q.start, q.end, ts, jt, l);
    }
  }

  /** The response shows this row's type at this row's bucket. */
  ghost predicate Covers(dps: seq<Datapoint>, r: Row, q: Query, jt: JobType) {
    exists i :: 0 <= i < |dps| && dps[i].timestamp == Bucket(r.created, q.interval) && Has(dps[i].values, jt)
  }

  /** All values of a datapoint equal the direct counts, and no type appears twice. */
  ghost predicate Exact(dp: Datapoint, rows: seq<Row>, q: Query) {
    && (forall v <- dp.values :: v == Direct(rows, q, v.jobType, dp.timestamp))
    && (forall i, j :: 0 <= i < j < |dp.values| ==> dp.values[i].jobType != dp.values[j].jobType)
  }

  lemma DatapointIsExact(
      m: ByTime, dp: Datapoint, rows: seq<Row>, q: Query, ft: seq<Summary>, batch: seq<Summary>, nb: seq<Summary>)
    requires Answers(rows, q, ft, batch, nb) && Real(rows) && DatapointOk(m, dp)
    requires forall s <- ft + batch + nb :: s.key.status != Created
    requires forall ts, jt, l :: Tallied(m, ft + batch + nb, q.start, q.end, ts, jt, l)
    ensures Exact(dp, rows, q)
  {
    forall v <- dp.values
      ensures v == Direct(rows, q, v.jobType, dp.timestamp)
    {
      AllSumsAreDirect(rows, q, ft, batch, nb, v.jobType, dp.timestamp);
      ValueIsDirect(m, rows, q, ft + batch + nb, v.jobType, dp.timestamp);
    }
  }

  lemma RowIsCovered(
      m: ByTime, dps: seq<Datapoint>, rows: seq<Row>, q: Query, ft: seq<Summary>, batch: seq<Summary>,
      nb: seq<Summary>, jt: JobType, r: Row)
    requires Answers(rows, q, ft, batch, nb) && r in Rows(rows, q, jt)
    requires Present(m, ft + batch + nb, Bucket(r.created, q.interval), jt)
    requires (forall ts <- m :: HasTime(dps, ts)) && (forall i :: 0 <= i < |dps| ==> DatapointOk(m, dps[i]))
    ensures Covers(dps, r, q, jt)
  {
    var sums := match jt case FineTuning => ft case Batch => batch case Notebook => nb;
    var offset := match jt case FineTuning => 0 case Batch => |ft| case Notebook => |ft| + |batch|;
    var all, ts := ft + batch + nb, Bucket(r.created, q.interval);
    var i :| 0 <= i < |sums| && sums[i].key == KeyOf(r, q.interval);
    assert sums[i] in sums;
    assert all[offset + i] == sums[i];
    assert IsFor(all[offset + i], ts, jt);
    assert HasTime(dps, ts);
    var k :| 0 <= k < |dps| && dps[k].timestamp == ts;
    assert DatapointOk(m, dps[k]);
    assert Has(dps[k].values, jt);
  }

  /** Two-level aggregation refines direct counting. Given any answers of the three group-by queries, the response
      has strictly increasing timestamps, every value equals the count taken directly from the matching rows, no
      type appears twice at a timestamp, and every matching row is shown. */
  method GetSummariesByTimeRange(ghost t: Tables, q: Query, ft: seq<Summary>, batch: seq<Summary>, nb: seq<Summary>)
    returns (dps: seq<Datapoint>)
    requires Answers(AllRows(t), q, ft, batch, nb)
    ensures Increasing(dps)
    ensures forall i :: 0 <= i < |dps| ==> Exact(dps[i], AllRows(t), q)
    ensures forall jt, r :: r in Rows(AllRows(t), q, jt) ==> Covers(dps, r, q, jt)
  {
    ghost var rows := AllRows(t);
    AllReal(t);
    var sums := ft + batch + nb;
    MatchingReal(rows, q, FineTuning);
    MatchingReal(rows, q, Batch);
    MatchingReal(rows, q, Notebook);
    GroupsReal(Rows(rows, q, FineTuning), FineTuning, q.interval, ft);
    GroupsReal(Rows(rows, q, Batch), Batch, q.interval, batch);
    GroupsReal(Rows(rows, q, Notebook), Notebook, q.interval, nb);
    var m := Accumulate(sums, q.start, q.end);
    dps := Datapoints(m);
    forall i | 0 <= i < |dps|
      ensures Exact(dps[i], rows, q)
    {
      DatapointIsExact(m, dps[i], rows, q, ft, batch, nb);
    }
    forall jt, r | r in Rows(rows, q, jt)
      ensures Covers(dps, r, q, jt)
    {
      RowIsCovered(m, dps, rows, q, ft, batch, nb, jt, r);
    }
  }

  // Conservation.

  function Total(v: Value): int {
    v.completed + v.failed + v.cancelled + v.stopped + v.running + v.deleted + v.queued
  }

  /** No state is dropped: the totals of a type and bucket add up to its matching rows, and unfinished is
      queued plus running. */
  lemma NothingDropped(t: Tables, q: Query, jobType: JobType, ts: nat)
    ensures Total(Direct(AllRows(t), q, jobType, ts)) == CountBucket(Rows(AllRows(t), q, jobType), q.interval, ts)
    ensures var v := Direct(AllRows(t), q, jobType, ts); v.unfinished == v.queued + v.running
  {
    AllReal(t);
    LabelsCover(AllRows(t), q, jobType, ts);
  }

  lemma LabelsCover(rows: seq<Row>, q: Query, jobType: JobType, ts: nat)
    requires Real(rows)
    ensures Total(Direct(rows, q, jobType, ts)) == CountBucket(Rows(rows, q, jobType), q.interval, ts)
  {
    MatchingReal(rows, q, jobType);
    BucketSplits(Rows(rows, q, jobType), q.interval, ts);
  }

  function SumBuckets(rows: seq<Row>, interval: Interval, tss: seq<nat>): nat {
    if tss == [] then 0 else SumBuckets(rows, interval, tss[..|tss| - 1]) + CountBucket(rows, interval, tss[|tss| - 1])
  }

  function Times(tss: seq<nat>, ts: nat): nat {
    if tss == [] then 0 else Times(tss[..|tss| - 1], ts) + (if tss[|tss| - 1] == ts then 1 else 0)
  }

  lemma {:induction false} OneMoreRow(rows: seq<Row>, interval: Interval, tss: seq<nat>)
    requires rows != []
    ensures SumBuckets(rows, interval, tss)
         == SumBuckets(rows[..|rows| - 1], interval, tss) + Times(tss, Bucket(rows[|rows| - 1].created, interval))
  {
    if tss != [] {
      OneMoreRow(rows, interval, tss[..|tss| - 1]);
    }
  }

  lemma {:induction false} Absent(tss: seq<nat>, ts: nat)
    requires ts !in tss
    ensures Times(tss, ts) == 0
  {
    if tss != [] {
      assert forall x <- tss[..|tss| - 1] :: x in tss;
      assert tss[|tss| - 1] in tss;
      Absent(tss[..|tss| - 1], ts);
    }
  }

  lemma {:induction false} OnceEach(tss: seq<nat>, ts: nat)
    requires (forall i, j :: 0 <= i < j < |tss| ==> tss[i] < tss[j]) && ts in tss
    ensures Times(tss, ts) == 1
  {
    var init := tss[..|tss| - 1];
    if tss[|tss| - 1] == ts {
      assert ts !in init;
      Absent(init, ts);
    } else {
      OnceEach(init, ts);
    }
  }

  /** Over strictly increasing timestamps that cover all buckets, the counts add up to the number of rows. */
  lemma {:induction false} BucketsAddUp(rows: seq<Row>, interval: Interval, tss: seq<nat>)
    requires forall i, j :: 0 <= i < j < |tss| ==> tss[i] < tss[j]
    requires forall r <- rows :: Bucket(r.created, interval) in tss
    ensures SumBuckets(rows, interval, tss) == |rows|
  {
    if rows == [] {
      NoRows(interval, tss);
    } else {
      var init := rows[..|rows| - 1];
      assert forall r <- init :: r in rows;
      BucketsAddUp(init, interval, tss);
      OneMoreRow(rows, interval, tss);
      assert rows[|rows| - 1] in rows;
      OnceEach(tss, Bucket(rows[|rows| - 1].created, interval));
    }
  }

  lemma {:induction false} NoRows(interval: Interval, tss: seq<nat>)
    ensures SumBuckets([], interval, tss) == 0
  {
    if tss != [] {
      NoRows(interval, tss[..|tss| - 1]);
    }
  }

  /** What a response says about a type, over all timestamps. */
  function TotalOf(values: seq<Value>, jt: JobType): int {
    if values == [] then 0
    else
      var v := values[|values| - 1];
      TotalOf(values[..|values| - 1], jt) + (if v.jobType == jt then Total(v) else 0)
  }

  function TotalIn(dps: seq<Datapoint>, jt: JobType): int {
    if dps == [] then 0 else TotalIn(dps[..|dps| - 1], jt) + TotalOf(dps[|dps| - 1].values, jt)
  }

  function Timestamps(dps: seq<Datapoint>): (tss: seq<nat>)
    ensures |tss| == |dps| && forall i :: 0 <= i < |dps| ==> tss[i] == dps[i].timestamp
  {
    seq(|dps|, i requires 0 <= i < |dps| => dps[i].timestamp)
  }

  lemma {:induction false} TotalOfOne(values: seq<Value>, jt: JobType)
    requires forall i, j :: 0 <= i < j < |values| ==> values[i].jobType != values[j].jobType
    ensures Has(values, jt) ==> exists v :: v in values && v.jobType == jt && TotalOf(values, jt) == Total(v)
    ensures !Has(values, jt) ==> TotalOf(values, jt) == 0
  {
    if values != [] {
      var init, last := values[..|values| - 1], values[|values| - 1];
      TotalOfOne(init, jt);
      assert last in values && values[|values| - 1].jobType == last.jobType;
      if i :| 0 <= i < |init| && init[i].jobType == jt {
        assert values[i].jobType == jt;
        assert Has(values, jt);
        var v :| v in init && v.jobType == jt && TotalOf(init, jt) == Total(v);
        assert v in values;
      }
    }
  }

  lemma {:induction false} EmptyBucket(rows: seq<Row>, interval: Interval, ts: nat)
    requires forall r <- rows :: Bucket(r.created, interval) != ts
    ensures CountBucket(rows, interval, ts) == 0
  {
    if rows != [] {
      assert forall r <- rows[..|rows| - 1] :: r in rows;
      assert rows[|rows| - 1] in rows;
      EmptyBucket(rows[..|rows| - 1], interval, ts);
    }
  }

  lemma DatapointTotal(dps: seq<Datapoint>, i: nat, rows: seq<Row>, q: Query, jt: JobType)
    requires Real(rows) && Increasing(dps) && i < |dps| && Exact(dps[i], rows, q)
    requires forall r <- Rows(rows, q, jt) :: Covers(dps, r, q, jt)
    ensures TotalOf(dps[i].values, jt) == CountBucket(Rows(rows, q, jt), q.interval, dps[i].timestamp)
  {
    TotalOfOne(dps[i].values, jt);
    LabelsCover(rows, q, jt, dps[i].timestamp);
    if !Has(dps[i].values, jt) {
      forall r <- Rows(rows, q, jt)
        ensures Bucket(r.created, q.interval) != dps[i].timestamp
      {
        var k :| 0 <= k < |dps| && dps[k].timestamp == Bucket(r.created, q.interval) && Has(dps[k].values, jt);
        assert k != i;
      }
      EmptyBucket(Rows(rows, q, jt), q.interval, dps[i].timestamp);
    }
  }

  predicate CountsBucket(dp: Datapoint, rows: seq<Row>, interval: Interval, jt: JobType) {
    TotalOf(dp.values, jt) == CountBucket(rows, interval, dp.timestamp)
  }

  lemma {:induction false} TotalsAreBuckets(
      dps: seq<Datapoint>, n: nat, rows: seq<Row>, interval: Interval, jt: JobType)
    requires n <= |dps| && forall i :: 0 <= i < |dps| ==> CountsBucket(dps[i], rows, interval, jt)
    ensures TotalIn(dps[..n], jt) == SumBuckets(rows, interval, Timestamps(dps)[..n])
  {
    if n > 0 {
      TotalsAreBuckets(dps, n - 1, rows, interval, jt);
      assert CountsBucket(dps[n - 1], rows, interval, jt);
      assert dps[..n][..n - 1] == dps[..n - 1] && Timestamps(dps)[..n][..n - 1] == Timestamps(dps)[..n - 1];
    }
  }

  lemma TotalIsMatching(dps: seq<Datapoint>, rows: seq<Row>, q: Query, jt: JobType)
    requires Real(rows) && Increasing(dps) && (forall i :: 0 <= i < |dps| ==> Exact(dps[i], rows, q))
    requires forall r <- Rows(rows, q, jt) :: Covers(dps, r, q, jt)
    ensures TotalIn(dps, jt) == |Rows(rows, q, jt)|
  {
    var tss := Timestamps(dps);
    forall i | 0 <= i < |dps|
      ensures CountsBucket(dps[i], Rows(rows, q, jt), q.interval, jt)
    {
      DatapointTotal(dps, i, rows, q, jt);
    }
    TotalsAreBuckets(dps, |dps|, Rows(rows, q, jt), q.interval, jt);
    assert dps[..|dps|] == dps && tss[..|dps|] == tss;
    forall r <- Rows(rows, q, jt)
      ensures Bucket(r.created, q.interval) in tss
    {
      var k :| 0 <= k < |dps| && dps[k].timestamp == Bucket(r.created, q.interval) && Has(dps[k].values, jt);
      assert tss[k] in tss;
    }
    BucketsAddUp(Rows(rows, q, jt), q.interval, tss);
  }

  /** How many records of a table the query is about. */
  function Selected<S>(records: seq<Record<S>>, q: Query): nat {
    if records == [] then 0
    else
      var r := records[|records| - 1];
      Selected(records[..|records| - 1], q)
          + (if r.tenantId == q.tenantId && q.start <= r.updatedAt < q.end then 1 else 0)
  }

  lemma {:induction false} RowsConcat(a: seq<Row>, b: seq<Row>, q: Query, jt: JobType)
    ensures Rows(a + b, q, jt) == Rows(a, q, jt) + Rows(b, q, jt)
  {
    if b == [] {
      assert a + b == a;
    } else {
      RowsConcat(a, b[..|b| - 1], q, jt);
      assert (a + b)[..|a + b| - 1] == a + b[..|b| - 1];
    }
  }

  lemma {:induction false} SelectedRows<S>(
      jobType: JobType, labelOf: S -> Label, records: seq<Record<S>>, q: Query, jt: JobType)
    ensures |Rows(RowsOf(jobType, labelOf, records), q, jt)| == if jt == jobType then Selected(records, q) else 0
  {
    if records != [] {
      var init := records[..|records| - 1];
      SelectedRows(jobType, labelOf, init, q, jt);
      var rows := RowsOf(jobType, labelOf, records);
      assert rows[..|rows| - 1] == RowsOf(jobType, labelOf, init);
    }
  }

  function SelectedOf(t: Tables, q: Query, jt: JobType): nat {
    match jt
    case FineTuning => Selected(t.jobs, q)
    case Batch => Selected(t.batches, q)
    case Notebook => Selected(t.notebooks, q)
  }

  lemma MatchingIsSelected(t: Tables, q: Query, jt: JobType)
    ensures |Rows(AllRows(t), q, jt)| == SelectedOf(t, q, jt)
  {
    var a, b, c := RowsOf(FineTuning, OfJob, t.jobs), RowsOf(Batch, OfBatch, t.batches),
        RowsOf(Notebook, OfNotebook, t.notebooks);
    RowsConcat(a + b, c, q, jt);
    RowsConcat(a, b, q, jt);
    SelectedRows(FineTuning, OfJob, t.jobs, q, jt);
    SelectedRows(Batch, OfBatch, t.batches, q, jt);
    SelectedRows(Notebook, OfNotebook, t.notebooks, q, jt);
  }

  /** Conservation: over a whole response, the totals of a type add up to the number of records of its table that the
      query is about, whatever their states. */
  lemma ResponseConserves(dps: seq<Datapoint>, t: Tables, q: Query, jt: JobType)
    requires Increasing(dps) && (forall i :: 0 <= i < |dps| ==> Exact(dps[i], AllRows(t), q))
    requires forall r <- Rows(AllRows(t), q, jt) :: Covers(dps, r, q, jt)
    ensures TotalIn(dps, jt) == SelectedOf(t, q, jt)
  {
    AllReal(t);
    TotalIsMatching(dps, AllRows(t), q, jt);
    MatchingIsSelected(t, q, jt);
  }

  // The fields of a response, as counts of the states of the tables.

  /** How many records the query is about were created in the bucket and are in a wanted state. */
  function CountOf<S>(records: seq<Record<S>>, q: Query, ts: nat, want: S -> bool): nat {
    if records == [] then 0
    else
      var r := records[|records| - 1];
      CountOf(records[..|records| - 1], q, ts, want)
        + (if r.tenantId == q.tenantId && q.start <= r.updatedAt < q.end && Bucket(r.created, q.interval) == ts
              && want(r.state) then 1 else 0)
  }

  lemma {:induction false} LabelCounts<S>(
      jt: JobType, labelOf: S -> Label, records: seq<Record<S>>, q: Query, ts: nat, l: Label, want: S -> bool)
    requires forall s :: labelOf(s) == l <==> want(s)
    ensures CountDirect(Rows(RowsOf(jt, labelOf, records), q, jt), q.interval, l, ts) == CountOf(records, q, ts, want)
  {
    if records != [] {
      var init := records[..|records| - 1];
      LabelCounts(jt, labelOf, init, q, ts, l, want);
      var rows, before := RowsOf(jt, labelOf, records), RowsOf(jt, labelOf, init);
      assert rows[..|rows| - 1] == before;
      OneMoreCounts(rows, q, jt, l, ts);
    }
  }

  lemma OneMoreCounts(rows: seq<Row>, q: Query, jt: JobType, l: Label, ts: nat)
    requires rows != []
    ensures var init, r := rows[..|rows| - 1], rows[|rows| - 1];
      CountDirect(Rows(rows, q, jt), q.interval, l, ts) == CountDirect(Rows(init, q, jt), q.interval, l, ts)
        + (if r.jobType == jt && r.tenantId == q.tenantId && q.start <= r.updatedAt < q.end
              && Bucket(r.created, q.interval) == ts && r.status == l then 1 else 0)
  {
    var init, r := Rows(rows[..|rows| - 1], q, jt), rows[|rows| - 1];
    assert (init + [r])[..|init|] == init;
  }

  lemma {:induction false} NoneCounted<S>(records: seq<Record<S>>, q: Query, ts: nat, want: S -> bool)
    requires forall s :: !want(s)
    ensures CountOf(records, q, ts, want) == 0
  {
    if records != [] {
      NoneCounted(records[..|records| - 1], q, ts, want);
    }
  }

  /** The rows of a type are those of its table. */
  lemma RowsOfType(t: Tables, q: Query, jt: JobType)
    ensures Rows(AllRows(t), q, jt) ==
      match jt
      case FineTuning => Rows(RowsOf(FineTuning, OfJob, t.jobs), q, jt)
      case Batch => Rows(RowsOf(Batch, OfBatch, t.batches), q, jt)
      case Notebook => Rows(RowsOf(Notebook, OfNotebook, t.notebooks), q, jt)
  {
    var a, b := RowsOf(FineTuning, OfJob, t.jobs), RowsOf(Batch, OfBatch, t.batches);
    RowsConcat(a + b, RowsOf(Notebook, OfNotebook, t.notebooks), q, jt);
    RowsConcat(a, b, q, jt);
    SelectedRows(FineTuning, OfJob, t.jobs, q, jt);
    SelectedRows(Batch, OfBatch, t.batches, q, jt);
    SelectedRows(Notebook, OfNotebook, t.notebooks, q, jt);
  }

  function JobsIn(t: Tables, q: Query, ts: nat, s: Jobs.State): nat {
    CountOf(t.jobs, q, ts, (x: Jobs.State) => x == s)
  }

  function BatchesIn(t: Tables, q: Query, ts: nat, s: Batches.State): nat {
    CountOf(t.batches, q, ts, (x: Batches.State) => x == s)
  }

  function NotebooksIn(t: Tables, q: Query, ts: nat, s: NotebookStore.State): nat {
    CountOf(t.notebooks, q, ts, (x: NotebookStore.State) => x == s)
  }

  lemma JobLabel(t: Tables, q: Query, ts: nat, l: Label, s: Jobs.State)
    requires OfJob(s) == l
    ensures CountDirect(Rows(AllRows(t), q, FineTuning), q.interval, l, ts) == JobsIn(t, q, ts, s)
  {
    RowsOfType(t, q, FineTuning);
    LabelCounts(FineTuning, OfJob, t.jobs, q, ts, l, (x: Jobs.State) => x == s);
  }

  lemma BatchLabel(t: Tables, q: Query, ts: nat, l: Label, s: Batches.State)
    requires OfBatch(s) == l
    ensures CountDirect(Rows(AllRows(t), q, Batch), q.interval, l, ts) == BatchesIn(t, q, ts, s)
  {
    RowsOfType(t, q, Batch);
    LabelCounts(Batch, OfBatch, t.batches, q, ts, l, (x: Batches.State) => x == s);
  }

  lemma NotebookLabel(t: Tables, q: Query, ts: nat, l: Label, s: NotebookStore.State)
    requires OfNotebook(s) == l
    ensures CountDirect(Rows(AllRows(t), q, Notebook), q.interval, l, ts) == NotebooksIn(t, q, ts, s)
  {
    RowsOfType(t, q, Notebook);
    LabelCounts(Notebook, OfNotebook, t.notebooks, q, ts, l, (x: NotebookStore.State) => x == s);
  }

  /** Labels that no state of a table has count nothing. */
  lemma NoLabel(t: Tables, q: Query, ts: nat, jt: JobType, l: Label)
    requires jt == FineTuning ==> forall s :: OfJob(s) != l
    requires jt == Batch ==> forall s :: OfBatch(s) != l
    requires jt == Notebook ==> forall s :: OfNotebook(s) != l
    ensures CountDirect(Rows(AllRows(t), q, jt), q.interval, l, ts) == 0
  {
    RowsOfType(t, q, jt);
    match jt {
      case FineTuning =>
        LabelCounts(FineTuning, OfJob, t.jobs, q, ts, l, (x: Jobs.State) => false);
        NoneCounted(t.jobs, q, ts, (x: Jobs.State) => false);
      case Batch =>
        LabelCounts(Batch, OfBatch, t.batches, q, ts, l, (x: Batches.State) => false);
        NoneCounted(t.batches, q, ts, (x: Batches.State) => false);
      case Notebook =>
        LabelCounts(Notebook, OfNotebook, t.notebooks, q, ts, l, (x: NotebookStore.State) => false);
        NoneCounted(t.notebooks, q, ts, (x: NotebookStore.State) => false);
    }
  }

  /** Each field of the value for fine-tuning jobs counts the jobs in one state. */
  lemma JobFields(t: Tables, q: Query, ts: nat)
    ensures var v := Direct(AllRows(t), q, FineTuning, ts);
      && v.completed == JobsIn(t, q, ts, Jobs.Succeeded) && v.failed == JobsIn(t, q, ts, Jobs.Failed)
      && v.cancelled == JobsIn(t, q, ts, Jobs.Canceled) && v.running == JobsIn(t, q, ts, Jobs.Running)
      && v.queued == JobsIn(t, q, ts, Jobs.Queued) && v.stopped == v.deleted == 0
      && v.unfinished == v.queued + v.running
  {
    JobLabel(t, q, ts, Succeeded, Jobs.Succeeded);
    JobLabel(t, q, ts, Failed, Jobs.Failed);
    JobLabel(t, q, ts, Canceled, Jobs.Canceled);
    JobLabel(t, q, ts, Running, Jobs.Running);
    JobLabel(t, q, ts, Queued, Jobs.Queued);
    NoLabel(t, q, ts, FineTuning, Stopped);
    NoLabel(t, q, ts, FineTuning, Deleted);
    NoLabel(t, q, ts, FineTuning, Initializing);
    NoLabel(t, q, ts, FineTuning, Requeued);
  }

  lemma BatchFields(t: Tables, q: Query, ts: nat)
    ensures var v := Direct(AllRows(t), q, Batch, ts);
      && v.completed == BatchesIn(t, q, ts, Batches.Succeeded) && v.failed == BatchesIn(t, q, ts, Batches.Failed)
      && v.cancelled == BatchesIn(t, q, ts, Batches.Canceled) && v.running == BatchesIn(t, q, ts, Batches.Running)
      && v.queued == BatchesIn(t, q, ts, Batches.Queued) && v.deleted == BatchesIn(t, q, ts, Batches.Deleted)
      && v.stopped == 0 && v.unfinished == v.queued + v.running
  {
    BatchLabel(t, q, ts, Succeeded, Batches.Succeeded);
    BatchLabel(t, q, ts, Failed, Batches.Failed);
    BatchLabel(t, q, ts, Canceled, Batches.Canceled);
    BatchLabel(t, q, ts, Running, Batches.Running);
    BatchLabel(t, q, ts, Queued, Batches.Queued);
    BatchLabel(t, q, ts, Deleted, Batches.Deleted);
    NoLabel(t, q, ts, Batch, Stopped);
    NoLabel(t, q, ts, Batch, Initializing);
    NoLabel(t, q, ts, Batch, Requeued);
  }

  /** For notebooks, initializing counts as running and requeued as queued. */
  lemma NotebookFields(t: Tables, q: Query, ts: nat)
    ensures var v := Direct(AllRows(t), q, Notebook, ts);
      && v.running == NotebooksIn(t, q, ts, NotebookStore.Running) + NotebooksIn(t, q, ts, NotebookStore.Initializing)
      && v.queued == NotebooksIn(t, q, ts, NotebookStore.Queued) + NotebooksIn(t, q, ts, NotebookStore.Requeued)
      && v.stopped == NotebooksIn(t, q, ts, NotebookStore.Stopped)
      && v.failed == NotebooksIn(t, q, ts, NotebookStore.Failed)
      && v.deleted == NotebooksIn(t, q, ts, NotebookStore.Deleted)
      && v.completed == v.cancelled == 0 && v.unfinished == v.queued + v.running
  {
    NotebookLive(t, q, ts);
    NotebookOver(t, q, ts);
  }

  lemma NotebookLive(t: Tables, q: Query, ts: nat)
    ensures var v := Direct(AllRows(t), q, Notebook, ts);
      && v.running == NotebooksIn(t, q, ts, NotebookStore.Running) + NotebooksIn(t, q, ts, NotebookStore.Initializing)
      && v.queued == NotebooksIn(t, q, ts, NotebookStore.Queued) + NotebooksIn(t, q, ts, NotebookStore.Requeued)
  {
    NotebookLabel(t, q, ts, Running, NotebookStore.Running);
    NotebookLabel(t, q, ts, Initializing, NotebookStore.Initializing);
    NotebookLabel(t, q, ts, Queued, NotebookStore.Queued);
    NotebookLabel(t, q, ts, Requeued, NotebookStore.Requeued);
  }

  lemma NotebookOver(t: Tables, q: Query, ts: nat)
    ensures var v := Direct(AllRows(t), q, Notebook, ts);
      && v.stopped == NotebooksIn(t, q, ts, NotebookStore.Stopped)
      && v.failed == NotebooksIn(t, q, ts, NotebookStore.Failed)
      && v.deleted == NotebooksIn(t, q, ts, NotebookStore.Deleted)
      && v.completed == v.cancelled == 0
  {
    NotebookLabel(t, q, ts, Stopped, NotebookStore.Stopped);
    NotebookLabel(t, q, ts, Failed, NotebookStore.Failed);
    NotebookLabel(t, q, ts, Deleted, NotebookStore.Deleted);
    NoLabel(t, q, ts, Notebook, Succeeded);
    NoLabel(t, q, ts, Notebook, Canceled);
  }

  /** The created field counts all records of the bucket, if it starts within the range. */
  lemma CreatedField(t: Tables, q: Query, jt: JobType, ts: nat)
    ensures var v := Direct(AllRows(t), q, jt, ts);
            v.created == if q.start <= ts < q.end then Total(v) else 0
  {
    NothingDropped(t, q, jt, ts);
  }

  // The `created` total.

  /** A row counts as created within the range when its bucket starts there. */
  predicate CountsAsCreated(created: nat, q: Query) {
    q.start <= Bucket(created, q.interval) < q.end
  }

  lemma BucketBounds(c: nat, i: Interval)
    ensures Bucket(c, i) == c - c % i <= c
  {
    assert c == c / i * i + c % i;
  }

  lemma NegativeMultiple(d: int, i: Interval)
    requires d <= -1
    ensures d * i <= 0 - i
  {
  }

  lemma PositiveMultiple(d: int, i: Interval)
    requires d >= 0
    ensures d * i >= 0
  {
  }

  /** A bucket boundary at or below `c` is at or below its bucket. */
  lemma BoundaryBelow(s: nat, c: nat, i: Interval)
    requires s % i == 0
    ensures s <= c <==> s <= Bucket(c, i)
  {
    BucketBounds(c, i);
    var d := c / i - s / i;
    assert s == s / i * i;
    assert Bucket(c, i) - s == d * i;
    if d >= 0 {
      PositiveMultiple(d, i);
    } else {
      NegativeMultiple(d, i);
    }
  }

  /** The range is empty of rows, or its end is a multiple of the interval and so is its start unless that is before
      every row. */
  predicate Aligned(q: Query) {
    || q.end <= 0 || q.end <= q.start
    || (q.end % q.interval == 0 && (q.start <= 0 || q.start % q.interval == 0))
  }

  /** "Created within the time range" holds of exactly the rows created there if and only if the range is aligned;
      otherwise the row created at a ragged end is miscounted. */
  lemma CreatedExactlyWhenAligned(q: Query)
    ensures (forall c: nat :: CountsAsCreated(c, q) <==> q.start <= c < q.end) <==> Aligned(q)
  {
    if Aligned(q) {
      forall c: nat
        ensures CountsAsCreated(c, q) <==> q.start <= c < q.end
      {
        AlignedCounts(q, c);
      }
    } else if q.end % q.interval != 0 {
      BucketBounds(q.end, q.interval);
      RaggedEnd(q);
    } else {
      BucketBounds(q.start, q.interval);
      assert !CountsAsCreated(q.start, q);
    }
  }

  lemma AlignedCounts(q: Query, c: nat)
    requires Aligned(q)
    ensures CountsAsCreated(c, q) <==> q.start <= c < q.end
  {
    BucketBounds(c, q.interval);
    if 0 < q.end && q.start < q.end {
      BoundaryBelow(q.end, c, q.interval);
      if 0 < q.start {
        BoundaryBelow(q.start, c, q.interval);
      }
    }
  }

  /** The row at a ragged end is counted although it lies outside, or the row at a ragged start is not. */
  lemma RaggedEnd(q: Query)
    requires 0 < q.end && q.start < q.end && q.end % q.interval != 0
    ensures exists c: nat :: CountsAsCreated(c, q) != (q.start <= c < q.end)
  {
    BucketBounds(q.end, q.interval);
    if q.start <= Bucket(q.end, q.interval) {
      assert CountsAsCreated(q.end, q);
    } else {
      var c: nat := q.start;
      SameBucket(c, q.end, q.interval);
      assert !CountsAsCreated(c, q);
    }
  }

  /** What lies between the start of a bucket and a member of it lies in it. */
  lemma SameBucket(c: nat, e: nat, i: Interval)
    requires Bucket(e, i) <= c <= e
    ensures Bucket(c, i) <= Bucket(e, i)
  {
    BucketBounds(c, i);
    BucketBounds(e, i);
    var d := e / i - c / i;
    assert Bucket(e, i) - Bucket(c, i) == d * i;
    if d < 0 {
      NegativeMultiple(d, i);
    } else {
      PositiveMultiple(d, i);
    }
  }
}
