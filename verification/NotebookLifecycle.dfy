/** What holds of single notebook rows in every interleaving of the handlers. */
module NotebookLifecycle {
  import opened Common
  import opened NotebookStore
  import opened NotebookServer
  import Occ

  type Event = Occ.Event<Row, Request>
  type Db = Occ.State<Row, Request>

  /** A row as CreateNotebook inserts it, placed by the scheduler with no previous cluster. */
  predicate IsCreated(r: Row) {
    && r == Created(r.tenantId, r.projectId, r.envs, r.clusterId, r.message.namespace, r.message.gpuCount, r.updatedAt)
    && Placement(r.envs, "", r.clusterId, r.message.namespace)
  }

  predicate LegalPair(s: State, a: Action) {
    match s
    case Queued => a != NoAction
    case Requeued => a == Requeueing
    case Failed => false
    case _ => a == NoAction
  }

  /** The cluster column, the message and the stored project agree. */
  predicate Agrees(r: Row) {
    && r.message.clusterId == r.clusterId
    && NamespaceOf(r.envs, r.clusterId) == Some(r.message.namespace)
  }

  predicate Timestamps(r: Row) {
    && (r.message.startedAt == 0 || r.message.stoppedAt == 0)
    && (r.state == Initializing || r.state == Running ==> r.message.startedAt > 0)
    && (r.state == Stopped || r.state == Deleted ==> r.message.stoppedAt > 0)
  }

  predicate RowOk(r: Row) {
    LegalPair(r.state, r.action) && Agrees(r) && Timestamps(r)
  }

  lemma TableBumpsVersion()
    ensures Occ.BumpsVersion(NOTEBOOKS)
  {
    forall q, s, r
      ensures NOTEBOOKS.version(NOTEBOOKS.updated(q, s, r)) == NOTEBOOKS.version(r) + 1
    {
      assert NOTEBOOKS.updated(q, s, r) == Updated(q, s, r);
    }
  }

  lemma RowOkKept(q: Request, r: Row)
    requires RowOk(r) && Writes(q, r)
    ensures RowOk(Updated(q, r, r))
  {
    var u := Decide(q.op, r, q.now).update;
    match u
    case QueuedAction(_) =>
    case OnlyState(_) =>
    case NonQueued(_, _, _) =>
    case ForRescheduling(_, _, _, _, _) =>
  }

  /** In every interleaving of every handler, every row has a legal state/action pair (so never
      `failed`), its column, message and project agree, and its timestamps are consistent. */
  lemma EveryRowOk(es: seq<Event>, id: string)
    requires forall e <- es :: e.Insert? ==> IsCreated(e.row)
    requires id in Occ.Run(NOTEBOOKS, Occ.Start(map[]), es).rows
    ensures RowOk(Occ.Run(NOTEBOOKS, Occ.Start(map[]), es).rows[id])
  {
    TableBumpsVersion();
    forall q, r | RowOk(r) && NOTEBOOKS.writes(q, r)
      ensures RowOk(NOTEBOOKS.updated(q, r, r))
    {
      RowOkKept(q, r);
    }
    Occ.Lift(NOTEBOOKS, Occ.Start(map[]), es, RowOk);
  }

  /** Step `k` of a life of a notebook that visits every legal pair. */
  function LifeStep(k: Time): Request {
    match k
    case 1 => Request(Report(Is(Initializing), ""), k)
    case 2 => Request(Report(Is(Running), ""), k)
    case 3 => Request(Stop, k)
    case 4 => Request(Report(Is(Stopped), ""), k)
    case 5 => Request(Start, k)
    case 6 => Request(Report(Is(Initializing), ""), k)
    case 7 => Request(Requeue(0), k)
    case 8 => Request(Report(Is(Requeued), ""), k)
    case 9 => Request(Delete, k)
    case _ => Request(Report(Is(Deleted), ""), k)
  }

  function Life(k: nat): seq<Request> {
    if k == 0 then [] else Life(k - 1) + [LifeStep(k)]
  }

  function Newborn(): Row {
    Created("t", "p", [Env("a", "ns")], "a", "ns", 0, 1)
  }

  /** The pair after the first `k` steps of that life. */
  function Visited(k: nat): (State, Action) {
    match k
    case 0 => (Queued, Starting)
    case 1 => (Initializing, NoAction)
    case 2 => (Running, NoAction)
    case 3 => (Queued, Stopping)
    case 4 => (Stopped, NoAction)
    case 5 => (Queued, Starting)
    case 6 => (Initializing, NoAction)
    case 7 => (Queued, Requeueing)
    case 8 => (Requeued, Requeueing)
    case 9 => (Queued, Deleting)
    case _ => (Deleted, NoAction)
  }

  lemma NotPulling()
    ensures !Contains("", PULLING)
  {
    assert |PULLING| == 7;
  }

  /** The row is as that life leaves it after `k` steps. */
  predicate LivedTo(k: nat, r: Row) {
    && r.state == Visited(k).0 && r.action == Visited(k).1 && r.reason == ""
    && r.updatedAt == if k == 0 then 1 else k
  }

  lemma LifeStepWorks(k: Time, r: Row)
    requires k <= 10 && LivedTo(k - 1, r)
    ensures Writes(LifeStep(k), r) && LivedTo(k, Updated(LifeStep(k), r, r))
  {
    NotPulling();
  }

  lemma {:induction false} LifeVisits(k: nat)
    requires k <= 10
    ensures LivedTo(k, Occ.Chain(NOTEBOOKS, Newborn(), Life(k)))
  {
    if k > 0 {
      LifeVisits(k - 1);
      var before := Occ.Chain(NOTEBOOKS, Newborn(), Life(k - 1));
      LifeStepWorks(k, before);
      Occ.ChainMore(NOTEBOOKS, Newborn(), Life(k - 1), LifeStep(k));
    }
  }

  /** Some interleaving of handlers on created rows leaves a row in this pair. */
  ghost predicate Occurs(s: State, a: Action) {
    exists es: seq<Event>, id: string :: ReachesPair(es, id, s, a)
  }

  ghost predicate ReachesPair(es: seq<Event>, id: string, s: State, a: Action) {
    && (forall e <- es :: e.Insert? ==> IsCreated(e.row))
    && var rows := Occ.Run(NOTEBOOKS, Occ.Start(map[]), es).rows;
       id in rows && rows[id].state == s && rows[id].action == a
  }

  lemma LegalPairOccurs(s: State, a: Action, k: nat)
    requires k <= 10 && Visited(k) == (s, a)
    ensures Occurs(s, a)
  {
    LifeVisits(k);
    Occ.SeriallyReaches(NOTEBOOKS, "n", Newborn(), Life(k));
    assert IsCreated(Newborn());
    assert ReachesPair(Occ.Serially("n", Newborn(), Life(k)), "n", s, a);
  }

  /** The pairs that occur are exactly the legal ones: queued with an action, requeued with
      `requeueing`, and every other state but `failed` without an action. */
  lemma PairsExactly(s: State, a: Action)
    ensures LegalPair(s, a) <==> Occurs(s, a)
  {
    if LegalPair(s, a) {
      if s == Queued {
        LegalPairOccurs(s, a, if a == Starting then 0 else if a == Stopping then 3
                              else if a == Requeueing then 7 else 9);
      } else {
        LegalPairOccurs(s, a, if s == Initializing then 1 else if s == Running then 2 else if s == Stopped then 4
                              else if s == Requeued then 8 else 10);
      }
    }
    if Occurs(s, a) {
      var es, id :| ReachesPair(es, id, s, a);
      EveryRowOk(es, id);
    }
  }

  /** The state in which a queued action ends. */
  function Outcome(a: Action): Reported {
    match a
    case NoAction => Unspecified
    case Starting => Is(Initializing)
    case Stopping => Is(Stopped)
    case Deleting => Is(Deleted)
    case Requeueing => Is(Requeued)
  }

  /** The action a user request queues. */
  function Asked(op: Op): Option<Action> {
    match op
    case Stop => Some(Stopping)
    case Start => Some(Starting)
    case Delete => Some(Deleting)
    case _ => None
  }

  /** Request `q` settles a row queued for `a`: it completes the action or replaces it. */
  predicate Settles(a: Action, q: Request, after: Row) {
    || (q.op.Report? && q.op.state == Outcome(a) == Is(after.state))
    || (Asked(q.op) == Some(after.action) && after.state == Queued)
  }

  lemma QueuedRowSettles(q: Request, r: Row)
    requires r.state == Queued && Writes(q, r)
    ensures Settles(r.action, q, Updated(q, r, r))
  {
  }

  /** No request is lost: in any interleaving, a queued notebook leaves its action only when the report
      that completes it lands, or when a newer user request replaces it. */
  lemma NoLostRequest(s: Db, e: Event, id: string)
    requires Occ.Snapshots(NOTEBOOKS, s) && id in s.rows && s.rows[id].state == Queued
    ensures id in Occ.Step(NOTEBOOKS, s, e).rows
    ensures var r, r' := s.rows[id], Occ.Step(NOTEBOOKS, s, e).rows[id];
            || (r'.state == Queued && r'.action == r.action)
            || exists q <- Occ.Lands(NOTEBOOKS, s, e, id) :: Settles(r.action, q, r')
  {
    TableBumpsVersion();
    Occ.StepIsSerial(NOTEBOOKS, s, e, id);
    if Occ.Step(NOTEBOOKS, s, e).rows[id] != s.rows[id] {
      var q :| q in Occ.Lands(NOTEBOOKS, s, e, id);
      QueuedRowSettles(q, s.rows[id]);
    }
  }

  predicate Doomed(r: Row) {
    (r.state == Queued && r.action == Deleting) || r.state == Deleted
  }

  lemma DoomedKept(q: Request, r: Row)
    requires Doomed(r) && Writes(q, r)
    ensures Doomed(Updated(q, r, r))
  {
  }

  /** Once a delete is accepted, nothing brings the notebook back. */
  lemma {:induction false} DeleteIsForever(s: Db, es: seq<Event>, id: string)
    requires Occ.Snapshots(NOTEBOOKS, s) && id in s.rows && Doomed(s.rows[id])
    ensures id in Occ.Run(NOTEBOOKS, s, es).rows && Doomed(Occ.Run(NOTEBOOKS, s, es).rows[id])
  {
    if es != [] {
      TableBumpsVersion();
      DeleteIsForever(s, es[..|es| - 1], id);
      Occ.SnapshotsAlways(NOTEBOOKS, s, es[..|es| - 1]);
      var mid := Occ.Run(NOTEBOOKS, s, es[..|es| - 1]);
      Occ.StepIsSerial(NOTEBOOKS, mid, es[|es| - 1], id);
      forall q <- Occ.Lands(NOTEBOOKS, mid, es[|es| - 1], id)
        ensures Doomed(Updated(q, mid.rows[id], mid.rows[id]))
      {
        DoomedKept(q, mid.rows[id]);
      }
    }
  }

  /** Request `q` may take the timestamps of `m` to those of `m'`: StartedAt is set once, at INITIALIZING,
      and cleared at STOPPED or DELETED; StoppedAt the other way round. */
  predicate Stamps(q: Request, m: Message, m': Message) {
    q.op.Report? &&
    if q.op.state == Is(Initializing)
    then m'.startedAt == (if m.startedAt == 0 then q.now else m.startedAt) && m'.stoppedAt == 0
    else && (q.op.state == Is(Stopped) || q.op.state == Is(Deleted))
         && m'.startedAt == 0 && (m'.stoppedAt == q.now || m'.stoppedAt == m.stoppedAt != 0)
  }

  lemma RowStamps(q: Request, r: Row)
    requires Writes(q, r)
    ensures var m, m' := r.message, Updated(q, r, r).message;
            (m'.startedAt == m.startedAt && m'.stoppedAt == m.stoppedAt) || Stamps(q, m, m')
  {
  }

  /** In any interleaving only these reports change timestamps, so requeueing and rescheduling keep them. */
  lemma TimestampChanges(s: Db, e: Event, id: string)
    requires Occ.Snapshots(NOTEBOOKS, s) && id in s.rows
    ensures id in Occ.Step(NOTEBOOKS, s, e).rows
    ensures var m, m' := s.rows[id].message, Occ.Step(NOTEBOOKS, s, e).rows[id].message;
            || (m'.startedAt == m.startedAt && m'.stoppedAt == m.stoppedAt)
            || exists q <- Occ.Lands(NOTEBOOKS, s, e, id) :: Stamps(q, m, m')
  {
    TableBumpsVersion();
    Occ.StepIsSerial(NOTEBOOKS, s, e, id);
    if Occ.Step(NOTEBOOKS, s, e).rows[id] != s.rows[id] {
      var q :| q in Occ.Lands(NOTEBOOKS, s, e, id);
      RowStamps(q, s.rows[id]);
    }
  }

  // Image pulls.

  lemma InitializingIsFrozen(q: Request, r: Row)
    requires r.state == Initializing && Writes(q, r)
    ensures Updated(q, r, r).state != Initializing
  {
  }

  /** The row is initializing at every point of the run. */
  ghost predicate StaysInitializing(s: Db, es: seq<Event>, id: string) {
    forall n: nat :: n <= |es| ==> IsInitializing(Occ.Run(NOTEBOOKS, s, es[..n]), id)
  }

  predicate IsInitializing(s: Db, id: string) {
    id in s.rows && s.rows[id].state == Initializing
  }

  /** As long as a notebook is initializing, nothing in its row changes: a report of the state it has is ignored, with
      its reason. */
  lemma {:induction false} FrozenWhileInitializing(s: Db, es: seq<Event>, id: string)
    requires Occ.Snapshots(NOTEBOOKS, s) && id in s.rows && StaysInitializing(s, es, id)
    ensures id in Occ.Run(NOTEBOOKS, s, es).rows && Occ.Run(NOTEBOOKS, s, es).rows[id] == s.rows[id]
  {
    if es != [] {
      var init, e := es[..|es| - 1], es[|es| - 1];
      var mid := Occ.Run(NOTEBOOKS, s, init);
      forall n: nat | n <= |init| ensures IsInitializing(Occ.Run(NOTEBOOKS, s, init[..n]), id) {
        assert init[..n] == es[..n];
      }
      FrozenWhileInitializing(s, init, id);
      TableBumpsVersion();
      Occ.SnapshotsAlways(NOTEBOOKS, s, init);
      Occ.StepIsSerial(NOTEBOOKS, mid, e, id);
      assert es[..|es|] == es && IsInitializing(Occ.Run(NOTEBOOKS, s, es), id);
      forall q <- Occ.Lands(NOTEBOOKS, mid, e, id)
        ensures false
      {
        InitializingIsFrozen(q, mid.rows[id]);
      }
    }
  }

  /** Which notebooks the rescheduler spares: whatever is reported later, exactly those whose first INITIALIZING report,
      the one that landed on the queued row, named the pull, and those that have not been initializing for long. */
  lemma SparedExactly(s: Db, e: Event, q: Request, es: seq<Event>, id: string, maxQueued: nat, now: Time)
    requires Occ.Snapshots(NOTEBOOKS, s) && id in s.rows && s.rows[id].state == Queued
    requires q in Occ.Lands(NOTEBOOKS, s, e, id) && q.op.Report? && q.op.state == Is(Initializing)
    requires StaysInitializing(Occ.Step(NOTEBOOKS, s, e), es, id)
    ensures id in Occ.Run(NOTEBOOKS, Occ.Step(NOTEBOOKS, s, e), es).rows
    ensures Writes(Request(Requeue(maxQueued), now), Occ.Run(NOTEBOOKS, Occ.Step(NOTEBOOKS, s, e), es).rows[id]) <==>
            !Contains(q.op.reason, PULLING) && q.now + maxQueued < now
  {
    TableBumpsVersion();
    Occ.StepIsSerial(NOTEBOOKS, s, e, id);
    Occ.SnapshotsKept(NOTEBOOKS, s, e);
    FrozenWhileInitializing(Occ.Step(NOTEBOOKS, s, e), es, id);
    FirstReportStays(q, s.rows[id]);
  }

  lemma FirstReportStays(q: Request, r: Row)
    requires r.state == Queued && Writes(q, r) && q.op.Report? && q.op.state == Is(Initializing)
    ensures var r' := Updated(q, r, r); r'.state == Initializing && r'.reason == q.op.reason && r'.updatedAt == q.now
  {
  }

  /** The dispatcher's own report names no reason. When it lands first, the reconciler's report of the pull is ignored,
      and the notebook is requeued while its image is being pulled. */
  lemma LatePullingIsRequeued()
    ensures var qs := [Request(Report(Is(Initializing), ""), 1), Request(Report(Is(Initializing), PULLING), 2),
                       Request(Requeue(0), 3)];
            ReachesPair(Occ.Serially("n", Newborn(), qs), "n", Queued, Requeueing)
  {
    var first, second, third :=
      Request(Report(Is(Initializing), ""), 1), Request(Report(Is(Initializing), PULLING), 2), Request(Requeue(0), 3);
    var qs := [first, second, third];
    assert qs[..2] == [first, second] && [first, second][..1] == [first] && [first][..0] == [];
    assert Occ.Chain(NOTEBOOKS, Newborn(), []) == Newborn();
    var r := Occ.Chain(NOTEBOOKS, Newborn(), [first]);
    assert r == Updated(first, Newborn(), Newborn());
    assert !Writes(second, r);
    assert Occ.Chain(NOTEBOOKS, Newborn(), [first, second]) == r;
    NotPulling();
    assert Writes(third, r);
    Occ.SeriallyReaches(NOTEBOOKS, "n", Newborn(), qs);
    assert IsCreated(Newborn());
  }
}
