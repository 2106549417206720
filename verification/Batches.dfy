/** Batch jobs: the table (server/internal/store/batchjob.go) and the handlers that change it
(server/internal/server/batch_server.go). */
module Batches {
  import opened Common
  import Occ

  datatype State = Queued | Running | Succeeded | Failed | Canceled | Deleted

  datatype Action = NoAction | Creating | Canceling | Deleting

  datatype Message = Message(finishedAt: nat, error: Option<(string, string)>)

  datatype Row = Row(
    tenantId: string, projectId: string, clusterId: string, message: Message,
    state: State, action: Action, version: nat)

  /** The columns an update names, besides the version. */
  datatype Update =
    | QueuedAction(action: Action)
    | OnlyState(state: State)
    | NonQueued(state: State, message: Message)

  function Apply(r: Row, u: Update): Row {
    var r := r.(version := r.version + 1);
    match u
    case QueuedAction(action) => r.(state := Queued, action := action)
    case OnlyState(state) => r.(state := state, action := NoAction)
    case NonQueued(state, message) => r.(state := state, action := NoAction, message := message)
  }

  predicate Selects(rows: map<string, Row>, id: string, version: int) {
    id in rows && rows[id].version == version
  }

  function After(rows: map<string, Row>, id: string, version: int, u: Update): map<string, Row> {
    if Selects(rows, id, version) then rows[id := Apply(rows[id], u)] else rows
  }

  class Table {
    var rows: map<string, Row>

    constructor ()
      ensures rows == map[]
    {
      rows := map[];
    }

    method SetBatchJobQueuedAction(id: string, currentVersion: int, newAction: Action) returns (ok: bool)
      modifies this
      ensures ok == Selects(old(rows), id, currentVersion)
      ensures rows == After(old(rows), id, currentVersion, QueuedAction(newAction))
    {
      ok := id in rows && rows[id].version == currentVersion;
      if ok {
        rows := rows[id := rows[id].(state := Queued, action := newAction, version := currentVersion + 1)];
      }
    }

    method SetBatchJobState(id: string, currentVersion: int, newState: State) returns (ok: bool)
      modifies this
      ensures ok == Selects(old(rows), id, currentVersion)
      ensures rows == After(old(rows), id, currentVersion, OnlyState(newState))
    {
      ok := id in rows && rows[id].version == currentVersion;
      if ok {
        rows := rows[id := rows[id].(state := newState, action := NoAction, version := currentVersion + 1)];
      }
    }

    method SetNonQueuedBatchJobStateAndMessage(id: string, currentVersion: int, newState: State, message: Message)
      returns (ok: bool)
      modifies this
      ensures ok == Selects(old(rows), id, currentVersion)
      ensures rows == After(old(rows), id, currentVersion, NonQueued(newState, message))
    {
      ok := id in rows && rows[id].version == currentVersion;
      if ok {
        rows := rows[id := rows[id].(state := newState, action := NoAction, message := message,
            version := currentVersion + 1)];
      }
    }
  }

  /** `Unspecified` is the zero value of the enum, or a number it does not name: both are refused alike. */
  datatype Reported = Unspecified | Is(state: State)

  datatype Op = Cancel | Delete | Report(state: Reported, reason: string, message: string)

  datatype Decision = Write(update: Update) | Accept | Refuse(code: Code)

  /** Guards are as written: `state != queued && action != ...` refuses, anything else passes. */
  function DecideReport(s: Reported, reason: string, message: string, r: Row, now: Time): Decision {
    var finished := r.message.(finishedAt := now);
    if s == Is(r.state) then Accept
    else match s
      case Unspecified => Refuse(InvalidArgument)
      case Is(Running) =>
        if r.state != Queued && r.action != Creating then Refuse(FailedPrecondition) else Write(OnlyState(Running))
      case Is(Succeeded) =>
        if r.state != Running then Refuse(FailedPrecondition) else Write(NonQueued(Succeeded, finished))
      case Is(Canceled) =>
        if r.state != Queued && r.action != Canceling then Refuse(FailedPrecondition)
        else Write(NonQueued(Canceled, finished))
      case Is(Deleted) =>
        if r.state != Queued && r.action != Deleting then Refuse(FailedPrecondition)
        else Write(NonQueued(Deleted, finished))
      case Is(Failed) => Write(NonQueued(Failed, finished.(error := Some((reason, message)))))
      case Is(Queued) => Refuse(FailedPrecondition)
  }

  /** Users see only rows that are not deleted. */
  function Decide(op: Op, r: Row, now: Time): Decision {
    match op
    case Cancel =>
      if r.state == Deleted then Refuse(NotFound)
      else if r.state == Running || (r.state == Queued && r.action != Canceling) then Write(QueuedAction(Canceling))
      else Accept
    case Delete =>
      if r.state == Deleted then Refuse(NotFound)
      else if r.state == Queued && r.action == Deleting then Accept
      else Write(QueuedAction(Deleting))
    case Report(s, reason, message) => DecideReport(s, reason, message, r, now)
  }

  datatype Request = Request(op: Op, now: Time)

  predicate Writes(q: Request, s: Row) {
    Decide(q.op, s, q.now).Write?
  }

  function Updated(q: Request, s: Row, r: Row): Row {
    var d := Decide(q.op, s, q.now);
    if d.Write? then Apply(r, d.update) else r.(version := r.version + 1)
  }

  const BATCHES: Occ.Table<Row, Request> := Occ.Table(Writes, Updated, (r: Row) => r.version)

  predicate IsCreated(r: Row) {
    r.state == Queued && r.action == Creating && r.message == Message(0, None) && r.version == 0
  }

  predicate Visible(c: Caller, r: Row) {
    match c
    case User(p) => r.projectId == p
    case Worker(t) => r.tenantId == t
  }

  function Answer(rows: map<string, Row>, id: string, c: Caller, q: Request): Response {
    if id == "" then Refused(InvalidArgument)
    else if id !in rows || !Visible(c, rows[id]) then Refused(NotFound)
    else match Decide(q.op, rows[id], q.now)
      case Refuse(code) => Refused(code)
      case _ => Done
  }

  function Served(rows: map<string, Row>, id: string, c: Caller, q: Request): map<string, Row> {
    if id == "" || id !in rows || !Visible(c, rows[id]) then rows else Occ.Alone(BATCHES, rows, id, q)
  }

  class Server {
    const store: Table

    constructor (store: Table)
      ensures this.store == store
    {
      this.store := store;
    }

    method DeleteBatchJob(id: string, projectId: string, now: Time) returns (r: Response)
      modifies store
      ensures r == Answer(old(store.rows), id, User(projectId), Request(Delete, now))
      ensures store.rows == Served(old(store.rows), id, User(projectId), Request(Delete, now))
    {
      if id == "" { return Refused(InvalidArgument); }
      if id !in store.rows || store.rows[id].projectId != projectId || store.rows[id].state == Deleted {
        return Refused(NotFound);
      }
      var job := store.rows[id];
      if job.state == Deleted || (job.state == Queued && job.action == Deleting) { return Done; }
      var ok := store.SetBatchJobQueuedAction(id, job.version, Deleting);
      if !ok { return Refused(Internal); }
      return Done;
    }

    method CancelBatchJob(id: string, projectId: string, now: Time) returns (r: Response)
      modifies store
      ensures r == Answer(old(store.rows), id, User(projectId), Request(Cancel, now))
      ensures store.rows == Served(old(store.rows), id, User(projectId), Request(Cancel, now))
    {
      if id == "" { return Refused(InvalidArgument); }
      if id !in store.rows || store.rows[id].projectId != projectId || store.rows[id].state == Deleted {
        return Refused(NotFound);
      }
      var job := store.rows[id];
      match job.state {
        case Failed | Canceled | Succeeded | Deleted => return Done;
        case Running =>
        case Queued =>
          if job.action == Canceling { return Done; }
      }
      var ok := store.SetBatchJobQueuedAction(id, job.version, Canceling);
      if !ok { return Refused(Internal); }
      return Done;
    }

    method UpdateBatchJobState(
        id: string, tenantId: string, state: Reported, reason: string, message: string, now: Time)
      returns (r: Response)
      modifies store
      ensures r == Answer(old(store.rows), id,
              Worker(tenantId), Request(Report(state, reason, message), now))
      ensures store.rows == Served(old(store.rows), id, Worker(tenantId),
                                   Request(Report(state, reason, message), now))
    {
      if id == "" { return Refused(InvalidArgument); }
      if id !in store.rows || store.rows[id].tenantId != tenantId { return Refused(NotFound); }
      var job := store.rows[id];
      if state == Is(job.state) { return Done; }
      if state == Unspecified { return Refused(InvalidArgument); }
      var ok := true;
      match state.state {
        case Running =>
          if job.state != Queued && job.action != Creating { return Refused(FailedPrecondition); }
          ok := store.SetBatchJobState(id, job.version, Running);
          if !ok { return Refused(Internal); }
          return Done;
        case Succeeded =>
          if job.state != Running { return Refused(FailedPrecondition); }
          job := job.(message := job.message.(finishedAt := now));
        case Canceled =>
          if job.state != Queued && job.action != Canceling { return Refused(FailedPrecondition); }
          job := job.(message := job.message.(finishedAt := now));
        case Deleted =>
          if job.state != Queued && job.action != Deleting { return Refused(FailedPrecondition); }
          job := job.(message := job.message.(finishedAt := now));
        case Failed =>
          job := job.(message := job.message.(finishedAt := now, error := Some((reason, message))));
        case Queued => return Refused(FailedPrecondition);
      }
      ok := store.SetNonQueuedBatchJobStateAndMessage(id, job.version, state.state, job.message);
      if !ok { return Refused(Internal); }
      return Done;
    }
  }
}

/** What holds of batch rows in every interleaving of the handlers. */
module BatchLifecycle {
  import opened Common
  import opened Batches
  import Occ

  type Event = Occ.Event<Row, Request>
  type Db = Occ.State<Row, Request>

  predicate LegalPair(s: State, a: Action) {
    (s == Queued) == (a != NoAction)
  }

  predicate RowOk(r: Row) {
    && LegalPair(r.state, r.action)
    && (r.state != Queued && r.state != Running ==> r.message.finishedAt > 0)
  }

  lemma TableBumpsVersion()
    ensures Occ.BumpsVersion(BATCHES)
  {
    forall q, s, r
      ensures BATCHES.version(BATCHES.updated(q, s, r)) == BATCHES.version(r) + 1
    {
      assert BATCHES.updated(q, s, r) == Updated(q, s, r);
    }
  }

  lemma RowOkKept(q: Request, r: Row)
    requires RowOk(r) && Writes(q, r)
    ensures RowOk(Updated(q, r, r))
  {
  }

  /** In every interleaving: legal pairs, and every succeeded, failed, canceled or deleted job has FinishedAt. */
  lemma {:induction false} EveryRowOk(es: seq<Event>, id: string)
    requires forall e <- es :: e.Insert? ==> IsCreated(e.row)
    requires id in Occ.Run(BATCHES, Occ.Start(map[]), es).rows
    ensures RowOk(Occ.Run(BATCHES, Occ.Start(map[]), es).rows[id])
  {
    TableBumpsVersion();
    forall q, r | RowOk(r) && BATCHES.writes(q, r)
      ensures RowOk(BATCHES.updated(q, r, r))
    {
      RowOkKept(q, r);
    }
    Occ.Lift(BATCHES, Occ.Start(map[]), es, RowOk);
  }

  ghost predicate ReachesPair(es: seq<Event>, id: string, s: State, a: Action) {
    && (forall e <- es :: e.Insert? ==> IsCreated(e.row))
    && var rows := Occ.Run(BATCHES, Occ.Start(map[]), es).rows;
       id in rows && rows[id].state == s && rows[id].action == a
  }

  function Newborn(): Row {
    Row("t", "p", "c", Message(0, None), Queued, Creating, 0)
  }

  function ReportIs(s: State, now: Time): Request {
    Request(Report(Is(s), "", ""), now)
  }

  /** Requests that take a new job to a pair. */
  function Toward(s: State, a: Action): seq<Request> {
    match s
    case Queued => if a == Creating then [] else if a == Canceling then [Request(Cancel, 1)] else [Request(Delete, 1)]
    case Succeeded => [ReportIs(Running, 1), ReportIs(Succeeded, 2)]
    case _ => [ReportIs(s, 1)]
  }

  lemma TowardWorks(s: State, a: Action)
    requires LegalPair(s, a)
    ensures var r := Occ.Chain(BATCHES, Newborn(), Toward(s, a)); r.state == s && r.action == a
  {
    var qs := Toward(s, a);
    assert Occ.Chain(BATCHES, Newborn(), []) == Newborn();
    if s == Succeeded {
      assert qs[..1] == [ReportIs(Running, 1)] && qs[..1][..0] == [];
      assert Occ.Chain(BATCHES, Newborn(), qs[..1]).state == Running;
    } else if qs != [] {
      assert qs[..0] == [];
    }
  }

  /** The pairs that occur are exactly: queued with an action, any other state without. */
  lemma PairsExactly(s: State, a: Action)
    ensures LegalPair(s, a) <==> exists es: seq<Event>, id: string :: ReachesPair(es, id, s, a)
  {
    if LegalPair(s, a) {
      TowardWorks(s, a);
      Occ.SeriallyReaches(BATCHES, "j", Newborn(), Toward(s, a));
      assert ReachesPair(Occ.Serially("j", Newborn(), Toward(s, a)), "j", s, a);
    }
    if es, id :| ReachesPair(es, id, s, a) {
      EveryRowOk(es, id);
    }
  }

  /** In every reachable state the guards for RUNNING, CANCELED and DELETED accept exactly the queued rows,
      whatever action is queued. */
  lemma {:induction false} GuardsAcceptExactlyQueued(es: seq<Event>, id: string, s: State, now: Time)
    requires forall e <- es :: e.Insert? ==> IsCreated(e.row)
    requires id in Occ.Run(BATCHES, Occ.Start(map[]), es).rows
    requires s == Running || s == Canceled || s == Deleted
    ensures var r := Occ.Run(BATCHES, Occ.Start(map[]), es).rows[id]; Writes(ReportIs(s, now), r) <==> r.state == Queued
  {
    EveryRowOk(es, id);
  }

  /** A request of the user that is queued on a row. */
  function Pending(a: Action): Op
    requires a == Canceling || a == Deleting
  {
    if a == Canceling then Cancel else Delete
  }

  /** The run of a lost request: a user cancels or deletes a new job after the dispatcher has listed it, and
      the dispatcher's RUNNING report lands last. */
  lemma LateRunningWins(a: Action)
    requires a == Canceling || a == Deleting
    ensures var qs := [Request(Pending(a), 1), ReportIs(Running, 2)];
            var es := Occ.Serially("j", Newborn(), qs);
            && ReachesPair(Occ.Serially("j", Newborn(), qs[..1]), "j", Queued, a)
            && ReachesPair(es, "j", Running, NoAction)
  {
    var qs := [Request(Pending(a), 1), ReportIs(Running, 2)];
    assert qs[..1][..0] == [] && qs[..1] == [Request(Pending(a), 1)];
    assert Occ.Chain(BATCHES, Newborn(), []) == Newborn();
    assert Occ.Chain(BATCHES, Newborn(), qs[..1]).action == a;
    Occ.SeriallyReaches(BATCHES, "j", Newborn(), qs);
    Occ.SeriallyReaches(BATCHES, "j", Newborn(), qs[..1]);
  }

  /** The cancel the user asked for is still queued, or the job is over without having succeeded. */
  predicate CancelStands(r: Row) {
    (r.state == Queued && r.action == Canceling) || r.state == Canceled || r.state == Failed || r.state == Deleted
  }

  /** In any interleaving a pending cancel is lost exactly when a delete by the user or a RUNNING report lands on it. */
  lemma CancelLostExactly(s: Db, e: Event, id: string)
    requires Occ.Snapshots(BATCHES, s) && id in s.rows && s.rows[id].state == Queued && s.rows[id].action == Canceling
    ensures id in Occ.Step(BATCHES, s, e).rows
    ensures !CancelStands(Occ.Step(BATCHES, s, e).rows[id]) <==>
            exists q <- Occ.Lands(BATCHES, s, e, id) :: q.op.Delete? || (q.op.Report? && q.op.state == Is(Running))
  {
    TableBumpsVersion();
    Occ.StepIsSerial(BATCHES, s, e, id);
    forall q <- Occ.Lands(BATCHES, s, e, id)
      ensures CancelStands(Updated(q, s.rows[id], s.rows[id])) <==>
              !(q.op.Delete? || (q.op.Report? && q.op.state == Is(Running)))
    {
    }
  }

  predicate DeleteStands(r: Row) {
    (r.state == Queued && r.action == Deleting) || r.state == Deleted
  }

  /** A cancel by the user, or a report of running, canceled or failed. */
  predicate Overrides(q: Request) {
    || q.op.Cancel?
    || (q.op.Report? && (q.op.state == Is(Running) || q.op.state == Is(Canceled) || q.op.state == Is(Failed)))
  }

  lemma DeleteKept(q: Request, r: Row)
    requires r.state == Queued && r.action == Deleting && Writes(q, r)
    ensures DeleteStands(Updated(q, r, r)) <==> !Overrides(q)
  {
  }

  /** In any interleaving a pending delete is lost exactly when such a request lands on it. */
  lemma DeleteLostExactly(s: Db, e: Event, id: string)
    requires Occ.Snapshots(BATCHES, s) && id in s.rows && s.rows[id].state == Queued && s.rows[id].action == Deleting
    ensures id in Occ.Step(BATCHES, s, e).rows
    ensures !DeleteStands(Occ.Step(BATCHES, s, e).rows[id]) <==>
        exists q <- Occ.Lands(BATCHES, s, e, id) :: Overrides(q)
  {
    TableBumpsVersion();
    Occ.StepIsSerial(BATCHES, s, e, id);
    forall q <- Occ.Lands(BATCHES, s, e, id)
      ensures DeleteStands(Updated(q, s.rows[id], s.rows[id])) <==> !Overrides(q)
    {
      DeleteKept(q, s.rows[id]);
    }
  }

  lemma DeletedRevived(q: Request, r: Row)
    requires RowOk(r) && r.state == Deleted && Writes(q, r)
    ensures Updated(q, r, r).state != Deleted <==> q.op.Report? && q.op.state == Is(Failed)
  {
  }

  /** In every interleaving a deleted job comes back exactly when a FAILED report lands on it, which no guard stops. */
  lemma {:induction false} DeletedRevivedExactly(es: seq<Event>, e: Event, id: string)
    requires forall x <- es :: x.Insert? ==> IsCreated(x.row)
    requires id in Occ.Run(BATCHES, Occ.Start(map[]), es).rows
    requires Occ.Run(BATCHES, Occ.Start(map[]), es).rows[id].state == Deleted
    ensures var s := Occ.Run(BATCHES, Occ.Start(map[]), es);
            && id in Occ.Step(BATCHES, s, e).rows
            && (Occ.Step(BATCHES, s, e).rows[id].state != Deleted <==>
                exists q <- Occ.Lands(BATCHES, s, e, id) :: q.op.Report? && q.op.state == Is(Failed))
  {
    var s := Occ.Run(BATCHES, Occ.Start(map[]), es);
    EveryRowOk(es, id);
    TableBumpsVersion();
    Occ.SnapshotsAlways(BATCHES, Occ.Start(map[]), es);
    Occ.StepIsSerial(BATCHES, s, e, id);
    forall q <- Occ.Lands(BATCHES, s, e, id)
      ensures Updated(q, s.rows[id], s.rows[id]).state != Deleted <==> q.op.Report? && q.op.state == Is(Failed)
    {
      DeletedRevived(q, s.rows[id]);
    }
  }

  /** And there is such a run. */
  lemma LateFailureRevives()
    ensures var qs := [ReportIs(Deleted, 1), ReportIs(Failed, 2)];
            && ReachesPair(Occ.Serially("j", Newborn(), qs[..1]), "j", Deleted, NoAction)
            && ReachesPair(Occ.Serially("j", Newborn(), qs), "j", Failed, NoAction)
  {
    var qs := [ReportIs(Deleted, 1), ReportIs(Failed, 2)];
    assert qs[..1][..0] == [] && qs[..1] == [ReportIs(Deleted, 1)];
    assert Occ.Chain(BATCHES, Newborn(), []) == Newborn();
    assert Occ.Chain(BATCHES, Newborn(), qs[..1]).state == Deleted;
    Occ.SeriallyReaches(BATCHES, "j", Newborn(), qs);
    Occ.SeriallyReaches(BATCHES, "j", Newborn(), qs[..1]);
  }

  /** The dispatcher's "unknown queued action" branch never fires: what a listing of queued jobs returns has one of the
      three actions it knows. */
  lemma {:induction false} ListedIsKnown(es: seq<Event>, id: string)
    requires forall e <- es :: e.Insert? ==> IsCreated(e.row)
    requires id in Occ.Run(BATCHES, Occ.Start(map[]), es).rows
    requires Occ.Run(BATCHES, Occ.Start(map[]), es).rows[id].state == Queued
    ensures Occ.Run(BATCHES, Occ.Start(map[]), es).rows[id].action in {Creating, Canceling, Deleting}
  {
    EveryRowOk(es, id);
  }
}
