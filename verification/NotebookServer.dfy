/** The handlers that change notebook rows (server/internal/server/notebooks.go and rescheduler.go). */
module NotebookServer {
  import opened Common
  import opened NotebookStore
  import Occ

  /** States a worker can name in a report; `Unspecified` is the zero value of the enum, or a number it
      does not name: both are refused alike. */
  datatype Reported = Unspecified | Is(state: State)

  /** What handlers do to a row they have read. */
  datatype Op =
    | Stop
    | Start
    | Delete
    | Report(state: Reported, reason: string)
    | Requeue(maxQueued: nat)                            // first loop of the rescheduler
    | Reschedule(clusterId: string, namespace: string)   // second loop, with the scheduler's choice

  datatype Decision = Write(update: Update) | Accept | Refuse(code: Code)

  function DecideReport(s: Reported, reason: string, r: Row, now: Time): Decision {
    if s == Is(r.state) then Accept
    else match s
      case Unspecified => Refuse(InvalidArgument)
      case Is(Initializing) =>
        if r.state != Queued || r.action != Starting then Refuse(FailedPrecondition)
        else Write(NonQueued(Initializing, r.message.(
          startedAt := if r.message.startedAt == 0 then now else r.message.startedAt, stoppedAt := 0), reason))
      case Is(Running) =>
        if r.state == Queued && r.action == Requeueing then Accept
        else if r.state != Initializing then Refuse(FailedPrecondition)
        else Write(OnlyState(Running))
      case Is(Stopped) =>
        if r.state != Queued || r.action != Stopping then Refuse(FailedPrecondition)
        else Write(NonQueued(Stopped, r.message.(startedAt := 0, stoppedAt := now), reason))
      case Is(Deleted) =>
        if r.state != Queued || r.action != Deleting then Refuse(FailedPrecondition)
        else Write(NonQueued(Deleted, r.message.(
          startedAt := 0, stoppedAt := if r.message.stoppedAt == 0 then now else r.message.stoppedAt), reason))
      case Is(Requeued) =>
        if r.state != Queued || r.action != Requeueing then Refuse(FailedPrecondition)
        else Write(ForRescheduling(r.clusterId, Requeued, r.action, r.message, ""))
      case Is(Queued) => Refuse(FailedPrecondition)
      case Is(Failed) => Refuse(FailedPrecondition)
  }

  /** What a handler answers or writes, given the row it read. */
  function Decide(op: Op, r: Row, now: Time): Decision {
    match op
    case Stop =>
      (match r.state
       case Failed => Accept
       case Stopped => Accept
       case Deleted => Refuse(Internal)
       case Queued => if r.action == Stopping || r.action == Deleting then Accept else Write(QueuedAction(Stopping))
       case _ => Write(QueuedAction(Stopping)))
    case Start =>
      (match r.state
       case Stopped => Write(QueuedAction(Starting))
       case Deleted => Refuse(Internal)
       case Queued => if r.action == Starting || r.action == Deleting then Accept else Write(QueuedAction(Starting))
       case _ => Accept)
    case Delete => if r.action == Deleting then Accept else Write(QueuedAction(Deleting))
    case Report(s, reason) => DecideReport(s, reason, r, now)
    case Requeue(maxQueued) =>
      if r.state == Initializing && !Contains(r.reason, PULLING) && r.updatedAt + maxQueued < now
      then Write(ForRescheduling(r.clusterId, Queued, Requeueing, r.message, r.reason))
      else Accept
    case Reschedule(clusterId, namespace) =>
      if r.state == Requeued && Placement(r.envs, r.clusterId, clusterId, namespace)
      then Write(ForRescheduling(clusterId, Queued, Starting,
                                 r.message.(clusterId := clusterId, namespace := namespace), ""))
      else Accept
  }

  /** A request: an operation and the time its handler runs. */
  datatype Request = Request(op: Op, now: Time)

  predicate Writes(q: Request, s: Row) {
    Decide(q.op, s, q.now).Write?
  }

  function Updated(q: Request, s: Row, r: Row): Row {
    var d := Decide(q.op, s, q.now);
    if d.Write? then Apply(r, d.update, q.now) else r.(version := r.version + 1)
  }

  /** The notebook table as an instance of the versioned table. */
  const NOTEBOOKS: Occ.Table<Row, Request> := Occ.Table(Writes, Updated, (r: Row) => r.version)

  /** The row CreateNotebook inserts. */
  function Created(tenantId: string, projectId: string, envs: seq<Env>, clusterId: string, namespace: string,
                   gpuCount: int, now: Time): Row {
    Row(tenantId, projectId, envs, clusterId, Message(clusterId, namespace, gpuCount, 0, 0),
        Queued, Starting, "", now, 0)
  }

  predicate Visible(c: Caller, r: Row) {
    match c
    case User(p) => r.projectId == p
    case Worker(t) => r.tenantId == t
  }

  /** The answer of a handler that nothing interrupts. */
  function Answer(rows: map<string, Row>, id: string, c: Caller, q: Request): Response {
    if id == "" then Refused(InvalidArgument)
    else if id !in rows || !Visible(c, rows[id]) then Refused(NotFound)
    else match Decide(q.op, rows[id], q.now)
      case Refuse(code) => Refused(code)
      case _ => Done
  }

  /** The table after a handler that nothing interrupts. */
  function Served(rows: map<string, Row>, id: string, c: Caller, q: Request): map<string, Row> {
    if id == "" || id !in rows || !Visible(c, rows[id]) then rows else Occ.Alone(NOTEBOOKS, rows, id, q)
  }

  /** First loop of the rescheduler, on one row. */
  function TimedOut(r: Row, maxQueued: nat, now: Time): Row {
    var q := Request(Requeue(maxQueued), now);
    if Writes(q, r) then Updated(q, r, r) else r
  }

  /** Second loop, on one row; `place` is where scheduleNotebook puts it, if anywhere. */
  function Moved(r: Row, place: Option<Env>, now: Time): Row {
    if place.None? then r
    else
      var q := Request(Reschedule(place.value.clusterId, place.value.namespace), now);
      if Writes(q, r) then Updated(q, r, r) else r
  }

  class Server {
    const store: Table

    constructor (store: Table)
      ensures this.store == store
    {
      this.store := store;
    }

    method StopNotebook(id: string, projectId: string, now: Time) returns (r: Response)
      modifies store
      ensures r == Answer(old(store.rows), id, User(projectId), Request(Stop, now))
      ensures store.rows == Served(old(store.rows), id, User(projectId), Request(Stop, now))
    {
      if id == "" { return Refused(InvalidArgument); }
      if id !in store.rows || store.rows[id].projectId != projectId { return Refused(NotFound); }
      var nb := store.rows[id];
      match nb.state {
        case Failed | Stopped => return Done;
        case Initializing | Running | Requeued =>
        case Queued =>
          if nb.action == Stopping || nb.action == Deleting { return Done; }
        case Deleted => return Refused(Internal);
      }
      var ok := store.SetNotebookQueuedAction(id, nb.version, Stopping, now);
      if !ok { return Refused(Internal); }
      return Done;
    }

    method StartNotebook(id: string, projectId: string, now: Time) returns (r: Response)
      modifies store
      ensures r == Answer(old(store.rows), id, User(projectId), Request(Start, now))
      ensures store.rows == Served(old(store.rows), id, User(projectId), Request(Start, now))
    {
      if id == "" { return Refused(InvalidArgument); }
      if id !in store.rows || store.rows[id].projectId != projectId { return Refused(NotFound); }
      var nb := store.rows[id];
      match nb.state {
        case Failed | Initializing | Running | Requeued => return Done;
        case Stopped =>
        case Queued =>
          if nb.action == Starting || nb.action == Deleting { return Done; }
        case Deleted => return Refused(Internal);
      }
      var ok := store.SetNotebookQueuedAction(id, nb.version, Starting, now);
      if !ok { return Refused(Internal); }
      return Done;
    }

    method DeleteNotebook(id: string, projectId: string, now: Time) returns (r: Response)
      modifies store
      ensures r == Answer(old(store.rows), id, User(projectId), Request(Delete, now))
      ensures store.rows == Served(old(store.rows), id, User(projectId), Request(Delete, now))
    {
      if id == "" { return Refused(InvalidArgument); }
      if id !in store.rows || store.rows[id].projectId != projectId { return Refused(NotFound); }
      var nb := store.rows[id];
      if nb.action != Deleting {
        var ok := store.SetNotebookQueuedAction(id, nb.version, Deleting, now);
        if !ok { return Refused(Internal); }
      }
      return Done;
    }

    method UpdateNotebookState(id: string, tenantId: string, state: Reported, reason: string, now: Time)
      returns (r: Response)
      modifies store
      ensures r == Answer(old(store.rows), id, Worker(tenantId), Request(Report(state, reason), now))
      ensures store.rows == Served(old(store.rows), id, Worker(tenantId), Request(Report(state, reason), now))
    {
      if id == "" { return Refused(InvalidArgument); }
      if id !in store.rows || store.rows[id].tenantId != tenantId { return Refused(NotFound); }
      var nb := store.rows[id];
      if state == Is(nb.state) { return Done; }
      if state == Unspecified { return Refused(InvalidArgument); }
      var ok := true;
      match state.state {
        case Initializing =>
          if nb.state != Queued { return Refused(FailedPrecondition); }
          if nb.action != Starting { return Refused(FailedPrecondition); }
          var m := nb.message;
          if m.startedAt == 0 { m := m.(startedAt := now); }
          m := m.(stoppedAt := 0);
          ok := store.SetNonQueuedStateAndMessage(id, nb.version, Initializing, m, reason, now);
        case Running =>
          if nb.state == Queued && nb.action == Requeueing { return Done; }
          if nb.state != Initializing { return Refused(FailedPrecondition); }
          ok := store.SetState(id, nb.version, Running, now);
        case Stopped =>
          if nb.state != Queued { return Refused(FailedPrecondition); }
          if nb.action != Stopping { return Refused(FailedPrecondition); }
          ok := store.SetNonQueuedStateAndMessage(
            id, nb.version, Stopped, nb.message.(startedAt := 0, stoppedAt := now), reason, now);
        case Deleted =>
          if nb.state != Queued { return Refused(FailedPrecondition); }
          if nb.action != Deleting { return Refused(FailedPrecondition); }
          var m := nb.message.(startedAt := 0);
          if m.stoppedAt == 0 { m := m.(stoppedAt := now); }
          ok := store.SetNonQueuedStateAndMessage(id, nb.version, Deleted, m, reason, now);
        case Requeued =>
          if nb.state != Queued { return Refused(FailedPrecondition); }
          if nb.action != Requeueing { return Refused(FailedPrecondition); }
          nb := nb.(state := Requeued, reason := "");
          ok := store.UpdateNotebookForRescheduling(id, nb, now);
        case Queued | Failed => return Refused(FailedPrecondition);
      }
      if !ok { return Refused(Internal); }
      return Done;
    }
  }
}
