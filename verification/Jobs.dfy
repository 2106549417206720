/** Fine-tuning jobs: the table (server/internal/store/job.go) and the handlers that change it
(server/internal/server/fine_tuning.go). */
module Jobs {
  import opened Common
  import Occ

  datatype State = Queued | Running | Failed | Succeeded | Canceled

  datatype Action = NoAction | Creating | Canceling

  datatype Message = Message(finishedAt: nat, fineTunedModel: string, error: Option<string>)

  datatype Row = Row(
    tenantId: string, projectId: string, clusterId: string, message: Message,
    state: State, action: Action, outputModelId: string, version: nat)

  /** The columns an update names, besides the version. */
  datatype Update =
    | StateAndAction(state: State, action: Action)
    | StateAndMessage(state: State, message: Message)
    | OutputModel(id: string)

  function Apply(r: Row, u: Update): Row {
    var r := r.(version := r.version + 1);
    match u
    case StateAndAction(state, action) => r.(state := state, action := action)
    case StateAndMessage(state, message) => r.(state := state, action := NoAction, message := message)
    case OutputModel(id) => r.(outputModelId := id)
  }

  predicate Selects(rows: map<string, Row>, id: string, version: int) {
    id in rows && rows[id].version == version
  }

  function After(rows: map<string, Row>, id: string, version: int, u: Update): map<string, Row> {
    if Selects(rows, id, version) then rows[id := Apply(rows[id], u)] else rows
  }

  class Table {
    var rows: map<string, Row>

    constructor ()
      ensures rows == map[]
    {
      rows := map[];
    }

    method UpdateJobState(id: string, currentVersion: int, newState: State, newAction: Action) returns (ok: bool)
      modifies this
      ensures ok == Selects(old(rows), id, currentVersion)
      ensures rows == After(old(rows), id, currentVersion, StateAndAction(newState, newAction))
    {
      ok := id in rows && rows[id].version == currentVersion;
      if ok {
        rows := rows[id := rows[id].(state := newState, action := newAction, version := currentVersion + 1)];
      }
    }

    method UpdateJobStateAndMessage(id: string, currentVersion: int, newState: State, message: Message)
      returns (ok: bool)
      modifies this
      ensures ok == Selects(old(rows), id, currentVersion)
      ensures rows == After(old(rows), id, currentVersion, StateAndMessage(newState, message))
    {
      ok := id in rows && rows[id].version == currentVersion;
      if ok {
        rows := rows[id := rows[id].(state := newState, action := NoAction, message := message,
            version := currentVersion + 1)];
      }
    }

    method UpdateOutputModelID(id: string, currentVersion: int, outputModelId: string) returns (ok: bool)
      modifies this
      ensures ok == Selects(old(rows), id, currentVersion)
      ensures rows == After(old(rows), id, currentVersion, OutputModel(outputModelId))
    {
      ok := id in rows && rows[id].version == currentVersion;
      if ok {
        rows := rows[id := rows[id].(outputModelId := outputModelId, version := currentVersion + 1)];
      }
    }
  }

  /** `Unknown` is any number the enum does not name. */
  datatype Phase =
    | Unspecified
    | Unknown
    | Preprocessed(modelId: string)
    | JobCreated
    | Finetuned(modelId: string)
    | IsCanceled
    | IsFailed(message: string)
    | Recreate

  datatype Op = Cancel | Update(phase: Phase)

  datatype Decision = Write(update: Update) | Accept | Refuse(code: Code)

  function Decide(op: Op, r: Row, now: Time): Decision {
    match op
    case Cancel =>
      if r.state == Running || (r.state == Queued && r.action != Canceling)
      then Write(StateAndAction(Queued, Canceling))
      else Accept
    case Update(phase) =>
      match phase
      case Unspecified => Refuse(InvalidArgument)
      case Unknown => Refuse(Internal)
      case Preprocessed(modelId) =>
        if r.state != Queued then Refuse(FailedPrecondition)
        else if modelId == "" then Refuse(InvalidArgument)
        else Write(OutputModel(modelId))
      case JobCreated =>
        if r.state != Queued then Refuse(FailedPrecondition) else Write(StateAndAction(Running, NoAction))
      case Finetuned(modelId) =>
        if r.state != Running then Refuse(FailedPrecondition)
        else if modelId == "" then Refuse(InvalidArgument)
        else Write(StateAndMessage(Succeeded, r.message.(finishedAt := now, fineTunedModel := modelId)))
      case IsCanceled => Write(StateAndMessage(Canceled, r.message.(finishedAt := now)))
      case IsFailed(message) => Write(StateAndMessage(Failed, r.message.(finishedAt := now, error := Some(message))))
      case Recreate =>
        if r.state != Running then Refuse(FailedPrecondition) else Write(StateAndAction(Queued, Creating))
  }

  datatype Request = Request(op: Op, now: Time)

  predicate Writes(q: Request, s: Row) {
    Decide(q.op, s, q.now).Write?
  }

  function Updated(q: Request, s: Row, r: Row): Row {
    var d := Decide(q.op, s, q.now);
    if d.Write? then Apply(r, d.update) else r.(version := r.version + 1)
  }

  const JOBS: Occ.Table<Row, Request> := Occ.Table(Writes, Updated, (r: Row) => r.version)

  predicate IsCreated(r: Row) {
    r.state == Queued && r.action == Creating && r.message == Message(0, "", None) && r.outputModelId == ""
        && r.version == 0
  }

  predicate Visible(c: Caller, r: Row) {
    match c
    case User(p) => r.projectId == p
    case Worker(t) => r.tenantId == t
  }

  /** The answer and the table of a handler that nothing interrupts. */
  function Answer(rows: map<string, Row>, id: string, c: Caller, q: Request): Response {
    if id == "" then Refused(InvalidArgument)
    else if id !in rows || !Visible(c, rows[id]) then Refused(NotFound)
    else match Decide(q.op, rows[id], q.now)
      case Refuse(code) => Refused(code)
      case _ => Done
  }

  function Served(rows: map<string, Row>, id: string, c: Caller, q: Request): map<string, Row> {
    if id == "" || id !in rows || !Visible(c, rows[id]) then rows else Occ.Alone(JOBS, rows, id, q)
  }

  class Server {
    const store: Table

    constructor (store: Table)
      ensures this.store == store
    {
      this.store := store;
    }

    method CancelJob(id: string, projectId: string, now: Time) returns (r: Response)
      modifies store
      ensures r == Answer(old(store.rows), id, User(projectId), Request(Cancel, now))
      ensures store.rows == Served(old(store.rows), id, User(projectId), Request(Cancel, now))
    {
      if id == "" { return Refused(InvalidArgument); }
      if id !in store.rows || store.rows[id].projectId != projectId { return Refused(NotFound); }
      var job := store.rows[id];
      match job.state {
        case Succeeded | Failed | Canceled => return Done;
        case Running =>
        case Queued =>
          if job.action == Canceling { return Done; }
      }
      var ok := store.UpdateJobState(id, job.version, Queued, Canceling);
      if !ok { return Refused(Internal); }
      return Done;
    }

    method UpdateJobPhase(id: string, tenantId: string, phase: Phase, now: Time) returns (r: Response)
      modifies store
      ensures r == Answer(old(store.rows), id, Worker(tenantId), Request(Update(phase), now))
      ensures store.rows == Served(old(store.rows), id,
              Worker(tenantId), Request(Update(phase), now))
    {
      if id == "" { return Refused(InvalidArgument); }
      if id !in store.rows || store.rows[id].tenantId != tenantId { return Refused(NotFound); }
      var job := store.rows[id];
      var ok := true;
      match phase {
        case Unspecified => return Refused(InvalidArgument);
        case Unknown => return Refused(Internal);
        case Preprocessed(modelId) =>
          if job.state != Queued { return Refused(FailedPrecondition); }
          if modelId == "" { return Refused(InvalidArgument); }
          ok := store.UpdateOutputModelID(id, job.version, modelId);
        case JobCreated =>
          if job.state != Queued { return Refused(FailedPrecondition); }
          ok := store.UpdateJobState(id, job.version, Running, NoAction);
        case Finetuned(modelId) =>
          if job.state != Running { return Refused(FailedPrecondition); }
          if modelId == "" { return Refused(InvalidArgument); }
          ok := store.UpdateJobStateAndMessage(id, job.version, Succeeded,
                                               job.message.(finishedAt := now, fineTunedModel := modelId));
        case IsCanceled =>
          ok := store.UpdateJobStateAndMessage(id, job.version, Canceled, job.message.(finishedAt := now));
        case IsFailed(message) =>
          ok := store.UpdateJobStateAndMessage(id, job.version, Failed,
                                               job.message.(finishedAt := now, error := Some(message)));
        case Recreate =>
          if job.state != Running { return Refused(FailedPrecondition); }
          ok := store.UpdateJobState(id, job.version, Queued, Creating);
      }
      if !ok { return Refused(Internal); }
      return Done;
    }
  }
}

/** What holds of fine-tuning rows in every interleaving of the handlers. */
module JobLifecycle {
  import opened Common
  import opened Jobs
  import Occ

  type Event = Occ.Event<Row, Request>
  type Db = Occ.State<Row, Request>

  predicate Finished(s: State) {
    s == Succeeded || s == Failed || s == Canceled
  }

  predicate LegalPair(s: State, a: Action) {
    (s == Queued) == (a != NoAction)
  }

  predicate RowOk(r: Row) {
    && LegalPair(r.state, r.action)
    && (r.message.finishedAt > 0 <==> Finished(r.state))
    && (r.state == Succeeded ==> r.message.fineTunedModel != "")
  }

  lemma TableBumpsVersion()
    ensures Occ.BumpsVersion(JOBS)
  {
    forall q, s, r
      ensures JOBS.version(JOBS.updated(q, s, r)) == JOBS.version(r) + 1
    {
      assert JOBS.updated(q, s, r) == Updated(q, s, r);
    }
  }

  lemma RowOkKept(q: Request, r: Row)
    requires RowOk(r) && Writes(q, r)
    ensures RowOk(Updated(q, r, r))
  {
  }

  /** In every interleaving: legal pairs, FinishedAt set exactly on finished jobs, and every succeeded job
      names its model. */
  lemma EveryRowOk(es: seq<Event>, id: string)
    requires forall e <- es :: e.Insert? ==> IsCreated(e.row)
    requires id in Occ.Run(JOBS, Occ.Start(map[]), es).rows
    ensures RowOk(Occ.Run(JOBS, Occ.Start(map[]), es).rows[id])
  {
    TableBumpsVersion();
    forall q, r | RowOk(r) && JOBS.writes(q, r)
      ensures RowOk(JOBS.updated(q, r, r))
    {
      RowOkKept(q, r);
    }
    Occ.Lift(JOBS, Occ.Start(map[]), es, RowOk);
  }

  ghost predicate ReachesPair(es: seq<Event>, id: string, s: State, a: Action) {
    && (forall e <- es :: e.Insert? ==> IsCreated(e.row))
    && var rows := Occ.Run(JOBS, Occ.Start(map[]), es).rows;
       id in rows && rows[id].state == s && rows[id].action == a
  }

  function Newborn(): Row {
    Row("t", "p", "c", Message(0, "", None), Queued, Creating, "", 0)
  }

  /** Requests that take a new job to a pair. */
  function Toward(s: State, a: Action): seq<Request> {
    match s
    case Queued => if a == Creating then [] else [Request(Cancel, 1)]
    case Running => [Request(Update(JobCreated), 1)]
    case Failed => [Request(Update(IsFailed("")), 1)]
    case Canceled => [Request(Update(IsCanceled), 1)]
    case Succeeded => [Request(Update(JobCreated), 1), Request(Update(Finetuned("m")), 2)]
  }

  lemma TowardWorks(s: State, a: Action)
    requires LegalPair(s, a)
    ensures var r := Occ.Chain(JOBS, Newborn(), Toward(s, a)); r.state == s && r.action == a
  {
    var qs := Toward(s, a);
    assert Occ.Chain(JOBS, Newborn(), []) == Newborn();
    if s == Succeeded {
      assert qs[..1] == [Request(Update(JobCreated), 1)] && qs[..1][..0] == [];
      assert Occ.Chain(JOBS, Newborn(), qs[..1]).state == Running;
    } else if qs != [] {
      assert qs[..0] == [];
    }
  }

  /** The pairs that occur are exactly: queued with an action, any other state without. */
  lemma PairsExactly(s: State, a: Action)
    ensures LegalPair(s, a) <==> exists es: seq<Event>, id: string :: ReachesPair(es, id, s, a)
  {
    if LegalPair(s, a) {
      TowardWorks(s, a);
      Occ.SeriallyReaches(JOBS, "j", Newborn(), Toward(s, a));
      assert ReachesPair(Occ.Serially("j", Newborn(), Toward(s, a)), "j", s, a);
    }
    if es, id :| ReachesPair(es, id, s, a) {
      EveryRowOk(es, id);
    }
  }

  lemma FinishedKept(q: Request, r: Row)
    requires Finished(r.state) && Writes(q, r)
    ensures Finished(Updated(q, r, r).state)
  {
  }

  /** A finished job stays finished, whatever is still under way. */
  lemma {:induction false} FinishedIsForever(s: Db, es: seq<Event>, id: string)
    requires Occ.Snapshots(JOBS, s) && id in s.rows && Finished(s.rows[id].state)
    ensures id in Occ.Run(JOBS, s, es).rows && Finished(Occ.Run(JOBS, s, es).rows[id].state)
  {
    if es != [] {
      TableBumpsVersion();
      FinishedIsForever(s, es[..|es| - 1], id);
      Occ.SnapshotsAlways(JOBS, s, es[..|es| - 1]);
      var mid := Occ.Run(JOBS, s, es[..|es| - 1]);
      Occ.StepIsSerial(JOBS, mid, es[|es| - 1], id);
      forall q <- Occ.Lands(JOBS, mid, es[|es| - 1], id)
        ensures Finished(Updated(q, mid.rows[id], mid.rows[id]).state)
      {
        FinishedKept(q, mid.rows[id]);
      }
    }
  }

  /** Which finished state it is can still change: exactly the unguarded reports write to a finished row,
      so a late failure turns a success into a failure. */
  lemma FinishedOverwritten(q: Request, r: Row)
    requires Finished(r.state)
    ensures Writes(q, r) <==> q.op.Update? && (q.op.phase.IsCanceled? || q.op.phase.IsFailed?)
    ensures r.state == Succeeded ==> Updated(Request(Update(IsFailed("late")), q.now), r, r).state == Failed
  {
  }

  /** The cancel the user asked for is still queued, or the job is over. */
  predicate CancelStands(r: Row) {
    (r.state == Queued && r.action == Canceling) || Finished(r.state)
  }

  lemma CancelKept(q: Request, r: Row)
    requires r.state == Queued && r.action == Canceling && Writes(q, r)
    ensures CancelStands(Updated(q, r, r)) <==> q.op != Update(JobCreated)
  {
  }

  /** In any interleaving a pending cancel is lost exactly when a job that reports itself created lands on it. */
  lemma CancelLostExactly(s: Db, e: Event, id: string)
    requires Occ.Snapshots(JOBS, s) && id in s.rows && s.rows[id].state == Queued && s.rows[id].action == Canceling
    ensures id in Occ.Step(JOBS, s, e).rows
    ensures !CancelStands(Occ.Step(JOBS, s, e).rows[id]) <==>
        exists q <- Occ.Lands(JOBS, s, e, id) :: q.op == Update(JobCreated)
  {
    TableBumpsVersion();
    Occ.StepIsSerial(JOBS, s, e, id);
    forall q <- Occ.Lands(JOBS, s, e, id)
      ensures CancelStands(Updated(q, s.rows[id], s.rows[id])) <==> q.op != Update(JobCreated)
    {
      CancelKept(q, s.rows[id]);
    }
  }

  /** The run of a lost cancel: a user cancels a new job after the dispatcher has listed it, and the dispatcher's
      JOB_CREATED report lands last. */
  lemma LateCreatedWins()
    ensures var qs := [Request(Cancel, 1), Request(Update(JobCreated), 2)];
            && ReachesPair(Occ.Serially("j", Newborn(), qs[..1]), "j", Queued, Canceling)
            && ReachesPair(Occ.Serially("j", Newborn(), qs), "j", Running, NoAction)
  {
    var qs := [Request(Cancel, 1), Request(Update(JobCreated), 2)];
    assert qs[..1][..0] == [] && qs[..1] == [Request(Cancel, 1)];
    assert Occ.Chain(JOBS, Newborn(), []) == Newborn();
    assert Occ.Chain(JOBS, Newborn(), qs[..1]).action == Canceling;
    Occ.SeriallyReaches(JOBS, "j", Newborn(), qs);
    Occ.SeriallyReaches(JOBS, "j", Newborn(), qs[..1]);
  }

  /** The dispatcher's "unknown queued action" branch never fires: what a listing of queued jobs returns is to be
      created or canceled. */
  lemma {:induction false} ListedIsKnown(es: seq<Event>, id: string)
    requires forall e <- es :: e.Insert? ==> IsCreated(e.row)
    requires id in Occ.Run(JOBS, Occ.Start(map[]), es).rows
    requires Occ.Run(JOBS, Occ.Start(map[]), es).rows[id].state == Queued
    ensures Occ.Run(JOBS, Occ.Start(map[]), es).rows[id].action in {Creating, Canceling}
  {
    EveryRowOk(es, id);
  }
}
