/** What each handler answers and does to a notebook row, field by field, for every row and every caller. */
module NotebookEffects {
  import opened Common
  import opened NotebookStore
  import opened NotebookServer
  import opened NotebookLifecycle
  import Occ

  /** The answer and the table after a handler. */
  datatype Effect = Effect(answer: Response, rows: map<string, Row>)

  function EffectOf(rows: map<string, Row>, id: string, c: Caller, op: Op, now: Time): Effect {
    Effect(Answer(rows, id, c, Request(op, now)), Served(rows, id, c, Request(op, now)))
  }

  /** The row with this state, action and reason, stamped and one version up; everything else as in `r`. */
  function Turned(r: Row, m: Message, s: State, a: Action, reason: string, now: Time): Row {
    Row(r.tenantId, r.projectId, r.envs, r.clusterId, m, s, a, reason, now, r.version + 1)
  }

  function Timed(m: Message, startedAt: nat, stoppedAt: nat): Message {
    Message(m.clusterId, m.namespace, m.gpuCount, startedAt, stoppedAt)
  }

  /** Without an ID the argument is invalid; a row of another project or tenant is not found; neither changes a row. */
  lemma StrangersChangeNothing(
      rows: map<string, Row>, id: string, projectId: string, tenantId: string, op: Op, now: Time)
    ensures id == "" ==>
      && EffectOf(rows, id, User(projectId), op, now) == Effect(Refused(InvalidArgument), rows)
      && EffectOf(rows, id, Worker(tenantId), op, now) == Effect(Refused(InvalidArgument), rows)
    ensures id != "" && (id in rows ==> rows[id].projectId != projectId) ==>
      EffectOf(rows, id, User(projectId), op, now) == Effect(Refused(NotFound), rows)
    ensures id != "" && (id in rows ==> rows[id].tenantId != tenantId) ==>
      EffectOf(rows, id, Worker(tenantId), op, now) == Effect(Refused(NotFound), rows)
  {
  }

  /** A new notebook: queued for starting at the cluster and namespace the scheduler chose, with the GPU count asked
      for and no times. */
  lemma CreatedExactly(r: Row)
    ensures IsCreated(r) <==>
      && Placement(r.envs, "", r.clusterId, r.message.namespace)
      && r == Row(r.tenantId, r.projectId, r.envs, r.clusterId,
                  Message(r.clusterId, r.message.namespace, r.message.gpuCount, 0, 0),
                  Queued, Starting, "", r.updatedAt, 0)
  {
  }

  /** Stop queues `stopping` on a notebook that starts, runs or is being moved, unless it is being stopped or
      deleted. */
  lemma StopExactly(rows: map<string, Row>, id: string, projectId: string, now: Time)
    requires id != "" && id in rows && rows[id].projectId == projectId
    ensures var r, e := rows[id], EffectOf(rows, id, User(projectId), Stop, now);
      if || r.state in {Initializing, Running, Requeued}
         || (r.state == Queued && r.action in {NoAction, Starting, Requeueing})
      then e == Effect(Done, rows[id := Turned(r, r.message, Queued, Stopping, "", now)])
      else e == Effect(if r.state == Deleted then Refused(Internal) else Done, rows)
  {
  }

  /** Start queues `starting` on a stopped notebook, or in place of a stop or requeue that is still queued. */
  lemma StartExactly(rows: map<string, Row>, id: string, projectId: string, now: Time)
    requires id != "" && id in rows && rows[id].projectId == projectId
    ensures var r, e := rows[id], EffectOf(rows, id, User(projectId), Start, now);
      if r.state == Stopped || (r.state == Queued && r.action in {NoAction, Stopping, Requeueing})
      then e == Effect(Done, rows[id := Turned(r, r.message, Queued, Starting, "", now)])
      else e == Effect(if r.state == Deleted then Refused(Internal) else Done, rows)
  {
  }

  /** Delete queues `deleting` in every state, also on a deleted notebook, unless that is queued already. */
  lemma DeleteExactly(rows: map<string, Row>, id: string, projectId: string, now: Time)
    requires id != "" && id in rows && rows[id].projectId == projectId
    ensures var r, e := rows[id], EffectOf(rows, id, User(projectId), Delete, now);
      e == Effect(Done, if r.action == Deleting then rows
                        else rows[id := Turned(r, r.message, Queued, Deleting, "", now)])
  {
  }

  /** The action a report completes. */
  predicate Completes(s: State, a: Action) {
    || (s == Initializing && a == Starting) || (s == Stopped && a == Stopping)
    || (s == Deleted && a == Deleting) || (s == Requeued && a == Requeueing)
  }

  /** A report of the state the row has, or of no state, changes nothing. */
  lemma NoReport(rows: map<string, Row>, id: string, tenantId: string, s: Reported, reason: string, now: Time)
    requires id != "" && id in rows && rows[id].tenantId == tenantId
    ensures var e := EffectOf(rows, id, Worker(tenantId), Report(s, reason), now);
      && (s == Is(rows[id].state) ==> e == Effect(Done, rows))
      && (s == Unspecified ==> e == Effect(Refused(InvalidArgument), rows))
  {
  }

  /** A report that completes an action is taken exactly from a row queued for that action. It stamps the message: the
      start of a notebook is kept while it is requeued, and cleared when it stops. */
  lemma CompletionExactly(rows: map<string, Row>, id: string, tenantId: string, s: State, reason: string, now: Time)
    requires id != "" && id in rows && rows[id].tenantId == tenantId && rows[id].state != s
    requires s in {Initializing, Stopped, Deleted, Requeued}
    ensures var r, e := rows[id], EffectOf(rows, id, Worker(tenantId), Report(Is(s), reason), now);
      var m := r.message;
      if r.state != Queued || !Completes(s, r.action) then e == Effect(Refused(FailedPrecondition), rows)
      else
        e == Effect(Done, rows[id :=
          match s
          case Initializing =>
            Turned(r, Timed(m, if m.startedAt == 0 then now else m.startedAt, 0), Initializing, NoAction, reason, now)
          case Stopped => Turned(r, Timed(m, 0, now), Stopped, NoAction, reason, now)
          case Deleted =>
            Turned(r, Timed(m, 0, if m.stoppedAt == 0 then now else m.stoppedAt), Deleted, NoAction, reason, now)
          case _ => Turned(r, m, Requeued, Requeueing, "", now)])
  {
  }

  /** RUNNING is taken exactly from an initializing row, and ignored on one that is being requeued; QUEUED and FAILED
      are never taken. */
  lemma OtherReportsExactly(rows: map<string, Row>, id: string, tenantId: string, s: State, reason: string, now: Time)
    requires id != "" && id in rows && rows[id].tenantId == tenantId && rows[id].state != s
    requires s in {Running, Queued, Failed}
    ensures var r, e := rows[id], EffectOf(rows, id, Worker(tenantId), Report(Is(s), reason), now);
      if s == Running && r.state == Initializing
      then e == Effect(Done, rows[id := Turned(r, r.message, Running, r.action, "", now)])
      else if s == Running && r.state == Queued && r.action == Requeueing then e == Effect(Done, rows)
      else e == Effect(Refused(FailedPrecondition), rows)
  {
  }

  /** The rescheduler takes back exactly what has been initializing for longer than allowed and whose reason does not
      name the pull; the row keeps its place, its message and its reason. */
  lemma RequeueExactly(r: Row, maxQueued: nat, now: Time)
    ensures TimedOut(r, maxQueued, now) ==
      if r.state == Initializing && (forall a, b :: r.reason != a + "Pulling" + b) && r.updatedAt + maxQueued < now
      then Turned(r, r.message, Queued, Requeueing, r.reason, now) else r
  {
    ContainsExactly(r.reason, PULLING);
  }

  /** And it moves exactly requeued notebooks, to another cluster under the namespace the project has there; the times
      and the GPU count stay. */
  lemma RescheduleExactly(r: Row, place: Env, now: Time)
    ensures Moved(r, Some(place), now) ==
      if && r.state == Requeued && place.clusterId != r.clusterId
         && NamespaceOf(r.envs, place.clusterId) == Some(place.namespace)
      then Row(r.tenantId, r.projectId, r.envs, place.clusterId,
               Message(place.clusterId, place.namespace, r.message.gpuCount, r.message.startedAt, r.message.stoppedAt),
               Queued, Starting, "", now, r.version + 1)
      else r
    ensures Moved(r, None, now) == r
  {
  }

  /** The request that queues an action. */
  predicate Queues(op: Op, a: Action) {
    match a
    case Starting => op.Start? || op.Reschedule?
    case Stopping => op.Stop?
    case Deleting => op.Delete?
    case Requeueing => op.Requeue?
    case NoAction => false
  }

  /** In every interleaving a notebook becomes queued for an action only when a request for it lands. */
  lemma QueuedOnlyOnRequest(s: Db, e: Event, id: string)
    requires Occ.Snapshots(NOTEBOOKS, s) && id in s.rows
    ensures id in Occ.Step(NOTEBOOKS, s, e).rows
    ensures var r, r' := s.rows[id], Occ.Step(NOTEBOOKS, s, e).rows[id];
      r'.state == Queued && !(r.state == Queued && r.action == r'.action) ==>
        exists q <- Occ.Lands(NOTEBOOKS, s, e, id) :: Queues(q.op, r'.action)
  {
    TableBumpsVersion();
    Occ.StepIsSerial(NOTEBOOKS, s, e, id);
    if Occ.Step(NOTEBOOKS, s, e).rows[id] != s.rows[id] {
      var q :| q in Occ.Lands(NOTEBOOKS, s, e, id);
      QueuesItsAction(q, s.rows[id]);
    }
  }

  lemma QueuesItsAction(q: Request, r: Row)
    requires Writes(q, r)
    ensures var r' := Updated(q, r, r); r'.state == Queued ==> Queues(q.op, r'.action)
  {
  }
}

/** What each handler answers and does to a fine-tuning row, field by field. */
module JobEffects {
  import opened Common
  import opened Jobs
  import opened JobLifecycle
  import Occ

  datatype Effect = Effect(answer: Response, rows: map<string, Row>)

  function EffectOf(rows: map<string, Row>, id: string, c: Caller, op: Op, now: Time): Effect {
    Effect(Answer(rows, id, c, Request(op, now)), Served(rows, id, c, Request(op, now)))
  }

  /** The row with this message, state, action and model, one version up; everything else as in `r`. */
  function Turned(r: Row, m: Message, s: State, a: Action, outputModelId: string): Row {
    Row(r.tenantId, r.projectId, r.clusterId, m, s, a, outputModelId, r.version + 1)
  }

  lemma StrangersChangeNothing(
      rows: map<string, Row>, id: string, projectId: string, tenantId: string, op: Op, now: Time)
    ensures id == "" ==>
      && EffectOf(rows, id, User(projectId), op, now) == Effect(Refused(InvalidArgument), rows)
      && EffectOf(rows, id, Worker(tenantId), op, now) == Effect(Refused(InvalidArgument), rows)
    ensures id != "" && (id in rows ==> rows[id].projectId != projectId) ==>
      EffectOf(rows, id, User(projectId), op, now) == Effect(Refused(NotFound), rows)
    ensures id != "" && (id in rows ==> rows[id].tenantId != tenantId) ==>
      EffectOf(rows, id, Worker(tenantId), op, now) == Effect(Refused(NotFound), rows)
  {
  }

  /** A new job: queued for creating, without a model, a finish time or an error. */
  lemma CreatedExactly(r: Row)
    ensures IsCreated(r) <==>
            r == Row(r.tenantId, r.projectId, r.clusterId, Message(0, "", None), Queued, Creating, "", 0)
  {
  }

  /** Cancel turns exactly running jobs, and queued ones not yet canceling, into queued for canceling. */
  lemma CancelExactly(rows: map<string, Row>, id: string, projectId: string, now: Time)
    requires id != "" && id in rows && rows[id].projectId == projectId
    ensures var r, e := rows[id], EffectOf(rows, id, User(projectId), Cancel, now);
      e == Effect(Done, if r.state == Running || (r.state == Queued && r.action != Canceling)
                        then rows[id := Turned(r, r.message, Queued, Canceling, r.outputModelId)] else rows)
  {
  }

  /** The phases that need a state: PREPROCESSED and JOB_CREATED a queued job, FINETUNED and RECREATE a running one. The
      first and third need a model ID. */
  lemma GuardedPhasesExactly(rows: map<string, Row>, id: string, tenantId: string, modelId: string, now: Time)
    requires id != "" && id in rows && rows[id].tenantId == tenantId
    ensures var r := rows[id];
      var refused := Effect(Refused(FailedPrecondition), rows);
      var pre := EffectOf(rows, id, Worker(tenantId), Update(Preprocessed(modelId)), now);
      var created := EffectOf(rows, id, Worker(tenantId), Update(JobCreated), now);
      var tuned := EffectOf(rows, id, Worker(tenantId), Update(Finetuned(modelId)), now);
      var again := EffectOf(rows, id, Worker(tenantId), Update(Recreate), now);
      && pre == (if r.state != Queued then refused
                 else if modelId == "" then Effect(Refused(InvalidArgument), rows)
                 else Effect(Done, rows[id := Turned(r, r.message, Queued, r.action, modelId)]))
      && created == (if r.state != Queued then refused
                     else Effect(Done, rows[id := Turned(r, r.message, Running, NoAction, r.outputModelId)]))
      && tuned == (if r.state != Running then refused
                   else if modelId == "" then Effect(Refused(InvalidArgument), rows)
                   else Effect(Done, rows[id := Turned(r, Message(now, modelId, r.message.error), Succeeded, NoAction,
                                                       r.outputModelId)]))
      && again == (if r.state != Running then refused
                   else Effect(Done, rows[id := Turned(r, r.message, Queued, Creating, r.outputModelId)]))
  {
  }

  /** The phases that need none: CANCELED and FAILED are taken from every row, and FAILED stores its message. */
  lemma FreePhasesExactly(rows: map<string, Row>, id: string, tenantId: string, message: string, now: Time)
    requires id != "" && id in rows && rows[id].tenantId == tenantId
    ensures var r := rows[id];
      && EffectOf(rows, id, Worker(tenantId), Update(IsCanceled), now) ==
           Effect(Done, rows[id := Turned(r, Message(now, r.message.fineTunedModel, r.message.error), Canceled,
                                          NoAction, r.outputModelId)])
      && EffectOf(rows, id, Worker(tenantId), Update(IsFailed(message)), now) ==
           Effect(Done, rows[id := Turned(r, Message(now, r.message.fineTunedModel, Some(message)), Failed, NoAction,
                                          r.outputModelId)])
      && EffectOf(rows, id, Worker(tenantId), Update(Unspecified), now) == Effect(Refused(InvalidArgument), rows)
      && EffectOf(rows, id, Worker(tenantId), Update(Unknown), now) == Effect(Refused(Internal), rows)
  {
  }

  predicate IsCanceling(r: Row) {
    r.state == Queued && r.action == Canceling
  }

  /** In every interleaving a job becomes queued for canceling only when a user's cancel lands on it, and for creating,
      once it runs, only when RECREATE does. */
  lemma QueuedOnlyOnRequest(s: Db, e: Event, id: string)
    requires Occ.Snapshots(JOBS, s) && id in s.rows
    ensures id in Occ.Step(JOBS, s, e).rows
    ensures var r, r' := s.rows[id], Occ.Step(JOBS, s, e).rows[id];
      && (!IsCanceling(r) && IsCanceling(r') ==> exists q <- Occ.Lands(JOBS, s, e, id) :: q.op == Cancel)
      && (r.state != Queued && r'.state == Queued && r'.action == Creating ==>
            exists q <- Occ.Lands(JOBS, s, e, id) :: q.op == Update(Recreate))
  {
    TableBumpsVersion();
    Occ.StepIsSerial(JOBS, s, e, id);
  }
}

/** What each handler answers and does to a batch row, field by field. */
module BatchEffects {
  import opened Common
  import opened Batches
  import opened BatchLifecycle
  import Occ

  datatype Effect = Effect(answer: Response, rows: map<string, Row>)

  function EffectOf(rows: map<string, Row>, id: string, c: Caller, op: Op, now: Time): Effect {
    Effect(Answer(rows, id, c, Request(op, now)), Served(rows, id, c, Request(op, now)))
  }

  /** The row with this message, state and action, one version up; everything else as in `r`. */
  function Turned(r: Row, m: Message, s: State, a: Action): Row {
    Row(r.tenantId, r.projectId, r.clusterId, m, s, a, r.version + 1)
  }

  lemma StrangersChangeNothing(
      rows: map<string, Row>, id: string, projectId: string, tenantId: string, op: Op, now: Time)
    ensures id == "" ==>
      && EffectOf(rows, id, User(projectId), op, now) == Effect(Refused(InvalidArgument), rows)
      && EffectOf(rows, id, Worker(tenantId), op, now) == Effect(Refused(InvalidArgument), rows)
    ensures id != "" && (id in rows ==> rows[id].projectId != projectId) ==>
      EffectOf(rows, id, User(projectId), op, now) == Effect(Refused(NotFound), rows)
    ensures id != "" && (id in rows ==> rows[id].tenantId != tenantId) ==>
      EffectOf(rows, id, Worker(tenantId), op, now) == Effect(Refused(NotFound), rows)
  {
  }

  /** A new job: queued for creating, without a finish time or an error. */
  lemma CreatedExactly(r: Row)
    ensures IsCreated(r) <==> r == Row(r.tenantId, r.projectId, r.clusterId, Message(0, None), Queued, Creating, 0)
  {
  }

  /** Cancel turns exactly running jobs, and queued ones not yet canceling, into queued for canceling; Delete turns
      every job not yet deleting into queued for deleting. Deleted jobs are not found. */
  lemma UserRequestsExactly(rows: map<string, Row>, id: string, projectId: string, now: Time)
    requires id != "" && id in rows && rows[id].projectId == projectId
    ensures var r := rows[id];
      var cancel := EffectOf(rows, id, User(projectId), Cancel, now);
      var delete := EffectOf(rows, id, User(projectId), Delete, now);
      if r.state == Deleted then cancel == delete == Effect(Refused(NotFound), rows)
      else
        && cancel == Effect(Done, if r.state == Running || (r.state == Queued && r.action != Canceling)
                                  then rows[id := Turned(r, r.message, Queued, Canceling)] else rows)
        && delete == Effect(Done, if r.state == Queued && r.action == Deleting then rows
                                  else rows[id := Turned(r, r.message, Queued, Deleting)])
  {
  }

  /** Whether the guard of a report lets it through: the guards of RUNNING, CANCELED and DELETED refuse only rows that
      are neither queued nor have the action; SUCCEEDED needs a running row, and FAILED nothing. */
  predicate Passes(s: State, r: Row) {
    match s
    case Running => r.state == Queued || r.action == Creating
    case Canceled => r.state == Queued || r.action == Canceling
    case Deleted => r.state == Queued || r.action == Deleting
    case Succeeded => r.state == Running
    case Failed => true
    case Queued => false
  }

  /** A report that passes its guard writes its state and clears the action; all but RUNNING set the finish time, and
      FAILED stores its reason and message. */
  lemma ReportsExactly(rows: map<string, Row>, id: string, tenantId: string, s: State, reason: string, message: string,
                       now: Time)
    requires id != "" && id in rows && rows[id].tenantId == tenantId
    ensures var r, e := rows[id], EffectOf(rows, id, Worker(tenantId), Report(Is(s), reason, message), now);
      if r.state == s then e == Effect(Done, rows)
      else if !Passes(s, r) then e == Effect(Refused(FailedPrecondition), rows)
      else
        var error := if s == Failed then Some((reason, message)) else r.message.error;
        e == Effect(Done, rows[id := Turned(r, if s == Running then r.message else Message(now, error), s, NoAction)])
    ensures EffectOf(rows, id, Worker(tenantId), Report(Unspecified, reason, message), now) ==
            Effect(Refused(InvalidArgument), rows)
  {
  }

  /** In every interleaving a job becomes queued for canceling or deleting only when that request of a user lands. */
  lemma QueuedOnlyOnRequest(s: Db, e: Event, id: string, a: Action)
    requires Occ.Snapshots(BATCHES, s) && id in s.rows && (a == Canceling || a == Deleting)
    ensures id in Occ.Step(BATCHES, s, e).rows
    ensures var r, r' := s.rows[id], Occ.Step(BATCHES, s, e).rows[id];
      !(r.state == Queued && r.action == a) && r'.state == Queued && r'.action == a ==>
        exists q <- Occ.Lands(BATCHES, s, e, id) :: q.op == Pending(a)
  {
    TableBumpsVersion();
    Occ.StepIsSerial(BATCHES, s, e, id);
  }
}
