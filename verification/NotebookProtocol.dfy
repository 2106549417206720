/** The whole notebook protocol: users, reconcilers and the rescheduler against the table, and one
sequential dispatcher per cluster that lists queued notebooks, changes Deployments in its cluster
and reports back (dispatcher/internal/dispatcher/dispatcher.go and notebook.go). */
module NotebookProtocol {
  import opened Common
  import opened NotebookStore
  import opened NotebookServer
  import opened NotebookLifecycle
  import Occ

  /** A listed notebook: what the dispatcher knows of it until the next listing. */
  datatype Item = Item(id: string, action: Action, namespace: string)

  /** Progress on the first item of the list. `Reporting` waits for the server's handler `tid`. */
  datatype Phase = Acting | Acted | Reporting(tid: Occ.Tid)

  datatype Pc = Idle | Busy(todo: seq<Item>, phase: Phase)

  datatype Dispatcher = Dispatcher(tenantId: string, pc: Pc)

  datatype Deployment = Deployment(id: string, clusterId: string, namespace: string)

  datatype World = World(db: Db, dispatchers: map<string, Dispatcher>, deployments: set<Deployment>)

  /** How a call to the Kubernetes API ends. `Swallowed`: Delete fails and deleteNotebook, which
      returns the error only when there is none, still reports success. */
  datatype Outcome = Fine | Error(applied: bool) | Swallowed

  datatype Origin = FromUser(projectId: string) | FromReconciler(tenantId: string) | FromRescheduler

  datatype Step =
    | Create(id: string, row: Row)
    | Ask(tid: Occ.Tid, id: string, origin: Origin, q: Request)  // a handler reads and checks its guards
    | Commit(tid: Occ.Tid)                                       // ... and later writes
    | Drop(tid: Occ.Tid)                                         // ... or never does
    | List(c: string, order: seq<string>)
    | Act(c: string, outcome: Outcome)
    | Send(c: string, tid: Occ.Tid, now: Time)                   // the report's handler reads
    | Land(c: string, replyLost: bool)                           // ... and writes; the dispatcher hears back
    | Abandon(c: string, survives: bool)                         // dispatcher gives up; does its handler live on?

  function Init(tenants: map<string, string>): World {
    World(Occ.Start(map[]), map c | c in tenants :: Dispatcher(tenants[c], Idle), {})
  }

  /** Which operations come from where, and on which rows. */
  predicate Allowed(origin: Origin, op: Op, r: Row) {
    match origin
    case FromUser(p) => (op.Stop? || op.Start? || op.Delete?) && r.projectId == p
    case FromReconciler(t) => op.Report? && (op.state == Is(Initializing) || op.state == Is(Running)) && r.tenantId == t
    case FromRescheduler => op.Requeue? || op.Reschedule?
  }

  /** ListQueuedInternalNotebooks for a cluster. */
  predicate Listed(r: Row, tenantId: string, clusterId: string) {
    r.tenantId == tenantId && r.clusterId == clusterId && r.state == Queued
  }

  predicate Distinct(ids: seq<string>) {
    forall i, j :: 0 <= i < j < |ids| ==> ids[i] != ids[j]
  }

  /** `order` lists the notebooks queued at a cluster, in some order. */
  predicate IsListing(rows: map<string, Row>, tenantId: string, c: string, order: seq<string>) {
    && Distinct(order)
    && (forall id <- order :: id in rows)
    && (forall id <- rows :: id in order <==> Listed(rows[id], tenantId, c))
  }

  function Items(rows: map<string, Row>, order: seq<string>): (items: seq<Item>)
    requires forall id <- order :: id in rows
    ensures |items| == |order|
    ensures forall i :: 0 <= i < |order| ==>
              items[i] == Item(order[i], rows[order[i]].action, rows[order[i]].message.namespace)
  {
    seq(|order|, i requires 0 <= i < |order| => Item(order[i], rows[order[i]].action, rows[order[i]].message.namespace))
  }

  function Working(todo: seq<Item>): Pc {
    if todo == [] then Idle else Busy(todo, Acting)
  }

  predicate Owned(w: World, tid: Occ.Tid) {
    exists c <- w.dispatchers :: Owns(w, c, tid)
  }

  predicate Owns(w: World, c: string, tid: Occ.Tid)
    requires c in w.dispatchers
  {
    w.dispatchers[c].pc.Busy? && w.dispatchers[c].pc.phase == Reporting(tid)
  }

  function SetPc(w: World, c: string, pc: Pc): World
    requires c in w.dispatchers
  {
    w.(dispatchers := w.dispatchers[c := w.dispatchers[c].(pc := pc)])
  }

  /** The dispatcher's work on one item: None is an error, which ends the pass. */
  function Work(ds: set<Deployment>, c: string, item: Item, outcome: Outcome): (set<Deployment>, bool) {
    var d := Deployment(item.id, c, item.namespace);
    match item.action
    case Starting =>
      (match outcome
       case Fine => (ds + {d}, true)
       case Error(applied) => (if applied then ds + {d} else ds, false)
       case Swallowed => (ds, false))
    case Stopping => (ds, outcome.Fine? && d in ds)
    case Deleting => Removal(ds, d, outcome)
    case Requeueing => Removal(ds, d, outcome)
    case NoAction => (ds, false)
  }

  function Removal(ds: set<Deployment>, d: Deployment, outcome: Outcome): (set<Deployment>, bool) {
    match outcome
    case Fine => (ds - {d}, true)
    case Error(_) => (ds, false)
    case Swallowed => (ds, true)
  }

  /** The report that follows an action. */
  function ReportOf(a: Action, now: Time): Request {
    Request(Report(NotebookLifecycle.Outcome(a), ""), now)
  }

  /** One step. A step that is not enabled changes nothing. */
  function Do(w: World, s: Step): World {
    match s
    case Create(id, row) =>
      if IsCreated(row) then w.(db := Occ.Step(NOTEBOOKS, w.db, Occ.Insert(id, row))) else w
    case Ask(tid, id, origin, q) =>
      if id in w.db.rows && Allowed(origin, q.op, w.db.rows[id])
      then w.(db := Occ.Step(NOTEBOOKS, w.db, Occ.Read(tid, id, q))) else w
    case Commit(tid) =>
      if Owned(w, tid) then w else w.(db := Occ.Step(NOTEBOOKS, w.db, Occ.Commit(tid)))
    case Drop(tid) =>
      if Owned(w, tid) then w else w.(db := Occ.Step(NOTEBOOKS, w.db, Occ.Drop(tid)))
    case List(c, order) =>
      if c in w.dispatchers && w.dispatchers[c].pc.Idle? && IsListing(w.db.rows, w.dispatchers[c].tenantId, c, order)
      then SetPc(w, c, Working(Items(w.db.rows, order))) else w
    case Act(c, outcome) =>
      if c in w.dispatchers && w.dispatchers[c].pc.Busy? && w.dispatchers[c].pc.todo != []
          && w.dispatchers[c].pc.phase == Acting then
        var pc := w.dispatchers[c].pc;
        var (ds, ok) := Work(w.deployments, c, pc.todo[0], outcome);
        SetPc(w, c, if ok then pc.(phase := Acted) else Idle).(deployments := ds)
      else w
    case Send(c, tid, now) =>
      if c in w.dispatchers && w.dispatchers[c].pc.Busy? && w.dispatchers[c].pc.todo != []
          && w.dispatchers[c].pc.phase == Acted
         && tid !in w.db.pending then
        var pc := w.dispatchers[c].pc;
        var id, q := pc.todo[0].id, ReportOf(pc.todo[0].action, now);
        if id !in w.db.rows || w.db.rows[id].tenantId != w.dispatchers[c].tenantId then SetPc(w, c, Idle)
        else match Decide(q.op, w.db.rows[id], now)
          case Refuse(_) => SetPc(w, c, Idle)
          case Accept => SetPc(w, c, Working(pc.todo[1..]))
          case Write(_) =>
            SetPc(w, c, pc.(phase := Reporting(tid))).(db := Occ.Step(NOTEBOOKS, w.db, Occ.Read(tid, id, q)))
      else w
    case Land(c, replyLost) =>
      if c in w.dispatchers && w.dispatchers[c].pc.Busy? && w.dispatchers[c].pc.todo != []
          && w.dispatchers[c].pc.phase.Reporting? then
        var pc := w.dispatchers[c].pc;
        var tid := pc.phase.tid;
        var ok := tid in w.db.pending && Occ.Current(NOTEBOOKS, w.db.rows, w.db.pending[tid]) && !replyLost;
        SetPc(w, c, if ok then Working(pc.todo[1..]) else Idle).(db := Occ.Step(NOTEBOOKS, w.db, Occ.Commit(tid)))
      else w
    case Abandon(c, survives) =>
      if c in w.dispatchers && w.dispatchers[c].pc.Busy? then
        var pc := w.dispatchers[c].pc;
        var db := if pc.phase.Reporting? && !survives then Occ.Step(NOTEBOOKS, w.db, Occ.Drop(pc.phase.tid)) else w.db;
        SetPc(w, c, Idle).(db := db)
      else w
  }

  function Run(w: World, ss: seq<Step>): World {
    if ss == [] then w else Do(Run(w, ss[..|ss| - 1]), ss[|ss| - 1])
  }
}
