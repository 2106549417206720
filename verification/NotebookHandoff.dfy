/** Handoff safety: a notebook runs in at most one cluster, and leaves a cluster only after that
cluster's dispatcher has removed it there. */
module NotebookHandoff {
  import opened Common
  import opened NotebookStore
  import opened NotebookServer
  import opened NotebookLifecycle
  import opened NotebookProtocol
  import Occ

  /** What holds of the table in every run, whatever fails. */
  ghost predicate TableOk(db: Db) {
    && Occ.Snapshots(NOTEBOOKS, db)
    && forall id <- db.rows :: RowOk(db.rows[id])
  }

  /** What the invariant is about: one notebook, and what counts as its having left a cluster: being requeued, or
      being requeued or deleted. */
  datatype Scope = Scope(id: string, deletes: bool)

  predicate Left(k: Scope, s: State) {
    s == Requeued || (k.deletes && s == Deleted)
  }

  /** The actions that end so. */
  predicate Releasing(k: Scope, a: Action) {
    a == Requeueing || (k.deletes && a == Deleting)
  }

  predicate ReportsLeft(k: Scope, q: Request) {
    q.op.Report? && q.op.state.Is? && Left(k, q.op.state.state)
  }

  /** The notebook is in this cluster and namespace and has not left. */
  predicate Stays(k: Scope, rows: map<string, Row>, c: string, namespace: string) {
    && k.id in rows
    && rows[k.id].clusterId == c
    && !Left(k, rows[k.id].state)
    && rows[k.id].message.namespace == namespace
  }

  /** An item on the list of cluster `c`, however stale, is about a notebook that is still there. */
  predicate ItemOk(k: Scope, rows: map<string, Row>, c: string, item: Item) {
    item.action != NoAction && (item.id == k.id ==> Stays(k, rows, c, item.namespace))
  }

  predicate DeploymentOk(k: Scope, rows: map<string, Row>, d: Deployment) {
    d.id == k.id ==> Stays(k, rows, d.clusterId, d.namespace)
  }

  predicate Absent(ds: set<Deployment>, id: string) {
    forall d <- ds :: d.id != id
  }

  predicate DistinctItems(items: seq<Item>) {
    forall i, j :: 0 <= i < j < |items| ==> items[i].id != items[j].id
  }

  ghost predicate PcOk(k: Scope, w: World, c: string)
    requires c in w.dispatchers
  {
    var pc := w.dispatchers[c].pc;
    pc.Busy? ==>
      && pc.todo != [] && DistinctItems(pc.todo)
      && (forall item <- pc.todo :: ItemOk(k, w.db.rows, c, item))
      && (pc.phase.Reporting? ==> Waiting(w.db, pc.phase.tid, pc.todo[0]))
      && (pc.phase != Acting && pc.todo[0].id == k.id && Releasing(k, pc.todo[0].action) ==>
          Absent(w.deployments, k.id))
  }

  /** The handler a dispatcher waits for carries the report on its current item. */
  predicate Waiting(db: Db, tid: Occ.Tid, item: Item) {
    && tid in db.pending
    && db.pending[tid].id == item.id
    && db.pending[tid].q.op == Report(NotebookLifecycle.Outcome(item.action), "")
  }

  /** A handler that reports the notebook gone. */
  predicate Leaves(k: Scope, p: Occ.Pending<Row, Request>) {
    p.id == k.id && ReportsLeft(k, p.q)
  }

  /** Only a dispatcher that waits for it can have such a handler under way. */
  ghost predicate OwnersOk(k: Scope, w: World) {
    && (forall c1, c2, tid |
          c1 in w.dispatchers && c2 in w.dispatchers && Owns(w, c1, tid) && Owns(w, c2, tid) :: c1 == c2)
    && (forall tid <- w.db.pending | Leaves(k, w.db.pending[tid]) :: Owned(w, tid))
  }

  ghost predicate Inv(k: Scope, w: World) {
    && TableOk(w.db)
    && (forall c <- w.dispatchers :: PcOk(k, w, c))
    && OwnersOk(k, w)
    && (forall d <- w.deployments :: DeploymentOk(k, w.db.rows, d))
  }

  /** The notebook has at most one Deployment, in the cluster its row names and the namespace assigned there. */
  ghost predicate SafeFor(w: World, id: string) {
    && (forall d <- w.deployments | d.id == id :: id in w.db.rows && d.clusterId == w.db.rows[id].clusterId
                                                  && Some(d.namespace) == NamespaceOf(w.db.rows[id].envs, d.clusterId))
    && (forall d, d' :: d in w.deployments && d' in w.deployments && d.id == d'.id == id ==> d == d')
  }

  ghost predicate Safe(w: World) {
    forall id :: SafeFor(w, id)
  }

  // What a handler may do to a row's place.

  lemma RowMoves(k: Scope, q: Request, r: Row)
    requires Writes(q, r)
    ensures var r' := Updated(q, r, r);
            && r'.tenantId == r.tenantId && r'.envs == r.envs
            && (Left(k, r'.state) ==> ReportsLeft(k, q))
            && if q.op.Reschedule? then r.state == Requeued && r'.clusterId != r.clusterId
               else r'.clusterId == r.clusterId && r'.message.namespace == r.message.namespace
  {
  }

  lemma MoveIsPlacement(q: Request, r: Row)
    requires Writes(q, r) && Updated(q, r, r).clusterId != r.clusterId
    ensures r.state == Requeued
    ensures Placement(r.envs, r.clusterId, Updated(q, r, r).clusterId, Updated(q, r, r).message.namespace)
  {
  }

  lemma TableKept(db: Db, e: Event)
    requires TableOk(db)
    requires e.Insert? ==> IsCreated(e.row)
    ensures TableOk(Occ.Step(NOTEBOOKS, db, e))
  {
    TableBumpsVersion();
    Occ.SnapshotsKept(NOTEBOOKS, db, e);
    var db' := Occ.Step(NOTEBOOKS, db, e);
    forall id <- db'.rows
      ensures RowOk(db'.rows[id])
    {
      if id in db.rows {
        Occ.StepIsSerial(NOTEBOOKS, db, e, id);
        forall q <- Occ.Lands(NOTEBOOKS, db, e, id)
          ensures RowOk(Updated(q, db.rows[id], db.rows[id]))
        {
          RowOkKept(q, db.rows[id]);
        }
      }
    }
  }

  /** A row that has not left keeps its place unless the report that says so lands on it. */
  lemma PlaceKept(k: Scope, db: Db, e: Event, c: string, namespace: string)
    requires TableOk(db) && Stays(k, db.rows, c, namespace)
    requires forall q <- Occ.Lands(NOTEBOOKS, db, e, k.id) :: !ReportsLeft(k, q)
    ensures Stays(k, Occ.Step(NOTEBOOKS, db, e).rows, c, namespace)
  {
    var r := db.rows[k.id];
    TableBumpsVersion();
    Occ.StepIsSerial(NOTEBOOKS, db, e, k.id);
    forall q <- Occ.Lands(NOTEBOOKS, db, e, k.id)
      ensures !q.op.Reschedule? && !Left(k, Updated(q, r, r).state)
    {
      RowMoves(k, q, r);
    }
    if Occ.Lands(NOTEBOOKS, db, e, k.id) != {} {
      var q :| q in Occ.Lands(NOTEBOOKS, db, e, k.id);
      RowMoves(k, q, r);
    }
  }

  // Every step keeps the invariant.

  /** An event that lands no such report and takes no owned handler away. */
  ghost predicate Quiet(k: Scope, w: World, e: Event) {
    && (e.Insert? ==> IsCreated(e.row))
    && (e.Commit? || e.Drop? ==> !Owned(w, e.tid))
    && (e.Read? && e.id == k.id ==> !ReportsLeft(k, e.q))
  }

  lemma QuietPlace(k: Scope, w: World, e: Event, c: string, namespace: string)
    requires TableOk(w.db) && OwnersOk(k, w) && Quiet(k, w, e) && Stays(k, w.db.rows, c, namespace)
    ensures Stays(k, Occ.Step(NOTEBOOKS, w.db, e).rows, c, namespace)
  {
    forall q <- Occ.Lands(NOTEBOOKS, w.db, e, k.id)
      ensures !ReportsLeft(k, q)
    {
    }
    PlaceKept(k, w.db, e, c, namespace);
  }

  lemma QuietPc(k: Scope, w: World, e: Event, c: string)
    requires TableOk(w.db) && OwnersOk(k, w) && Quiet(k, w, e) && c in w.dispatchers && PcOk(k, w, c)
    ensures PcOk(k, w.(db := Occ.Step(NOTEBOOKS, w.db, e)), c)
  {
    var pc := w.dispatchers[c].pc;
    if pc.Busy? {
      forall item <- pc.todo
        ensures ItemOk(k, Occ.Step(NOTEBOOKS, w.db, e).rows, c, item)
      {
        if item.id == k.id {
          QuietPlace(k, w, e, c, item.namespace);
        }
      }
      if pc.phase.Reporting? {
        QuietWaiting(k, w, e, c);
      }
    }
  }

  lemma QuietWaiting(k: Scope, w: World, e: Event, c: string)
    requires Quiet(k, w, e) && c in w.dispatchers && w.dispatchers[c].pc.Busy? && w.dispatchers[c].pc.phase.Reporting?
    requires w.dispatchers[c].pc.phase.tid in w.db.pending
    ensures var tid := w.dispatchers[c].pc.phase.tid;
            var db' := Occ.Step(NOTEBOOKS, w.db, e);
            tid in db'.pending && db'.pending[tid] == w.db.pending[tid]
  {
    assert Owns(w, c, w.dispatchers[c].pc.phase.tid);
  }

  lemma QuietEvent(k: Scope, w: World, e: Event)
    requires Inv(k, w) && Quiet(k, w, e)
    ensures Inv(k, w.(db := Occ.Step(NOTEBOOKS, w.db, e)))
  {
    var w' := w.(db := Occ.Step(NOTEBOOKS, w.db, e));
    TableKept(w.db, e);
    forall c <- w'.dispatchers
      ensures PcOk(k, w', c)
    {
      QuietPc(k, w, e, c);
    }
    forall d <- w'.deployments
      ensures DeploymentOk(k, w'.db.rows, d)
    {
      if d.id == k.id {
        QuietPlace(k, w, e, d.clusterId, d.namespace);
      }
    }
    QuietOwners(k, w, e);
  }

  lemma QuietOwners(k: Scope, w: World, e: Event)
    requires OwnersOk(k, w)
    requires e.Read? && e.id == k.id ==> !ReportsLeft(k, e.q)
    ensures OwnersOk(k, w.(db := Occ.Step(NOTEBOOKS, w.db, e)))
  {
    var w' := w.(db := Occ.Step(NOTEBOOKS, w.db, e));
    forall tid <- w'.db.pending | Leaves(k, w'.db.pending[tid])
      ensures Owned(w', tid)
    {
      assert Owned(w, tid);
      var c :| c in w.dispatchers && Owns(w, c, tid);
      assert Owns(w', c, tid);
    }
    forall c1, c2, tid | c1 in w'.dispatchers && c2 in w'.dispatchers && Owns(w', c1, tid) && Owns(w', c2, tid)
      ensures c1 == c2
    {
      assert Owns(w, c1, tid) && Owns(w, c2, tid);
    }
  }

  /** A dispatcher that is not waiting for a handler changes its list or phase. */
  lemma PcChange(k: Scope, w: World, c: string, pc: Pc)
    requires Inv(k, w) && c in w.dispatchers
    requires w.dispatchers[c].pc.Busy? ==> !w.dispatchers[c].pc.phase.Reporting?
    requires pc.Busy? ==> !pc.phase.Reporting?
    requires PcOk(k, SetPc(w, c, pc), c)
    ensures Inv(k, SetPc(w, c, pc))
  {
    var w' := SetPc(w, c, pc);
    forall c' <- w'.dispatchers
      ensures PcOk(k, w', c')
    {
      assert PcOk(k, w, c');
    }
    forall tid <- w'.db.pending | Leaves(k, w'.db.pending[tid])
      ensures Owned(w', tid)
    {
      var o :| o in w.dispatchers && Owns(w, o, tid);
      assert o != c && Owns(w', o, tid);
    }
    forall c1, c2, tid | c1 in w'.dispatchers && c2 in w'.dispatchers && Owns(w', c1, tid) && Owns(w', c2, tid)
      ensures c1 == c2
    {
      assert Owns(w, c1, tid) && Owns(w, c2, tid);
    }
  }

  lemma ListKeepsInv(k: Scope, w: World, c: string, order: seq<string>)
    requires Inv(k, w) && c in w.dispatchers && w.dispatchers[c].pc.Idle?
    requires IsListing(w.db.rows, w.dispatchers[c].tenantId, c, order)
    ensures Inv(k, SetPc(w, c, Working(Items(w.db.rows, order))))
  {
    var items := Items(w.db.rows, order);
    forall item <- items
      ensures ItemOk(k, w.db.rows, c, item)
    {
      var i :| 0 <= i < |items| && items[i] == item;
      assert order[i] in order;
      assert RowOk(w.db.rows[order[i]]);
    }
    PcChange(k, w, c, Working(items));
  }

  /** The two hazards: a Delete that removes the notebook from its cluster fails and is reported as successful, or the
      dispatcher gives up on the report that follows such a Delete while the server's handler lives on. */
  predicate Hazard(k: Scope, w: World, s: Step) {
    && ((s.Act? && s.outcome.Swallowed?) || (s.Abandon? && s.survives))
    && s.c in w.dispatchers && w.dispatchers[s.c].pc.Busy? && w.dispatchers[s.c].pc.todo != []
    && (if s.Act? then w.dispatchers[s.c].pc.phase == Acting else w.dispatchers[s.c].pc.phase.Reporting?)
    && w.dispatchers[s.c].pc.todo[0].id == k.id && Releasing(k, w.dispatchers[s.c].pc.todo[0].action)
  }

  /** A Deployment of the current item is the one the action is about. */
  lemma ActKeepsInv(k: Scope, w: World, c: string, outcome: Outcome)
    requires Inv(k, w) && c in w.dispatchers && w.dispatchers[c].pc.Busy? && w.dispatchers[c].pc.phase == Acting
    requires !Hazard(k, w, Act(c, outcome))
    ensures Inv(k, Do(w, Act(c, outcome)))
  {
    var pc := w.dispatchers[c].pc;
    assert PcOk(k, w, c);
    var item := pc.todo[0];
    assert item in pc.todo;
    var (ds, ok) := Work(w.deployments, c, item, outcome);
    var mid := w.(deployments := ds);
    forall d <- ds
      ensures DeploymentOk(k, w.db.rows, d)
    {
    }
    forall c' <- mid.dispatchers
      ensures PcOk(k, mid, c')
    {
      assert PcOk(k, w, c');
      var pc' := mid.dispatchers[c'].pc;
      if c' != c && pc'.Busy? {
        assert ItemOk(k, w.db.rows, c', pc'.todo[0]) && ItemOk(k, w.db.rows, c, item);
      }
    }
    OwnersFollow(k, w, mid);
    if ok && item.id == k.id && Releasing(k, item.action) {
      forall d <- ds
        ensures d.id != k.id
      {
        assert DeploymentOk(k, w.db.rows, d);
      }
    }
    PcChange(k, mid, c, if ok then pc.(phase := Acted) else Idle);
  }

  lemma OwnersFollow(k: Scope, w: World, w': World)
    requires OwnersOk(k, w) && w'.db.pending == w.db.pending && w'.dispatchers == w.dispatchers
    ensures OwnersOk(k, w')
  {
    forall tid, c | c in w.dispatchers
      ensures Owns(w, c, tid) == Owns(w', c, tid)
    {
    }
    forall tid <- w'.db.pending | Leaves(k, w'.db.pending[tid])
      ensures Owned(w', tid)
    {
      var o :| o in w.dispatchers && Owns(w, o, tid);
      assert Owns(w', o, tid);
    }
  }

  /** The report on the current item passes the handler's guards. */
  ghost predicate Sendable(w: World, c: string, tid: Occ.Tid, now: Time) {
    && c in w.dispatchers && w.dispatchers[c].pc.Busy? && w.dispatchers[c].pc.phase == Acted
    && w.dispatchers[c].pc.todo != []
    && tid !in w.db.pending
    && var item := w.dispatchers[c].pc.todo[0];
       item.id in w.db.rows && Writes(ReportOf(item.action, now), w.db.rows[item.id])
  }

  ghost function Sent(w: World, c: string, tid: Occ.Tid, now: Time): World
    requires Sendable(w, c, tid, now)
  {
    var pc := w.dispatchers[c].pc;
    SetPc(w, c, pc.(phase := Reporting(tid))).(
      db := Occ.Step(NOTEBOOKS, w.db, Occ.Read(tid, pc.todo[0].id, ReportOf(pc.todo[0].action, now))))
  }

  lemma SendOwners(k: Scope, w: World, c: string, tid: Occ.Tid, now: Time)
    requires Inv(k, w) && Sendable(w, c, tid, now)
    ensures OwnersOk(k, Sent(w, c, tid, now))
  {
    var w' := Sent(w, c, tid, now);
    assert Owns(w', c, tid);
    forall t <- w'.db.pending | Leaves(k, w'.db.pending[t])
      ensures Owned(w', t)
    {
      if t != tid {
        var o :| o in w.dispatchers && Owns(w, o, t);
        assert Owns(w', o, t);
      }
    }
    forall c1, c2, t | c1 in w'.dispatchers && c2 in w'.dispatchers && Owns(w', c1, t) && Owns(w', c2, t)
      ensures c1 == c2
    {
      if t != tid {
        assert Owns(w, c1, t) && Owns(w, c2, t);
      } else {
        assert PcOk(k, w, c1) && PcOk(k, w, c2);
      }
    }
  }

  /** The report's handler passes its guards and waits to write. */
  lemma SendKeepsInv(k: Scope, w: World, c: string, tid: Occ.Tid, now: Time)
    requires Inv(k, w) && Sendable(w, c, tid, now)
    ensures Inv(k, Sent(w, c, tid, now))
  {
    var w' := Sent(w, c, tid, now);
    var item := w.dispatchers[c].pc.todo[0];
    TableKept(w.db, Occ.Read(tid, item.id, ReportOf(item.action, now)));
    assert w'.db.rows == w.db.rows;
    assert w'.db.pending == w.db.pending[tid := Occ.Pending(item.id, w.db.rows[item.id], ReportOf(item.action, now))];
    forall c' <- w'.dispatchers
      ensures PcOk(k, w', c')
    {
      assert PcOk(k, w, c');
    }
    SendOwners(k, w, c, tid, now);
  }

  /** The handler dispatcher `c` waits for writes, fails or dies. */
  ghost predicate Settling(w: World, c: string, e: Event) {
    && c in w.dispatchers && w.dispatchers[c].pc.Busy? && w.dispatchers[c].pc.phase.Reporting?
    && (e == Occ.Commit(w.dispatchers[c].pc.phase.tid) || e == Occ.Drop(w.dispatchers[c].pc.phase.tid))
  }

  lemma SettlePlace(k: Scope, w: World, c: string, e: Event)
    requires Inv(k, w) && Settling(w, c, e) && k.id in w.db.rows
    requires w.dispatchers[c].pc.todo != [] && k.id != w.dispatchers[c].pc.todo[0].id
    ensures k.id in Occ.Step(NOTEBOOKS, w.db, e).rows
    ensures Occ.Step(NOTEBOOKS, w.db, e).rows[k.id] == w.db.rows[k.id]
  {
    assert PcOk(k, w, c);
  }

  lemma SettleItem(k: Scope, w: World, c: string, e: Event, c': string, item: Item)
    requires Inv(k, w) && Settling(w, c, e) && ItemOk(k, w.db.rows, c', item)
    requires c' != c || (w.dispatchers[c].pc.todo != [] && item.id != w.dispatchers[c].pc.todo[0].id)
    ensures ItemOk(k, Occ.Step(NOTEBOOKS, w.db, e).rows, c', item)
  {
    if item.id == k.id {
      assert PcOk(k, w, c);
      assert w.dispatchers[c].pc.todo[0] in w.dispatchers[c].pc.todo;
      SettlePlace(k, w, c, e);
    }
  }

  /** The dispatcher itself goes on with its list or ends the pass. */
  lemma SettleOwnPc(k: Scope, w: World, c: string, e: Event, pc': Pc)
    requires Inv(k, w) && Settling(w, c, e)
    requires pc' == Idle || pc' == Working(w.dispatchers[c].pc.todo[1..])
    ensures PcOk(k, SetPc(w, c, pc').(db := Occ.Step(NOTEBOOKS, w.db, e)), c)
  {
    assert PcOk(k, w, c);
    var todo := w.dispatchers[c].pc.todo[1..];
    forall item <- todo
      ensures ItemOk(k, Occ.Step(NOTEBOOKS, w.db, e).rows, c, item)
    {
      SettleItem(k, w, c, e, c, item);
    }
  }

  /** The others go on as they are. */
  lemma SettleOtherPc(k: Scope, w: World, c: string, e: Event, pc': Pc, c': string)
    requires Inv(k, w) && Settling(w, c, e) && c' in w.dispatchers && c' != c
    ensures PcOk(k, SetPc(w, c, pc').(db := Occ.Step(NOTEBOOKS, w.db, e)), c')
  {
    assert PcOk(k, w, c');
    var pc := w.dispatchers[c'].pc;
    if pc.Busy? {
      forall item <- pc.todo
        ensures ItemOk(k, Occ.Step(NOTEBOOKS, w.db, e).rows, c', item)
      {
        SettleItem(k, w, c, e, c', item);
      }
      if pc.phase.Reporting? {
        assert Owns(w, c', pc.phase.tid) && Owns(w, c, w.dispatchers[c].pc.phase.tid);
      }
    }
  }

  /** A Deployment of the notebook that was reported keeps its place too: a report that it left finds none. */
  lemma SettleDeployment(k: Scope, w: World, c: string, e: Event, d: Deployment)
    requires Inv(k, w) && Settling(w, c, e) && d in w.deployments
    ensures DeploymentOk(k, Occ.Step(NOTEBOOKS, w.db, e).rows, d)
  {
    assert PcOk(k, w, c) && DeploymentOk(k, w.db.rows, d);
    if d.id == k.id {
      if d.id == w.dispatchers[c].pc.todo[0].id {
        PlaceKept(k, w.db, e, d.clusterId, d.namespace);
      } else {
        SettlePlace(k, w, c, e);
      }
    }
  }

  lemma SettleOwners(k: Scope, w: World, c: string, e: Event, pc': Pc)
    requires OwnersOk(k, w) && Settling(w, c, e) && w.dispatchers[c].pc.phase.tid in w.db.pending
    requires pc'.Busy? ==> !pc'.phase.Reporting?
    ensures OwnersOk(k, SetPc(w, c, pc').(db := Occ.Step(NOTEBOOKS, w.db, e)))
  {
    var w' := SetPc(w, c, pc').(db := Occ.Step(NOTEBOOKS, w.db, e));
    assert w'.db.pending == w.db.pending - {w.dispatchers[c].pc.phase.tid};
    assert Owns(w, c, w.dispatchers[c].pc.phase.tid);
    forall t <- w'.db.pending | Leaves(k, w'.db.pending[t])
      ensures Owned(w', t)
    {
      var o :| o in w.dispatchers && Owns(w, o, t);
      assert o != c && Owns(w', o, t);
    }
    forall c1, c2, t | c1 in w'.dispatchers && c2 in w'.dispatchers && Owns(w', c1, t) && Owns(w', c2, t)
      ensures c1 == c2
    {
      assert Owns(w, c1, t) && Owns(w, c2, t);
    }
  }

  lemma SettleKeepsInv(k: Scope, w: World, c: string, e: Event, pc': Pc)
    requires Inv(k, w) && Settling(w, c, e)
    requires pc' == Idle || pc' == Working(w.dispatchers[c].pc.todo[1..])
    ensures Inv(k, SetPc(w, c, pc').(db := Occ.Step(NOTEBOOKS, w.db, e)))
  {
    var w' := SetPc(w, c, pc').(db := Occ.Step(NOTEBOOKS, w.db, e));
    TableKept(w.db, e);
    forall c' <- w'.dispatchers
      ensures PcOk(k, w', c')
    {
      if c' == c {
        SettleOwnPc(k, w, c, e, pc');
      } else {
        SettleOtherPc(k, w, c, e, pc', c');
      }
    }
    forall d <- w'.deployments
      ensures DeploymentOk(k, w'.db.rows, d)
    {
      SettleDeployment(k, w, c, e, d);
    }
    assert PcOk(k, w, c);
    SettleOwners(k, w, c, e, pc');
  }

  /** A dispatcher gives up; the report it waits for, if any, lives on. */
  lemma DisownKeepsInv(k: Scope, w: World, c: string, survives: bool)
    requires Inv(k, w) && c in w.dispatchers && w.dispatchers[c].pc.Busy? && !Hazard(k, w, Abandon(c, survives))
    requires survives || !w.dispatchers[c].pc.phase.Reporting?
    ensures Inv(k, SetPc(w, c, Idle))
  {
    var w' := SetPc(w, c, Idle);
    assert PcOk(k, w, c);
    forall c' <- w'.dispatchers
      ensures PcOk(k, w', c')
    {
      assert PcOk(k, w, c');
    }
    forall tid <- w'.db.pending | Leaves(k, w'.db.pending[tid])
      ensures Owned(w', tid)
    {
      var o :| o in w.dispatchers && Owns(w, o, tid);
      assert o != c && Owns(w', o, tid);
    }
    forall c1, c2, tid | c1 in w'.dispatchers && c2 in w'.dispatchers && Owns(w', c1, tid) && Owns(w', c2, tid)
      ensures c1 == c2
    {
      assert Owns(w, c1, tid) && Owns(w, c2, tid);
    }
  }

  lemma StepKeepsInv(k: Scope, w: World, s: Step)
    requires Inv(k, w) && !Hazard(k, w, s)
    ensures Inv(k, Do(w, s))
  {
    if Do(w, s) != w {
      if !(s.Create? || s.Ask? || s.Commit? || s.Drop?) {
        assert PcOk(k, w, s.c);
      }
      match s {
        case Create(id, row) => QuietEvent(k, w, Occ.Insert(id, row));
        case Ask(tid, id, origin, q) => QuietEvent(k, w, Occ.Read(tid, id, q));
        case Commit(tid) => QuietEvent(k, w, Occ.Commit(tid));
        case Drop(tid) => QuietEvent(k, w, Occ.Drop(tid));
        case List(c, order) => ListKeepsInv(k, w, c, order);
        case Act(c, outcome) => ActKeepsInv(k, w, c, outcome);
        case Send(c, tid, now) => SendStep(k, w, c, tid, now);
        case Land(c, replyLost) =>
          SettleKeepsInv(k, w, c, Occ.Commit(w.dispatchers[c].pc.phase.tid), Do(w, s).dispatchers[c].pc);
        case Abandon(c, survives) =>
          if survives || !w.dispatchers[c].pc.phase.Reporting? {
            DisownKeepsInv(k, w, c, survives);
          } else {
            SettleKeepsInv(k, w, c, Occ.Drop(w.dispatchers[c].pc.phase.tid), Idle);
          }
      }
    }
  }

  lemma SendStep(k: Scope, w: World, c: string, tid: Occ.Tid, now: Time)
    requires Inv(k, w) && Do(w, Send(c, tid, now)) != w
    ensures Inv(k, Do(w, Send(c, tid, now)))
  {
    var pc := w.dispatchers[c].pc;
    var id, q := pc.todo[0].id, ReportOf(pc.todo[0].action, now);
    if id in w.db.rows && w.db.rows[id].tenantId == w.dispatchers[c].tenantId && Writes(q, w.db.rows[id]) {
      SendKeepsInv(k, w, c, tid, now);
    } else {
      TodoShrinks(k, w, c);
      PcChange(k, w, c, Do(w, Send(c, tid, now)).dispatchers[c].pc);
    }
  }

  lemma TodoShrinks(k: Scope, w: World, c: string)
    requires Inv(k, w) && c in w.dispatchers && w.dispatchers[c].pc.Busy?
    ensures PcOk(k, SetPc(w, c, Working(w.dispatchers[c].pc.todo[1..])), c)
    ensures PcOk(k, SetPc(w, c, Idle), c)
  {
    assert PcOk(k, w, c);
    var todo := w.dispatchers[c].pc.todo;
    assert forall item <- todo[1..] :: item in todo;
  }

  /** No step of the run is a hazard. */
  ghost predicate Spared(k: Scope, w: World, ss: seq<Step>) {
    ss == [] || (Spared(k, w, ss[..|ss| - 1]) && !Hazard(k, Run(w, ss[..|ss| - 1]), ss[|ss| - 1]))
  }

  lemma {:induction false} InvAlways(k: Scope, tenants: map<string, string>, ss: seq<Step>)
    requires Spared(k, Init(tenants), ss)
    ensures Inv(k, Run(Init(tenants), ss))
  {
    if ss != [] {
      InvAlways(k, tenants, ss[..|ss| - 1]);
      StepKeepsInv(k, Run(Init(tenants), ss[..|ss| - 1]), ss[|ss| - 1]);
    }
  }

  /** Handoff safety. With one sequential dispatcher per cluster, every run of users, reconcilers, rescheduler and
      dispatchers, with stale lists, errors and retries, in which no Delete of this notebook for requeueing is
      swallowed and no report that it is requeued outlives its call, leaves it at most one Deployment, where its row
      says. What happens to other notebooks, or to this one on its way to another state, does not matter. */
  lemma HandoffSafety(tenants: map<string, string>, ss: seq<Step>, id: string)
    requires Spared(Scope(id, false), Init(tenants), ss)
    ensures SafeFor(Run(Init(tenants), ss), id)
  {
    var k, w := Scope(id, false), Run(Init(tenants), ss);
    InvAlways(k, tenants, ss);
    forall d <- w.deployments | d.id == id
      ensures id in w.db.rows && Some(d.namespace) == NamespaceOf(w.db.rows[id].envs, d.clusterId)
    {
      assert DeploymentOk(k, w.db.rows, d) && RowOk(w.db.rows[id]);
    }
    forall d, d' | d in w.deployments && d' in w.deployments && d.id == d'.id == id
      ensures d == d'
    {
      assert DeploymentOk(k, w.db.rows, d) && DeploymentOk(k, w.db.rows, d');
    }
  }

  /** No dispatcher has the notebook on its list. */
  ghost predicate Unlisted(w: World, id: string) {
    forall c <- w.dispatchers | w.dispatchers[c].pc.Busy? :: forall item <- w.dispatchers[c].pc.todo :: item.id != id
  }

  lemma LeftIsFree(k: Scope, w: World)
    requires Inv(k, w) && k.id in w.db.rows && Left(k, w.db.rows[k.id].state)
    ensures Absent(w.deployments, k.id) && Unlisted(w, k.id)
  {
    var id := k.id;
    forall d <- w.deployments
      ensures d.id != id
    {
      assert DeploymentOk(k, w.db.rows, d);
    }
    forall c <- w.dispatchers | w.dispatchers[c].pc.Busy?
      ensures forall item <- w.dispatchers[c].pc.todo :: item.id != id
    {
      assert PcOk(k, w, c);
      forall item <- w.dispatchers[c].pc.todo
        ensures item.id != id
      {
        assert ItemOk(k, w.db.rows, c, item);
      }
    }
  }

  /** A notebook that is requeued or deleted has no Deployment anywhere and is on no dispatcher's list, in every run
      in which none of its Deletes is swallowed and no report that it is requeued or deleted outlives its call. */
  lemma GoneIsFree(tenants: map<string, string>, ss: seq<Step>, id: string)
    requires Spared(Scope(id, true), Init(tenants), ss)
    ensures FreeFor(Run(Init(tenants), ss), id)
  {
    var k := Scope(id, true);
    InvAlways(k, tenants, ss);
    var w := Run(Init(tenants), ss);
    if id in w.db.rows && Left(k, w.db.rows[id].state) {
      LeftIsFree(k, w);
    }
  }

  ghost predicate FreeFor(w: World, id: string) {
    id in w.db.rows && (w.db.rows[id].state == Requeued || w.db.rows[id].state == Deleted) ==>
      Absent(w.deployments, id) && Unlisted(w, id)
  }

  /** A row changes by one handler run alone on it. */
  lemma StepChangesRow(w: World, s: Step, id: string) returns (q: Request)
    requires TableOk(w.db) && id in w.db.rows && id in Do(w, s).db.rows && Do(w, s).db.rows[id] != w.db.rows[id]
    ensures EventOf(w, s).Some? && q in Occ.Lands(NOTEBOOKS, w.db, EventOf(w, s).value, id)
    ensures Writes(q, w.db.rows[id]) && Do(w, s).db.rows[id] == Updated(q, w.db.rows[id], w.db.rows[id])
  {
    DbFollows(w, s);
    TableBumpsVersion();
    var e := EventOf(w, s).value;
    Occ.StepIsSerial(NOTEBOOKS, w.db, e, id);
    q :| q in Occ.Lands(NOTEBOOKS, w.db, e, id);
    assert Writes(q, w.db.rows[id]);
  }

  /** A row leaves its cluster only from `requeued`, when the notebook has no Deployment left anywhere and no
      dispatcher is working on it, and it goes to another cluster assigned to its project. */
  lemma LeavesOnlyWhenRemoved(tenants: map<string, string>, ss: seq<Step>, s: Step, id: string)
    requires Spared(Scope(id, false), Init(tenants), ss)
    requires var w := Run(Init(tenants), ss);
             id in w.db.rows && id in Do(w, s).db.rows && Do(w, s).db.rows[id].clusterId != w.db.rows[id].clusterId
    ensures var w := Run(Init(tenants), ss);
            && w.db.rows[id].state == Requeued && Absent(w.deployments, id) && Unlisted(w, id)
            && var r' := Do(w, s).db.rows[id];
               Placement(w.db.rows[id].envs, w.db.rows[id].clusterId, r'.clusterId, r'.message.namespace)
  {
    var k, w := Scope(id, false), Run(Init(tenants), ss);
    InvAlways(k, tenants, ss);
    var q := StepChangesRow(w, s, id);
    MoveIsPlacement(q, w.db.rows[id]);
    LeftIsFree(k, w);
  }

  /** The dispatcher reports that it has removed the notebook for good or for requeueing, and so it has. */
  ghost predicate Releases(k: Scope, w: World, s: Step) {
    && s.Land? && s.c in w.dispatchers && w.dispatchers[s.c].pc.Busy? && w.dispatchers[s.c].pc.todo != []
    && var item := w.dispatchers[s.c].pc.todo[0];
       item.id == k.id && Releasing(k, item.action) && Absent(w.deployments, k.id)
  }

  /** The handler that reports it gone belongs to the dispatcher of the cluster where it still is. */
  lemma LeavingReport(k: Scope, w: World, tid: Occ.Tid, q: Request) returns (c: string)
    requires Inv(k, w) && q in Occ.Lands(NOTEBOOKS, w.db, Occ.Commit(tid), k.id) && ReportsLeft(k, q)
    ensures c in w.dispatchers && Owns(w, c, tid) && Releases(k, w, Land(c, false))
    ensures k.id in w.db.rows && w.db.rows[k.id].clusterId == c
  {
    assert Leaves(k, w.db.pending[tid]) && Owned(w, tid);
    c :| c in w.dispatchers && Owns(w, c, tid);
    assert PcOk(k, w, c) && Waiting(w.db, tid, w.dispatchers[c].pc.todo[0]);
    assert w.dispatchers[c].pc.todo[0] in w.dispatchers[c].pc.todo;
  }

  /** Only when its dispatcher hears back does a handler write that a dispatcher waits for. */
  lemma OwnedLands(k: Scope, w: World, s: Step, c: string)
    requires OwnersOk(k, w) && EventOf(w, s).Some? && EventOf(w, s).value.Commit?
    requires c in w.dispatchers && Owns(w, c, EventOf(w, s).value.tid)
    ensures s.Land? && s.c == c
  {
    var tid := EventOf(w, s).value.tid;
    assert Owned(w, tid);
    if s.Land? {
      assert Owns(w, s.c, tid);
    }
  }

  lemma LeftReportLands(k: Scope, w: World, s: Step, q: Request)
    requires Inv(k, w) && EventOf(w, s).Some? && q in Occ.Lands(NOTEBOOKS, w.db, EventOf(w, s).value, k.id)
    requires ReportsLeft(k, q)
    ensures Releases(k, w, s) && k.id in w.db.rows && w.db.rows[k.id].clusterId == s.c
  {
    var c := LeavingReport(k, w, EventOf(w, s).value.tid, q);
    OwnedLands(k, w, s, c);
  }

  /** A notebook becomes requeued (or deleted) only when the dispatcher of its own cluster reports so, after
      removing it. */
  lemma OnlyItsDispatcherReleases(k: Scope, tenants: map<string, string>, ss: seq<Step>, s: Step)
    requires Spared(k, Init(tenants), ss)
    requires var w := Run(Init(tenants), ss);
             && k.id in w.db.rows && k.id in Do(w, s).db.rows
             && !Left(k, w.db.rows[k.id].state) && Left(k, Do(w, s).db.rows[k.id].state)
    ensures var w := Run(Init(tenants), ss); Releases(k, w, s) && w.db.rows[k.id].clusterId == s.c
  {
    var w := Run(Init(tenants), ss);
    InvAlways(k, tenants, ss);
    var q := StepChangesRow(w, s, k.id);
    RowMoves(k, q, w.db.rows[k.id]);
    LeftReportLands(k, w, s, q);
  }

  /** What a step does to the table. */
  function EventOf(w: World, s: Step): Option<Event> {
    if Do(w, s).db == w.db then None
    else match s
      case Create(id, row) => Some(Occ.Insert(id, row))
      case Ask(tid, id, _, q) => Some(Occ.Read(tid, id, q))
      case Commit(tid) => Some(Occ.Commit(tid))
      case Drop(tid) => Some(Occ.Drop(tid))
      case Send(c, tid, now) =>
        if c in w.dispatchers && w.dispatchers[c].pc.Busy? && w.dispatchers[c].pc.todo != []
        then Some(Occ.Read(tid, w.dispatchers[c].pc.todo[0].id,
            ReportOf(w.dispatchers[c].pc.todo[0].action, now))) else None
      case Land(c, _) =>
        if c in w.dispatchers && w.dispatchers[c].pc.Busy? && w.dispatchers[c].pc.phase.Reporting?
        then Some(Occ.Commit(w.dispatchers[c].pc.phase.tid)) else None
      case Abandon(c, _) =>
        if c in w.dispatchers && w.dispatchers[c].pc.Busy? && w.dispatchers[c].pc.phase.Reporting?
        then Some(Occ.Drop(w.dispatchers[c].pc.phase.tid)) else None
      case _ => None
  }

  lemma DbFollows(w: World, s: Step)
    ensures match EventOf(w, s)
            case None => Do(w, s).db == w.db
            case Some(e) => Do(w, s).db == Occ.Step(NOTEBOOKS, w.db, e) && (e.Insert? ==> IsCreated(e.row))
  {
  }

  ghost predicate ActionsKnown(w: World) {
    forall c <- w.dispatchers | w.dispatchers[c].pc.Busy? :: forall item <- w.dispatchers[c].pc.todo ::
        item.action != NoAction
  }

  /** The "action not specified" branch of the dispatcher never fires: in every run, whatever fails,
      every row is in order and every listed item has an action. */
  lemma {:induction false} NeverUnspecified(tenants: map<string, string>, ss: seq<Step>)
    ensures var w := Run(Init(tenants), ss); TableOk(w.db) && ActionsKnown(w)
  {
    if ss != [] {
      var w, s := Run(Init(tenants), ss[..|ss| - 1]), ss[|ss| - 1];
      NeverUnspecified(tenants, ss[..|ss| - 1]);
      DbFollows(w, s);
      if EventOf(w, s).Some? {
        TableKept(w.db, EventOf(w, s).value);
      }
      ActionsStayKnown(w, s);
    }
  }

  lemma ActionsStayKnown(w: World, s: Step)
    requires TableOk(w.db) && ActionsKnown(w)
    ensures ActionsKnown(Do(w, s))
  {
    var w' := Do(w, s);
    forall c <- w'.dispatchers | w'.dispatchers[c].pc.Busy?
      ensures forall item <- w'.dispatchers[c].pc.todo :: item.action != NoAction
    {
      var todo := w'.dispatchers[c].pc.todo;
      if s.List? && s.c == c && w'.dispatchers != w.dispatchers {
        forall i | 0 <= i < |todo| ensures todo[i].action != NoAction {
          assert s.order[i] in s.order && RowOk(w.db.rows[s.order[i]]);
        }
      } else {
        assert w.dispatchers[c].pc.Busy?;
        forall item <- todo ensures item in w.dispatchers[c].pc.todo {}
      }
    }
  }
}
