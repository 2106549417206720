/** What the dispatcher's calls do to Deployments, and that no report of a notebook stopped, deleted or requeued lands
without the call behind it. */
module NotebookWork {
  import opened Common
  import opened NotebookStore
  import opened NotebookServer
  import opened NotebookLifecycle
  import opened NotebookProtocol
  import opened NotebookHandoff
  import Occ

  /** Which Deployment a call is about, what is there after it, and when the dispatcher goes on to report. A start
      leaves the Deployment in place; a stop needs it and changes none; a removal takes exactly it away unless it is
      swallowed; an error is never reported as success. */
  lemma WorkExactly(ds: set<Deployment>, c: string, item: Item, outcome: Outcome)
    ensures var (ds', ok) := Work(ds, c, item, outcome);
      var d := Deployment(item.id, c, item.namespace);
      && (outcome.Error? ==> !ok)
      && (forall x :: x != d ==> (x in ds' <==> x in ds))
      && (item.action == Starting ==>
            (ok <==> outcome == Fine) && (d in ds' <==> d in ds || outcome == Fine || outcome == Error(true)))
      && (item.action == Stopping ==> (ok <==> outcome == Fine && d in ds) && ds' == ds)
      && (item.action in {Deleting, Requeueing} ==>
            (ok <==> outcome == Fine || outcome == Swallowed) && (d in ds' <==> d in ds && outcome != Fine))
      && (item.action == NoAction ==> !ok && ds' == ds)
  {
  }

  /** What each origin may ask for: users stop, start and delete notebooks of their project, reconcilers report
      initializing and running ones of their tenant, and the rescheduler requeues and reschedules any. */
  lemma AllowedExactly(origin: Origin, op: Op, r: Row)
    ensures Allowed(origin, op, r) <==>
      || (origin == FromUser(r.projectId) && op in {Stop, Start, Delete})
      || (origin == FromReconciler(r.tenantId) && op.Report? && op.state in {Is(Initializing), Is(Running)})
      || (origin == FromRescheduler && (op.Requeue? || op.Reschedule?))
  {
  }

  // What each step of the protocol does.

  /** Everybody but the dispatchers may act on the table at any time; nothing else changes. */
  lemma TableStepsExactly(w: World, tid: Occ.Tid, id: string, origin: Origin, q: Request, row: Row)
    ensures IsCreated(row) ==> Do(w, Create(id, row)) == w.(db := Occ.Step(NOTEBOOKS, w.db, Occ.Insert(id, row)))
    ensures id in w.db.rows && Allowed(origin, q.op, w.db.rows[id]) ==>
            Do(w, Ask(tid, id, origin, q)) == w.(db := Occ.Step(NOTEBOOKS, w.db, Occ.Read(tid, id, q)))
    ensures !Owned(w, tid) ==> Do(w, Commit(tid)) == w.(db := Occ.Step(NOTEBOOKS, w.db, Occ.Commit(tid)))
    ensures !Owned(w, tid) ==> Do(w, Drop(tid)) == w.(db := Occ.Step(NOTEBOOKS, w.db, Occ.Drop(tid)))
  {
  }

  /** An idle dispatcher may list what is queued at its cluster, in any order; one that is about to work does so, and
      goes on to report or ends its pass; one that is busy may give up at any time. */
  lemma PassStepsExactly(w: World, c: string, order: seq<string>, item: Item, outcome: Outcome)
    requires c in w.dispatchers
    ensures w.dispatchers[c].pc.Idle? && IsListing(w.db.rows, w.dispatchers[c].tenantId, c, order) ==>
            Do(w, List(c, order)) == SetPc(w, c, Working(Items(w.db.rows, order)))
    ensures AboutTo(w, c, item) ==>
            var (ds, ok) := Work(w.deployments, c, item, outcome);
            var pc := if ok then w.dispatchers[c].pc.(phase := Acted) else Idle;
            Do(w, Act(c, outcome)) == SetPc(w, c, pc).(deployments := ds)
    ensures w.dispatchers[c].pc.Busy? ==> Do(w, Abandon(c, true)) == SetPc(w, c, Idle)
    ensures w.dispatchers[c].pc.Busy? && w.dispatchers[c].pc.phase.Reporting? ==>
            Do(w, Abandon(c, false)) ==
              SetPc(w, c, Idle).(db := Occ.Step(NOTEBOOKS, w.db, Occ.Drop(w.dispatchers[c].pc.phase.tid)))
  {
  }

  /** A report on the item worked on reads its row and goes on to write if the server's guards let it; a refusal ends
      the pass. When it has written, the dispatcher goes on with its list unless there was a conflict or the reply is
      lost. */
  lemma ReportStepsExactly(w: World, c: string, tid: Occ.Tid, now: Time, replyLost: bool)
    requires c in w.dispatchers && w.dispatchers[c].pc.Busy? && w.dispatchers[c].pc.todo != []
    ensures var pc := w.dispatchers[c].pc;
      var item, t := pc.todo[0], w.dispatchers[c].tenantId;
      var q, seen := ReportOf(item.action, now), item.id in w.db.rows && w.db.rows[item.id].tenantId == t;
      pc.phase == Acted && tid !in w.db.pending ==>
        Do(w, Send(c, tid, now)) ==
          if seen && Writes(q, w.db.rows[item.id])
          then SetPc(w, c, pc.(phase := Reporting(tid))).(db := Occ.Step(NOTEBOOKS, w.db, Occ.Read(tid, item.id, q)))
          else
            var taken := seen && Decide(q.op, w.db.rows[item.id], now).Accept?;
            SetPc(w, c, if taken then Working(pc.todo[1..]) else Idle)
    ensures var pc := w.dispatchers[c].pc;
      pc.phase.Reporting? ==>
        var ok := pc.phase.tid in w.db.pending && Occ.Current(NOTEBOOKS, w.db.rows, w.db.pending[pc.phase.tid]);
        Do(w, Land(c, replyLost)) ==
          SetPc(w, c, if ok && !replyLost then Working(pc.todo[1..]) else Idle).(
            db := Occ.Step(NOTEBOOKS, w.db, Occ.Commit(pc.phase.tid)))
  {
  }

  // No report without its work.

  /** The dispatcher of `c` is about to work on this item. */
  predicate AboutTo(w: World, c: string, item: Item) {
    && c in w.dispatchers && w.dispatchers[c].pc.Busy? && w.dispatchers[c].pc.phase == Acting
    && w.dispatchers[c].pc.todo != [] && w.dispatchers[c].pc.todo[0] == item
  }

  /** Step `j` of the run was the work of cluster `c` on this item, and it succeeded. */
  ghost predicate DidAt(tenants: map<string, string>, ss: seq<Step>, j: int, c: string, item: Item) {
    && 0 <= j < |ss| && ss[j].Act? && ss[j].c == c
    && var w := Run(Init(tenants), ss[..j]);
       AboutTo(w, c, item) && Work(w.deployments, c, item, ss[j].outcome).1
  }

  ghost predicate Did(tenants: map<string, string>, ss: seq<Step>, c: string, item: Item) {
    exists j :: DidAt(tenants, ss, j, c, item)
  }

  lemma StillDid(tenants: map<string, string>, ss: seq<Step>, c: string, item: Item)
    requires ss != [] && Did(tenants, ss[..|ss| - 1], c, item)
    ensures Did(tenants, ss, c, item)
  {
    var init := ss[..|ss| - 1];
    var j :| DidAt(tenants, init, j, c, item);
    assert init[..j] == ss[..j];
    assert DidAt(tenants, ss, j, c, item);
  }

  /** The states only dispatchers report. */
  predicate OnlyDispatchers(s: Reported) {
    s in {Is(Stopped), Is(Deleted), Is(Requeued)}
  }

  /** Whoever has worked on his current item did so in this run. */
  ghost predicate PcDid(tenants: map<string, string>, ss: seq<Step>, w: World, c: string)
    requires c in w.dispatchers
  {
    var pc := w.dispatchers[c].pc;
    pc.Busy? && pc.todo != [] && pc.phase != Acting ==> Did(tenants, ss, c, pc.todo[0])
  }

  /** The item whose work a pending report is about; if `own`, it was done where the row then was. */
  predicate IsWorkOf(p: Occ.Pending<Row, Request>, own: bool, c: string, item: Item) {
    && item.id == p.id && p.q.op == Report(NotebookLifecycle.Outcome(item.action), "")
    && (own ==> c == p.snap.clusterId && item.namespace == p.snap.message.namespace)
  }

  ghost predicate PendingDid(tenants: map<string, string>, ss: seq<Step>, p: Occ.Pending<Row, Request>, own: bool) {
    p.q.op.Report? && OnlyDispatchers(p.q.op.state) ==>
      exists c, item :: IsWorkOf(p, own, c, item) && Did(tenants, ss, c, item)
  }

  /** Nothing is reported that was not done. With `own`, about the notebook of the scope. */
  ghost predicate Backed(tenants: map<string, string>, ss: seq<Step>, w: World, k: Scope, own: bool) {
    && (forall c <- w.dispatchers :: PcDid(tenants, ss, w, c))
    && (forall tid <- w.db.pending :: PendingDid(tenants, ss, w.db.pending[tid], own && w.db.pending[tid].id == k.id))
  }

  lemma PendingStays(tenants: map<string, string>, ss: seq<Step>, p: Occ.Pending<Row, Request>, own: bool)
    requires ss != [] && PendingDid(tenants, ss[..|ss| - 1], p, own)
    ensures PendingDid(tenants, ss, p, own)
  {
    if p.q.op.Report? && OnlyDispatchers(p.q.op.state) {
      var c, item :| IsWorkOf(p, own, c, item) && Did(tenants, ss[..|ss| - 1], c, item);
      StillDid(tenants, ss, c, item);
    }
  }

  /** A dispatcher that has worked on its item had done so before the step, or has just done it. */
  lemma PcStep(w: World, s: Step, c: string)
    requires c in w.dispatchers && c in Do(w, s).dispatchers
    requires var pc := Do(w, s).dispatchers[c].pc; pc.Busy? && pc.todo != [] && pc.phase != Acting
    ensures var pc, item := w.dispatchers[c].pc, Do(w, s).dispatchers[c].pc.todo[0];
      || (pc.Busy? && pc.todo != [] && pc.phase != Acting && pc.todo[0] == item)
      || (s.Act? && s.c == c && AboutTo(w, c, item) && Work(w.deployments, c, item, s.outcome).1)
  {
  }

  lemma PcKept(tenants: map<string, string>, ss: seq<Step>, c: string)
    requires ss != []
    requires var w := Run(Init(tenants), ss[..|ss| - 1]);
             c in w.dispatchers && c in Do(w, ss[|ss| - 1]).dispatchers && PcDid(tenants, ss[..|ss| - 1], w, c)
    ensures PcDid(tenants, ss, Do(Run(Init(tenants), ss[..|ss| - 1]), ss[|ss| - 1]), c)
  {
    var n := |ss| - 1;
    var w := Run(Init(tenants), ss[..n]);
    var pc, pc' := w.dispatchers[c].pc, Do(w, ss[n]).dispatchers[c].pc;
    if pc'.Busy? && pc'.todo != [] && pc'.phase != Acting {
      PcStep(w, ss[n], c);
      var item := pc'.todo[0];
      if pc.Busy? && pc.todo != [] && pc.phase != Acting && pc.todo[0] == item {
        StillDid(tenants, ss, c, item);
      } else {
        assert DidAt(tenants, ss, n, c, item);
      }
    }
  }

  /** A handler that was not pending before: asked for by somebody else, or a dispatcher's report on its item. */
  lemma NewPending(w: World, s: Step, tid: Occ.Tid)
    requires tid !in w.db.pending && tid in Do(w, s).db.pending
    ensures var p := Do(w, s).db.pending[tid];
      || (p.q.op.Report? ==> !OnlyDispatchers(p.q.op.state))
      || (&& s.Send? && s.c in w.dispatchers && w.dispatchers[s.c].pc.Busy? && w.dispatchers[s.c].pc.phase == Acted
          && w.dispatchers[s.c].pc.todo != [] && p.id in w.db.rows && p.snap == w.db.rows[p.id]
          && p.id == w.dispatchers[s.c].pc.todo[0].id
          && p.q.op == Report(NotebookLifecycle.Outcome(w.dispatchers[s.c].pc.todo[0].action), ""))
  {
  }

  lemma OldPending(w: World, s: Step, tid: Occ.Tid)
    requires tid in w.db.pending && tid in Do(w, s).db.pending
    ensures Do(w, s).db.pending[tid] == w.db.pending[tid]
  {
  }

  lemma PendingKept(tenants: map<string, string>, ss: seq<Step>, k: Scope, own: bool, tid: Occ.Tid)
    requires ss != []
    requires var w := Run(Init(tenants), ss[..|ss| - 1]);
             Backed(tenants, ss[..|ss| - 1], w, k, own) && (own ==> Inv(k, w))
    requires tid in Run(Init(tenants), ss).db.pending
    ensures var p := Run(Init(tenants), ss).db.pending[tid]; PendingDid(tenants, ss, p, own && p.id == k.id)
  {
    var w, s := Run(Init(tenants), ss[..|ss| - 1]), ss[|ss| - 1];
    var p := Do(w, s).db.pending[tid];
    if tid in w.db.pending {
      OldPending(w, s, tid);
      PendingStays(tenants, ss, p, own && p.id == k.id);
    } else if p.q.op.Report? && OnlyDispatchers(p.q.op.state) {
      NewPending(w, s, tid);
      var item := w.dispatchers[s.c].pc.todo[0];
      assert PcDid(tenants, ss[..|ss| - 1], w, s.c);
      StillDid(tenants, ss, s.c, item);
      if own && p.id == k.id {
        assert PcOk(k, w, s.c);
        assert item in w.dispatchers[s.c].pc.todo && ItemOk(k, w.db.rows, s.c, item);
      }
      assert IsWorkOf(p, own && p.id == k.id, s.c, item);
    }
  }

  lemma DispatchersStay(w: World, s: Step)
    ensures Do(w, s).dispatchers.Keys == w.dispatchers.Keys
  {
  }

  lemma {:induction false} AlwaysBacked(tenants: map<string, string>, ss: seq<Step>, k: Scope, own: bool)
    requires own ==> Spared(k, Init(tenants), ss)
    ensures Backed(tenants, ss, Run(Init(tenants), ss), k, own)
  {
    if ss != [] {
      var init := ss[..|ss| - 1];
      AlwaysBacked(tenants, init, k, own);
      var w := Run(Init(tenants), init);
      if own {
        InvAlways(k, tenants, init);
      }
      DispatchersStay(w, ss[|ss| - 1]);
      forall c <- Run(Init(tenants), ss).dispatchers
        ensures PcDid(tenants, ss, Run(Init(tenants), ss), c)
      {
        assert PcDid(tenants, init, w, c);
        PcKept(tenants, ss, c);
      }
      forall tid <- Run(Init(tenants), ss).db.pending
        ensures var p := Run(Init(tenants), ss).db.pending[tid]; PendingDid(tenants, ss, p, own && p.id == k.id)
      {
        PendingKept(tenants, ss, k, own, tid);
      }
    }
  }

  lemma BecomesByReport(q: Request, r: Row, s: State)
    requires Writes(q, r) && r.state != s && Updated(q, r, r).state == s && OnlyDispatchers(Is(s))
    ensures q.op.Report? && q.op.state == Is(s)
  {
  }

  /** The handler whose write changes a row had read that row. */
  lemma LandingHandler(w: World, s: Step, id: string) returns (tid: Occ.Tid)
    requires TableOk(w.db) && id in w.db.rows && id in Do(w, s).db.rows && Do(w, s).db.rows[id] != w.db.rows[id]
    ensures tid in w.db.pending && w.db.pending[tid].id == id && w.db.pending[tid].snap == w.db.rows[id]
    ensures Writes(w.db.pending[tid].q, w.db.rows[id])
    ensures Do(w, s).db.rows[id] == Updated(w.db.pending[tid].q, w.db.rows[id], w.db.rows[id])
  {
    var q := StepChangesRow(w, s, id);
    tid := EventOf(w, s).value.tid;
    assert Occ.Fresh(NOTEBOOKS, w.db.rows, w.db.pending[tid]);
  }

  /** In every run a row becomes stopped, deleted or requeued only after the work that the report is about has succeeded
      in this run; and if no hazard has hit the notebook (`own`), in the cluster and namespace where the row is. */
  lemma OnlyAfterItsWork(tenants: map<string, string>, ss: seq<Step>, s: Step, id: string, st: State, own: bool)
    returns (c: string, item: Item)
    requires own ==> Spared(Scope(id, false), Init(tenants), ss)
    requires st in {Stopped, Deleted, Requeued}
    requires var w := Run(Init(tenants), ss);
             id in w.db.rows && id in Do(w, s).db.rows && w.db.rows[id].state != st == Do(w, s).db.rows[id].state
    ensures Did(tenants, ss, c, item) && item.id == id && NotebookLifecycle.Outcome(item.action) == Is(st)
    ensures own ==> var r := Run(Init(tenants), ss).db.rows[id];
                    c == r.clusterId && item.namespace == r.message.namespace
  {
    var k, w := Scope(id, false), Run(Init(tenants), ss);
    AlwaysBacked(tenants, ss, k, own);
    NeverUnspecified(tenants, ss);
    var tid := LandingHandler(w, s, id);
    var p := w.db.pending[tid];
    BecomesByReport(p.q, w.db.rows[id], st);
    assert PendingDid(tenants, ss, p, own && p.id == k.id);
    c, item :| IsWorkOf(p, own && p.id == k.id, c, item) && Did(tenants, ss, c, item);
  }

  /** So a row becomes stopped only after a stop call on a Deployment of that notebook, which was there, ended fine; on
      its own Deployment, if no hazard has hit the notebook. */
  lemma StoppedOnlyAfterStop(tenants: map<string, string>, ss: seq<Step>, s: Step, id: string, own: bool)
    returns (j: nat, c: string, namespace: string)
    requires own ==> Spared(Scope(id, false), Init(tenants), ss)
    requires var w := Run(Init(tenants), ss);
             id in w.db.rows && id in Do(w, s).db.rows && w.db.rows[id].state != Stopped == Do(w, s).db.rows[id].state
    ensures j < |ss| && ss[j] == Act(c, Fine)
    ensures var w := Run(Init(tenants), ss[..j]);
            AboutTo(w, c, Item(id, Stopping, namespace)) && Deployment(id, c, namespace) in w.deployments
    ensures own ==> var r := Run(Init(tenants), ss).db.rows[id];
                    c == r.clusterId && namespace == r.message.namespace
  {
    var item;
    c, item := OnlyAfterItsWork(tenants, ss, s, id, Stopped, own);
    j :| DidAt(tenants, ss, j, c, item);
    namespace := item.namespace;
    WorkExactly(Run(Init(tenants), ss[..j]).deployments, c, item, ss[j].outcome);
  }

  /** And deleted or requeued only after a removal that ended fine, or was swallowed. */
  lemma GoneOnlyAfterRemoval(tenants: map<string, string>, ss: seq<Step>, s: Step, id: string, st: State, own: bool)
    returns (j: nat, c: string, item: Item)
    requires own ==> Spared(Scope(id, false), Init(tenants), ss)
    requires st == Deleted || st == Requeued
    requires var w := Run(Init(tenants), ss);
             id in w.db.rows && id in Do(w, s).db.rows && w.db.rows[id].state != st == Do(w, s).db.rows[id].state
    ensures j < |ss| && (ss[j] == Act(c, Fine) || ss[j] == Act(c, Swallowed))
    ensures AboutTo(Run(Init(tenants), ss[..j]), c, item) && item.id == id
    ensures item.action == if st == Deleted then Deleting else Requeueing
    ensures own ==> var r := Run(Init(tenants), ss).db.rows[id];
                    c == r.clusterId && item.namespace == r.message.namespace
  {
    c, item := OnlyAfterItsWork(tenants, ss, s, id, st, own);
    j :| DidAt(tenants, ss, j, c, item);
    WorkExactly(Run(Init(tenants), ss[..j]).deployments, c, item, ss[j].outcome);
  }
}
