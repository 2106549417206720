/** The worker side in its own form: the polling pass and the reconciler of one cluster. */
module NotebookDispatcher {
  import opened Common
  import opened NotebookStore
  import opened NotebookServer
  import opened NotebookLifecycle
  import opened NotebookProtocol
  import opened NotebookWork

  const CONTAINER := "jupyterlab"

  datatype Container = Container(name: string, waiting: Option<string>)

  /** What the reconciler reads of a Deployment and its pods (None: listing them fails). */
  datatype Observed = Observed(deleting: bool, replicas: nat, readyReplicas: nat, pods: Option<seq<seq<Container>>>)

  /** The first notebook container of the first pod waits for its image. */
  predicate Pulling(pods: seq<seq<Container>>) {
    pods != [] && exists i | 0 <= i < |pods[0]| ::
      && pods[0][i].name == CONTAINER
      && (forall j | 0 <= j < i :: pods[0][j].name != CONTAINER)
      && pods[0][i].waiting.Some? && Contains(pods[0][i].waiting.value, PULLING)
  }

  /** In other words, the first pod lists the notebook's container, for the first time, with such a reason for
      waiting. */
  lemma PullingExactly(pods: seq<seq<Container>>)
    ensures Pulling(pods) <==>
      pods != [] && exists before, reason, rest ::
        IsPull(pods[0], before, reason, rest) && exists x, y :: reason == x + "Pulling" + y
  {
    if Pulling(pods) {
      var pod := pods[0];
      var i :| 0 <= i < |pod| && pod[i].name == CONTAINER && (forall j | 0 <= j < i :: pod[j].name != CONTAINER)
               && pod[i].waiting.Some? && Contains(pod[i].waiting.value, PULLING);
      PullAt(pod, i);
      ContainsExactly(pod[i].waiting.value, PULLING);
    }
    if pods != [] {
      if before, reason, rest :|
          IsPull(pods[0], before, reason, rest) && exists x, y :: reason == x + "Pulling" + y {
        ContainsExactly(reason, PULLING);
        PullIs(pods[0], before, reason, rest);
      }
    }
  }

  lemma PullAt(pod: seq<Container>, i: nat)
    requires i < |pod| && pod[i].name == CONTAINER && pod[i].waiting.Some?
    requires forall j | 0 <= j < i :: pod[j].name != CONTAINER
    ensures IsPull(pod, pod[..i], pod[i].waiting.value, pod[i + 1..])
  {
    assert pod == pod[..i] + [pod[i]] + pod[i + 1..];
  }

  lemma PullIs(pod: seq<Container>, before: seq<Container>, reason: string, rest: seq<Container>)
    requires IsPull(pod, before, reason, rest)
    ensures var i := |before|;
      && i < |pod| && pod[i].name == CONTAINER && pod[i].waiting == Some(reason)
      && forall j | 0 <= j < i :: pod[j].name != CONTAINER
  {
    assert forall j | 0 <= j < |before| :: pod[j] == before[j];
    assert pod[|before|] == Container(CONTAINER, Some(reason));
  }

  predicate IsPull(pod: seq<Container>, before: seq<Container>, reason: string, rest: seq<Container>) {
    && pod == before + [Container(CONTAINER, Some(reason))] + rest
    && forall j :: 0 <= j < |before| ==> before[j].name != CONTAINER
  }

  /** What one reconciliation does. */
  datatype Effect = Silent | Fails | Reports(report: Op)

  /** INITIALIZING is reported exactly while the image is pulled, RUNNING exactly when all replicas are ready otherwise,
      and it fails exactly when a Kubernetes call it needs does. */
  method Reconcile(o: Fetched<Observed>) returns (e: Effect)
    ensures e.Fails? <==>
            o.Broken? || (o.Found? && !o.value.deleting && o.value.replicas > 0 && o.value.pods.None?)
    ensures e == Reports(Report(Is(Initializing), PULLING)) <==>
            && o.Found? && !o.value.deleting && o.value.replicas > 0
            && o.value.pods.Some? && Pulling(o.value.pods.value)
    ensures e == Reports(Report(Is(Running), "")) <==>
            && o.Found? && !o.value.deleting && o.value.replicas > 0
            && o.value.pods.Some? && !Pulling(o.value.pods.value) && o.value.readyReplicas >= o.value.replicas
    ensures e.Reports? ==> e.report == Report(Is(Initializing), PULLING) || e.report == Report(Is(Running), "")
  {
    if o.Broken? { return Fails; }
    if o.Missing? { return Silent; }
    var nb := o.value;
    if nb.deleting { return Silent; }
    if nb.replicas == 0 { return Silent; }
    if nb.pods.None? { return Fails; }
    var reason, state := "", Running;
    if |nb.pods.value| > 0 {
      var pod, i := nb.pods.value[0], 0;
      while i < |pod|
        invariant 0 <= i <= |pod|
        invariant forall j | 0 <= j < i :: pod[j].name != CONTAINER
        invariant reason == "" && state == Running
      {
        if pod[i].name == CONTAINER {
          if pod[i].waiting.Some? && Contains(pod[i].waiting.value, PULLING) {
            reason, state := PULLING, Initializing;
          }
          break;
        }
        i := i + 1;
      }
    }
    if nb.readyReplicas < nb.replicas && reason == "" { return Silent; }
    return Reports(Report(Is(state), reason));
  }

  // One polling pass.

  /** What a pass starts from and works with: the items it listed, what the Kubernetes API makes of its calls, and what
      users, reconcilers, rescheduler and other dispatchers do to the table before the report on each item. */
  datatype Pass = Pass(
    tenantId: string, c: string, items: seq<Item>,
    api: Item -> Outcome, meanwhile: (nat, map<string, Row>) -> map<string, Row>, now: Time)

  /** Where a pass is: `ok` as long as nothing has failed. */
  datatype Progress = Progress(rows: map<string, Row>, ds: set<Deployment>, ok: bool)

  /** The work on an item and, if it succeeds, the report. An error of either ends the pass. */
  function Handled(rows: map<string, Row>, ds: set<Deployment>, tenantId: string, c: string, nb: Item, outcome: Outcome,
                   now: Time): Progress {
    var q := ReportOf(nb.action, now);
    var (ds, done) := Work(ds, c, nb, outcome);
    if done
    then Progress(Served(rows, nb.id, Worker(tenantId), q), ds, Answer(rows, nb.id, Worker(tenantId), q) == Done)
    else Progress(rows, ds, false)
  }

  function OneItem(p: Pass, i: nat, rows: map<string, Row>, ds: set<Deployment>): Progress
    requires i < |p.items|
  {
    Handled(p.meanwhile(i, rows), ds, p.tenantId, p.c, p.items[i], p.api(p.items[i]), p.now)
  }

  /** The end of a pass that has come to item `i`. */
  function Rest(p: Pass, i: nat, rows: map<string, Row>, ds: set<Deployment>): Progress
    requires i <= |p.items|
    decreases |p.items| - i
  {
    if i == |p.items| then Progress(rows, ds, true)
    else
      var after := OneItem(p, i, rows, ds);
      if after.ok then Rest(p, i + 1, after.rows, after.ds) else after
  }

  class ClusterDispatcher {
    const server: Server
    const tenantId: string
    const clusterId: string
    var deployments: set<Deployment>

    constructor (server: Server, tenantId: string, clusterId: string)
      ensures this.server == server && this.tenantId == tenantId && this.clusterId == clusterId && deployments == {}
    {
      this.server, this.tenantId, this.clusterId, deployments := server, tenantId, clusterId, {};
    }

    /** One item of a pass, however stale: the call to the Kubernetes API and, if it succeeds, the report. */
    method ProcessNotebook(nb: Item, outcome: Outcome, now: Time) returns (ok: bool)
      modifies this, server.store
      ensures Progress(server.store.rows, deployments, ok) ==
              Handled(old(server.store.rows), old(deployments), tenantId, clusterId, nb, outcome, now)
    {
      var (after, done) := Work(deployments, clusterId, nb, outcome);
      deployments := after;
      if !done { return false; }
      var r := server.UpdateNotebookState(nb.id, tenantId, NotebookLifecycle.Outcome(nb.action), "", now);
      return r == Done;
    }

    /** The loop of a pass over listed items, whatever happens to the table in the meantime. */
    method ProcessItems(items: seq<Item>, api: Item -> Outcome,
                        meanwhile: (nat, map<string, Row>) -> map<string, Row>, now: Time) returns (ok: bool)
      modifies this, server.store
      ensures var p := Pass(tenantId, clusterId, items, api, meanwhile, now);
              Progress(server.store.rows, deployments, ok) == Rest(p, 0, old(server.store.rows), old(deployments))
    {
      ghost var p := Pass(tenantId, clusterId, items, api, meanwhile, now);
      ghost var end := Rest(p, 0, server.store.rows, deployments);
      var i := 0;
      while i < |items|
        invariant 0 <= i <= |items| && Rest(p, i, server.store.rows, deployments) == end
      {
        server.store.rows := meanwhile(i, server.store.rows);
        ok := ProcessNotebook(items[i], api(items[i]), now);
        if !ok { return; }
        i := i + 1;
      }
      return true;
    }

    /** A pass over the notebooks queued at the cluster, listed in any order. */
    method ProcessNotebooks(order: seq<string>, api: Item -> Outcome,
                            meanwhile: (nat, map<string, Row>) -> map<string, Row>, now: Time) returns (ok: bool)
      requires IsListing(server.store.rows, tenantId, clusterId, order)
      modifies this, server.store
      ensures var items := Items(old(server.store.rows), order);
              var p := Pass(tenantId, clusterId, items, api, meanwhile, now);
              Progress(server.store.rows, deployments, ok) == Rest(p, 0, old(server.store.rows), old(deployments))
    {
      ok := ProcessItems(Items(server.store.rows, order), api, meanwhile, now);
    }
  }

  // What holds of a pass whatever happens to the table in the meantime.

  /** The row is still queued for the action that was done. */
  predicate StillWanted(rows: map<string, Row>, tenantId: string, nb: Item) {
    && nb.id != "" && nb.id in rows && rows[nb.id].tenantId == tenantId
    && rows[nb.id].state == Queued && rows[nb.id].action == nb.action != NoAction
  }

  /** When the call behind an action succeeds: a start if it ends fine, a stop if it does and the Deployment is there, a
      removal if it ends fine or its failure is swallowed. */
  predicate CallSucceeds(ds: set<Deployment>, c: string, nb: Item, outcome: Outcome) {
    match nb.action
    case Starting => outcome == Fine
    case Stopping => outcome == Fine && Deployment(nb.id, c, nb.namespace) in ds
    case Deleting => outcome == Fine || outcome == Swallowed
    case Requeueing => outcome == Fine || outcome == Swallowed
    case NoAction => false
  }

  /** A pass never overrides a newer request: the report on an item changes the table exactly if the call succeeded and
      the row is still queued for that action, and then it settles that row and touches no other. A call that fails
      ends the pass. */
  lemma ItemSettlesExactly(p: Pass, i: nat, rows: map<string, Row>, ds: set<Deployment>)
    requires i < |p.items|
    ensures var rows', nb, after := p.meanwhile(i, rows), p.items[i], OneItem(p, i, rows, ds);
      var done := CallSucceeds(ds, p.c, nb, p.api(nb));
      && (after.ok ==> done)
      && (done && StillWanted(rows', p.tenantId, nb) ==> after.ok)
      && after.rows == if done && StillWanted(rows', p.tenantId, nb)
                       then rows'[nb.id := Settled(rows'[nb.id], p.now)] else rows'
  {
    var rows', nb := p.meanwhile(i, rows), p.items[i];
    WorkExactly(ds, p.c, nb, p.api(nb));
    if nb.id in rows' {
      ReportWritesExactly(rows'[nb.id], nb.action, p.now);
    }
  }

  /** In particular an error of the Kubernetes API is never reported as success. */
  lemma ErrorEndsPass(p: Pass, i: nat, rows: map<string, Row>, ds: set<Deployment>)
    requires i < |p.items| && p.api(p.items[i]).Error?
    ensures !OneItem(p, i, rows, ds).ok && OneItem(p, i, rows, ds).rows == p.meanwhile(i, rows)
  {
    ItemSettlesExactly(p, i, rows, ds);
  }

  /** What an item does to Deployments: a start leaves its own in place, a stop changes none, a removal takes its own
      away unless it fails, and no other is touched. */
  lemma ItemDeploysExactly(p: Pass, i: nat, rows: map<string, Row>, ds: set<Deployment>, x: Deployment)
    requires i < |p.items|
    ensures var nb, after := p.items[i], OneItem(p, i, rows, ds);
      var d, outcome := Deployment(nb.id, p.c, nb.namespace), p.api(p.items[i]);
      x in after.ds <==>
        if x != d || nb.action in {Stopping, NoAction} then x in ds
        else if nb.action == Starting then x in ds || outcome == Fine || outcome == Error(true)
        else x in ds && outcome != Fine
  {
    WorkExactly(ds, p.c, p.items[i], p.api(p.items[i]));
  }

  /** What is listed: exactly the notebooks of the tenant queued at the cluster. */
  lemma ListingExactly(rows: map<string, Row>, tenantId: string, c: string, order: seq<string>, id: string)
    requires IsListing(rows, tenantId, c, order)
    ensures id in order <==>
            id in rows && rows[id].tenantId == tenantId && rows[id].clusterId == c && rows[id].state == Queued
  {
  }

  lemma ReportWritesExactly(r: Row, a: Action, now: Time)
    ensures a != NoAction ==> (Writes(ReportOf(a, now), r) <==> r.state == Queued && r.action == a)
  {
  }

  /** The pass is not about this Deployment: it is in another cluster or of a notebook that is not listed. */
  predicate Foreign(p: Pass, d: Deployment) {
    d.clusterId != p.c || forall i :: 0 <= i < |p.items| ==> p.items[i].id != d.id
  }

  lemma WorkStaysHome(ds: set<Deployment>, c: string, nb: Item, outcome: Outcome, d: Deployment)
    requires d.clusterId != c || d.id != nb.id
    ensures d in Work(ds, c, nb, outcome).0 <==> d in ds
  {
  }

  /** Deployments of other clusters and of notebooks that are not listed stay. */
  lemma {:induction false} PassStaysHome(p: Pass, i: nat, rows: map<string, Row>, ds: set<Deployment>, d: Deployment)
    requires i <= |p.items| && Foreign(p, d)
    ensures d in Rest(p, i, rows, ds).ds <==> d in ds
    decreases |p.items| - i
  {
    if i < |p.items| {
      WorkStaysHome(ds, p.c, p.items[i], p.api(p.items[i]), d);
      var after := OneItem(p, i, rows, ds);
      PassStaysHome(p, i + 1, after.rows, after.ds, d);
    }
  }

  /** A row that nobody else touches. */
  ghost predicate LeftAlone(p: Pass, id: string) {
    forall i, rows ::
      (id in p.meanwhile(i, rows) <==> id in rows) && (id in rows ==> p.meanwhile(i, rows)[id] == rows[id])
  }

  /** Rows of notebooks that are not listed stay, unless somebody else changes them. */
  lemma {:induction false} PassReportsOnlyListed(
      p: Pass, i: nat, rows: map<string, Row>, ds: set<Deployment>, id: string)
    requires i <= |p.items| && LeftAlone(p, id) && forall j :: 0 <= j < |p.items| ==> p.items[j].id != id
    ensures id in Rest(p, i, rows, ds).rows <==> id in rows
    ensures id in rows ==> Rest(p, i, rows, ds).rows[id] == rows[id]
    decreases |p.items| - i
  {
    if i < |p.items| {
      ItemSettlesExactly(p, i, rows, ds);
      var after := OneItem(p, i, rows, ds);
      PassReportsOnlyListed(p, i + 1, after.rows, after.ds, id);
    }
  }

  // A pass that nothing interrupts.

  /** A queued row once its action is done and reported. */
  function Settled(r: Row, now: Time): Row {
    Updated(ReportOf(r.action, now), r, r)
  }

  /** A report on the action of a queued row is always taken. */
  lemma ReportTaken(r: Row, now: Time)
    requires r.state == Queued && r.action != NoAction
    ensures Writes(ReportOf(r.action, now), r)
  {
  }

  /** The table after every listed notebook is settled; the others keep their rows. */
  function AllSettled(rows: map<string, Row>, order: seq<string>, now: Time): map<string, Row> {
    map id | id in rows :: if id in order then Settled(rows[id], now) else rows[id]
  }

  lemma NextSettled(rows: map<string, Row>, order: seq<string>, i: nat, now: Time)
    requires Distinct(order) && i < |order| && order[i] in rows
    ensures AllSettled(rows, order[..i], now)[order[i]] == rows[order[i]]
    ensures AllSettled(rows, order[..i + 1], now) ==
        AllSettled(rows, order[..i], now)[order[i] := Settled(rows[order[i]], now)]
  {
    assert order[..i + 1] == order[..i] + [order[i]];
  }

  /** The list is fresh, and nobody else changes the table during the pass. */
  ghost predicate Undisturbed(p: Pass, rows: map<string, Row>, order: seq<string>) {
    && IsListing(rows, p.tenantId, p.c, order) && p.items == Items(rows, order)
    && "" !in rows && (forall id <- order :: id in rows && rows[id].action != NoAction)
    && forall i, rows' :: p.meanwhile(i, rows') == rows'
  }

  lemma ReportServed(rows: map<string, Row>, id: string, tenantId: string, now: Time)
    requires id != "" && id in rows && rows[id].tenantId == tenantId
    requires rows[id].state == Queued && rows[id].action != NoAction
    ensures var q := ReportOf(rows[id].action, now);
            && Answer(rows, id, Worker(tenantId), q) == Done
            && Served(rows, id, Worker(tenantId), q) == rows[id := Settled(rows[id], now)]
  {
    ReportTaken(rows[id], now);
  }

  lemma ItemSettles(p: Pass, rows: map<string, Row>, order: seq<string>, n: nat, ds: set<Deployment>)
    requires Undisturbed(p, rows, order) && n < |order|
    ensures var after := OneItem(p, n, AllSettled(rows, order[..n], p.now), ds);
            && (after.ok <==> CallSucceeds(ds, p.c, p.items[n], p.api(p.items[n])))
            && after.rows == AllSettled(rows, if after.ok then order[..n + 1] else order[..n], p.now)
  {
    assert order[n] in order;
    WorkExactly(ds, p.c, p.items[n], p.api(p.items[n]));
    NextSettled(rows, order, n, p.now);
    ReportServed(AllSettled(rows, order[..n], p.now), order[n], p.tenantId, p.now);
  }

  /** Such a pass settles the notebooks in the order of the list, up to the first whose call to the Kubernetes API fails
      (the `k`th; `at` are the Deployments it finds). */
  lemma {:induction false} SettlesInOrder(
      p: Pass, rows: map<string, Row>, order: seq<string>, n: nat, ds: set<Deployment>)
    returns (k: nat, at: set<Deployment>)
    requires Undisturbed(p, rows, order) && n <= |order|
    ensures var end := Rest(p, n, AllSettled(rows, order[..n], p.now), ds);
            && n <= k <= |order| && end.rows == AllSettled(rows, order[..k], p.now) && (end.ok <==> k == |order|)
            && (k < |order| ==> !CallSucceeds(at, p.c, p.items[k], p.api(p.items[k])))
    decreases |order| - n
  {
    k, at := n, ds;
    if n < |order| {
      ItemSettles(p, rows, order, n, ds);
      var after := OneItem(p, n, AllSettled(rows, order[..n], p.now), ds);
      if after.ok {
        k, at := SettlesInOrder(p, rows, order, n + 1, after.ds);
      }
    }
  }

  /** A completed pass settles exactly the notebooks queued at the cluster. */
  lemma PassSettles(p: Pass, rows: map<string, Row>, ds: set<Deployment>, order: seq<string>, id: string)
    requires Undisturbed(p, rows, order) && Rest(p, 0, rows, ds).ok && id in rows
    ensures var rows' := Rest(p, 0, rows, ds).rows;
            && rows'.Keys == rows.Keys
            && rows'[id] == if Listed(rows[id], p.tenantId, p.c) then Settled(rows[id], p.now) else rows[id]
  {
    assert AllSettled(rows, order[..0], p.now) == rows;
    var k, at := SettlesInOrder(p, rows, order, 0, ds);
    assert order[..k] == order;
  }

  /** A settled notebook has left the queue for the state its action asked for. */
  lemma SettledIsDone(r: Row, now: Time)
    requires r.state == Queued && r.action != NoAction
    ensures Is(Settled(r, now).state) == NotebookLifecycle.Outcome(r.action)
    ensures Settled(r, now).state != Queued && Settled(r, now).clusterId == r.clusterId
  {
  }
}
