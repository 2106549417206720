/** Creation, training and publication of a fine-tuned model across the server, the dispatchers and the
job reconcilers (dispatcher/internal/dispatcher/dispatcher.go, lifecycle_manager.go, post_processor.go). */
module JobProtocol {
  import opened Common
  import opened Jobs
  import opened JobLifecycle
  import Occ

  /** A dispatcher creating a job: listed; waiting for PREPROCESSED; prepared; Kubernetes job made;
      waiting for JOB_CREATED. */
  datatype Worker =
    | Listed(id: string)
    | SendingPre(id: string, tid: Occ.Tid)
    | Prepared(id: string)
    | JobMade(id: string)
    | SendingCreated(id: string, tid: Occ.Tid)

  /** A reconciliation: it has seen the Kubernetes job; then it holds the job it got from the server. */
  datatype Reconciler = Saw(id: string) | Holds(id: string, outputModelId: string)

  datatype World = World(db: Db, k8s: set<string>, workers: map<nat, Worker>, reconcilers: map<nat, Reconciler>)

  datatype Step =
    | Create(id: string, row: Row)
    | Ask(tid: Occ.Tid, id: string, q: Request)  // users and workers, but not the phases below
    | Commit(tid: Occ.Tid)
    | Drop(tid: Occ.Tid)
    | List(wid: nat, id: string)
    | SendPre(wid: nat, tid: Occ.Tid, modelId: string, now: Time)
    | PreLands(wid: nat)
    | MakeJob(wid: nat, applied: bool, ok: bool)
    | SendCreated(wid: nat, tid: Occ.Tid, now: Time)
    | Quit(wid: nat)                             // done or failed; a handler under way lives on
    | See(rid: nat, id: string)
    | Fetch(rid: nat)
    | Finetune(rid: nat, tid: Occ.Tid, now: Time)
    | Leave(rid: nat)
    | Vanish(id: string)                         // the Kubernetes job expires or is deleted

  function Init(): World {
    World(Occ.Start(map[]), {}, map[], map[])
  }

  /** Only dispatchers send PREPROCESSED and JOB_CREATED, only reconcilers FINETUNED. */
  predicate Free(op: Op) {
    op.Cancel? || op.phase.IsCanceled? || op.phase.IsFailed? || op.phase.Recreate?
  }

  /** A handler's read: the table after it, and whether it passed its guards. */
  function Read(w: World, tid: Occ.Tid, id: string, q: Request): World {
    w.(db := Occ.Step(JOBS, w.db, Occ.Read(tid, id, q)))
  }

  predicate CanRead(w: World, tid: Occ.Tid, id: string, q: Request) {
    tid !in w.db.pending && id in w.db.rows && Writes(q, w.db.rows[id])
  }

  function Created(now: Time): Request {
    Request(Update(JobCreated), now)
  }

  function Do(w: World, s: Step): World {
    match s
    case Create(id, row) => if IsCreated(row) then w.(db := Occ.Step(JOBS, w.db, Occ.Insert(id, row))) else w
    case Ask(tid, id, q) => if Free(q.op) then Read(w, tid, id, q) else w
    case Commit(tid) => w.(db := Occ.Step(JOBS, w.db, Occ.Commit(tid)))
    case Drop(tid) => w.(db := Occ.Step(JOBS, w.db, Occ.Drop(tid)))
    case List(wid, id) =>
      if wid !in w.workers && id in w.db.rows && w.db.rows[id].state == Queued && w.db.rows[id].action == Creating
      then w.(workers := w.workers[wid := Listed(id)]) else w
    case SendPre(wid, tid, modelId, now) =>
      if wid in w.workers && w.workers[wid].Listed? && tid !in w.db.pending then
        var id, q := w.workers[wid].id, Request(Update(Preprocessed(modelId)), now);
        if CanRead(w, tid, id, q) then Read(w, tid, id, q).(workers := w.workers[wid := SendingPre(id, tid)])
        else w.(workers := w.workers - {wid})
      else w
    case PreLands(wid) =>
      if wid in w.workers && w.workers[wid].SendingPre? then
        var id, tid := w.workers[wid].id, w.workers[wid].tid;
        var ok := tid in w.db.pending && w.db.pending[tid].id == id && w.db.pending[tid].q.op.Update?
                  && w.db.pending[tid].q.op.phase.Preprocessed? && Occ.Current(JOBS, w.db.rows, w.db.pending[tid]);
        w.(db := Occ.Step(JOBS, w.db, Occ.Commit(tid)),
           workers := if ok then w.workers[wid := Prepared(id)] else w.workers - {wid})
      else w
    case MakeJob(wid, applied, ok) =>
      if wid in w.workers && w.workers[wid].Prepared? then
        var id := w.workers[wid].id;
        w.(k8s := if applied || ok then w.k8s + {id} else w.k8s,
           workers := if ok then w.workers[wid := JobMade(id)] else w.workers - {wid})
      else w
    case SendCreated(wid, tid, now) =>
      if wid in w.workers && w.workers[wid].JobMade? && tid !in w.db.pending then
        var id := w.workers[wid].id;
        if CanRead(w, tid, id, Created(now))
        then Read(w, tid, id, Created(now)).(workers := w.workers[wid := SendingCreated(id, tid)])
        else w.(workers := w.workers - {wid})
      else w
    case Quit(wid) => w.(workers := w.workers - {wid})
    case See(rid, id) =>
      if rid !in w.reconcilers && id in w.k8s then w.(reconcilers := w.reconcilers[rid := Saw(id)]) else w
    case Fetch(rid) =>
      if rid in w.reconcilers && w.reconcilers[rid].Saw? && w.reconcilers[rid].id in w.db.rows
      then w.(reconcilers := w.reconcilers[rid := Holds(w.reconcilers[rid].id,
          w.db.rows[w.reconcilers[rid].id].outputModelId)])
      else w
    case Finetune(rid, tid, now) =>
      if rid in w.reconcilers && w.reconcilers[rid].Holds?
      then Read(w, tid, w.reconcilers[rid].id, Request(Update(Finetuned(w.reconcilers[rid].outputModelId)), now))
      else w
    case Leave(rid) => w.(reconcilers := w.reconcilers - {rid})
    case Vanish(id) => w.(k8s := w.k8s - {id})
  }

  function Run(w: World, ss: seq<Step>): World {
    if ss == [] then w else Do(Run(w, ss[..|ss| - 1]), ss[|ss| - 1])
  }

  // The invariant.

  predicate Named(rows: map<string, Row>, id: string) {
    id in rows && rows[id].outputModelId != ""
  }

  predicate RowNamed(r: Row) {
    r.state == Running ==> r.outputModelId != ""
  }

  predicate PendingOk(p: Occ.Pending<Row, Request>) {
    p.q.op == Update(JobCreated) ==> p.snap.outputModelId != ""
  }

  predicate WorkerOk(rows: map<string, Row>, k: Worker) {
    k.Prepared? || k.JobMade? || k.SendingCreated? ==> Named(rows, k.id)
  }

  predicate ReconcilerOk(rows: map<string, Row>, k: Reconciler) {
    Named(rows, k.id) && (k.Holds? ==> k.outputModelId != "")
  }

  ghost predicate DbOk(db: Db) {
    && Occ.Snapshots(JOBS, db)
    && (forall id <- db.rows :: RowNamed(db.rows[id]))
    && (forall tid <- db.pending :: PendingOk(db.pending[tid]))
  }

  ghost predicate Inv(w: World) {
    && DbOk(w.db)
    && (forall id <- w.k8s :: Named(w.db.rows, id))
    && (forall wid <- w.workers :: WorkerOk(w.db.rows, w.workers[wid]))
    && (forall rid <- w.reconcilers :: ReconcilerOk(w.db.rows, w.reconcilers[rid]))
  }

  lemma RowStays(q: Request, r: Row)
    requires Writes(q, r) && RowNamed(r) && (q.op == Update(JobCreated) ==> r.outputModelId != "")
    ensures RowNamed(Updated(q, r, r))
    ensures r.outputModelId != "" ==> Updated(q, r, r).outputModelId != ""
  {
  }

  lemma RequestOk(db: Db, e: Event, id: string, q: Request)
    requires DbOk(db) && id in db.rows && q in Occ.Lands(JOBS, db, e, id)
    ensures q.op == Update(JobCreated) ==> db.rows[id].outputModelId != ""
  {
    assert Occ.Fresh(JOBS, db.rows, db.pending[e.tid]) && PendingOk(db.pending[e.tid]);
  }

  /** Once named, a job stays named. */
  lemma NamedKept(db: Db, e: Event, id: string)
    requires DbOk(db) && Named(db.rows, id)
    ensures Named(Occ.Step(JOBS, db, e).rows, id)
  {
    TableBumpsVersion();
    Occ.StepIsSerial(JOBS, db, e, id);
    forall q <- Occ.Lands(JOBS, db, e, id)
      ensures Updated(q, db.rows[id], db.rows[id]).outputModelId != ""
    {
      RequestOk(db, e, id, q);
      RowStays(q, db.rows[id]);
    }
  }

  lemma DbKept(db: Db, e: Event)
    requires DbOk(db)
    requires e.Insert? ==> IsCreated(e.row)
    requires e.Read? && e.q.op == Update(JobCreated) ==> Named(db.rows, e.id)
    ensures DbOk(Occ.Step(JOBS, db, e))
  {
    TableBumpsVersion();
    Occ.SnapshotsKept(JOBS, db, e);
    var db' := Occ.Step(JOBS, db, e);
    forall id <- db'.rows
      ensures RowNamed(db'.rows[id])
    {
      if id in db.rows {
        Occ.StepIsSerial(JOBS, db, e, id);
        forall q <- Occ.Lands(JOBS, db, e, id)
          ensures RowNamed(Updated(q, db.rows[id], db.rows[id]))
        {
          RequestOk(db, e, id, q);
          RowStays(q, db.rows[id]);
        }
      }
    }
  }

  /** An event on the table keeps what everyone relies on. */
  lemma EventKeepsInv(w: World, e: Event)
    requires Inv(w)
    requires e.Insert? ==> IsCreated(e.row)
    requires e.Read? && e.q.op == Update(JobCreated) ==> Named(w.db.rows, e.id)
    ensures Inv(w.(db := Occ.Step(JOBS, w.db, e)))
  {
    var w' := w.(db := Occ.Step(JOBS, w.db, e));
    DbKept(w.db, e);
    forall id | Named(w.db.rows, id)
      ensures Named(w'.db.rows, id)
    {
      NamedKept(w.db, e, id);
    }
    forall id <- w'.k8s
      ensures Named(w'.db.rows, id)
    {
      assert Named(w.db.rows, id);
    }
    forall wid <- w'.workers
      ensures WorkerOk(w'.db.rows, w'.workers[wid])
    {
      assert WorkerOk(w.db.rows, w.workers[wid]);
    }
    forall rid <- w'.reconcilers
      ensures ReconcilerOk(w'.db.rows, w'.reconcilers[rid])
    {
      assert ReconcilerOk(w.db.rows, w.reconcilers[rid]);
    }
  }

  /** The PREPROCESSED report names the job. */
  lemma PreprocessedNames(w: World, wid: nat)
    requires Inv(w) && wid in w.workers && w.workers[wid].SendingPre?
    requires Do(w, PreLands(wid)).workers != w.workers - {wid}
    ensures Named(Do(w, PreLands(wid)).db.rows, w.workers[wid].id)
  {
    var tid := w.workers[wid].tid;
    assert Occ.Fresh(JOBS, w.db.rows, w.db.pending[tid]);
  }

  lemma SendPreStep(w: World, wid: nat, tid: Occ.Tid, modelId: string, now: Time)
    requires Inv(w) && wid in w.workers
    ensures Inv(Do(w, SendPre(wid, tid, modelId, now)))
  {
    EventKeepsInv(w, Occ.Read(tid, w.workers[wid].id, Request(Update(Preprocessed(modelId)), now)));
  }

  lemma MakeJobStep(w: World, wid: nat, applied: bool, ok: bool)
    requires Inv(w) && wid in w.workers
    ensures Inv(Do(w, MakeJob(wid, applied, ok)))
  {
    assert WorkerOk(w.db.rows, w.workers[wid]);
    assert Do(w, MakeJob(wid, applied, ok)).db == w.db;
  }

  lemma SendCreatedStep(w: World, wid: nat, tid: Occ.Tid, now: Time)
    requires Inv(w) && wid in w.workers && w.workers[wid].JobMade?
    ensures Inv(Do(w, SendCreated(wid, tid, now)))
  {
    assert WorkerOk(w.db.rows, w.workers[wid]);
    EventKeepsInv(w, Occ.Read(tid, w.workers[wid].id, Created(now)));
  }

  lemma PreLandsStep(w: World, wid: nat)
    requires Inv(w) && wid in w.workers && w.workers[wid].SendingPre?
    ensures Inv(Do(w, PreLands(wid)))
  {
    EventKeepsInv(w, Occ.Commit(w.workers[wid].tid));
    var w' := Do(w, PreLands(wid));
    if w'.workers != w.workers - {wid} {
      PreprocessedNames(w, wid);
    }
    var mid := w.(db := w'.db);
    assert Inv(mid);
  }

  lemma ReconcilerStep(w: World, s: Step)
    requires Inv(w) && (s.Fetch? || s.Finetune?) && s.rid in w.reconcilers
    ensures Inv(Do(w, s))
  {
    var k := w.reconcilers[s.rid];
    assert ReconcilerOk(w.db.rows, k);
    if s.Finetune? && k.Holds? {
      EventKeepsInv(w, Occ.Read(s.tid, k.id, Request(Update(Finetuned(k.outputModelId)), s.now)));
    }
  }

  lemma StepKeepsInv(w: World, s: Step)
    requires Inv(w)
    ensures Inv(Do(w, s))
  {
    if Do(w, s) != w {
      match s
      case Create(id, row) => EventKeepsInv(w, Occ.Insert(id, row));
      case Ask(tid, id, q) => EventKeepsInv(w, Occ.Read(tid, id, q));
      case Commit(tid) => EventKeepsInv(w, Occ.Commit(tid));
      case Drop(tid) => EventKeepsInv(w, Occ.Drop(tid));
      case Fetch(_) => ReconcilerStep(w, s);
      case Finetune(_, _, _) => ReconcilerStep(w, s);
      case List(_, _) => assert Do(w, s).db == w.db;
      case Quit(_) => assert Do(w, s).db == w.db;
      case See(_, _) => assert Do(w, s).db == w.db;
      case Leave(_) => assert Do(w, s).db == w.db;
      case Vanish(_) => assert Do(w, s).db == w.db;
      case PreLands(wid) => PreLandsStep(w, wid);
      case SendPre(wid, tid, modelId, now) => SendPreStep(w, wid, tid, modelId, now);
      case MakeJob(wid, applied, ok) => MakeJobStep(w, wid, applied, ok);
      case SendCreated(wid, tid, now) => SendCreatedStep(w, wid, tid, now);
    }
  }

  /** A published model is always named. In every run, a job that has a Kubernetes job or is running has an
      output model ID; so no reconciler that reached a Kubernetes job ever hands post-processing or FINETUNED
      an empty one. */
  lemma {:induction false} AlwaysNamed(ss: seq<Step>)
    ensures Inv(Run(Init(), ss))
    ensures var w := Run(Init(), ss);
            && (forall id <- w.k8s :: Named(w.db.rows, id))
            && (forall id <- w.db.rows :: w.db.rows[id].state == Running ==> w.db.rows[id].outputModelId != "")
            && (forall rid <- w.reconcilers :: w.reconcilers[rid].Holds? ==> w.reconcilers[rid].outputModelId != "")
  {
    if ss != [] {
      AlwaysNamed(ss[..|ss| - 1]);
      StepKeepsInv(Run(Init(), ss[..|ss| - 1]), ss[|ss| - 1]);
    }
    var w := Run(Init(), ss);
    forall rid <- w.reconcilers
      ensures w.reconcilers[rid].Holds? ==> w.reconcilers[rid].outputModelId != ""
    {
      assert ReconcilerOk(w.db.rows, w.reconcilers[rid]);
    }
    forall id <- w.db.rows
      ensures w.db.rows[id].state == Running ==> w.db.rows[id].outputModelId != ""
    {
      assert RowNamed(w.db.rows[id]);
    }
  }

  // What each step of the protocol does.

  /** Users and workers may act on the table at any time. */
  lemma TableStepsExactly(w: World, tid: Occ.Tid, id: string, q: Request, row: Row)
    ensures IsCreated(row) ==> Do(w, Create(id, row)) == w.(db := Occ.Step(JOBS, w.db, Occ.Insert(id, row)))
    ensures q.op.Cancel? || q.op.phase.IsCanceled? || q.op.phase.IsFailed? || q.op.phase.Recreate? ==>
            Do(w, Ask(tid, id, q)) == w.(db := Occ.Step(JOBS, w.db, Occ.Read(tid, id, q)))
    ensures Do(w, Commit(tid)) == w.(db := Occ.Step(JOBS, w.db, Occ.Commit(tid)))
    ensures Do(w, Drop(tid)) == w.(db := Occ.Step(JOBS, w.db, Occ.Drop(tid)))
    ensures Do(w, Vanish(id)) == w.(k8s := w.k8s - {id})
  {
  }

  /** Any number of dispatchers may work on a job: each lists it, reports it preprocessed, makes the Kubernetes job once
      that has landed, and reports it created; each may give up at any time. */
  lemma WorkerStepsExactly(w: World, wid: nat, id: string, tid: Occ.Tid, modelId: string, now: Time, applied: bool)
    ensures wid !in w.workers && id in w.db.rows
            && w.db.rows[id].state == Queued && w.db.rows[id].action == Creating ==>
            Do(w, List(wid, id)) == w.(workers := w.workers[wid := Listed(id)])
    ensures wid in w.workers && w.workers[wid] == Listed(id) && tid !in w.db.pending ==>
      var q := Request(Update(Preprocessed(modelId)), now);
      Do(w, SendPre(wid, tid, modelId, now)) ==
        if id in w.db.rows && Writes(q, w.db.rows[id])
        then w.(db := Occ.Step(JOBS, w.db, Occ.Read(tid, id, q)), workers := w.workers[wid := SendingPre(id, tid)])
        else w.(workers := w.workers - {wid})
    ensures wid in w.workers && w.workers[wid] == SendingPre(id, tid) && tid in w.db.pending
            && w.db.pending[tid].id == id && w.db.pending[tid].q == Request(Update(Preprocessed(modelId)), now) ==>
      var ok := id in w.db.rows && w.db.rows[id].version == w.db.pending[tid].snap.version;
      Do(w, PreLands(wid)) ==
        w.(db := Occ.Step(JOBS, w.db, Occ.Commit(tid)),
           workers := if ok then w.workers[wid := Prepared(id)] else w.workers - {wid})
    ensures wid in w.workers && w.workers[wid] == Prepared(id) ==>
      && Do(w, MakeJob(wid, applied, true)) == w.(k8s := w.k8s + {id}, workers := w.workers[wid := JobMade(id)])
      && Do(w, MakeJob(wid, applied, false)) ==
           w.(k8s := if applied then w.k8s + {id} else w.k8s, workers := w.workers - {wid})
    ensures wid in w.workers && w.workers[wid] == JobMade(id) && tid !in w.db.pending ==>
      var q := Request(Update(JobCreated), now);
      Do(w, SendCreated(wid, tid, now)) ==
        if id in w.db.rows && Writes(q, w.db.rows[id])
        then w.(db := Occ.Step(JOBS, w.db, Occ.Read(tid, id, q)), workers := w.workers[wid := SendingCreated(id, tid)])
        else w.(workers := w.workers - {wid})
    ensures Do(w, Quit(wid)) == w.(workers := w.workers - {wid})
  {
  }

  /** Any number of reconciliations may have seen a Kubernetes job; each holds the model ID the row had when it fetched
      it, and reports that. */
  lemma ReconcilerStepsExactly(w: World, rid: nat, id: string, tid: Occ.Tid, now: Time)
    ensures rid !in w.reconcilers && id in w.k8s ==>
            Do(w, See(rid, id)) == w.(reconcilers := w.reconcilers[rid := Saw(id)])
    ensures rid in w.reconcilers && w.reconcilers[rid] == Saw(id) && id in w.db.rows ==>
            Do(w, Fetch(rid)) == w.(reconcilers := w.reconcilers[rid := Holds(id, w.db.rows[id].outputModelId)])
    ensures rid in w.reconcilers && w.reconcilers[rid].Holds? ==>
            var k := w.reconcilers[rid];
            var q := Request(Update(Finetuned(k.outputModelId)), now);
            Do(w, Finetune(rid, tid, now)) == w.(db := Occ.Step(JOBS, w.db, Occ.Read(tid, k.id, q)))
    ensures Do(w, Leave(rid)) == w.(reconcilers := w.reconcilers - {rid})
  {
  }

  // And models are published.

  lemma Extend(ss: seq<Step>, s: Step)
    ensures Run(Init(), ss + [s]) == Do(Run(Init(), ss), s)
  {
    assert (ss + [s])[..|ss|] == ss;
  }

  /** The only job, no handler under way, and who is at work. */
  ghost predicate Shape(
      w: World, r: Row, k8s: set<string>, workers: map<nat, Worker>, reconcilers: map<nat, Reconciler>) {
    && w.db.rows == map["j" := r] && w.db.pending == map[]
    && w.k8s == k8s && w.workers == workers && w.reconcilers == reconcilers
  }

  function Job(s: State, a: Action, m: Message, modelId: string, version: nat): Row {
    Row("t", "p", "c", m, s, a, modelId, version)
  }

  const NEW := Message(0, "", None)

  /** The dispatcher lists a new job and preprocesses it. */
  lemma Preprocesses() returns (ss: seq<Step>)
    ensures Shape(Run(Init(), ss), Job(Queued, Creating, NEW, "m", 1), {}, map[0 := Prepared("j")], map[])
  {
    var r := Job(Queued, Creating, NEW, "", 0);
    var none: seq<Step> := [];
    var w0 := Run(Init(), none);
    Extend(none, Create("j", r));
    var s1 := none + [Create("j", r)];
    Extend(s1, List(0, "j"));
    var s2 := s1 + [List(0, "j")];
    assert Shape(Run(Init(), s2), r, {}, map[0 := Listed("j")], map[]);
    Extend(s2, SendPre(0, 0, "m", 1));
    var s3 := s2 + [SendPre(0, 0, "m", 1)];
    var q := Request(Update(Preprocessed("m")), 1);
    assert Run(Init(), s3).db.pending == map[0 := Occ.Pending("j", r, q)];
    Extend(s3, PreLands(0));
    ss := s3 + [PreLands(0)];
    assert Run(Init(), ss).db.rows == map["j" := Updated(q, r, r)];
  }

  /** It makes the Kubernetes job and reports it created. */
  lemma Creates() returns (ss: seq<Step>)
    ensures Shape(Run(Init(), ss), Job(Running, NoAction, NEW, "m", 2), {"j"}, map[], map[])
  {
    var r := Job(Queued, Creating, NEW, "m", 1);
    var s0 := Preprocesses();
    Extend(s0, MakeJob(0, true, true));
    var s1 := s0 + [MakeJob(0, true, true)];
    assert Shape(Run(Init(), s1), r, {"j"}, map[0 := JobMade("j")], map[]);
    Extend(s1, SendCreated(0, 0, 2));
    var s2 := s1 + [SendCreated(0, 0, 2)];
    assert Run(Init(), s2).db.pending == map[0 := Occ.Pending("j", r, Created(2))];
    Extend(s2, Commit(0));
    var s3 := s2 + [Commit(0)];
    assert Run(Init(), s3).db.rows == map["j" := Updated(Created(2), r, r)];
    Extend(s3, Quit(0));
    ss := s3 + [Quit(0)];
    assert Run(Init(), ss).workers == map[];
  }

  lemma Fetches() returns (ss: seq<Step>)
    ensures Shape(Run(Init(), ss), Job(Running, NoAction, NEW, "m", 2), {"j"}, map[], map[0 := Holds("j", "m")])
  {
    var s0 := Creates();
    Extend(s0, See(0, "j"));
    var s1 := s0 + [See(0, "j")];
    Extend(s1, Fetch(0));
    ss := s1 + [Fetch(0)];
  }

  /** A reconciler finds the job done, and FINETUNED lands: there is a run that publishes a model under its name. */
  lemma Publishes() returns (ss: seq<Step>)
    ensures var rows := Run(Init(), ss).db.rows;
            "j" in rows && rows["j"].state == Succeeded && rows["j"].message.fineTunedModel == "m"
  {
    var r := Job(Running, NoAction, NEW, "m", 2);
    var s2 := Fetches();
    Extend(s2, Finetune(0, 0, 3));
    var s3 := s2 + [Finetune(0, 0, 3)];
    var q := Request(Update(Finetuned("m")), 3);
    assert Run(Init(), s3).db.pending == map[0 := Occ.Pending("j", r, q)];
    Extend(s3, Commit(0));
    ss := s3 + [Commit(0)];
    assert Run(Init(), ss).db.rows == map["j" := Updated(q, r, r)];
  }

  // One reconciliation of a Kubernetes job.

  datatype Condition = Condition(suspended: bool, since: nat)

  datatype KubeJob = KubeJob(succeeded: nat, failed: nat, conditions: seq<Condition>)

  datatype Effect = Nothing | Requeue | DeleteJob | Send(phase: Phase) | Error

  /** The job has been suspended for longer than its time to live; the last suspension counts. */
  predicate Expired(cs: seq<Condition>, ttl: nat, now: Time) {
    cs != [] &&
      var last := cs[|cs| - 1];
      if last.suspended then last.since + ttl < now else Expired(cs[..|cs| - 1], ttl, now)
  }

  /** The job is being created or runs, and its Kubernetes job has ended. */
  predicate Ended(kjob: Fetched<KubeJob>, job: Fetched<Row>) {
    && kjob.Found? && (kjob.value.failed > 0 || kjob.value.succeeded > 0) && job.Found?
    && (job.value.state == Running || (job.value.state == Queued && job.value.action == Creating))
  }

  /** That is, for a found job: what is running, or queued for creation, and has a success or a failure. */
  lemma EndedExactly(k: KubeJob, r: Row)
    ensures Ended(Found(k), Found(r)) <==>
            && r.state in {Running, Queued} && (r.state == Queued ==> r.action == Creating)
            && !(k.failed == 0 && k.succeeded == 0)
    ensures !Ended(Missing, Found(r)) && !Ended(Broken, Found(r))
    ensures !Ended(Found(k), Missing) && !Ended(Found(k), Broken)
  {
  }

  /** What one reconciliation does, given the Kubernetes job, the server's row for it, the termination log if it can be
      had, and whether publishing the model succeeds. */
  method Reconcile(kjob: Fetched<KubeJob>, job: Fetched<Row>, log: Option<string>, published: bool, ttl: nat, now: Time)
    returns (e: Effect)
    ensures e == Send(Recreate) <==> kjob.Missing? && job.Found? && job.value.state == Running
    ensures e == DeleteJob <==>
            kjob.Found? && job.Found? && job.value.state == Canceled && Expired(kjob.value.conditions, ttl, now)
    ensures e == Requeue <==>
            kjob.Found? && job.Found? && job.value.state == Canceled && !Expired(kjob.value.conditions, ttl, now)
    ensures (exists m :: e == Send(IsFailed(m))) <==> Ended(kjob, job) && kjob.value.failed > 0 && log.Some?
    ensures e.Send? && e.phase.IsFailed? ==> Some(e.phase.message) == log
    ensures (exists m :: e == Send(Finetuned(m))) <==>
            Ended(kjob, job) && kjob.value.failed == 0 && job.value.outputModelId != "" && published
    ensures e.Send? && e.phase.Finetuned? ==> e.phase.modelId == job.value.outputModelId
    ensures e.Send? ==> e.phase.Recreate? || e.phase.IsFailed? || e.phase.Finetuned?
    ensures e == Error <==>
            || kjob.Broken? || (kjob.Missing? && job.Broken?) || (kjob.Found? && !job.Found?)
            || (Ended(kjob, job) &&
                if kjob.value.failed > 0 then log.None? else job.value.outputModelId == "" || !published)
  {
    if kjob.Broken? { return Error; }
    if kjob.Missing? {
      if job.Broken? { return Error; }
      if job.Found? && job.value.state == Running { return Send(Recreate); }
      return Nothing;
    }
    if !job.Found? { return Error; }
    var k, row := kjob.value, job.value;
    match row.state {
      case Queued =>
        if row.action != Creating { return Nothing; }
      case Running =>
      case Succeeded | Failed => return Nothing;
      case Canceled =>
        var expired, i := false, 0;
        while i < |k.conditions|
          invariant 0 <= i <= |k.conditions|
          invariant expired <==> Expired(k.conditions[..i], ttl, now)
        {
          assert k.conditions[..i + 1][..i] == k.conditions[..i];
          if k.conditions[i].suspended { expired := k.conditions[i].since + ttl < now; }
          i := i + 1;
        }
        assert k.conditions[..i] == k.conditions;
        if !expired { return Requeue; }
        return DeleteJob;
    }
    if k.succeeded == 0 && k.failed == 0 { return Nothing; }
    if k.failed > 0 {
      if log.None? { return Error; }
      e := Send(IsFailed(log.value));
      return;
    }
    if row.outputModelId == "" { return Error; }
    if !published { return Error; }
    e := Send(Finetuned(row.outputModelId));
  }

  /** Some suspension is the last one and older than that. */
  lemma {:induction false} ExpiredExactly(cs: seq<Condition>, ttl: nat, now: Time)
    ensures Expired(cs, ttl, now) <==> exists i :: IsLastSuspension(cs, i) && cs[i].since + ttl < now
  {
    if cs != [] {
      var n, init := |cs| - 1, cs[..|cs| - 1];
      ExpiredExactly(init, ttl, now);
      if cs[n].suspended {
        assert IsLastSuspension(cs, n);
      } else {
        assert forall i :: IsLastSuspension(cs, i) <==> IsLastSuspension(init, i);
      }
    }
  }

  predicate IsLastSuspension(cs: seq<Condition>, i: int) {
    0 <= i < |cs| && cs[i].suspended && forall j :: i < j < |cs| ==> !cs[j].suspended
  }
}
