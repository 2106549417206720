/** What the cache guarantees over whole serial runs of reports, lookups and reservations. */
module CacheRuns {
  import opened Common
  import opened Scheduler
  import opened Cache

  datatype State = State(db: Db, view: View)

  datatype Op =
    | Report(id: string, name: string, tenantId: string, status: Status, now: int)
    | Lookup(tenantId: string, now: int)
    | Assume(tenantId: string, id: string, key: string, gpus: int, now: int)

  function Do(s: State, op: Op): State {
    match op
    case Report(id, name, tenantId, status, now) =>
      var db := Stored(s.db, id, name, tenantId, status, now);
      State(db, Refreshed(s.view, db, id, db[id], now))
    case Lookup(tenantId, _) => s.(view := Loaded(s.view, s.db, tenantId))
    case Assume(tenantId, id, key, gpus, now) => s.(view := Reserved(s.view, s.db, tenantId, id, key, gpus, now))
  }

  function Run(s: State, ops: seq<Op>): State {
    if ops == [] then s else Do(Run(s, ops[..|ops| - 1]), ops[|ops| - 1])
  }

  function Unreserved(c: Cluster): Cluster {
    c.(assumed := map[])
  }

  /** A cached tenant shows exactly its rows, apart from reservations. */
  predicate TenantAgrees(s: State, t: string)
    requires t in s.view
  {
    && s.view[t].Keys == FromDb(s.db, t).Keys
    && forall id <- s.view[t] :: Unreserved(s.view[t][id]) == FromDb(s.db, t)[id]
  }

  ghost predicate Agrees(s: State) {
    forall t <- s.view :: TenantAgrees(s, t)
  }

  lemma LoadedAgrees(s: State, t: string)
    requires Agrees(s)
    ensures Agrees(s.(view := Loaded(s.view, s.db, t)))
  {
    var s' := s.(view := Loaded(s.view, s.db, t));
    forall t' <- s'.view
      ensures TenantAgrees(s', t')
    {
      if t' in s.view {
        assert TenantAgrees(s, t');
      }
    }
  }

  lemma StoredRows(db: Db, db': Db, id: string, t: string)
    requires id in db' && db' == db[id := db'[id]] && (id in db ==> db[id].tenantId == db'[id].tenantId)
    ensures FromDb(db', t) == if db'[id].tenantId == t then FromDb(db, t)[id := Convert(id, db'[id])] else FromDb(db, t)
  {
  }

  lemma ReportedView(s: State, op: Op, t: string)
    requires op.Report? && t in s.view
    ensures t in Do(s, op).view
    ensures var s' := Do(s, op);
            if s'.db[op.id].tenantId == t
            then op.id in s'.view[t] && Unreserved(s'.view[t][op.id]) == Convert(op.id, s'.db[op.id])
                 && s'.view[t] == s.view[t][op.id := s'.view[t][op.id]]
            else s'.view[t] == s.view[t]
  {
  }

  /** A report on a tenant already loaded. */
  lemma ReportAgrees(s: State, op: Op, t: string)
    requires Agrees(s) && op.Report? && t in s.view
    ensures t in Do(s, op).view && TenantAgrees(Do(s, op), t)
  {
    assert TenantAgrees(s, t);
    StoredRows(s.db, Do(s, op).db, op.id, t);
    ReportedView(s, op, t);
  }

  lemma AssumeAgrees(s: State, op: Op)
    requires Agrees(s) && op.Assume?
    ensures Agrees(Do(s, op))
  {
    LoadedAgrees(s, op.tenantId);
    var mid := s.(view := Loaded(s.view, s.db, op.tenantId));
    forall t <- Do(s, op).view
      ensures TenantAgrees(Do(s, op), t)
    {
      if t in mid.view {
        assert TenantAgrees(mid, t);
      }
    }
  }

  lemma AgreementKept(s: State, op: Op)
    requires Agrees(s)
    ensures Agrees(Do(s, op))
  {
    match op
    case Lookup(t, _) => LoadedAgrees(s, t);
    case Assume(_, _, _, _, _) => AssumeAgrees(s, op);
    case Report(id, _, _, _, _) =>
      forall t <- Do(s, op).view
        ensures TenantAgrees(Do(s, op), t)
      {
        if t in s.view {
          ReportAgrees(s, op, t);
        } else {
          assert Do(s, op).view[t] == FromDb(Do(s, op).db, t);
        }
      }
  }

  /** The cache agrees with the database in every serial run, whatever the table held when it started. */
  lemma {:induction false} CacheAgreesWithDb(db: Db, ops: seq<Op>)
    ensures Agrees(Run(State(db, map[]), ops))
  {
    if ops != [] {
      CacheAgreesWithDb(db, ops[..|ops| - 1]);
      AgreementKept(Run(State(db, map[]), ops[..|ops| - 1]), ops[|ops| - 1]);
    }
  }

  /** The reservations on a cluster, none if it is not cached. */
  function Reservations(s: State, t: string, id: string): map<string, Assumed> {
    if t in s.view && id in s.view[t] then s.view[t][id].assumed else map[]
  }

  /** After a report the reservations are exactly the old ones younger than a minute whose workload the report
      does not show; so no workload counts as both reserved and running. Other clusters keep theirs. */
  lemma ReportSettlesReservations(s: State, op: Op, key: string)
    requires op.Report?
    ensures var s' := Do(s, op);
            var t := s'.db[op.id].tenantId;
            var old', new' := Reservations(s, t, op.id), Reservations(s', t, op.id);
            && (key in new' <==> key in old' && op.now - old'[key].addedAt < MINUTE && !Shown(op.status.pods, key))
            && (key in new' ==> new'[key] == old'[key])
            && s'.view[t][op.id].pods == op.status.pods
    ensures forall t, id :: id != op.id ==> Reservations(Do(s, op), t, id) == Reservations(s, t, id)
  {
  }

  /** Time does not run backwards. */
  predicate Monotone(ops: seq<Op>) {
    forall i, j :: 0 <= i < j < |ops| ==> ops[i].now <= ops[j].now
  }

  /** A reservation was there before, and young enough if this is a report of its cluster, or has just been added. */
  ghost predicate Kept(s: State, op: Op, t: string, id: string, key: string) {
    && key in Reservations(s, t, id) && key in Reservations(Do(s, op), t, id)
    && Reservations(s, t, id)[key] == Reservations(Do(s, op), t, id)[key]
    && (op.Report? && op.id == id ==> op.now - Reservations(s, t, id)[key].addedAt < MINUTE)
  }

  lemma ReportKeeps(s: State, op: Op, t: string, id: string, key: string)
    requires op.Report? && Agrees(s) && key in Reservations(Do(s, op), t, id)
    ensures Kept(s, op, t, id, key)
  {
    ReportSettlesReservations(s, op, key);
    AgreementKept(s, op);
    assert TenantAgrees(Do(s, op), t);
  }

  lemma AssumeKeeps(s: State, op: Op, t: string, id: string, key: string)
    requires op.Assume? && key in Reservations(Do(s, op), t, id)
    ensures Kept(s, op, t, id, key) || Reservations(Do(s, op), t, id)[key].addedAt == op.now
  {
    var v := Loaded(s.view, s.db, op.tenantId);
    var v' := Do(s, op).view;
    if op.gpus != 0 && t == op.tenantId && id == op.id && id in v[t] {
      assert v'[t][id] == Reserve(v[t][id], op.key, op.gpus, op.now);
    } else if op.gpus != 0 {
      assert v'[t][id] == v[t][id];
    }
  }

  lemma OneReservation(s: State, op: Op, t: string, id: string, key: string)
    requires Agrees(s) && key in Reservations(Do(s, op), t, id)
    ensures Kept(s, op, t, id, key) || (op.Assume? && Reservations(Do(s, op), t, id)[key].addedAt == op.now)
  {
    match op {
      case Report(_, _, _, _, _) => ReportKeeps(s, op, t, id, key);
      case Lookup(_, _) =>
      case Assume(_, _, _, _, _) => AssumeKeeps(s, op, t, id, key);
    }
  }

  /** No reservation outlives the first report made a minute or more after it was added: a reservation that is
      still there is less than a minute older than every report of its cluster so far. */
  lemma {:induction false} ReservationsExpire(db: Db, ops: seq<Op>, t: string, id: string, key: string, i: nat)
    requires Monotone(ops) && i < |ops| && ops[i].Report? && ops[i].id == id
    requires key in Reservations(Run(State(db, map[]), ops), t, id)
    ensures ops[i].now - Reservations(Run(State(db, map[]), ops), t, id)[key].addedAt < MINUTE
  {
    var init, op := ops[..|ops| - 1], ops[|ops| - 1];
    var s := Run(State(db, map[]), init);
    CacheAgreesWithDb(db, init);
    OneReservation(s, op, t, id, key);
    if !(op.Assume? && Reservations(Do(s, op), t, id)[key].addedAt == op.now) && i < |init| {
      ReservationsExpire(db, init, t, id, key, i);
    }
  }

  /** Every cached cluster is stored under its own ID. */
  predicate Keyed(v: View) {
    forall t <- v :: forall id <- v[t] :: v[t][id].id == id
  }

  lemma LoadedKeyed(v: View, db: Db, t: string)
    requires Keyed(v)
    ensures Keyed(Loaded(v, db, t))
  {
  }

  // Scheduling workloads.

  /** What a create handler or the rescheduler asks the scheduler for. */
  datatype Workload = Workload(tenantId: string, envs: seq<Env>, previous: string, gpus: int, name: string, now: int)

  /** A request and the scheduler's answer. */
  datatype Attempt = Attempt(w: Workload, r: Result)

  /** The prefix of the names of a workload's pods. */
  function PodKey(namespace: string, workload: string): string {
    namespace + "/" + workload
  }

  function BookingOf(a: Attempt): Booking
    requires a.r.Placed?
  {
    Booking(a.w.envs, a.w.previous, a.w.gpus, a.w.now, a.r.clusterId, PodKey(a.r.namespace, a.w.name))
  }

  /** The answer is a best candidate, or there is no candidate. */
  ghost predicate Chosen(cs: map<string, Cluster>, a: Attempt) {
    if a.r.Placed? then exists k :: Best(cs, k, a.w.envs, a.w.previous, a.w.gpus, a.w.now, a.r)
    else forall k <- cs :: !Candidate(cs[k], a.w.envs, a.w.previous, a.w.gpus, a.w.now)
  }

  /** The tenant's clusters as the cache shows them, loading them if need be. */
  function Base(v: View, db: Db, t: string): map<string, Cluster> {
    Loaded(v, db, t)[t]
  }

  /** The cache after an attempt: the tenant is loaded and a placement is reserved. */
  function Tried(v: View, db: Db, a: Attempt): View {
    var v := Loaded(v, db, a.w.tenantId);
    if a.r.Placed? then v[a.w.tenantId := Book(v[a.w.tenantId], BookingOf(a))] else v
  }

  lemma ChosenIsBooking(cs: map<string, Cluster>, a: Attempt)
    requires (forall id <- cs :: cs[id].id == id) && Chosen(cs, a) && a.r.Placed?
    ensures Scheduler.Valid(cs, BookingOf(a)) && Placement(a.w.envs, a.w.previous, a.r.clusterId, a.r.namespace)
  {
    var k :| Best(cs, k, a.w.envs, a.w.previous, a.w.gpus, a.w.now, a.r);
  }

  lemma KeyedTried(v: View, db: Db, a: Attempt)
    requires Keyed(v) && Chosen(Base(v, db, a.w.tenantId), a)
    ensures Keyed(Tried(v, db, a)) && forall id <- Base(v, db, a.w.tenantId) :: Base(v, db, a.w.tenantId)[id].id == id
  {
    LoadedKeyed(v, db, a.w.tenantId);
    if a.r.Placed? {
      ChosenIsBooking(Base(v, db, a.w.tenantId), a);
    }
  }

  lemma TriedBase(v: View, db: Db, a: Attempt, t: string)
    ensures Base(Tried(v, db, a), db, t) ==
            if a.w.tenantId == t && a.r.Placed? then Book(Base(v, db, t), BookingOf(a)) else Base(v, db, t)
  {
  }

  lemma ReservedIsTried(v: View, db: Db, a: Attempt)
    requires a.r.Placed? && a.r.clusterId in Base(v, db, a.w.tenantId)
    ensures var b, v1 := BookingOf(a), Loaded(v, db, a.w.tenantId);
            Reserved(v1, db, a.w.tenantId, b.chosen, b.key, b.gpus, b.now) == Tried(v, db, a)
  {
    if a.w.gpus == 0 {
      assert Book(Base(v, db, a.w.tenantId), BookingOf(a)) == Base(v, db, a.w.tenantId);
    }
  }

  method Choose(cs: map<string, Cluster>, w: Workload) returns (r: Result)
    ensures Chosen(cs, Attempt(w, r))
  {
    r := Schedule(cs, w.envs, w.previous, w.gpus, w.now);
  }

  /** Reserves a placement; without one there is nothing to do. */
  method ReserveChosen(cache: Store, ghost v: View, w: Workload, r: Result)
    requires cache.Valid() && cache.View() == Loaded(v, cache.table.rows, w.tenantId)
    requires r.Placed? ==> r.clusterId in Base(v, cache.table.rows, w.tenantId)
    modifies cache, cache.clusters.Values
    ensures cache.Valid() && cache.View() == Tried(v, cache.table.rows, Attempt(w, r))
    ensures forall t <- cache.clusters :: cache.clusters[t] in old(cache.clusters.Values) || fresh(cache.clusters[t])
  {
    if r.Placed? {
      ReservedIsTried(v, cache.table.rows, Attempt(w, r));
      var _ := cache.AddAssumedPod(w.tenantId, r.clusterId, PodKey(r.namespace, w.name), w.gpus, w.now);
    }
  }

  lemma ChosenIsCached(v: View, db: Db, a: Attempt)
    requires Keyed(v) && Chosen(Base(v, db, a.w.tenantId), a) && a.r.Placed?
    ensures a.r.clusterId in Base(v, db, a.w.tenantId)
  {
    KeyedTried(v, db, a);
    ChosenIsBooking(Base(v, db, a.w.tenantId), a);
  }

  /** The uninterrupted part of the create and reschedule handlers that touches the cache: look the clusters up,
      choose one, reserve there. */
  method ScheduleWorkload(cache: Store, w: Workload) returns (r: Result)
    requires cache.Valid() && Keyed(cache.View())
    modifies cache, cache.clusters.Values
    ensures cache.Valid()
    ensures Chosen(Base(old(cache.View()), cache.table.rows, w.tenantId), Attempt(w, r))
    ensures cache.View() == Tried(old(cache.View()), cache.table.rows, Attempt(w, r))
    ensures forall t <- cache.clusters :: cache.clusters[t] in old(cache.clusters.Values) || fresh(cache.clusters[t])
  {
    ghost var v := cache.View();
    var cls := cache.ListClustersByTenantID(w.tenantId);
    r := Choose(cls.byId, w);
    if r.Placed? {
      ChosenIsCached(v, cache.table.rows, Attempt(w, r));
    }
    ReserveChosen(cache, v, w, r);
  }

  /** The cache after a sequence of attempts. */
  function ViewOf(v: View, db: Db, attempts: seq<Attempt>): View {
    if attempts == [] then v else Tried(ViewOf(v, db, attempts[..|attempts| - 1]), db, attempts[|attempts| - 1])
  }

  /** Each answer is right for the cache as the attempts before it left it. */
  ghost predicate AllChosen(v: View, db: Db, attempts: seq<Attempt>) {
    attempts == [] ||
      var init, a := attempts[..|attempts| - 1], attempts[|attempts| - 1];
      AllChosen(v, db, init) && Chosen(Base(ViewOf(v, db, init), db, a.w.tenantId), a)
  }

  /** The placements of a tenant, as bookings. */
  function BookingsOf(attempts: seq<Attempt>, t: string): seq<Booking> {
    if attempts == [] then []
    else
      var a := attempts[|attempts| - 1];
      BookingsOf(attempts[..|attempts| - 1], t) + (if a.w.tenantId == t && a.r.Placed? then [BookingOf(a)] else [])
  }

  /** The attempts answer the first of these requests. */
  predicate Answer(attempts: seq<Attempt>, ws: seq<Workload>) {
    |attempts| <= |ws| && forall i :: 0 <= i < |attempts| ==> attempts[i].w == ws[i]
  }

  /** One more workload after `done`. */
  method ScheduleNext(cache: Store, ghost v: View, ghost done: seq<Attempt>, w: Workload) returns (r: Result)
    requires cache.Valid() && Keyed(v) && AllChosen(v, cache.table.rows, done)
    requires cache.View() == ViewOf(v, cache.table.rows, done)
    modifies cache, cache.clusters.Values
    ensures cache.Valid() && AllChosen(v, cache.table.rows, done + [Attempt(w, r)])
    ensures cache.View() == ViewOf(v, cache.table.rows, done + [Attempt(w, r)])
    ensures forall t <- cache.clusters :: cache.clusters[t] in old(cache.clusters.Values) || fresh(cache.clusters[t])
  {
    KeyedAlways(v, cache.table.rows, done);
    r := ScheduleWorkload(cache, w);
    OneMoreAttempt(v, cache.table.rows, done, Attempt(w, r));
    OneMoreView(v, cache.table.rows, done, Attempt(w, r));
  }

  /** Workloads scheduled one after another, of any tenants. */
  method ScheduleAll(cache: Store, ws: seq<Workload>) returns (attempts: seq<Attempt>)
    requires cache.Valid() && Keyed(cache.View())
    modifies cache, cache.clusters.Values
    ensures cache.Valid()
    ensures |attempts| == |ws| && Answer(attempts, ws)
    ensures AllChosen(old(cache.View()), cache.table.rows, attempts)
    ensures cache.View() == ViewOf(old(cache.View()), cache.table.rows, attempts)
  {
    attempts := [];
    ghost var v := cache.View();
    while |attempts| < |ws|
      invariant cache.Valid() && Answer(attempts, ws)
      invariant AllChosen(v, cache.table.rows, attempts) && cache.View() == ViewOf(v, cache.table.rows, attempts)
      invariant forall t <- cache.clusters ::
          cache.clusters[t] in old(cache.clusters.Values) || fresh(cache.clusters[t])
    {
      var w := ws[|attempts|];
      var r := ScheduleNext(cache, v, attempts, w);
      attempts := attempts + [Attempt(w, r)];
    }
  }

  lemma LastAttempt(attempts: seq<Attempt>, a: Attempt)
    ensures var more := attempts + [a]; more != [] && more[..|more| - 1] == attempts && more[|more| - 1] == a
  {
  }

  lemma OneMoreView(v: View, db: Db, attempts: seq<Attempt>, a: Attempt)
    ensures ViewOf(v, db, attempts + [a]) == Tried(ViewOf(v, db, attempts), db, a)
  {
    LastAttempt(attempts, a);
  }

  lemma OneMoreAttempt(v: View, db: Db, attempts: seq<Attempt>, a: Attempt)
    requires AllChosen(v, db, attempts) && Chosen(Base(ViewOf(v, db, attempts), db, a.w.tenantId), a)
    ensures AllChosen(v, db, attempts + [a])
  {
    LastAttempt(attempts, a);
  }

  lemma OneMoreBooking(cs: map<string, Cluster>, bs: seq<Booking>, b: Booking)
    requires AllValid(cs, bs) && Scheduler.Valid(BookAll(cs, bs), b)
    ensures AllValid(cs, bs + [b]) && BookAll(cs, bs + [b]) == Book(BookAll(cs, bs), b)
  {
    var more := bs + [b];
    assert more[..|bs|] == bs;
    forall i: nat | i < |more|
      ensures Scheduler.Valid(BookAll(cs, more[..i]), more[i])
    {
      if i < |bs| {
        assert more[..i] == bs[..i];
      }
    }
  }

  lemma {:induction false} KeyedAlways(v: View, db: Db, attempts: seq<Attempt>)
    requires Keyed(v) && AllChosen(v, db, attempts)
    ensures Keyed(ViewOf(v, db, attempts))
  {
    if attempts != [] {
      var init := attempts[..|attempts| - 1];
      KeyedAlways(v, db, init);
      KeyedTried(ViewOf(v, db, init), db, attempts[|attempts| - 1]);
    }
  }

  /** The attempts of a tenant are a sequence of valid bookings on its clusters, and its view is what they make
      of it. */
  lemma {:induction false} AttemptsAreBookings(v: View, db: Db, attempts: seq<Attempt>, t: string)
    requires Keyed(v) && AllChosen(v, db, attempts)
    ensures AllValid(Base(v, db, t), BookingsOf(attempts, t))
    ensures Base(ViewOf(v, db, attempts), db, t) == BookAll(Base(v, db, t), BookingsOf(attempts, t))
  {
    if attempts != [] {
      var init, a := attempts[..|attempts| - 1], attempts[|attempts| - 1];
      var mid := ViewOf(v, db, init);
      AttemptsAreBookings(v, db, init, t);
      TriedBase(mid, db, a, t);
      if a.r.Placed? && a.w.tenantId == t {
        KeyedAlways(v, db, init);
        KeyedTried(mid, db, a);
        ChosenIsBooking(Base(mid, db, t), a);
        OneMoreBooking(Base(v, db, t), BookingsOf(init, t), BookingOf(a));
      } else {
        assert BookingsOf(attempts, t) == BookingsOf(init, t);
      }
    }
  }

  /** So no cluster with GPU nodes is overbooked by workloads the server schedules one after another: its free count
      stays non-negative. */
  lemma ScheduledNeverOverbooks(v: View, db: Db, attempts: seq<Attempt>, t: string, id: string)
    requires Keyed(v) && AllChosen(v, db, attempts) && forall b <- BookingsOf(attempts, t) :: Counts(b)
    requires id in Base(v, db, t) && Sound(Base(v, db, t)[id])
    ensures var cs := Base(ViewOf(v, db, attempts), db, t); id in cs && Sound(cs[id])
  {
    AttemptsAreBookings(v, db, attempts, t);
    NeverOverbooked(Base(v, db, t), BookingsOf(attempts, t), id);
  }

  /** With distinct keys that holds of negative requests too, and never more is placed there than was free at first. */
  lemma ScheduledWithinFree(v: View, db: Db, attempts: seq<Attempt>, t: string, id: string)
    requires Keyed(v) && AllChosen(v, db, attempts) && forall b <- BookingsOf(attempts, t) :: Fits(b)
    requires id in Base(v, db, t) && Solvent(Base(v, db, t)[id])
    requires FreshKeys(Base(v, db, t)[id], BookingsOf(attempts, t), id)
    ensures var cs := Base(ViewOf(v, db, attempts), db, t); id in cs && Solvent(cs[id])
    ensures PlacedOn(BookingsOf(attempts, t), id) <= Available(Base(v, db, t)[id])
  {
    AttemptsAreBookings(v, db, attempts, t);
    NoDoubleBooking(Base(v, db, t), BookingsOf(attempts, t), id);
  }

  // Keys.

  /** Workloads of a namespace have different keys, and so have those of different namespaces, whose names have no
      slash. */
  lemma KeysDiffer(ns: string, w: string, ns': string, w': string)
    requires PodKey(ns, w) == PodKey(ns', w') && (ns == ns' || ('/' !in ns && '/' !in ns'))
    ensures ns == ns' && w == w'
  {
    var key := ns + "/" + w;
    assert key == ns' + "/" + w' && key[|ns|] == '/' && key[|ns'|] == '/';
    assert forall i :: 0 <= i < |ns| ==> key[i] == ns[i];
    assert forall i :: 0 <= i < |ns'| ==> key[i] == ns'[i];
    assert |ns| == |ns'|;
    assert ns == key[..|ns|] && ns' == key[..|ns'|];
    assert w == key[|ns| + 1..] && w' == key[|ns'| + 1..];
  }

  /** A pod is named after its namespace and workload, so it is shown under their key, */
  lemma PodIsShown(pods: seq<Pod>, i: nat, ns: string, w: string, suffix: string)
    requires i < |pods| && pods[i].name == ns + "/" + w + suffix
    ensures Shown(pods, PodKey(ns, w))
  {
    assert PodKey(ns, w) <= pods[i].name;
  }

  /** and only pods with that prefix are. */
  lemma ShownExactly(pods: seq<Pod>, key: string)
    ensures Shown(pods, key) <==> exists i, suffix :: 0 <= i < |pods| && pods[i].name == key + suffix
  {
    if Shown(pods, key) {
      var i :| 0 <= i < |pods| && key <= pods[i].name;
      assert pods[i].name == key + pods[i].name[|key|..];
    }
    if i, suffix :| 0 <= i < |pods| && pods[i].name == key + suffix {
      assert key <= pods[i].name;
    }
  }

  /** The report that shows it ends the reservation. */
  lemma ReportEndsReservation(s: State, op: Op, i: nat, ns: string, w: string, suffix: string)
    requires op.Report? && i < |op.status.pods| && op.status.pods[i].name == ns + "/" + w + suffix
    ensures var s' := Do(s, op); PodKey(ns, w) !in Reservations(s', s'.db[op.id].tenantId, op.id)
  {
    PodIsShown(op.status.pods, i, ns, w, suffix);
    ReportSettlesReservations(s, op, PodKey(ns, w));
  }

  /** The placed attempts of a tenant have different names, and namespaces without a slash. */
  predicate NamesDiffer(attempts: seq<Attempt>, t: string) {
    && (forall i :: 0 <= i < |attempts| && IsPlacedFor(attempts[i], t) ==> '/' !in attempts[i].r.namespace)
    && (forall i, j :: 0 <= i < j < |attempts| && IsPlacedFor(attempts[i], t) && IsPlacedFor(attempts[j], t) ==>
          attempts[i].w.name != attempts[j].w.name)
  }

  predicate IsPlacedFor(a: Attempt, t: string) {
    a.w.tenantId == t && a.r.Placed?
  }

  /** The cluster has no reservation for any of them. */
  predicate NoneReserved(c: Cluster, attempts: seq<Attempt>, t: string) {
    forall i :: 0 <= i < |attempts| && IsPlacedFor(attempts[i], t) ==>
      attempts[i].r.namespace + "/" + attempts[i].w.name !in c.assumed
  }

  lemma {:induction false} BookingFrom(attempts: seq<Attempt>, t: string, m: nat) returns (i: nat)
    requires m < |BookingsOf(attempts, t)|
    ensures i < |attempts| && IsPlacedFor(attempts[i], t) && BookingsOf(attempts, t)[m] == BookingOf(attempts[i])
  {
    var init := attempts[..|attempts| - 1];
    if m < |BookingsOf(init, t)| {
      i := BookingFrom(init, t, m);
    } else {
      i := |attempts| - 1;
    }
  }

  lemma {:induction false} NamesGiveFreshKeys(c: Cluster, attempts: seq<Attempt>, t: string, id: string)
    requires NamesDiffer(attempts, t) && NoneReserved(c, attempts, t)
    ensures FreshKeys(c, BookingsOf(attempts, t), id)
  {
    if attempts != [] {
      var n := |attempts| - 1;
      var init, a := attempts[..n], attempts[n];
      var bs, bs' := BookingsOf(init, t), BookingsOf(attempts, t);
      NamesGiveFreshKeys(c, init, t, id);
      if IsPlacedFor(a, t) {
        forall m | 0 <= m < |bs|
          ensures bs[m].key != BookingOf(a).key
        {
          var i := BookingFrom(init, t, m);
          if bs[m].key == BookingOf(a).key {
            KeysDiffer(attempts[i].r.namespace, attempts[i].w.name, a.r.namespace, a.w.name);
          }
        }
        assert bs' == bs + [BookingOf(a)];
      } else {
        assert bs' == bs;
      }
    }
  }

  /** Workloads of different names, for which the cluster holds no reservation yet, never get more of it than was
      free. */
  lemma DifferentNamesWithinFree(v: View, db: Db, attempts: seq<Attempt>, t: string, id: string)
    requires Keyed(v) && AllChosen(v, db, attempts) && forall b <- BookingsOf(attempts, t) :: Fits(b)
    requires id in Base(v, db, t) && Solvent(Base(v, db, t)[id])
    requires NamesDiffer(attempts, t) && NoneReserved(Base(v, db, t)[id], attempts, t)
    ensures var cs := Base(ViewOf(v, db, attempts), db, t); id in cs && Solvent(cs[id])
    ensures PlacedOn(BookingsOf(attempts, t), id) <= Available(Base(v, db, t)[id])
  {
    NamesGiveFreshKeys(Base(v, db, t)[id], attempts, t, id);
    ScheduledWithinFree(v, db, attempts, t, id);
  }

  // What a report leaves in the table and in the cache.

  /** The row is that of the report, under the name and tenant the cluster had, and the cache shows it so. */
  lemma ReportShows(s: State, op: Op)
    requires op.Report?
    ensures var s' := Do(s, op);
      var name := if op.id in s.db then s.db[op.id].name else op.name;
      var t := if op.id in s.db then s.db[op.id].tenantId else op.tenantId;
      && s'.db == s.db[op.id := DbCluster(name, t, op.status, op.now)]
      && t in s'.view && op.id in s'.view[t]
      && s'.view[t][op.id] == Cluster(op.id, name, op.now, op.status.nodes, op.status.provisionable, op.status.pods,
                                      Reservations(s', t, op.id))
  {
  }

  /** What the cache shows of a cluster in every run, field by field. */
  lemma CacheShows(db: Db, ops: seq<Op>, t: string, id: string)
    ensures var s := Run(State(db, map[]), ops);
      t in s.view ==>
        && (id in s.view[t] <==> id in s.db && s.db[id].tenantId == t)
        && (id in s.view[t] ==>
              var c, r := s.view[t][id], s.db[id];
              c.id == id && c.name == r.name && c.updatedAt == r.updatedAt && c.nodes == r.status.nodes
              && c.provisionable == r.status.provisionable && c.pods == r.status.pods)
  {
    CacheAgreesWithDb(db, ops);
    var s := Run(State(db, map[]), ops);
    if t in s.view {
      assert TenantAgrees(s, t);
    }
  }

  predicate LastReport(ops: seq<Op>, i: nat, id: string) {
    && i < |ops| && ops[i].Report? && ops[i].id == id
    && forall j :: i < j < |ops| ==> !(ops[j].Report? && ops[j].id == id)
  }

  /** The table holds the last report on each cluster. */
  lemma {:induction false} TableHoldsLastReport(db: Db, ops: seq<Op>, i: nat, id: string)
    requires LastReport(ops, i, id)
    ensures var s := Run(State(db, map[]), ops);
            id in s.db && s.db[id].status == ops[i].status && s.db[id].updatedAt == ops[i].now
  {
    var n := |ops| - 1;
    var s := Run(State(db, map[]), ops[..n]);
    if i < n {
      assert LastReport(ops[..n], i, id);
      TableHoldsLastReport(db, ops[..n], i, id);
      OtherRowsStay(s, ops[n], id);
    } else {
      ReportShows(s, ops[n]);
    }
  }

  lemma OtherRowsStay(s: State, op: Op, id: string)
    requires !(op.Report? && op.id == id)
    ensures (id in Do(s, op).db <==> id in s.db) && (id in s.db ==> Do(s, op).db[id] == s.db[id])
  {
  }

  // Who sees later changes.

  ghost function StateOf(cache: Store): State
    reads cache, cache.table, cache.clusters.Values
  {
    State(cache.table.rows, cache.View())
  }

  /** One operation on the cache itself. Its maps are those it had before, or new ones. */
  method Perform(cache: Store, op: Op)
    requires cache.Valid()
    modifies cache, cache.table, cache.clusters.Values
    ensures cache.Valid() && StateOf(cache) == Do(old(StateOf(cache)), op)
    ensures forall t <- cache.clusters :: if t in old(cache.clusters) then cache.clusters[t] == old(cache.clusters)[t]
                                          else fresh(cache.clusters[t])
  {
    match op {
      case Report(id, name, tenantId, status, now) => UpdateClusterStatus(cache, id, name, tenantId, status, now);
      case Lookup(tenantId, _) => var _ := cache.ListClustersByTenantID(tenantId);
      case Assume(tenantId, id, key, gpus, now) => var _ := cache.AddAssumedPod(tenantId, id, key, gpus, now);
    }
  }

  /** The cache performs a whole run as `Run` says, and changes no map but its own. */
  method Serve(cache: Store, ops: seq<Op>)
    requires cache.Valid()
    modifies cache, cache.table, cache.clusters.Values
    ensures cache.Valid() && StateOf(cache) == Run(old(StateOf(cache)), ops)
  {
    var i := 0;
    while i < |ops|
      invariant 0 <= i <= |ops| && cache.Valid() && StateOf(cache) == Run(old(StateOf(cache)), ops[..i])
      invariant forall t <- cache.clusters ::
          cache.clusters[t] in old(cache.clusters.Values) || fresh(cache.clusters[t])
    {
      assert ops[..i + 1][..i] == ops[..i];
      Perform(cache, ops[i]);
      i := i + 1;
    }
    assert ops[..|ops|] == ops;
  }

  /** A view obtained on a hit never changes, whatever is done with the cache afterwards. */
  method HitViewStays(cache: Store, t: string, ops: seq<Op>) returns (cls: Clusters)
    requires cache.Valid() && t in cache.clusters
    modifies cache, cache.table, cache.clusters.Values
    ensures cls.byId == old(cache.View())[t]
    ensures StateOf(cache) == Run(old(StateOf(cache)), ops)
  {
    cls := cache.ListClustersByTenantID(t);
    Serve(cache, ops);
  }

  /** A view obtained on a miss is the cached map itself: it shows reservations made later. */
  method MissViewMoves(cache: Store, t: string, id: string, key: string, gpus: int, now: int) returns (cls: Clusters)
    requires cache.Valid() && t !in cache.clusters && gpus != 0
    requires id in cache.table.rows && cache.table.rows[id].tenantId == t
    modifies cache, cache.clusters.Values
    ensures id in cls.byId && key in cls.byId[id].assumed
  {
    cls := cache.ListClustersByTenantID(t);
    assert key !in cls.byId[id].assumed;
    var _ := cache.AddAssumedPod(t, id, key, gpus, now);
    assert cls.byId == cache.View()[t];
  }
}
