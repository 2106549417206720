/** The rescheduler (server/internal/server/rescheduler.go). Both loops go through listed notebooks, decide on each as
it was listed and write it back under the version it was listed with. The second loop schedules: every placement
reserves GPUs that the next one does not find free. */
module Rescheduler {
  import opened Common
  import opened NotebookStore
  import opened NotebookServer
  import opened CacheRuns
  import Cache
  import Scheduler

  type Cluster = Scheduler.Cluster

  // Going through listed rows.

  /** A listing: the table as it was then, the order of the listed IDs, and what others do to the table before each
      update. */
  datatype Listing = Listing(
    rows: map<string, Row>, order: seq<string>, meanwhile: (nat, map<string, Row>) -> map<string, Row>, now: Time)

  /** `order` lists the notebooks in this state, in some order. */
  predicate Lists(rows: map<string, Row>, state: NotebookStore.State, order: seq<string>) {
    && (forall i, j :: 0 <= i < j < |order| ==> order[i] != order[j])
    && (forall i :: 0 <= i < |order| ==> order[i] in rows && rows[order[i]].state == state)
    && (forall id <- rows :: rows[id].state == state ==> id in order)
  }

  /** Where a loop is; an update that conflicts ends it. */
  datatype Progress = Progress(rows: map<string, Row>, ok: bool)

  /** The row as the loop writes it back, as an update. */
  function UpdateOf(nb: Row): Update {
    ForRescheduling(nb.clusterId, nb.state, nb.action, nb.message, nb.reason)
  }

  /** Listed notebook `i`, written back as `nb` unless there is nothing to write. */
  function OneUpdate(l: Listing, i: nat, rows: map<string, Row>, nb: Option<Row>): Progress
    requires i < |l.order|
  {
    var rows, id := l.meanwhile(i, rows), l.order[i];
    if nb.None? then Progress(rows, true)
    else Progress(After(rows, id, nb.value.version, UpdateOf(nb.value), l.now), Selects(rows, id, nb.value.version))
  }

  /** The loop over the first listed notebooks, with what it writes back for each. */
  function Sweep(l: Listing, nbs: seq<Option<Row>>): Progress
    requires |nbs| <= |l.order|
  {
    if nbs == [] then Progress(l.rows, true)
    else
      var before := Sweep(l, nbs[..|nbs| - 1]);
      if before.ok then OneUpdate(l, |nbs| - 1, before.rows, nbs[|nbs| - 1]) else before
  }

  lemma OneMore(l: Listing, nbs: seq<Option<Row>>, nb: Option<Row>)
    requires |nbs| < |l.order| && Sweep(l, nbs).ok
    ensures Sweep(l, nbs + [nb]) == OneUpdate(l, |nbs|, Sweep(l, nbs).rows, nb)
  {
    assert (nbs + [nb])[..|nbs|] == nbs;
  }

  lemma {:induction false} Stuck(l: Listing, nbs: seq<Option<Row>>, n: nat)
    requires n <= |nbs| <= |l.order| && !Sweep(l, nbs[..n]).ok
    ensures Sweep(l, nbs) == Sweep(l, nbs[..n])
    decreases |nbs|
  {
    if n == |nbs| {
      assert nbs[..n] == nbs;
    } else {
      var init := nbs[..|nbs| - 1];
      assert init[..n] == nbs[..n];
      Stuck(l, init, n);
    }
  }

  /** What becomes of one update: if the notebook is still as it was listed, it is written; if someone has changed it,
      it is left alone and the pass ends. Versions tell the two apart. */
  lemma WrittenExactlyIfUnchanged(l: Listing, i: nat, rows: map<string, Row>, nb: Row)
    requires i < |l.order| && l.order[i] in l.rows && nb.version == l.rows[l.order[i]].version
    requires var rows', id := l.meanwhile(i, rows), l.order[i];
             id in rows' && rows'[id].version == nb.version ==> rows'[id] == l.rows[id]
    ensures var rows', id, after := l.meanwhile(i, rows), l.order[i], OneUpdate(l, i, rows, Some(nb));
            && (after.ok <==> id in rows' && rows'[id] == l.rows[id])
            && after.rows == if after.ok then rows'[id := Apply(l.rows[id], UpdateOf(nb), l.now)] else rows'
  {
  }

  /** Nobody else changes the table during the loop. */
  ghost predicate Undisturbed(l: Listing) {
    forall i, rows :: l.meanwhile(i, rows) == rows
  }

  /** The loop writes rows back under the version they were listed with. */
  predicate KeepVersions(l: Listing, nbs: seq<Option<Row>>) {
    |nbs| <= |l.order| && forall i :: 0 <= i < |nbs| && nbs[i].Some? ==>
      l.order[i] in l.rows && nbs[i].value.version == l.rows[l.order[i]].version
  }

  predicate DistinctIds(order: seq<string>) {
    forall i, j :: 0 <= i < j < |order| ==> order[i] != order[j]
  }

  function Written(r: Row, nb: Option<Row>, now: Time): Row {
    if nb.None? then r else Apply(r, UpdateOf(nb.value), now)
  }

  /** Undisturbed, the loop comes to its end and leaves notebooks alone that it has not come to. */
  lemma {:induction false} SweepOther(l: Listing, nbs: seq<Option<Row>>, id: string)
    requires Undisturbed(l) && DistinctIds(l.order) && KeepVersions(l, nbs)
    requires forall i :: 0 <= i < |nbs| ==> l.order[i] != id
    ensures Sweep(l, nbs).ok && Sweep(l, nbs).rows.Keys == l.rows.Keys
    ensures id in l.rows ==> Sweep(l, nbs).rows[id] == l.rows[id]
  {
    if nbs != [] {
      var n := |nbs| - 1;
      SweepOther(l, nbs[..n], id);
      if nbs[n].Some? {
        SweepOther(l, nbs[..n], l.order[n]);
      }
    }
  }

  /** And it writes each listed notebook once, as it was listed. */
  lemma {:induction false} SweepListed(l: Listing, nbs: seq<Option<Row>>, i: nat)
    requires Undisturbed(l) && DistinctIds(l.order) && KeepVersions(l, nbs) && i < |nbs| && l.order[i] in l.rows
    ensures Sweep(l, nbs).ok && Sweep(l, nbs).rows.Keys == l.rows.Keys
    ensures Sweep(l, nbs).rows[l.order[i]] == Written(l.rows[l.order[i]], nbs[i], l.now)
  {
    var n := |nbs| - 1;
    SweepOther(l, nbs[..n], l.order[n]);
    if i < n {
      SweepListed(l, nbs[..n], i);
    }
  }

  // First loop.

  /** What the first loop writes back. */
  function TakenBack(nb: Row, maxQueued: nat, now: Time): Option<Row> {
    if !Contains(nb.reason, PULLING) && nb.updatedAt + maxQueued < now
    then Some(nb.(state := Queued, action := Requeueing)) else None
  }

  function Timeouts(l: Listing, maxQueued: nat): (nbs: seq<Option<Row>>)
    ensures |nbs| == |l.order|
    ensures forall i :: 0 <= i < |nbs| && l.order[i] in l.rows ==>
              nbs[i] == TakenBack(l.rows[l.order[i]], maxQueued, l.now)
  {
    seq(|l.order|, i requires 0 <= i < |l.order| =>
        if l.order[i] in l.rows then TakenBack(l.rows[l.order[i]], maxQueued, l.now) else None)
  }

  lemma TimeoutsNext(l: Listing, maxQueued: nat, i: nat)
    requires i < |l.order| && l.order[i] in l.rows
    ensures var nbs := Timeouts(l, maxQueued);
            nbs[..i + 1] == nbs[..i] + [TakenBack(l.rows[l.order[i]], maxQueued, l.now)]
  {
  }

  lemma TimeoutIsRequeue(r: Row, maxQueued: nat, now: Time)
    ensures TimedOut(r, maxQueued, now) ==
            if r.state == Initializing then Written(r, TakenBack(r, maxQueued, now), now) else r
  {
  }

  lemma TimeoutsSweep(l: Listing, maxQueued: nat, id: string)
    requires Undisturbed(l) && Lists(l.rows, Initializing, l.order) && id in l.rows
    ensures var after := Sweep(l, Timeouts(l, maxQueued));
            && after.ok && id in after.rows
            && var r := l.rows[id];
               after.rows[id] ==
                 if r.state == Initializing then Written(r, TakenBack(r, maxQueued, l.now), l.now) else r
  {
    if l.rows[id].state == Initializing {
      var i :| 0 <= i < |l.order| && l.order[i] == id;
      SweepListed(l, Timeouts(l, maxQueued), i);
    } else {
      SweepOther(l, Timeouts(l, maxQueued), id);
    }
  }

  /** Undisturbed, the first loop requeues exactly what has been initializing for too long and is not pulling. */
  lemma TimeoutsExactly(l: Listing, maxQueued: nat, id: string)
    requires Undisturbed(l) && Lists(l.rows, Initializing, l.order) && id in l.rows
    ensures var after := Sweep(l, Timeouts(l, maxQueued));
            after.ok && id in after.rows && after.rows[id] == TimedOut(l.rows[id], maxQueued, l.now)
  {
    TimeoutsSweep(l, maxQueued, id);
    TimeoutIsRequeue(l.rows[id], maxQueued, l.now);
  }

  // Second loop.

  /** What is asked of the scheduler for a notebook. */
  function WorkloadOf(id: string, r: Row, now: int): Workload {
    Workload(r.tenantId, r.envs, r.clusterId, r.message.gpuCount, id, now)
  }

  /** Where an attempt puts its notebook: nowhere if it cannot be scheduled, or if its secret cannot be created. In the
      second case the reservation stays. */
  function PlaceOf(a: Attempt, secret: string -> bool): Option<Env> {
    if a.r.Placed? && secret(a.w.name) then Some(Env(a.r.clusterId, a.r.namespace)) else None
  }

  /** What the second loop writes back. */
  function Replace(nb: Row, a: Attempt, secret: string -> bool): Option<Row> {
    var place := PlaceOf(a, secret);
    if place.None? then None
    else
      var message := nb.message.(clusterId := place.value.clusterId, namespace := place.value.namespace);
      Some(nb.(reason := "", state := Queued, action := Starting, clusterId := place.value.clusterId,
               message := message))
  }

  /** The listing, and what the second loop works with: the cache and the cluster table, for which notebooks a secret
      can be created, and the time of each attempt. */
  datatype Pass = Pass(l: Listing, view: Cache.View, db: Cache.Db, secret: string -> bool, clock: string -> int)

  ghost predicate PassOk(p: Pass) {
    Lists(p.l.rows, Requeued, p.l.order) && Keyed(p.view)
  }

  /** The attempts so far are about the first notebooks of the list, as they were listed. */
  ghost predicate Follow(p: Pass, attempts: seq<Attempt>) {
    |attempts| <= |p.l.order| && forall i :: 0 <= i < |attempts| ==>
      && p.l.order[i] in p.l.rows
      && attempts[i].w == WorkloadOf(p.l.order[i], p.l.rows[p.l.order[i]], p.clock(p.l.order[i]))
  }

  function Places(p: Pass, attempts: seq<Attempt>): (nbs: seq<Option<Row>>)
    requires Follow(p, attempts)
    ensures |nbs| == |attempts|
    ensures forall i :: 0 <= i < |nbs| ==> nbs[i] == Replace(p.l.rows[p.l.order[i]], attempts[i], p.secret)
  {
    seq(|attempts|, i requires 0 <= i < |attempts| => Replace(p.l.rows[p.l.order[i]], attempts[i], p.secret))
  }

  /** Each answer of the scheduler is right for the reservations made earlier in the pass, and the cache shows all. */
  ghost predicate Scheduled(p: Pass, attempts: seq<Attempt>, view: Cache.View) {
    AllChosen(p.view, p.db, attempts) && view == ViewOf(p.view, p.db, attempts)
  }

  /** The placed notebooks have been written, unless a conflict has ended the pass. */
  ghost predicate Swept(p: Pass, attempts: seq<Attempt>, after: Progress) {
    Follow(p, attempts) && after == Sweep(p.l, Places(p, attempts))
  }

  ghost predicate Advanced(p: Pass, attempts: seq<Attempt>, after: Progress, view: Cache.View) {
    Scheduled(p, attempts, view) && Swept(p, attempts, after)
  }

  lemma OneMorePlace(p: Pass, attempts: seq<Attempt>, a: Attempt)
    requires Follow(p, attempts) && |attempts| < |p.l.order| && p.l.order[|attempts|] in p.l.rows
    requires var id := p.l.order[|attempts|]; a.w == WorkloadOf(id, p.l.rows[id], p.clock(id))
    ensures Follow(p, attempts + [a])
    ensures Places(p, attempts + [a]) ==
            Places(p, attempts) + [Replace(p.l.rows[p.l.order[|attempts|]], a, p.secret)]
  {
  }

  /** What a loop lists, and what others do during it. */
  function ListingOf(
      rows: map<string, Row>, s: NotebookStore.State, listing: (NotebookStore.State, map<string, Row>) -> seq<string>,
      meanwhile: NotebookStore.State -> (nat, map<string, Row>) -> map<string, Row>, now: Time): Listing {
    Listing(rows, listing(s, rows), meanwhile(s), now)
  }

  class Rescheduler {
    const server: Server
    const cache: Cache.Store

    constructor (server: Server, cache: Cache.Store)
      ensures this.server == server && this.cache == cache
    {
      this.server, this.cache := server, cache;
    }

    /** The update at the end of a turn of either loop. */
    method UpdateNext(ghost l: Listing, ghost nbs: seq<Option<Row>>, i: nat, id: string, nb: Option<Row>,
                      meanwhile: (nat, map<string, Row>) -> map<string, Row>, now: Time) returns (ok: bool)
      requires i == |nbs| < |l.order| && id == l.order[i] && l.meanwhile == meanwhile && l.now == now
      requires Sweep(l, nbs) == Progress(server.store.rows, true)
      modifies server.store
      ensures Progress(server.store.rows, ok) == Sweep(l, nbs + [nb])
    {
      OneMore(l, nbs, nb);
      server.store.rows := meanwhile(i, server.store.rows);
      if nb.None? { return true; }
      ok := server.store.UpdateNotebookForRescheduling(id, nb.value, now);
    }

    /** A turn of the first loop. */
    method RequeueNext(ghost l: Listing, i: nat, id: string, nb: Row, maxQueued: nat,
                       meanwhile: (nat, map<string, Row>) -> map<string, Row>, now: Time) returns (ok: bool)
      requires i < |l.order| && id == l.order[i] && id in l.rows && nb == l.rows[id]
      requires l.meanwhile == meanwhile && l.now == now
      requires Sweep(l, Timeouts(l, maxQueued)[..i]) == Progress(server.store.rows, true)
      modifies server.store
      ensures Sweep(l, Timeouts(l, maxQueued)[..i + 1]) == Progress(server.store.rows, ok)
    {
      var changed := None;
      if !Contains(nb.reason, PULLING) && nb.updatedAt + maxQueued < now {
        changed := Some(nb.(state := Queued, action := Requeueing));
      }
      TimeoutsNext(l, maxQueued, i);
      ok := UpdateNext(l, Timeouts(l, maxQueued)[..i], i, id, changed, meanwhile, now);
    }

    /** First loop: requeue what has been initializing for too long. */
    method RequeueTimedOut(order: seq<string>, maxQueued: nat,
                           meanwhile: (nat, map<string, Row>) -> map<string, Row>, now: Time) returns (ok: bool)
      requires forall i :: 0 <= i < |order| ==> order[i] in server.store.rows
      modifies server.store
      ensures var l := Listing(old(server.store.rows), order, meanwhile, now);
              Progress(server.store.rows, ok) == Sweep(l, Timeouts(l, maxQueued))
    {
      var listed := server.store.rows;
      ghost var l := Listing(listed, order, meanwhile, now);
      var i := 0;
      while i < |order|
        invariant 0 <= i <= |order| && Sweep(l, Timeouts(l, maxQueued)[..i]) == Progress(server.store.rows, true)
      {
        ok := RequeueNext(l, i, order[i], listed[order[i]], maxQueued, meanwhile, now);
        i := i + 1;
        if !ok {
          Stuck(l, Timeouts(l, maxQueued), i);
          return;
        }
      }
      assert Timeouts(l, maxQueued)[..i] == Timeouts(l, maxQueued);
      return true;
    }

    /** scheduleNotebook for the next of the list. */
    method TryNext(ghost p: Pass, ghost attempts: seq<Attempt>, id: string, nb: Row, at: int) returns (a: Attempt)
      requires PassOk(p) && p.db == cache.table.rows && |attempts| < |p.l.order|
      requires id == p.l.order[|attempts|] && id in p.l.rows && nb == p.l.rows[id] && at == p.clock(id)
      requires cache.Valid() && Scheduled(p, attempts, cache.View())
      modifies cache, cache.clusters.Values
      ensures cache.Valid() && a.w == WorkloadOf(id, nb, at)
      ensures Scheduled(p, attempts + [a], cache.View())
      ensures forall t <- cache.clusters :: cache.clusters[t] in old(cache.clusters.Values) || fresh(cache.clusters[t])
    {
      var w := WorkloadOf(id, nb, at);
      var r := ScheduleNext(cache, p.view, attempts, w);
      a := Attempt(w, r);
    }

    /** The end of a turn of the second loop. */
    method WriteNext(ghost p: Pass, ghost attempts: seq<Attempt>, i: nat, id: string, nb: Row, a: Attempt,
                     secret: string -> bool, meanwhile: (nat, map<string, Row>) -> map<string, Row>, now: Time)
      returns (ok: bool)
      requires i == |attempts| < |p.l.order| && id == p.l.order[i]
      requires id in p.l.rows && nb == p.l.rows[id] && a.w == WorkloadOf(id, nb, p.clock(id))
      requires p.secret == secret && p.l.meanwhile == meanwhile && p.l.now == now
      requires Swept(p, attempts, Progress(server.store.rows, true))
      modifies server.store
      ensures Swept(p, attempts + [a], Progress(server.store.rows, ok))
    {
      OneMorePlace(p, attempts, a);
      var changed := None;
      if a.r.Placed? && secret(id) {
        changed := Some(nb.(reason := "", state := Queued, action := Starting, clusterId := a.r.clusterId,
                            message := nb.message.(clusterId := a.r.clusterId, namespace := a.r.namespace)));
      }
      ok := UpdateNext(p.l, Places(p, attempts), i, id, changed, meanwhile, now);
    }

    /** A turn of the second loop. */
    method PlaceNext(ghost p: Pass, ghost attempts: seq<Attempt>, i: nat, id: string, nb: Row, at: int,
                     secret: string -> bool, meanwhile: (nat, map<string, Row>) -> map<string, Row>, now: Time)
      returns (a: Attempt, ok: bool)
      requires PassOk(p) && p.db == cache.table.rows && i == |attempts| < |p.l.order| && id == p.l.order[i]
      requires id in p.l.rows && nb == p.l.rows[id] && at == p.clock(id)
      requires p.secret == secret && p.l.meanwhile == meanwhile && p.l.now == now
      requires cache.Valid() && Scheduled(p, attempts, cache.View())
      requires Swept(p, attempts, Progress(server.store.rows, true))
      modifies server.store, cache, cache.clusters.Values
      ensures cache.Valid() && Scheduled(p, attempts + [a], cache.View())
      ensures Swept(p, attempts + [a], Progress(server.store.rows, ok))
      ensures forall t <- cache.clusters :: cache.clusters[t] in old(cache.clusters.Values) || fresh(cache.clusters[t])
    {
      a := TryNext(p, attempts, id, nb, at);
      ok := WriteNext(p, attempts, i, id, nb, a, secret, meanwhile, now);
    }

    /** Second loop: place what its old cluster has released. */
    method PlaceRequeued(order: seq<string>, secret: string -> bool, clock: string -> int,
                         meanwhile: (nat, map<string, Row>) -> map<string, Row>, now: Time)
      returns (attempts: seq<Attempt>, ok: bool)
      requires Lists(server.store.rows, Requeued, order) && cache.Valid() && Keyed(cache.View())
      modifies server.store, cache, cache.clusters.Values
      ensures cache.Valid() && (ok ==> |attempts| == |order|)
      ensures var l := Listing(old(server.store.rows), order, meanwhile, now);
              var p := Pass(l, old(cache.View()), cache.table.rows, secret, clock);
              Advanced(p, attempts, Progress(server.store.rows, ok), cache.View())
    {
      var listed := server.store.rows;
      ghost var l := Listing(listed, order, meanwhile, now);
      ghost var p := Pass(l, cache.View(), cache.table.rows, secret, clock);
      attempts := [];
      while |attempts| < |order|
        invariant cache.Valid() && |attempts| <= |order| && p.db == cache.table.rows
        invariant Scheduled(p, attempts, cache.View()) && Swept(p, attempts, Progress(server.store.rows, true))
        invariant forall t <- cache.clusters ::
            cache.clusters[t] in old(cache.clusters.Values) || fresh(cache.clusters[t])
        decreases |order| - |attempts|
      {
        var i, id := |attempts|, order[|attempts|];
        var a, done := PlaceNext(p, attempts, i, id, listed[id], clock(id), secret, meanwhile, now);
        attempts := attempts + [a];
        if !done { return attempts, false; }
      }
      return attempts, true;
    }

    /** One pass, with the lists it gets from the table as it finds it; a conflict in the first loop ends it there. */
    method RescheduleNotebooks(
        maxQueued: nat, listing: (NotebookStore.State, map<string, Row>) -> seq<string>, secret: string -> bool,
        clock: string -> int, meanwhile: NotebookStore.State -> (nat, map<string, Row>) -> map<string, Row>, now: Time)
      returns (first: Progress, attempts: seq<Attempt>, ok: bool)
      requires forall s, rows :: Lists(rows, s, listing(s, rows))
      requires cache.Valid() && Keyed(cache.View())
      modifies server.store, cache, cache.clusters.Values
      ensures var l := ListingOf(old(server.store.rows), Initializing, listing, meanwhile, now);
              first == Sweep(l, Timeouts(l, maxQueued))
      ensures cache.Valid()
      ensures if !first.ok
              then !ok && attempts == [] && server.store.rows == first.rows && cache.View() == old(cache.View())
              else var l := ListingOf(first.rows, Requeued, listing, meanwhile, now);
                   var p := Pass(l, old(cache.View()), cache.table.rows, secret, clock);
                   Advanced(p, attempts, Progress(server.store.rows, ok), cache.View())
    {
      ok := RequeueTimedOut(listing(Initializing, server.store.rows), maxQueued, meanwhile(Initializing), now);
      first, attempts := Progress(server.store.rows, ok), [];
      if ok {
        var order := listing(Requeued, server.store.rows);
        attempts, ok := PlaceRequeued(order, secret, clock, meanwhile(Requeued), now);
      }
    }
  }

  // What a pass does to its notebooks and to the clusters.

  lemma {:induction false} ChosenPrefix(v: Cache.View, db: Cache.Db, attempts: seq<Attempt>, n: nat)
    requires AllChosen(v, db, attempts) && n <= |attempts|
    ensures AllChosen(v, db, attempts[..n])
    decreases |attempts|
  {
    if n == |attempts| {
      assert attempts[..n] == attempts;
    } else {
      var init := attempts[..|attempts| - 1];
      ChosenPrefix(v, db, init, n);
      assert init[..n] == attempts[..n];
    }
  }

  /** A placement is what the reschedule handler accepts: another cluster, with its namespace. */
  lemma LastIsPlacement(v: Cache.View, db: Cache.Db, attempts: seq<Attempt>)
    requires Keyed(v) && attempts != [] && AllChosen(v, db, attempts) && attempts[|attempts| - 1].r.Placed?
    ensures var a := attempts[|attempts| - 1]; Placement(a.w.envs, a.w.previous, a.r.clusterId, a.r.namespace)
  {
    var init, a := attempts[..|attempts| - 1], attempts[|attempts| - 1];
    KeyedAlways(v, db, init);
    KeyedTried(ViewOf(v, db, init), db, a);
    ChosenIsBooking(Base(ViewOf(v, db, init), db, a.w.tenantId), a);
  }

  lemma PlacementAt(v: Cache.View, db: Cache.Db, attempts: seq<Attempt>, i: nat)
    requires Keyed(v) && AllChosen(v, db, attempts) && i < |attempts| && attempts[i].r.Placed?
    ensures var a := attempts[i]; Placement(a.w.envs, a.w.previous, a.r.clusterId, a.r.namespace)
  {
    ChosenPrefix(v, db, attempts, i + 1);
    LastIsPlacement(v, db, attempts[..i + 1]);
  }

  /** Queued for starting at another cluster assigned to the project, under the namespace assigned there. */
  predicate IsMoved(r: Row, r': Row) {
    && r'.state == Queued && r'.action == Starting && r'.message.clusterId == r'.clusterId
    && Placement(r.envs, r.clusterId, r'.clusterId, r'.message.namespace)
  }

  /** What the loop writes is what the reschedule request makes of the row. */
  lemma ReplaceMoves(r: Row, a: Attempt, secret: string -> bool, now: Time)
    requires r.state == Requeued && PlaceOf(a, secret).Some?
    requires Placement(r.envs, r.clusterId, a.r.clusterId, a.r.namespace)
    ensures Written(r, Replace(r, a, secret), now) == Moved(r, PlaceOf(a, secret), now)
    ensures IsMoved(r, Moved(r, PlaceOf(a, secret), now))
    ensures Moved(r, PlaceOf(a, secret), now).clusterId == a.r.clusterId
  {
  }

  /** A placed notebook that nobody has changed since it was listed is moved; one that somebody has changed ends the
      pass and is left alone. Versions tell the two apart. */
  lemma PassWrites(p: Pass, attempts: seq<Attempt>, i: nat, rows: map<string, Row>)
    requires PassOk(p) && Follow(p, attempts) && AllChosen(p.view, p.db, attempts)
    requires i < |attempts| && PlaceOf(attempts[i], p.secret).Some?
    requires var rows', id := p.l.meanwhile(i, rows), p.l.order[i];
             id in rows' && rows'[id].version == p.l.rows[id].version ==> rows'[id] == p.l.rows[id]
    ensures var rows', id := p.l.meanwhile(i, rows), p.l.order[i];
            var after := OneUpdate(p.l, i, rows, Places(p, attempts)[i]);
            && (after.ok <==> id in rows' && rows'[id] == p.l.rows[id])
            && (!after.ok ==> after.rows == rows')
            && (after.ok ==> id in after.rows && after.rows == rows'[id := after.rows[id]]
                             && IsMoved(p.l.rows[id], after.rows[id]))
  {
    var r := p.l.rows[p.l.order[i]];
    PlacementAt(p.view, p.db, attempts, i);
    ReplaceMoves(r, attempts[i], p.secret, p.l.now);
    WrittenExactlyIfUnchanged(p.l, i, rows, Places(p, attempts)[i].value);
  }

  /** Undisturbed, a requeued notebook that was placed and got its secret is moved; otherwise it stays as it is. */
  lemma PassPlaces(p: Pass, attempts: seq<Attempt>, after: Progress, i: nat)
    requires PassOk(p) && AllChosen(p.view, p.db, attempts) && Swept(p, attempts, after)
    requires Undisturbed(p.l) && i < |attempts|
    ensures after.ok && p.l.order[i] in p.l.rows && p.l.order[i] in after.rows
    ensures var r, r' := p.l.rows[p.l.order[i]], after.rows[p.l.order[i]];
            if PlaceOf(attempts[i], p.secret).None? then r' == r
            else r' != r && IsMoved(r, r') && r'.clusterId == attempts[i].r.clusterId
  {
    SweepListed(p.l, Places(p, attempts), i);
    if PlaceOf(attempts[i], p.secret).Some? {
      PlacementAt(p.view, p.db, attempts, i);
      ReplaceMoves(p.l.rows[p.l.order[i]], attempts[i], p.secret, p.l.now);
    }
  }

  /** And every other row stays. */
  lemma PassKeeps(p: Pass, attempts: seq<Attempt>, after: Progress, id: string)
    requires PassOk(p) && Swept(p, attempts, after) && Undisturbed(p.l)
    requires id in p.l.rows && p.l.rows[id].state != Requeued
    ensures id in after.rows && after.rows[id] == p.l.rows[id]
  {
    SweepOther(p.l, Places(p, attempts), id);
  }

  /** The clusters of the notebook's tenant as the placements before its own left them. */
  ghost function Found(p: Pass, attempts: seq<Attempt>, i: nat): map<string, Cluster>
    requires Follow(p, attempts) && i < |attempts|
  {
    Base(ViewOf(p.view, p.db, attempts[..i]), p.db, p.l.rows[p.l.order[i]].tenantId)
  }

  /** The cluster could take the notebook, as it was listed: with its GPU count, at another place than before. */
  ghost predicate CanTake(p: Pass, i: nat, c: Cluster)
    requires i < |p.l.order| && p.l.order[i] in p.l.rows
  {
    var id, r := p.l.order[i], p.l.rows[p.l.order[i]];
    Scheduler.Candidate(c, r.envs, r.clusterId, r.message.gpuCount, p.clock(id))
  }

  lemma ChosenAt(v: Cache.View, db: Cache.Db, attempts: seq<Attempt>, i: nat)
    requires Keyed(v) && AllChosen(v, db, attempts) && i < |attempts|
    ensures var cs := Base(ViewOf(v, db, attempts[..i]), db, attempts[i].w.tenantId);
            Chosen(cs, attempts[i]) && forall k <- cs :: cs[k].id == k
  {
    ChosenPrefix(v, db, attempts, i + 1);
    var upTo := attempts[..i + 1];
    assert upTo[..i] == attempts[..i];
    KeyedAlways(v, db, attempts[..i]);
    KeyedTried(ViewOf(v, db, attempts[..i]), db, attempts[i]);
  }

  /** A notebook is placed on a cluster of its own tenant that could take it, with no fewer free GPUs than any other
      that could when it needs GPUs; and it is not placed exactly when none could. */
  lemma PassChooses(p: Pass, attempts: seq<Attempt>, i: nat)
    requires PassOk(p) && Follow(p, attempts) && AllChosen(p.view, p.db, attempts) && i < |attempts|
    ensures var cs, a := Found(p, attempts, i), attempts[i].r;
      if a.Placed?
      then && a.clusterId in cs && CanTake(p, i, cs[a.clusterId])
           && (p.l.rows[p.l.order[i]].message.gpuCount != 0 ==> forall k <- cs | CanTake(p, i, cs[k]) ::
                 Scheduler.Available(cs[k]) <= Scheduler.Available(cs[a.clusterId]))
      else forall k <- cs :: !CanTake(p, i, cs[k])
  {
    ChosenAt(p.view, p.db, attempts, i);
    var cs, w, r := Found(p, attempts, i), attempts[i].w, attempts[i].r;
    if r.Placed? {
      var k :| Scheduler.Best(cs, k, w.envs, w.previous, w.gpus, w.now, r);
      assert cs[k].id == k;
      if w.gpus != 0 {
        Scheduler.BestExactly(cs, k, w.envs, w.previous, w.gpus, w.now, r);
      }
    }
  }

  /** Undisturbed, a requeued notebook moves exactly if a cluster of its tenant could take it and it got its secret; and
      it moves to such a cluster. */
  lemma PassMovesExactly(p: Pass, attempts: seq<Attempt>, after: Progress, i: nat)
    requires PassOk(p) && AllChosen(p.view, p.db, attempts) && Swept(p, attempts, after)
    requires Undisturbed(p.l) && i < |attempts|
    ensures p.l.order[i] in p.l.rows && p.l.order[i] in after.rows
    ensures var id, cs := p.l.order[i], Found(p, attempts, i);
      var r, r' := p.l.rows[id], after.rows[id];
      && (r' != r <==> p.secret(id) && exists k <- cs :: CanTake(p, i, cs[k]))
      && (r' != r ==> IsMoved(r, r') && r'.clusterId in cs && CanTake(p, i, cs[r'.clusterId]))
  {
    PassPlaces(p, attempts, after, i);
    PassChooses(p, attempts, i);
    assert PlaceOf(attempts[i], p.secret).Some? <==> attempts[i].r.Placed? && p.secret(p.l.order[i]);
  }

  /** The reservation a placement makes: the notebook's own GPU count, under its namespace and ID. */
  ghost predicate Holds(cs: map<string, Cluster>, c: string, ns: string, id: string, gpus: int, now: int) {
    && c in cs && ns + "/" + id in cs[c].assumed
    && cs[c].assumed[ns + "/" + id] == Scheduler.Assumed(ToInt32(gpus), now)
  }

  lemma BookHolds(cs: map<string, Cluster>, a: Attempt)
    requires a.r.Placed? && a.r.clusterId in cs && a.w.gpus != 0
    ensures Holds(Scheduler.Book(cs, BookingOf(a)), a.r.clusterId, a.r.namespace, a.w.name, a.w.gpus, a.w.now)
  {
  }

  lemma BookKeepsHold(
      cs: map<string, Cluster>, b: Scheduler.Booking, c: string, ns: string, id: string, gpus: int, now: int)
    requires Holds(cs, c, ns, id, gpus, now) && b.key != ns + "/" + id
    ensures Holds(Scheduler.Book(cs, b), c, ns, id, gpus, now)
  {
  }

  lemma NextView(v: Cache.View, db: Cache.Db, attempts: seq<Attempt>, n: nat, t: string)
    requires n < |attempts|
    ensures Base(ViewOf(v, db, attempts[..n + 1]), db, t) ==
            var before := Base(ViewOf(v, db, attempts[..n]), db, t);
            if attempts[n].w.tenantId == t && attempts[n].r.Placed?
            then Scheduler.Book(before, BookingOf(attempts[n])) else before
  {
    assert attempts[..n + 1][..n] == attempts[..n];
    TriedBase(ViewOf(v, db, attempts[..n]), db, attempts[n], t);
  }

  /** Afterwards the cache holds a reservation of exactly its GPU count for a placed notebook that needs GPUs, at its
      cluster, up to the end of the pass. */
  lemma {:induction false} PassReserves(p: Pass, attempts: seq<Attempt>, i: nat, n: nat)
    requires PassOk(p) && Follow(p, attempts) && AllChosen(p.view, p.db, attempts)
    requires i < n <= |attempts| && attempts[i].r.Placed? && p.l.rows[p.l.order[i]].message.gpuCount != 0
    requires forall j :: 0 <= j < |attempts| && attempts[j].r.Placed? ==> '/' !in attempts[j].r.namespace
    ensures var id, r, a := p.l.order[i], p.l.rows[p.l.order[i]], attempts[i].r;
            Holds(Base(ViewOf(p.view, p.db, attempts[..n]), p.db, r.tenantId), a.clusterId, a.namespace, id,
                  r.message.gpuCount, p.clock(id))
  {
    var id, r, a, last := p.l.order[i], p.l.rows[p.l.order[i]], attempts[i].r, attempts[n - 1];
    var before := Base(ViewOf(p.view, p.db, attempts[..n - 1]), p.db, r.tenantId);
    NextView(p.view, p.db, attempts, n - 1, r.tenantId);
    if i == n - 1 {
      PassReservesNow(p, attempts, i);
    } else {
      PassReserves(p, attempts, i, n - 1);
      if last.r.Placed? && last.w.tenantId == r.tenantId {
        OtherKey(p, attempts, i, n - 1);
        BookKeepsHold(before, BookingOf(last), a.clusterId, a.namespace, id, r.message.gpuCount, p.clock(id));
      }
    }
  }

  lemma PassReservesNow(p: Pass, attempts: seq<Attempt>, i: nat)
    requires PassOk(p) && Follow(p, attempts) && AllChosen(p.view, p.db, attempts)
    requires i < |attempts| && attempts[i].r.Placed? && p.l.rows[p.l.order[i]].message.gpuCount != 0
    ensures var id, r, a := p.l.order[i], p.l.rows[p.l.order[i]], attempts[i].r;
            Holds(Base(ViewOf(p.view, p.db, attempts[..i + 1]), p.db, r.tenantId), a.clusterId, a.namespace, id,
                  r.message.gpuCount, p.clock(id))
  {
    NextView(p.view, p.db, attempts, i, p.l.rows[p.l.order[i]].tenantId);
    PassChooses(p, attempts, i);
    BookHolds(Found(p, attempts, i), attempts[i]);
  }

  lemma OtherKey(p: Pass, attempts: seq<Attempt>, i: nat, j: nat)
    requires PassOk(p) && Follow(p, attempts) && i < j < |attempts|
    requires attempts[i].r.Placed? && attempts[j].r.Placed?
    requires '/' !in attempts[i].r.namespace && '/' !in attempts[j].r.namespace
    ensures BookingOf(attempts[j]).key != attempts[i].r.namespace + "/" + p.l.order[i]
  {
    if PodKey(attempts[j].r.namespace, attempts[j].w.name) == PodKey(attempts[i].r.namespace, attempts[i].w.name) {
      KeysDiffer(attempts[j].r.namespace, attempts[j].w.name, attempts[i].r.namespace, attempts[i].w.name);
    }
  }

  /** Non-negative GPU counts that fit an int32. */
  predicate CountsOk(rows: map<string, Row>) {
    forall id <- rows :: 0 <= rows[id].message.gpuCount < 0x8000_0000
  }

  lemma {:induction false} BookingsCount(p: Pass, attempts: seq<Attempt>, t: string)
    requires CountsOk(p.l.rows) && Follow(p, attempts)
    ensures forall b <- BookingsOf(attempts, t) :: Scheduler.Counts(b)
  {
    if attempts != [] {
      BookingsCount(p, attempts[..|attempts| - 1], t);
    }
  }

  /** The placements of a pass never overbook a cluster with GPU nodes, whatever others do to the notebook table. */
  lemma PassNeverOverbooks(p: Pass, attempts: seq<Attempt>, view: Cache.View, t: string, id: string)
    requires PassOk(p) && Follow(p, attempts) && Scheduled(p, attempts, view) && CountsOk(p.l.rows)
    requires id in Base(p.view, p.db, t) && Scheduler.Sound(Base(p.view, p.db, t)[id])
    ensures id in Base(view, p.db, t) && Scheduler.Sound(Base(view, p.db, t)[id])
  {
    BookingsCount(p, attempts, t);
    ScheduledNeverOverbooks(p.view, p.db, attempts, t, id);
  }
}
