/** The GPU scheduler (server/internal/scheduler/scheduler.go) and the reservations that keep it from
booking the same GPUs twice (server/internal/cache/cluster.go). */
module Scheduler {
  import opened Common

  datatype Pod = Pod(name: string, gpus: int)

  /** A pod the scheduler has placed and no status report has shown yet. */
  datatype Assumed = Assumed(count: int, addedAt: int)

  /** A cluster as the cache holds it: allocatable GPUs per node, instance types that could be provisioned,
      reported pods and reservations by pod-name prefix. Times are in nanoseconds. */
  datatype Cluster = Cluster(
    id: string, name: string, updatedAt: int,
    nodes: seq<int>, provisionable: seq<string>, pods: seq<Pod>, assumed: map<string, Assumed>)

  const MINUTE := 60_000_000_000
  const STALE := 30 * MINUTE

  function SumNodes(ns: seq<int>): int {
    if ns == [] then 0 else SumNodes(ns[..|ns| - 1]) + ns[|ns| - 1]
  }

  function SumPods(ps: seq<Pod>): int {
    if ps == [] then 0 else SumPods(ps[..|ps| - 1]) + ps[|ps| - 1].gpus
  }

  ghost function SumAssumed(m: map<string, Assumed>): int
    decreases |m|
  {
    if m == map[] then 0 else
      var k :| k in m;
      m[k].count + SumAssumed(m - {k})
  }

  /** Whichever key is taken out first. */
  lemma {:induction false} SumAssumedWithout(m: map<string, Assumed>, k: string)
    requires k in m
    ensures SumAssumed(m) == m[k].count + SumAssumed(m - {k})
    decreases |m|
  {
    var first :| first in m && SumAssumed(m) == m[first].count + SumAssumed(m - {first});
    if first != k {
      SumAssumedWithout(m - {first}, k);
      SumAssumedWithout(m - {k}, first);
      assert m - {first} - {k} == m - {k} - {first};
    }
  }

  ghost function Available(c: Cluster): int {
    SumNodes(c.nodes) - (SumPods(c.pods) + SumAssumed(c.assumed))
  }

  method AvailableGPUs(c: Cluster) returns (avail: int)
    ensures avail == Available(c)
  {
    var allocatable := 0;
    for i := 0 to |c.nodes|
      invariant allocatable == SumNodes(c.nodes[..i])
    {
      assert c.nodes[..i + 1][..i] == c.nodes[..i];
      allocatable := allocatable + c.nodes[i];
    }
    assert c.nodes[..|c.nodes|] == c.nodes;
    var used := 0;
    for i := 0 to |c.pods|
      invariant used == SumPods(c.pods[..i])
    {
      assert c.pods[..i + 1][..i] == c.pods[..i];
      used := used + c.pods[i].gpus;
    }
    assert c.pods[..|c.pods|] == c.pods;
    var rest := c.assumed;
    while rest != map[]
      invariant used + SumAssumed(rest) == SumPods(c.pods) + SumAssumed(c.assumed)
      decreases |rest|
    {
      var k :| k in rest;
      SumAssumedWithout(rest, k);
      used := used + rest[k].count;
      rest := rest - {k};
    }
    return allocatable - used;
  }

  ghost predicate Feasible(c: Cluster, gpus: int) {
    gpus == 0 || if c.nodes != [] then gpus <= Available(c) else c.provisionable != []
  }

  ghost function Score(c: Cluster, gpus: int): int {
    if gpus == 0 then 0 else Available(c)
  }

  /** The cluster may be considered at all: fresh, not the previous one, assigned to the project. */
  predicate Eligible(c: Cluster, envs: seq<Env>, previous: string, now: int) {
    now - c.updatedAt <= STALE && c.id != previous && NamespaceOf(envs, c.id).Some?
  }

  ghost predicate Candidate(c: Cluster, envs: seq<Env>, previous: string, gpus: int, now: int) {
    Eligible(c, envs, previous, now) && Feasible(c, gpus)
  }

  datatype Result =
    | Placed(clusterId: string, clusterName: string, namespace: string)
    | NoClusters | NoEnvironments | NoSchedulableCluster | NotSchedulable

  /** `k` is a best candidate and `r` says so. */
  ghost predicate Best(
      clusters: map<string, Cluster>, k: string, envs: seq<Env>, previous: string, gpus: int, now: int, r: Result) {
    && k in clusters && Candidate(clusters[k], envs, previous, gpus, now)
    && (forall j <- clusters :: Candidate(clusters[j], envs, previous, gpus, now) ==>
        Score(clusters[j], gpus) <= Score(clusters[k], gpus))
    && r.Placed? && r.clusterId == clusters[k].id && r.clusterName == clusters[k].name
    && Some(r.namespace) == NamespaceOf(envs, clusters[k].id)
  }

  method CanProvisionGPUs(c: Cluster, gpus: int) returns (ok: bool)
    ensures ok == if c.nodes != [] then gpus <= Available(c) else c.provisionable != []
  {
    if |c.nodes| > 0 {
      var avail := AvailableGPUs(c);
      return gpus <= avail;
    }
    return |c.provisionable| > 0;
  }

  /** Feasibility and score of one cluster. */
  method ScoreCluster(c: Cluster, gpus: int) returns (feasible: bool, score: int)
    ensures feasible == Feasible(c, gpus)
    ensures feasible ==> score == Score(c, gpus)
  {
    if gpus == 0 { return true, 0; }
    feasible := CanProvisionGPUs(c, gpus);
    if !feasible { return false, 0; }
    score := AvailableGPUs(c);
  }

  lemma NamespaceOfNext(envs: seq<Env>, i: nat, c: string)
    requires i < |envs|
    ensures NamespaceOf(envs[..i + 1], c) == if envs[i].clusterId == c then Some(envs[i].namespace)
        else NamespaceOf(envs[..i], c)
  {
    assert envs[..i + 1][..i] == envs[..i];
  }

  predicate Maps(m: map<string, string>, envs: seq<Env>, c: string) {
    NamespaceOf(envs, c) == if c in m then Some(m[c]) else None
  }

  method NamespacesByCluster(envs: seq<Env>) returns (m: map<string, string>)
    ensures forall c :: Maps(m, envs, c)
  {
    m := map[];
    for i := 0 to |envs|
      invariant forall c :: Maps(m, envs[..i], c)
    {
      var next := m[envs[i].clusterId := envs[i].namespace];
      ghost var upTo := envs[..i + 1];
      forall c
        ensures Maps(next, upTo, c)
      {
        NamespaceOfNext(envs, i, c);
        assert Maps(m, envs[..i], c);
      }
      m := next;
    }
    assert envs[..|envs|] == envs;
  }

  /** For every order in which the map of clusters is walked: the result is a candidate of maximal score with its
      namespace, and there is none exactly when there is no candidate. */
  method Schedule(clusters: map<string, Cluster>, envs: seq<Env>, previous: string, gpus: int, now: int)
    returns (r: Result)
    ensures r.Placed? ==> exists k :: Best(clusters, k, envs, previous, gpus, now, r)
    ensures r.Placed? ==> Placement(envs, previous, r.clusterId, r.namespace)
    ensures r.Placed? <==> exists k <- clusters :: Candidate(clusters[k], envs, previous, gpus, now)
    ensures r.NoClusters? <==> clusters == map[]
    ensures r.NoEnvironments? <==> clusters != map[] && envs == []
    ensures r.NotSchedulable? <==> && envs != []
                                   && (exists k <- clusters :: Eligible(clusters[k], envs, previous, now))
                                   && (forall k <- clusters :: !Candidate(clusters[k], envs, previous, gpus, now))
  {
    if clusters == map[] { return NoClusters; }
    if envs == [] { return NoEnvironments; }
    var namespaces := NamespacesByCluster(envs);
    var best: Option<Result>, bestScore, infeasible := None, 0, false;
    ghost var bestKey := "";
    var todo := clusters.Keys;
    while todo != {}
      invariant todo <= clusters.Keys
      invariant best.None? ==> forall j <- clusters.Keys - todo :: !Candidate(clusters[j], envs, previous, gpus, now)
      invariant best.Some? ==>
        && bestKey in clusters.Keys - todo && Candidate(clusters[bestKey], envs, previous, gpus, now)
        && bestScore == Score(clusters[bestKey], gpus)
        && best.value == Placed(clusters[bestKey].id, clusters[bestKey].name,
            NamespaceOf(envs, clusters[bestKey].id).value)
        && forall j <- clusters.Keys - todo :: Candidate(clusters[j], envs, previous, gpus, now) ==>
            Score(clusters[j], gpus) <= bestScore
      invariant infeasible <==>
          exists j <- clusters.Keys - todo :: Eligible(clusters[j], envs, previous, now) && !Feasible(clusters[j], gpus)
      decreases todo
    {
      var k :| k in todo;
      ghost var before := clusters.Keys - todo;
      todo := todo - {k};
      assert clusters.Keys - todo == before + {k};
      var c := clusters[k];
      assert Maps(namespaces, envs, c.id);
      if now - c.updatedAt > STALE { continue; }
      if c.id == previous { continue; }
      if c.id !in namespaces { continue; }
      var feasible, score := ScoreCluster(c, gpus);
      if !feasible {
        infeasible := true;
        continue;
      }
      if best.None? || score > bestScore {
        best := Some(Placed(c.id, c.name, namespaces[c.id]));
        bestScore := score;
        bestKey := k;
      }
    }
    assert clusters.Keys - {} == clusters.Keys;
    if best.None? {
      return if infeasible then NotSchedulable else NoSchedulableCluster;
    }
    r := best.value;
    assert Best(clusters, bestKey, envs, previous, gpus, now, r);
  }

  // The terms of the promise, from the fields of a cluster.

  /** The free count from nothing: nodes add to it, reported pods and reservations take from it. */
  lemma AvailableExactly(c: Cluster, n: int, p: Pod, key: string, a: Assumed)
    ensures c.nodes == [] && c.pods == [] && c.assumed == map[] ==> Available(c) == 0
    ensures Available(c.(nodes := c.nodes + [n])) == Available(c) + n
    ensures Available(c.(pods := c.pods + [p])) == Available(c) - p.gpus
    ensures key !in c.assumed ==> Available(c.(assumed := c.assumed[key := a])) == Available(c) - a.count
  {
    assert (c.nodes + [n])[..|c.nodes|] == c.nodes;
    assert (c.pods + [p])[..|c.pods|] == c.pods;
    if key !in c.assumed {
      SumAssumedWithout(c.assumed[key := a], key);
      assert c.assumed[key := a] - {key} == c.assumed;
    }
  }

  /** A candidate: reported on within half an hour, another cluster than the previous one, assigned to the project, and
      with room: no GPUs asked for, enough of them free on its nodes, or no nodes yet but something to provision. */
  lemma CandidateExactly(c: Cluster, envs: seq<Env>, previous: string, gpus: int, now: int)
    ensures Candidate(c, envs, previous, gpus, now) <==>
      && now - c.updatedAt <= 30 * 60 * 1_000_000_000 && c.id != previous
      && (exists i :: 0 <= i < |envs| && envs[i].clusterId == c.id)
      && (gpus == 0 || (|c.nodes| > 0 && gpus <= Available(c)) || (|c.nodes| == 0 && |c.provisionable| > 0))
  {
    NamespaceIsLast(envs, c.id, "");
  }

  /** The chosen one has the most free GPUs of all candidates when GPUs are asked for. */
  lemma BestExactly(
      cs: map<string, Cluster>, k: string, envs: seq<Env>, previous: string, gpus: int, now: int, r: Result)
    requires Best(cs, k, envs, previous, gpus, now, r) && gpus != 0
    ensures forall j <- cs :: Candidate(cs[j], envs, previous, gpus, now) ==> Available(cs[j]) <= Available(cs[k])
  {
  }

  // Booking: a placement followed by its reservation.

  /** The reservation AddAssumedPod makes; requests without GPUs make none. */
  function Reserve(c: Cluster, key: string, gpus: int, now: int): Cluster {
    if gpus == 0 then c else c.(assumed := c.assumed[key := Assumed(ToInt32(gpus), now)])
  }

  /** It changes the reservation of its key and nothing else. */
  lemma ReserveExactly(c: Cluster, key: string, gpus: int, now: int)
    ensures Reserve(c, key, 0, now) == c
    ensures var assumed := c.assumed[key := Assumed(ToInt32(gpus), now)];
            gpus != 0 ==> Reserve(c, key, gpus, now) ==
                          Cluster(c.id, c.name, c.updatedAt, c.nodes, c.provisionable, c.pods, assumed)
  {
  }

  /** The reservation moves the free count by the request, giving back what the key held before. */
  lemma ReserveMoves(c: Cluster, key: string, gpus: int, now: int)
    ensures Available(Reserve(c, key, gpus, now)) ==
            if gpus == 0 then Available(c)
            else Available(c) - ToInt32(gpus) + (if key in c.assumed then c.assumed[key].count else 0)
  {
    if gpus != 0 {
      var m := c.assumed[key := Assumed(ToInt32(gpus), now)];
      SumAssumedWithout(m, key);
      if key in c.assumed {
        SumAssumedWithout(c.assumed, key);
        assert m - {key} == c.assumed - {key};
      } else {
        assert m - {key} == c.assumed;
      }
    }
  }

  /** One serialized call of a handler: Schedule chose cluster `chosen`, AddAssumedPod reserved under `key`. */
  datatype Booking = Booking(envs: seq<Env>, previous: string, gpus: int, now: int, chosen: string, key: string)

  ghost predicate Valid(cs: map<string, Cluster>, b: Booking) {
    b.chosen in cs && Candidate(cs[b.chosen], b.envs, b.previous, b.gpus, b.now)
  }

  function Book(cs: map<string, Cluster>, b: Booking): map<string, Cluster> {
    if b.chosen in cs then cs[b.chosen := Reserve(cs[b.chosen], b.key, b.gpus, b.now)] else cs
  }

  function BookAll(cs: map<string, Cluster>, bs: seq<Booking>): map<string, Cluster> {
    if bs == [] then cs else Book(BookAll(cs, bs[..|bs| - 1]), bs[|bs| - 1])
  }

  /** Every booking was scheduled on the clusters as they were then. */
  ghost predicate AllValid(cs: map<string, Cluster>, bs: seq<Booking>) {
    forall i: nat :: i < |bs| ==> Valid(BookAll(cs, bs[..i]), bs[i])
  }

  predicate Counts(b: Booking) {
    0 <= b.gpus < 0x8000_0000
  }

  /** GPU nodes, and neither the free count nor a reservation is negative. */
  ghost predicate Sound(c: Cluster) {
    c.nodes != [] && Available(c) >= 0 && forall k <- c.assumed :: c.assumed[k].count >= 0
  }

  lemma PrefixValid(cs: map<string, Cluster>, bs: seq<Booking>)
    requires AllValid(cs, bs) && bs != []
    ensures AllValid(cs, bs[..|bs| - 1]) && Valid(BookAll(cs, bs[..|bs| - 1]), bs[|bs| - 1])
  {
    var init := bs[..|bs| - 1];
    forall i: nat | i < |init|
      ensures Valid(BookAll(cs, init[..i]), init[i])
    {
      assert init[..i] == bs[..i];
    }
  }

  lemma ReserveKeepsSound(c: Cluster, key: string, gpus: int, now: int)
    requires Sound(c) && Feasible(c, gpus) && 0 <= gpus < 0x8000_0000
    ensures Sound(Reserve(c, key, gpus, now))
  {
    assert ToInt32(gpus) == gpus;
    ReserveMoves(c, key, gpus, now);
  }

  /** The free count of a cluster with GPU nodes never goes negative between reports. */
  lemma {:induction false} NeverOverbooked(cs: map<string, Cluster>, bs: seq<Booking>, id: string)
    requires AllValid(cs, bs) && (forall b <- bs :: Counts(b))
    requires id in cs && Sound(cs[id])
    ensures id in BookAll(cs, bs) && Sound(BookAll(cs, bs)[id])
  {
    if bs != [] {
      var init, b := bs[..|bs| - 1], bs[|bs| - 1];
      assert forall x <- init :: x in bs;
      PrefixValid(cs, bs);
      NeverOverbooked(cs, init, id);
      assert b in bs;
      if b.chosen == id {
        ReserveKeepsSound(BookAll(cs, init)[id], b.key, b.gpus, b.now);
      }
    }
  }

  /** GPUs placed on a cluster. */
  function PlacedOn(bs: seq<Booking>, id: string): int {
    if bs == [] then 0
    else PlacedOn(bs[..|bs| - 1], id) + (if bs[|bs| - 1].chosen == id then bs[|bs| - 1].gpus else 0)
  }

  /** The keys of the bookings on a cluster are new and differ. */
  predicate FreshKeys(c: Cluster, bs: seq<Booking>, id: string) {
    && (forall i :: 0 <= i < |bs| && bs[i].chosen == id ==> bs[i].key !in c.assumed)
    && (forall i, j :: 0 <= i < j < |bs| && bs[i].chosen == id && bs[j].chosen == id ==> bs[i].key != bs[j].key)
  }

  lemma {:induction false} KeysComeFromBookings(cs: map<string, Cluster>, bs: seq<Booking>, id: string, key: string)
    requires id in cs
    ensures id in BookAll(cs, bs)
    ensures key in BookAll(cs, bs)[id].assumed && key !in cs[id].assumed ==>
            exists i :: 0 <= i < |bs| && bs[i].chosen == id && bs[i].key == key
  {
    if bs != [] {
      var init := bs[..|bs| - 1];
      KeysComeFromBookings(cs, init, id, key);
      if i :| 0 <= i < |init| && init[i].chosen == id && init[i].key == key {
        assert bs[i].chosen == id && bs[i].key == key;
      }
    }
  }

  /** Conservation: with distinct keys, what was free at the start is what is free now plus what was placed. */
  lemma {:induction false} BookingsAddUp(cs: map<string, Cluster>, bs: seq<Booking>, id: string)
    requires (forall b <- bs :: Fits(b)) && id in cs && FreshKeys(cs[id], bs, id)
    ensures id in BookAll(cs, bs)
    ensures Available(BookAll(cs, bs)[id]) + PlacedOn(bs, id) == Available(cs[id])
  {
    if bs != [] {
      var init, b := bs[..|bs| - 1], bs[|bs| - 1];
      assert forall x <- init :: x in bs;
      BookingsAddUp(cs, init, id);
      assert b in bs;
      if b.chosen == id {
        KeysComeFromBookings(cs, init, id, b.key);
        ReserveMoves(BookAll(cs, init)[id], b.key, b.gpus, b.now);
      }
    }
  }

  /** A request that fits an int32, whatever its sign. */
  predicate Fits(b: Booking) {
    -0x8000_0000 <= b.gpus < 0x8000_0000
  }

  /** GPU nodes, and a free count that is not negative. */
  ghost predicate Solvent(c: Cluster) {
    c.nodes != [] && Available(c) >= 0
  }

  /** No booking on the cluster takes over a key that held a negative count. */
  ghost predicate ReusedOk(cs: map<string, Cluster>, bs: seq<Booking>, id: string) {
    forall i: nat :: i < |bs| && bs[i].chosen == id ==> KeyOk(BookAll(cs, bs[..i]), id, bs[i].key)
  }

  predicate KeyOk(cs: map<string, Cluster>, id: string, key: string) {
    id in cs && key in cs[id].assumed ==> cs[id].assumed[key].count >= 0
  }

  /** The free count never goes negative, also with negative requests, unless a key that held one is reused. */
  lemma {:induction false} StaysSolvent(cs: map<string, Cluster>, bs: seq<Booking>, id: string)
    requires AllValid(cs, bs) && (forall b <- bs :: Fits(b)) && ReusedOk(cs, bs, id)
    requires id in cs && Solvent(cs[id])
    ensures id in BookAll(cs, bs) && Solvent(BookAll(cs, bs)[id])
  {
    if bs != [] {
      var init, b := bs[..|bs| - 1], bs[|bs| - 1];
      assert forall x <- init :: x in bs;
      PrefixValid(cs, bs);
      PrefixReusedOk(cs, bs, id);
      StaysSolvent(cs, init, id);
      assert b in bs;
      if b.chosen == id {
        ReserveKeepsSolvent(BookAll(cs, init)[id], b.key, b.gpus, b.now);
      }
    }
  }

  lemma PrefixReusedOk(cs: map<string, Cluster>, bs: seq<Booking>, id: string)
    requires ReusedOk(cs, bs, id) && bs != []
    ensures ReusedOk(cs, bs[..|bs| - 1], id)
    ensures bs[|bs| - 1].chosen == id ==> KeyOk(BookAll(cs, bs[..|bs| - 1]), id, bs[|bs| - 1].key)
  {
    var init := bs[..|bs| - 1];
    forall i: nat | i < |init| && init[i].chosen == id
      ensures KeyOk(BookAll(cs, init[..i]), id, init[i].key)
    {
      assert init[..i] == bs[..i] && init[i] == bs[i];
    }
  }

  lemma ReserveKeepsSolvent(c: Cluster, key: string, gpus: int, now: int)
    requires Solvent(c) && Feasible(c, gpus) && -0x8000_0000 <= gpus < 0x8000_0000
    requires key in c.assumed ==> c.assumed[key].count >= 0
    ensures Solvent(Reserve(c, key, gpus, now))
  {
    ReserveMoves(c, key, gpus, now);
  }

  /** With keys that are new and differ, no key is reused. */
  lemma FreshIsReusedOk(cs: map<string, Cluster>, bs: seq<Booking>, id: string)
    requires id in cs && FreshKeys(cs[id], bs, id)
    ensures ReusedOk(cs, bs, id)
  {
    forall i: nat | i < |bs| && bs[i].chosen == id
      ensures KeyOk(BookAll(cs, bs[..i]), id, bs[i].key)
    {
      KeysComeFromBookings(cs, bs[..i], id, bs[i].key);
    }
  }

  /** No double booking: between reports, and with distinct keys, never more is placed on a cluster with GPU nodes than
      was free. Negative requests count as given back. */
  lemma NoDoubleBooking(cs: map<string, Cluster>, bs: seq<Booking>, id: string)
    requires AllValid(cs, bs) && (forall b <- bs :: Fits(b))
    requires id in cs && Solvent(cs[id]) && FreshKeys(cs[id], bs, id)
    ensures PlacedOn(bs, id) <= Available(cs[id])
    ensures id in BookAll(cs, bs) && Solvent(BookAll(cs, bs)[id])
  {
    FreshIsReusedOk(cs, bs, id);
    StaysSolvent(cs, bs, id);
    BookingsAddUp(cs, bs, id);
  }

  /** A reservation under a new key takes nothing away from the free count exactly when the request is negative;
      CreateNotebook does not reject one. */
  lemma NegativeRequestFrees(c: Cluster, key: string, gpus: int, now: int)
    requires key !in c.assumed && -0x8000_0000 <= gpus < 0x8000_0000
    ensures Available(Reserve(c, key, gpus, now)) > Available(c) <==> gpus < 0
  {
    ReserveMoves(c, key, gpus, now);
  }

  /** So a negative request makes room for an overbooking: of one free GPU, six are placed. */
  lemma NegativeRequestOverbooks()
    ensures exists cs: map<string, Cluster>, bs: seq<Booking> ::
              && "a" in cs && Sound(cs["a"]) && AllValid(cs, bs) && FreshKeys(cs["a"], bs, "a")
              && |bs| == 2 && bs[1].chosen == "a" && bs[1].gpus == 6 && Available(cs["a"]) == 1
  {
    var c := Cluster("a", "", 0, [1], [], [], map[]);
    var envs := [Env("a", "x")];
    var cs := map["a" := c];
    var b0, b1 := Booking(envs, "", -5, 0, "a", "k0"), Booking(envs, "", 6, 0, "a", "k1");
    var bs := [b0, b1];
    assert [1][..0] == [];
    assert SumNodes([1]) == 1;
    assert Available(c) == 1;
    assert NamespaceOf(envs, "a") == Some("x");
    assert bs[..0] == [] && bs[..1] == [b0] && [b0][..0] == [];
    assert BookAll(cs, []) == cs;
    ReserveMoves(c, "k0", -5, 0);
    assert BookAll(cs, [b0]) == Book(cs, b0);
    assert Valid(cs, b0) && Valid(Book(cs, b0), b1);
    assert "k0" != "k1" by { assert "k0"[1] != "k1"[1]; }
    assert FreshKeys(c, bs, "a");
    assert AllValid(cs, bs);
  }
}
