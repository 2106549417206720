/** The cluster table (server/internal/store/cluster.go), the in-memory cache over it
(server/internal/cache/cluster.go) and the status reports that write both
(server/internal/server/clusters.go). Operations are serialized: each method runs alone. */
module Cache {
  import opened Common
  import opened Scheduler

  /** A decoded ClusterStatus. */
  datatype Status = Status(nodes: seq<int>, provisionable: seq<string>, pods: seq<Pod>)

  /** A row of the cluster table; its key is the cluster ID, unique over all tenants. */
  datatype DbCluster = DbCluster(name: string, tenantId: string, status: Status, updatedAt: int)

  type Db = map<string, DbCluster>

  /** What the cache shows: clusters by ID for every tenant it has loaded. */
  type View = map<string, map<string, Cluster>>

  function Convert(id: string, c: DbCluster): Cluster {
    Cluster(id, c.name, c.updatedAt, c.status.nodes, c.status.provisionable, c.status.pods, map[])
  }

  function FromDb(db: Db, tenantId: string): map<string, Cluster> {
    map id | id in db && db[id].tenantId == tenantId :: Convert(id, db[id])
  }

  /** The cache once a tenant is loaded. */
  function Loaded(v: View, db: Db, tenantId: string): View {
    if tenantId in v then v else v[tenantId := FromDb(db, tenantId)]
  }

  /** A report overwrites the status of a known cluster and keeps its name and tenant. */
  function Stored(db: Db, id: string, name: string, tenantId: string, status: Status, now: int): Db {
    if id in db then db[id := db[id].(status := status, updatedAt := now)]
    else db[id := DbCluster(name, tenantId, status, now)]
  }

  /** A reported pod belongs to the workload of this key. */
  predicate Shown(pods: seq<Pod>, key: string) {
    exists i | 0 <= i < |pods| :: key <= pods[i].name
  }

  /** The reservations a report leaves in place. */
  function Surviving(assumed: map<string, Assumed>, pods: seq<Pod>, now: int): map<string, Assumed> {
    map k | k in assumed && now - assumed[k].addedAt < MINUTE && !Shown(pods, k) :: assumed[k]
  }

  /** The cache after a report on a cluster. */
  function Refreshed(v: View, db: Db, id: string, c: DbCluster, now: int): View {
    var v := Loaded(v, db, c.tenantId);
    var cls := v[c.tenantId];
    var cl := Convert(id, c);
    v[c.tenantId := cls[id := if id in cls then cl.(assumed := Surviving(cls[id].assumed, cl.pods, now)) else cl]]
  }

  function Reserved(v: View, db: Db, tenantId: string, id: string, key: string, gpus: int, now: int): View {
    if gpus == 0 then v
    else
      var v := Loaded(v, db, tenantId);
      if id in v[tenantId] then v[tenantId := v[tenantId][id := Reserve(v[tenantId][id], key, gpus, now)]] else v
  }

  class ClusterTable {
    var rows: Db

    constructor ()
      ensures rows == map[]
    {
      rows := map[];
    }

    method CreateOrUpdateCluster(id: string, c: DbCluster, now: int) returns (stored: DbCluster)
      modifies this
      ensures rows == Stored(old(rows), id, c.name, c.tenantId, c.status, now)
      ensures id in rows && stored == rows[id]
    {
      if id !in rows {
        stored := c.(updatedAt := now);
        rows := rows[id := stored];
        return;
      }
      stored := rows[id].(status := c.status, updatedAt := now);
      rows := rows[id := stored];
    }

    /** The tenant's rows, decoded. */
    method ListClustersByTenantID(tenantId: string) returns (cls: map<string, Cluster>)
      ensures cls == FromDb(rows, tenantId)
    {
      var todo := set id | id in rows && rows[id].tenantId == tenantId;
      cls := map[];
      while todo != {}
        invariant forall id <- todo :: id in rows && rows[id].tenantId == tenantId
        invariant cls == map id | id in rows && rows[id].tenantId == tenantId && id !in todo :: Convert(id, rows[id])
        decreases todo
      {
        var id :| id in todo;
        cls := cls[id := Convert(id, rows[id])];
        todo := todo - {id};
      }
    }
  }

  /** One tenant's clusters: the Go map, which the cache updates in place and callers may share. Its
      entries are values here: the code changes an entry in place only before anyone else can hold it. */
  class Clusters {
    ghost const tenantId: string
    var byId: map<string, Cluster>

    constructor (byId: map<string, Cluster>, ghost tenantId: string)
      ensures this.byId == byId && this.tenantId == tenantId
    {
      this.byId, this.tenantId := byId, tenantId;
    }

    method Clone() returns (c: Clusters)
      ensures fresh(c) && c.byId == byId
    {
      var copy, todo := map[], byId.Keys;
      while todo != {}
        invariant todo <= byId.Keys
        invariant copy == map k | k in byId && k !in todo :: byId[k]
        decreases todo
      {
        var k :| k in todo;
        copy := copy[k := byId[k]];
        todo := todo - {k};
      }
      c := new Clusters(copy, tenantId);
      assert c.byId == byId;
    }
  }

  class Store {
    const table: ClusterTable
    var clusters: map<string, Clusters>

    constructor (table: ClusterTable)
      ensures this.table == table && clusters == map[] && Valid()
    {
      this.table, clusters := table, map[];
    }

    /** Every map is that of its own tenant, so tenants do not share one. */
    ghost predicate Valid()
      reads this
    {
      forall t <- clusters :: clusters[t].tenantId == t
    }

    ghost function View(): View
      reads this, clusters.Values
    {
      map t | t in clusters :: clusters[t].byId
    }

    /** A hit returns a copy that the cache never touches again; a miss returns the map it has just cached. */
    method ListClustersByTenantID(tenantId: string) returns (cls: Clusters)
      requires Valid()
      modifies this
      ensures Valid() && View() == Loaded(old(View()), table.rows, tenantId)
      ensures tenantId in View() && cls.byId == View()[tenantId]
      ensures fresh(cls)
      ensures if tenantId in old(clusters) then cls !in clusters.Values && clusters == old(clusters)
              else clusters == old(clusters)[tenantId := cls]
    {
      if tenantId in clusters {
        cls := clusters[tenantId].Clone();
        return;
      }
      var loaded := table.ListClustersByTenantID(tenantId);
      cls := new Clusters(loaded, tenantId);
      clusters := clusters[tenantId := cls];
    }

    method GetCluster(tenantId: string, id: string) returns (cl: Option<Cluster>)
      requires Valid()
      modifies this
      ensures Valid() && View() == Loaded(old(View()), table.rows, tenantId) && tenantId in View()
      ensures forall t <- clusters :: if t in old(clusters) then clusters[t] == old(clusters)[t] else fresh(clusters[t])
      ensures cl == if id in View()[tenantId] then Some(View()[tenantId][id]) else None
    {
      if tenantId in clusters {
        var cls := clusters[tenantId].byId;
        return if id in cls then Some(cls[id]) else None;
      }
      var cls := ListClustersByTenantID(tenantId);
      return if id in cls.byId then Some(cls.byId[id]) else None;
    }

    method AddOrUpdateCluster(id: string, cluster: DbCluster, now: int)
      requires Valid()
      modifies this, clusters.Values
      ensures Valid() && View() == Refreshed(old(View()), table.rows, id, cluster, now)
      ensures forall t <- clusters :: if t in old(clusters) then clusters[t] == old(clusters)[t] else fresh(clusters[t])
    {
      var cl := Convert(id, cluster);
      var oldCl := GetCluster(cluster.tenantId, id);
      ghost var loaded := View();
      if oldCl.Some? {
        var todo := oldCl.value.assumed.Keys;
        while todo != {}
          invariant todo <= oldCl.value.assumed.Keys
          invariant cl == Convert(id, cluster).(assumed := cl.assumed)
          invariant cl.assumed == map k | k in Surviving(oldCl.value.assumed, cl.pods, now) && k !in todo ::
                                    oldCl.value.assumed[k]
          decreases todo
        {
          var key :| key in todo;
          var pod := oldCl.value.assumed[key];
          if now - pod.addedAt < MINUTE && !Shown(cl.pods, key) {
            cl := cl.(assumed := cl.assumed[key := pod]);
          }
          todo := todo - {key};
        }
        assert cl.assumed == Surviving(oldCl.value.assumed, cl.pods, now);
      }
      clusters[cluster.tenantId].byId := clusters[cluster.tenantId].byId[id := cl];
      assert View() == loaded[cluster.tenantId := loaded[cluster.tenantId][id := cl]];
    }

    method AddAssumedPod(tenantId: string, id: string, key: string, gpus: int, now: int) returns (ok: bool)
      requires Valid()
      modifies this, clusters.Values
      ensures Valid() && View() == Reserved(old(View()), table.rows, tenantId, id, key, gpus, now)
      ensures ok <==> gpus == 0 || (tenantId in View() && id in View()[tenantId])
      ensures forall t <- clusters :: if t in old(clusters) then clusters[t] == old(clusters)[t] else fresh(clusters[t])
    {
      if gpus == 0 { return true; }
      var cl := GetCluster(tenantId, id);
      if cl.None? { return false; }
      ghost var loaded := View();
      var c := cl.value.(assumed := cl.value.assumed[key := Assumed(ToInt32(gpus), now)]);
      clusters[tenantId].byId := clusters[tenantId].byId[id := c];
      assert View() == loaded[tenantId := loaded[tenantId][id := c]];
      return true;
    }
  }

  /** UpdateClusterStatus: the database first, then the cache. */
  method UpdateClusterStatus(cache: Store, id: string, name: string, tenantId: string, status: Status, now: int)
    requires cache.Valid()
    modifies cache, cache.table, cache.clusters.Values
    ensures cache.Valid() && cache.table.rows == Stored(old(cache.table.rows), id, name, tenantId, status, now)
    ensures id in cache.table.rows
    ensures cache.View() == Refreshed(old(cache.View()), cache.table.rows, id, cache.table.rows[id], now)
    ensures forall t <- cache.clusters :: if t in old(cache.clusters) then cache.clusters[t] == old(cache.clusters)[t]
                                          else fresh(cache.clusters[t])
  {
    var stored := cache.table.CreateOrUpdateCluster(id, DbCluster(name, tenantId, status, now), now);
    cache.AddOrUpdateCluster(id, stored, now);
  }
}
