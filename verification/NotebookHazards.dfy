/** Neither hypothesis of the handoff theorems can be dropped: each hazard alone yields a run in which one notebook has
Deployments in two clusters, and a run in which a deleted notebook is not gone. */
module NotebookHazards {
  import opened Common
  import opened NotebookStore
  import opened NotebookServer
  import opened NotebookLifecycle
  import opened NotebookProtocol
  import opened NotebookHandoff
  import Occ

  /** What may go wrong: the actions whose Deletes may be swallowed, and those whose reports may outlive their call. */
  datatype Policy = Policy(swallowed: set<Action>, surviving: set<Action>)

  predicate Permits(p: Policy, w: World, s: Step) {
    s.Act? || s.Abandon? ==>
      s.c in w.dispatchers && w.dispatchers[s.c].pc.Busy? && w.dispatchers[s.c].pc.todo != [] ==>
        var pc := w.dispatchers[s.c].pc;
        && (s.Act? && s.outcome.Swallowed? && pc.phase == Acting ==> pc.todo[0].action in p.swallowed)
        && (s.Abandon? && s.survives && pc.phase.Reporting? ==> pc.todo[0].action in p.surviving)
  }

  ghost predicate Obeys(p: Policy, w: World, ss: seq<Step>) {
    forall i :: 0 <= i < |ss| ==> Permits(p, Run(w, ss[..i]), ss[i])
  }

  /** The policy rules out the hazards of these actions. */
  predicate RulesOut(p: Policy, actions: set<Action>) {
    p.swallowed !! actions && p.surviving !! actions
  }

  lemma {:induction false} ObeysSpares(p: Policy, k: Scope, w: World, ss: seq<Step>)
    requires Obeys(p, w, ss) && RulesOut(p, if k.deletes then {Requeueing, Deleting} else {Requeueing})
    ensures Spared(k, w, ss)
  {
    if ss != [] {
      var init := ss[..|ss| - 1];
      forall i | 0 <= i < |init|
        ensures Permits(p, Run(w, init[..i]), init[i])
      {
        assert init[..i] == ss[..i];
      }
      ObeysSpares(p, k, w, init);
    }
  }

  /** Worlds that no step allowed by the policy leaves. */
  ghost predicate Closed(p: Policy, worlds: iset<World>) {
    forall w, s :: w in worlds && Permits(p, w, s) ==> Do(w, s) in worlds
  }

  /** Steps allowed by the policy lead from `w` to `w'`. */
  ghost predicate Leads(p: Policy, w: World, w': World) {
    forall worlds: iset<World> :: Closed(p, worlds) && w in worlds ==> w' in worlds
  }

  lemma One(p: Policy, w: World, s: Step)
    requires Permits(p, w, s)
    ensures Leads(p, w, Do(w, s))
  {
  }

  lemma Then(p: Policy, w: World, w': World, w'': World)
    requires Leads(p, w, w') && Leads(p, w', w'')
    ensures Leads(p, w, w'')
  {
  }

  lemma OneMore(p: Policy, w: World, ss: seq<Step>, s: Step)
    requires Obeys(p, w, ss) && Permits(p, Run(w, ss), s)
    ensures Obeys(p, w, ss + [s]) && Run(w, ss + [s]) == Do(Run(w, ss), s)
  {
    var more := ss + [s];
    assert more[..|ss|] == ss;
    forall i | 0 <= i < |more|
      ensures Permits(p, Run(w, more[..i]), more[i])
    {
      if i < |ss| {
        assert more[..i] == ss[..i];
      }
    }
  }

  ghost predicate IsRun(p: Policy, w: World, ss: seq<Step>, w': World) {
    Obeys(p, w, ss) && Run(w, ss) == w'
  }

  ghost predicate Reached(p: Policy, w: World, w': World) {
    exists ss: seq<Step> :: IsRun(p, w, ss, w')
  }

  /** What steps lead to, a run reaches. */
  lemma RunTo(p: Policy, w: World, w': World) returns (ss: seq<Step>)
    requires Leads(p, w, w')
    ensures IsRun(p, w, ss, w')
  {
    var worlds := iset m: World | Reached(p, w, m);
    forall m, s | m in worlds && Permits(p, m, s)
      ensures Do(m, s) in worlds
    {
      var xs: seq<Step> :| IsRun(p, w, xs, m);
      OneMore(p, w, xs, s);
      assert IsRun(p, w, xs + [s], Do(m, s));
    }
    assert IsRun(p, w, [], w);
    assert Closed(p, worlds) && w in worlds;
    ss :| IsRun(p, w, ss, w');
  }

  // The runs below: one notebook, clusters `a` and `b`.

  const TENANTS: map<string, string> := map["a" := "t", "b" := "t"]

  const ENVS := [Env("a", "x"), Env("b", "y")]

  function Ns(c: string): string {
    if c == "a" then "x" else "y"
  }

  function Nb(c: string, s: State, a: Action, startedAt: nat, now: Time, version: nat): Row {
    Row("t", "p", ENVS, c, Message(c, Ns(c), 0, startedAt, 0), s, a, "", now, version)
  }

  function At(c: string): Deployment {
    Deployment("n", c, Ns(c))
  }

  lemma Namespaces(c: string)
    requires c == "a" || c == "b"
    ensures NamespaceOf(ENVS, c) == Some(Ns(c))
  {
    assert ENVS[..1] == [Env("a", "x")];
    assert "a" != "b" by { assert "a"[0] != "b"[0]; }
  }

  /** The table holds the notebook alone and no handler is under way. */
  ghost predicate Shape(w: World, r: Row, a: Pc, b: Pc, ds: set<Deployment>) {
    && w.db.rows == map["n" := r] && w.db.pending == map[]
    && w.dispatchers == Both(a, b)
    && w.deployments == ds
  }

  function Both(a: Pc, b: Pc): map<string, Dispatcher> {
    map["a" := Dispatcher("t", a), "b" := Dispatcher("t", b)]
  }

  lemma BothSet(a: Pc, b: Pc, c: string, pc: Pc)
    requires c == "a" || c == "b"
    ensures Both(a, b)[c := Dispatcher("t", pc)] == Both(With(a, b, c, pc).0, With(a, b, c, pc).1)
  {
  }

  predicate NotWaiting(pc: Pc) {
    pc.Busy? ==> !pc.phase.Reporting?
  }

  /** A handler of the rescheduler or of the user, uninterrupted. */
  lemma Swept(p: Policy, w: World, r: Row, a: Pc, b: Pc, ds: set<Deployment>, q: Request) returns (w': World)
    requires Shape(w, r, a, b, ds) && NotWaiting(a) && NotWaiting(b)
    requires (q.op.Requeue? || q.op.Reschedule? || q.op.Delete? || q.op.Stop?) && Writes(q, r)
    ensures Leads(p, w, w') && Shape(w', Updated(q, r, r), a, b, ds)
  {
    var origin := if q.op.Delete? || q.op.Stop? then FromUser(r.projectId) else FromRescheduler;
    var ask, commit := Ask(0, "n", origin, q), Commit(0);
    var w1 := Do(w, ask);
    assert w1.db.pending == map[0 := Occ.Pending("n", r, q)];
    assert forall c <- w1.dispatchers :: !Owns(w1, c, 0);
    w' := Do(w1, commit);
    assert w'.db.pending == map[];
    assert w'.db.rows == map["n" := Updated(q, r, r)];
    One(p, w, ask);
    One(p, w1, commit);
    Then(p, w, w1, w');
  }

  function With(a: Pc, b: Pc, c: string, pc: Pc): (Pc, Pc) {
    if c == "a" then (pc, b) else (a, pc)
  }

  lemma Lists(p: Policy, w: World, c: string, r: Row, a: Pc, b: Pc, ds: set<Deployment>) returns (w': World)
    requires Shape(w, r, a, b, ds) && c == r.clusterId && r.tenantId == "t" && r.state == Queued
    requires (c == "a" && a == Idle) || (c == "b" && b == Idle)
    ensures var pcs := With(a, b, c, Busy([Item("n", r.action, r.message.namespace)], Acting));
            Leads(p, w, w') && Shape(w', r, pcs.0, pcs.1, ds)
  {
    assert IsListing(w.db.rows, "t", c, ["n"]);
    assert Items(w.db.rows, ["n"]) == [Item("n", r.action, r.message.namespace)];
    w' := Do(w, List(c, ["n"]));
    BothSet(a, b, c, Busy([Item("n", r.action, r.message.namespace)], Acting));
    One(p, w, List(c, ["n"]));
  }

  lemma Acts(p: Policy, w: World, c: string, item: Item, outcome: Outcome, r: Row, a: Pc, b: Pc, ds: set<Deployment>)
    returns (w': World)
    requires Shape(w, r, a, b, ds) && (c == "a" || c == "b") && (if c == "a" then a else b) == Busy([item], Acting)
    requires (outcome.Swallowed? ==> item.action in p.swallowed) && Work(ds, c, item, outcome).1
    ensures var pcs := With(a, b, c, Busy([item], Acted));
            Leads(p, w, w') && Shape(w', r, pcs.0, pcs.1, Work(ds, c, item, outcome).0)
  {
    w' := Do(w, Act(c, outcome));
    BothSet(a, b, c, Busy([item], Acted));
    One(p, w, Act(c, outcome));
  }

  lemma Sends(p: Policy, w: World, c: string, item: Item, now: Time, r: Row, a: Pc, b: Pc, ds: set<Deployment>)
    returns (w': World)
    requires Shape(w, r, a, b, ds) && (c == "a" || c == "b") && (if c == "a" then a else b) == Busy([item], Acted)
    requires item.id == "n" && r.tenantId == "t" && Writes(ReportOf(item.action, now), r)
    ensures Leads(p, w, w') && w'.deployments == ds && w'.db.rows == w.db.rows
    ensures w'.db.pending == map[0 := Occ.Pending("n", r, ReportOf(item.action, now))]
    ensures w'.dispatchers == w.dispatchers[c := Dispatcher("t", Busy([item], Reporting(0)))]
  {
    w' := Do(w, Send(c, 0, now));
    One(p, w, Send(c, 0, now));
  }

  lemma Reports(p: Policy, w: World, c: string, item: Item, now: Time, r: Row, a: Pc, b: Pc, ds: set<Deployment>)
    returns (w': World)
    requires Shape(w, r, a, b, ds) && (c == "a" || c == "b") && (if c == "a" then a else b) == Busy([item], Acted)
    requires item.id == "n" && r.tenantId == "t" && Writes(ReportOf(item.action, now), r)
    ensures var pcs := With(a, b, c, Idle);
            Leads(p, w, w') && Shape(w', Updated(ReportOf(item.action, now), r, r), pcs.0, pcs.1, ds)
  {
    var w1 := Sends(p, w, c, item, now, r, a, b, ds);
    w' := Lands(p, w1, c, item, ReportOf(item.action, now), r);
    Then(p, w, w1, w');
    assert w'.dispatchers == w.dispatchers[c := Dispatcher("t", Idle)];
    BothSet(a, b, c, Idle);
  }

  lemma Lands(p: Policy, w: World, c: string, item: Item, q: Request, r: Row) returns (w': World)
    requires c in w.dispatchers && w.dispatchers[c] == Dispatcher("t", Busy([item], Reporting(0))) && Writes(q, r)
    requires w.db.rows == map["n" := r] && w.db.pending == map[0 := Occ.Pending("n", r, q)]
    ensures Leads(p, w, w') && w'.deployments == w.deployments && w'.db.pending == map[]
    ensures w'.db.rows == map["n" := Updated(q, r, r)]
    ensures w'.dispatchers == w.dispatchers[c := Dispatcher("t", Idle)]
  {
    w' := Do(w, Land(c, false));
    One(p, w, Land(c, false));
  }

  // What the requests of the runs make of the notebook.

  lemma Starts(c: string, startedAt: nat, t: Time, v: nat, now: Time)
    ensures var r, q := Nb(c, Queued, Starting, startedAt, t, v), ReportOf(Starting, now);
            Writes(q, r) && Updated(q, r, r) ==
                Nb(c, Initializing, NoAction, if startedAt == 0 then now else startedAt, now, v + 1)
  {
  }

  lemma TimesOut(c: string, startedAt: nat, t: Time, v: nat, now: Time)
    requires t < now
    ensures var r, q := Nb(c, Initializing, NoAction, startedAt, t, v), Request(Requeue(0), now);
            Writes(q, r) && Updated(q, r, r) == Nb(c, Queued, Requeueing, startedAt, now, v + 1)
  {
    NotPulling();
  }

  lemma IsReleased(c: string, startedAt: nat, t: Time, v: nat, now: Time)
    ensures var r, q := Nb(c, Queued, Requeueing, startedAt, t, v), ReportOf(Requeueing, now);
            Writes(q, r) && Updated(q, r, r) == Nb(c, Requeued, Requeueing, startedAt, now, v + 1)
  {
  }

  lemma IsMoved(c: string, c': string, startedAt: nat, t: Time, v: nat, now: Time)
    requires c != c' && (c' == "a" || c' == "b")
    ensures var r, q := Nb(c, Requeued, Requeueing, startedAt, t, v), Request(Reschedule(c', Ns(c')), now);
            Writes(q, r) && Updated(q, r, r) == Nb(c', Queued, Starting, startedAt, now, v + 1)
  {
    Namespaces(c');
  }

  /** A queued notebook starts at `c` and times out there. */
  lemma StartsAndTimesOut(
      p: Policy, w: World, c: string, startedAt: nat, t: Time, v: nat, now: Time, a: Pc, b: Pc, ds: set<Deployment>)
    returns (w': World)
    requires Shape(w, Nb(c, Queued, Starting, startedAt, t, v), a, b, ds)
    requires (c == "a" && a == Idle && NotWaiting(b)) || (c == "b" && b == Idle && NotWaiting(a))
    ensures Leads(p, w, w')
    ensures Shape(w', Nb(c, Queued, Requeueing, if startedAt == 0 then now else startedAt, now + 1, v + 2), a, b,
        ds + {At(c)})
  {
    var r := Nb(c, Queued, Starting, startedAt, t, v);
    var item := Item("n", Starting, Ns(c));
    var pcs := With(a, b, c, Busy([item], Acting));
    var w1 := Lists(p, w, c, r, a, b, ds);
    var w2 := Acts(p, w1, c, item, Fine, r, pcs.0, pcs.1, ds);
    Then(p, w, w1, w2);
    Starts(c, startedAt, t, v, now);
    pcs := With(a, b, c, Busy([item], Acted));
    var w3 := Reports(p, w2, c, item, now, r, pcs.0, pcs.1, ds + {At(c)});
    Then(p, w, w2, w3);
    var s := if startedAt == 0 then now else startedAt;
    TimesOut(c, s, now, v + 1, now + 1);
    w' := Swept(p, w3, Nb(c, Initializing, NoAction, s, now, v + 1), a, b, ds + {At(c)}, Request(Requeue(0), now + 1));
    Then(p, w, w3, w');
  }

  lemma Creates(p: Policy, r: Row) returns (w: World)
    requires IsCreated(r)
    ensures Leads(p, Init(TENANTS), w) && Shape(w, r, Idle, Idle, {})
  {
    w := Do(Init(TENANTS), Create("n", r));
    One(p, Init(TENANTS), Create("n", r));
  }

  /** Created at `a`, started, timed out: the notebook waits for `a` to remove it. */
  lemma Opening(p: Policy) returns (w: World)
    ensures Leads(p, Init(TENANTS), w)
    ensures Shape(w, Nb("a", Queued, Requeueing, 2, 3, 2), Idle, Idle, {At("a")})
  {
    var r := Nb("a", Queued, Starting, 0, 1, 0);
    Namespaces("a");
    var w1 := Creates(p, r);
    w := StartsAndTimesOut(p, w1, "a", 0, 1, 0, 2, Idle, Idle, {});
    assert {} + {At("a")} == {At("a")};
    Then(p, Init(TENANTS), w1, w);
  }

  /** The notebook, released by whoever, is placed on `c` and starts there. */
  lemma Restarts(
      p: Policy, w: World, prev: string, c: string, startedAt: nat, t: Time, v: nat, now: Time, ds: set<Deployment>)
    returns (w': World)
    requires Shape(w, Nb(prev, Requeued, Requeueing, startedAt, t, v), Idle, Idle, ds) && prev != c
        && (c == "a" || c == "b")
    ensures Leads(p, w, w') && w'.deployments == ds + {At(c)}
  {
    IsMoved(prev, c, startedAt, t, v, now);
    var r := Nb(c, Queued, Starting, startedAt, now, v + 1);
    var w1 := Swept(p, w, Nb(prev, Requeued, Requeueing, startedAt, t, v), Idle, Idle, ds,
        Request(Reschedule(c, Ns(c)), now));
    var w2 := Lists(p, w1, c, r, Idle, Idle, ds);
    Then(p, w, w1, w2);
    var item := Item("n", Starting, Ns(c));
    var pcs := With(Idle, Idle, c, Busy([item], Acting));
    w' := Acts(p, w2, c, item, Fine, r, pcs.0, pcs.1, ds);
    Then(p, w, w2, w');
  }

  /** The dispatcher of `a` lists a queued notebook and works on it. */
  lemma Works(p: Policy, w: World, r: Row, outcome: Outcome) returns (w': World)
    requires Shape(w, r, Idle, Idle, {At("a")}) && r.clusterId == "a" && r.tenantId == "t" && r.state == Queued
    requires r.message.namespace == "x" && (r.action == Requeueing || r.action == Deleting)
    requires outcome == Fine || (outcome == Swallowed && r.action in p.swallowed)
    ensures Leads(p, w, w')
    ensures Shape(w', r, Busy([Item("n", r.action, "x")], Acted), Idle, if outcome == Fine then {} else {At("a")})
  {
    var item := Item("n", r.action, "x");
    var w1 := Lists(p, w, "a", r, Idle, Idle, {At("a")});
    w' := Acts(p, w1, "a", item, outcome, r, Busy([item], Acting), Idle, {At("a")});
    Then(p, w, w1, w');
  }

  /** A swallowed Delete, reported as done. */
  lemma Swallows(p: Policy, w: World, r: Row, now: Time) returns (w': World)
    requires Shape(w, r, Idle, Idle, {At("a")}) && r.clusterId == "a" && r.tenantId == "t" && r.state == Queued
    requires r.message.namespace == "x" && (r.action == Requeueing || r.action == Deleting) && r.action in p.swallowed
    ensures Leads(p, w, w') && Shape(w', Updated(ReportOf(r.action, now), r, r), Idle, Idle, {At("a")})
  {
    var item := Item("n", r.action, "x");
    var w1 := Works(p, w, r, Swallowed);
    w' := Reports(p, w1, "a", item, now, r, Busy([item], Acted), Idle, {At("a")});
    Then(p, w, w1, w');
  }

  /** A swallowed Delete: `a` reports the notebook removed, it is placed on `b` and starts there as well. */
  lemma SwallowedDelete(p: Policy) returns (w': World)
    requires Requeueing in p.swallowed
    ensures Leads(p, Init(TENANTS), w') && w'.deployments == {At("a")} + {At("b")}
  {
    var w := Opening(p);
    IsReleased("a", 2, 3, 2, 4);
    var w1 := Swallows(p, w, Nb("a", Queued, Requeueing, 2, 3, 2), 4);
    Then(p, Init(TENANTS), w, w1);
    w' := Restarts(p, w1, "a", "b", 2, 4, 3, 5, {At("a")});
    Then(p, Init(TENANTS), w1, w');
  }

  /** The dispatcher of `a` gives up on its report while the handler lives on, lists the notebook once more, and only
      then does the handler write. */
  lemma Orphan(p: Policy, w: World, r: Row, now: Time) returns (w': World)
    requires Shape(w, r, Idle, Idle, {At("a")}) && r.clusterId == "a" && r.tenantId == "t" && r.state == Queued
    requires r.message.namespace == "x" && (r.action == Requeueing || r.action == Deleting) && r.action in p.surviving
    ensures Leads(p, w, w')
    ensures Shape(w', Updated(ReportOf(r.action, now), r, r), Busy([Item("n", r.action, "x")], Acting), Idle, {})
  {
    var item := Item("n", r.action, "x");
    var w1 := Works(p, w, r, Fine);
    var w2 := Sends(p, w1, "a", item, now, r, Busy([item], Acted), Idle, {});
    Then(p, w, w1, w2);
    BothSet(Busy([item], Acted), Idle, "a", Busy([item], Reporting(0)));
    w' := OrphanLands(p, w2, r, ReportOf(r.action, now));
    Then(p, w, w2, w');
  }

  lemma OrphanLands(p: Policy, w: World, r: Row, q: Request) returns (w': World)
    requires r.clusterId == "a" && r.tenantId == "t" && r.state == Queued && r.message.namespace == "x"
    requires r.action in p.surviving && Writes(q, r) && w.deployments == {}
    requires w.db.rows == map["n" := r] && w.db.pending == map[0 := Occ.Pending("n", r, q)]
    requires w.dispatchers == Both(Busy([Item("n", r.action, "x")], Reporting(0)), Idle)
    ensures Leads(p, w, w') && Shape(w', Updated(q, r, r), Busy([Item("n", r.action, "x")], Acting), Idle, {})
  {
    var w1 := GivesUp(p, w, r);
    var w2 := ListsAgain(p, w1, r);
    Then(p, w, w1, w2);
    w' := LandsUnowned(p, w2, r, q);
    Then(p, w, w2, w');
  }

  lemma GivesUp(p: Policy, w: World, r: Row) returns (w': World)
    requires r.action in p.surviving && w.dispatchers == Both(Busy([Item("n", r.action, "x")], Reporting(0)), Idle)
    ensures Leads(p, w, w') && w' == w.(dispatchers := Both(Idle, Idle))
  {
    w' := Do(w, Abandon("a", true));
    One(p, w, Abandon("a", true));
    BothSet(Busy([Item("n", r.action, "x")], Reporting(0)), Idle, "a", Idle);
  }

  lemma ListsAgain(p: Policy, w: World, r: Row) returns (w': World)
    requires r.clusterId == "a" && r.tenantId == "t" && r.state == Queued && r.message.namespace == "x"
    requires w.db.rows == map["n" := r] && w.dispatchers == Both(Idle, Idle)
    ensures Leads(p, w, w') && w' == w.(dispatchers := Both(Busy([Item("n", r.action, "x")], Acting), Idle))
  {
    assert IsListing(w.db.rows, "t", "a", ["n"]);
    assert Items(w.db.rows, ["n"]) == [Item("n", r.action, "x")];
    w' := Do(w, List("a", ["n"]));
    One(p, w, List("a", ["n"]));
    BothSet(Idle, Idle, "a", Busy([Item("n", r.action, "x")], Acting));
  }

  lemma LandsUnowned(p: Policy, w: World, r: Row, q: Request) returns (w': World)
    requires w.db.rows == map["n" := r] && w.db.pending == map[0 := Occ.Pending("n", r, q)] && Writes(q, r)
    requires !Owned(w, 0)
    ensures Leads(p, w, w') && w'.deployments == w.deployments && w'.dispatchers == w.dispatchers
    ensures w'.db.rows == map["n" := Updated(q, r, r)] && w'.db.pending == map[]
  {
    w' := Do(w, Commit(0));
    One(p, w, Commit(0));
  }

  /** The item that `a` listed in between releases the notebook from `b`, where it still runs: the server does
      not ask which cluster reports. It starts in `a` again. */
  lemma StaleRelease(p: Policy, w: World) returns (w': World)
    requires Shape(w, Nb("b", Queued, Requeueing, 2, 7, 6), Busy([Item("n", Requeueing, "x")], Acting), Idle, {At("b")})
    ensures Leads(p, w, w') && w'.deployments == {At("b")} + {At("a")}
  {
    var r := Nb("b", Queued, Requeueing, 2, 7, 6);
    var item := Item("n", Requeueing, "x");
    var w1 := Acts(p, w, "a", item, Fine, r, Busy([item], Acting), Idle, {At("b")});
    assert {At("b")} - {At("a")} == {At("b")};
    IsReleased("b", 2, 7, 6, 8);
    var w2 := Reports(p, w1, "a", item, 8, r, Busy([item], Acted), Idle, {At("b")});
    Then(p, w, w1, w2);
    w' := Restarts(p, w2, "b", "a", 2, 8, 7, 9, {At("b")});
    Then(p, w, w2, w');
  }

  /** The notebook is moved to `b` while the dispatcher of `a` still has it on its list. */
  lemma Stranded(p: Policy) returns (w': World)
    requires Requeueing in p.surviving
    ensures Leads(p, Init(TENANTS), w')
    ensures Shape(w', Nb("b", Queued, Starting, 2, 5, 4), Busy([Item("n", Requeueing, "x")], Acting), Idle, {})
  {
    var stale := Busy([Item("n", Requeueing, "x")], Acting);
    var w0 := Opening(p);
    IsReleased("a", 2, 3, 2, 4);
    var w1 := Orphan(p, w0, Nb("a", Queued, Requeueing, 2, 3, 2), 4);
    Then(p, Init(TENANTS), w0, w1);
    IsMoved("a", "b", 2, 4, 3, 5);
    w' := Swept(p, w1, Nb("a", Requeued, Requeueing, 2, 4, 3), stale, Idle, {}, Request(Reschedule("b", "y"), 5));
    Then(p, Init(TENANTS), w1, w');
  }

  /** A handler that outlives its call: the notebook moves to `b` and times out there, and the stale item of `a`
      does the rest. */
  lemma SurvivingHandler(p: Policy) returns (w': World)
    requires Requeueing in p.surviving
    ensures Leads(p, Init(TENANTS), w') && w'.deployments == {At("b")} + {At("a")}
  {
    var w1 := Stranded(p);
    var w2 := StartsAndTimesOut(p, w1, "b", 2, 5, 4, 6, Busy([Item("n", Requeueing, "x")], Acting), Idle, {});
    assert {} + {At("b")} == {At("b")};
    Then(p, Init(TENANTS), w1, w2);
    w' := StaleRelease(p, w2);
    Then(p, Init(TENANTS), w2, w');
  }

  /** Every run allowed by a policy leaves every notebook at most one Deployment exactly when the policy rules out both
      hazards on the way to `requeued`. Other swallowed Deletes and surviving handlers do not matter. */
  lemma SafeExactlyWhen(p: Policy)
    ensures (forall tenants: map<string, string>, ss: seq<Step> ::
               Obeys(p, Init(tenants), ss) ==> Safe(Run(Init(tenants), ss)))
       <==> RulesOut(p, {Requeueing})
  {
    if RulesOut(p, {Requeueing}) {
      forall tenants: map<string, string>, ss: seq<Step>, id: string | Obeys(p, Init(tenants), ss)
        ensures SafeFor(Run(Init(tenants), ss), id)
      {
        ObeysSpares(p, Scope(id, false), Init(tenants), ss);
        HandoffSafety(tenants, ss, id);
      }
    } else {
      var w: World;
      if Requeueing in p.swallowed {
        w := SwallowedDelete(p);
      } else {
        w := SurvivingHandler(p);
      }
      assert At("a") in w.deployments && At("b") in w.deployments && At("a").clusterId != At("b").clusterId;
      assert !SafeFor(w, "n") && !Safe(w);
      var ss := RunTo(p, Init(TENANTS), w);
      assert Obeys(p, Init(TENANTS), ss) && !Safe(Run(Init(TENANTS), ss));
    }
  }

  // What the protocol is for happens, also when nothing goes wrong.

  /** A notebook that does not start at `a` is moved: it is removed there and starts at `b`. */
  lemma HandoffHappens(p: Policy) returns (w': World)
    ensures Leads(p, Init(TENANTS), w') && w'.deployments == {At("b")}
  {
    var r, item := Nb("a", Queued, Requeueing, 2, 3, 2), Item("n", Requeueing, "x");
    var w := Opening(p);
    var w1 := Works(p, w, r, Fine);
    Then(p, Init(TENANTS), w, w1);
    IsReleased("a", 2, 3, 2, 4);
    var w2 := Reports(p, w1, "a", item, 4, r, Busy([item], Acted), Idle, {});
    Then(p, Init(TENANTS), w1, w2);
    w' := Restarts(p, w2, "a", "b", 2, 4, 3, 5, {});
    assert {} + {At("b")} == {At("b")};
    Then(p, Init(TENANTS), w2, w');
  }

  /** A notebook the user stops while it waits to be requeued is stopped, and its Deployment stays. */
  lemma StopHappens(p: Policy) returns (w': World)
    ensures Leads(p, Init(TENANTS), w') && w'.deployments == {At("a")}
    ensures "n" in w'.db.rows && w'.db.rows["n"].state == Stopped
  {
    var r0, r := Nb("a", Queued, Requeueing, 2, 3, 2), Nb("a", Queued, Stopping, 2, 4, 3);
    var item := Item("n", Stopping, "x");
    var w := Opening(p);
    var w1 := Swept(p, w, r0, Idle, Idle, {At("a")}, Request(Stop, 4));
    Then(p, Init(TENANTS), w, w1);
    var w2 := Lists(p, w1, "a", r, Idle, Idle, {At("a")});
    Then(p, Init(TENANTS), w1, w2);
    var w3 := Acts(p, w2, "a", item, Fine, r, Busy([item], Acting), Idle, {At("a")});
    Then(p, Init(TENANTS), w2, w3);
    w' := Reports(p, w3, "a", item, 5, r, Busy([item], Acted), Idle, {At("a")});
    Then(p, Init(TENANTS), w3, w');
  }

  // Deleted notebooks.

  /** A deleted notebook has no Deployment and is on no list. */
  ghost predicate DeletedIsGone(w: World) {
    forall id <- w.db.rows | w.db.rows[id].state == Deleted :: Absent(w.deployments, id) && Unlisted(w, id)
  }

  lemma IsDoomed(c: string, s: State, a: Action, startedAt: nat, t: Time, v: nat, now: Time)
    requires a != Deleting
    ensures var r, q := Nb(c, s, a, startedAt, t, v), Request(Delete, now);
            Writes(q, r) && Updated(q, r, r) == Nb(c, Queued, Deleting, startedAt, now, v + 1)
  {
  }

  lemma IsDeleted(r: Row, now: Time)
    requires r.state == Queued && r.action == Deleting
    ensures Writes(ReportOf(Deleting, now), r) && Updated(ReportOf(Deleting, now), r, r).state == Deleted
  {
  }

  /** The user deletes the notebook at `a` while it waits to be requeued. */
  lemma Dooms(p: Policy) returns (w: World)
    ensures Leads(p, Init(TENANTS), w)
    ensures Shape(w, Nb("a", Queued, Deleting, 2, 4, 3), Idle, Idle, {At("a")})
  {
    var w1 := Opening(p);
    IsDoomed("a", Queued, Requeueing, 2, 3, 2, 4);
    w := Swept(p, w1, Nb("a", Queued, Requeueing, 2, 3, 2), Idle, Idle, {At("a")}, Request(Delete, 4));
    Then(p, Init(TENANTS), w1, w);
  }

  /** The user deletes the notebook queued at `b`, and the dispatcher there does so. */
  lemma DeletesAtB(p: Policy, w: World, a: Pc, ds: set<Deployment>) returns (w': World)
    requires Shape(w, Nb("b", Queued, Starting, 2, 5, 4), a, Idle, ds) && NotWaiting(a) && At("b") !in ds
    ensures Leads(p, w, w') && "n" in w'.db.rows && w'.db.rows["n"].state == Deleted
    ensures w'.dispatchers == Both(a, Idle) && w'.deployments == ds
  {
    IsDoomed("b", Queued, Starting, 2, 5, 4, 6);
    var r := Nb("b", Queued, Deleting, 2, 6, 5);
    var item := Item("n", Deleting, "y");
    var w1 := Swept(p, w, Nb("b", Queued, Starting, 2, 5, 4), a, Idle, ds, Request(Delete, 6));
    var w2 := Lists(p, w1, "b", r, a, Idle, ds);
    Then(p, w, w1, w2);
    var w3 := Acts(p, w2, "b", item, Fine, r, a, Busy([item], Acting), ds);
    Then(p, w, w2, w3);
    assert ds - {At("b")} == ds;
    IsDeleted(r, 7);
    w' := Reports(p, w3, "b", item, 7, r, a, Busy([item], Acted), ds);
    Then(p, w, w3, w');
  }

  /** A swallowed Delete on the way to `requeued` leaves the Deployment at `a` behind when the notebook is deleted. */
  lemma LeftBehind(p: Policy) returns (w': World)
    requires Requeueing in p.swallowed
    ensures Leads(p, Init(TENANTS), w') && "n" in w'.db.rows && w'.db.rows["n"].state == Deleted
    ensures At("a") in w'.deployments
  {
    var w := Opening(p);
    IsReleased("a", 2, 3, 2, 4);
    var w1 := Swallows(p, w, Nb("a", Queued, Requeueing, 2, 3, 2), 4);
    Then(p, Init(TENANTS), w, w1);
    IsMoved("a", "b", 2, 4, 3, 5);
    var w2 := Swept(p, w1, Nb("a", Requeued, Requeueing, 2, 4, 3), Idle, Idle, {At("a")},
        Request(Reschedule("b", "y"), 5));
    Then(p, Init(TENANTS), w1, w2);
    w' := DeletesAtB(p, w2, Idle, {At("a")});
    Then(p, Init(TENANTS), w2, w');
  }

  /** Each of the four hazards alone leads to a deleted notebook that is not gone. */
  lemma NotGone(p: Policy) returns (w: World)
    requires !RulesOut(p, {Requeueing, Deleting})
    ensures Leads(p, Init(TENANTS), w) && !DeletedIsGone(w)
  {
    var doomed := Nb("a", Queued, Deleting, 2, 4, 3);
    IsDeleted(doomed, 5);
    if Deleting in p.swallowed {
      var w1 := Dooms(p);
      w := Swallows(p, w1, doomed, 5);
      Then(p, Init(TENANTS), w1, w);
      assert w.db.rows["n"].state == Deleted && At("a") in w.deployments;
    } else if Deleting in p.surviving {
      var w1 := Dooms(p);
      w := Orphan(p, w1, doomed, 5);
      Then(p, Init(TENANTS), w1, w);
      StillListed(w, Item("n", Deleting, "x"));
    } else if Requeueing in p.swallowed {
      w := LeftBehind(p);
      assert At("a").id == "n";
    } else {
      var w1 := Stranded(p);
      w := DeletesAtB(p, w1, Busy([Item("n", Requeueing, "x")], Acting), {});
      Then(p, Init(TENANTS), w1, w);
      StillListed(w, Item("n", Requeueing, "x"));
    }
  }

  lemma StillListed(w: World, item: Item)
    requires w.dispatchers == Both(Busy([item], Acting), Idle)
    ensures !Unlisted(w, item.id)
  {
    assert w.dispatchers["a"].pc.todo == [item] && item in [item];
  }

  /** In every run allowed by a policy deleted notebooks are gone exactly when the policy rules out both hazards on the
      way to `requeued` and to `deleted`. */
  lemma GoneExactlyWhen(p: Policy)
    ensures (forall tenants: map<string, string>, ss: seq<Step> ::
               Obeys(p, Init(tenants), ss) ==> DeletedIsGone(Run(Init(tenants), ss)))
       <==> RulesOut(p, {Requeueing, Deleting})
  {
    if RulesOut(p, {Requeueing, Deleting}) {
      forall tenants: map<string, string>, ss: seq<Step> | Obeys(p, Init(tenants), ss)
        ensures DeletedIsGone(Run(Init(tenants), ss))
      {
        var w := Run(Init(tenants), ss);
        forall id <- w.db.rows | w.db.rows[id].state == Deleted
          ensures Absent(w.deployments, id) && Unlisted(w, id)
        {
          ObeysSpares(p, Scope(id, true), Init(tenants), ss);
          GoneIsFree(tenants, ss, id);
        }
      }
    } else {
      var w := NotGone(p);
      var ss := RunTo(p, Init(TENANTS), w);
      assert Obeys(p, Init(TENANTS), ss) && !DeletedIsGone(Run(Init(TENANTS), ss));
    }
  }
}
