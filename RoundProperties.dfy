/** What a run of `simula` (distance_vector_animated.py) guarantees about the
    tables: distances only go down, a round that counts no change leaves
    every table as its snapshot, a run that stops early stops at a fixed
    point, and every node keeps its own row (self, 0) throughout. */
module RoundProperties {
  import opened Distance
  import opened RoutingTable
  import opened Rounds
  import opened RoundSafety

  /** Table `a` has the rows of `b`, none of them longer. */
  ghost predicate TableBelow(a: Table, b: Table) {
    a.Keys == b.Keys && forall d :: d in a ==> a[d].dist.AtMost(b[d].dist)
  }

  /** Some row of `a` is strictly shorter than the same row of `b`. */
  ghost predicate TableImproved(a: Table, b: Table) {
    exists d :: d in a && d in b && a[d].dist.Less(b[d].dist)
  }

  /** Every node's table in `ts` is below its table in `us`. */
  ghost predicate Below(ts: map<Name, Table>, us: map<Name, Table>) {
    ts.Keys == us.Keys && forall k :: k in ts ==> TableBelow(ts[k], us[k])
  }

  /** Some node's table in `ts` has a strictly shorter row than in `us`. */
  ghost predicate Improved(ts: map<Name, Table>, us: map<Name, Table>) {
    exists k :: k in ts && k in us && TableImproved(ts[k], us[k])
  }

  lemma BelowReflexive(ts: map<Name, Table>)
    ensures Below(ts, ts)
  {
    forall k | k in ts ensures TableBelow(ts[k], ts[k]) {
    }
  }

  /** `Below` is transitive, and a strict improvement survives any further
      descent on either side. */
  lemma BelowTransitive(a: map<Name, Table>, b: map<Name, Table>, c: map<Name, Table>)
    requires Below(a, b) && Below(b, c)
    ensures Below(a, c)
    ensures Improved(a, b) ==> Improved(a, c)
    ensures Improved(b, c) ==> Improved(a, c)
  {
    forall k, d | k in a && d in a[k]
      ensures a[k][d].dist.AtMost(c[k][d].dist)
    {
      OrderTransitive(a[k][d].dist, b[k][d].dist, c[k][d].dist);
    }
    if Improved(a, b) {
      var k, d :| k in a && k in b && d in a[k] && d in b[k] && a[k][d].dist.Less(b[k][d].dist);
      OrderTransitive(a[k][d].dist, b[k][d].dist, c[k][d].dist);
      assert TableImproved(a[k], c[k]);
    }
    if Improved(b, c) {
      var k, d :| k in b && k in c && d in b[k] && d in c[k] && b[k][d].dist.Less(c[k][d].dist);
      OrderTransitive(a[k][d].dist, b[k][d].dist, c[k][d].dist);
      assert TableImproved(a[k], c[k]);
    }
  }

  /** A strict improvement is a change. */
  lemma ImprovedDiffers(ts: map<Name, Table>, us: map<Name, Table>)
    requires Improved(ts, us)
    ensures ts != us
  {
    var k, d :| k in ts && k in us && d in ts[k] && d in us[k] && ts[k][d].dist.Less(us[k][d].dist);
    LessStrictTotal(ts[k][d].dist, us[k][d].dist);
  }

  /** One delivery never lengthens a row; it is counted exactly when it
      shortened one, and otherwise it changed nothing. */
  lemma StepDescends(g: Topology, snapshot: map<Name, Table>, p: Progress, d: Delivery, q: Progress)
    requires Step(g, snapshot, p, d) == Some(q)
    ensures Below(q.tables, p.tables)
    ensures q.count == p.count ==> q.tables == p.tables
    ensures q.count != p.count ==> Improved(q.tables, p.tables)
  {
    var before := p.tables[d.receiver];
    var cost := g.links[d.receiver][d.sender];
    var vector := Export(snapshot[d.sender]);
    var after := Relax(before, d.sender, cost, vector);
    assert q.tables == p.tables[d.receiver := after];
    forall k | k in q.tables ensures TableBelow(q.tables[k], p.tables[k]) {
    }
    RelaxChangedIff(before, d.sender, cost, vector);
    if q.count == p.count {
      assert after == before;
    } else {
      var x :| x in before && Improves(before, cost, vector, x);
      assert after[x] != before[x];
      assert TableImproved(q.tables[d.receiver], p.tables[d.receiver]);
    }
  }

  /** A sequence of deliveries never lengthens a row; when it counts no
      change the tables are untouched, and when it counts one some row is
      strictly shorter at the end. */
  lemma {:induction false} DeliverDescends(g: Topology, snapshot: map<Name, Table>, start: Progress, ds: seq<Delivery>, r: Progress)
    requires Deliver(g, snapshot, start, ds) == Some(r)
    ensures Below(r.tables, start.tables)
    ensures r.count == start.count ==> r.tables == start.tables
    ensures r.count != start.count ==> Improved(r.tables, start.tables)
    decreases |ds|
  {
    if ds == [] {
      BelowReflexive(start.tables);
    } else {
      var p := Deliver(g, snapshot, start, ds[..|ds| - 1]).value;
      DeliverDescends(g, snapshot, start, ds[..|ds| - 1], p);
      StepDescends(g, snapshot, p, ds[|ds| - 1], r);
      BelowTransitive(r.tables, p.tables, start.tables);
    }
  }

  /** A round never lengthens a row, and it counts no change exactly when
      every table equals its snapshot: the convergence test of `simula` is
      exact. */
  lemma RoundQuiet(g: Topology, tables: map<Name, Table>, p: Progress)
    requires g.Listed() && Round(g, tables) == Some(p)
    ensures Below(p.tables, tables)
    ensures p.count == 0 <==> p.tables == tables
  {
    DeliverDescends(g, tables, Progress(tables, 0), Schedule(g.order, g.hops), p);
    if p.count != 0 {
      ImprovedDiffers(p.tables, tables);
    }
  }

  /** A run never lengthens a row, and when it stops before running out of
      rounds its tables are a fixed point: one more round would change
      nothing. */
  lemma RunDescends(g: Topology, tables: map<Name, Table>, fuel: nat)
    requires g.Listed()
    ensures Run(g, tables, fuel).Some? ==> Below(Run(g, tables, fuel).value.tables, tables)
    ensures Run(g, tables, fuel).Some? && Run(g, tables, fuel).value.converged ==>
      var last := Run(g, tables, fuel).value.tables;
      Round(g, last) == Some(Progress(last, 0))
    decreases fuel
  {
    if fuel == 0 {
      BelowReflexive(tables);
    } else if Round(g, tables).Some? {
      var p := Round(g, tables).value;
      RoundQuiet(g, tables, p);
      if p.count == 0 {
        RunQuiet(g, tables, fuel, p);
      } else {
        RunBusy(g, tables, fuel, p);
        RunDescends(g, p.tables, fuel - 1);
        if Run(g, p.tables, fuel - 1).Some? {
          BelowTransitive(Run(g, p.tables, fuel - 1).value.tables, p.tables, tables);
        }
      }
    }
  }

  /** Every node's table keeps the invariant of `Consistent`: its own row
      (self, 0), and every other row unknown or routed through a neighbour. */
  ghost predicate AllConsistent(g: Topology, tables: map<Name, Table>) {
    forall k :: k in tables ==> k in g.links && Consistent(k, g.links[k], tables[k])
  }

  lemma StepConsistent(g: Topology, snapshot: map<Name, Table>, p: Progress, d: Delivery, q: Progress)
    requires AllConsistent(g, p.tables) && Step(g, snapshot, p, d) == Some(q)
    ensures AllConsistent(g, q.tables)
  {
    RelaxConsistent(d.receiver, g.links[d.receiver], p.tables[d.receiver], d.sender, Export(snapshot[d.sender]));
  }

  lemma {:induction false} DeliverConsistent(g: Topology, snapshot: map<Name, Table>, start: Progress, ds: seq<Delivery>, r: Progress)
    requires AllConsistent(g, start.tables) && Deliver(g, snapshot, start, ds) == Some(r)
    ensures AllConsistent(g, r.tables)
    decreases |ds|
  {
    if ds != [] {
      var p := Deliver(g, snapshot, start, ds[..|ds| - 1]).value;
      DeliverConsistent(g, snapshot, start, ds[..|ds| - 1], p);
      StepConsistent(g, snapshot, p, ds[|ds| - 1], r);
    }
  }

  lemma RunConsistent(g: Topology, tables: map<Name, Table>, fuel: nat)
    requires g.Listed() && AllConsistent(g, tables)
    ensures Run(g, tables, fuel).Some? ==> AllConsistent(g, Run(g, tables, fuel).value.tables)
    decreases fuel
  {
    if fuel > 0 && Round(g, tables).Some? {
      var p := Round(g, tables).value;
      DeliverConsistent(g, tables, Progress(tables, 0), Schedule(g.order, g.hops), p);
      if p.count == 0 {
        RunQuiet(g, tables, fuel, p);
      } else {
        RunConsistent(g, p.tables, fuel - 1);
        RunBusy(g, tables, fuel, p);
      }
    }
  }

  /** The tables `simula` initialises keep the invariant. */
  lemma InitialConsistent(g: Topology)
    requires g.Valid()
    ensures AllConsistent(g, InitialTables(g))
  {
    forall k | k in g.links
      ensures Consistent(k, g.links[k], InitialTables(g)[k])
    {
      InitialTableConsistent(k, g.links[k], g.order);
    }
  }

  /** `simula` on a valid topology: it raises no KeyError, runs at most
      `maxIter` rounds, runs all of them unless it stops at a fixed point,
      never lengthens a row of the initial tables, and leaves every node
      its own row (self, 0). */
  lemma SimulationOutcome(g: Topology, maxIter: nat)
    requires g.Valid()
    ensures g.Listed() && Simulation(g, maxIter).Some?
    ensures var o := Simulation(g, maxIter).value;
      && o.rounds <= maxIter
      && (!o.converged ==> o.rounds == maxIter)
      && (o.converged ==> Round(g, o.tables) == Some(Progress(o.tables, 0)))
      && Below(o.tables, InitialTables(g))
      && o.tables.Keys == g.links.Keys
      && forall k :: k in g.links ==> k in o.tables[k] && o.tables[k][k] == SelfEntry(k)
  {
    SimulationSafe(g, maxIter);
    var o := Simulation(g, maxIter).value;
    RunDescends(g, InitialTables(g), maxIter);
    InitialConsistent(g);
    RunConsistent(g, InitialTables(g), maxIter);
  }
}
