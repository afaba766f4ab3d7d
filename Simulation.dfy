/** `simula` (distance_vector_animated.py) run on `Node` objects, without its
    printing and drawing, and proved to compute what `Rounds` describes:
    every round works from a copy of all tables taken before it, and the run
    stops after `maxIter` rounds or after the first round that changed nothing. */
module Simulation {
  import opened RoutingTable
  import opened Nodes
  import opened Rounds
  import opened RoundSafety

  /** The topology that a dict of nodes and its key order describe. */
  function TopologyOf(nodes: map<Name, Node>, order: seq<Name>): Topology {
    Topology(order,
             map k | k in nodes :: nodes[k].neighbours,
             map k | k in nodes :: nodes[k].neighbourOrder)
  }

  /** `nodi` maps every name to the node of that name, `order` is its key
      order, and the links form a valid topology. */
  ghost predicate Network(nodes: map<Name, Node>, order: seq<Name>) {
    && (forall k :: k in nodes ==> nodes[k].name == k)
    && TopologyOf(nodes, order).Valid()
  }

  /** The value of every node's table. */
  function TablesOf(nodes: map<Name, Node>): map<Name, Table>
    reads nodes.Values
  {
    map k | k in nodes :: nodes[k].table
  }

  /** Each name is mapped to the node of that name, with the links `g` gives it. */
  ghost predicate Realizes(nodes: map<Name, Node>, g: Topology) {
    && nodes.Keys == g.links.Keys
    && forall k :: k in nodes ==>
         nodes[k].name == k && k in g.hops && nodes[k].neighbours == g.links[k] && nodes[k].neighbourOrder == g.hops[k]
  }

  lemma NetworkRealizes(nodes: map<Name, Node>, order: seq<Name>)
    requires Network(nodes, order)
    ensures Wired(TopologyOf(nodes, order)) && Realizes(nodes, TopologyOf(nodes, order))
  {
    ValidWired(TopologyOf(nodes, order));
  }

  /** One delivery, `nodi[receiver].aggiorna_tabella(sender, vettore)`,
      and the count of deliveries that changed something. */
  method Receive(nodes: map<Name, Node>, ghost g: Topology, ghost snapshot: map<Name, Table>,
                 sender: Name, vector: DistVector, receiver: Name, count0: nat)
    returns (count: nat)
    requires forall k :: k in nodes ==> nodes[k].name == k
    requires receiver in nodes && receiver in g.links && nodes[receiver].neighbours == g.links[receiver]
    requires sender in g.links[receiver] && sender in snapshot && vector == Export(snapshot[sender])
    requires snapshot[sender].Keys <= nodes[receiver].table.Keys
    modifies nodes.Values
    ensures Step(g, snapshot, Progress(old(TablesOf(nodes)), count0), Delivery(sender, receiver))
      == Some(Progress(TablesOf(nodes), count))
  {
    ghost var before := TablesOf(nodes);
    ghost var cost := g.links[receiver][sender];
    var updated := nodes[receiver].Update(sender, vector);
    count := if updated then count0 + 1 else count0;
    ghost var after := Relax(before[receiver], sender, cost, vector);
    assert nodes[receiver].table == after;
    forall k | k in nodes && k != receiver
      ensures TablesOf(nodes)[k] == before[k]
    {
      assert nodes[k] != nodes[receiver];
    }
    assert TablesOf(nodes) == before[receiver := after];
  }

  /** The inner loop of a round: the snapshot vector of `sender` goes to
      each of its neighbours in link order; `count` goes on from `count0`. */
  method Broadcast(nodes: map<Name, Node>, ghost g: Topology, snapshot: map<Name, Table>, sender: Name, count0: nat)
    returns (count: nat)
    requires Realizes(nodes, g) && Wired(g) && sender in g.links
    requires Shaped(g, snapshot) && Shaped(g, TablesOf(nodes))
    modifies nodes.Values
    ensures Shaped(g, TablesOf(nodes))
    ensures Deliver(g, snapshot, Progress(old(TablesOf(nodes)), count0), Fanout(sender, g.hops[sender]))
      == Some(Progress(TablesOf(nodes), count))
  {
    ghost var start := Progress(TablesOf(nodes), count0);
    var vector := Export(snapshot[sender]);
    var receivers := nodes[sender].neighbourOrder;
    count := count0;
    for j := 0 to |receivers|
      invariant Shaped(g, TablesOf(nodes))
      invariant Deliver(g, snapshot, start, Fanout(sender, receivers[..j])) == Some(Progress(TablesOf(nodes), count))
    {
      ghost var d := Delivery(sender, receivers[j]);
      ghost var before := Progress(TablesOf(nodes), count);
      assert receivers[j] in g.hops[sender];
      StepShaped(g, snapshot, before, d);
      count := Receive(nodes, g, snapshot, sender, vector, receivers[j], count);
      FanoutSnoc(sender, receivers, j);
      DeliverAppend(g, snapshot, start, Fanout(sender, receivers[..j]), before, d);
    }
    assert receivers[..|receivers|] == receivers;
  }

  /** The body of one iteration of `simula`'s round loop: copy every table,
      deliver every copied vector to every neighbour of its sender, and count
      the deliveries that changed something. */
  method RunRound(nodes: map<Name, Node>, order: seq<Name>, ghost g: Topology) returns (count: nat)
    requires Realizes(nodes, g) && Wired(g) && g.order == order
    requires Shaped(g, TablesOf(nodes))
    modifies nodes.Values
    ensures Shaped(g, TablesOf(nodes))
    ensures Round(g, old(TablesOf(nodes))) == Some(Progress(TablesOf(nodes), count))
  {
    var snapshot := TablesOf(nodes);
    ghost var start := Progress(snapshot, 0);
    count := 0;
    for i := 0 to |order|
      invariant Shaped(g, TablesOf(nodes))
      invariant Deliver(g, snapshot, start, Schedule(order[..i], g.hops)) == Some(Progress(TablesOf(nodes), count))
    {
      ghost var mid := Progress(TablesOf(nodes), count);
      count := Broadcast(nodes, g, snapshot, order[i], count);
      assert order[..i + 1][..i] == order[..i];
      DeliverConcat(g, snapshot, start, Schedule(order[..i], g.hops), Fanout(order[i], g.hops[order[i]]), mid);
    }
    assert order[..|order|] == order;
  }

  /** The first loop of `simula`: every node, in key order, initialises
      its table with the list of all names. */
  method InitializeAll(nodes: map<Name, Node>, order: seq<Name>)
    requires forall k :: k in nodes ==> nodes[k].name == k
    requires forall k :: k in nodes <==> k in order
    modifies nodes.Values
    ensures forall k :: k in nodes ==> nodes[k].table == InitialTable(k, nodes[k].neighbours, order)
  {
    for i := 0 to |order|
      invariant forall j :: 0 <= j < i ==> nodes[order[j]].table == InitialTable(order[j], nodes[order[j]].neighbours, order)
    {
      var name := order[i];
      ghost var before := TablesOf(nodes);
      nodes[name].Initialize(order);
      assert nodes[name].table == InitialTable(name, nodes[name].neighbours, order);
      forall j | 0 <= j < i + 1
        ensures nodes[order[j]].table == InitialTable(order[j], nodes[order[j]].neighbours, order)
      {
        if order[j] != name {
          assert nodes[order[j]] != nodes[name];
          assert nodes[order[j]].table == before[order[j]];
        }
      }
    }
    forall k | k in nodes
      ensures nodes[k].table == InitialTable(k, nodes[k].neighbours, order)
    {
      var j :| 0 <= j < |order| && order[j] == k;
    }
  }

  /** Tables as `InitializeAll` leaves them are the initial tables. */
  lemma InitialTablesOf(nodes: map<Name, Node>, order: seq<Name>)
    requires forall k :: k in nodes ==> nodes[k].table == InitialTable(k, nodes[k].neighbours, order)
    ensures TablesOf(nodes) == InitialTables(TopologyOf(nodes, order))
  {
  }

  /** The round loop of `simula`: at most `maxIter` rounds, leaving early
      after the first round that changed nothing. */
  method Iterate(nodes: map<Name, Node>, order: seq<Name>, ghost g: Topology, maxIter: nat) returns (rounds: nat, converged: bool)
    requires Realizes(nodes, g) && Wired(g) && g.order == order
    requires Shaped(g, TablesOf(nodes))
    modifies nodes.Values
    ensures Run(g, old(TablesOf(nodes)), maxIter) == Some(Outcome(TablesOf(nodes), rounds, converged))
  {
    ghost var tables := TablesOf(nodes);
    ghost var whole := Run(g, tables, maxIter);
    ghost var fuel: nat := maxIter;
    rounds, converged := 0, false;
    ShiftZero(whole);
    while rounds < maxIter
      invariant rounds <= maxIter && fuel == maxIter - rounds && !converged
      invariant tables == TablesOf(nodes) && Shaped(g, tables)
      invariant whole == Shift(Run(g, tables, fuel), rounds)
    {
      var count := RunRound(nodes, order, g);
      ghost var p := Progress(TablesOf(nodes), count);
      if count == 0 {
        RunQuiet(g, tables, fuel, p);
        rounds, converged := rounds + 1, true;
        return;
      }
      ghost var next: nat := fuel - 1;
      var later := rounds + 1;
      RunAdvance(g, whole, tables, fuel, next, rounds, later, p);
      rounds, tables, fuel := later, p.tables, next;
    }
    assert Run(g, tables, 0) == Some(Outcome(tables, 0, false));
  }

  /** `simula` without its output: returns how many rounds ran and whether
      the last one changed nothing. */
  method Simulate(nodes: map<Name, Node>, order: seq<Name>, maxIter: nat) returns (rounds: nat, converged: bool)
    requires Network(nodes, order)
    modifies nodes.Values
    ensures Simulation(TopologyOf(nodes, order), maxIter) == Some(Outcome(TablesOf(nodes), rounds, converged))
  {
    ghost var g := TopologyOf(nodes, order);
    NetworkRealizes(nodes, order);
    InitializeAll(nodes, order);
    InitialTablesOf(nodes, order);
    InitialShaped(g);
    rounds, converged := Iterate(nodes, order, g, maxIter);
  }
}
