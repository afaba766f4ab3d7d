/** The round loop of `simula` (distance_vector_animated.py) as a function of
    plain values, without its printing and drawing: initialise every table,
    then run synchronous rounds in which every node's pre-round vector is
    delivered to each of its neighbours, until a round changes nothing or
    `max_iter` rounds have run.

    A lookup the source makes with `[]` raises KeyError when the key is
    missing; here such a delivery, and everything after it, yields None. */
module Rounds {
  import opened Distance
  import opened RoutingTable

  /** The network a simulation runs on: the key order of `nodi`, the links
      of every node (`vicini`), and the order in which each node's `vicini`
      yields its keys. */
  datatype Topology = Topology(order: seq<Name>, links: map<Name, map<Name, nat>>, hops: map<Name, seq<Name>>)
  {
    /** Every name in `order` is a node with links and a link order. */
    predicate Listed() {
      forall s :: s in order ==> s in links && s in hops
    }

    /** Every name once in `order`, every node's links listed once in its
        link order, every neighbour a node of the network, and every link
        known at both ends (as `main` sets them up). */
    ghost predicate Valid() {
      && Enumerates(order, links.Keys)
      && hops.Keys == links.Keys
      && (forall k :: k in links ==> Enumerates(hops[k], links[k].Keys))
      && (forall k, v {:trigger v in links[k]} :: k in links && v in links[k] ==> v in links && k in links[v])
    }
  }

  /** One call `nodi[receiver].aggiorna_tabella(sender, vettore)`. */
  datatype Delivery = Delivery(sender: Name, receiver: Name)

  /** The deliveries of one sender's vector, in its link order. */
  function Fanout(sender: Name, receivers: seq<Name>): (ds: seq<Delivery>)
    ensures |ds| == |receivers|
    ensures forall j :: 0 <= j < |ds| ==> ds[j] == Delivery(sender, receivers[j])
  {
    seq(|receivers|, j requires 0 <= j < |receivers| => Delivery(sender, receivers[j]))
  }

  /** The number of link entries of the given senders. */
  function LinkEntries(senders: seq<Name>, hops: map<Name, seq<Name>>): nat
    requires forall s :: s in senders ==> s in hops
    decreases |senders|
  {
    if senders == [] then 0
    else LinkEntries(senders[..|senders| - 1], hops) + |hops[senders[|senders| - 1]]|
  }

  /** The deliveries of one round, in the order `simula` makes them: senders
      in `senders` order, each to its neighbours in link order. */
  function Schedule(senders: seq<Name>, hops: map<Name, seq<Name>>): (ds: seq<Delivery>)
    requires forall s :: s in senders ==> s in hops
    ensures |ds| == LinkEntries(senders, hops)
    ensures forall i :: 0 <= i < |ds| ==> ds[i].sender in senders && ds[i].receiver in hops[ds[i].sender]
    decreases |senders|
  {
    if senders == [] then []
    else
      var s := senders[|senders| - 1];
      Schedule(senders[..|senders| - 1], hops) + Fanout(s, hops[s])
  }

  /** The tables, and `aggiornamenti`, part-way through a round. */
  datatype Progress = Progress(tables: map<Name, Table>, count: nat)

  /** The lookups one delivery makes all succeed: the receiver is a node
      (`nodi[vicino]`), the sender is one of its neighbours
      (`self.vicini[mittente]`), and every destination of the sender's
      vector has a row in the receiver's table (`self.tabella_routing[destinazione]`). */
  predicate Accepts(g: Topology, snapshot: map<Name, Table>, tables: map<Name, Table>, d: Delivery) {
    && d.sender in snapshot
    && d.receiver in tables && d.receiver in g.links
    && d.sender in g.links[d.receiver]
    && snapshot[d.sender].Keys <= tables[d.receiver].Keys
  }

  /** One delivery: the receiver relaxes its current table against the
      sender's vector taken from the snapshot, and the count grows by one
      when that changed something. */
  function Step(g: Topology, snapshot: map<Name, Table>, p: Progress, d: Delivery): (q: Option<Progress>)
    ensures q.Some? <==> Accepts(g, snapshot, p.tables, d)
    ensures q.Some? ==> q.value.tables.Keys == p.tables.Keys && p.count <= q.value.count <= p.count + 1
    // only the receiver's table can change, and it keeps its destinations
    ensures q.Some? ==> forall k :: k in p.tables && k != d.receiver ==> q.value.tables[k] == p.tables[k]
    ensures q.Some? ==> q.value.tables[d.receiver].Keys == p.tables[d.receiver].Keys
  {
    if Accepts(g, snapshot, p.tables, d) then
      var before := p.tables[d.receiver];
      var cost := g.links[d.receiver][d.sender];
      var vector := Export(snapshot[d.sender]);
      Some(Progress(p.tables[d.receiver := Relax(before, d.sender, cost, vector)],
                    p.count + if Changed(before, cost, vector) then 1 else 0))
    else None
  }

  /** The deliveries `ds`, in order, starting from `start`; every vector
      comes from `snapshot`, which none of them changes. */
  function Deliver(g: Topology, snapshot: map<Name, Table>, start: Progress, ds: seq<Delivery>): (r: Option<Progress>)
    ensures r.Some? ==> r.value.tables.Keys == start.tables.Keys
    ensures r.Some? ==> start.count <= r.value.count <= start.count + |ds|
    decreases |ds|
  {
    if ds == [] then Some(start)
    else
      match Deliver(g, snapshot, start, ds[..|ds| - 1])
      case None => None
      case Some(p) => Step(g, snapshot, p, ds[|ds| - 1])
  }

  /** One round of `simula`: a snapshot of all tables is taken first, and
      every delivery reads its vector from that snapshot; `aggiornamenti`
      never exceeds the number of link entries. */
  function Round(g: Topology, tables: map<Name, Table>): (r: Option<Progress>)
    requires g.Listed()
    ensures r.Some? ==> r.value.tables.Keys == tables.Keys
    ensures r.Some? ==> r.value.count <= LinkEntries(g.order, g.hops)
  {
    Deliver(g, tables, Progress(tables, 0), Schedule(g.order, g.hops))
  }

  /** How a run ends: the tables, the number of rounds run, and whether the
      last of them changed nothing. */
  datatype Outcome = Outcome(tables: map<Name, Table>, rounds: nat, converged: bool)

  /** A run preceded by `n` more rounds. */
  function Shift(r: Option<Outcome>, n: nat): (l: Option<Outcome>)
    ensures l.Some? <==> r.Some?
    ensures l.Some? ==> l.value.tables == r.value.tables && l.value.converged == r.value.converged
    ensures l.Some? ==> l.value.rounds == r.value.rounds + n
  {
    if r.None? then None else Some(r.value.(rounds := r.value.rounds + n))
  }

  lemma ShiftZero(r: Option<Outcome>)
    ensures Shift(r, 0) == r
  {
  }

  lemma ShiftTwice(r: Option<Outcome>, a: nat, b: nat, sum: nat)
    requires sum == a + b
    ensures Shift(Shift(r, a), b) == Shift(r, sum)
  {
  }

  /** Rounds from `tables` until one changes nothing or `fuel` rounds ran:
      never more than `fuel` rounds, and fewer only when the last one was quiet. */
  function Run(g: Topology, tables: map<Name, Table>, fuel: nat): (r: Option<Outcome>)
    requires g.Listed()
    ensures r.Some? ==> r.value.rounds <= fuel
    ensures r.Some? && r.value.converged ==> 1 <= r.value.rounds
    ensures r.Some? && !r.value.converged ==> r.value.rounds == fuel
    decreases fuel
  {
    if fuel == 0 then Some(Outcome(tables, 0, false))
    else
      var p := Round(g, tables);
      if p.None? then None
      else if p.value.count == 0 then Some(Outcome(p.value.tables, 1, true))
      else Shift(Run(g, p.value.tables, fuel - 1), 1)
  }

  /** Every node's table as `inizializza_tabella(tutti_i_nomi)` leaves it. */
  function InitialTables(g: Topology): (tables: map<Name, Table>)
    ensures tables.Keys == g.links.Keys
    ensures forall k :: k in g.links ==> tables[k] == InitialTable(k, g.links[k], g.order)
  {
    map k | k in g.links :: InitialTable(k, g.links[k], g.order)
  }

  /** `simula(nodi, max_iter)`: initialise, then run at most `maxIter` rounds. */
  function Simulation(g: Topology, maxIter: nat): (r: Option<Outcome>)
    requires g.Listed()
    ensures r.Some? ==> r.value.rounds <= maxIter
  {
    Run(g, InitialTables(g), maxIter)
  }
}
