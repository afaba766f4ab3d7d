/** On the networks `main` builds (every link known at both ends), no
    lookup of `simula` fails: every round, and so every run, completes. */
module RoundSafety {
  import opened RoutingTable
  import opened Rounds

  /** Every node has a table and every table has a row for every node: the
      shape `inizializza_tabella(tutti_i_nomi)` gives the tables and
      relaxation keeps. */
  ghost predicate Shaped(g: Topology, tables: map<Name, Table>) {
    && (forall k :: k in tables <==> k in g.links)
    && (forall k, d {:trigger d in tables[k]} :: k in tables ==> (d in tables[k] <==> d in g.links))
  }

  /** A delivery between two nodes that know each other as neighbours. */
  ghost predicate Deliverable(g: Topology, d: Delivery) {
    d.receiver in g.links && d.sender in g.links[d.receiver] && d.sender in g.links
  }

  ghost predicate AllDeliverable(g: Topology, ds: seq<Delivery>) {
    forall i :: 0 <= i < |ds| ==> Deliverable(g, ds[i])
  }

  /** Every name in the order has links, and every link a node lists leads
      to a node that lists it back. */
  ghost predicate Wired(g: Topology) {
    && g.Listed()
    && forall s, v {:trigger v in g.hops[s]} :: s in g.hops && v in g.hops[s] ==> Deliverable(g, Delivery(s, v))
  }

  /** A valid topology is wired. */
  lemma ValidWired(g: Topology)
    requires g.Valid()
    ensures Wired(g)
  {
    forall s, v | s in g.hops && v in g.hops[s]
      ensures Deliverable(g, Delivery(s, v))
    {
      assert v in g.links[s];
    }
  }

  /** A delivery between neighbours, on shaped tables, succeeds and keeps the shape. */
  lemma StepShaped(g: Topology, snapshot: map<Name, Table>, p: Progress, d: Delivery)
    requires Shaped(g, snapshot) && Shaped(g, p.tables) && Deliverable(g, d)
    ensures Step(g, snapshot, p, d).Some?
    ensures Shaped(g, Step(g, snapshot, p, d).value.tables)
  {
    assert snapshot[d.sender].Keys <= p.tables[d.receiver].Keys by {
      forall x | x in snapshot[d.sender] ensures x in p.tables[d.receiver] {
        assert x in g.links;
      }
    }
  }

  lemma SplitLast<T>(s: seq<T>)
    requires s != []
    ensures s == s[..|s| - 1] + [s[|s| - 1]]
  {
  }

  lemma SnocAssoc<T>(a: seq<T>, b: seq<T>, x: T)
    ensures a + (b + [x]) == (a + b) + [x]
  {
  }

  /** One more receiver is one more delivery. */
  lemma FanoutSnoc(sender: Name, receivers: seq<Name>, j: nat)
    requires j < |receivers|
    ensures Fanout(sender, receivers[..j + 1]) == Fanout(sender, receivers[..j]) + [Delivery(sender, receivers[j])]
  {
  }

  /** Delivering one more is one more step. */
  lemma DeliverAppend(g: Topology, snapshot: map<Name, Table>, start: Progress, ds: seq<Delivery>, p: Progress, d: Delivery)
    requires Deliver(g, snapshot, start, ds) == Some(p)
    ensures Deliver(g, snapshot, start, ds + [d]) == Step(g, snapshot, p, d)
  {
    assert (ds + [d])[..|ds|] == ds;
  }

  /** Delivering `a` and then `b` is delivering `a + b`. */
  lemma {:induction false} DeliverConcat(g: Topology, snapshot: map<Name, Table>, start: Progress, a: seq<Delivery>, b: seq<Delivery>, p: Progress)
    requires Deliver(g, snapshot, start, a) == Some(p)
    ensures Deliver(g, snapshot, start, a + b) == Deliver(g, snapshot, p, b)
    decreases |b|
  {
    if b == [] {
      assert a + b == a;
    } else {
      var b' := b[..|b| - 1];
      var d := b[|b| - 1];
      SplitLast(b);
      DeliverConcat(g, snapshot, start, a, b', p);
      SnocAssoc(a, b', d);
      match Deliver(g, snapshot, p, b')
      case None =>
        assert Deliver(g, snapshot, start, a + b') == None;
        assert (a + b' + [d])[..|a + b'|] == a + b';
      case Some(q) =>
        DeliverAppend(g, snapshot, start, a + b', q, d);
    }
  }

  /** Deliveries between neighbours, on shaped tables, all succeed and keep the shape. */
  lemma {:induction false} DeliverShaped(g: Topology, snapshot: map<Name, Table>, start: Progress, ds: seq<Delivery>)
    requires Shaped(g, snapshot) && Shaped(g, start.tables) && AllDeliverable(g, ds)
    ensures Deliver(g, snapshot, start, ds).Some?
    ensures Shaped(g, Deliver(g, snapshot, start, ds).value.tables)
    decreases |ds|
  {
    if ds != [] {
      var ds' := ds[..|ds| - 1];
      assert AllDeliverable(g, ds') by {
        forall i | 0 <= i < |ds'| ensures Deliverable(g, ds'[i]) {
          assert ds'[i] == ds[i];
        }
      }
      DeliverShaped(g, snapshot, start, ds');
      StepShaped(g, snapshot, Deliver(g, snapshot, start, ds').value, ds[|ds| - 1]);
    }
  }

  /** Every delivery of a round is between neighbours. */
  lemma ScheduleDeliverable(g: Topology)
    requires Wired(g)
    ensures AllDeliverable(g, Schedule(g.order, g.hops))
  {
    var ds := Schedule(g.order, g.hops);
    forall i | 0 <= i < |ds|
      ensures Deliverable(g, ds[i])
    {
      assert ds[i].sender in g.hops && ds[i].receiver in g.hops[ds[i].sender];
    }
  }

  /** On a wired network a round from shaped tables completes, with shaped tables. */
  lemma RoundShaped(g: Topology, tables: map<Name, Table>)
    requires Wired(g) && Shaped(g, tables)
    ensures Round(g, tables).Some?
    ensures Shaped(g, Round(g, tables).value.tables)
  {
    ScheduleDeliverable(g);
    DeliverShaped(g, tables, Progress(tables, 0), Schedule(g.order, g.hops));
  }

  /** A round that changed nothing ends the run. */
  lemma RunQuiet(g: Topology, tables: map<Name, Table>, fuel: nat, p: Progress)
    requires g.Listed() && fuel > 0 && Round(g, tables) == Some(p) && p.count == 0
    ensures Run(g, tables, fuel) == Some(Outcome(p.tables, 1, true))
  {
  }

  /** A round that changed something is followed by the rest of the run. */
  lemma RunBusy(g: Topology, tables: map<Name, Table>, fuel: nat, p: Progress)
    requires g.Listed() && fuel > 0 && Round(g, tables) == Some(p) && p.count != 0
    ensures Run(g, tables, fuel) == Shift(Run(g, p.tables, fuel - 1), 1)
  {
  }

  /** Runs with the same budget are the same run. */
  lemma RunSameFuel(g: Topology, tables: map<Name, Table>, fuel: nat, fuel': nat)
    requires g.Listed() && fuel == fuel'
    ensures Run(g, tables, fuel) == Run(g, tables, fuel')
  {
  }

  /** A run seen after `rounds` rounds, one round further on. */
  lemma RunAdvance(g: Topology, whole: Option<Outcome>, tables: map<Name, Table>, fuel: nat, next: nat,
                   rounds: nat, later: nat, p: Progress)
    requires g.Listed() && Round(g, tables) == Some(p) && p.count != 0
    requires fuel == next + 1 && later == rounds + 1
    requires whole == Shift(Run(g, tables, fuel), rounds)
    ensures whole == Shift(Run(g, p.tables, next), later)
  {
    RunBusy(g, tables, fuel, p);
    RunSameFuel(g, p.tables, fuel - 1, next);
    ShiftTwice(Run(g, p.tables, next), 1, rounds, later);
  }

  /** On a wired network a run from shaped tables completes, with shaped tables. */
  lemma RunShaped(g: Topology, tables: map<Name, Table>, fuel: nat)
    requires Wired(g) && Shaped(g, tables)
    ensures Run(g, tables, fuel).Some?
    ensures Shaped(g, Run(g, tables, fuel).value.tables)
    decreases fuel
  {
    if fuel > 0 {
      RoundShaped(g, tables);
      var p := Round(g, tables).value;
      if p.count == 0 {
        RunQuiet(g, tables, fuel, p);
      } else {
        RunShaped(g, p.tables, fuel - 1);
        RunBusy(g, tables, fuel, p);
      }
    }
  }

  /** `inizializza_tabella(tutti_i_nomi)` gives every node a row for every node. */
  lemma InitialShaped(g: Topology)
    requires g.Valid()
    ensures Shaped(g, InitialTables(g))
  {
  }

  /** On a valid topology `simula` raises no KeyError. */
  lemma SimulationSafe(g: Topology, maxIter: nat)
    requires g.Valid()
    ensures g.Listed()
    ensures Simulation(g, maxIter).Some?
  {
    ValidWired(g);
    InitialShaped(g);
    RunShaped(g, InitialTables(g), maxIter);
  }
}
