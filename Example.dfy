/** The network `main` of distance_vector_animated.py builds (four routers,
    five links), and a one-way link that makes `simula` raise KeyError.
    Both are stated for any distinct router names; `main` names them 'A'
    to 'D'. */
module Example {
  import opened Distance
  import opened RoutingTable
  import opened Rounds
  import opened RoundSafety
  import opened RoundProperties

  /** a-b 1, a-c 4, b-c 2, b-d 7, c-d 1, every link listed at both ends in
      the order `main` writes them. */
  function Diamond(a: Name, b: Name, c: Name, d: Name): Topology {
    Topology([a, b, c, d],
             map[a := map[b := 1, c := 4],
                 b := map[a := 1, c := 2, d := 7],
                 c := map[a := 4, b := 2, d := 1],
                 d := map[b := 7, c := 1]],
             map[a := [b, c],
                 b := [a, c, d],
                 c := [a, b, d],
                 d := [b, c]])
  }

  /** The network of `main`. */
  function MainNetwork(): Topology {
    Diamond("A", "B", "C", "D")
  }

  predicate Distinct(a: Name, b: Name, c: Name, d: Name) {
    a != b && a != c && a != d && b != c && b != d && c != d
  }

  lemma MainNamesDistinct()
    ensures Distinct("A", "B", "C", "D")
  {
  }

  lemma ListsTwo(a: Name, b: Name)
    requires a != b
    ensures Enumerates([a, b], {a, b})
  {
  }

  lemma ListsThree(a: Name, b: Name, c: Name)
    requires a != b && a != c && b != c
    ensures Enumerates([a, b, c], {a, b, c})
  {
  }

  lemma ListsFour(a: Name, b: Name, c: Name, d: Name)
    requires Distinct(a, b, c, d)
    ensures Enumerates([a, b, c, d], {a, b, c, d})
  {
  }

  lemma DiamondNodes(a: Name, b: Name, c: Name, d: Name)
    requires Distinct(a, b, c, d)
    ensures var g := Diamond(a, b, c, d);
      Enumerates(g.order, g.links.Keys) && g.hops.Keys == g.links.Keys
  {
    ListsFour(a, b, c, d);
  }

  lemma DiamondLinkOrder(a: Name, b: Name, c: Name, d: Name)
    requires Distinct(a, b, c, d)
    ensures var g := Diamond(a, b, c, d);
      forall k :: k in g.links ==> Enumerates(g.hops[k], g.links[k].Keys)
  {
    var g := Diamond(a, b, c, d);
    ListsTwo(b, c);
    ListsThree(a, c, d);
    ListsThree(a, b, d);
    assert g.links[a].Keys == {b, c} && g.links[d].Keys == {b, c};
    assert g.links[b].Keys == {a, c, d} && g.links[c].Keys == {a, b, d};
  }

  lemma DiamondSymmetric(a: Name, b: Name, c: Name, d: Name)
    requires Distinct(a, b, c, d)
    ensures var g := Diamond(a, b, c, d);
      forall k, v {:trigger v in g.links[k]} :: k in g.links && v in g.links[k] ==> v in g.links && k in g.links[v]
  {
  }

  /** Every link of the network is known at both ends and listed once. */
  lemma DiamondValid(a: Name, b: Name, c: Name, d: Name)
    requires Distinct(a, b, c, d)
    ensures Diamond(a, b, c, d).Valid()
  {
    DiamondNodes(a, b, c, d);
    DiamondLinkOrder(a, b, c, d);
    DiamondSymmetric(a, b, c, d);
  }

  /** `simula(nodi, G, pos)` on the network of `main`, with the default
      `max_iter` of 10: no KeyError, at most 10 rounds, and every router
      keeps its own row. */
  lemma MainSimulation()
    ensures MainNetwork().Listed() && Simulation(MainNetwork(), 10).Some?
    ensures Simulation(MainNetwork(), 10).value.rounds <= 10
    ensures forall k :: k in MainNetwork().links ==>
      k in Simulation(MainNetwork(), 10).value.tables &&
      k in Simulation(MainNetwork(), 10).value.tables[k] &&
      Simulation(MainNetwork(), 10).value.tables[k][k] == SelfEntry(k)
  {
    MainNamesDistinct();
    DiamondValid("A", "B", "C", "D");
    SimulationOutcome(MainNetwork(), 10);
  }

  /** The first table of a: itself, its neighbours b and c at their link
      costs, and d unknown. */
  lemma FirstTable(a: Name, b: Name, c: Name, d: Name)
    requires Distinct(a, b, c, d)
    ensures var g := Diamond(a, b, c, d);
      InitialTable(a, g.links[a], g.order)
        == map[a := Entry(Some(a), Fin(0)), b := Entry(Some(b), Fin(1)),
               c := Entry(Some(c), Fin(4)), d := Entry(None, Inf)]
  {
    var g := Diamond(a, b, c, d);
    assert g.links[a] == map[b := 1, c := 4];
  }

  /** The first vector of b: its link costs, and 0 for itself. */
  lemma FirstVector(a: Name, b: Name, c: Name, d: Name)
    requires Distinct(a, b, c, d)
    ensures var g := Diamond(a, b, c, d);
      Export(InitialTable(b, g.links[b], g.order)) == map[a := Fin(1), b := Fin(0), c := Fin(2), d := Fin(7)]
  {
    var g := Diamond(a, b, c, d);
    assert g.links[b] == map[a := 1, c := 2, d := 7];
  }

  /** a relaxes its first table against the first vector of b: c becomes
      reachable through b at 1 + 2 and d at 1 + 7, while b itself, offered
      at 1 + 0, the cost of its direct link, keeps its row, and so does a. */
  lemma FirstDelivery(a: Name, b: Name, c: Name, d: Name)
    requires Distinct(a, b, c, d)
    ensures var g := Diamond(a, b, c, d);
      var r := Relax(InitialTable(a, g.links[a], g.order), b, g.links[a][b], Export(InitialTable(b, g.links[b], g.order)));
      && r.Keys == {a, b, c, d}
      && r[a] == Entry(Some(a), Fin(0)) && r[b] == Entry(Some(b), Fin(1))
      && r[c] == Entry(Some(b), Fin(3)) && r[d] == Entry(Some(b), Fin(8))
  {
    FirstTable(a, b, c, d);
    FirstVector(a, b, c, d);
    assert Diamond(a, b, c, d).links[a][b] == 1;
    var t := map[a := Entry(Some(a), Fin(0)), b := Entry(Some(b), Fin(1)),
                 c := Entry(Some(c), Fin(4)), d := Entry(None, Inf)];
    var v := map[a := Fin(1), b := Fin(0), c := Fin(2), d := Fin(7)];
    assert !Improves(t, 1, v, a) && !Improves(t, 1, v, b);
  }

  /** a lists b as a neighbour but b does not list a. */
  function OneWay(a: Name, b: Name): Topology {
    Topology([a, b], map[a := map[b := 1], b := map[]], map[a := [b], b := []])
  }

  /** A round on that network is the one delivery from a to b. */
  lemma OneWaySchedule(a: Name, b: Name)
    requires a != b
    ensures Schedule(OneWay(a, b).order, OneWay(a, b).hops) == [Delivery(a, b)]
  {
    var g := OneWay(a, b);
    assert g.hops[a] == [b] && g.hops[b] == [];
    assert Schedule([a], g.hops) == [Delivery(a, b)] by {
      assert [a][..0] == [];
    }
    assert g.order[..1] == [a];
  }

  /** That delivery, `nodi[b].aggiorna_tabella(a, ...)`, looks a up among
      the neighbours of b and fails, whatever the tables hold. */
  lemma OneWayRoundFails(a: Name, b: Name, tables: map<Name, Table>)
    requires a != b
    ensures OneWay(a, b).Listed() && Round(OneWay(a, b), tables).None?
  {
    var g := OneWay(a, b);
    OneWaySchedule(a, b);
    assert [Delivery(a, b)][..0] == [];
    assert a !in g.links[b];
  }

  /** So `simula` on it raises KeyError whenever it runs a round at all. */
  lemma OneWayFails(a: Name, b: Name, maxIter: nat)
    requires a != b && maxIter > 0
    ensures OneWay(a, b).Listed() && !OneWay(a, b).Valid()
    ensures Simulation(OneWay(a, b), maxIter).None?
  {
    OneWayRoundFails(a, b, InitialTables(OneWay(a, b)));
    assert b in OneWay(a, b).links[a];
  }
}
