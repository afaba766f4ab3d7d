/** The class `Nodo` of distance_vector_animated.py: a router with a name, the
    costs of its direct links and a routing table that its methods rewrite in
    place. */
module Nodes {
  import opened Distance
  import opened RoutingTable

  class Node {
    /** `nome`. */
    const name: Name
    /** `vicini`: link cost to every direct neighbour. */
    const neighbours: map<Name, nat>
    /** The order in which the dict `vicini` yields its keys. */
    const neighbourOrder: seq<Name>
    /** `tabella_routing`. */
    var table: Table

    /** The neighbour order lists each neighbour once. */
    ghost predicate Valid() {
      Enumerates(neighbourOrder, neighbours.Keys)
    }

    /** A node with its links, and with an empty table until it is initialised. */
    constructor (name: Name, neighbours: map<Name, nat>, neighbourOrder: seq<Name>)
      requires Enumerates(neighbourOrder, neighbours.Keys)
      ensures Valid()
      ensures this.name == name && this.neighbours == neighbours && this.neighbourOrder == neighbourOrder
      ensures table == map[]
    {
      this.name := name;
      this.neighbours := neighbours;
      this.neighbourOrder := neighbourOrder;
      table := map[];
    }

    /** `inizializza_tabella`: reset the table and give every name in
        `names` its initial row. */
    method Initialize(names: seq<Name>)
      modifies this
      ensures table == InitialTable(name, neighbours, names)
    {
      table := map[];
      for i := 0 to |names|
        invariant table == InitialTable(name, neighbours, names[..i])
      {
        var d := names[i];
        if d == name {
          table := table[d := SelfEntry(name)];
        } else if d in neighbours {
          table := table[d := Entry(Some(d), Fin(neighbours[d]))];
        } else {
          table := table[d := Entry(None, Inf)];
        }
        assert names[..i + 1] == names[..i] + [d];
      }
      assert names[..|names|] == names;
    }

    /** `aggiorna_tabella`: relax the table against the vector of neighbour
        `sender` and report whether any row was replaced. The source raises
        KeyError when `sender` is not a neighbour or the vector names a
        destination the table lacks; those are the preconditions. */
    method Update(sender: Name, vector: DistVector) returns (changed: bool)
      requires sender in neighbours
      requires vector.Keys <= table.Keys
      modifies this
      ensures table == Relax(old(table), sender, neighbours[sender], vector)
      ensures changed == Changed(old(table), neighbours[sender], vector)
      ensures changed <==> table != old(table)
      // the own row (self, 0) survives, and every route still starts at a neighbour
      ensures Consistent(name, neighbours, old(table)) ==> Consistent(name, neighbours, table)
    {
      changed := false;
      var cost := neighbours[sender];
      var todo := vector.Keys;
      while todo != {}
        invariant todo <= vector.Keys
        invariant table.Keys == old(table).Keys
        invariant forall d :: d in table && d !in todo && Improves(old(table), cost, vector, d) ==>
          table[d] == Entry(Some(sender), Plus(cost, vector[d]))
        invariant forall d :: d in table && (d in todo || !Improves(old(table), cost, vector, d)) ==>
          table[d] == old(table)[d]
        invariant changed <==> exists d :: d in vector.Keys - todo && Improves(old(table), cost, vector, d)
        decreases todo
      {
        var d :| d in todo;
        var candidate := Plus(cost, vector[d]);
        assert table[d] == old(table)[d];
        if candidate.Less(table[d].dist) {
          table := table[d := Entry(Some(sender), candidate)];
          changed := true;
        }
        todo := todo - {d};
      }
      ghost var relaxed := Relax(old(table), sender, cost, vector);
      assert forall d :: d in table ==> table[d] == relaxed[d];
      RelaxChangedIff(old(table), sender, cost, vector);
      if Consistent(name, neighbours, old(table)) {
        RelaxConsistent(name, neighbours, old(table), sender, vector);
      }
    }
  }
}
