/** Routing tables as values: the rows `Nodo.tabella_routing` holds, the table
    `inizializza_tabella` builds, the vector `invia_vettore` exports and the
    relaxation `aggiorna_tabella` applies (distance_vector_animated.py). */
module RoutingTable {
  import opened Distance

  /** Node identities; the source uses short strings such as 'A'. */
  type Name = string

  datatype Option<T> = None | Some(value: T)

  /** One row of a table: the next hop (None while unreachable) and the
      best known distance. */
  datatype Entry = Entry(hop: Option<Name>, dist: Dist)

  /** Destination -> (next hop, distance). */
  type Table = map<Name, Entry>

  /** What a node sends to its neighbours: destination -> distance. */
  type DistVector = map<Name, Dist>

  /** `order` lists every element of `keys` exactly once: the iteration
      order of a Python dict over those keys. */
  ghost predicate Enumerates(order: seq<Name>, keys: set<Name>) {
    && (forall i, j :: 0 <= i < j < |order| ==> order[i] != order[j])
    && (forall x :: x in order <==> x in keys)
  }

  /** A node's row for itself. */
  function SelfEntry(self: Name): Entry {
    Entry(Some(self), Fin(0))
  }

  /** The row `inizializza_tabella` writes for destination `d`: itself at
      distance 0, a direct neighbour at its link cost, anybody else unknown. */
  function InitialEntry(self: Name, neighbours: map<Name, nat>, d: Name): Entry {
    if d == self then SelfEntry(self)
    else if d in neighbours then Entry(Some(d), Fin(neighbours[d]))
    else Entry(None, Inf)
  }

  /** The table `inizializza_tabella` leaves behind for the names it is given. */
  function InitialTable(self: Name, neighbours: map<Name, nat>, names: seq<Name>): (t: Table)
    ensures forall d :: d in t <==> d in names
    ensures self in names ==> t[self] == SelfEntry(self)
    ensures forall d :: d in names && d != self && d in neighbours ==>
      t[d] == Entry(Some(d), Fin(neighbours[d]))
    ensures forall d :: d in names && d != self && d !in neighbours ==> t[d] == Entry(None, Inf)
  {
    map d | d in names :: InitialEntry(self, neighbours, d)
  }

  /** `invia_vettore`: the distance column of a table, next hops dropped. */
  function Export(t: Table): (v: DistVector)
    ensures v.Keys == t.Keys
    ensures forall d :: d in t ==> v[d] == t[d].dist
  {
    map d | d in t :: t[d].dist
  }

  /** Going through the sender, at link cost `cost`, is strictly shorter than
      the stored route to `d`. */
  predicate Improves(t: Table, cost: nat, vector: DistVector, d: Name) {
    d in t && d in vector && Plus(cost, vector[d]).Less(t[d].dist)
  }

  /** The flag `aggiorna_tabella` returns: some destination improves. */
  predicate Changed(t: Table, cost: nat, vector: DistVector) {
    exists d | d in t :: Improves(t, cost, vector, d)
  }

  /** The table `aggiorna_tabella` leaves behind after a vector from `sender`,
      reached over a link of cost `cost`. */
  function Relax(t: Table, sender: Name, cost: nat, vector: DistVector): (r: Table)
    ensures r.Keys == t.Keys
    // distances never grow
    ensures forall d :: d in t ==> r[d].dist.AtMost(t[d].dist)
    // a row is replaced exactly when the route through the sender is strictly shorter ...
    ensures forall d :: d in t ==> (r[d] != t[d] <==> Improves(t, cost, vector, d))
    // ... and then it becomes exactly (sender, cost + the sender's distance)
    ensures forall d :: d in t && r[d] != t[d] ==>
      d in vector && r[d] == Entry(Some(sender), Plus(cost, vector[d])) && r[d].dist.Less(t[d].dist)
    // an equal-cost alternative leaves the row, next hop included, untouched
    ensures forall d :: d in t && d in vector && Plus(cost, vector[d]) == t[d].dist ==> r[d] == t[d]
  {
    map d | d in t :: if Improves(t, cost, vector, d) then Entry(Some(sender), Plus(cost, vector[d])) else t[d]
  }

  /** The flag is true exactly when the relaxation changed the table. */
  lemma RelaxChangedIff(t: Table, sender: Name, cost: nat, vector: DistVector)
    ensures Changed(t, cost, vector) <==> Relax(t, sender, cost, vector) != t
  {
    var r := Relax(t, sender, cost, vector);
    if Changed(t, cost, vector) {
      var d :| d in t && Improves(t, cost, vector, d);
      assert r[d] != t[d];
    } else {
      assert forall d :: d in t ==> r[d] == t[d];
    }
  }

  /** A route row is well formed: unknown destinations have no next hop and
      distance Inf; a known one goes through a direct neighbour and is no
      shorter than the link to that neighbour. */
  predicate RouteShaped(neighbours: map<Name, nat>, e: Entry) {
    match e.hop
    case None => e.dist.Inf?
    case Some(h) => h in neighbours && e.dist.Fin? && neighbours[h] <= e.dist.n
  }

  /** The invariant of a node's table: its own row is (self, 0) and every
      other row is well formed. */
  ghost predicate Consistent(self: Name, neighbours: map<Name, nat>, t: Table) {
    && self in t && t[self] == SelfEntry(self)
    && forall d :: d in t && d != self ==> RouteShaped(neighbours, t[d])
  }

  /** The initial table satisfies the invariant when it covers the node itself. */
  lemma InitialTableConsistent(self: Name, neighbours: map<Name, nat>, names: seq<Name>)
    requires self in names
    ensures Consistent(self, neighbours, InitialTable(self, neighbours, names))
  {
  }

  /** Relaxing against a neighbour's vector keeps the invariant; in
      particular, with non-negative link costs the row (self, 0) survives. */
  lemma RelaxConsistent(self: Name, neighbours: map<Name, nat>, t: Table, sender: Name, vector: DistVector)
    requires Consistent(self, neighbours, t)
    requires sender in neighbours
    ensures Consistent(self, neighbours, Relax(t, sender, neighbours[sender], vector))
  {
    var cost := neighbours[sender];
    var r := Relax(t, sender, cost, vector);
    if self in vector {
      NothingBelowZero(cost, vector[self]);
    }
    forall d | d in r && d != self
      ensures RouteShaped(neighbours, r[d])
    {
      if r[d] != t[d] {
        assert r[d] == Entry(Some(sender), Plus(cost, vector[d]));
      }
    }
  }
}
