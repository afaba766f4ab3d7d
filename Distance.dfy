/** Distances of a distance-vector routing table.

    The source stores distances as Python numbers and uses float('inf') for an
    unreachable destination. Here a distance is a natural number or the
    sentinel Inf, with the two operations the routing code applies to them:
    adding a link cost and the strict comparison `<`. */
module Distance {

  /** A routing distance: a finite cost or "unreachable". */
  datatype Dist = Fin(n: nat) | Inf
  {
    /** Python's `<` on a number or float('inf'): every finite distance is
        below Inf, and Inf is below nothing (in particular not below Inf). */
    predicate Less(other: Dist) {
      match this
      case Inf => false
      case Fin(a) => other.Inf? || a < other.n
    }

    /** `<=` on distances. */
    predicate AtMost(other: Dist) {
      this == other || Less(other)
    }
  }

  /** The distance of a route that first crosses a link of cost `cost` and
      then continues with distance `d`; `cost + inf` stays `inf`. */
  function Plus(cost: nat, d: Dist): (r: Dist)
    ensures r.Inf? <==> d.Inf?
    ensures d.AtMost(r)
    ensures Fin(cost).AtMost(r)
    ensures r == d <==> cost == 0 || d.Inf?
  {
    match d
    case Inf => Inf
    case Fin(n) => Fin(cost + n)
  }

  /** `Less` is a strict total order: irreflexive, asymmetric and total. */
  lemma LessStrictTotal(a: Dist, b: Dist)
    ensures !a.Less(a)
    ensures a.Less(b) ==> !b.Less(a)
    ensures a != b ==> a.Less(b) || b.Less(a)
  {
  }

  /** `Less` and `AtMost` chain transitively. */
  lemma OrderTransitive(a: Dist, b: Dist, c: Dist)
    ensures a.AtMost(b) && b.AtMost(c) ==> a.AtMost(c)
    ensures a.Less(b) && b.AtMost(c) ==> a.Less(c)
    ensures a.AtMost(b) && b.Less(c) ==> a.Less(c)
  {
  }

  /** No route, whatever its first link costs, is shorter than distance 0:
      this is why a node's own entry can never be displaced. */
  lemma NothingBelowZero(cost: nat, d: Dist)
    ensures !Plus(cost, d).Less(Fin(0))
  {
  }
}
