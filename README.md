# Distance Vector routing, modelled and verified in Dafny

This project models the routing engine of `distance_vector_animated.py`, a
simulator of Distance Vector routing. Each router (`Nodo`) knows only the
costs of its direct links (`vicini`). It keeps a routing table
(`tabella_routing`) that maps each destination to a next hop and a distance.
Routers repeatedly exchange their distance vectors with their neighbours,
in the manner of Bellman-Ford.

The model covers:

- **The three table operations of `Nodo`.**
  - `inizializza_tabella` seeds the table.
  - `invia_vettore` exports the distance column.
  - `aggiorna_tabella` relaxes the table against a neighbour's vector, using a strict `<`, and reports whether any row was replaced.
- **The algorithmic part of `simula`.**
  - It initialises every table.
  - Each round it copies all tables, and delivers every copied vector to each neighbour of its sender.
  - It counts the deliveries that changed something.
  - It stops after the first round that counted none, or after `max_iter` rounds.

Layout:

- `Distance.dfy`: distances. A distance is `Fin(n)` or `Inf`, where `Inf` stands for `float('inf')`. The module also gives Python's `<` on these distances and the addition of a link cost.
- `RoutingTable.dfy`: tables as values, and the pure functions behind the three operations:
  - `InitialTable`, `Export` and `Relax`;
  - the table invariant `Consistent`: the own row is (self, 0), and every other route starts at a neighbour.
- `Node.dfy`: the class `Node`.
  - Its constant fields are the name, the link costs and the order in which the link dict yields its keys.
  - Its mutable field is the table.
  - The methods `Initialize` and `Update` rewrite the table in place with the loops of the source.
  - Each method is proved to leave exactly the table the matching function describes.
- `Rounds.dfy`: `simula` as a function of values.
  - A round is a fold of single deliveries (`Step`) over the delivery schedule.
  - Every delivery reads its vector from the snapshot taken before the round.
  - A lookup the source makes with `[]` raises KeyError when the key is missing. Here such a run yields `None`.
- `RoundSafety.dfy`: on a network where every link is known at both ends, as in `main`, no lookup fails.
- `RoundProperties.dfy`: proves four things about a run:
  - distances only go down;
  - a round counts zero changes exactly when every table equals its snapshot;
  - a run that stops early stops at a fixed point;
  - every router keeps its own row (self, 0).
- `Simulation.dfy`: `simula` run on `Node` objects held in a map.
  - The methods' nested loops are proved to compute exactly what `Rounds` describes.
  - Every table is copied before each round.
- `Example.dfy`: two concrete networks.
  - The four-router network of `main`, stated for any four distinct names; `main` calls them 'A' to 'D'.
  - A one-way link, on which the first delivery raises KeyError.

## Model

| member | source | states |
|---|---|---|
| Distance.Plus | distance_vector_animated.py:51 | The cost of a route through the sender. Adding a link cost to `inf` stays `inf`; otherwise the sum is finite. The sum is never below either summand, and it equals the sender's distance only when the link costs 0 or the distance is `inf`. |
| Distance.LessStrictTotal | distance_vector_animated.py:55 | The `<` used to decide a replacement is irreflexive, asymmetric and total on distances; `inf < inf` is false. |
| Distance.OrderTransitive | distance_vector_animated.py:55 | `<` and `<=` on distances chain transitively. |
| Distance.NothingBelowZero | distance_vector_animated.py:55 | No route through any neighbour is strictly shorter than distance 0. |
| RoutingTable.InitialTable | distance_vector_animated.py:25-32 | The new table has a row for exactly the given names. The node's own row is (self, 0), a direct neighbour's row is (neighbour, link cost), and every other row is (None, inf). The own row comes first, even when the node lists itself as a neighbour. |
| RoutingTable.Export | distance_vector_animated.py:40 | The vector has the table's keys, and each value is that row's distance; next hops are dropped. |
| RoutingTable.Relax | distance_vector_animated.py:47-58 | The keys are kept and no distance grows. A row is replaced exactly when the route through the sender is strictly shorter, and then it becomes (sender, link cost + sender's distance). An equal-cost route leaves the row, next hop included, untouched. |
| RoutingTable.RelaxChangedIff | distance_vector_animated.py:47-58 | The returned flag (`modificato`) is true exactly when the relaxation changed the table. |
| RoutingTable.InitialTableConsistent | distance_vector_animated.py:25-32 | A fresh table whose names include the node itself has the own row (self, 0). Every other row is either unknown with no next hop, or routed through a direct neighbour at no less than that link's cost. |
| RoutingTable.RelaxConsistent | distance_vector_animated.py:48-57 | Relaxing against any neighbour's vector keeps that invariant; in particular the own row (self, 0) survives. |
| Nodes.Node.constructor | distance_vector_animated.py:9-16 | A node starts with its name and links and an empty table. The links are set once, as `main` sets `vicini` right after building the nodes. |
| Nodes.Node.Initialize | distance_vector_animated.py:18-32 | The loop resets the table and leaves exactly `InitialTable(name, links, names)`. |
| Nodes.Node.Update | distance_vector_animated.py:42-58 | The loop leaves exactly `Relax(old table, sender, link cost, vector)` and returns exactly the `Changed` flag. The flag is true iff the table changed, and the table invariant is preserved. The sender must be a neighbour (:48) and every destination of the vector a row of the table (:52); otherwise the source raises KeyError. |
| Rounds.Fanout | distance_vector_animated.py:119-120 | One sender's vector goes to each receiver, in link order, one delivery per link. |
| Rounds.Schedule | distance_vector_animated.py:117-120 | The deliveries of a round: senders in key order, each to its neighbours. There is one delivery per link entry, each from a listed sender to one of its listed neighbours. |
| Rounds.Step | distance_vector_animated.py:118-122 | One delivery succeeds exactly when its lookups succeed. It then changes only the receiver's table, keeps every table's keys, and adds 0 or 1 to the count. |
| Rounds.Deliver | distance_vector_animated.py:117-122 | A sequence of deliveries keeps the tables' keys, and the count grows by at most one per delivery. |
| Rounds.Round | distance_vector_animated.py:112-122 | One round keeps every table's keys. Its count `aggiornamenti` never exceeds the total number of link entries. |
| Rounds.Run | distance_vector_animated.py:110-134 | A run has at most `max_iter` rounds. A run that stopped on a round with no change has at least one round. A run that did not stop early has exactly `max_iter` rounds. |
| Rounds.InitialTables | distance_vector_animated.py:104-108 | Every node's table is `InitialTable(node, its links, all names in key order)`. |
| Rounds.Simulation | distance_vector_animated.py:96-134 | `simula` runs at most `max_iter` rounds after initialising. |
| RoundSafety.ValidWired | distance_vector_animated.py:117-120 | When every link is known at both ends, every scheduled delivery goes between two nodes that list each other. |
| RoundSafety.StepShaped | distance_vector_animated.py:47-52 | A delivery between neighbours, on tables with a row for every node, succeeds and keeps that shape. |
| RoundSafety.DeliverShaped | distance_vector_animated.py:117-122 | A sequence of such deliveries all succeed and keep the shape. |
| RoundSafety.ScheduleDeliverable | distance_vector_animated.py:117-120 | On such a network every delivery of a round is between neighbours. |
| RoundSafety.RoundShaped | distance_vector_animated.py:112-122 | On such a network a round from shaped tables succeeds, and its tables are shaped. |
| RoundSafety.RunQuiet | distance_vector_animated.py:132-134 | A round with no change ends the run after one round, with that round's tables. |
| RoundSafety.RunBusy | distance_vector_animated.py:110-134 | A round with changes is followed by the rest of the run, with one round fewer to go. |
| RoundSafety.RunShaped | distance_vector_animated.py:110-134 | On such a network a run from shaped tables succeeds, and its tables are shaped. |
| RoundSafety.InitialShaped | distance_vector_animated.py:104-108 | The initial tables of a valid network give every node a row for every node. |
| RoundSafety.SimulationSafe | distance_vector_animated.py:96-134 | On a valid network `simula` raises no KeyError. |
| RoundProperties.StepDescends | distance_vector_animated.py:117-122 | A delivery never lengthens a row. It is counted exactly when it made some row strictly shorter, and otherwise it changed nothing. |
| RoundProperties.DeliverDescends | distance_vector_animated.py:117-122 | Deliveries never lengthen a row. With no count they change nothing; with a count some row ends strictly shorter. |
| RoundProperties.RoundQuiet | distance_vector_animated.py:112-134 | A round never lengthens a row. It counts zero changes exactly when every table equals its snapshot, so the convergence test is exact. |
| RoundProperties.RunDescends | distance_vector_animated.py:110-134 | A run never lengthens a row of its starting tables. When it stops on a round with no change, one more round would change nothing. |
| RoundProperties.StepConsistent | distance_vector_animated.py:42-58 | A delivery keeps every table's invariant, own row (self, 0) included. |
| RoundProperties.DeliverConsistent | distance_vector_animated.py:117-122 | So do any sequence of deliveries. |
| RoundProperties.RunConsistent | distance_vector_animated.py:110-134 | So does a run of any number of rounds. |
| RoundProperties.InitialConsistent | distance_vector_animated.py:104-108 | The initial tables of a valid network all hold the invariant. |
| RoundProperties.SimulationOutcome | distance_vector_animated.py:96-134 | On a valid network `simula` raises no KeyError and runs at most `max_iter` rounds. It runs all of them unless it stops at a fixed point. It never lengthens a row of the initial tables, keeps every table's keys, and leaves every router its row (self, 0). |
| Simulation.Receive | distance_vector_animated.py:120-122 | `nodi[vicino].aggiorna_tabella(nome, vettore)`, with the count, is exactly one `Step` on the node tables. No other node's table changes. |
| Simulation.Broadcast | distance_vector_animated.py:118-122 | The inner loop delivers the sender's snapshot vector to each neighbour in link order. The node tables end as `Deliver` of those deliveries, and keep their shape. |
| Simulation.RunRound | distance_vector_animated.py:112-122 | The snapshot is taken before any update, then every sender's copied vector is delivered. The node tables and the count end exactly as `Round` of the tables before the round. |
| Simulation.InitializeAll | distance_vector_animated.py:104-108 | Every node, in key order, initialises its table from the list of all names. |
| Simulation.InitialTablesOf | distance_vector_animated.py:107-108 | The node tables are then exactly `InitialTables`. |
| Simulation.Iterate | distance_vector_animated.py:110-134 | The round loop, with its `break`, ends exactly as `Run` of its starting tables. This gives the number of rounds run and whether the last one changed nothing. |
| Simulation.Simulate | distance_vector_animated.py:96-134 | `simula` on the node objects ends with the tables, rounds and convergence flag of `Simulation`. |
| Example.DiamondValid | distance_vector_animated.py:141-152 | The network of `main` lists every node once and every link at both ends. |
| Example.MainSimulation | distance_vector_animated.py:164 | `simula` on that network, with the default `max_iter` of 10, raises no KeyError. It runs at most 10 rounds and every router keeps its own row. |
| Example.FirstTable | distance_vector_animated.py:25-32 | A's first table is A (A, 0), B (B, 1), C (C, 4), D (None, inf). |
| Example.FirstVector | distance_vector_animated.py:40 | B's first vector is A 1, B 0, C 2, D 7. |
| Example.FirstDelivery | distance_vector_animated.py:50-57 | A relaxes against B's first vector: C becomes (B, 3) and D becomes (B, 8). B, offered at 1 + 0, equal to its direct link, keeps its row, and A keeps (A, 0). |
| Example.OneWaySchedule | distance_vector_animated.py:117-120 | On a network where a lists b but b lists nobody, a round is the single delivery from a to b. |
| Example.OneWayRoundFails | distance_vector_animated.py:48 | That delivery looks up a among b's neighbours and fails. |
| Example.OneWayFails | distance_vector_animated.py:96-134 | So `simula` on that network raises KeyError whenever `max_iter` is positive. |

## Left out

- Console output: `stampa_tabella` (:60-71) and the `print` calls of `simula` (:111, :125-126, :133).
- Drawing: `disegna_grafo` (:76-91), the networkx graph and the matplotlib calls of `main` (:155-165), including the timed pause.
- `copy.deepcopy` (:115) is modelled as a value copy of every table taken before the round. The copied node objects themselves are not modelled; the links they carry are the same constants.
- Floating point: `float('inf')` and Python numbers are replaced by `Dist` (a natural number or `Inf`), and link costs by `nat`. Negative or fractional costs are not modelled.
- Convergence to true shortest paths is not stated. The code never checks it. The model proves only that distances never grow and that an early stop is a fixed point.
- The state after a KeyError is not modelled. The source stops with an exception, possibly after part of a table was updated; the value model yields `None` for the whole run.
- `Nodes.Node.Update`: its loop takes the vector's destinations in an arbitrary order (`:|`) instead of the dict's insertion order. The outcome is the same, since each destination is visited once and only its own row is touched.
- `Nodes.Node.constructor`: `vicini` is assigned once right after construction (:149-152). It is modelled as constant fields set by the constructor, together with the order in which the dict yields its keys.
- `Simulation.Simulate`: it requires that every link is known at both ends and that `nodi` maps each name to the node of that name, as `main` builds it. Without the first, the source raises KeyError; that path is modelled by `Rounds.Simulation` returning `None` (`Example.OneWayFails`).
- The imperative methods work on a map from names to `Node` objects. The map stands for `nodi`; its key order is passed as the sequence of names that `list(nodi.keys())` yields.
