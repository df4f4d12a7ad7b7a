# Best-route planner, modelled in Dafny

This project models the exact route planner of Lucidity-Best-Route
(`BestRoutePlanner` in `best_route/scheduler.py`). One courier starts at a
location at time 0 and must pick up every order at its restaurant, no earlier
than that restaurant's ready time, and then drop it at its consumer. The
planner runs a depth-first branch-and-bound search over the PICK/DROP orderings
that respect precedence. It prunes a node when the current time plus the
cheapest single hop to a remaining target is not below the best time found so
far. It returns the legs (commands) of the fastest complete plan and that
plan's total minutes.

Layout: the record files follow the repository's modules; `wrappers.dfy`, `routes.dfy` and `search_space.dfy` are the model's own.

- `geo.dfy`, `enums.dfy`, `commands.dfy`, `models.dfy`, `travel_strategy.dfy`
  hold the records. These are `Location`, `ActionType`/`Notes` with their wire
  strings, `Command`, and `Restaurant`/`Consumer`/`Order`/`InputData`. The
  travel cost is an abstract function `(Location, Location) -> real`.
- `routes.dfy` defines what a plan is. `Schedule` gives the legs an action
  sequence produces, with the PICK and DROP timing rules. `Finish` gives its
  completion time. `Completes` holds for a legal action sequence that delivers
  everything.
- `search_space.dfy` is the reference definition of the search.
  - `Completions` lists every completion of a search state in the order the
    depth-first search meets them: PICK branches first, then DROP branches,
    both in the orders' insertion order.
  - `FoldBest` offers those completions one by one to a best-so-far
    accumulator that is replaced only on strict `<`.
  - `Targets` is the lower bound's target list.
- `scheduler.dfy` holds the planner itself. `BuildTables` is the constructor's
  lookup tables, with the key-error path. The class `BestRoutePlanner` carries
  the search state as fields. `LowerBound` is a loop building the targets.
  `Dfs` is recursive; it does the add/append and pop/remove undo through `PickLoop`/`DropLoop` and `TryPick`/`TryDrop`. `Plan` runs
  the search from the start. The file ends with the lemmas about what a
  returned plan is.

The central contract is `Dfs`'s. It leaves `picked`, `delivered` and `steps`
exactly as it found them. Its new best equals `FoldBest` of the old best over
`Completions` of the current node, so pruned subtrees never change the result.

From that, `Plan` proves `IsBestPlan`. The returned legs are those of a
complete plan, and the total is that plan's completion time. No complete plan
finishes earlier. Among equally fast plans, it is the first one the search
enumerates.

## Model

| member | source | states |
|---|---|---|
| Scheduler.FirstWhere | best_route/scheduler.py:19-20 | the first order (in insertion order) an order-table comprehension would fail on, or none when every order resolves |
| Scheduler.ToMap | best_route/scheduler.py:19-21 | an order-keyed table has exactly the order ids as keys and maps each order's id to that order's value |
| Scheduler.BuildTables | best_route/scheduler.py:19-21 | success exactly when every order names a known restaurant and consumer; then pickup location, drop location and ready time per order id; otherwise the key error of the first missing restaurant over all orders, or, if none, of the first missing consumer |
| Scheduler.BestRoutePlanner.constructor | best_route/scheduler.py:15-21 | the planner keeps the input and strategy and its tables are those of BuildTables; the search problem is well formed |
| Scheduler.MinHop | best_route/scheduler.py:37 | the value is at most the travel time to every target and equals the travel time to one of them |
| Scheduler.BestRoutePlanner.LowerBound | best_route/scheduler.py:28-38 | never below the current time; equal to it when no target is left; otherwise current time plus the travel time to some remaining target, and no more than current time plus the travel time to any; at most the completion time of every way to finish from the node |
| SearchSpace.TargetsCover | best_route/scheduler.py:30-34 | the destination of every legal next action is among the lower bound's targets |
| SearchSpace.TargetsEmpty | best_route/scheduler.py:35-36 | on a reachable state the target list is empty exactly when every order is delivered |
| SearchSpace.CheapestHopAdmissible | best_route/scheduler.py:35-38 | current time plus the cheapest hop to a target (or the current time with no target) never exceeds the completion time of any way to finish, for a non-negative cost |
| SearchSpace.PruneKeepsBest | best_route/scheduler.py:47-48 | when such a bound is not below the best time, no completion of the node can change the best |
| SearchSpace.GoalOffer | best_route/scheduler.py:42-45 | at the goal the only route offered is the current path, replacing the best only when strictly faster |
| SearchSpace.FoldBestSpec | best_route/scheduler.py:43-44 | the accumulated best is no worse than the initial one or any candidate, and it is either unchanged or the first candidate strictly faster than the initial best and every earlier candidate |
| SearchSpace.FoldConcat | best_route/scheduler.py:50-76 | offering two lists of candidates in turn is offering their concatenation |
| SearchSpace.CompletionsSound | best_route/scheduler.py:50-76 | every enumerated route is legal and delivers every order |
| SearchSpace.CompletionsComplete | best_route/scheduler.py:50-76 | every legal route that delivers every order is enumerated |
| SearchSpace.CompletionsNonEmpty | best_route/scheduler.py:42-76 | a reachable state always has a completion, so the search always finds a plan |
| SearchSpace.NodeFold | best_route/scheduler.py:50-76 | the pick loop followed by the drop loop offers all completions of a non-goal node in enumeration order |
| Scheduler.BestRoutePlanner.Dfs | best_route/scheduler.py:40-76 | restores picked, delivered and steps exactly; the new best is the old best folded over every completion of the node (goal test, pruning and both loops) |
| Scheduler.BestRoutePlanner.PickLoop | best_route/scheduler.py:50-64 | restores the search state; offers the completions that start with a pickup, in the orders' insertion order |
| Scheduler.BestRoutePlanner.TryPick | best_route/scheduler.py:51-64 | for an unpicked order pushes its PICK leg and the id, searches below, pops both; restores the state and continues the fold by that order's pickup branch |
| Scheduler.BestRoutePlanner.DropLoop | best_route/scheduler.py:66-76 | restores the search state; offers the completions that start with a drop-off, in the orders' insertion order |
| Scheduler.BestRoutePlanner.TryDrop | best_route/scheduler.py:67-76 | for a picked, undelivered order pushes its DROP leg and the id, searches below, pops both; restores the state and continues the fold by that order's drop-off branch |
| Scheduler.SearchOutcome | best_route/scheduler.py:43-44 | folding all complete plans into an infinite best gives a finite time whose plan is optimal and first-found among the optimal ones |
| Scheduler.BestRoutePlanner.Plan | best_route/scheduler.py:23-79 | the result is the best plan: a complete plan's legs and completion time, no complete plan faster, first-found on ties |
| Scheduler.PlanRoute | best_route/scheduler.py:15-79 | a key error exactly when an order's restaurant or consumer is missing (naming the first one), otherwise the best plan |
| Routes.StepObeysRules | best_route/scheduler.py:52-71 | a PICK leg arrives at time plus travel, waits max(0, ready − arrive), departs at arrive plus wait, which is at least the ready time, with WAITED exactly when the wait is positive and ON_TIME otherwise; a DROP leg never waits, departs on arrival, notes DELIVERED |
| Routes.ScheduleLegs | best_route/scheduler.py:58-74 | one leg per action, each obeying those rules, each leaving from where the previous one ended and arriving at its departure plus the travel time, the first leaving the start point at the start time |
| Routes.ScheduleEnds | best_route/scheduler.py:62-74 | the completion time is the last leg's departure and the end point its destination |
| Routes.ScheduleActions | best_route/scheduler.py:58-71 | the kind and order id of the legs give back the action sequence |
| Routes.ScheduleSnoc | best_route/scheduler.py:60-62 | appending an action appends exactly its leg, started at the previous completion time and place |
| Routes.FinishMonotone | best_route/scheduler.py:53-57 | with non-negative travel a route never finishes before it starts |
| Routes.FirstHop | best_route/scheduler.py:37-38 | a non-empty route finishes no earlier than the start time plus the travel time to its first destination |
| Routes.GoalTest | best_route/scheduler.py:42 | on reachable states the count test equals "every order delivered" |
| Routes.CompletionIds | best_route/scheduler.py:50-67 | every action of a completion names one of the orders |
| Routes.CompletionCounts | best_route/scheduler.py:50-67 | a completion picks each not-yet-picked order exactly once and drops each undelivered order exactly once |
| Routes.CompletionLength | best_route/scheduler.py:42-67 | a completion has one action per missing pickup and per missing drop-off |
| Routes.CompletionOrder | best_route/scheduler.py:66-67 | no order is picked at or after a drop of the same order |
| Routes.CompletionEndsWithDrop | best_route/scheduler.py:42-45 | a non-empty completion ends with a drop-off |
| Scheduler.PlanCoversOrders | tests/test_scheduler.py:21-25 | a returned plan has 2·N legs, each naming an order, with exactly one PICK and exactly one DROP per order |
| Scheduler.PlanPicksBeforeDrops | best_route/scheduler.py:66-67 | in a returned plan no PICK of an order comes at or after a DROP of it |
| Scheduler.PlanLegRules | tests/test_scheduler.py:26 | every leg obeys the PICK/DROP rules; legs chain from the courier's start at time 0; a non-empty plan ends with a DROP whose departure is the total |
| Scheduler.NoOrdersPlan | best_route/scheduler.py:42-45 | with no orders the plan has no legs and total 0 |

## Left out

- Times are `real`. Floating-point rounding is not modelled, and neither is `float("inf")` as a travel time.
- The travel cost is total, finite and non-negative. The case where every bound is infinite (non-positive speed) is excluded. In that case the code returns an infinite total with no legs and does not raise an error.
- The haversine distance and the speed conversion in `best_route/geo.py` are not part of this model. `HaversineTravelStrategy` is only the abstract `TravelCost` parameter.
- JSON parsing, the command line and output in `best_route/solve.py` are not part of this model. Neither is the factory dispatch in `best_route/factory.py` or `Command.execute`, which only serialises a leg.
- The orders dictionary is modelled as a sequence of orders in insertion order. Each dictionary key is taken to be its order's `id`, and ids are distinct.
- `lower_bound` and `dfs` are modelled as methods of the planner, not as nested closures. `picked`, `delivered`, `steps` and the `best` accumulator are fields of the planner, which `Plan` resets at the start. The two loops of `dfs` and each loop iteration are separate methods of the planner. They perform the same steps in the same order.
- The model keeps these facts of the code:
  - `picked` keeps delivered orders, so delivered ⊆ picked (`best_route/scheduler.py:50-76`).
  - The goal test compares the number of delivered orders with the number of orders (`best_route/scheduler.py:42`).
  - With infinite travel the code returns an infinite total and no legs and raises no error (`best_route/geo.py:23`, `best_route/scheduler.py:47-48`, `best_route/scheduler.py:79`). That case lies outside this model, as noted above.
