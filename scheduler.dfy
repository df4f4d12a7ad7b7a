/** The exact branch-and-bound route planner: the lookup tables built from the
    input, the lower bound, the depth-first search with its push/undo
    discipline and its best-so-far accumulator, and what the returned plan is. */
module Scheduler {
  import opened Wrappers
  import opened Geo
  import opened Enums
  import opened Commands
  import opened Models
  import opened TravelStrategy
  import opened Routes
  import opened SearchSpace

  // ------------------------------------------------------------ lookup tables

  /** Building the tables fails with a key error when an order names a
      restaurant or a consumer that the input does not have. */
  datatype Error =
    | MissingRestaurant(orderId: OrderId, restaurantId: string)
    | MissingConsumer(orderId: OrderId, consumerId: string)

  /** The index of the first order that is `bad`, if any. */
  function FirstWhere(orders: seq<Order>, bad: Order -> bool): (r: Option<nat>)
    ensures r.Some? ==> r.value < |orders| && bad(orders[r.value])
                        && forall j :: 0 <= j < r.value ==> !bad(orders[j])
    ensures r.None? ==> forall j :: 0 <= j < |orders| ==> !bad(orders[j])
  {
    if orders == [] then None
    else if bad(orders[0]) then Some(0)
    else
      match FirstWhere(orders[1..], bad)
      case None => None
      case Some(k) => Some(k + 1)
  }

  /** Every order names a known restaurant and a known consumer. */
  ghost predicate Resolved(data: InputData)
  {
    forall j :: 0 <= j < |data.orders| ==>
      data.orders[j].restaurantId in data.restaurants && data.orders[j].consumerId in data.consumers
  }

  /** One entry per order id: its restaurant's location, its consumer's
      location and its restaurant's ready time. */
  ghost predicate TablesFor(data: InputData, t: Tables)
  {
    var orders := data.orders;
    var ids := set oid | oid in OrderIds(orders);
    && t.pickLocs.Keys == ids
    && t.dropLocs.Keys == ids
    && t.readyTimes.Keys == ids
    && forall j :: 0 <= j < |orders| ==>
         && orders[j].restaurantId in data.restaurants && orders[j].consumerId in data.consumers
         && orders[j].id in t.pickLocs && orders[j].id in t.dropLocs && orders[j].id in t.readyTimes
         && t.pickLocs[orders[j].id] == data.restaurants[orders[j].restaurantId].location
         && t.dropLocs[orders[j].id] == data.consumers[orders[j].consumerId].location
         && t.readyTimes[orders[j].id] == data.restaurants[orders[j].restaurantId].prepTimeMin
  }

  /** The error names the first order, in insertion order, whose restaurant is
      missing; only when every restaurant is known, the first order whose
      consumer is missing (the pickup table is built before the drop table). */
  ghost predicate Reported(data: InputData, e: Error)
  {
    var orders := data.orders;
    match e
    case MissingRestaurant(oid, rid) =>
      exists i :: 0 <= i < |orders| && orders[i].id == oid && orders[i].restaurantId == rid
                  && rid !in data.restaurants
                  && forall j :: 0 <= j < i ==> orders[j].restaurantId in data.restaurants
    case MissingConsumer(oid, cid) =>
      && (forall j :: 0 <= j < |orders| ==> orders[j].restaurantId in data.restaurants)
      && exists i :: 0 <= i < |orders| && orders[i].id == oid && orders[i].consumerId == cid
                     && cid !in data.consumers
                     && forall j :: 0 <= j < i ==> orders[j].consumerId in data.consumers
  }

  /** The dictionary comprehension over the orders: key `ids[j]` maps to `vals[j]`. */
  function ToMap<V>(ids: seq<OrderId>, vals: seq<V>): (m: map<OrderId, V>)
    requires |ids| == |vals| && Distinct(ids)
    ensures m.Keys == set oid | oid in ids
    ensures forall j :: 0 <= j < |ids| ==> ids[j] in m && m[ids[j]] == vals[j]
  {
    map j | 0 <= j < |ids| :: ids[j] := vals[j]
  }

  /** Per order, in insertion order: its restaurant's location, its consumer's
      location, its restaurant's ready time. */
  function PickColumn(data: InputData): (col: seq<Location>)
    requires Resolved(data)
    ensures |col| == |data.orders|
    ensures forall j :: 0 <= j < |col| ==> col[j] == data.restaurants[data.orders[j].restaurantId].location
  {
    seq(|data.orders|, j requires 0 <= j < |data.orders| => data.restaurants[data.orders[j].restaurantId].location)
  }

  function DropColumn(data: InputData): (col: seq<Location>)
    requires Resolved(data)
    ensures |col| == |data.orders|
    ensures forall j :: 0 <= j < |col| ==> col[j] == data.consumers[data.orders[j].consumerId].location
  {
    seq(|data.orders|, j requires 0 <= j < |data.orders| => data.consumers[data.orders[j].consumerId].location)
  }

  function ReadyColumn(data: InputData): (col: seq<real>)
    requires Resolved(data)
    ensures |col| == |data.orders|
    ensures forall j :: 0 <= j < |col| ==> col[j] == data.restaurants[data.orders[j].restaurantId].prepTimeMin
  {
    seq(|data.orders|, j requires 0 <= j < |data.orders| => data.restaurants[data.orders[j].restaurantId].prepTimeMin)
  }

  /** The three tables, when every order resolves. */
  function ResolvedTables(data: InputData): (t: Tables)
    requires DistinctIds(data.orders) && Resolved(data)
    ensures TablesFor(data, t)
  {
    var ids := OrderIds(data.orders);
    assert Distinct(ids);
    Tables(ToMap(ids, PickColumn(data)), ToMap(ids, DropColumn(data)), ToMap(ids, ReadyColumn(data)))
  }

  /** The planner's three lookup tables, or the key error building them raises. */
  function BuildTables(data: InputData): (r: Result<Tables, Error>)
    requires DistinctIds(data.orders)
    ensures r.Success? <==> Resolved(data)
    ensures r.Success? ==> TablesFor(data, r.value)
    ensures r.Failure? ==> Reported(data, r.error)
  {
    var orders := data.orders;
    match FirstWhere(orders, (o: Order) => o.restaurantId !in data.restaurants)
    case Some(i) => Failure(MissingRestaurant(orders[i].id, orders[i].restaurantId))
    case None =>
      match FirstWhere(orders, (o: Order) => o.consumerId !in data.consumers)
      case Some(i) => Failure(MissingConsumer(orders[i].id, orders[i].consumerId))
      case None => Success(ResolvedTables(data))
  }

  /** The search problem a valid input defines. */
  ghost function ProblemOf(data: InputData, strategy: TravelCost): Problem
    requires DistinctIds(data.orders) && Resolved(data)
  {
    Problem(OrderIds(data.orders), BuildTables(data).value, strategy, data.courierStart)
  }

  // ----------------------------------------------------------------- result

  datatype PlanResult = PlanResult(steps: seq<Command>, totalMinutes: real)

  /** `acts` is, among the fastest plans, the first that the search enumerates. */
  ghost predicate FirstFound(p: Problem, acts: seq<Action>)
  {
    var all := Completions(p, Start);
    exists k :: 0 <= k < |all| && all[k] == acts && FirstBelow(p, Best(Inf, []), all, k)
  }

  /** What the planner returns: the legs of a complete, precedence-respecting
      plan and that plan's completion time; no complete plan finishes earlier;
      and among the plans that finish equally early it is the first the search
      meets. */
  ghost predicate IsBestPlan(p: Problem, r: PlanResult)
  {
    var acts := Actions(r.steps);
    && IsPlan(p, acts)
    && r.steps == Schedule(p, 0.0, p.courierStart, acts)
    && r.totalMinutes == Makespan(p, acts)
    && (forall other :: IsPlan(p, other) ==> r.totalMinutes <= Makespan(p, other))
    && FirstFound(p, acts)
  }

  // ---------------------------------------------------------------- planner

  /** Appending one leg to the legs of `path`. */
  lemma AppendLeg(p: Problem, path: seq<Action>, a: Action, cmd: Command)
    requires cmd == StepCommand(p, a, Makespan(p, path), EndLoc(p, p.courierStart, path))
    ensures Schedule(p, 0.0, p.courierStart, path + [a]) == Schedule(p, 0.0, p.courierStart, path) + [cmd]
    ensures Makespan(p, path + [a]) == cmd.departTime
    ensures EndLoc(p, p.courierStart, path + [a]) == cmd.toLoc
  {
    ScheduleSnoc(p, 0.0, p.courierStart, path, a);
  }

  /** Folding every complete plan, in enumeration order, into an initially
      infinite best yields a finite time, and the plan it keeps is the best
      plan. */
  lemma SearchOutcome(p: Problem, b: Best)
    requires p.WellFormed()
    requires b == FoldBest(p, Best(Inf, []), Extend([], Completions(p, Start)))
    ensures b.bound.Fin?
    ensures IsBestPlan(p, PlanResult(Schedule(p, 0.0, p.courierStart, b.path), b.bound.t))
  {
    var all := Completions(p, Start);
    ExtendEmpty(all);
    FoldBestSpec(p, Best(Inf, []), all);
    CompletionsNonEmpty(p, Start);
    assert !Below(Makespan(p, all[0]), b.bound);
    var k :| 0 <= k < |all| && FirstBelow(p, Best(Inf, []), all, k)
             && b == Best(Fin(Makespan(p, all[k])), all[k]);
    CompletionsSound(p, Start);
    ScheduleRules(p, 0.0, p.courierStart, b.path);
    forall other | IsPlan(p, other) ensures b.bound.t <= Makespan(p, other) {
      CompletionsComplete(p, Start, other);
    }
  }

  /** The cheapest travel time from `loc` to any of `targets` (the builtin
      `min` over a generator). */
  function MinHop(cost: TravelCost, loc: Location, targets: seq<Location>): (m: real)
    requires targets != []
    ensures forall t :: t in targets ==> m <= cost(loc, t)
    ensures exists t :: t in targets && m == cost(loc, t)
    decreases |targets|
  {
    if |targets| == 1 then cost(loc, targets[0])
    else
      var rest := MinHop(cost, loc, targets[1..]);
      assert forall t :: t in targets[1..] ==> t in targets;
      if cost(loc, targets[0]) <= rest then cost(loc, targets[0]) else rest
  }

  class BestRoutePlanner {
    const data: InputData
    const strategy: TravelCost
    const orderIds: seq<OrderId>
    const pickLocs: map<OrderId, Location>
    const dropLocs: map<OrderId, Location>
    const readyTimes: map<OrderId, real>

    // The state of one run of Plan: the best plan so far (time and legs), and the
    // sets and path the depth-first search changes on entry to a branch and
    // restores on exit.
    var best: Bound
    var bestSteps: seq<Command>
    ghost var bestPath: seq<Action>
    var picked: set<OrderId>
    var delivered: set<OrderId>
    var steps: seq<Command>

    function Prob(): Problem
    {
      Problem(orderIds, Tables(pickLocs, dropLocs, readyTimes), strategy, data.courierStart)
    }

    ghost predicate Valid()
      reads this`bestSteps, this`bestPath
    {
      Prob().WellFormed() && bestSteps == Schedule(Prob(), 0.0, data.courierStart, bestPath)
    }

    constructor (data: InputData, strategy: TravelCost)
      requires DistinctIds(data.orders) && NonNegative(strategy) && Resolved(data)
      ensures this.data == data && this.strategy == strategy
      ensures Prob() == ProblemOf(data, strategy)
      ensures Valid()
    {
      var tables := BuildTables(data).value;
      this.data := data;
      this.strategy := strategy;
      orderIds := OrderIds(data.orders);
      pickLocs := tables.pickLocs;
      dropLocs := tables.dropLocs;
      readyTimes := tables.readyTimes;
      best, bestSteps, bestPath := Inf, [], [];
      picked, delivered, steps := {}, {}, [];
      new;
      assert Distinct(orderIds);
    }

    /** The current time plus the cheapest single hop to any remaining target;
        it never undercuts the completion time of any way to finish from here. */
    method LowerBound(currTime: real, currLoc: Location) returns (lb: real)
      requires Valid() && Reachable(Prob(), Progress(picked, delivered))
      ensures lb >= currTime
      ensures Targets(Prob(), Progress(picked, delivered)) == [] ==> lb == currTime
      ensures forall t :: t in Targets(Prob(), Progress(picked, delivered)) ==>
        lb <= currTime + strategy(currLoc, t)
      ensures Targets(Prob(), Progress(picked, delivered)) != [] ==>
        exists t :: t in Targets(Prob(), Progress(picked, delivered)) && lb == currTime + strategy(currLoc, t)
      ensures forall c :: Completes(Prob(), Progress(picked, delivered), c) ==>
        lb <= Finish(Prob(), currTime, currLoc, c)
    {
      ghost var p := Prob();
      ghost var s := Progress(picked, delivered);
      var targets: seq<Location> := [];
      for i := 0 to |orderIds|
        invariant targets == TargetsOf(p, s, i)
      {
        var oid := orderIds[i];
        if oid !in picked {
          targets := targets + [pickLocs[oid]];
        }
        if oid !in delivered && oid in picked {
          targets := targets + [dropLocs[oid]];
        }
      }
      if targets == [] {
        lb := currTime;
      } else {
        lb := currTime + MinHop(strategy, currLoc, targets);
      }
      CheapestHopAdmissible(p, s, currTime, currLoc, lb);
    }

    /** The depth-first search below the node reached by `path`. It leaves
        `picked`, `delivered` and `steps` as it found them, and offers every
        completion of the node, in enumeration order, to the best-so-far
        accumulator (pruned subtrees cannot change it). */
    method Dfs(currTime: real, currLoc: Location, ghost path: seq<Action>)
      requires Valid() && Reachable(Prob(), Progress(picked, delivered))
      requires steps == Schedule(Prob(), 0.0, data.courierStart, path)
      requires currTime == Makespan(Prob(), path)
      requires currLoc == EndLoc(Prob(), data.courierStart, path)
      modifies this
      ensures Valid()
      ensures picked == old(picked) && delivered == old(delivered) && steps == old(steps)
      ensures Best(best, bestPath) ==
        FoldBest(Prob(), old(Best(best, bestPath)), Extend(path, Completions(Prob(), Progress(picked, delivered))))
      decreases Prob().AllIds() - picked, Prob().AllIds() - delivered, 2
    {
      ghost var p := Prob();
      ghost var s := Progress(picked, delivered);
      ghost var b0 := Best(best, bestPath);
      if |delivered| == |orderIds| {
        GoalOffer(p, s, b0, path);
        if Below(currTime, best) {
          best := Fin(currTime);
          bestSteps := steps;
          bestPath := path;
        }
        return;
      }
      var lb := LowerBound(currTime, currLoc);
      if !Below(lb, best) {
        PruneKeepsBest(p, s, b0, path, lb);
        return;
      }
      PickLoop(currTime, currLoc, path);
      ghost var mid := Best(best, bestPath);
      DropLoop(currTime, currLoc, path);
      NodeFold(p, s, b0, path, mid, Best(best, bestPath));
    }

    /** The loop over the orders that tries to pick each one next. */
    method PickLoop(currTime: real, currLoc: Location, ghost path: seq<Action>)
      requires Valid() && Reachable(Prob(), Progress(picked, delivered))
      requires steps == Schedule(Prob(), 0.0, data.courierStart, path)
      requires currTime == Makespan(Prob(), path)
      requires currLoc == EndLoc(Prob(), data.courierStart, path)
      modifies this
      ensures Valid()
      ensures picked == old(picked) && delivered == old(delivered) && steps == old(steps)
      ensures Best(best, bestPath) ==
        FoldBest(Prob(), old(Best(best, bestPath)), Extend(path, PickBranches(Prob(), Progress(picked, delivered), |orderIds|)))
      decreases Prob().AllIds() - picked, Prob().AllIds() - delivered, 1
    {
      ghost var p := Prob();
      ghost var s := Progress(picked, delivered);
      ghost var b0 := Best(best, bestPath);
      ghost var steps0 := steps;
      for i := 0 to |orderIds|
        invariant Valid()
        invariant picked == s.picked && delivered == s.delivered && steps == steps0
        invariant Best(best, bestPath) == FoldBest(p, b0, Extend(path, PickBranches(p, s, i)))
      {
        TryPick(i, currTime, currLoc, path, b0);
      }
    }

    /** The loop over the orders that tries to drop each one next. */
    method DropLoop(currTime: real, currLoc: Location, ghost path: seq<Action>)
      requires Valid() && Reachable(Prob(), Progress(picked, delivered))
      requires steps == Schedule(Prob(), 0.0, data.courierStart, path)
      requires currTime == Makespan(Prob(), path)
      requires currLoc == EndLoc(Prob(), data.courierStart, path)
      modifies this
      ensures Valid()
      ensures picked == old(picked) && delivered == old(delivered) && steps == old(steps)
      ensures Best(best, bestPath) ==
        FoldBest(Prob(), old(Best(best, bestPath)), Extend(path, DropBranches(Prob(), Progress(picked, delivered), |orderIds|)))
      decreases Prob().AllIds() - picked, Prob().AllIds() - delivered, 1
    {
      ghost var p := Prob();
      ghost var s := Progress(picked, delivered);
      ghost var b0 := Best(best, bestPath);
      ghost var steps0 := steps;
      for i := 0 to |orderIds|
        invariant Valid()
        invariant picked == s.picked && delivered == s.delivered && steps == steps0
        invariant Best(best, bestPath) == FoldBest(p, b0, Extend(path, DropBranches(p, s, i)))
      {
        TryDrop(i, currTime, currLoc, path, b0);
      }
    }

    /** One turn of the pick loop: if the `i`-th order is not yet picked, push
        its pickup leg, search below it and undo the push; this offers the
        completions that begin by picking that order. */
    method TryPick(i: nat, currTime: real, currLoc: Location, ghost path: seq<Action>, ghost b0: Best)
      requires Valid() && Reachable(Prob(), Progress(picked, delivered)) && i < |orderIds|
      requires steps == Schedule(Prob(), 0.0, data.courierStart, path)
      requires currTime == Makespan(Prob(), path)
      requires currLoc == EndLoc(Prob(), data.courierStart, path)
      requires Best(best, bestPath) == FoldBest(Prob(), b0, Extend(path, PickBranches(Prob(), Progress(picked, delivered), i)))
      modifies this
      ensures Valid()
      ensures picked == old(picked) && delivered == old(delivered) && steps == old(steps)
      ensures Best(best, bestPath) == FoldBest(Prob(), b0, Extend(path, PickBranches(Prob(), Progress(picked, delivered), i + 1)))
      decreases Prob().AllIds() - picked, Prob().AllIds() - delivered, 0
    {
      ghost var p := Prob();
      ghost var s := Progress(picked, delivered);
      ghost var before := Best(best, bestPath);
      var oid := orderIds[i];
      if oid !in picked {
        var cmd := PickCommand(Prob(), oid, currTime, currLoc);
        AppendLeg(p, path, Pick(oid), cmd);
        picked := picked + {oid};
        steps := steps + [cmd];
        assert Progress(picked, delivered) == Apply(s, Pick(oid));
        Dfs(cmd.departTime, cmd.toLoc, path + [Pick(oid)]);
        steps := steps[..|steps| - 1];
        picked := picked - {oid};
        assert steps == old(steps) && picked == s.picked;
        ExtendExtend(path, Pick(oid), Completions(p, Apply(s, Pick(oid))));
      } else {
        assert Extend(path, PickChunk(p, s, i)) == [];
      }
      PickLoopStep(p, s, b0, path, i, before, Best(best, bestPath));
    }

    /** One turn of the drop loop: if the `i`-th order is picked and not yet
        delivered, push its drop-off leg, search below it and undo the push. */
    method TryDrop(i: nat, currTime: real, currLoc: Location, ghost path: seq<Action>, ghost b0: Best)
      requires Valid() && Reachable(Prob(), Progress(picked, delivered)) && i < |orderIds|
      requires steps == Schedule(Prob(), 0.0, data.courierStart, path)
      requires currTime == Makespan(Prob(), path)
      requires currLoc == EndLoc(Prob(), data.courierStart, path)
      requires Best(best, bestPath) == FoldBest(Prob(), b0, Extend(path, DropBranches(Prob(), Progress(picked, delivered), i)))
      modifies this
      ensures Valid()
      ensures picked == old(picked) && delivered == old(delivered) && steps == old(steps)
      ensures Best(best, bestPath) == FoldBest(Prob(), b0, Extend(path, DropBranches(Prob(), Progress(picked, delivered), i + 1)))
      decreases Prob().AllIds() - picked, Prob().AllIds() - delivered, 0
    {
      ghost var p := Prob();
      ghost var s := Progress(picked, delivered);
      ghost var before := Best(best, bestPath);
      var oid := orderIds[i];
      if oid in picked && oid !in delivered {
        var cmd := DropCommand(Prob(), oid, currTime, currLoc);
        AppendLeg(p, path, Drop(oid), cmd);
        delivered := delivered + {oid};
        steps := steps + [cmd];
        assert Progress(picked, delivered) == Apply(s, Drop(oid));
        Dfs(cmd.departTime, cmd.toLoc, path + [Drop(oid)]);
        steps := steps[..|steps| - 1];
        delivered := delivered - {oid};
        assert steps == old(steps) && delivered == s.delivered;
        ExtendExtend(path, Drop(oid), Completions(p, Apply(s, Drop(oid))));
      } else {
        assert Extend(path, DropChunk(p, s, i)) == [];
      }
      DropLoopStep(p, s, b0, path, i, before, Best(best, bestPath));
    }

    /** Runs the search from the courier's start at time 0 with nothing picked. */
    method Plan() returns (r: PlanResult)
      requires Valid()
      modifies this
      ensures Valid()
      ensures IsBestPlan(Prob(), r)
    {
      best, bestSteps, bestPath := Inf, [], [];
      picked, delivered, steps := {}, {}, [];
      Dfs(0.0, data.courierStart, []);

      SearchOutcome(Prob(), Best(best, bestPath));
      r := PlanResult(bestSteps, best.t);
    }
  }

  /** Builds the planner for the input and runs it: the key error if an order
      names an unknown restaurant or consumer, otherwise the best plan. */
  method PlanRoute(data: InputData, strategy: TravelCost) returns (r: Result<PlanResult, Error>)
    requires DistinctIds(data.orders) && NonNegative(strategy)
    ensures r.Failure? <==> !Resolved(data)
    ensures r.Failure? ==> Reported(data, r.error)
    ensures r.Success? ==> Resolved(data) && IsBestPlan(ProblemOf(data, strategy), r.value)
  {
    var tables := BuildTables(data);
    if tables.Failure? {
      return Failure(tables.error);
    }
    var planner := new BestRoutePlanner(data, strategy);
    var plan := planner.Plan();
    return Success(plan);
  }

  // ------------------------------------------------- what a returned plan is

  /** A returned plan has one pickup leg and one drop-off leg per order and no
      other legs. */
  lemma PlanCoversOrders(p: Problem, r: PlanResult)
    requires p.WellFormed() && IsBestPlan(p, r)
    ensures |r.steps| == 2 * |p.orderIds|
    ensures forall k :: 0 <= k < |r.steps| ==> r.steps[k].orderId in p.AllIds()
    ensures forall oid :: oid in p.AllIds() ==>
      multiset(Actions(r.steps))[Pick(oid)] == 1 && multiset(Actions(r.steps))[Drop(oid)] == 1
  {
    var acts := Actions(r.steps);
    CompletionIds(p, Start, acts);
    CompletionCounts(p, Start, acts);
    CompletionLength(p, Start, acts);
    DistinctCard(p.orderIds);
    forall k | 0 <= k < |r.steps| ensures r.steps[k].orderId in p.AllIds() {
      assert acts[k].oid == r.steps[k].orderId;
    }
  }

  /** In a returned plan no order is picked at or after a leg that drops it. */
  lemma PlanPicksBeforeDrops(p: Problem, r: PlanResult)
    requires IsBestPlan(p, r)
    ensures forall i, j :: 0 <= j <= i < |r.steps| && r.steps[i].kind == PICK && r.steps[j].kind == DROP ==>
      r.steps[i].orderId != r.steps[j].orderId
  {
    var acts := Actions(r.steps);
    CompletionOrder(p, Start, acts);
    forall i, j | 0 <= j <= i < |r.steps| && r.steps[i].kind == PICK && r.steps[j].kind == DROP
      ensures r.steps[i].orderId != r.steps[j].orderId
    {
      assert acts[i] == Pick(r.steps[i].orderId) && acts[j] == Drop(r.steps[j].orderId);
    }
  }

  /** Every leg of a returned plan follows the pickup or drop-off rules; the legs
      chain from the courier's start at time 0; a plan with orders ends with a
      drop-off, and its total is that leg's departure. */
  lemma PlanLegRules(p: Problem, r: PlanResult)
    requires IsBestPlan(p, r)
    ensures forall k :: 0 <= k < |r.steps| ==> ObeysRules(p, r.steps[k], ActionOf(r.steps[k]))
    ensures forall k :: 0 < k < |r.steps| ==> Chained(r.steps[k - 1], r.steps[k])
    ensures r.steps != [] ==> r.steps[0].fromLoc == p.courierStart && r.steps[0].arriveTime == r.steps[0].travelMin
    ensures r.steps != [] ==>
      && r.steps[|r.steps| - 1].kind == DROP
      && r.totalMinutes == r.steps[|r.steps| - 1].departTime
  {
    var acts := Actions(r.steps);
    ScheduleRules(p, 0.0, p.courierStart, acts);
    if r.steps != [] {
      CompletionEndsWithDrop(p, Start, acts);
      assert acts[|acts| - 1] == ActionOf(r.steps[|r.steps| - 1]);
    }
  }

  /** With no orders the plan is empty and takes no time. */
  lemma NoOrdersPlan(p: Problem, r: PlanResult)
    requires p.orderIds == [] && IsBestPlan(p, r)
    ensures r.steps == [] && r.totalMinutes == 0.0
  {
    var acts := Actions(r.steps);
    CompletionLength(p, Start, acts);
    assert p.AllIds() == {};
  }
}
