/** What a route is: a sequence of PICK/DROP actions, the legs (commands) it
    produces from a start time and place, its completion time, and when it is a
    complete, precedence-respecting plan for the orders. */
module Routes {
  import opened Geo
  import opened Enums
  import opened Commands
  import opened TravelStrategy

  type OrderId = string

  /** The per-order lookup tables the planner builds once: pickup location,
      drop-off location and ready time of each order. */
  datatype Tables = Tables(
    pickLocs: map<OrderId, Location>,
    dropLocs: map<OrderId, Location>,
    readyTimes: map<OrderId, real>)

  /** Everything the search reads: the order ids in insertion order, the
      tables, the travel cost and the courier's start. */
  datatype Problem = Problem(
    orderIds: seq<OrderId>,
    tables: Tables,
    cost: TravelCost,
    courierStart: Location)
  {
    ghost function AllIds(): set<OrderId>
    {
      set oid | oid in orderIds
    }

    /* Table lookups. Every action of a plan names an order id (CompletionIds),
       and the tables are keyed by exactly those ids, so the placeholder after
       `else` is never what a plan sees. */

    function PickLoc(oid: OrderId): Location
    {
      if oid in tables.pickLocs then tables.pickLocs[oid] else courierStart
    }

    function DropLoc(oid: OrderId): Location
    {
      if oid in tables.dropLocs then tables.dropLocs[oid] else courierStart
    }

    function ReadyTime(oid: OrderId): real
    {
      if oid in tables.readyTimes then tables.readyTimes[oid] else 0.0
    }

    /** Ids are dictionary keys, the tables have one entry per id, and no leg
        costs negative time. */
    ghost predicate WellFormed()
    {
      && Distinct(orderIds)
      && tables.pickLocs.Keys == AllIds()
      && tables.dropLocs.Keys == AllIds()
      && tables.readyTimes.Keys == AllIds()
      && NonNegative(cost)
    }
  }

  predicate Distinct<T(==)>(s: seq<T>)
  {
    forall i, j :: 0 <= i < j < |s| ==> s[i] != s[j]
  }

  function Max(a: real, b: real): real
  {
    if a >= b then a else b
  }

  datatype Action = Pick(oid: OrderId) | Drop(oid: OrderId)

  /** Orders picked up so far (delivered ones stay in `picked`) and orders delivered. */
  datatype Progress = Progress(picked: set<OrderId>, delivered: set<OrderId>)

  const Start: Progress := Progress({}, {})

  function TargetLoc(p: Problem, a: Action): Location
  {
    match a
    case Pick(oid) => p.PickLoc(oid)
    case Drop(oid) => p.DropLoc(oid)
  }

  /** The leg that picks up `oid`, leaving `loc` at `time`: the courier waits
      at the restaurant until the food is ready. */
  function PickCommand(p: Problem, oid: OrderId, time: real, loc: Location): Command
  {
    var to := p.PickLoc(oid);
    var travel := p.cost(loc, to);
    var arrive := time + travel;
    var wait := Max(0.0, p.ReadyTime(oid) - arrive);
    Command(PICK, oid, loc, to, travel, wait, arrive, arrive + wait,
            if wait > 0.0 then WAITED.Value() else ON_TIME.Value())
  }

  /** The leg that delivers `oid`; there is no waiting at a drop-off. */
  function DropCommand(p: Problem, oid: OrderId, time: real, loc: Location): Command
  {
    var to := p.DropLoc(oid);
    var travel := p.cost(loc, to);
    var arrive := time + travel;
    Command(DROP, oid, loc, to, travel, 0.0, arrive, arrive, DELIVERED.Value())
  }

  function StepCommand(p: Problem, a: Action, time: real, loc: Location): Command
  {
    match a
    case Pick(oid) => PickCommand(p, oid, time, loc)
    case Drop(oid) => DropCommand(p, oid, time, loc)
  }

  /** The legs of `acts`, started at `loc` at `time`. */
  function Schedule(p: Problem, time: real, loc: Location, acts: seq<Action>): seq<Command>
    decreases |acts|
  {
    if acts == [] then []
    else
      var c := StepCommand(p, acts[0], time, loc);
      [c] + Schedule(p, c.departTime, c.toLoc, acts[1..])
  }

  /** The time at which `acts`, started at `loc` at `time`, is done. */
  function Finish(p: Problem, time: real, loc: Location, acts: seq<Action>): real
    decreases |acts|
  {
    if acts == [] then time
    else
      var c := StepCommand(p, acts[0], time, loc);
      Finish(p, c.departTime, c.toLoc, acts[1..])
  }

  /** Where the courier stands after `acts`. */
  function EndLoc(p: Problem, loc: Location, acts: seq<Action>): Location
    decreases |acts|
  {
    if acts == [] then loc else EndLoc(p, TargetLoc(p, acts[0]), acts[1..])
  }

  /** An order can be picked once, and dropped once after it was picked. */
  ghost predicate Legal(p: Problem, s: Progress, a: Action)
  {
    match a
    case Pick(oid) => oid in p.AllIds() && oid !in s.picked
    case Drop(oid) => oid in s.picked && oid !in s.delivered
  }

  function Apply(s: Progress, a: Action): Progress
  {
    match a
    case Pick(oid) => Progress(s.picked + {oid}, s.delivered)
    case Drop(oid) => Progress(s.picked, s.delivered + {oid})
  }

  ghost predicate Reachable(p: Problem, s: Progress)
  {
    s.delivered <= s.picked <= p.AllIds()
  }

  /** `acts` is a sequence of legal actions that, from `s`, delivers every order. */
  ghost predicate Completes(p: Problem, s: Progress, acts: seq<Action>)
    decreases |acts|
  {
    if acts == [] then s.delivered == p.AllIds()
    else Legal(p, s, acts[0]) && Completes(p, Apply(s, acts[0]), acts[1..])
  }

  /** A complete, precedence-respecting plan from the start. */
  ghost predicate IsPlan(p: Problem, acts: seq<Action>)
  {
    Completes(p, Start, acts)
  }

  /** The action a leg performs. */
  function ActionOf(c: Command): Action
  {
    if c.kind == PICK then Pick(c.orderId) else Drop(c.orderId)
  }

  /** The action sequence read off a list of legs. */
  function Actions(steps: seq<Command>): seq<Action>
  {
    seq(|steps|, k requires 0 <= k < |steps| => ActionOf(steps[k]))
  }

  /** The rules every leg obeys, stated on the leg and the action it performs. */
  ghost predicate ObeysRules(p: Problem, c: Command, a: Action)
  {
    && ActionOf(c) == a
    && c.toLoc == TargetLoc(p, a)
    && c.travelMin == p.cost(c.fromLoc, c.toLoc)
    && match a
       case Pick(oid) =>
         && c.waitMin == Max(0.0, p.ReadyTime(oid) - c.arriveTime)
         && c.departTime == c.arriveTime + c.waitMin
         && c.waitMin >= 0.0
         && c.departTime >= p.ReadyTime(oid)
         && c.notes == (if c.waitMin > 0.0 then WAITED else ON_TIME).Value()
       case Drop(_) =>
         && c.waitMin == 0.0
         && c.departTime == c.arriveTime
         && c.notes == DELIVERED.Value()
  }

  /** `next` starts where `prev` ended, and arrives after `prev` departs plus the travel. */
  ghost predicate Chained(prev: Command, next: Command)
  {
    next.fromLoc == prev.toLoc && next.arriveTime == prev.departTime + next.travelMin
  }

  lemma StepObeysRules(p: Problem, a: Action, time: real, loc: Location)
    ensures var c := StepCommand(p, a, time, loc);
      ObeysRules(p, c, a) && c.fromLoc == loc && c.arriveTime == time + c.travelMin
  {
  }

  /** The legs of an action sequence: one per action, each obeying the rules,
      chained one to the next from the start. */
  lemma {:induction false} ScheduleLegs(p: Problem, time: real, loc: Location, acts: seq<Action>)
    ensures var steps := Schedule(p, time, loc, acts);
      && |steps| == |acts|
      && (forall k :: 0 <= k < |acts| ==> ObeysRules(p, steps[k], acts[k]))
      && (forall k :: 0 < k < |acts| ==> Chained(steps[k - 1], steps[k]))
      && (acts != [] ==> steps[0].fromLoc == loc && steps[0].arriveTime == time + steps[0].travelMin)
    decreases |acts|
  {
    if acts != [] {
      var c := StepCommand(p, acts[0], time, loc);
      StepObeysRules(p, acts[0], time, loc);
      var rest := Schedule(p, c.departTime, c.toLoc, acts[1..]);
      ScheduleLegs(p, c.departTime, c.toLoc, acts[1..]);
      var steps := Schedule(p, time, loc, acts);
      assert steps == [c] + rest;
      forall k | 0 < k < |acts|
        ensures ObeysRules(p, steps[k], acts[k]) && Chained(steps[k - 1], steps[k])
      {
        assert steps[k] == rest[k - 1];
        assert acts[k] == acts[1..][k - 1];
        if k > 1 {
          assert steps[k - 1] == rest[k - 2];
        }
      }
    }
  }

  /** The completion time of an action sequence is its last leg's departure,
      and its end location that leg's destination. */
  lemma {:induction false} ScheduleEnds(p: Problem, time: real, loc: Location, acts: seq<Action>)
    ensures var steps := Schedule(p, time, loc, acts);
      && |steps| == |acts|
      && Finish(p, time, loc, acts) == (if acts == [] then time else steps[|acts| - 1].departTime)
      && EndLoc(p, loc, acts) == (if acts == [] then loc else steps[|acts| - 1].toLoc)
    decreases |acts|
  {
    if acts != [] {
      var c := StepCommand(p, acts[0], time, loc);
      ScheduleEnds(p, c.departTime, c.toLoc, acts[1..]);
      var rest := Schedule(p, c.departTime, c.toLoc, acts[1..]);
      assert Schedule(p, time, loc, acts) == [c] + rest;
    }
  }

  /** Reading the actions back off the legs gives the sequence again. */
  lemma {:induction false} ScheduleActions(p: Problem, time: real, loc: Location, acts: seq<Action>)
    ensures Actions(Schedule(p, time, loc, acts)) == acts
    decreases |acts|
  {
    if acts != [] {
      var c := StepCommand(p, acts[0], time, loc);
      ScheduleActions(p, c.departTime, c.toLoc, acts[1..]);
      var rest := Schedule(p, c.departTime, c.toLoc, acts[1..]);
      var steps := Schedule(p, time, loc, acts);
      assert steps == [c] + rest;
      forall k | 0 <= k < |acts| ensures Actions(steps)[k] == acts[k] {
        if k > 0 {
          assert steps[k] == rest[k - 1];
          assert Actions(rest)[k - 1] == acts[1..][k - 1];
        }
      }
    }
  }

  /** All of the above. */
  lemma ScheduleRules(p: Problem, time: real, loc: Location, acts: seq<Action>)
    ensures var steps := Schedule(p, time, loc, acts);
      && |steps| == |acts|
      && (forall k :: 0 <= k < |acts| ==> ObeysRules(p, steps[k], acts[k]))
      && (forall k :: 0 < k < |acts| ==> Chained(steps[k - 1], steps[k]))
      && (acts != [] ==> steps[0].fromLoc == loc && steps[0].arriveTime == time + steps[0].travelMin)
      && Finish(p, time, loc, acts) == (if acts == [] then time else steps[|acts| - 1].departTime)
      && EndLoc(p, loc, acts) == (if acts == [] then loc else steps[|acts| - 1].toLoc)
      && Actions(steps) == acts
  {
    ScheduleLegs(p, time, loc, acts);
    ScheduleEnds(p, time, loc, acts);
    ScheduleActions(p, time, loc, acts);
  }

  /** Extending a sequence by one action adds that action's leg at the end. */
  lemma {:induction false} ScheduleSnoc(p: Problem, time: real, loc: Location, acts: seq<Action>, a: Action)
    ensures var c := StepCommand(p, a, Finish(p, time, loc, acts), EndLoc(p, loc, acts));
      && Schedule(p, time, loc, acts + [a]) == Schedule(p, time, loc, acts) + [c]
      && Finish(p, time, loc, acts + [a]) == c.departTime
      && EndLoc(p, loc, acts + [a]) == TargetLoc(p, a) == c.toLoc
    decreases |acts|
  {
    if acts == [] {
      assert acts + [a] == [a];
    } else {
      var c := StepCommand(p, acts[0], time, loc);
      assert (acts + [a])[0] == acts[0];
      assert (acts + [a])[1..] == acts[1..] + [a];
      ScheduleSnoc(p, c.departTime, c.toLoc, acts[1..], a);
    }
  }

  /** Running `xs` then `ys` finishes when `ys` finishes, started where and when `xs` ended. */
  lemma {:induction false} FinishAppend(p: Problem, time: real, loc: Location, xs: seq<Action>, ys: seq<Action>)
    ensures Finish(p, time, loc, xs + ys) == Finish(p, Finish(p, time, loc, xs), EndLoc(p, loc, xs), ys)
    decreases |xs|
  {
    if xs == [] {
      assert xs + ys == ys;
    } else {
      var c := StepCommand(p, xs[0], time, loc);
      assert (xs + ys)[0] == xs[0];
      assert (xs + ys)[1..] == xs[1..] + ys;
      FinishAppend(p, c.departTime, c.toLoc, xs[1..], ys);
    }
  }

  /** With non-negative travel, time never runs backwards. */
  lemma {:induction false} FinishMonotone(p: Problem, time: real, loc: Location, acts: seq<Action>)
    requires NonNegative(p.cost)
    ensures Finish(p, time, loc, acts) >= time
    decreases |acts|
  {
    if acts != [] {
      var c := StepCommand(p, acts[0], time, loc);
      FinishMonotone(p, c.departTime, c.toLoc, acts[1..]);
    }
  }

  /** Any non-empty continuation takes at least the direct travel to its first target. */
  lemma FirstHop(p: Problem, time: real, loc: Location, acts: seq<Action>)
    requires NonNegative(p.cost) && acts != []
    ensures time + p.cost(loc, TargetLoc(p, acts[0])) <= Finish(p, time, loc, acts)
  {
    var c := StepCommand(p, acts[0], time, loc);
    FinishMonotone(p, c.departTime, c.toLoc, acts[1..]);
  }

  lemma {:induction false} DistinctCard(ids: seq<OrderId>)
    requires Distinct(ids)
    ensures |set oid | oid in ids| == |ids|
    decreases |ids|
  {
    if ids != [] {
      var init := ids[..|ids| - 1];
      var last := ids[|ids| - 1];
      assert Distinct(init);
      DistinctCard(init);
      assert (set oid | oid in ids) == (set oid | oid in init) + {last} by {
        assert ids == init + [last];
      }
      assert last !in (set oid | oid in init);
    }
  }

  lemma SubsetCard(a: set<OrderId>, b: set<OrderId>)
    requires a <= b && a != b
    ensures |a| < |b|
  {
    var d := b - a;
    assert b == a + d && a * d == {};
    assert d != {};
  }

  /** The code's goal test compares counts; on a reachable state that is the
      same as every order being delivered. */
  lemma GoalTest(p: Problem, s: Progress)
    requires p.WellFormed() && Reachable(p, s)
    ensures |s.delivered| == |p.orderIds| <==> s.delivered == p.AllIds()
  {
    DistinctCard(p.orderIds);
    if s.delivered != p.AllIds() {
      SubsetCard(s.delivered, p.AllIds());
    }
  }

  /** Every action of a completion from a reachable state names an order. */
  lemma {:induction false} CompletionIds(p: Problem, s: Progress, acts: seq<Action>)
    requires Reachable(p, s) && Completes(p, s, acts)
    ensures forall k :: 0 <= k < |acts| ==> acts[k].oid in p.AllIds()
    decreases |acts|
  {
    if acts != [] {
      var rest := acts[1..];
      CompletionIds(p, Apply(s, acts[0]), rest);
      forall k | 0 < k < |acts| ensures acts[k].oid in p.AllIds() {
        assert acts[k] == rest[k - 1];
      }
    }
  }

  /** Counting the actions of a completion from a reachable state: each order
      not yet picked is picked exactly once, and each order not yet delivered is
      dropped exactly once. */
  lemma {:induction false} CompletionCounts(p: Problem, s: Progress, acts: seq<Action>)
    requires Reachable(p, s) && Completes(p, s, acts)
    ensures forall oid :: oid in p.AllIds() ==>
      multiset(acts)[Pick(oid)] == (if oid in s.picked then 0 else 1)
    ensures forall oid :: oid in p.AllIds() ==>
      multiset(acts)[Drop(oid)] == (if oid in s.delivered then 0 else 1)
    decreases |acts|
  {
    if acts == [] {
      assert s.picked == p.AllIds();
    } else {
      var a := acts[0];
      var rest := acts[1..];
      var s' := Apply(s, a);
      CompletionCounts(p, s', rest);
      assert acts == [a] + rest;
      assert multiset(acts) == multiset([a]) + multiset(rest);
      forall oid | oid in p.AllIds()
        ensures multiset(acts)[Pick(oid)] == (if oid in s.picked then 0 else 1)
        ensures multiset(acts)[Drop(oid)] == (if oid in s.delivered then 0 else 1)
      {
        assert multiset(acts)[Pick(oid)] == multiset([a])[Pick(oid)] + multiset(rest)[Pick(oid)];
        assert multiset(acts)[Drop(oid)] == multiset([a])[Drop(oid)] + multiset(rest)[Drop(oid)];
      }
    }
  }

  /** A completion from a reachable state has as many actions as picks and drops still missing. */
  lemma {:induction false} CompletionLength(p: Problem, s: Progress, acts: seq<Action>)
    requires Reachable(p, s) && Completes(p, s, acts)
    ensures |acts| == (|p.AllIds()| - |s.picked|) + (|p.AllIds()| - |s.delivered|)
    decreases |acts|
  {
    if acts == [] {
      assert s.picked == p.AllIds();
    } else {
      CompletionLength(p, Apply(s, acts[0]), acts[1..]);
    }
  }

  /** In a completion from a reachable state, no drop of an order comes at or
      before a pick of the same order. */
  lemma {:induction false} CompletionOrder(p: Problem, s: Progress, acts: seq<Action>)
    requires Reachable(p, s) && Completes(p, s, acts)
    ensures forall i, j :: 0 <= j <= i < |acts| && acts[i].Pick? && acts[j].Drop? ==> acts[i].oid != acts[j].oid
    decreases |acts|
  {
    if acts != [] {
      var a := acts[0];
      var rest := acts[1..];
      var s' := Apply(s, a);
      CompletionOrder(p, s', rest);
      forall i, j | 0 <= j <= i < |acts| && acts[i].Pick? && acts[j].Drop?
        ensures acts[i].oid != acts[j].oid
      {
        if j == 0 {
          // the order is already picked, so the rest picks it no more
          CompletionCounts(p, s', rest);
          assert rest[i - 1] == acts[i];
          assert acts[i] in multiset(rest);
        } else {
          assert rest[i - 1] == acts[i] && rest[j - 1] == acts[j];
        }
      }
    }
  }

  /** A route cannot end mid-delivery: the last action of a non-empty completion is a drop. */
  lemma {:induction false} CompletionEndsWithDrop(p: Problem, s: Progress, acts: seq<Action>)
    requires Reachable(p, s) && Completes(p, s, acts) && acts != []
    ensures acts[|acts| - 1].Drop?
    decreases |acts|
  {
    var a := acts[0];
    var rest := acts[1..];
    if rest != [] {
      CompletionEndsWithDrop(p, Apply(s, a), rest);
      assert acts[|acts| - 1] == rest[|rest| - 1];
    }
  }
}
