/** The search space of the branch-and-bound planner as values: the targets its
    lower bound looks at, every completion of a state in the order the
    depth-first search meets them, and the "keep the first strictly better
    plan" accumulation over them. */
module SearchSpace {
  import opened Geo
  import opened Routes

  /** The completion time of a whole route, which starts at time 0 at the courier's start. */
  ghost function Makespan(p: Problem, acts: seq<Action>): real
  {
    Finish(p, 0.0, p.courierStart, acts)
  }

  // ---------------------------------------------------------------- targets

  /** The targets the lower bound collects over the first `n` order ids: the
      restaurant of each order not yet picked, then, for an order picked but not
      delivered, its consumer. */
  ghost function TargetsOf(p: Problem, s: Progress, n: nat): seq<Location>
    requires n <= |p.orderIds|
  {
    if n == 0 then []
    else
      var oid := p.orderIds[n - 1];
      TargetsOf(p, s, n - 1)
        + (if oid !in s.picked then [p.PickLoc(oid)] else [])
        + (if oid !in s.delivered && oid in s.picked then [p.DropLoc(oid)] else [])
  }

  ghost function Targets(p: Problem, s: Progress): seq<Location>
  {
    TargetsOf(p, s, |p.orderIds|)
  }

  lemma {:induction false} TargetsOfCover(p: Problem, s: Progress, a: Action, n: nat)
    requires n <= |p.orderIds| && Legal(p, s, a) && a.oid in p.orderIds[..n]
    ensures TargetLoc(p, a) in TargetsOf(p, s, n)
  {
    var oid := p.orderIds[n - 1];
    if a.oid != oid {
      assert p.orderIds[..n] == p.orderIds[..n - 1] + [oid];
      TargetsOfCover(p, s, a, n - 1);
    }
  }

  /** The place every legal next action goes to is one of the targets. */
  lemma TargetsCover(p: Problem, s: Progress, a: Action)
    requires Reachable(p, s) && Legal(p, s, a)
    ensures TargetLoc(p, a) in Targets(p, s)
  {
    assert p.orderIds[..|p.orderIds|] == p.orderIds;
    TargetsOfCover(p, s, a, |p.orderIds|);
  }

  lemma {:induction false} TargetsOfEmpty(p: Problem, s: Progress, n: nat)
    requires n <= |p.orderIds| && s.delivered <= s.picked
    ensures TargetsOf(p, s, n) == [] <==> forall i :: 0 <= i < n ==> p.orderIds[i] in s.delivered
  {
    if n > 0 {
      TargetsOfEmpty(p, s, n - 1);
    }
  }

  /** On a reachable state there are no targets left exactly when every order is delivered. */
  lemma TargetsEmpty(p: Problem, s: Progress)
    requires Reachable(p, s)
    ensures Targets(p, s) == [] <==> s.delivered == p.AllIds()
  {
    TargetsOfEmpty(p, s, |p.orderIds|);
    if Targets(p, s) == [] {
      forall oid | oid in p.AllIds() ensures oid in s.delivered {
        var i :| 0 <= i < |p.orderIds| && p.orderIds[i] == oid;
      }
    }
  }

  /** The cheapest single hop to a remaining target is an admissible bound:
      every way to finish from `s` takes at least that first hop. */
  lemma CheapestHopAdmissible(p: Problem, s: Progress, time: real, loc: Location, lb: real)
    requires p.WellFormed() && Reachable(p, s)
    requires Targets(p, s) == [] ==> lb == time
    requires forall t :: t in Targets(p, s) ==> lb <= time + p.cost(loc, t)
    ensures forall c :: Completes(p, s, c) ==> lb <= Finish(p, time, loc, c)
  {
    forall c | Completes(p, s, c) ensures lb <= Finish(p, time, loc, c) {
      TargetsEmpty(p, s);
      if c != [] {
        TargetsCover(p, s, c[0]);
        FirstHop(p, time, loc, c);
      }
    }
  }

  // ------------------------------------------------------------ completions

  /** Each sequence of `cs`, prefixed with `prefix`. */
  ghost function Extend(prefix: seq<Action>, cs: seq<seq<Action>>): seq<seq<Action>>
  {
    seq(|cs|, i requires 0 <= i < |cs| => prefix + cs[i])
  }

  /** Every completion of `s`, in the order the depth-first search meets them:
      at the goal only the empty one; otherwise first those that begin by
      picking an order, then those that begin by dropping one, each family in
      the orders' insertion order. */
  ghost function Completions(p: Problem, s: Progress): seq<seq<Action>>
    decreases p.AllIds() - s.picked, p.AllIds() - s.delivered, |p.orderIds| + 1
  {
    if |s.delivered| == |p.orderIds| then [[]]
    else PickBranches(p, s, |p.orderIds|) + DropBranches(p, s, |p.orderIds|)
  }

  ghost function PickBranches(p: Problem, s: Progress, n: nat): seq<seq<Action>>
    requires n <= |p.orderIds|
    decreases p.AllIds() - s.picked, p.AllIds() - s.delivered, n
  {
    if n == 0 then [] else PickBranches(p, s, n - 1) + PickChunk(p, s, n - 1)
  }

  /** The completions that begin by picking the `i`-th order. */
  ghost function PickChunk(p: Problem, s: Progress, i: nat): seq<seq<Action>>
    requires i < |p.orderIds|
    decreases p.AllIds() - s.picked, p.AllIds() - s.delivered, 0
  {
    var oid := p.orderIds[i];
    if oid !in s.picked then Extend([Pick(oid)], Completions(p, Apply(s, Pick(oid)))) else []
  }

  ghost function DropBranches(p: Problem, s: Progress, n: nat): seq<seq<Action>>
    requires n <= |p.orderIds|
    decreases p.AllIds() - s.picked, p.AllIds() - s.delivered, n
  {
    if n == 0 then [] else DropBranches(p, s, n - 1) + DropChunk(p, s, n - 1)
  }

  /** The completions that begin by dropping the `i`-th order. */
  ghost function DropChunk(p: Problem, s: Progress, i: nat): seq<seq<Action>>
    requires i < |p.orderIds|
    decreases p.AllIds() - s.picked, p.AllIds() - s.delivered, 0
  {
    var oid := p.orderIds[i];
    if oid in s.picked && oid !in s.delivered then Extend([Drop(oid)], Completions(p, Apply(s, Drop(oid)))) else []
  }

  lemma ExtendConcat(prefix: seq<Action>, xs: seq<seq<Action>>, ys: seq<seq<Action>>)
    ensures Extend(prefix, xs + ys) == Extend(prefix, xs) + Extend(prefix, ys)
  {
  }

  lemma ExtendExtend(prefix: seq<Action>, a: Action, cs: seq<seq<Action>>)
    ensures Extend(prefix, Extend([a], cs)) == Extend(prefix + [a], cs)
  {
    forall i | 0 <= i < |cs| ensures prefix + ([a] + cs[i]) == (prefix + [a]) + cs[i] {
    }
  }

  lemma ExtendEmpty(cs: seq<seq<Action>>)
    ensures Extend([], cs) == cs
  {
    forall i | 0 <= i < |cs| ensures [] + cs[i] == cs[i] {
    }
  }

  lemma InExtend(prefix: seq<Action>, cs: seq<seq<Action>>, c: seq<Action>)
    requires c in cs
    ensures prefix + c in Extend(prefix, cs)
  {
    var i :| 0 <= i < |cs| && cs[i] == c;
    assert Extend(prefix, cs)[i] == prefix + c;
  }

  lemma ExtendedStep(p: Problem, s: Progress, a: Action, cs: seq<seq<Action>>)
    requires Legal(p, s, a)
    requires forall c :: c in cs ==> Completes(p, Apply(s, a), c)
    ensures forall c :: c in Extend([a], cs) ==> Completes(p, s, c)
  {
    forall c | c in Extend([a], cs) ensures Completes(p, s, c) {
      var i :| 0 <= i < |cs| && Extend([a], cs)[i] == c;
      assert c[0] == a && c[1..] == cs[i];
    }
  }

  /** Everything the enumeration lists is a completion. */
  lemma CompletionsSound(p: Problem, s: Progress)
    requires p.WellFormed() && Reachable(p, s)
    ensures forall c :: c in Completions(p, s) ==> Completes(p, s, c)
    decreases p.AllIds() - s.picked, p.AllIds() - s.delivered, |p.orderIds| + 1
  {
    GoalTest(p, s);
    if |s.delivered| != |p.orderIds| {
      PickBranchesSound(p, s, |p.orderIds|);
      DropBranchesSound(p, s, |p.orderIds|);
    }
  }

  lemma PickBranchesSound(p: Problem, s: Progress, n: nat)
    requires p.WellFormed() && Reachable(p, s) && n <= |p.orderIds|
    ensures forall c :: c in PickBranches(p, s, n) ==> Completes(p, s, c)
    decreases p.AllIds() - s.picked, p.AllIds() - s.delivered, n
  {
    if n > 0 {
      PickBranchesSound(p, s, n - 1);
      var oid := p.orderIds[n - 1];
      if oid !in s.picked {
        CompletionsSound(p, Apply(s, Pick(oid)));
        ExtendedStep(p, s, Pick(oid), Completions(p, Apply(s, Pick(oid))));
      }
    }
  }

  lemma DropBranchesSound(p: Problem, s: Progress, n: nat)
    requires p.WellFormed() && Reachable(p, s) && n <= |p.orderIds|
    ensures forall c :: c in DropBranches(p, s, n) ==> Completes(p, s, c)
    decreases p.AllIds() - s.picked, p.AllIds() - s.delivered, n
  {
    if n > 0 {
      DropBranchesSound(p, s, n - 1);
      var oid := p.orderIds[n - 1];
      if oid in s.picked && oid !in s.delivered {
        CompletionsSound(p, Apply(s, Drop(oid)));
        ExtendedStep(p, s, Drop(oid), Completions(p, Apply(s, Drop(oid))));
      }
    }
  }

  lemma {:induction false} PickChunkInBranches(p: Problem, s: Progress, i: nat, n: nat)
    requires i < n <= |p.orderIds|
    ensures forall c :: c in PickChunk(p, s, i) ==> c in PickBranches(p, s, n)
  {
    if i < n - 1 {
      PickChunkInBranches(p, s, i, n - 1);
    }
  }

  lemma {:induction false} DropChunkInBranches(p: Problem, s: Progress, i: nat, n: nat)
    requires i < n <= |p.orderIds|
    ensures forall c :: c in DropChunk(p, s, i) ==> c in DropBranches(p, s, n)
  {
    if i < n - 1 {
      DropChunkInBranches(p, s, i, n - 1);
    }
  }

  /** Away from the goal, the completions of each chunk are completions of the node. */
  lemma ChunkInCompletions(p: Problem, s: Progress, i: nat, c: seq<Action>)
    requires i < |p.orderIds| && |s.delivered| != |p.orderIds|
    requires c in PickChunk(p, s, i) || c in DropChunk(p, s, i)
    ensures c in Completions(p, s)
  {
    PickChunkInBranches(p, s, i, |p.orderIds|);
    DropChunkInBranches(p, s, i, |p.orderIds|);
  }

  /** Every completion is listed by the enumeration. */
  lemma {:induction false} CompletionsComplete(p: Problem, s: Progress, c: seq<Action>)
    requires p.WellFormed() && Reachable(p, s) && Completes(p, s, c)
    ensures c in Completions(p, s)
    decreases |c|
  {
    if c == [] {
      GoalTest(p, s);
    } else {
      assert Reachable(p, Apply(s, c[0]));
      CompletionsComplete(p, Apply(s, c[0]), c[1..]);
      FirstStepInCompletions(p, s, c[0], c[1..]);
      assert [c[0]] + c[1..] == c;
    }
  }

  /** A legal first action followed by a completion of the state it leads to
      is a completion of `s`. */
  lemma FirstStepInCompletions(p: Problem, s: Progress, a: Action, rest: seq<Action>)
    requires p.WellFormed() && Reachable(p, s) && Legal(p, s, a)
    requires rest in Completions(p, Apply(s, a))
    ensures [a] + rest in Completions(p, s)
  {
    GoalTest(p, s);
    InExtend([a], Completions(p, Apply(s, a)), rest);
    var i :| 0 <= i < |p.orderIds| && p.orderIds[i] == a.oid;
    assert a.oid !in s.delivered;
    if a.Pick? {
      assert [a] + rest in PickChunk(p, s, i);
    } else {
      assert [a] + rest in DropChunk(p, s, i);
    }
    ChunkInCompletions(p, s, i, [a] + rest);
  }

  /** A reachable state always has a completion, so the search always finds a plan. */
  lemma CompletionsNonEmpty(p: Problem, s: Progress)
    requires p.WellFormed() && Reachable(p, s)
    ensures |Completions(p, s)| > 0
    decreases p.AllIds() - s.picked, p.AllIds() - s.delivered
  {
    GoalTest(p, s);
    if |s.delivered| != |p.orderIds| {
      var oid :| oid in p.AllIds() && oid !in s.delivered;
      var i :| 0 <= i < |p.orderIds| && p.orderIds[i] == oid;
      var a := if oid !in s.picked then Pick(oid) else Drop(oid);
      CompletionsNonEmpty(p, Apply(s, a));
      var c := Completions(p, Apply(s, a))[0];
      InExtend([a], Completions(p, Apply(s, a)), c);
      if a.Pick? {
        assert [a] + c in PickChunk(p, s, i);
        PickChunkInBranches(p, s, i, |p.orderIds|);
      } else {
        assert [a] + c in DropChunk(p, s, i);
        DropChunkInBranches(p, s, i, |p.orderIds|);
      }
      assert [a] + c in Completions(p, s);
    }
  }

  // ---------------------------------------------------------- best so far

  /** The best completion time found so far; the search starts from infinity. */
  datatype Bound = Inf | Fin(t: real)

  /** The search's strict `<` against the best time so far. */
  predicate Below(x: real, b: Bound)
  {
    b.Inf? || x < b.t
  }

  predicate AtMost(x: Bound, y: Bound)
  {
    y.Inf? || (x.Fin? && x.t <= y.t)
  }

  /** The accumulator: best time and the route that achieved it. */
  datatype Best = Best(bound: Bound, path: seq<Action>)

  /** A complete route reaches the goal: it replaces the best only when strictly faster. */
  ghost function Offer(p: Problem, b: Best, cand: seq<Action>): Best
  {
    var f := Makespan(p, cand);
    if Below(f, b.bound) then Best(Fin(f), cand) else b
  }

  /** The accumulator after offering the candidates one after the other. */
  ghost function FoldBest(p: Problem, b: Best, cands: seq<seq<Action>>): Best
    decreases |cands|
  {
    if cands == [] then b else FoldBest(p, Offer(p, b, cands[0]), cands[1..])
  }

  /** Candidate `k` beats the initial best and every earlier candidate strictly. */
  ghost predicate FirstBelow(p: Problem, b: Best, cands: seq<seq<Action>>, k: nat)
    requires k < |cands|
  {
    && Below(Makespan(p, cands[k]), b.bound)
    && forall j :: 0 <= j < k ==> Makespan(p, cands[j]) > Makespan(p, cands[k])
  }

  /** What the accumulation computes: a time no worse than the initial one and
      no worse than any candidate's; and either the initial best, or the first
      candidate that is strictly better than the initial best and every
      candidate before it (ties keep the earlier one). */
  lemma {:induction false} FoldBestSpec(p: Problem, b: Best, cands: seq<seq<Action>>)
    ensures var r := FoldBest(p, b, cands);
      && AtMost(r.bound, b.bound)
      && (forall k :: 0 <= k < |cands| ==> !Below(Makespan(p, cands[k]), r.bound))
      && (r == b || exists k :: 0 <= k < |cands| && FirstBelow(p, b, cands, k)
                                && r == Best(Fin(Makespan(p, cands[k])), cands[k]))
    decreases |cands|
  {
    if cands != [] {
      var b' := Offer(p, b, cands[0]);
      var rest := cands[1..];
      FoldBestSpec(p, b', rest);
      var r := FoldBest(p, b', rest);
      forall k | 0 < k < |cands| ensures !Below(Makespan(p, cands[k]), r.bound) {
        assert cands[k] == rest[k - 1];
      }
      if r == b' {
        if b' != b {
          assert FirstBelow(p, b, cands, 0);
        }
      } else {
        var k' :| 0 <= k' < |rest| && FirstBelow(p, b', rest, k')
                  && r == Best(Fin(Makespan(p, rest[k'])), rest[k']);
        assert cands[k' + 1] == rest[k'];
        forall j | 0 < j < k' + 1 ensures Makespan(p, cands[j]) > Makespan(p, cands[k' + 1]) {
          assert cands[j] == rest[j - 1];
        }
        assert FirstBelow(p, b, cands, k' + 1);
      }
    }
  }

  lemma {:induction false} FoldConcat(p: Problem, b: Best, xs: seq<seq<Action>>, ys: seq<seq<Action>>)
    ensures FoldBest(p, b, xs + ys) == FoldBest(p, FoldBest(p, b, xs), ys)
    decreases |xs|
  {
    if xs == [] {
      assert xs + ys == ys;
    } else {
      assert (xs + ys)[0] == xs[0];
      assert (xs + ys)[1..] == xs[1..] + ys;
      FoldConcat(p, Offer(p, b, xs[0]), xs[1..], ys);
    }
  }

  /** Candidates none of which is strictly better leave the accumulator alone. */
  lemma {:induction false} FoldUnchanged(p: Problem, b: Best, cands: seq<seq<Action>>)
    requires forall k :: 0 <= k < |cands| ==> !Below(Makespan(p, cands[k]), b.bound)
    ensures FoldBest(p, b, cands) == b
    decreases |cands|
  {
    if cands != [] {
      assert forall k :: 0 <= k < |cands| - 1 ==> cands[1..][k] == cands[k + 1];
      FoldUnchanged(p, b, cands[1..]);
    }
  }

  // ------------------------------------------------------- search steps

  /** At the goal, the only route below the current node is the path itself. */
  lemma GoalOffer(p: Problem, s: Progress, b: Best, path: seq<Action>)
    requires |s.delivered| == |p.orderIds|
    ensures FoldBest(p, b, Extend(path, Completions(p, s))) == Offer(p, b, path)
  {
    assert path + [] == path;
    assert Extend(path, Completions(p, s)) == [path];
  }

  /** One turn of a branch loop: offering the completions of one more chunk
      continues the fold over the branches so far. */
  lemma ChunkStep(p: Problem, b0: Best, path: seq<Action>, xs: seq<seq<Action>>, chunk: seq<seq<Action>>, before: Best, after: Best)
    requires before == FoldBest(p, b0, Extend(path, xs))
    requires after == FoldBest(p, before, Extend(path, chunk))
    ensures after == FoldBest(p, b0, Extend(path, xs + chunk))
  {
    ExtendConcat(path, xs, chunk);
    FoldConcat(p, b0, Extend(path, xs), Extend(path, chunk));
  }

  /** ChunkStep for the pick loop. */
  lemma PickLoopStep(p: Problem, s: Progress, b0: Best, path: seq<Action>, i: nat, before: Best, after: Best)
    requires i < |p.orderIds|
    requires before == FoldBest(p, b0, Extend(path, PickBranches(p, s, i)))
    requires after == FoldBest(p, before, Extend(path, PickChunk(p, s, i)))
    ensures after == FoldBest(p, b0, Extend(path, PickBranches(p, s, i + 1)))
  {
    ChunkStep(p, b0, path, PickBranches(p, s, i), PickChunk(p, s, i), before, after);
  }

  /** ChunkStep for the drop loop. */
  lemma DropLoopStep(p: Problem, s: Progress, b0: Best, path: seq<Action>, i: nat, before: Best, after: Best)
    requires i < |p.orderIds|
    requires before == FoldBest(p, b0, Extend(path, DropBranches(p, s, i)))
    requires after == FoldBest(p, before, Extend(path, DropChunk(p, s, i)))
    ensures after == FoldBest(p, b0, Extend(path, DropBranches(p, s, i + 1)))
  {
    ChunkStep(p, b0, path, DropBranches(p, s, i), DropChunk(p, s, i), before, after);
  }

  /** Away from the goal, the pick loop followed by the drop loop offers every
      completion of the node in enumeration order. */
  lemma NodeFold(p: Problem, s: Progress, b0: Best, path: seq<Action>, mid: Best, after: Best)
    requires |s.delivered| != |p.orderIds|
    requires mid == FoldBest(p, b0, Extend(path, PickBranches(p, s, |p.orderIds|)))
    requires after == FoldBest(p, mid, Extend(path, DropBranches(p, s, |p.orderIds|)))
    ensures after == FoldBest(p, b0, Extend(path, Completions(p, s)))
  {
    var n := |p.orderIds|;
    ExtendConcat(path, PickBranches(p, s, n), DropBranches(p, s, n));
    FoldConcat(p, b0, Extend(path, PickBranches(p, s, n)), Extend(path, DropBranches(p, s, n)));
  }

  /** Pruning is safe: when a lower bound on every completion of the node is not
      below the best time, no route through the node can replace the best. */
  lemma PruneKeepsBest(p: Problem, s: Progress, b: Best, path: seq<Action>, lb: real)
    requires p.WellFormed() && Reachable(p, s)
    requires !Below(lb, b.bound)
    requires forall c :: Completes(p, s, c) ==>
      lb <= Finish(p, Makespan(p, path), EndLoc(p, p.courierStart, path), c)
    ensures FoldBest(p, b, Extend(path, Completions(p, s))) == b
  {
    CompletionsSound(p, s);
    var cs := Completions(p, s);
    var cands := Extend(path, cs);
    forall k | 0 <= k < |cands| ensures !Below(Makespan(p, cands[k]), b.bound) {
      assert cs[k] in cs;
      FinishAppend(p, 0.0, p.courierStart, path, cs[k]);
    }
    FoldUnchanged(p, b, cands);
  }
}
