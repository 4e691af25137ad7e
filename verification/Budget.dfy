/** The shared span budget: what a call spends is what it emits, and how much that can be. */
module Budget {
  import opened Traces
  import opened Oracle
  import opened Catalog
  import Shape

  /** The most spans one call of AddChildren can emit at a depth: three rounds, each of a child, the
      server it calls and what lies below. */
  function Cap(depth: nat): nat
    decreases 7 - depth
  {
    if depth >= 7 then 0 else RoundsCap(depth, 3)
  }

  function RoundsCap(depth: nat, k: nat): nat
    requires depth < 7
    decreases 7 - depth, 0, k
  {
    if k == 0 then 0 else RoundsCap(depth, k - 1) + Cap(depth + 1) + 2
  }

  function Pow3(n: nat): (r: nat)
    ensures r >= 1
  {
    if n == 0 then 1 else 3 * Pow3(n - 1)
  }

  lemma {:induction false} CapClosedForm(depth: nat)
    requires depth <= 7
    ensures Cap(depth) == Pow3(8 - depth) - 3
    decreases 7 - depth
  {
    if depth < 7 {
      CapClosedForm(depth + 1);
      assert RoundsCap(depth, 1) == Cap(depth + 1) + 2;
      assert RoundsCap(depth, 2) == RoundsCap(depth, 1) + Cap(depth + 1) + 2;
    } else {
      assert Pow3(8 - depth) == 3 * Pow3(0);
    }
  }

  lemma {:induction false} CapAtOne()
    ensures Cap(1) == 2184
  {
    CapClosedForm(1);
    assert Pow3(3) == 27;
    assert Pow3(7) == 81 * Pow3(3);
  }

  lemma {:induction false} RoundsCapGrows(depth: nat, k: nat)
    requires depth < 7 && k <= 3
    ensures RoundsCap(depth, k) <= Cap(depth)
  {
    assert RoundsCap(depth, 2) <= RoundsCap(depth, 3);
    assert RoundsCap(depth, 1) <= RoundsCap(depth, 2);
  }

  ghost predicate Spends(st: State, r: State, least: int, most: int) {
    && r.remaining >= 0
    && |r.log| - |st.log| == st.remaining - r.remaining
    && least <= |r.log| - |st.log| <= most
  }

  lemma {:induction false} RoundBudget(g: Gen, st: State, at: nat, depth: nat)
    requires Placed(g, st, at) && 1 <= depth <= 6
    requires st.remaining >= 1
    ensures Spends(st, Round(g, st, at, depth), 1, Cap(depth + 1) + 2)
    decreases 7 - depth, 1, 0
  {
    hide Valid, Emit, EmitChild, EmitServer, NextOp, ServerCounterpart, AddChildren, Cap, ChildOp;
    var child := |st.log|;
    var st1 := EmitChild(g, st, at);
    var op := NextOp(g, st, at);
    Shape.ClientOp(op, st.log[at].svc, |g.cat.services|);
    if op.peer >= 0 && st1.remaining > 0 {
      AddChildrenBudget(g, EmitServer(g, st1, child), child + 1, depth + 1);
    } else if op.typ.Internal? && st1.remaining > 0 && depth < 3 {
      AddChildrenBudget(g, st1, child, depth + 1);
    }
  }

  lemma {:induction false} RoundsBudget(g: Gen, st: State, at: nat, depth: nat, k: nat)
    requires Placed(g, st, at) && 1 <= depth <= 6
    requires st.remaining >= 0
    ensures Spends(st, Rounds(g, st, at, depth, k), 0, RoundsCap(depth, k))
    decreases 7 - depth, 2, k
  {
    hide Valid, Round, Cap;
    if k == 0 || st.remaining <= 0 {
    } else {
      RoundBudget(g, st, at, depth);
      RoundsBudget(g, Round(g, st, at, depth), at, depth, k - 1);
    }
  }

  /** AddChildren emits exactly the drop in the budget, never overdraws it, and stops at 3^(8-depth) - 3. */
  lemma {:induction false} AddChildrenBudget(g: Gen, st: State, at: nat, depth: nat)
    requires Placed(g, st, at) && 1 <= depth <= 7
    requires st.remaining >= 0
    ensures Spends(st, AddChildren(g, st, at, depth), 0, Cap(depth))
    decreases 7 - depth, 3, 0
  {
    hide Valid, Rounds, Cap, RoundsCap;
    if st.remaining <= 0 || depth > 6 {
    } else {
      var st0 := st.(pos := st.pos + 1);
      var k := 1 + IntN(g.tape(st.pos), 3);
      RoundsBudget(g, st0, at, depth, k);
      RoundsCapGrows(depth, k);
    }
  }

  /** A trace uses between one span and its budget, and never more than 2185 whatever the configured maximum. */
  lemma {:induction false} TraceBudget(g: Gen, st: State, budget: int)
    requires g.Ok() && budget >= 1
    ensures var r := GenTrace(g, st, budget);
            && 0 <= r.remaining
            && |r.log| - |st.log| == TraceSize(g, g.tape(st.pos + 2), budget) - r.remaining
            && 1 <= |r.log| - |st.log| <= budget
            && |r.log| - |st.log| <= g.maxSpans
            && |r.log| - |st.log| <= 1 + Cap(1) == 2185
  {
    hide Valid, EmitRoot, AddChildren, Cap;
    var st1 := EmitRoot(g, st, budget);
    AddChildrenBudget(g, st1, |st.log|, 1);
    CapAtOne();
  }

  lemma {:induction false} FillFromExact(g: Gen, st: State, target: int)
    requires g.Ok()
    requires |st.log| <= target
    ensures |FillFrom(g, st, target).log| == target
    decreases target - |st.log|
  {
    if |st.log| >= target {
    } else {
      TraceBudget(g, st, target - |st.log|);
      FillFromExact(g, GenTrace(g, st, target - |st.log|), target);
    }
  }

  /** A batch holds exactly the spans asked for (none when the target is not positive). */
  lemma {:induction false} FillBatchExact(g: Gen, pos: nat, target: int)
    requires g.Ok()
    ensures |FillBatch(g, pos, target).log| == if target >= 0 then target else 0
  {
    if target >= 0 {
      FillFromExact(g, State(pos, [], 0), target);
    }
  }
}
