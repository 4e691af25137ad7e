/** How far the configured minimum of spans per trace is kept: it bounds the budget, not the trace. */
module Minimum {
  import opened Catalog
  import opened Oracle
  import opened Traces

  /** A round emits a child of `at` before anything else. */
  lemma {:induction false} RoundStarts(g: Gen, st: State, at: nat, depth: nat)
    requires Placed(g, st, at) && 1 <= depth <= 6
    ensures var r := Round(g, st, at, depth).log;
            |r| > |st.log| && r[|st.log|].parentAt == at
            && r[|st.log|].op == NextOp(g, st, at)
  {
    hide Valid, EmitChild, NextOp, Descend;
    assert EmitChild(g, st, at).log <= Round(g, st, at, depth).log;
  }

  /** As long as there is budget above the depth cap, a call starts with a child of `at`. */
  lemma {:induction false} AddChildrenStarts(g: Gen, st: State, at: nat, depth: nat)
    requires Placed(g, st, at) && 1 <= depth <= 6 && st.remaining > 0
    ensures var r := AddChildren(g, st, at, depth).log;
            |r| > |st.log| && r[|st.log|].parentAt == at
            && r[|st.log|].op == NextOp(g, st.(pos := st.pos + 1), at)
  {
    hide Valid, Round, NextOp;
    var st0 := st.(pos := st.pos + 1);
    var k := 1 + IntN(g.tape(st.pos), 3);
    RoundStarts(g, st0, at, depth);
    assert Round(g, st0, at, depth).log <= Rounds(g, Round(g, st0, at, depth), at, depth, k - 1).log;
  }

  /** A trace with a budget for two spans has a second one, below its root. */
  lemma {:induction false} SecondSpan(g: Gen, st: State, budget: int)
    requires g.Ok() && TraceSize(g, g.tape(st.pos + 2), budget) >= 2
    ensures var r := GenTrace(g, st, budget).log;
            |r| >= |st.log| + 2 && r[|st.log| + 1].parentAt == |st.log|
  {
    hide Valid, EmitRoot, AddChildren, NextOp, TraceSize;
    AddChildrenStarts(g, EmitRoot(g, st, budget), |st.log|, 1);
  }

  /** Service `n - 1` as the root, and the first of everything else. */
  function LastServiceTape(n: nat): Tape {
    (k: nat) => if k == 3 && n > 0 then n - 1 else 0
  }

  lemma {:induction false} LastServiceLeaf(cat: Catalog)
    requires Valid(cat)
    ensures var ops := cat.services[|cat.services| - 1].childOps;
            |ops| >= 2 && ops[0].typ == DbClient && ops[0].peer == -1
  {
    var n := |cat.services|;
    assert ChildOpsOk(cat.services[n - 1].childOps, n - 1, n);
  }

  lemma {:induction false} LeafRound(g: Gen, st: State, at: nat)
    requires Placed(g, st, at) && NextOp(g, st, at).typ == DbClient && NextOp(g, st, at).peer == -1
    ensures |Round(g, st, at, 1).log| == |st.log| + 1
  {
    hide Valid, EmitChild, NextOp;
  }

  /** On that tape the root calls its database, and the trace ends. */
  lemma {:induction false} TwoSpanTrace(g: Gen, budget: int)
    requires g.Ok() && g.tape == LastServiceTape(|g.cat.services|)
    ensures |GenTrace(g, State(0, [], 0), budget).log| <= 2
  {
    hide Valid, EmitRoot, Round, NextOp, TraceSize;
    var st := State(0, [], 0);
    var st1 := EmitRoot(g, st, budget);
    LastServiceRoot(g, budget);
    if st1.remaining > 0 {
      var st2 := st1.(pos := st1.pos + 1);
      FirstOp(g, st2);
      LeafRound(g, st2, 0);
      assert Rounds(g, st2, 0, 1, 1) == Rounds(g, Round(g, st2, 0, 1), 0, 1, 0);
    }
  }

  lemma {:induction false} LastServiceRoot(g: Gen, budget: int)
    requires g.Ok() && g.tape == LastServiceTape(|g.cat.services|)
    ensures var st1 := EmitRoot(g, State(0, [], 0), budget);
            st1.pos >= 8 && |st1.log| == 1 && st1.log[0].svc == |g.cat.services| - 1
  {
    hide Valid, MakeSpan, TraceSize;
  }

  lemma {:induction false} FirstOp(g: Gen, st: State)
    requires Placed(g, st, 0) && g.tape == LastServiceTape(|g.cat.services|)
    requires st.pos >= 8 && st.log[0].svc == |g.cat.services| - 1
    ensures NextOp(g, st, 0).typ == DbClient && NextOp(g, st, 0).peer == -1
  {
    LastServiceLeaf(g.cat);
    hide Valid;
  }

  ghost predicate MeetsMinimum(g: Gen, st: State, budget: int)
    requires g.Ok()
  {
    |GenTrace(g, st, budget).log| - |st.log| >= g.minSpans
  }

  function WithTape(g: Gen, tape: Tape): (r: Gen)
    ensures g.Ok() ==> r.Ok()
  {
    g.(tape := tape)
  }

  /** Whatever the topology, the random stream and the room left in the batch, as long as the minimum
      fits into it, traces have the configured minimum of spans if and only if it is at most two. */
  lemma {:induction false} MinimumKeptIff(g: Gen)
    requires g.Ok()
    ensures (forall tape: Tape, st: State, budget: int ::
              budget >= g.minSpans ==> MeetsMinimum(WithTape(g, tape), st, budget))
       <==> g.minSpans <= 2
  {
    hide Valid, GenTrace, TraceSize;
    if g.minSpans <= 2 {
      forall tape: Tape, st: State, budget: int | budget >= g.minSpans
        ensures MeetsMinimum(WithTape(g, tape), st, budget)
      {
        SmallMinimum(WithTape(g, tape), st, budget);
      }
    } else {
      var tape := LastServiceTape(|g.cat.services|);
      TwoSpanTrace(WithTape(g, tape), g.minSpans);
      assert !MeetsMinimum(WithTape(g, tape), State(0, [], 0), g.minSpans);
    }
  }

  lemma {:induction false} SmallMinimum(g: Gen, st: State, budget: int)
    requires g.Ok() && budget >= g.minSpans && g.minSpans <= 2
    ensures MeetsMinimum(g, st, budget)
  {
    hide Valid, GenTrace;
    if TraceSize(g, g.tape(st.pos + 2), budget) >= 2 {
      SecondSpan(g, st, budget);
    }
  }
}
