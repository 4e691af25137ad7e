/** How many children a span can have. */
module Fanout {
  import opened Catalog
  import opened Oracle
  import opened Shape
  import opened Traces

  /** The number of log entries whose parent is entry `a`. */
  function Kids(log: seq<Emission>, a: int): nat {
    if log == [] then 0
    else Kids(log[..|log| - 1], a) + if log[|log| - 1].parentAt == a then 1 else 0
  }

  function KidLimit(op: Operation): nat {
    if op.kind == KindClient then 1 else 3
  }

  ghost predicate Linked(log: seq<Emission>) {
    forall i :: 0 <= i < |log| ==> log[i].parentAt < i
  }

  /** From index `from` on, every entry has at most the children its kind allows. */
  ghost predicate Limited(log: seq<Emission>, from: nat) {
    forall a :: from <= a < |log| ==> Kids(log, a) <= KidLimit(log[a].op)
  }

  /** `r` extends `log` below `at` alone: no other entry gains a child, `at` gains at most `most`. */
  ghost predicate Below(log: seq<Emission>, r: seq<Emission>, at: nat, most: nat) {
    && log <= r
    && Linked(r)
    && Limited(r, |log|)
    && Kids(r, at) <= Kids(log, at) + most
    && forall a :: 0 <= a < |log| && a != at ==> Kids(r, a) == Kids(log, a)
  }

  lemma {:induction false} KidsAppend(log: seq<Emission>, r: seq<Emission>, a: int)
    requires |r| == |log| + 1 && log == r[..|log|]
    ensures Kids(r, a) == Kids(log, a) + if r[|log|].parentAt == a then 1 else 0
  {
  }

  lemma {:induction false} KidsOfLeaf(log: seq<Emission>, a: nat)
    requires forall i :: 0 <= i < |log| ==> log[i].parentAt != a
    ensures Kids(log, a) == 0
  {
    if log == [] {
    } else {
      KidsOfLeaf(log[..|log| - 1], a);
    }
  }

  lemma {:induction false} BelowAppend(log: seq<Emission>, r: seq<Emission>, at: nat)
    requires at < |log| && Linked(log)
    requires |r| == |log| + 1 && log == r[..|log|] && r[|log|].parentAt == at
    ensures Below(log, r, at, 1)
    ensures Kids(r, |log|) == 0
  {
    forall a | 0 <= a <= |log| ensures Kids(r, a) == Kids(log, a) + if a == at then 1 else 0 {
      KidsAppend(log, r, a);
    }
    KidsOfLeaf(log, |log|);
  }

  lemma {:induction false} BelowTrans(log: seq<Emission>, mid: seq<Emission>, r: seq<Emission>, at: nat, m: nat, n: nat)
    requires at < |log|
    requires Below(log, mid, at, m) && Below(mid, r, at, n)
    ensures Below(log, r, at, m + n)
  {
    hide Linked, Kids, KidLimit;
    forall a | |log| <= a < |r| ensures Kids(r, a) <= KidLimit(r[a].op) {
      if a < |mid| {
        assert Kids(r, a) == Kids(mid, a);
        assert r[a] == mid[a];
      }
    }
  }

  /** Additions below a fresh entry leave everything older alone. */
  lemma {:induction false} BelowFresh(log: seq<Emission>, mid: seq<Emission>, r: seq<Emission>, at: nat, twig: nat,
                                      m: nat, most: nat)
    requires at < |log| == twig < |mid|
    requires Below(log, mid, at, m)
    requires Kids(mid, twig) == 0
    requires Below(mid, r, twig, most) && most <= KidLimit(mid[twig].op)
    ensures Below(log, r, at, m)
  {
    hide Linked, Kids, KidLimit;
    forall a | |log| <= a < |r| ensures Kids(r, a) <= KidLimit(r[a].op) {
      if a < |mid| {
        assert r[a] == mid[a];
        if a != twig {
          assert Kids(r, a) == Kids(mid, a);
        }
      }
    }
  }

  lemma {:induction false} RoundFanout(g: Gen, st: State, at: nat, depth: nat)
    requires Placed(g, st, at) && 1 <= depth <= 6 && Linked(st.log)
    ensures Below(st.log, Round(g, st, at, depth).log, at, 1)
    decreases 7 - depth, 1, 0
  {
    hide Valid, Emit, EmitChild, EmitServer, NextOp, ServerCounterpart, Kids, Below, Limited;
    var child := |st.log|;
    var st1 := EmitChild(g, st, at);
    var op := NextOp(g, st, at);
    ClientOp(op, st.log[at].svc, |g.cat.services|);
    BelowAppend(st.log, st1.log, at);
    if op.peer >= 0 && st1.remaining > 0 {
      var st2 := EmitServer(g, st1, child);
      var r := AddChildren(g, st2, child + 1, depth + 1);
      BelowLinked(st.log, st1.log, at, 1);
      BelowAppend(st1.log, st2.log, child);
      BelowLinked(st1.log, st2.log, child, 1);
      AddChildrenFanout(g, st2, child + 1, depth + 1);
      ServerKind(st1.log[child].op);
      BelowFresh(st1.log, st2.log, r.log, child, child + 1, 1, 3);
      BelowFresh(st.log, st1.log, r.log, at, child, 1, 1);
    } else if op.typ.Internal? && st1.remaining > 0 && depth < 3 {
      BelowLinked(st.log, st1.log, at, 1);
      AddChildrenFanout(g, st1, child, depth + 1);
      BelowFresh(st.log, st1.log, AddChildren(g, st1, child, depth + 1).log, at, child, 1, 3);
    }
  }

  lemma {:induction false} BelowLinked(log: seq<Emission>, r: seq<Emission>, at: nat, most: nat)
    requires Below(log, r, at, most)
    ensures Linked(r)
  {
  }

  lemma {:induction false} ServerKind(op: Operation)
    ensures ServerCounterpart(op).kind == KindServer
  {
  }

  lemma {:induction false} RoundsFanout(g: Gen, st: State, at: nat, depth: nat, k: nat)
    requires Placed(g, st, at) && 1 <= depth <= 6 && Linked(st.log)
    ensures Below(st.log, Rounds(g, st, at, depth, k).log, at, k)
    decreases 7 - depth, 2, k
  {
    hide Valid, Round, Kids;
    if k == 0 || st.remaining <= 0 {
    } else {
      var r := Round(g, st, at, depth);
      RoundFanout(g, st, at, depth);
      RoundsFanout(g, r, at, depth, k - 1);
      BelowTrans(st.log, r.log, Rounds(g, r, at, depth, k - 1).log, at, 1, k - 1);
    }
  }

  lemma {:induction false} AddChildrenFanout(g: Gen, st: State, at: nat, depth: nat)
    requires Placed(g, st, at) && 1 <= depth <= 7 && Linked(st.log)
    ensures Below(st.log, AddChildren(g, st, at, depth).log, at, 3)
    decreases 7 - depth, 3, 0
  {
    hide Valid, Rounds, Kids;
    if st.remaining <= 0 || depth > 6 {
    } else {
      RoundsFanout(g, st.(pos := st.pos + 1), at, depth, 1 + IntN(g.tape(st.pos), 3));
    }
  }

  lemma {:induction false} TraceFanout(g: Gen, st: State, budget: int)
    requires g.Ok() && Linked(st.log) && Limited(st.log, 0)
    ensures Linked(GenTrace(g, st, budget).log) && Limited(GenTrace(g, st, budget).log, 0)
  {
    hide Valid, EmitRoot, AddChildren, Kids, KidLimit;
    var st1 := EmitRoot(g, st, budget);
    var r := AddChildren(g, st1, |st.log|, 1);
    RootFanout(g, st, budget);
    AddChildrenFanout(g, st1, |st.log|, 1);
    forall a | 0 <= a < |r.log| ensures Kids(r.log, a) <= KidLimit(r.log[a].op) {
      if a < |st1.log| {
        assert r.log[a] == st1.log[a];
        if a == |st.log| {
          assert Kids(r.log, a) <= 3;
          RootLimit(g, st, budget);
        }
      }
    }
  }

  lemma {:induction false} RootLimit(g: Gen, st: State, budget: int)
    requires g.Ok()
    ensures KidLimit(EmitRoot(g, st, budget).log[|st.log|].op) == 3
  {
    RootSpanOk(g, st, budget);
    EntryOps(g.cat, EmitRoot(g, st, budget).log[|st.log|].svc);
  }

  lemma {:induction false} RootFanout(g: Gen, st: State, budget: int)
    requires g.Ok() && Linked(st.log) && Limited(st.log, 0)
    ensures var log := EmitRoot(g, st, budget).log;
            Linked(log) && Limited(log, 0) && Kids(log, |st.log|) == 0
  {
    hide Valid, EmitRoot;
    var log := EmitRoot(g, st, budget).log;
    RootSpanOk(g, st, budget);
    forall a | 0 <= a <= |st.log| ensures Kids(log, a) == Kids(st.log, a) {
      KidsAppend(st.log, log, a);
    }
    KidsOfLeaf(st.log, |st.log|);
  }

  lemma {:induction false} FillFromFanout(g: Gen, st: State, target: int)
    requires g.Ok() && Linked(st.log) && Limited(st.log, 0)
    ensures Linked(FillFrom(g, st, target).log) && Limited(FillFrom(g, st, target).log, 0)
    decreases target - |st.log|
  {
    hide GenTrace, Linked, Limited, Valid;
    if |st.log| >= target {
    } else {
      TraceFanout(g, st, target - |st.log|);
      FillFromFanout(g, GenTrace(g, st, target - |st.log|), target);
    }
  }

  /** In every batch a CLIENT span has at most one child and any other span at most three. */
  lemma {:induction false} BatchFanout(g: Gen, pos: nat, target: int)
    requires g.Ok()
    ensures Linked(FillBatch(g, pos, target).log) && Limited(FillBatch(g, pos, target).log, 0)
  {
    FillFromFanout(g, State(pos, [], 0), target);
  }
}
