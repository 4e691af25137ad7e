/** The bounds on traces are reached: the most spans, the deepest ones, and a span of no duration, in the
    topology that one constant stream builds. */
module Extremes {
  import opened Budget
  import opened Catalog
  import opened Forest
  import opened Oracle
  import opened Shape
  import opened Traces
  import Rotation

  // ---- a topology with long call paths ----

  function Fives(): Tape {
    (k: nat) => 5
  }

  /** Every service calls the sixth after it, if there is one, by the first of its five operations. */
  ghost predicate BySixes(cat: Catalog) {
    forall i :: 0 <= i < |cat.services| - 6 ==>
      |cat.services[i].childOps| == 5 && cat.services[i].childOps[0].peer == i + 6
  }

  lemma {:induction false} FirstCall(pos: nat, i: nat, n: nat)
    requires i + 6 < n
    ensures CallAt(Fives(), pos, i, n).value.peer == i + 6
  {
    hide HttpDescribed, ServiceName, HTTP_ROUTES;
    Rotation.SmallRemainder(5, n - i - 1);
  }

  lemma {:induction false} FiveOps(pos: nat, i: nat, n: nat)
    requires i + 6 < n
    ensures var ops := ChildOpsAt(Fives(), pos, i, n).value; |ops| == 5 && ops[0].peer == i + 6
  {
    hide CallAt, ServiceName, DbCall;
    var tape := Fives();
    FirstCall(pos + 1, i, n);
    assert CallsFrom(tape, pos + 1, i, n, 1).value == [CallAt(tape, pos + 1, i, n).value];
    assert CallsFrom(tape, pos + 1, i, n, 2).value[0] == CallAt(tape, pos + 1, i, n).value;
    assert |CallOpsAt(tape, pos, i, n).value| == 2;
  }

  /** The second pass gives each service the operations that it draws for it. */
  lemma {:induction false} LinkedOps(tape: Tape, n: nat, i: nat, k: nat)
    requires k < i <= n
    ensures exists pos :: LinkedAt(tape, n, i).value[k].childOps == ChildOpsAt(tape, pos, k, n).value
  {
    hide ChildOpsAt, ServicesAt, ServiceAt, ServiceName;
    var before := LinkedAt(tape, n, i - 1);
    if k < i - 1 {
      LinkedOps(tape, n, i - 1, k);
      assert LinkedAt(tape, n, i).value[k] == before.value[k];
    } else {
      assert LinkedAt(tape, n, i).value[k].childOps == ChildOpsAt(tape, before.pos, k, n).value;
    }
  }

  lemma {:induction false} FivesBySixes(n: nat, scopeName: string, scopeVer: string)
    requires n >= 1
    ensures BySixes(Topology(n, scopeName, scopeVer, Fives()))
  {
    hide ChildOpsAt, LinkedAt;
    var cat := Topology(n, scopeName, scopeVer, Fives());
    forall i | 0 <= i < n - 6
      ensures |cat.services[i].childOps| == 5 && cat.services[i].childOps[0].peer == i + 6
    {
      LinkedOps(Fives(), n, n, i);
      var pos: nat :| cat.services[i].childOps == ChildOpsAt(Fives(), pos, i, n).value;
      FiveOps(pos, i, n);
    }
  }

  lemma {:induction false} CallsSixth(g: Gen, st: State, at: nat)
    requires Placed(g, st, at) && BySixes(g.cat) && st.log[at].svc + 6 < |g.cat.services|
    requires g.tape(st.pos) % 5 == 0
    ensures NextOp(g, st, at).peer == st.log[at].svc + 6
  {
    hide Valid, ChildOp;
  }

  // ---- the largest trace ----

  /** On the stream of fives every round is a remote call, and there are three of them everywhere. */
  ghost predicate Busy(g: Gen, st: State, at: nat, depth: nat) {
    && Placed(g, st, at) && BySixes(g.cat) && |g.cat.services| >= 42 && g.tape == Fives()
    && 1 <= depth <= 7
    && st.log[at].svc == 5 + 6 * (depth - 1)
  }

  lemma {:induction false} StillBusy(g: Gen, st: State, r: State, at: nat, depth: nat)
    requires Busy(g, st, at, depth) && st.log <= r.log
    ensures Busy(g, r, at, depth)
  {
    hide Valid, BySixes;
    assert r.log[at] == st.log[at];
  }

  /** A child and, if it is a remote call, the server that it calls. */
  function CallOut(g: Gen, st: State, at: nat): State
    requires Placed(g, st, at)
  {
    var st1 := EmitChild(g, st, at);
    if st1.log[|st.log|].op.peer >= 0 then EmitServer(g, st1, |st.log|) else st1
  }

  /** A remote call: two spans, and what the callee does. */
  lemma {:induction false} BusyRound(g: Gen, st: State, at: nat, depth: nat)
    requires Busy(g, st, at, depth) && depth <= 6 && st.remaining >= 2
    ensures var st2 := CallOut(g, st, at);
            && st2.remaining == st.remaining - 2
            && Busy(g, st2, |st.log| + 1, depth + 1)
            && st2.log[|st.log| + 1].level == st.log[at].level + 2
            && Round(g, st, at, depth) == AddChildren(g, st2, |st.log| + 1, depth + 1)
  {
    hide Valid, ChildOp, Emit, EmitChild, EmitServer, NextOp, ServerCounterpart, AddChildren, BySixes;
    CallsSixth(g, st, at);
    CallLevels(g, st, at);
  }

  lemma {:induction false} FullRound(g: Gen, st: State, at: nat, depth: nat)
    requires Busy(g, st, at, depth) && depth <= 6 && st.remaining >= Cap(depth + 1) + 2
    ensures Round(g, st, at, depth).remaining == st.remaining - Cap(depth + 1) - 2
    decreases 7 - depth, 1, 0
  {
    hide Valid, BySixes, CallOut, AddChildren, Round, Cap;
    BusyRound(g, st, at, depth);
    FullChildren(g, CallOut(g, st, at), |st.log| + 1, depth + 1);
  }

  lemma {:induction false} FullRounds(g: Gen, st: State, at: nat, depth: nat, k: nat)
    requires Busy(g, st, at, depth) && depth <= 6 && st.remaining >= RoundsCap(depth, k)
    ensures Rounds(g, st, at, depth, k).remaining == st.remaining - RoundsCap(depth, k)
    decreases 7 - depth, 2, k
  {
    hide Valid, BySixes, Round, Cap;
    if k == 0 {
    } else {
      FullRound(g, st, at, depth);
      StillBusy(g, st, Round(g, st, at, depth), at, depth);
      FullRounds(g, Round(g, st, at, depth), at, depth, k - 1);
    }
  }

  lemma {:induction false} FullChildren(g: Gen, st: State, at: nat, depth: nat)
    requires Busy(g, st, at, depth) && st.remaining >= Cap(depth)
    ensures AddChildren(g, st, at, depth).remaining == st.remaining - Cap(depth)
    decreases 7 - depth, 3, 0
  {
    hide Valid, BySixes, Rounds, RoundsCap;
    if depth == 7 {
    } else {
      CapPositive(depth);
      FullRounds(g, st.(pos := st.pos + 1), at, depth, 3);
    }
  }

  lemma {:induction false} CapPositive(depth: nat)
    requires depth < 7
    ensures Cap(depth) > 0
  {
    assert RoundsCap(depth, 3) >= 2;
  }

  ghost predicate Deep(log: seq<Emission>) {
    exists i :: 0 <= i < |log| && log[i].level == 12
  }

  lemma {:induction false} DeepKept(log: seq<Emission>, r: seq<Emission>)
    requires Deep(log) && log <= r
    ensures Deep(r)
  {
    var i :| 0 <= i < |log| && log[i].level == 12;
    assert r[i] == log[i];
  }

  /** The first call at every depth leads two levels down. */
  lemma {:induction false} DeepRound(g: Gen, st: State, at: nat, depth: nat)
    requires Busy(g, st, at, depth) && depth <= 6
    requires st.remaining >= 2 * (7 - depth) && st.log[at].level == 2 * (depth - 1)
    ensures Deep(Round(g, st, at, depth).log)
    decreases 7 - depth, 0
  {
    hide Valid, BySixes, CallOut, AddChildren, Round, Deep;
    BusyRound(g, st, at, depth);
    DeepChildren(g, CallOut(g, st, at), |st.log| + 1, depth + 1);
  }

  lemma {:induction false} DeepChildren(g: Gen, st: State, at: nat, depth: nat)
    requires Busy(g, st, at, depth)
    requires st.remaining >= 2 * (7 - depth) && st.log[at].level == 2 * (depth - 1)
    ensures Deep(AddChildren(g, st, at, depth).log)
    decreases 7 - depth, 1
  {
    hide Valid, BySixes, Round;
    if depth == 7 {
      assert AddChildren(g, st, at, depth).log[at].level == 12;
    } else {
      hide Deep;
      var st1 := st.(pos := st.pos + 1);
      var k := 1 + IntN(g.tape(st.pos), 3);
      DeepRound(g, st1, at, depth);
      DeepKept(Round(g, st1, at, depth).log, Rounds(g, Round(g, st1, at, depth), at, depth, k - 1).log);
    }
  }

  lemma {:induction false} CallLevels(g: Gen, st: State, at: nat)
    requires Placed(g, st, at) && EmitChild(g, st, at).log[|st.log|].op.peer >= 0
    ensures CallOut(g, st, at).log[|st.log| + 1].level == st.log[at].level + 2
  {
    hide Valid, MakeSpan, NextOp, ServerCounterpart;
  }

  lemma {:induction false} BusyRoot(g: Gen, st: State, budget: int)
    requires g.Ok() && BySixes(g.cat) && |g.cat.services| >= 42 && g.tape == Fives()
    ensures var st1 := EmitRoot(g, st, budget);
            Busy(g, st1, |st.log|, 1) && st1.log[|st.log|].level == 0
  {
    hide Valid, MakeSpan, TraceSize, BySixes;
    Rotation.SmallRemainder(5, |g.cat.services|);
  }

  /** The bound of 2185 spans for a trace is reached, and so is that of 12 levels. */
  lemma {:induction false} LargestTrace(g: Gen, n: nat, scopeName: string, scopeVer: string)
    requires g.Ok() && n >= 42 && g.cat == Topology(n, scopeName, scopeVer, Fives()) && g.tape == Fives()
    requires g.minSpans >= 2185
    ensures var log := FillBatch(g, 0, 2185).log;
            && |log| == 2185
            && (forall i :: 0 <= i < |log| ==> log[i].root == 0)
            && exists i :: 0 <= i < |log| && Height(log, i) == 12
  {
    hide Valid, BySixes, EmitRoot, AddChildren, TraceSize, Topology, Cap, Busy, Height;
    var st := State(0, [], 0);
    var st1 := EmitRoot(g, st, 2185);
    var r := GenTrace(g, st, 2185);
    FivesBySixes(n, scopeName, scopeVer);
    TopologySize(n, scopeName, scopeVer);
    BusyRoot(g, st, 2185);
    LargeSize(g);
    CapAtOne();
    FullChildren(g, st1, 0, 1);
    DeepChildren(g, st1, 0, 1);
    TraceBudget(g, st, 2185);
    TraceShape(g, st, 2185);
    assert FillBatch(g, 0, 2185) == r by {
      hide GenTrace;
      assert FillFrom(g, st, 2185) == FillFrom(g, r, 2185);
    }
    var i :| 0 <= i < |r.log| && r.log[i].level == 12;
    hide GenTrace, Built;
    InsideRoot(g, r.log, i);
  }

  lemma {:induction false} TopologySize(n: nat, scopeName: string, scopeVer: string)
    requires n >= 1
    ensures |Topology(n, scopeName, scopeVer, Fives()).services| == n
  {
  }

  lemma {:induction false} LargeSize(g: Gen)
    requires g.Ok() && g.minSpans >= 2185
    ensures TraceSize(g, g.tape(2), 2185) == 2185
  {
    hide Valid;
  }

  // ---- a span of no duration ----

  /** Zeros, but for the largest draw where a child's offset is drawn and where a span without an error
      might get an event: twelve draws for each remote call, from position 12 on. */
  function Latest(): Tape {
    (k: nat) => if k >= 11 && (k % 12 == 2 || k % 12 == 7 || k % 12 == 11) then TWO_53 - 1 else 0
  }

  /** Some span has an error, or some draw gives no event. */
  predicate Eventless(g: Gen) {
    g.errorRate > 0.0 || g.eventRate <= Float64(TWO_53 - 1)
  }

  /** The last entry is where the recursion at this depth goes on, with the least duration it can have. */
  ghost predicate Shrinking(g: Gen, st: State, depth: nat) {
    && 1 <= depth <= 7 && |st.log| >= 1
    && Placed(g, st, |st.log| - 1) && BySixes(g.cat) && |g.cat.services| >= 42
    && g.tape == Latest() && Eventless(g)
    && st.pos == 12 * depth && st.remaining == 2 * (7 - depth)
    && st.log[|st.log| - 1].svc == 6 * (depth - 1)
    && st.log[|st.log| - 1].dur == DurFloor(depth)
  }

  lemma {:induction false} LatestDraws(j: nat)
    requires j >= 1
    ensures var t := Latest(); var p := 12 * j;
            && t(p) == t(p + 1) == t(p + 3) == t(p + 5) == t(p + 9) == 0
            && t(p + 2) == t(p + 7) == t(p + 11) == TWO_53 - 1
  {
  }

  lemma {:induction false} FourDraws(g: Gen, pos: nat)
    requires Eventless(g) && g.tape(pos + 1) == 0 && g.tape(pos + 3) == TWO_53 - 1
    ensures AfterSpan(g, pos) == pos + 4
  {
  }

  /** One remote call on that tape: from the floor of one depth to that of the next. */
  lemma {:induction false} ShrinkingChild(g: Gen, st: State, depth: nat)
    requires Shrinking(g, st, depth) && depth <= 6
    ensures var at := |st.log| - 1; var st1 := EmitChild(g, st.(pos := st.pos + 1), at);
            && st1.pos == st.pos + 8
            && st1.log[|st.log|].op.peer == st.log[at].svc + 6
            && ServerDur(st1.log[|st.log|].dur) == DurFloor(depth + 1)
  {
    hide Valid, BySixes, MakeSpan, NextOp, ChildOp, AfterSpan, Latest, Eventless, Offset, ClampDur, ServerDur, DurFloor;
    var st0 := st.(pos := st.pos + 1);
    LatestDraws(depth);
    FourDraws(g, st.pos + 4);
    FloorAttained(depth);
    ZeroDraw(5);
    CallsSixth(g, st0, |st.log| - 1);
  }

  lemma {:induction false} ZeroDraw(k: int)
    requires k > 0
    ensures 0 % k == 0 && IntN(0, k) == 0 && SampleDur(0) == 1000
  {
  }

  lemma {:induction false} ShrinkingServer(g: Gen, st: State, depth: nat)
    requires Shrinking(g, st, depth) && depth <= 6
    ensures Shrinking(g, CallOut(g, st.(pos := st.pos + 1), |st.log| - 1), depth + 1)
  {
    hide Valid, BySixes, EmitChild, MakeSpan, NextOp, ChildOp, AfterSpan, Latest, Eventless, ServerDur, DurFloor,
         ServerCounterpart;
    ShrinkingChild(g, st, depth);
    LatestDraws(depth);
    FourDraws(g, st.pos + 8);
  }

  ghost predicate Empty(log: seq<Emission>) {
    exists i :: 0 <= i < |log| && log[i].dur == 0
  }

  lemma {:induction false} EmptyKept(log: seq<Emission>, r: seq<Emission>)
    requires Empty(log) && log <= r
    ensures Empty(r)
  {
    var i :| 0 <= i < |log| && log[i].dur == 0;
    assert r[i] == log[i];
  }

  lemma {:induction false} ShrinkingRound(g: Gen, st: State, depth: nat, st2: State)
    requires Shrinking(g, st, depth) && depth <= 6
    requires Shrinking(g, st2, depth + 1) && st2 == CallOut(g, st.(pos := st.pos + 1), |st.log| - 1)
    ensures Round(g, st.(pos := st.pos + 1), |st.log| - 1, depth) == AddChildren(g, st2, |st2.log| - 1, depth + 1)
  {
    hide Valid, BySixes, EmitChild, EmitServer, AddChildren, ChildOp, Latest, Eventless, DurFloor, ServerDur, NextOp;
    ShrinkingChild(g, st, depth);
  }

  lemma {:induction false} ShrinksAway(g: Gen, st: State, depth: nat)
    requires Shrinking(g, st, depth)
    ensures Empty(AddChildren(g, st, |st.log| - 1, depth).log)
    decreases 7 - depth
  {
    hide Valid, BySixes, Latest, Eventless, Round, CallOut;
    if depth == 7 {
      assert st.log[|st.log| - 1].dur == 0;
    } else {
      var st0, at := st.(pos := st.pos + 1), |st.log| - 1;
      ShrinkingServer(g, st, depth);
      ShrinkingRound(g, st, depth, CallOut(g, st0, at));
      ShrinksAway(g, CallOut(g, st0, at), depth + 1);
      hide Empty;
      var k := 1 + IntN(g.tape(st.pos), 3);
      EmptyKept(Round(g, st0, at, depth).log, Rounds(g, Round(g, st0, at, depth), at, depth, k - 1).log);
    }
  }

  lemma {:induction false} ShrinkingRoot(g: Gen)
    requires g.Ok() && BySixes(g.cat) && |g.cat.services| >= 42 && g.tape == Latest() && Eventless(g)
    requires g.minSpans >= 13
    ensures Shrinking(g, EmitRoot(g, State(0, [], 0), 13), 1)
  {
    hide Valid, BySixes, MakeSpan, AfterSpan, Eventless, DrawRoot;
    FourDraws(g, 8);
    RootOfZeros(g);
  }

  lemma {:induction false} RootOfZeros(g: Gen)
    requires g.Ok() && g.tape == Latest()
    ensures DrawRoot(g, 0).svc == 0 && DrawRoot(g, 0).dur == 1000
  {
    hide Valid;
  }

  /** A span of no duration does occur, at the depth below which nothing is emitted. */
  lemma {:induction false} EmptySpan(g: Gen, n: nat, scopeName: string, scopeVer: string)
    requires g.Ok() && n >= 42 && g.cat == Topology(n, scopeName, scopeVer, Fives()) && g.tape == Latest()
    requires Eventless(g) && g.minSpans >= 13
    ensures var log := FillBatch(g, 0, 13).log;
            exists i :: 0 <= i < |log| && log[i].dur == 0 && log[i].span.start == log[i].span.end
  {
    hide Valid, BySixes, EmitRoot, AddChildren, TraceSize, Topology, Latest, Eventless;
    var st := State(0, [], 0);
    var r := GenTrace(g, st, 13);
    FivesBySixes(n, scopeName, scopeVer);
    TopologySize(n, scopeName, scopeVer);
    ShrinkingRoot(g);
    ShrinksAway(g, EmitRoot(g, st, 13), 1);
    hide GenTrace;
    assert FillFrom(g, st, 13) == FillFrom(g, r, 13);
    var log := FillBatch(g, 0, 13).log;
    EmptyKept(r.log, log);
    var i :| 0 <= i < |log| && log[i].dur == 0;
    BatchShape(g, 0, 13);
    assert SpanOk(g, log, i);
  }
}
