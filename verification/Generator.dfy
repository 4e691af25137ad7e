/** The generator as the source writes it: one object per worker that appends to the batch in place.

    Its methods are proved to compute the functions of `Traces`. The span slices of the batch are
    shared: `scopes` aliases them, so that a span reaches the batch through the cache. */
module Generator {
  import opened Catalog
  import opened Grouping
  import opened Random
  import opened Telemetry
  import Oracle
  import Traces
  import SpanBudget = Budget

  class SpanSlice {
    var items: seq<Span>

    constructor ()
      ensures items == []
    {
      items := [];
    }
  }

  /** One ResourceSpans with its single ScopeSpans; the spans live in a slice of their own. */
  datatype Entry = Entry(attrs: map<string, string>, scopeName: string, scopeVer: string, slice: SpanSlice)

  class TraceData {
    var entries: seq<Entry>

    constructor ()
      ensures entries == []
    {
      entries := [];
    }

    ghost function Slices(): set<SpanSlice>
      reads this
    {
      set k | 0 <= k < |entries| :: entries[k].slice
    }

    /** The batch as a value. */
    function View(): (td: seq<ResourceSpans>)
      reads this, Slices()
    {
      seq(|entries|, k requires 0 <= k < |entries| reads this, Slices() =>
        var e := entries[k];
        ResourceSpans(e.attrs, [ScopeSpans(e.scopeName, e.scopeVer, map[], e.slice.items)]))
    }
  }

  /** The span budget of one trace, shared by all the calls that build it. */
  class Remaining {
    var left: int

    constructor (left: int)
      ensures this.left == left
    {
      this.left := left;
    }
  }

  /** Entries, groups and cache agree on the services, their attributes and their slices. */
  ghost predicate Tied(cat: Catalog, groups: seq<Group>, scopes: map<nat, SpanSlice>, entries: seq<Entry>) {
    && Distinct(groups)
    && |entries| == |groups|
    && (forall k :: 0 <= k < |groups| ==>
         && groups[k].svc < |cat.services|
         && entries[k].attrs == cat.services[groups[k].svc].resourceAttrs
         && entries[k].scopeName == cat.scopeName && entries[k].scopeVer == cat.scopeVer
         && groups[k].svc in scopes && scopes[groups[k].svc] == entries[k].slice)
    && (forall svc :: svc in scopes ==> IndexOf(groups, svc) < |groups|)
    && (forall j, k :: 0 <= j < k < |groups| ==> entries[j].slice != entries[k].slice)
  }

  lemma {:induction false} TiedOpen(cat: Catalog, groups: seq<Group>, scopes: map<nat, SpanSlice>,
                                    entries: seq<Entry>, svc: nat, slice: SpanSlice)
    requires Tied(cat, groups, scopes, entries)
    requires svc < |cat.services| && svc !in scopes
    requires forall k :: 0 <= k < |entries| ==> entries[k].slice != slice
    ensures IndexOf(groups, svc) == |groups| == |entries|
    ensures EnsureGroup(groups, svc) == groups + [Group(svc, [])]
    ensures IndexOf(EnsureGroup(groups, svc), svc) == |groups|
    ensures Tied(cat, EnsureGroup(groups, svc), scopes[svc := slice],
                 entries + [Entry(cat.services[svc].resourceAttrs, cat.scopeName, cat.scopeVer, slice)])
  {
    hide IndexOf, EnsureGroup, Distinct;
    Opened(groups, svc);
  }

  lemma {:induction false} TiedAppend(cat: Catalog, groups: seq<Group>, scopes: map<nat, SpanSlice>,
                                      entries: seq<Entry>, svc: nat, span: Span)
    requires Tied(cat, groups, scopes, entries)
    requires IndexOf(groups, svc) < |groups|
    ensures Tied(cat, AppendSpan(groups, svc, span), scopes, entries)
    ensures forall k :: 0 <= k < |groups| && k != IndexOf(groups, svc) ==>
              entries[k].slice != entries[IndexOf(groups, svc)].slice
  {
    hide IndexOf, Distinct;
    Appended(groups, svc, span);
  }

  lemma {:induction false} HasChildOps(cat: Catalog, svc: nat)
    requires Valid(cat) && svc < |cat.services|
    ensures |cat.services[svc].childOps| >= 2
  {
    assert ChildOpsOk(cat.services[svc].childOps, svc, |cat.services|);
  }

  lemma {:induction false} HasServices(cat: Catalog)
    requires Valid(cat)
    ensures |cat.services| >= 1
  {
  }

  lemma {:induction false} HasEntryOps(cat: Catalog, svc: nat)
    requires Valid(cat) && svc < |cat.services|
    ensures |cat.services[svc].entryOps| >= 2
  {
    assert Described(cat.services[svc], svc);
  }

  lemma {:induction false} Kept(g: Traces.Gen, st: Traces.State, r: Traces.State, at: nat)
    requires Traces.Placed(g, st, at) && st.log <= r.log
    ensures Traces.Placed(g, r, at) && r.log[at] == st.log[at]
  {
  }

  class Generator {
    const g: Traces.Gen
    const rng: Rng
    var scopes: map<nat, SpanSlice>
    var lastSpanID: nat
    ghost var log: seq<Traces.Emission>
    ghost var groups: seq<Group>

    constructor (g: Traces.Gen)
      ensures this.g == g && fresh(rng) && rng.tape == g.tape && rng.pos == 0
      ensures scopes == map[] && log == []
    {
      this.g := g;
      rng := new Rng(g.tape);
      scopes := map[];
      lastSpanID := 0;
      log := [];
      groups := [];
    }

    ghost predicate Ok() {
      g.Ok() && rng.tape == g.tape
    }

    /** The batch is the stored form of `groups`, and the cache maps exactly the services in the
        batch to their own slices. */
    ghost predicate Agrees(td: TraceData)
      reads `scopes, `groups, td, td.Slices()
    {
      && Tied(g.cat, groups, scopes, td.entries)
      && forall k :: 0 <= k < |groups| ==> td.entries[k].slice.items == groups[k].spans
    }

    ghost predicate Synced(td: TraceData)
      reads `scopes, `groups, `log, td, td.Slices()
    {
      Agrees(td) && groups == Grouped(log)
    }

    /** The generator's progress as a state of the specification, with `left` spans to spend. */
    ghost function Now(left: int): Traces.State
      reads this, rng
    {
      Traces.State(rng.pos, log, left)
    }

    static lemma {:induction false} AlreadyOpen(gs: seq<Group>, svc: nat)
      requires IndexOf(gs, svc) < |gs|
      ensures EnsureGroup(gs, svc) == gs
    {
    }

    /** Creates the ResourceSpans of a service that the batch does not have yet. */
    method OpenScope(td: TraceData, svc: nat) returns (slice: SpanSlice)
      requires Agrees(td) && svc < |g.cat.services|
      requires svc !in scopes
      modifies this`scopes, this`groups, td
      ensures Agrees(td) && groups == EnsureGroup(old(groups), svc)
      ensures slice == td.entries[IndexOf(groups, svc)].slice
      ensures fresh(td.Slices() - old(td.Slices()))
    {
      hide Tied, IndexOf, EnsureGroup;
      slice := new SpanSlice();
      TiedOpen(g.cat, groups, scopes, td.entries, svc, slice);
      td.entries := td.entries + [Entry(g.cat.services[svc].resourceAttrs, g.cat.scopeName, g.cat.scopeVer, slice)];
      scopes := scopes[svc := slice];
      groups := EnsureGroup(groups, svc);
    }

    /** The slice of a service in this batch; a ResourceSpans is created at its first use. */
    method ScopeFor(td: TraceData, svc: nat) returns (slice: SpanSlice)
      requires Agrees(td) && svc < |g.cat.services|
      modifies this`scopes, this`groups, td
      ensures Agrees(td) && groups == EnsureGroup(old(groups), svc)
      ensures slice == td.entries[IndexOf(groups, svc)].slice
      ensures fresh(td.Slices() - old(td.Slices()))
    {
      hide Valid, IndexOf, EnsureGroup, Distinct;
      if svc in scopes {
        AlreadyOpen(groups, svc);
        slice := scopes[svc];
      } else {
        slice := OpenScope(td, svc);
      }
    }

    /** Adds one span to a slice of the batch. */
    method AppendTo(td: TraceData, slice: SpanSlice, svc: nat, span: Span)
      requires Agrees(td) && IndexOf(groups, svc) < |groups|
      requires slice == td.entries[IndexOf(groups, svc)].slice
      modifies slice, this`groups
      ensures Agrees(td) && groups == AppendSpan(old(groups), svc, span)
    {
      hide Tied, IndexOf;
      TiedAppend(g.cat, groups, scopes, td.entries, svc, span);
      slice.items := slice.items + [span];
      groups := AppendSpan(groups, svc, span);
    }

    method AddSpan(td: TraceData, svc: nat, span: Span)
      requires Agrees(td) && svc < |g.cat.services|
      modifies this`scopes, this`groups, td, td.Slices()
      ensures Agrees(td) && fresh(td.Slices() - old(td.Slices()))
      ensures groups == AppendSpan(EnsureGroup(old(groups), svc), svc, span)
    {
      hide Valid, Distinct, IndexOf, EnsureGroup;
      var slice := ScopeFor(td, svc);
      AppendTo(td, slice, svc, span);
    }

    /** The span's event, if it gets one: an exception half-way, or progress a third of the way in. */
    method DrawEvents(isErr: bool, start: nat, dur: nat) returns (events: seq<Event>)
      requires rng.tape == g.tape
      modifies rng
      ensures isErr ==> events == [Traces.ExceptionEvent(g.tape(old(rng.pos)), start + dur / 2)]
                        && rng.pos == old(rng.pos) + 1
      ensures !isErr && Oracle.Float64(g.tape(old(rng.pos))) < g.eventRate ==>
                events == [Traces.InfoEvent(g.tape(old(rng.pos) + 1), start + dur / 3)]
                && rng.pos == old(rng.pos) + 2
      ensures !isErr && Oracle.Float64(g.tape(old(rng.pos))) >= g.eventRate ==>
                events == [] && rng.pos == old(rng.pos) + 1
    {
      events := [];
      if isErr {
        var e := rng.Next();
        events := [Traces.ExceptionEvent(e, start + dur / 2)];
      } else {
        var f := rng.Float64();
        if f < g.eventRate {
          var e := rng.Next();
          events := [Traces.InfoEvent(e, start + dur / 3)];
        }
      }
    }

    /** Draws the id and everything else of one span. */
    method DrawSpan(traceID: TraceId, parent: nat, op: Operation, start: nat, dur: nat) returns (span: Span)
      requires rng.tape == g.tape
      modifies rng, this`lastSpanID
      ensures span == Traces.MakeSpan(g, old(rng.pos), traceID, parent, op, start, dur)
      ensures rng.pos == Traces.AfterSpan(g, old(rng.pos))
      ensures lastSpanID == span.spanId
    {
      hide Traces.ExceptionEvent, Traces.InfoEvent, Oracle.Uint64, Oracle.Float64;
      var id := rng.Next();
      lastSpanID := Oracle.Uint64(id);
      var f := rng.Float64();
      var isErr := f < g.errorRate;
      var a := rng.Next();
      var attrs := g.render(op, isErr, a);
      var events := DrawEvents(isErr, start, dur);
      span := Span(traceID, lastSpanID, parent, "", op.name, op.kind, start, start + dur, attrs,
                   if isErr then Error else Unset, if isErr then "operation failed" else "", events, []);
    }

    method EmitSpan(td: TraceData, traceID: TraceId, parent: nat, svc: nat, op: Operation, start: nat, dur: nat,
                    ghost parentAt: int, ghost left: int)
      requires Ok() && Synced(td) && svc < |g.cat.services|
      requires -1 <= parentAt < |log|
      requires parent == if parentAt == -1 then 0 else log[parentAt].span.spanId
      modifies this, rng, td, td.Slices()
      ensures Synced(td) && fresh(td.Slices() - old(td.Slices()))
      ensures Now(left) == Traces.Emit(g, old(Now(left)), traceID, parentAt, svc, op, start, dur)
      ensures Names(|old(log)|, traceID, lastSpanID, svc, start, dur)
    {
      hide Valid, Agrees, Traces.MakeSpan, Traces.AfterSpan, IndexOf, EnsureGroup, AppendSpan;
      var span := DrawSpan(traceID, parent, op, start, dur);
      AddSpan(td, svc, span);
      ghost var before := log;
      log := Traces.Emit(g, old(Now(left)), traceID, parentAt, svc, op, start, dur).log;
      Traces.MakeSpanFields(g, old(rng.pos), traceID, parent, op, start, dur);
      assert log[..|log| - 1] == before;
    }

    /** The parent as the source passes it along: by the id, service, start and duration saved from
        the moment it was emitted. It names log entry `at`. */
    ghost predicate Names(at: nat, traceID: TraceId, parentID: nat, svc: nat, start: nat, dur: nat)
      reads `log
    {
      && at < |log|
      && log[at].span.traceId == traceID
      && log[at].span.spanId == parentID
      && log[at].svc == svc
      && log[at].span.start == start
      && log[at].dur == dur
    }

    /** Draws the operation and the place of the next child of a span of service `svc`. */
    method DrawChild(svc: nat, pDur: nat, ghost at: nat, ghost left: int)
      returns (op: Operation, offset: nat, cDur: nat)
      requires Ok() && svc < |g.cat.services|
      requires at < |log| && log[at].svc == svc && log[at].dur == pDur
      modifies rng
      ensures rng.pos == old(rng.pos) + 3
      ensures op == Traces.NextOp(g, old(Now(left)), at)
      ensures offset == Traces.NextOffset(g, old(Now(left)), at)
      ensures cDur == Traces.NextDur(g, old(Now(left)), at)
    {
      hide Valid, Oracle.Offset, Oracle.ClampDur, Oracle.SampleDur, Oracle.Float64;
      HasChildOps(g.cat, svc);
      var ops := g.cat.services[svc].childOps;
      var k := rng.IntN(|ops|);
      op := ops[k];
      var f := rng.Float64();
      offset := Oracle.Offset(pDur, f);
      var sample := rng.Next();
      cDur := Oracle.ClampDur(pDur, offset, Oracle.SampleDur(sample));
    }

    /** The first half of a round: a child in the service of its parent. */
    method EmitChildSpan(td: TraceData, traceID: TraceId, parentID: nat, svc: nat, pStart: nat, pDur: nat,
                         remaining: Remaining, ghost at: nat)
      returns (op: Operation, cStart: nat, cDur: nat)
      requires Ok() && Synced(td) && svc < |g.cat.services|
      requires Names(at, traceID, parentID, svc, pStart, pDur)
      modifies this, rng, td, td.Slices(), remaining
      ensures Synced(td) && fresh(td.Slices() - old(td.Slices()))
      ensures Now(remaining.left) == Traces.EmitChild(g, old(Now(remaining.left)), at)
      ensures op == Traces.NextOp(g, old(Now(remaining.left)), at)
      ensures Names(|old(log)|, traceID, lastSpanID, svc, cStart, cDur)
    {
      hide Valid, Synced, Traces.Emit, Traces.NextOp, Traces.NextOffset, Traces.NextDur;
      var offset;
      op, offset, cDur := DrawChild(svc, pDur, at, remaining.left);
      cStart := pStart + offset;
      remaining.left := remaining.left - 1;
      EmitSpan(td, traceID, parentID, svc, op, cStart, cDur, at, remaining.left);
    }

    /** The second half of a round with a peer: the SERVER span that the CLIENT span at `client` calls. */
    method EmitServerSpan(td: TraceData, traceID: TraceId, clientSpanID: nat, svc: nat, op: Operation,
                          cStart: nat, cDur: nat, remaining: Remaining, ghost client: nat)
      returns (sStart: nat, sDur: nat)
      requires Ok() && Synced(td) && 0 <= op.peer < |g.cat.services|
      requires Names(client, traceID, clientSpanID, svc, cStart, cDur) && log[client].op == op
      modifies this, rng, td, td.Slices(), remaining
      ensures Synced(td) && fresh(td.Slices() - old(td.Slices()))
      ensures Now(remaining.left) == Traces.EmitServer(g, old(Now(remaining.left)), client)
      ensures Names(|old(log)|, traceID, lastSpanID, op.peer, sStart, sDur)
    {
      hide Valid, Synced, Traces.Emit, Oracle.ServerLead, Oracle.ServerDur, Traces.ServerCounterpart;
      sStart := cStart + Oracle.ServerLead(cDur);
      sDur := Oracle.ServerDur(cDur);
      remaining.left := remaining.left - 1;
      EmitSpan(td, traceID, clientSpanID, op.peer, Traces.ServerCounterpart(op), sStart, sDur, client, remaining.left);
    }

    /** What follows below a child. The id saved from `lastSpanID` still names the right span when the
        recursion, which overwrites that field, needs it. */
    method Descend(td: TraceData, traceID: TraceId, clientSpanID: nat, svc: nat, op: Operation,
                   cStart: nat, cDur: nat, remaining: Remaining, depth: nat, ghost child: nat)
      requires Ok() && Synced(td) && svc < |g.cat.services|
      requires 1 <= depth <= 6
      requires Names(child, traceID, clientSpanID, svc, cStart, cDur) && log[child].op == op
      requires ChildOp(op, svc, |g.cat.services|)
      modifies this, rng, td, td.Slices(), remaining
      ensures Synced(td) && fresh(td.Slices() - old(td.Slices()))
      ensures Now(remaining.left) == Traces.Descend(g, old(Now(remaining.left)), child, depth)
      decreases 7 - depth, 0
    {
      hide Valid, Synced, Traces.EmitServer, Traces.AddChildren;
      if op.peer >= 0 && remaining.left > 0 {
        ghost var server := |log|;
        var sStart, sDur := EmitServerSpan(td, traceID, clientSpanID, svc, op, cStart, cDur, remaining, child);
        var peerServerID := lastSpanID;
        AddChildren(td, traceID, peerServerID, op.peer, sStart, sDur, remaining, depth + 1, server);
      } else if op.typ == Internal && remaining.left > 0 && depth < 3 {
        AddChildren(td, traceID, clientSpanID, svc, cStart, cDur, remaining, depth + 1, child);
      }
    }

    /** One round of the child loop. */
    method AddChild(td: TraceData, traceID: TraceId, parentID: nat, svc: nat, pStart: nat, pDur: nat,
                    remaining: Remaining, depth: nat, ghost at: nat)
      requires Ok() && Synced(td) && svc < |g.cat.services|
      requires 1 <= depth <= 6
      requires Names(at, traceID, parentID, svc, pStart, pDur)
      modifies this, rng, td, td.Slices(), remaining
      ensures Synced(td) && fresh(td.Slices() - old(td.Slices()))
      ensures Now(remaining.left) == Traces.Round(g, old(Now(remaining.left)), at, depth)
      decreases 7 - depth, 1
    {
      hide Valid, ChildOp, Synced, Traces.EmitChild, Traces.NextOp, Traces.Descend;
      ghost var child := |log|;
      var op, cStart, cDur := EmitChildSpan(td, traceID, parentID, svc, pStart, pDur, remaining, at);
      Descend(td, traceID, lastSpanID, svc, op, cStart, cDur, remaining, depth, child);
    }

    /** Adds children below a span until the budget or the depth cap stops it. */
    method AddChildren(td: TraceData, traceID: TraceId, parentID: nat, svc: nat, pStart: nat, pDur: nat,
                       remaining: Remaining, depth: nat, ghost at: nat)
      requires Ok() && Synced(td) && svc < |g.cat.services|
      requires 1 <= depth <= 7
      requires Names(at, traceID, parentID, svc, pStart, pDur)
      modifies this, rng, td, td.Slices(), remaining
      ensures Synced(td) && fresh(td.Slices() - old(td.Slices()))
      ensures Now(remaining.left) == Traces.AddChildren(g, old(Now(remaining.left)), at, depth)
      decreases 7 - depth, 3
    {
      hide Valid, Synced, Traces.Rounds;
      HasChildOps(g.cat, svc);
      if remaining.left <= 0 || depth > 6 {
        return;
      }
      if |g.cat.services[svc].childOps| == 0 {
        return;
      }
      var extra := rng.IntN(3);
      var nChildren := 1 + extra;
      AddRounds(td, traceID, parentID, svc, pStart, pDur, remaining, depth, nChildren, at);
    }

    /** The child loop itself. */
    method AddRounds(td: TraceData, traceID: TraceId, parentID: nat, svc: nat, pStart: nat, pDur: nat,
                     remaining: Remaining, depth: nat, nChildren: nat, ghost at: nat)
      requires Ok() && Synced(td) && svc < |g.cat.services|
      requires 1 <= depth <= 6
      requires Names(at, traceID, parentID, svc, pStart, pDur)
      modifies this, rng, td, td.Slices(), remaining
      ensures Synced(td) && fresh(td.Slices() - old(td.Slices()))
      ensures Now(remaining.left) == Traces.Rounds(g, old(Now(remaining.left)), at, depth, nChildren)
      decreases 7 - depth, 2
    {
      hide Valid, Synced, Traces.Round;
      assert Traces.Placed(g, Now(remaining.left), at);
      hide Ok, Traces.Placed;
      var i := 0;
      ghost var st0 := Now(remaining.left);
      while i < nChildren && remaining.left > 0
        invariant 0 <= i <= nChildren
        invariant Synced(td) && fresh(td.Slices() - old(td.Slices()))
        invariant Names(at, traceID, parentID, svc, pStart, pDur)
        invariant Traces.Placed(g, Now(remaining.left), at)
        invariant Traces.Rounds(g, Now(remaining.left), at, depth, nChildren - i)
               == Traces.Rounds(g, st0, at, depth, nChildren)
      {
        ghost var st := Now(remaining.left);
        AddChild(td, traceID, parentID, svc, pStart, pDur, remaining, depth, at);
        Kept(g, st, Now(remaining.left), at);
        i := i + 1;
      }
    }

    /** Draws the place of a new trace and its size. */
    method DrawRoot(budget: int)
      returns (traceID: TraceId, svc: nat, entry: Operation, start: nat, dur: nat, size: nat)
      requires Ok()
      modifies rng
      ensures rng.pos == old(rng.pos) + 8
      ensures size == Traces.TraceSize(g, g.tape(old(rng.pos) + 2), budget)
      ensures Traces.Root(traceID, svc, entry, start, dur) == Traces.DrawRoot(g, old(rng.pos))
    {
      hide Valid, Oracle.Clock, Oracle.SampleDur, Oracle.Uint64, Oracle.IntN, Traces.CutSize;
      HasServices(g.cat);
      var lo := rng.Next();
      var hi := rng.Next();
      traceID := TraceId(Oracle.Uint64(lo), Oracle.Uint64(hi));
      var drawn := rng.IntN(g.maxSpans - g.minSpans + 1);
      size := Traces.CutSize(g.minSpans + drawn, budget);
      svc := rng.IntN(|g.cat.services|);
      HasEntryOps(g.cat, svc);
      var k := rng.IntN(|g.cat.services[svc].entryOps|);
      entry := g.cat.services[svc].entryOps[k];
      var now := rng.Next();
      var ago := rng.IntN(2000);
      start := Oracle.Clock(now) - ago * 1_000_000;
      var sample := rng.Next();
      dur := Oracle.SampleDur(sample);
    }

    /** Emits the root span of a trace of at most `budget` spans. */
    method EmitRootSpan(td: TraceData, budget: int, ghost left: int)
      returns (traceID: TraceId, svc: nat, start: nat, dur: nat, size: nat)
      requires Ok() && Synced(td)
      modifies this, rng, td, td.Slices()
      ensures Synced(td) && fresh(td.Slices() - old(td.Slices()))
      ensures Now(size - 1) == Traces.EmitRoot(g, old(Now(left)), budget)
      ensures size == Traces.TraceSize(g, g.tape(old(rng.pos) + 2), budget)
      ensures Names(|old(log)|, traceID, lastSpanID, svc, start, dur)
    {
      hide Valid, Synced, Traces.Emit, Traces.DrawRoot, Traces.TraceSize;
      var entry;
      traceID, svc, entry, start, dur, size := DrawRoot(budget);
      EmitSpan(td, traceID, 0, svc, entry, start, dur, -1, size - 1);
    }

    /** Builds one trace and returns the number of its spans. */
    method GenTrace(td: TraceData, budget: int, ghost left: int) returns (count: int, ghost rest: int)
      requires Ok() && Synced(td)
      requires budget >= 1
      modifies this, rng, td, td.Slices()
      ensures Synced(td) && fresh(td.Slices() - old(td.Slices()))
      ensures Now(rest) == Traces.GenTrace(g, old(Now(left)), budget)
      ensures count == |log| - |old(log)|
    {
      hide Valid, Synced, Traces.EmitRoot, Traces.AddChildren, Traces.TraceSize, SpanBudget.Cap;
      var traceID, svc, start, dur, size := EmitRootSpan(td, budget, left);
      var rootSpanID := lastSpanID;
      var remaining := new Remaining(size - 1);
      AddChildren(td, traceID, rootSpanID, svc, start, dur, remaining, 1, |old(log)|);
      SpanBudget.TraceBudget(g, old(Now(left)), budget);
      return size - remaining.left, remaining.left;
    }

    /** Fills an empty batch with whole traces until it holds `target` spans. */
    method FillBatch(td: TraceData, target: int) returns (count: int)
      requires Ok()
      requires td.entries == []
      modifies this, rng, td
      ensures log == Traces.FillBatch(g, old(rng.pos), target).log
      ensures rng.pos == Traces.FillBatch(g, old(rng.pos), target).pos
      ensures Owned(g.cat, Grouped(log)) && td.View() == StoredBatch(g.cat, Grouped(log))
      ensures count == |log| == if target >= 0 then target else 0
      ensures Synced(td) && fresh(td.Slices())
    {
      hide Valid, Traces.GenTrace, Agrees, StoredBatch, Owned, Grouped;
      Begin(td);
      count := 0;
      ghost var left := 0;
      ghost var pos := rng.pos;
      while count < target
        invariant Synced(td) && fresh(td.Slices())
        invariant count == |log|
        invariant Traces.FillFrom(g, Now(left), target) == Traces.FillBatch(g, pos, target)
        decreases target - count
      {
        var n;
        n, left := GenTrace(td, target - count, left);
        count := count + n;
      }
      SpanBudget.FillBatchExact(g, pos, target);
      Viewed(td);
    }

    /** Starts a batch: the cache is cleared, which makes it agree with an empty trace set. */
    method Begin(td: TraceData)
      requires td.entries == []
      modifies this`scopes, this`log, this`groups
      ensures Synced(td) && td.Slices() == {} && log == []
    {
      scopes := map[];
      log, groups := [], [];
    }

    lemma {:induction false} Viewed(td: TraceData)
      requires Synced(td)
      ensures Owned(g.cat, Grouped(log)) && td.View() == StoredBatch(g.cat, Grouped(log))
    {
      hide Distinct, IndexOf, Grouped;
    }
  }

  /** A second batch on a fresh trace set leaves the first as it was: the cache was cleared, so no
      slice of the first is reachable from the generator any more. */
  method FillTwo(gen: Generator, first: TraceData, second: TraceData, target: int)
    requires gen.Ok()
    requires first != second && first.entries == [] && second.entries == []
    modifies gen, gen.rng, first, second
    ensures var one := Traces.FillBatch(gen.g, old(gen.rng.pos), target);
            var two := Traces.FillBatch(gen.g, one.pos, target);
            && Owned(gen.g.cat, Grouped(one.log)) && Owned(gen.g.cat, Grouped(two.log))
            && first.View() == StoredBatch(gen.g.cat, Grouped(one.log))
            && second.View() == StoredBatch(gen.g.cat, Grouped(two.log))
  {
    hide Valid, Traces.FillBatch, Grouped, Tied, IndexOf;
    var n1 := gen.FillBatch(first, target);
    var n2 := gen.FillBatch(second, target);
  }
}
