/** Grouping of the emission log by service, as the batch stores it. */
module Grouping {
  import opened Catalog
  import opened Telemetry
  import opened Traces

  datatype Group = Group(svc: nat, spans: seq<Span>)

  /** The place of the group of a service, or the number of groups when it has none. */
  function IndexOf(gs: seq<Group>, svc: nat): (i: nat)
    ensures i <= |gs|
    ensures i < |gs| ==> gs[i].svc == svc
    ensures forall k :: 0 <= k < i ==> gs[k].svc != svc
  {
    if gs == [] || gs[0].svc == svc then 0 else 1 + IndexOf(gs[1..], svc)
  }

  function EnsureGroup(gs: seq<Group>, svc: nat): (r: seq<Group>)
    ensures IndexOf(r, svc) < |r|
  {
    if IndexOf(gs, svc) < |gs| then gs else
      var r := gs + [Group(svc, [])];
      assert r[|gs|].svc == svc;
      r
  }

  function AppendSpan(gs: seq<Group>, svc: nat, span: Span): seq<Group>
    requires IndexOf(gs, svc) < |gs|
  {
    var i := IndexOf(gs, svc);
    gs[i := Group(svc, gs[i].spans + [span])]
  }

  /** The groups a log leads to: one per service, opened when the service first emits. */
  function Grouped(log: seq<Emission>): seq<Group> {
    if log == [] then [] else
      var e := log[|log| - 1];
      AppendSpan(EnsureGroup(Grouped(log[..|log| - 1]), e.svc), e.svc, e.span)
  }

  // ---- what grouping means ----

  /** The spans of one service, in emission order. */
  function SpansOf(log: seq<Emission>, svc: nat): seq<Span> {
    if log == [] then [] else
      var e := log[|log| - 1];
      SpansOf(log[..|log| - 1], svc) + if e.svc == svc then [e.span] else []
  }

  /** What `f` makes of each emitted span and its service, in emission order. */
  function Emitted<T>(log: seq<Emission>, f: (nat, Span) -> T): (r: seq<T>)
    ensures |r| == |log|
  {
    seq(|log|, i requires 0 <= i < |log| => f(log[i].svc, log[i].span))
  }

  /** What `f` makes of each span of one group, in order. */
  function OfGroup<T>(g: Group, f: (nat, Span) -> T): (r: seq<T>)
    ensures |r| == |g.spans|
  {
    seq(|g.spans|, i requires 0 <= i < |g.spans| => f(g.svc, g.spans[i]))
  }

  /** The same in group order. */
  function Flat<T>(gs: seq<Group>, f: (nat, Span) -> T): seq<T> {
    if gs == [] then [] else Flat(gs[..|gs| - 1], f) + OfGroup(gs[|gs| - 1], f)
  }

  ghost predicate Distinct(gs: seq<Group>) {
    forall j, k :: 0 <= j < k < |gs| ==> gs[j].svc != gs[k].svc
  }

  lemma {:induction false} FlatAppend<T>(gs: seq<Group>, i: nat, span: Span, f: (nat, Span) -> T)
    requires i < |gs|
    ensures multiset(Flat(gs[i := Group(gs[i].svc, gs[i].spans + [span])], f))
         == multiset(Flat(gs, f)) + multiset{f(gs[i].svc, span)}
    decreases |gs|
  {
    var g' := Group(gs[i].svc, gs[i].spans + [span]);
    var r := gs[i := g'];
    var n := |gs| - 1;
    if i == n {
      assert r[..n] == gs[..n];
      assert OfGroup(g', f) == OfGroup(gs[i], f) + [f(gs[i].svc, span)];
    } else {
      assert r[..n] == gs[..n][i := g'];
      FlatAppend(gs[..n], i, span, f);
    }
  }

  /** Every group is the log filtered by its service. */
  ghost predicate Filters(gs: seq<Group>, log: seq<Emission>) {
    forall k :: 0 <= k < |gs| ==> gs[k].spans == SpansOf(log, gs[k].svc)
  }

  ghost predicate Complete(gs: seq<Group>, log: seq<Emission>) {
    forall i :: 0 <= i < |log| ==> IndexOf(gs, log[i].svc) < |gs|
  }

  ghost predicate NoneEmpty(gs: seq<Group>) {
    forall k :: 0 <= k < |gs| ==> gs[k].spans != []
  }

  lemma {:induction false} AppendFilters(gs: seq<Group>, log: seq<Emission>)
    requires log != []
    requires var e := log[|log| - 1]; IndexOf(gs, e.svc) < |gs|
    requires Distinct(gs) && Filters(gs, log[..|log| - 1])
    ensures var e := log[|log| - 1];
            Distinct(AppendSpan(gs, e.svc, e.span)) && Filters(AppendSpan(gs, e.svc, e.span), log)
  {
    var e := log[|log| - 1];
    var i := IndexOf(gs, e.svc);
    var r := AppendSpan(gs, e.svc, e.span);
    forall k | 0 <= k < |r| ensures r[k].spans == SpansOf(log, r[k].svc) {
      if k != i {
        assert gs[k].svc != gs[i].svc;
      }
    }
  }

  lemma {:induction false} IndexOfPresent(gs: seq<Group>, k: nat)
    requires k < |gs|
    ensures IndexOf(gs, gs[k].svc) < |gs|
  {
  }

  lemma {:induction false} AppendCompletes(gs: seq<Group>, log: seq<Emission>)
    requires log != []
    requires var e := log[|log| - 1]; IndexOf(gs, e.svc) < |gs|
    requires Complete(gs, log[..|log| - 1])
    ensures var e := log[|log| - 1]; Complete(AppendSpan(gs, e.svc, e.span), log)
  {
    var e := log[|log| - 1];
    var r := AppendSpan(gs, e.svc, e.span);
    forall i | 0 <= i < |log| ensures IndexOf(r, log[i].svc) < |r| {
      if i < |log| - 1 {
        assert log[..|log| - 1][i] == log[i];
      }
      var k := IndexOf(gs, log[i].svc);
      assert r[k].svc == log[i].svc;
      IndexOfPresent(r, k);
    }
  }

  /** Opening a group for a service that has none puts it last and moves no other. */
  lemma {:induction false} Opened(gs: seq<Group>, svc: nat)
    requires Distinct(gs) && IndexOf(gs, svc) == |gs|
    ensures var r := EnsureGroup(gs, svc);
            && r == gs + [Group(svc, [])]
            && Distinct(r)
            && IndexOf(r, svc) == |gs|
            && forall s :: IndexOf(gs, s) < |gs| ==> IndexOf(r, s) < |r|
  {
    var r := EnsureGroup(gs, svc);
    forall s | IndexOf(gs, s) < |gs| ensures IndexOf(r, s) < |r| {
      assert r[IndexOf(gs, s)].svc == s;
      IndexOfPresent(r, IndexOf(gs, s));
    }
  }

  /** Appending to a group keeps every group's place. */
  lemma {:induction false} Appended(gs: seq<Group>, svc: nat, span: Span)
    requires Distinct(gs) && IndexOf(gs, svc) < |gs|
    ensures var r := AppendSpan(gs, svc, span);
            && Distinct(r)
            && (forall k :: 0 <= k < |gs| ==> r[k].svc == gs[k].svc)
            && forall s :: IndexOf(gs, s) < |gs| ==> IndexOf(r, s) < |r|
  {
    var r := AppendSpan(gs, svc, span);
    forall s | IndexOf(gs, s) < |gs| ensures IndexOf(r, s) < |r| {
      assert r[IndexOf(gs, s)].svc == s;
      IndexOfPresent(r, IndexOf(gs, s));
    }
  }

  lemma {:induction false} OpenCompletes(gs: seq<Group>, svc: nat, log: seq<Emission>)
    requires Complete(gs, log)
    ensures Complete(EnsureGroup(gs, svc), log)
  {
    var r := EnsureGroup(gs, svc);
    forall i | 0 <= i < |log| ensures IndexOf(r, log[i].svc) < |r| {
      var k := IndexOf(gs, log[i].svc);
      assert r[k].svc == log[i].svc;
      IndexOfPresent(r, k);
    }
  }

  lemma {:induction false} GroupsFilter(log: seq<Emission>)
    ensures Distinct(Grouped(log)) && Filters(Grouped(log), log)
    ensures Complete(Grouped(log), log) && NoneEmpty(Grouped(log))
  {
    hide IndexOf, EnsureGroup, AppendSpan, SpansOf, Complete, Filters, Distinct, NoneEmpty;
    if log == [] {
      NothingGrouped();
    } else {
      var n := |log| - 1;
      var e := log[n];
      var before := Grouped(log[..n]);
      GroupsFilter(log[..n]);
      OpenFilters(before, e.svc, log[..n]);
      OpenCompletes(before, e.svc, log[..n]);
      AppendFilters(EnsureGroup(before, e.svc), log);
      AppendCompletes(EnsureGroup(before, e.svc), log);
      AppendFills(before, e.svc, e.span);
    }
  }

  lemma {:induction false} NothingGrouped()
    ensures Distinct([]) && Filters([], []) && Complete([], []) && NoneEmpty([])
  {
  }

  lemma {:induction false} AppendFills(gs: seq<Group>, svc: nat, span: Span)
    requires NoneEmpty(gs)
    ensures NoneEmpty(AppendSpan(EnsureGroup(gs, svc), svc, span))
  {
  }

  lemma {:induction false} OpenFilters(gs: seq<Group>, svc: nat, log: seq<Emission>)
    requires Distinct(gs) && Filters(gs, log) && Complete(gs, log)
    ensures Distinct(EnsureGroup(gs, svc)) && Filters(EnsureGroup(gs, svc), log)
  {
    if IndexOf(gs, svc) == |gs| {
      NoSpans(log, gs, svc);
    }
  }

  lemma {:induction false} GroupsConserve<T>(log: seq<Emission>, f: (nat, Span) -> T)
    ensures multiset(Flat(Grouped(log), f)) == multiset(Emitted(log, f))
  {
    hide IndexOf, EnsureGroup;
    if log == [] {
    } else {
      var n := |log| - 1;
      var e := log[n];
      var before := Grouped(log[..n]);
      var mid := EnsureGroup(before, e.svc);
      GroupsConserve(log[..n], f);
      OpenGroup(before, e.svc, f);
      FlatAppend(mid, IndexOf(mid, e.svc), e.span, f);
      assert Emitted(log, f) == Emitted(log[..n], f) + [f(e.svc, e.span)];
    }
  }

  /** The place of a service's first span in the log, or the length of the log when it has none. */
  function First(log: seq<Emission>, svc: nat): (i: nat)
    ensures i <= |log|
    ensures i < |log| ==> log[i].svc == svc
    ensures forall k :: 0 <= k < i ==> log[k].svc != svc
  {
    if log == [] then 0 else
      var n := |log| - 1;
      var before := First(log[..n], svc);
      if before < n || log[n].svc == svc then before else n + 1
  }

  ghost predicate ByFirst(gs: seq<Group>, log: seq<Emission>) {
    forall j, k :: 0 <= j < k < |gs| ==> First(log, gs[j].svc) < First(log, gs[k].svc)
  }

  lemma {:induction false} FirstKept(log: seq<Emission>, svc: nat)
    requires log != [] && First(log[..|log| - 1], svc) < |log| - 1
    ensures First(log, svc) == First(log[..|log| - 1], svc)
  {
  }

  lemma {:induction false} FirstInside(log: seq<Emission>, i: nat)
    requires i < |log|
    ensures First(log, log[i].svc) <= i
  {
  }

  /** All groups' services have emitted before place `n` of the log. */
  ghost predicate Early(gs: seq<Group>, log: seq<Emission>, n: nat) {
    forall k :: 0 <= k < |gs| ==> First(log, gs[k].svc) < n
  }

  lemma {:induction false} OldFirst(log: seq<Emission>, gs: seq<Group>)
    requires log != [] && ByFirst(gs, log[..|log| - 1]) && Early(gs, log[..|log| - 1], |log| - 1)
    ensures ByFirst(gs, log) && Early(gs, log, |log| - 1)
  {
    hide First;
    forall k | 0 <= k < |gs| ensures First(log, gs[k].svc) == First(log[..|log| - 1], gs[k].svc) {
      FirstKept(log, gs[k].svc);
    }
  }

  lemma {:induction false} OpenByFirst(log: seq<Emission>, gs: seq<Group>, svc: nat)
    requires log != [] && ByFirst(gs, log) && Early(gs, log, |log| - 1)
    requires Distinct(gs) && IndexOf(gs, svc) == |gs| && First(log, svc) == |log| - 1
    ensures ByFirst(EnsureGroup(gs, svc), log) && Early(EnsureGroup(gs, svc), log, |log|)
  {
    hide IndexOf, First, EnsureGroup;
    Opened(gs, svc);
  }

  lemma {:induction false} AppendByFirst(log: seq<Emission>, gs: seq<Group>, svc: nat, span: Span)
    requires ByFirst(gs, log) && Early(gs, log, |log|) && Distinct(gs) && IndexOf(gs, svc) < |gs|
    ensures ByFirst(AppendSpan(gs, svc, span), log) && Early(AppendSpan(gs, svc, span), log, |log|)
  {
    hide IndexOf, First;
    Appended(gs, svc, span);
  }

  /** Groups stand in the order in which their services first emit. */
  lemma {:induction false} GroupsByFirst(log: seq<Emission>)
    ensures ByFirst(Grouped(log), log) && Early(Grouped(log), log, |log|)
  {
    hide IndexOf, EnsureGroup, AppendSpan, Distinct, ByFirst, Early, First, Complete, Filters, NoneEmpty;
    if log == [] {
      NothingByFirst();
    } else {
      var n := |log| - 1;
      var e := log[n];
      var before := Grouped(log[..n]);
      GroupsByFirst(log[..n]);
      GroupsFilter(log[..n]);
      OldFirst(log, before);
      if IndexOf(before, e.svc) == |before| {
        NewestFirst(log, before);
        OpenByFirst(log, before, e.svc);
        Opened(before, e.svc);
      } else {
        NotOpened(before, e.svc);
        EarlyGrows(before, log);
      }
      AppendByFirst(log, EnsureGroup(before, e.svc), e.svc, e.span);
    }
  }

  lemma {:induction false} NothingByFirst()
    ensures ByFirst([], []) && Early([], [], 0)
  {
  }

  lemma {:induction false} NotOpened(gs: seq<Group>, svc: nat)
    requires IndexOf(gs, svc) < |gs|
    ensures EnsureGroup(gs, svc) == gs
  {
  }

  lemma {:induction false} EarlyGrows(gs: seq<Group>, log: seq<Emission>)
    requires log != [] && Early(gs, log, |log| - 1)
    ensures Early(gs, log, |log|)
  {
    hide First;
  }

  lemma {:induction false} NewestFirst(log: seq<Emission>, gs: seq<Group>)
    requires log != [] && Complete(gs, log[..|log| - 1]) && IndexOf(gs, log[|log| - 1].svc) == |gs|
    ensures First(log, log[|log| - 1].svc) == |log| - 1
  {
    var n := |log| - 1;
    hide IndexOf;
    forall i | 0 <= i < n ensures log[i].svc != log[n].svc {
      assert log[..n][i] == log[i];
    }
  }

  /** Grouping is a stable partition of the log: each service has one group, which is the log filtered
      by that service in order, every emitting service has its group, the groups stand in the order of first
      emission, and whatever is made of the spans and their services, nothing is lost or doubled. */
  lemma {:induction false} StablePartition<T>(log: seq<Emission>, f: (nat, Span) -> T)
    ensures var gs := Grouped(log);
            && Distinct(gs) && ByFirst(gs, log)
            && (forall k :: 0 <= k < |gs| ==> gs[k].spans == SpansOf(log, gs[k].svc) != [])
            && (forall i :: 0 <= i < |log| ==> exists k :: 0 <= k < |gs| && gs[k].svc == log[i].svc)
            && multiset(Flat(gs, f)) == multiset(Emitted(log, f))
  {
    hide IndexOf, ByFirst, First;
    GroupsFilter(log);
    GroupsByFirst(log);
    GroupsConserve(log, f);
  }

  lemma {:induction false} OpenGroup<T>(gs: seq<Group>, svc: nat, f: (nat, Span) -> T)
    ensures Flat(EnsureGroup(gs, svc), f) == Flat(gs, f)
  {
    var r := gs + [Group(svc, [])];
    assert r[..|gs|] == gs;
    assert OfGroup(r[|gs|], f) == [];
  }

  lemma {:induction false} NoSpans(log: seq<Emission>, gs: seq<Group>, svc: nat)
    requires Complete(gs, log) && IndexOf(gs, svc) == |gs|
    ensures SpansOf(log, svc) == []
  {
    if log == [] {
    } else {
      var n := |log| - 1;
      assert forall i :: 0 <= i < n ==> log[..n][i] == log[i];
      NoSpans(log[..n], gs, svc);
    }
  }

  /** A group of the batch as it is stored: the service's resource attributes and one scope. */
  function Stored(cat: Catalog, g: Group): ResourceSpans
    requires g.svc < |cat.services|
  {
    ResourceSpans(cat.services[g.svc].resourceAttrs,
                  [ScopeSpans(cat.scopeName, cat.scopeVer, map[], g.spans)])
  }

  ghost predicate Owned(cat: Catalog, gs: seq<Group>) {
    forall k :: 0 <= k < |gs| ==> gs[k].svc < |cat.services|
  }

  function StoredBatch(cat: Catalog, gs: seq<Group>): (td: seq<ResourceSpans>)
    requires Owned(cat, gs)
    ensures |td| == |gs|
  {
    seq(|gs|, k requires 0 <= k < |gs| => Stored(cat, gs[k]))
  }

  lemma {:induction false} GroupedOwned(cat: Catalog, log: seq<Emission>)
    requires forall i :: 0 <= i < |log| ==> log[i].svc < |cat.services|
    ensures Owned(cat, Grouped(log))
  {
    if log == [] {
    } else {
      assert forall i :: 0 <= i < |log| - 1 ==> log[..|log| - 1][i] == log[i];
      GroupedOwned(cat, log[..|log| - 1]);
    }
  }
}
