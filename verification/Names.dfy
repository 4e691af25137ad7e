/** Service names identify services, for any number of services. */
module Names {
  import opened Catalog
  import Decimal

  predicate Digits(s: string) {
    s != "" && forall k :: 0 <= k < |s| ==> Decimal.IsDigit(s[k])
  }

  lemma {:induction false} BaseNames(a: nat, b: nat)
    requires a < 24 && b < 24
    ensures |SERVICE_NAMES[a]| >= 4 && !Decimal.IsDigit(SERVICE_NAMES[a][|SERVICE_NAMES[a]| - 1])
    ensures SERVICE_NAMES[a] == SERVICE_NAMES[b] ==> a == b
  {
  }

  lemma {:induction false} SuffixPlace(base: string, d: string)
    requires Digits(d)
    ensures var s := base + "-" + d;
            && s[|s| - 1 - |d|] == '-'
            && forall k :: |s| - |d| <= k < |s| ==> Decimal.IsDigit(s[k])
  {
    var s := base + "-" + d;
    forall k | |s| - |d| <= k < |s| ensures Decimal.IsDigit(s[k]) {
      assert s[k] == d[k - (|s| - |d|)];
    }
  }

  /** The suffix of a suffixed name is not shorter than another's: its '-' would fall on a digit. */
  lemma {:induction false} SuffixLength(base1: string, d1: string, base2: string, d2: string)
    requires Digits(d1) && Digits(d2)
    requires base1 + "-" + d1 == base2 + "-" + d2
    ensures |d1| >= |d2|
  {
    SuffixPlace(base1, d1);
    SuffixPlace(base2, d2);
  }

  lemma {:induction false} SuffixUnique(base1: string, d1: string, base2: string, d2: string)
    requires Digits(d1) && Digits(d2)
    requires base1 + "-" + d1 == base2 + "-" + d2
    ensures base1 == base2 && d1 == d2
  {
    SuffixLength(base1, d1, base2, d2);
    SuffixLength(base2, d2, base1, d1);
    var s := base1 + "-" + d1;
    assert base1 == s[..|base1|] && base2 == s[..|base1|];
    assert d1 == s[|base1| + 1..] && d2 == s[|base1| + 1..];
  }

  lemma {:induction false} LastCharacter(i: nat)
    ensures ServiceName(i) != ""
    ensures Decimal.IsDigit(ServiceName(i)[|ServiceName(i)| - 1]) <==> i >= 24
  {
    BaseNames(i % 24, i % 24);
  }

  lemma {:induction false} SameBase(i: nat, j: nat)
    requires BaseName(i) == BaseName(j)
    ensures i % 24 == j % 24
  {
    BaseNames(i % 24, j % 24);
  }

  /** A name without a suffix is one of the 24 base names. */
  lemma {:induction false} PlainNames(i: nat, j: nat)
    requires i < 24 && j < 24 && ServiceName(i) == ServiceName(j)
    ensures i == j
  {
    hide Decimal.Render, SERVICE_NAMES, BaseName;
    SameBase(i, j);
  }

  lemma {:induction false} SuffixedNames(i: nat, j: nat)
    requires i >= 24 && j >= 24 && ServiceName(i) == ServiceName(j)
    ensures i == j
  {
    hide Decimal.Render, SERVICE_NAMES, BaseName;
    SuffixUnique(BaseName(i), Decimal.Render(i / 24), BaseName(j), Decimal.Render(j / 24));
    Decimal.RenderInjective(i / 24, j / 24);
    SameBase(i, j);
  }

  lemma {:induction false} NamesInjective(i: nat, j: nat)
    requires ServiceName(i) == ServiceName(j)
    ensures i == j
  {
    hide ServiceName;
    LastCharacter(i);
    LastCharacter(j);
    if i < 24 {
      PlainNames(i, j);
    } else {
      SuffixedNames(i, j);
    }
  }

  /** In a valid catalog two services carry the same service.name only if they are the same one. */
  lemma {:induction false} ServiceNamesDistinct(cat: Catalog, i: nat, j: nat)
    requires Valid(cat)
    requires i < |cat.services| && j < |cat.services|
    requires cat.services[i].resourceAttrs["service.name"] == cat.services[j].resourceAttrs["service.name"]
    ensures i == j
  {
    NamesInjective(i, j);
  }

  /** A chain of services in which each calls the next through one of its child operations. */
  predicate CallPath(cat: Catalog, path: seq<nat>) {
    && (forall k :: 0 <= k < |path| ==> path[k] < |cat.services|)
    && forall k :: 0 <= k < |path| - 1 ==> Calls(cat, path[k], path[k + 1])
  }

  predicate Calls(cat: Catalog, caller: nat, callee: nat)
    requires caller < |cat.services|
  {
    exists op :: op in cat.services[caller].childOps && op.peer == callee
  }

  lemma {:induction false} CallsForward(cat: Catalog, caller: nat, callee: nat)
    requires Valid(cat) && caller < |cat.services| && Calls(cat, caller, callee)
    ensures caller < callee < |cat.services|
  {
    assert ChildOpsOk(cat.services[caller].childOps, caller, |cat.services|);
  }

  /** The call graph is acyclic: along a path every service index is larger than the one before. */
  lemma {:induction false} CallPathClimbs(cat: Catalog, path: seq<nat>, k: nat)
    requires Valid(cat) && CallPath(cat, path) && k < |path|
    ensures path[k] >= path[0] + k
  {
    hide Valid;
    if k == 0 {
    } else {
      CallPathClimbs(cat, path, k - 1);
      assert Calls(cat, path[k - 1], path[k - 1 + 1]);
      CallsForward(cat, path[k - 1], path[k]);
    }
  }

  lemma {:induction false} CallPathsAreShort(cat: Catalog, path: seq<nat>)
    requires Valid(cat) && CallPath(cat, path)
    ensures |path| <= |cat.services|
    ensures forall j, k :: 0 <= j < k < |path| ==> path[j] != path[k]
  {
    hide Valid;
    if path != [] {
      CallPathClimbs(cat, path, |path| - 1);
    }
    forall j, k | 0 <= j < k < |path| ensures path[j] != path[k] {
      assert CallPath(cat, path[j..]) by {
        forall i | 0 <= i < |path[j..]| - 1 ensures Calls(cat, path[j..][i], path[j..][i + 1]) {
          assert Calls(cat, path[j + i], path[j + i + 1]);
        }
      }
      CallPathClimbs(cat, path[j..], k - j);
    }
  }

  /** The names wrap around with a suffix that counts the rounds. */
  lemma {:induction false} NameExamples()
    ensures ServiceName(0) == "frontend" && ServiceName(23) == "session"
    ensures ServiceName(24) == "frontend-1" && ServiceName(49) == "api-gateway-2"
  {
    assert Decimal.Render(1) == "1" && Decimal.Render(2) == "2";
  }
}
