/** What a plugin order is (daemon/internal/pluginregistry/registry.go): the greedy order over the
    dependency graph, unique for a graph, and the cycle that is there whenever it stops early. */
module PluginOrder {
  /** Descriptor without its factory. */
  datatype Descriptor = Descriptor(name: string, dependencies: seq<string>)

  /** The dependencies of each name; repeated ones count once. */
  type Graph = map<string, set<string>>

  // ---------------------------------------------------------------- the order of strings

  predicate Below(a: string, b: string) {
    if b == "" then false
    else if a == "" then true
    else if a[0] != b[0] then a[0] < b[0]
    else Below(a[1..], b[1..])
  }

  lemma {:induction false} BelowTransitive(a: string, b: string, c: string)
    requires Below(a, b) && Below(b, c)
    ensures Below(a, c)
  {
    if a != "" && a[0] == b[0] && b[0] == c[0] { BelowTransitive(a[1..], b[1..], c[1..]); }
  }

  lemma {:induction false} BelowTotal(a: string, b: string)
    ensures !(Below(a, b) && Below(b, a)) && !Below(a, a)
    ensures a != b ==> Below(a, b) || Below(b, a)
    decreases |a|
  {
    if a != "" { BelowTotal(a[1..], a[1..]); }
    if a != "" && b != "" && a[0] == b[0] {
      BelowTotal(a[1..], b[1..]);
      if a[1..] == b[1..] { assert a == [a[0]] + a[1..] == [b[0]] + b[1..] == b; }
    }
  }

  // ---------------------------------------------------------------- graphs

  function Elems<T>(s: seq<T>): set<T> {
    set x | x in s
  }

  function GraphOf(ds: seq<Descriptor>): Graph {
    if ds == [] then map[]
    else GraphOf(ds[..|ds| - 1])[ds[|ds| - 1].name := Elems(ds[|ds| - 1].dependencies)]
  }

  predicate HasEmptyName(ds: seq<Descriptor>) {
    exists i :: 0 <= i < |ds| && ds[i].name == ""
  }

  predicate HasDuplicate(ds: seq<Descriptor>) {
    exists i, j :: 0 <= i < j < |ds| && ds[i].name == ds[j].name
  }

  predicate Described(ds: seq<Descriptor>, name: string) {
    exists i :: 0 <= i < |ds| && ds[i].name == name
  }

  predicate HasMissing(ds: seq<Descriptor>) {
    exists i, d :: 0 <= i < |ds| && d in ds[i].dependencies && !Described(ds, d)
  }

  /** A walk along dependencies. */
  predicate Walk(g: Graph, p: seq<string>) {
    |p| > 0 && (forall i :: 0 <= i < |p| ==> p[i] in g) && (forall i :: 0 <= i < |p| - 1 ==> p[i + 1] in g[p[i]])
  }

  predicate Cycle(g: Graph, p: seq<string>) {
    Walk(g, p) && p[0] in g[p[|p| - 1]]
  }

  ghost predicate Cyclic(g: Graph) {
    exists p :: Cycle(g, p)
  }

  // ---------------------------------------------------------------- the greedy order

  predicate Placeable(g: Graph, done: set<string>, n: string) {
    n in g && n !in done && g[n] <= done
  }

  ghost predicate Least(g: Graph, done: set<string>, n: string) {
    Placeable(g, done, n) && forall m :: Placeable(g, done, m) && m != n ==> Below(n, m)
  }

  ghost predicate LeastAt(g: Graph, order: seq<string>, i: nat) {
    i < |order| && Least(g, Elems(order[..i]), order[i])
  }

  /** Each name is the least of those whose dependencies all stand before it. */
  ghost predicate Greedy(g: Graph, order: seq<string>) {
    forall i :: 0 <= i < |order| ==> LeastAt(g, order, i)
  }

  ghost predicate Stuck(g: Graph, order: seq<string>) {
    forall n :: !Placeable(g, Elems(order), n)
  }

  lemma GreedySnoc(g: Graph, order: seq<string>, n: string)
    requires Greedy(g, order) && Least(g, Elems(order), n)
    ensures Greedy(g, order + [n])
  {
    forall i | 0 <= i < |order + [n]| ensures LeastAt(g, order + [n], i) {
      if i < |order| {
        assert LeastAt(g, order, i);
        assert (order + [n])[..i] == order[..i];
      } else {
        assert (order + [n])[..i] == order;
      }
    }
  }

  /** A greedy order repeats nothing and puts every dependency before its dependents. */
  lemma GreedyPlaces(g: Graph, order: seq<string>)
    requires Greedy(g, order)
    ensures forall i :: 0 <= i < |order| ==> order[i] in g
    ensures forall i, j :: 0 <= i < j < |order| ==> order[i] != order[j]
    ensures forall i, d :: 0 <= i < |order| && d in g[order[i]] ==> d in order[..i]
  {
    forall i | 0 <= i < |order| ensures order[i] in g { assert LeastAt(g, order, i); }
    forall i, j | 0 <= i < j < |order| ensures order[i] != order[j] {
      assert LeastAt(g, order, j);
      assert order[..j][i] == order[i];
    }
    forall i, d | 0 <= i < |order| && d in g[order[i]] ensures d in order[..i] {
      assert LeastAt(g, order, i);
      assert d in Elems(order[..i]);
    }
  }

  /** There is one greedy order of a graph. */
  lemma {:induction false} GreedyPrefix(g: Graph, a: seq<string>, b: seq<string>, k: nat)
    requires Greedy(g, a) && Greedy(g, b) && k <= |a| && k <= |b|
    ensures a[..k] == b[..k]
  {
    if k > 0 {
      GreedyPrefix(g, a, b, k - 1);
      assert LeastAt(g, a, k - 1) && LeastAt(g, b, k - 1);
      BelowTotal(a[k - 1], b[k - 1]);
      assert a[..k] == a[..k - 1] + [a[k - 1]] && b[..k] == b[..k - 1] + [b[k - 1]];
    }
  }

  lemma GreedyUnique(g: Graph, a: seq<string>, b: seq<string>)
    requires Greedy(g, a) && Greedy(g, b) && Stuck(g, a) && Stuck(g, b)
    ensures a == b
  {
    var k := if |a| < |b| then |a| else |b|;
    GreedyPrefix(g, a, b, k);
    assert a[..|a|] == a && b[..|b|] == b;
    assert |a| < |b| ==> LeastAt(g, b, |a|);
    assert |b| < |a| ==> LeastAt(g, a, |b|);
  }

  // ---------------------------------------------------------------- cycles

  function Place(order: seq<string>, n: string): (i: nat)
    requires n in order
    ensures i < |order| && order[i] == n
  {
    if order[0] == n then 0 else 1 + Place(order[1..], n)
  }

  ghost predicate Full(g: Graph, order: seq<string>) {
    Greedy(g, order) && forall n :: n in g ==> n in order
  }

  lemma {:induction false} DependsOnEarlier(g: Graph, order: seq<string>, n: string, d: string)
    requires Full(g, order) && n in g && d in g[n]
    ensures d in order && Place(order, d) < Place(order, n)
  {
    GreedyPlaces(g, order);
    var b := Place(order, n);
    var k :| 0 <= k < b && order[..b][k] == d;
    assert order[k] == d;
  }

  /** Along a walk the places go down. */
  lemma {:induction false} Descends(g: Graph, order: seq<string>, p: seq<string>, i: nat)
    requires Full(g, order) && Walk(g, p) && i < |p|
    ensures Place(order, p[i]) <= Place(order, p[0])
  {
    if i > 0 {
      Descends(g, order, p, i - 1);
      DependsOnEarlier(g, order, p[i - 1], p[i]);
    }
  }

  /** In an order with dependencies first no walk closes. */
  lemma NoCycle(g: Graph, order: seq<string>, p: seq<string>)
    requires Full(g, order)
    ensures !Cycle(g, p)
  {
    if Walk(g, p) {
      Descends(g, order, p, |p| - 1);
      if p[0] in g[p[|p| - 1]] { DependsOnEarlier(g, order, p[|p| - 1], p[0]); }
    }
  }

  /** Whatever is left when the order is stuck depends on something else that is left. */
  lemma StuckDepends(g: Graph, order: seq<string>, n: string) returns (d: string)
    requires Stuck(g, order) && n in g && n !in order
    requires forall m, x :: m in g && x in g[m] ==> x in g
    ensures d in g[n] && d in g && d !in order
  {
    assert !Placeable(g, Elems(order), n);
    d :| d in g[n] && d !in Elems(order);
  }

  ghost predicate Trail(g: Graph, order: seq<string>, p: seq<string>) {
    && |p| > 0 && (forall i :: 0 <= i < |p| ==> p[i] in g && p[i] !in order)
    && (forall i :: 0 <= i < |p| - 1 ==> p[i + 1] in g[p[i]])
    && (forall i, j :: 0 <= i < j < |p| ==> p[i] != p[j])
  }

  lemma {:induction false} TrailFits(g: Graph, order: seq<string>, p: seq<string>)
    requires Trail(g, order, p)
    ensures |p| <= |g.Keys|
  {
    DistinctFits(p, g.Keys);
  }

  lemma {:induction false} DistinctFits(p: seq<string>, s: set<string>)
    requires forall i :: 0 <= i < |p| ==> p[i] in s
    requires forall i, j :: 0 <= i < j < |p| ==> p[i] != p[j]
    ensures |p| <= |s|
  {
    if p != [] { DistinctFits(p[..|p| - 1], s - {p[|p| - 1]}); }
  }

  /** Following what is left long enough closes a cycle. */
  lemma {:induction false} TrailCloses(g: Graph, order: seq<string>, p: seq<string>)
    requires Trail(g, order, p) && Stuck(g, order)
    requires forall m, x :: m in g && x in g[m] ==> x in g
    ensures Cyclic(g)
    decreases |g.Keys| + 1 - |p|
  {
    TrailFits(g, order, p);
    var d := StuckDepends(g, order, p[|p| - 1]);
    if d in p {
      var k := Place(p, d);
      assert Cycle(g, p[k..]);
    } else {
      TrailFits(g, order, p + [d]);
      TrailCloses(g, order, p + [d]);
    }
  }

  /** The greedy order stops early exactly when the graph has a cycle. */
  lemma StopsAtCycles(g: Graph, order: seq<string>)
    requires Greedy(g, order) && Stuck(g, order)
    requires forall m, x :: m in g && x in g[m] ==> x in g
    ensures (forall n :: n in g ==> n in order) <==> !Cyclic(g)
  {
    if forall n :: n in g ==> n in order {
      forall p ensures !Cycle(g, p) { NoCycle(g, order, p); }
    } else {
      var n :| n in g && n !in order;
      TrailCloses(g, order, [n]);
    }
  }

  // ---------------------------------------------------------------- the graph of a list

  lemma {:induction false} GraphNames(ds: seq<Descriptor>, n: string)
    ensures n in GraphOf(ds) <==> Described(ds, n)
  {
    if ds != [] {
      var init := ds[..|ds| - 1];
      GraphNames(init, n);
      if Described(init, n) {
        var i :| 0 <= i < |init| && init[i].name == n;
        assert ds[i].name == n;
      }
      if Described(ds, n) && ds[|ds| - 1].name != n {
        var i :| 0 <= i < |ds| && ds[i].name == n;
        assert init[i].name == n;
      }
    }
  }

  lemma {:induction false} GraphAt(ds: seq<Descriptor>, i: nat)
    requires !HasDuplicate(ds) && i < |ds|
    ensures ds[i].name in GraphOf(ds) && GraphOf(ds)[ds[i].name] == Elems(ds[i].dependencies)
  {
    if i < |ds| - 1 {
      var init := ds[..|ds| - 1];
      assert forall k :: 0 <= k < |init| ==> init[k] == ds[k];
      assert !HasDuplicate(init);
      GraphAt(init, i);
    }
  }

  /** What success means: a greedy order of all descriptors. */
  ghost predicate Ordered(ds: seq<Descriptor>, out: seq<Descriptor>) {
    && !HasEmptyName(ds) && !HasDuplicate(ds) && !HasMissing(ds)
    && |out| == |ds| && (forall i :: 0 <= i < |out| ==> out[i] in ds)
    && Full(GraphOf(ds), Names(out)) && Stuck(GraphOf(ds), Names(out))
  }

  function Names(ds: seq<Descriptor>): (ns: seq<string>)
    ensures |ns| == |ds| && forall i :: 0 <= i < |ds| ==> ns[i] == ds[i].name
  {
    seq(|ds|, i requires 0 <= i < |ds| => ds[i].name)
  }

  /** Every descriptor comes once, after all it depends on. */
  lemma OrderedPlaces(ds: seq<Descriptor>, out: seq<Descriptor>)
    requires Ordered(ds, out)
    ensures forall d :: d in ds <==> d in out
    ensures forall i, j :: 0 <= i < j < |out| ==> out[i].name != out[j].name
    ensures forall i, n :: 0 <= i < |out| && n in out[i].dependencies ==> n in Names(out)[..i]
  {
    GreedyPlaces(GraphOf(ds), Names(out));
    forall d | d in ds ensures d in out {
      var i :| 0 <= i < |ds| && ds[i] == d;
      GraphAt(ds, i);
      assert d.name in Names(out);
      var j :| 0 <= j < |out| && Names(out)[j] == d.name;
      SameName(ds, d, out[j]);
    }
    forall i, n | 0 <= i < |out| && n in out[i].dependencies ensures n in Names(out)[..i] {
      var k :| 0 <= k < |ds| && ds[k] == out[i];
      GraphAt(ds, k);
      assert n in GraphOf(ds)[Names(out)[i]];
    }
    assert forall i, j :: 0 <= i < j < |out| ==> Names(out)[i] != Names(out)[j];
  }

  lemma SameName(ds: seq<Descriptor>, a: Descriptor, b: Descriptor)
    requires !HasDuplicate(ds) && a in ds && b in ds && a.name == b.name
    ensures a == b
  {
    var i :| 0 <= i < |ds| && ds[i] == a;
    var j :| 0 <= j < |ds| && ds[j] == b;
    assert i == j;
  }

  lemma {:induction false} SameGraph(ds: seq<Descriptor>, es: seq<Descriptor>)
    requires !HasDuplicate(ds) && !HasDuplicate(es) && forall d :: d in ds <==> d in es
    ensures GraphOf(ds) == GraphOf(es)
  {
    forall n ensures n in GraphOf(ds) <==> n in GraphOf(es) {
      GraphNames(ds, n);
      GraphNames(es, n);
      if Described(ds, n) {
        var i :| 0 <= i < |ds| && ds[i].name == n;
        assert ds[i] in es;
      }
      if Described(es, n) {
        var i :| 0 <= i < |es| && es[i].name == n;
        assert es[i] in ds;
      }
    }
    forall n | n in GraphOf(ds) ensures GraphOf(ds)[n] == GraphOf(es)[n] {
      GraphNames(ds, n);
      var i :| 0 <= i < |ds| && ds[i].name == n;
      assert ds[i] in es;
      var j :| 0 <= j < |es| && es[j] == ds[i];
      GraphAt(ds, i);
      GraphAt(es, j);
    }
  }

  /** The result does not depend on the order of the input. */
  lemma InputOrderIrrelevant(ds: seq<Descriptor>, es: seq<Descriptor>, a: seq<Descriptor>, b: seq<Descriptor>)
    requires (forall d :: d in ds <==> d in es) && Ordered(ds, a) && Ordered(es, b)
    ensures a == b
  {
    SameGraph(ds, es);
    GreedyUnique(GraphOf(ds), Names(a), Names(b));
    assert |a| == |Names(a)| == |b|;
    forall i | 0 <= i < |a| ensures a[i] == b[i] {
      assert Names(a)[i] == Names(b)[i];
      SameName(ds, a[i], b[i]);
    }
  }
}
