/** orderDescriptors (daemon/internal/pluginregistry/registry.go:84-140) with its maps, slices and
    loops. Walks over Go maps take the keys in any order. */
module PluginRegistry {
  import opened Events
  import opened PluginOrder

  /** The errors, with the names they carry. */
  datatype Failure =
    | NameRequired | AlreadyDescribed(name: string) | MissingDependency(plugin: string, dependency: string) | DependencyCycle

  datatype Result = Ok(ordered: seq<Descriptor>) | Err(failure: Failure)

  // ---------------------------------------------------------------- sort.Strings

  predicate Sorted(s: seq<string>) {
    forall i, j :: 0 <= i < j < |s| ==> !Below(s[j], s[i])
  }

  predicate Distinct(s: seq<string>) {
    forall i, j :: 0 <= i < j < |s| ==> s[i] != s[j]
  }

  method InsertSorted(s: seq<string>, x: string) returns (out: seq<string>)
    requires Sorted(s) && Distinct(s) && x !in s
    ensures Sorted(out) && Distinct(out) && forall y :: y in out <==> y in s || y == x
  {
    var k := 0;
    while k < |s| && Below(s[k], x)
      invariant 0 <= k <= |s| && forall i :: 0 <= i < k ==> Below(s[i], x)
    {
      k := k + 1;
    }
    out := s[..k] + [x] + s[k..];
    Inserted(s, x, k);
  }

  lemma {:induction false} Inserted(s: seq<string>, x: string, k: nat)
    requires Sorted(s) && Distinct(s) && x !in s && k <= |s|
    requires (forall i :: 0 <= i < k ==> Below(s[i], x)) && (k < |s| ==> !Below(s[k], x))
    ensures var out := s[..k] + [x] + s[k..];
      Sorted(out) && Distinct(out) && forall y :: y in out <==> y in s || y == x
  {
    var out := s[..k] + [x] + s[k..];
    forall i | 0 <= i < k ensures !Below(x, s[i]) { BelowTotal(x, s[i]); }
    forall j | k <= j < |s| ensures !Below(s[j], x) {
      if Below(s[j], x) {
        BelowTotal(s[k], x);
        BelowTransitive(s[j], x, s[k]);
      }
    }
    assert forall y :: y in s <==> y in s[..k] || y in s[k..];
  }

  method SortStrings(s: seq<string>) returns (out: seq<string>)
    requires Distinct(s)
    ensures Sorted(out) && Distinct(out) && forall y :: y in out <==> y in s
  {
    out := [];
    for n := 0 to |s|
      invariant Sorted(out) && Distinct(out) && forall y :: y in out <==> y in s[..n]
    {
      assert s[..n + 1] == s[..n] + [s[n]];
      out := InsertSorted(out, s[n]);
    }
    assert s[..|s|] == s;
  }

  // ---------------------------------------------------------------- the first loop

  /** byName holds each descriptor of ds under its name. */
  ghost predicate Indexes(ds: seq<Descriptor>, byName: map<string, Descriptor>) {
    && (forall n :: n in byName <==> n in GraphOf(ds))
    && (forall n :: n in byName ==> byName[n].name == n && byName[n] in ds)
  }

  /** The first descriptor whose name is empty or was there before. */
  predicate FirstBad(ds: seq<Descriptor>, i: nat) {
    && i < |ds| && (ds[i].name == "" || exists k :: 0 <= k < i && ds[k].name == ds[i].name)
    && (forall k :: 0 <= k < i ==> ds[k].name != "")
    && (forall j, k :: 0 <= j < k < i ==> ds[j].name != ds[k].name)
  }

  /** What is said about that one. */
  ghost predicate SaysFirst(ds: seq<Descriptor>, failure: Failure) {
    exists i: nat :: FirstBad(ds, i) && failure == if ds[i].name == "" then NameRequired else AlreadyDescribed(ds[i].name)
  }

  method Describe(ds: seq<Descriptor>) returns (byName: map<string, Descriptor>, failure: Option<Failure>)
    ensures failure.None? <==> !HasEmptyName(ds) && !HasDuplicate(ds)
    ensures failure.None? ==> Indexes(ds, byName)
    ensures failure == Some(NameRequired) ==> HasEmptyName(ds)
    ensures failure.Some? && failure != Some(NameRequired) ==> failure.value.AlreadyDescribed? && HasDuplicate(ds)
    ensures failure.Some? ==> SaysFirst(ds, failure.value)
  {
    byName := map[];
    for i := 0 to |ds|
      invariant Seen(ds, i, byName)
    {
      if ds[i].name == "" {
        assert FirstBad(ds, i);
        return byName, Some(NameRequired);
      }
      if ds[i].name in byName {
        SeenTwice(ds, i, byName);
        return byName, Some(AlreadyDescribed(ds[i].name));
      }
      SeenOne(ds, i, byName);
      byName := byName[ds[i].name := ds[i]];
    }
    SeenAll(ds, byName);
    failure := None;
  }

  ghost predicate Seen(ds: seq<Descriptor>, i: nat, byName: map<string, Descriptor>) {
    && i <= |ds|
    && (forall k :: 0 <= k < i ==> ds[k].name != "" && ds[k].name in byName)
    && (forall n :: n in byName ==> byName[n].name == n && byName[n] in ds[..i])
    && (forall j, k :: 0 <= j < k < i ==> ds[j].name != ds[k].name)
  }

  lemma SeenOne(ds: seq<Descriptor>, i: nat, byName: map<string, Descriptor>)
    requires Seen(ds, i, byName) && i < |ds| && ds[i].name != "" && ds[i].name !in byName
    ensures Seen(ds, i + 1, byName[ds[i].name := ds[i]])
  {
    assert ds[..i + 1] == ds[..i] + [ds[i]];
  }

  lemma SeenTwice(ds: seq<Descriptor>, i: nat, byName: map<string, Descriptor>)
    requires Seen(ds, i, byName) && i < |ds| && ds[i].name in byName
    ensures HasDuplicate(ds) && (ds[i].name != "" ==> FirstBad(ds, i))
  {
    var k :| 0 <= k < i && ds[..i][k] == byName[ds[i].name];
    assert ds[k].name == ds[i].name;
  }

  lemma SeenAll(ds: seq<Descriptor>, byName: map<string, Descriptor>)
    requires Seen(ds, |ds|, byName)
    ensures !HasEmptyName(ds) && !HasDuplicate(ds) && Indexes(ds, byName)
  {
    assert ds[..|ds|] == ds;
    forall n ensures n in byName <==> n in GraphOf(ds) {
      GraphNames(ds, n);
      if n in byName {
        var k :| 0 <= k < |ds| && ds[k] == byName[n];
        assert ds[k].name == n;
      }
    }
  }

  // ---------------------------------------------------------------- the second loop

  function Dependents(dependents: map<string, seq<string>>, d: string): seq<string> {
    if d in dependents then dependents[d] else []
  }

  /** indegree counts the dependencies, dependents lists who has them, each once. */
  ghost predicate Linked(g: Graph, indegree: map<string, int>, dependents: map<string, seq<string>>) {
    && (forall n :: n in indegree ==> indegree[n] == if n in g then |g[n]| else 0)
    && (forall d :: Distinct(Dependents(dependents, d)))
    && (forall d, n :: n in Dependents(dependents, d) <==> n in g && d in g[n])
  }

  lemma LinkedStart(names: set<string>, indegree: map<string, int>, dependents: map<string, seq<string>>)
    requires indegree == (map n | n in names :: 0) && dependents == map[]
    ensures Linked(map[], indegree, dependents)
  {}

  lemma LinkOne(g: Graph, indegree: map<string, int>, dependents: map<string, seq<string>>, n: string, d: string)
    requires Linked(g, indegree, dependents) && n in g && n in indegree && d !in g[n]
    ensures Linked(g[n := g[n] + {d}], indegree[n := indegree[n] + 1], dependents[d := Dependents(dependents, d) + [n]])
  {
    var g', dep' := g[n := g[n] + {d}], dependents[d := Dependents(dependents, d) + [n]];
    forall x, m ensures m in Dependents(dep', x) <==> m in g' && x in g'[m] {
      assert m in Dependents(dependents, x) <==> m in g && x in g[m];
    }
    assert n !in Dependents(dependents, d);
    forall x ensures Distinct(Dependents(dep', x)) { assert Distinct(Dependents(dependents, x)); }
  }

  lemma LinkNext(g: Graph, seen: set<string>, indegree: map<string, int>, dependents: map<string, seq<string>>, n: string, d: string)
    requires Linked(g[n := seen], indegree, dependents) && n in indegree && d !in seen
    ensures Linked(g[n := seen + {d}], indegree[n := indegree[n] + 1], dependents[d := Dependents(dependents, d) + [n]])
  {
    LinkOne(g[n := seen], indegree, dependents, n, d);
    assert g[n := seen][n := seen + {d}] == g[n := seen + {d}];
  }

  /** The first of these that is not among the names. */
  ghost predicate FirstMissing(deps: seq<string>, names: set<string>, x: string) {
    exists j: nat :: FirstMissingAt(deps, names, x, j)
  }

  ghost predicate FirstMissingAt(deps: seq<string>, names: set<string>, x: string, j: nat) {
    j < |deps| && deps[j] == x && x !in names && forall k :: 0 <= k < j ==> deps[k] in names
  }

  ghost predicate MissingAt(ds: seq<Descriptor>, i: nat, j: nat) {
    i < |ds| && j < |ds[i].dependencies| && !Described(ds, ds[i].dependencies[j])
  }

  /** The first descriptor with a dependency that nobody describes, and the first of those. */
  ghost predicate SaysMissing(ds: seq<Descriptor>, failure: Failure) {
    exists i: nat, j: nat :: MissingAt(ds, i, j) && failure == MissingDependency(ds[i].name, ds[i].dependencies[j])
      && (forall k: nat :: k < j ==> !MissingAt(ds, i, k))
      && (forall h: nat, k: nat :: h < i ==> !MissingAt(ds, h, k))
  }

  lemma FirstIsIt(ds: seq<Descriptor>, names: set<string>, i: nat, x: string)
    requires i < |ds| && (forall n :: n in names <==> Described(ds, n)) && FirstMissing(ds[i].dependencies, names, x)
    requires forall k, d :: 0 <= k < i && d in ds[k].dependencies ==> d in names
    ensures HasMissing(ds) && SaysMissing(ds, MissingDependency(ds[i].name, x))
  {
    var j :| FirstMissingAt(ds[i].dependencies, names, x, j);
    assert MissingAt(ds, i, j) && x in ds[i].dependencies;
    forall h: nat, k: nat | h < i ensures !MissingAt(ds, h, k) {}
  }

  method LinkDescriptor(d: Descriptor, names: set<string>, ghost g: Graph,
                        indegree0: map<string, int>, dependents0: map<string, seq<string>>)
    returns (indegree: map<string, int>, dependents: map<string, seq<string>>, missing: Option<string>)
    requires Linked(g, indegree0, dependents0) && d.name !in g && d.name in indegree0
    ensures missing.None? ==> forall x :: x in d.dependencies ==> x in names
    ensures missing.Some? ==> FirstMissing(d.dependencies, names, missing.value)
    ensures missing.None? ==> Linked(g[d.name := Elems(d.dependencies)], indegree, dependents) && indegree.Keys == indegree0.Keys
  {
    indegree, dependents := indegree0, dependents0;
    var seen: set<string> := {};
    for j := 0 to |d.dependencies|
      invariant seen == Elems(d.dependencies[..j]) && seen <= names
      invariant Linked(g[d.name := seen], indegree, dependents) && indegree.Keys == indegree0.Keys
    {
      var dependency := d.dependencies[j];
      assert d.dependencies[..j + 1] == d.dependencies[..j] + [dependency];
      if dependency in seen {
        continue;
      }
      if dependency !in names {
        assert FirstMissingAt(d.dependencies, names, dependency, j);
        return indegree, dependents, Some(dependency);
      }
      LinkNext(g, seen, indegree, dependents, d.name, dependency);
      seen := seen + {dependency};
      indegree := indegree[d.name := indegree[d.name] + 1];
      dependents := dependents[dependency := Dependents(dependents, dependency) + [d.name]];
    }
    assert d.dependencies[..|d.dependencies|] == d.dependencies;
    missing := None;
  }

  method Link(ds: seq<Descriptor>, names: set<string>)
    returns (indegree: map<string, int>, dependents: map<string, seq<string>>, missing: Option<Failure>)
    requires !HasDuplicate(ds) && forall n :: n in names <==> Described(ds, n)
    ensures missing.Some? <==> HasMissing(ds)
    ensures missing.Some? ==> SaysMissing(ds, missing.value)
    ensures missing.None? ==> Linked(GraphOf(ds), indegree, dependents) && indegree.Keys == names
  {
    hide Linked, FirstMissing, SaysMissing;
    indegree, dependents := map n | n in names :: 0, map[];
    LinkedStart(names, indegree, dependents);
    for i := 0 to |ds|
      invariant Linked(GraphOf(ds[..i]), indegree, dependents) && indegree.Keys == names
      invariant forall k, d :: 0 <= k < i && d in ds[k].dependencies ==> d in names
    {
      assert ds[..i + 1][..i] == ds[..i];
      GraphNames(ds[..i], ds[i].name);
      assert forall k :: 0 <= k < i ==> ds[..i][k] == ds[k];
      assert Described(ds, ds[i].name);
      var bad;
      indegree, dependents, bad := LinkDescriptor(ds[i], names, GraphOf(ds[..i]), indegree, dependents);
      if bad.Some? {
        FirstIsIt(ds, names, i, bad.value);
        return indegree, dependents, Some(MissingDependency(ds[i].name, bad.value));
      }
    }
    assert ds[..|ds|] == ds;
    missing := None;
  }

  // ---------------------------------------------------------------- the main loop

  /** What is known between two rounds. */
  ghost predicate Round(g: Graph, placed: seq<string>, ready: seq<string>, indegree: map<string, int>) {
    && Greedy(g, placed) && Sorted(ready) && Distinct(ready)
    && (forall n :: n in ready <==> Placeable(g, Elems(placed), n))
    && (forall n :: n in indegree <==> n in g)
    && (forall n :: n in g ==> indegree[n] == |g[n] - Elems(placed)|)
  }

  /** The first of the sorted ready names is the least placeable one. */
  lemma FirstIsLeast(g: Graph, placed: seq<string>, ready: seq<string>, indegree: map<string, int>)
    requires Round(g, placed, ready, indegree) && ready != []
    ensures Least(g, Elems(placed), ready[0]) && Greedy(g, placed + [ready[0]])
  {
    forall m | Placeable(g, Elems(placed), m) && m != ready[0] ensures Below(ready[0], m) {
      var j :| 0 <= j < |ready| && ready[j] == m;
      BelowTotal(ready[0], m);
    }
    GreedySnoc(g, placed, ready[0]);
  }

  /** What is known inside a round: name was placed, the first i of its dependents were counted down. */
  ghost predicate Inner(g: Graph, placed: seq<string>, name: string, rest: seq<string>, ds: seq<string>, i: nat,
                        ready: seq<string>, indegree: map<string, int>) {
    var done := Elems(placed) + {name};
    && i <= |ds| && Distinct(ready)
    && (forall n :: n in ready <==> n in rest || (n in ds[..i] && n in g && g[n] <= done))
    && (forall n :: n in indegree <==> n in g)
    && (forall n :: n in g ==> indegree[n] == |g[n] - done| + (if n in ds[i..] then 1 else 0))
  }

  /** ds lists the dependents of name, each once; rest is what was ready beside it. */
  ghost predicate Popped(g: Graph, placed: seq<string>, name: string, rest: seq<string>, ds: seq<string>) {
    && Placeable(g, Elems(placed), name) && Distinct(ds) && Distinct(rest) && name !in rest
    && (forall n :: n in ds <==> n in g && name in g[n])
    && (forall n :: n in rest || n == name <==> Placeable(g, Elems(placed), n))
  }

  /** Whatever is placed has its dependencies placed. */
  ghost predicate Downward(g: Graph, placed: seq<string>) {
    forall n :: n in placed ==> n in g && g[n] <= Elems(placed)
  }

  lemma InnerStart(g: Graph, placed: seq<string>, name: string, rest: seq<string>, ds: seq<string>, indegree: map<string, int>)
    requires Popped(g, placed, name, rest, ds)
    requires forall n :: n in indegree <==> n in g
    requires forall n :: n in g ==> indegree[n] == |g[n] - Elems(placed)|
    ensures Inner(g, placed, name, rest, ds, 0, rest, indegree)
  {
    forall n | n in g ensures indegree[n] == |g[n] - (Elems(placed) + {name})| + (if n in ds[0..] then 1 else 0) {
      Remove(g[n], Elems(placed), name);
      assert ds[0..] == ds;
    }
  }

  lemma Remove(s: set<string>, done: set<string>, name: string)
    requires name !in done
    ensures |s - done| == |s - (done + {name})| + if name in s then 1 else 0
  {
    assert s - (done + {name}) == (s - done) - {name};
  }

  /** The dependent at i stands nowhere else in the list, and was not ready before. */
  lemma Fresh(g: Graph, placed: seq<string>, name: string, rest: seq<string>, ds: seq<string>, i: nat)
    requires Popped(g, placed, name, rest, ds) && i < |ds|
    ensures ds[i] in g && ds[i] !in rest && ds[i] !in ds[..i] && ds[i] !in ds[i + 1..]
    ensures forall n :: n in ds[i..] <==> n == ds[i] || n in ds[i + 1..]
    ensures forall n :: n in ds[..i + 1] <==> n == ds[i] || n in ds[..i]
  {
    assert ds[i] in ds;
    assert ds[i..] == [ds[i]] + ds[i + 1..] && ds[..i + 1] == ds[..i] + [ds[i]];
    assert forall n :: n in rest ==> Placeable(g, Elems(placed), n);
  }

  lemma NoneLeft(s: set<string>, done: set<string>)
    ensures |s - done| == 0 <==> s <= done
  {
    assert s - done == {} <==> s <= done by {
      assert forall x :: x in s && x !in done ==> x in s - done;
    }
  }

  lemma InnerStep(g: Graph, placed: seq<string>, name: string, rest: seq<string>, ds: seq<string>, i: nat,
                  ready: seq<string>, indegree: map<string, int>)
    requires Popped(g, placed, name, rest, ds) && Inner(g, placed, name, rest, ds, i, ready, indegree) && i < |ds|
    ensures ds[i] in g && ds[i] in indegree
    ensures var left := indegree[ds[i]] - 1;
      Inner(g, placed, name, rest, ds, i + 1, if left == 0 then ready + [ds[i]] else ready, indegree[ds[i] := left])
  {
    Fresh(g, placed, name, rest, ds, i);
    NoneLeft(g[ds[i]], Elems(placed) + {name});
    CountedOne(g, placed, name, rest, ds, i, ready, indegree);
  }

  lemma CountedOne(g: Graph, placed: seq<string>, name: string, rest: seq<string>, ds: seq<string>, i: nat,
                   ready: seq<string>, indegree: map<string, int>)
    requires Inner(g, placed, name, rest, ds, i, ready, indegree) && i < |ds|
    requires ds[i] in g && ds[i] !in rest && ds[i] !in ds[..i] && ds[i] !in ds[i + 1..]
    requires forall n :: n in ds[i..] <==> n == ds[i] || n in ds[i + 1..]
    requires forall n :: n in ds[..i + 1] <==> n == ds[i] || n in ds[..i]
    requires var done := Elems(placed) + {name}; |g[ds[i]] - done| == 0 <==> g[ds[i]] <= done
    ensures ds[i] in indegree
    ensures var left := indegree[ds[i]] - 1;
      Inner(g, placed, name, rest, ds, i + 1, if left == 0 then ready + [ds[i]] else ready, indegree[ds[i] := left])
  {
    assert ds[i] in ds[i..];
    assert ds[i] !in ready;
  }

  lemma InnerEnd(g: Graph, placed: seq<string>, name: string, rest: seq<string>, ds: seq<string>,
                 ready: seq<string>, indegree: map<string, int>)
    requires Inner(g, placed, name, rest, ds, |ds|, ready, indegree)
    requires Popped(g, placed, name, rest, ds) && Downward(g, placed)
    ensures forall n :: n in ready <==> Placeable(g, Elems(placed + [name]), n)
    ensures forall n :: n in g ==> indegree[n] == |g[n] - Elems(placed + [name])|
  {
    ElemsSnoc(placed, name);
    InnerDone(g, placed, name, rest, ds, ready, indegree);
    ReadyAfter(g, placed, name, rest, ds, ready);
  }

  lemma InnerDone(g: Graph, placed: seq<string>, name: string, rest: seq<string>, ds: seq<string>,
                  ready: seq<string>, indegree: map<string, int>)
    requires Inner(g, placed, name, rest, ds, |ds|, ready, indegree)
    ensures forall n :: n in ready <==> n in rest || (n in ds && n in g && g[n] <= Elems(placed) + {name})
    ensures forall n :: n in g ==> n in indegree && indegree[n] == |g[n] - (Elems(placed) + {name})|
  {
    assert ds[..|ds|] == ds && ds[|ds|..] == [];
  }

  lemma ElemsSnoc(s: seq<string>, x: string)
    ensures Elems(s + [x]) == Elems(s) + {x}
  {}

  lemma ReadyAfter(g: Graph, placed: seq<string>, name: string, rest: seq<string>, ds: seq<string>, ready: seq<string>)
    requires Popped(g, placed, name, rest, ds) && Downward(g, placed)
    requires forall n :: n in ready <==> n in rest || (n in ds && n in g && g[n] <= Elems(placed) + {name})
    ensures forall n :: n in ready <==> Placeable(g, Elems(placed) + {name}, n)
  {
    forall n ensures n in ready <==> Placeable(g, Elems(placed) + {name}, n) { AfterPop(g, placed, name, rest, ds, n); }
  }

  /** What is placeable once name is placed. */
  lemma AfterPop(g: Graph, placed: seq<string>, name: string, rest: seq<string>, ds: seq<string>, n: string)
    requires Popped(g, placed, name, rest, ds) && Downward(g, placed)
    ensures Placeable(g, Elems(placed) + {name}, n) <==> n in rest || (n in ds && n in g && g[n] <= Elems(placed) + {name})
  {
    assert Placeable(g, Elems(placed), name);
    if n in ds { assert name in g[n] && !Placeable(g, Elems(placed), n); }
    if n in rest { assert Placeable(g, Elems(placed), n); }
  }

  method CountDown(ds: seq<string>, rest: seq<string>, indegree0: map<string, int>,
                   ghost g: Graph, ghost placed: seq<string>, ghost name: string)
    returns (ready: seq<string>, indegree: map<string, int>)
    requires Popped(g, placed, name, rest, ds) && Inner(g, placed, name, rest, ds, 0, rest, indegree0)
    ensures Inner(g, placed, name, rest, ds, |ds|, ready, indegree)
  {
    ready, indegree := rest, indegree0;
    for i := 0 to |ds|
      invariant Inner(g, placed, name, rest, ds, i, ready, indegree)
    {
      var dependent := ds[i];
      InnerStep(g, placed, name, rest, ds, i, ready, indegree);
      indegree := indegree[dependent := indegree[dependent] - 1];
      if indegree[dependent] == 0 { ready := ready + [dependent]; }
    }
  }

  /** The names without dependencies, in the order a map walk meets them. */
  method Roots(indegree: map<string, int>) returns (ready: seq<string>)
    ensures Distinct(ready) && forall n :: n in ready <==> n in indegree && indegree[n] == 0
  {
    ready := [];
    var keys := indegree.Keys;
    while keys != {}
      invariant keys <= indegree.Keys && Distinct(ready)
      invariant forall n :: n in ready <==> n in indegree.Keys - keys && indegree[n] == 0
      decreases keys
    {
      var n :| n in keys;
      keys := keys - {n};
      if indegree[n] == 0 { ready := ready + [n]; }
    }
  }

  /** What is known between two rounds, for the descriptors placed. */
  ghost predicate Placing(ds: seq<Descriptor>, ordered: seq<Descriptor>, ready: seq<string>, indegree: map<string, int>) {
    && Round(GraphOf(ds), Names(ordered), ready, indegree) && |ordered| <= |GraphOf(ds).Keys|
    && FromList(ds, ordered)
  }

  ghost predicate FromList(ds: seq<Descriptor>, ordered: seq<Descriptor>) {
    forall i :: 0 <= i < |ordered| ==> ordered[i] in ds
  }

  /** One round: the first ready name is placed and its dependents are counted down. */
  method NextName(ready0: seq<string>, indegree0: map<string, int>, dependents: map<string, seq<string>>,
                  ghost g: Graph, ghost placed: seq<string>, ghost full: map<string, int>)
    returns (name: string, ready: seq<string>, indegree: map<string, int>)
    requires Round(g, placed, ready0, indegree0) && ready0 != [] && Linked(g, full, dependents)
    ensures name in g && Round(g, placed + [name], ready, indegree)
  {
    name := ready0[0];
    FirstIsLeast(g, placed, ready0, indegree0);
    PoppedHolds(g, placed, ready0, indegree0, full, dependents);
    var rest, ds := ready0[1..], Dependents(dependents, name);
    InnerStart(g, placed, name, rest, ds, indegree0);
    ready, indegree := CountDown(ds, rest, indegree0, g, placed, name);
    PlacedDownward(g, placed);
    InnerEnd(g, placed, name, rest, ds, ready, indegree);
    ready := SortStrings(ready);
  }

  method PlaceNext(ds: seq<Descriptor>, byName: map<string, Descriptor>, dependents: map<string, seq<string>>, ghost full: map<string, int>,
                   ordered0: seq<Descriptor>, ready0: seq<string>, indegree0: map<string, int>)
    returns (ordered: seq<Descriptor>, ready: seq<string>, indegree: map<string, int>)
    requires Indexes(ds, byName) && Linked(GraphOf(ds), full, dependents)
    requires Placing(ds, ordered0, ready0, indegree0) && ready0 != []
    ensures Placing(ds, ordered, ready, indegree) && |ordered| == |ordered0| + 1
  {
    var name;
    name, ready, indegree := NextName(ready0, indegree0, dependents, GraphOf(ds), Names(ordered0), full);
    ordered := ordered0 + [byName[name]];
    NamesSnoc(ordered0, byName[name]);
    PlacedFits(GraphOf(ds), Names(ordered));
  }

  method PlaceAll(ds: seq<Descriptor>, byName: map<string, Descriptor>, indegree0: map<string, int>, dependents: map<string, seq<string>>)
    returns (ordered: seq<Descriptor>)
    requires Indexes(ds, byName) && Linked(GraphOf(ds), indegree0, dependents)
    requires forall n :: n in indegree0 <==> n in GraphOf(ds)
    ensures Greedy(GraphOf(ds), Names(ordered)) && Stuck(GraphOf(ds), Names(ordered)) && FromList(ds, ordered)
  {
    var ready, indegree;
    ordered, ready, indegree := PlaceFirst(ds, indegree0);
    while |ready| > 0
      invariant Placing(ds, ordered, ready, indegree)
      decreases |GraphOf(ds).Keys| - |ordered|
    {
      ordered, ready, indegree := PlaceNext(ds, byName, dependents, indegree0, ordered, ready, indegree);
    }
    NoneReady(GraphOf(ds), Names(ordered), ready, indegree);
  }

  method PlaceFirst(ds: seq<Descriptor>, indegree0: map<string, int>)
    returns (ordered: seq<Descriptor>, ready: seq<string>, indegree: map<string, int>)
    requires (forall n :: n in indegree0 <==> n in GraphOf(ds)) && (forall n :: n in GraphOf(ds) ==> indegree0[n] == |GraphOf(ds)[n]|)
    ensures Placing(ds, ordered, ready, indegree)
  {
    ordered, indegree := [], indegree0;
    var roots := Roots(indegree);
    ready := SortStrings(roots);
    RootsPlaceable(GraphOf(ds), indegree, ready);
    assert Names(ordered) == [];
  }

  lemma NoneReady(g: Graph, placed: seq<string>, ready: seq<string>, indegree: map<string, int>)
    requires Round(g, placed, ready, indegree) && |ready| == 0
    ensures Stuck(g, placed)
  {}

  lemma NamesSnoc(ds: seq<Descriptor>, d: Descriptor)
    ensures Names(ds + [d]) == Names(ds) + [d.name]
  {}

  lemma RootsPlaceable(g: Graph, indegree: map<string, int>, ready: seq<string>)
    requires (forall n :: n in indegree <==> n in g) && (forall n :: n in g ==> indegree[n] == |g[n]|)
    requires Sorted(ready) && Distinct(ready) && forall n :: n in ready <==> n in indegree && indegree[n] == 0
    ensures Round(g, [], ready, indegree)
  {
    NothingPlaced();
    forall n | n in g ensures indegree[n] == |g[n] - Elems<string>([])| && (g[n] <= {} <==> indegree[n] == 0) {
      assert g[n] - {} == g[n];
      if |g[n]| == 0 { assert g[n] == {}; }
    }
  }

  lemma NothingPlaced()
    ensures Elems<string>([]) == {}
  {}

  lemma PoppedHolds(g: Graph, placed: seq<string>, ready: seq<string>, indegree: map<string, int>,
                    indegree0: map<string, int>, dependents: map<string, seq<string>>)
    requires Round(g, placed, ready, indegree) && ready != [] && Linked(g, indegree0, dependents)
    ensures Popped(g, placed, ready[0], ready[1..], Dependents(dependents, ready[0]))
  {
    hide Greedy, Sorted, Placeable;
    HeadAndRest(ready);
    var name, ds := ready[0], Dependents(dependents, ready[0]);
    assert forall n :: n in ready <==> Placeable(g, Elems(placed), n);
    assert Distinct(ds) && forall n :: n in ds <==> n in g && name in g[n];
  }

  lemma HeadAndRest(s: seq<string>)
    requires Distinct(s) && s != []
    ensures Distinct(s[1..]) && s[0] !in s[1..] && s[0] in s
    ensures forall n :: n in s <==> n in s[1..] || n == s[0]
  {
    assert s == [s[0]] + s[1..];
  }

  lemma PlacedClosed(g: Graph, placed: seq<string>, n: string)
    requires Greedy(g, placed) && n in placed
    ensures n in g && g[n] <= Elems(placed)
  {
    GreedyPlaces(g, placed);
    var i :| 0 <= i < |placed| && placed[i] == n;
    forall d | d in g[n] ensures d in placed { assert d in placed[..i]; }
  }

  lemma PlacedDownward(g: Graph, placed: seq<string>)
    requires Greedy(g, placed)
    ensures Downward(g, placed)
  {
    forall n | n in placed ensures n in g && g[n] <= Elems(placed) { PlacedClosed(g, placed, n); }
  }

  lemma PlacedFits(g: Graph, placed: seq<string>)
    requires Greedy(g, placed)
    ensures |placed| <= |g.Keys|
  {
    GreedyPlaces(g, placed);
    DistinctFits(placed, g.Keys);
  }

  /** orderDescriptors: an order when there is one, else why there is none. */
  method OrderDescriptors(ds: seq<Descriptor>) returns (r: Result)
    ensures r.Ok? ==> Ordered(ds, r.ordered)
    ensures r.Ok? <==> !HasEmptyName(ds) && !HasDuplicate(ds) && !HasMissing(ds) && !Cyclic(GraphOf(ds))
    ensures r.Err? && (HasEmptyName(ds) || HasDuplicate(ds)) ==> SaysFirst(ds, r.failure)
    ensures r.Err? && r.failure.MissingDependency? <==> !HasEmptyName(ds) && !HasDuplicate(ds) && HasMissing(ds)
    ensures r.Err? && r.failure.MissingDependency? ==> SaysMissing(ds, r.failure)
    ensures r == Err(DependencyCycle)
      <==> !HasEmptyName(ds) && !HasDuplicate(ds) && !HasMissing(ds) && Cyclic(GraphOf(ds))
  {
    var byName, failure := Describe(ds);
    if failure.Some? {
      return Err(failure.value);
    }
    NamesDescribed(ds, byName);
    var indegree, dependents, missing := Link(ds, byName.Keys);
    if missing.Some? {
      return Err(missing.value);
    }
    var ordered := PlaceAll(ds, byName, indegree, dependents);
    CompleteOrCyclic(ds, Names(ordered));
    if |ordered| != |ds| {
      return Err(DependencyCycle);
    }
    r := Ok(ordered);
  }

  lemma NamesDescribed(ds: seq<Descriptor>, byName: map<string, Descriptor>)
    requires Indexes(ds, byName)
    ensures forall n :: n in byName.Keys <==> Described(ds, n)
  {
    forall n ensures n in byName.Keys <==> Described(ds, n) { GraphNames(ds, n); }
  }

  /** The order is short exactly when there is a cycle. */
  lemma {:induction false} CompleteOrCyclic(ds: seq<Descriptor>, order: seq<string>)
    requires !HasDuplicate(ds) && !HasMissing(ds)
    requires Greedy(GraphOf(ds), order) && Stuck(GraphOf(ds), order)
    ensures |order| == |ds| <==> !Cyclic(GraphOf(ds))
    ensures |order| == |ds| ==> Full(GraphOf(ds), order)
  {
    var g := GraphOf(ds);
    forall m, x | m in g && x in g[m] ensures x in g {
      GraphNames(ds, m);
      GraphNames(ds, x);
      var i :| 0 <= i < |ds| && ds[i].name == m;
      GraphAt(ds, i);
      assert x in ds[i].dependencies;
    }
    StopsAtCycles(g, order);
    GraphSize(ds);
    GreedyPlaces(g, order);
    ElemsSize(order);
    assert Elems(order) <= g.Keys;
    if |order| == |ds| { SameSize(Elems(order), g.Keys); }
    if forall n :: n in g ==> n in order { assert Elems(order) == g.Keys; }
  }

  lemma {:induction false} GraphSize(ds: seq<Descriptor>)
    requires !HasDuplicate(ds)
    ensures |GraphOf(ds).Keys| == |ds|
  {
    if ds != [] {
      var init, d := ds[..|ds| - 1], ds[|ds| - 1];
      assert forall k :: 0 <= k < |init| ==> init[k] == ds[k];
      GraphSize(init);
      GraphNames(init, d.name);
      assert GraphOf(ds).Keys == GraphOf(init).Keys + {d.name};
    }
  }

  lemma {:induction false} ElemsSize(s: seq<string>)
    requires forall i, j :: 0 <= i < j < |s| ==> s[i] != s[j]
    ensures |Elems(s)| == |s|
  {
    if s != [] {
      var init := s[..|s| - 1];
      ElemsSize(init);
      assert s == init + [s[|s| - 1]];
      assert Elems(s) == Elems(init) + {s[|s| - 1]};
    }
  }

  lemma SameSize(a: set<string>, b: set<string>)
    requires a <= b && |a| == |b|
    ensures a == b
  {
    assert b == a + (b - a);
  }
}
