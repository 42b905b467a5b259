/** What it means that a sequence holds certain elements of another, each once and in order. */
module Picking {

  /** out is s at these positions. */
  ghost predicate Picks<T>(s: seq<T>, at: seq<nat>, out: seq<T>) {
    && |at| == |out| && (forall i, j :: 0 <= i < j < |at| ==> at[i] < at[j])
    && (forall i :: 0 <= i < |at| ==> at[i] < |s| && out[i] == s[at[i]])
  }

  /** out is what stands in s at the positions marked by keep, and nothing else. */
  ghost predicate Keeps<T>(s: seq<T>, keep: set<nat>, out: seq<T>) {
    exists at: seq<nat> :: Picks(s, at, out) && forall k: nat :: k in at <==> k in keep
  }

  lemma KeepsNone<T>(keep: set<nat>)
    requires keep == {}
    ensures Keeps<T>([], keep, [])
  {
    var at: seq<nat> := [];
    assert Picks<T>([], at, []);
  }

  lemma KeepsSnoc<T>(s: seq<T>, keep: set<nat>, out: seq<T>, x: T)
    requires Keeps(s, keep, out) && forall k: nat :: k in keep ==> k < |s|
    ensures Keeps(s + [x], keep, out)
    ensures Keeps(s + [x], keep + {|s|}, out + [x])
  {
    var at: seq<nat> :| Picks(s, at, out) && forall k: nat :: k in at <==> k in keep;
    assert Picks(s + [x], at, out);
    var more: seq<nat> := at + [|s|];
    forall k: nat ensures k in more <==> k in keep + {|s|} {
      assert k in more <==> k in at || k == |s|;
    }
    forall i, j | 0 <= i < j < |more| ensures more[i] < more[j] {
      if j == |at| { assert at[i] in at; }
    }
    assert Picks(s + [x], more, out + [x]);
  }

  /** The marked positions decide. */
  lemma {:induction false} KeepsOne<T>(s: seq<T>, keep: set<nat>, a: seq<T>, b: seq<T>)
    requires Keeps(s, keep, a) && Keeps(s, keep, b)
    ensures a == b
  {
    var p: seq<nat> :| Picks(s, p, a) && forall k: nat :: k in p <==> k in keep;
    var q: seq<nat> :| Picks(s, q, b) && forall k: nat :: k in q <==> k in keep;
    SamePositions(p, q);
  }

  lemma {:induction false} SamePositions(p: seq<nat>, q: seq<nat>)
    requires forall i, j :: 0 <= i < j < |p| ==> p[i] < p[j]
    requires forall i, j :: 0 <= i < j < |q| ==> q[i] < q[j]
    requires forall k: nat :: k in p <==> k in q
    ensures p == q
  {
    assert p != [] ==> p[0] in q;
    assert q != [] ==> q[0] in p;
    if p != [] && q != [] {
      var m, n := |p| - 1, |q| - 1;
      assert p[m] in q && q[n] in p;
      forall k: nat ensures k in p[..m] <==> k in q[..n] {
        if k in p[..m] { assert k in p && k < p[m]; }
        if k in q[..n] { assert k in q && k < q[n]; }
      }
      SamePositions(p[..m], q[..n]);
      assert p == p[..m] + [p[m]] && q == q[..n] + [q[n]];
    }
  }
}
