/** A log and a longer one: the longer one has records the other does not know, left behind by appends that
    failed. What is appended to the one may be appended to the other, so both stay well formed. */
module StoreWeave {
  import opened StoreModel
  import opened StoreTree
  import opened StoreTheorems

  // ---------------------------------------------------------------- births

  lemma {:induction false} BornAt(recs: seq<Record>, id: string)
    requires id in Index(recs)
    ensures Birth(recs, id) < |recs| && IsNode(recs[Birth(recs, id)]) && recs[Birth(recs, id)].id == id
  {
    var n := |recs| - 1;
    if id in Index(recs[..n]) { BornAt(recs[..n], id); }
  }

  lemma {:induction false} BornNow(recs: seq<Record>, r: Record)
    requires IsNode(r) && r.id !in Index(recs)
    ensures Birth(recs + [r], r.id) == |recs|
  {
    assert (recs + [r])[..|recs|] == recs;
  }

  lemma {:induction false} BasePlain(id: string)
    ensures !Prefixed(Base(id)) && Base(Base(id)) == Base(id)
    decreases |id|
  {
    if Prefixed(id) { BasePlain(id[2..]); }
  }

  /** Of the messages both know, those born earlier in the one are born earlier in the other. */
  ghost predicate OrderKept(recs: seq<Record>, more: seq<Record>, ids: set<string>) {
    forall a, b :: a in ids && b in ids && Birth(recs, a) < Birth(recs, b) ==> Birth(more, a) < Birth(more, b)
  }

  ghost function Plain(recs: seq<Record>): set<string> {
    set id | id in Index(recs) && !Prefixed(id)
  }

  lemma {:induction false} RankCarries(recs: seq<Record>, more: seq<Record>, a: string, b: string)
    requires WellFormed(recs) && OrderKept(recs, more, Plain(recs))
    requires a in Index(recs) && b in Index(recs) && RankBelow(recs, a, b)
    ensures RankBelow(more, a, b)
  {
    NodeAt(recs, a);
    NodeAt(recs, b);
    BasePlain(a);
    BasePlain(b);
    if Birth(recs, Base(a)) == Birth(recs, Base(b)) {
      BornAt(recs, Base(a));
      BornAt(recs, Base(b));
    }
  }

  // ---------------------------------------------------------------- a record taken out

  /** The log without the nodes of an id. */
  ghost function Drop(recs: seq<Record>, x: string): seq<Record> {
    if recs == [] then []
    else
      var r := recs[|recs| - 1];
      if IsNode(r) && r.id == x then Drop(recs[..|recs| - 1], x) else Drop(recs[..|recs| - 1], x) + [r]
  }

  lemma {:induction false} DropIndex(recs: seq<Record>, x: string)
    ensures Index(Drop(recs, x)) == Index(recs) - {x}
  {
    if recs != [] {
      var n := |recs| - 1;
      DropIndex(recs[..n], x);
      IndexSnoc(Drop(recs[..n], x), recs[n]);
    }
  }

  lemma {:induction false} DropOrder(recs: seq<Record>, x: string)
    ensures OrderKept(recs, Drop(recs, x), Index(recs).Keys - {x})
  {
    if recs != [] {
      var n := |recs| - 1;
      var init, r := recs[..n], recs[n];
      DropOrder(init, x);
      DropIndex(init, x);
      assert recs == init + [r];
      forall a, b | a in Index(recs).Keys - {x} && b in Index(recs).Keys - {x} && Birth(recs, a) < Birth(recs, b)
        ensures Birth(Drop(recs, x), a) < Birth(Drop(recs, x), b)
      {
        DropBirths(init, r, x, a, b);
      }
    }
  }

  lemma {:induction false} DropBirths(init: seq<Record>, r: Record, x: string, a: string, b: string)
    requires OrderKept(init, Drop(init, x), Index(init).Keys - {x}) && Index(Drop(init, x)) == Index(init) - {x}
    requires a in Index(init + [r]) && b in Index(init + [r]) && a != x && b != x
    requires Birth(init + [r], a) < Birth(init + [r], b)
    ensures Birth(Drop(init + [r], x), a) < Birth(Drop(init + [r], x), b)
  {
    IndexSnoc(init, r);
    assert (init + [r])[..|init|] == init;
    assert a in Index(init) by {
      if a !in Index(init) {
        BornNow(init, r);
        BornAt(init + [r], b);
      }
    }
    BirthSnoc(init, r, a);
    BirthSnoc(Drop(init, x), r, a);
    if b in Index(init) {
      BirthSnoc(init, r, b);
      BirthSnoc(Drop(init, x), r, b);
    } else {
      BornNow(Drop(init, x), r);
      BornAt(Drop(init, x), a);
    }
  }

  // ---------------------------------------------------------------- the relation

  /** All records are nodes of the tree, and hang on nodes that recs knows. */
  ghost predicate Hangs(recs: seq<Record>, more: seq<Record>) {
    forall k :: 0 <= k < |more| ==> HangsOn(recs, more[k])
  }

  ghost predicate HangsOn(recs: seq<Record>, r: Record) {
    && IsNode(r) && (r.parent == "" || r.parent in Index(recs))
    && (r.CompactRecord? ==> r.coveredTo in Index(recs))
  }

  ghost predicate Weave(recs: seq<Record>, more: seq<Record>) {
    && WellFormed(recs) && WellFormed(more) && Index(recs).Keys <= Index(more).Keys
    && OrderKept(recs, more, Plain(recs)) && Hangs(recs, more)
  }

  /** A node that may be appended to the one may be appended to the other, unless the other has a message
      of that id. */
  lemma {:induction false} AlsoAdmissible(recs: seq<Record>, more: seq<Record>, r: Record)
    requires Weave(recs, more) && IsNode(r) && Admissible(recs, r) && (r.MsgRecord? ==> r.id !in Index(more))
    ensures Admissible(more, r) && HangsOn(recs, r)
  {
    assert forall id :: id in Index(recs).Keys ==> id in Index(more).Keys;
    if r.CompactRecord? && r.parent != "" { RankCarries(recs, more, r.parent, r.coveredTo); }
  }

  /** A record left behind. */
  lemma {:induction false} LeftBehind(recs: seq<Record>, more: seq<Record>, r: Record)
    requires Weave(recs, more) && IsNode(r) && Admissible(recs, r) && (r.MsgRecord? ==> r.id !in Index(more))
    ensures Weave(recs, more + [r])
  {
    AlsoAdmissible(recs, more, r);
    WellFormedSnoc(more, r);
    IndexSnoc(more, r);
    hide WellFormed, Admissible, Index;
    forall a, b | a in Plain(recs) && b in Plain(recs) && Birth(recs, a) < Birth(recs, b)
      ensures Birth(more + [r], a) < Birth(more + [r], b)
    {
      assert a in Index(more).Keys && b in Index(more).Keys;
      BirthSnoc(more, r, a);
      BirthSnoc(more, r, b);
    }
  }

  /** A record of both. */
  lemma {:induction false} OnBoth(recs: seq<Record>, more: seq<Record>, r: Record)
    requires Weave(recs, more) && IsNode(r) && Admissible(recs, r) && (r.MsgRecord? ==> r.id !in Index(more))
    ensures Weave(recs + [r], more + [r])
  {
    LeftBehind(recs, more, r);
    WellFormedSnoc(recs, r);
    IndexSnoc(recs, r);
    IndexSnoc(more, r);
    hide WellFormed, Admissible, Index;
    forall a, b | a in Plain(recs + [r]) && b in Plain(recs + [r]) && Birth(recs + [r], a) < Birth(recs + [r], b)
      ensures Birth(more + [r], a) < Birth(more + [r], b)
    {
      NewBirths(recs, more, r, a, b);
    }
    forall k | 0 <= k < |more + [r]| ensures HangsOn(recs + [r], (more + [r])[k]) {
      assert HangsOn(recs, (more + [r])[k]);
    }
  }

  lemma {:induction false} NewBirths(recs: seq<Record>, more: seq<Record>, r: Record, a: string, b: string)
    requires Weave(recs, more) && IsNode(r) && Admissible(recs, r) && (r.MsgRecord? ==> r.id !in Index(more))
    requires a in Plain(recs + [r]) && b in Plain(recs + [r]) && Birth(recs + [r], a) < Birth(recs + [r], b)
    ensures Birth(more + [r], a) < Birth(more + [r], b)
  {
    IndexSnoc(recs, r);
    if r.CompactRecord? { CompactIdBase(r.coveredTo); }
    assert a in Index(recs) by {
      if a !in Index(recs) {
        BornNow(recs, r);
        BornAt(recs + [r], b);
      }
    }
    assert a in Index(more).Keys;
    BirthSnoc(recs, r, a);
    BirthSnoc(more, r, a);
    if b in Index(recs) {
      assert b in Index(more).Keys;
      BirthSnoc(recs, r, b);
      BirthSnoc(more, r, b);
    } else {
      BornNow(more, r);
      BornAt(more, a);
    }
  }

  /** A record that is no node. */
  lemma {:induction false} NoNode(recs: seq<Record>, more: seq<Record>, r: Record)
    requires Weave(recs, more) && !IsNode(r) && Admissible(recs, r)
    ensures Weave(recs + [r], more) && Index(recs + [r]) == Index(recs)
  {
    WellFormedSnoc(recs, r);
    IndexSnoc(recs, r);
    hide WellFormed, Admissible, Index;
    forall a | a in Plain(recs) ensures Birth(recs + [r], a) == Birth(recs, a) { BirthSnoc(recs, r, a); }
    forall k | 0 <= k < |more| ensures HangsOn(recs + [r], more[k]) { assert HangsOn(recs, more[k]); }
  }

  // ---------------------------------------------------------------- an id written again

  lemma {:induction false} DropSound(recs: seq<Record>, more: seq<Record>, x: string)
    requires WellFormed(recs) && WellFormed(more) && Hangs(recs, more) && x !in Index(recs)
    ensures WellFormed(Drop(more, x)) && Hangs(recs, Drop(more, x))
  {
    if more != [] {
      var n := |more| - 1;
      var init, r := more[..n], more[n];
      DropSound(recs, init, x);
      assert HangsOn(recs, r);
      if r.id != x {
        DropAdmits(recs, init, r, x);
        WellFormedSnoc(Drop(init, x), r);
      }
    }
  }

  lemma {:induction false} DropAdmits(recs: seq<Record>, init: seq<Record>, r: Record, x: string)
    requires WellFormed(recs) && WellFormed(init) && x !in Index(recs) && HangsOn(recs, r) && Admissible(init, r) && r.id != x
    ensures Admissible(Drop(init, x), r)
  {
    DropIndex(init, x);
    DropOrder(init, x);
    if r.CompactRecord? && r.parent != "" {
      BaseKnown(recs, r.parent);
      BaseKnown(recs, r.coveredTo);
      NodeAt(init, r.parent);
      NodeAt(init, r.coveredTo);
      if Birth(init, Base(r.parent)) == Birth(init, Base(r.coveredTo)) {
        BornAt(init, Base(r.parent));
        BornAt(init, Base(r.coveredTo));
      }
    }
  }

  /** The other log without a message that the one does not know. */
  lemma {:induction false} DropWeave(recs: seq<Record>, more: seq<Record>, x: string)
    requires Weave(recs, more) && x !in Index(recs)
    ensures Weave(recs, Drop(more, x)) && Index(Drop(more, x)) == Index(more) - {x}
  {
    DropSound(recs, more, x);
    DropIndex(more, x);
    DropOrder(more, x);
    hide WellFormed, Index, Drop;
    assert forall id :: id in Plain(recs) ==> id in Index(more).Keys - {x};
  }
}
