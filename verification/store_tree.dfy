/** The parent links of a session log: why they never form a cycle, and the path and the
    view that follow from them. */
module StoreTree {
  import opened Messages
  import opened StoreModel

  lemma {:induction false} CompactIdBase(to: string)
    ensures Prefixed(CompactId(to)) && CompactId(to)[2..] == to
    ensures Base(CompactId(to)) == Base(to) && Depth(CompactId(to)) == Depth(to) + 1
  {}

  lemma {:induction false} IndexSnoc(recs: seq<Record>, r: Record)
    ensures Index(recs + [r]) == if IsNode(r) then Index(recs)[r.id := r] else Index(recs)
  {
    assert (recs + [r])[..|recs|] == recs;
  }

  lemma {:induction false} WellFormedSnoc(recs: seq<Record>, r: Record)
    ensures WellFormed(recs + [r]) <==> WellFormed(recs) && Admissible(recs, r)
  {
    assert (recs + [r])[..|recs|] == recs;
  }

  lemma {:induction false} BirthSnoc(recs: seq<Record>, r: Record, id: string)
    requires id in Index(recs)
    ensures Birth(recs + [r], id) == Birth(recs, id)
  {
    assert (recs + [r])[..|recs|] == recs;
  }

  /** A known id names a node that carries it. */
  lemma {:induction false} NodeIdent(recs: seq<Record>, id: string)
    requires WellFormed(recs) && id in Index(recs)
    ensures id != "" && IsNode(Index(recs)[id]) && Index(recs)[id].id == id
  {
    var n := |recs| - 1;
    assert recs == recs[..n] + [recs[n]];
    if !(IsNode(recs[n]) && recs[n].id == id) { NodeIdent(recs[..n], id); }
  }

  /** Every known id has a known base message, born before the log ends. */
  lemma {:induction false} BaseKnown(recs: seq<Record>, id: string)
    requires WellFormed(recs) && id in Index(recs)
    ensures Base(id) in Index(recs) && Birth(recs, Base(id)) < |recs|
  {
    var n := |recs| - 1;
    var r := recs[n];
    if IsNode(r) && r.id == id {
      if r.CompactRecord? {
        CompactIdBase(r.coveredTo);
        BaseKnown(recs[..n], r.coveredTo);
      }
    } else {
      BaseKnown(recs[..n], id);
    }
  }

  lemma {:induction false} NodeAt(recs: seq<Record>, id: string)
    requires WellFormed(recs) && id in Index(recs)
    ensures id != "" && IsNode(Index(recs)[id]) && Index(recs)[id].id == id
    ensures Base(id) in Index(recs) && Birth(recs, Base(id)) < |recs|
  {
    NodeIdent(recs, id);
    BaseKnown(recs, id);
  }

  lemma {:induction false} RankSnoc(recs: seq<Record>, r: Record, a: string, b: string)
    requires WellFormed(recs) && a in Index(recs) && b in Index(recs) && RankBelow(recs, a, b)
    ensures RankBelow(recs + [r], a, b)
  {
    NodeAt(recs, a);
    NodeAt(recs, b);
    BirthSnoc(recs, r, Base(a));
    BirthSnoc(recs, r, Base(b));
  }

  ghost function ParentOf(recs: seq<Record>, id: string): string
    requires WellFormed(recs) && id in Index(recs)
  {
    NodeAt(recs, id);
    Index(recs)[id].parent
  }

  /** The heart of acyclicity: whichever record of an id is the last one, its parent is known
      and ranks strictly below it. The rank (birth of the base message, number of prefixes)
      depends on the id alone, so re-creating a compact node can not raise its parent above it. */
  lemma {:induction false} EdgeDown(recs: seq<Record>, id: string)
    requires WellFormed(recs) && id in Index(recs)
    ensures var p := ParentOf(recs, id);
      p == "" || (p in Index(recs) && RankBelow(recs, p, id))
  {
    var n := |recs| - 1;
    var r := recs[n];
    var init := recs[..n];
    assert recs == init + [r];
    NodeAt(recs, id);
    var p := ParentOf(recs, id);
    if IsNode(r) && r.id == id {
      if p != "" {
        NodeAt(init, p);
        if r.MsgRecord? {
          BirthSnoc(init, r, Base(p));
          assert Base(id) == id;
        } else {
          CompactIdBase(r.coveredTo);
          RankSnoc(init, r, p, r.coveredTo);
        }
      }
    } else {
      EdgeDown(init, id);
      if p != "" { RankSnoc(init, r, p, id); }
    }
  }

  /** More than that: the parent of a summary ranks below the last node it covers. */
  lemma {:induction false} SummaryEdge(recs: seq<Record>, id: string)
    requires WellFormed(recs) && id in Index(recs) && Index(recs)[id].CompactRecord?
    ensures var r := Index(recs)[id];
      && id == CompactId(r.coveredTo) && r.coveredTo in Index(recs)
      && (r.parent == "" || (r.parent in Index(recs) && RankBelow(recs, r.parent, r.coveredTo)))
  {
    var n := |recs| - 1;
    var init, r, c := recs[..n], recs[n], Index(recs)[id];
    assert recs == init + [r];
    IndexSnoc(init, r);
    if !(IsNode(r) && r.id == id) { SummaryEdge(init, id); }
    if c.parent != "" { RankSnoc(init, r, c.parent, c.coveredTo); }
  }

  // ---------------------------------------------------------------- paths

  /** The active path, root first. It needs no visited set: ranks decrease. */
  ghost function Path(recs: seq<Record>, id: string): seq<string>
    requires WellFormed(recs) && (id == "" || id in Index(recs))
    decreases if id == "" then 0 else Birth(recs, Base(id)) + 1, Depth(id)
  {
    if id == "" then []
    else
      EdgeDown(recs, id);
      Path(recs, ParentOf(recs, id)) + [id]
  }

  lemma {:induction false} PathRanks(recs: seq<Record>, id: string)
    requires WellFormed(recs) && id in Index(recs)
    ensures var p := Path(recs, id);
      && |p| > 0 && p[|p| - 1] == id
      && (forall k :: 0 <= k < |p| ==> p[k] in Index(recs))
      && (forall k :: 0 <= k < |p| - 1 ==> RankBelow(recs, p[k], id))
    decreases Birth(recs, Base(id)), Depth(id)
  {
    NodeAt(recs, id);
    EdgeDown(recs, id);
    var q := ParentOf(recs, id);
    var p := Path(recs, id);
    if q != "" {
      PathRanks(recs, q);
      var pq := Path(recs, q);
      assert p == pq + [id];
      forall k | 0 <= k < |p| - 1 ensures p[k] in Index(recs) && RankBelow(recs, p[k], id) {
        assert p[k] == pq[k];
      }
    }
  }

  /** A prefix of a path is the path of its last node. */
  lemma {:induction false} PathPrefix(recs: seq<Record>, id: string, k: nat)
    requires WellFormed(recs) && id in Index(recs) && k < |Path(recs, id)|
    ensures Path(recs, id)[k] in Index(recs)
    ensures Path(recs, Path(recs, id)[k]) == Path(recs, id)[..k + 1]
    decreases Birth(recs, Base(id)), Depth(id)
  {
    PathRanks(recs, id);
    EdgeDown(recs, id);
    var p, q := Path(recs, id), ParentOf(recs, id);
    if k == |p| - 1 {
      assert p[..k + 1] == p;
    } else {
      PathPrefix(recs, q, k);
      assert p[k] == Path(recs, q)[k] && p[..k + 1] == Path(recs, q)[..k + 1];
    }
  }

  lemma {:induction false} PathOrdered(recs: seq<Record>, id: string, i: nat, j: nat)
    requires WellFormed(recs) && id in Index(recs) && i < j < |Path(recs, id)|
    ensures RankBelow(recs, Path(recs, id)[i], Path(recs, id)[j])
    ensures Path(recs, id)[i] != Path(recs, id)[j]
  {
    var p := Path(recs, id);
    PathPrefix(recs, id, j);
    PathRanks(recs, p[j]);
    assert p[..j + 1][i] == p[i];
  }

  /** Appending a record changes only the paths that run through its id. */
  lemma {:induction false} PathSnoc(recs: seq<Record>, r: Record, id: string)
    requires WellFormed(recs + [r]) && WellFormed(recs) && id in Index(recs)
    requires IsNode(r) ==> r.id !in Path(recs, id)
    ensures id in Index(recs + [r]) && Path(recs + [r], id) == Path(recs, id)
    ensures forall x :: x in Path(recs, id) ==> x in Index(recs) && Index(recs + [r])[x] == Index(recs)[x]
    decreases Birth(recs, Base(id)), Depth(id)
  {
    IndexSnoc(recs, r);
    PathRanks(recs, id);
    EdgeDown(recs, id);
    EdgeDown(recs + [r], id);
    var p := ParentOf(recs, id);
    assert ParentOf(recs + [r], id) == p;
    if p != "" { PathSnoc(recs, r, p); }
  }

  // ---------------------------------------------------------------- views

  /** The active view: the chain of parents from head, root first. */
  ghost function View(recs: seq<Record>, head: string): seq<Message>
    requires WellFormed(recs) && (head == "" || head in Index(recs))
    decreases if head == "" then 0 else Birth(recs, Base(head)) + 1, Depth(head)
  {
    if head == "" then []
    else
      EdgeDown(recs, head);
      View(recs, ParentOf(recs, head)) + [Render(Index(recs)[head])]
  }

  lemma {:induction false} PathKnown(recs: seq<Record>, id: string)
    requires WellFormed(recs) && (id == "" || id in Index(recs))
    ensures forall k :: 0 <= k < |Path(recs, id)| ==> Path(recs, id)[k] in Index(recs)
  {
    if id != "" { PathRanks(recs, id); }
  }

  lemma {:induction false} ViewIsPath(recs: seq<Record>, head: string)
    requires WellFormed(recs) && (head == "" || head in Index(recs))
    ensures forall k :: 0 <= k < |Path(recs, head)| ==> Path(recs, head)[k] in Index(recs)
    ensures View(recs, head) == RenderAll(Index(recs), Path(recs, head))
    decreases if head == "" then 0 else Birth(recs, Base(head)) + 1, Depth(head)
  {
    PathKnown(recs, head);
    if head != "" {
      EdgeDown(recs, head);
      ViewIsPath(recs, ParentOf(recs, head));
    }
  }
}
