/** What one compaction does to every view of the log (store.go:298-398). */
module StoreCompaction {
  import opened Messages
  import opened StoreModel
  import opened StoreTree

  /** Message nodes never carry the summary prefix, compact nodes always do. */
  lemma {:induction false} NodeIds(recs: seq<Record>)
    requires WellFormed(recs)
    ensures forall id :: id in Index(recs) && Index(recs)[id].MsgRecord? ==> !Prefixed(id)
    ensures forall id :: id in Index(recs) && Index(recs)[id].CompactRecord? ==> Prefixed(id) && |id| > 2
  {
    if recs != [] {
      var n := |recs| - 1;
      NodeIds(recs[..n]);
      if recs[n].CompactRecord? {
        NodeIdent(recs[..n], recs[n].coveredTo);
        CompactIdBase(recs[n].coveredTo);
      }
    }
  }

  lemma {:induction false} ViewSnoc(recs: seq<Record>, r: Record, id: string)
    requires WellFormed(recs + [r]) && WellFormed(recs) && (id == "" || id in Index(recs))
    requires IsNode(r) && id != "" ==> r.id !in Path(recs, id)
    ensures id == "" || id in Index(recs + [r])
    ensures View(recs + [r], id) == View(recs, id)
  {
    if id != "" { PathSnoc(recs, r, id); }
    ViewIsPath(recs, id);
    ViewIsPath(recs + [r], id);
  }

  /** A node appended above a path that avoids its id extends that path and its view. */
  lemma {:induction false} Grow(recs: seq<Record>, r: Record)
    requires WellFormed(recs + [r]) && WellFormed(recs) && IsNode(r)
    requires r.parent == "" || (r.parent in Index(recs) && r.id !in Path(recs, r.parent))
    ensures r.id in Index(recs + [r])
    ensures Path(recs + [r], r.id) == Path(recs, r.parent) + [r.id]
    ensures View(recs + [r], r.id) == View(recs, r.parent) + [Render(r)]
  {
    var all := recs + [r];
    IndexSnoc(recs, r);
    NodeAt(all, r.id);
    assert ParentOf(all, r.id) == r.parent;
    EdgeDown(all, r.id);
    ViewSnoc(recs, r, r.parent);
    if r.parent != "" { PathSnoc(recs, r, r.parent); }
    PathRanks(all, r.id);
    GrowView(all, r.id);
  }

  /** The view of a node is the view of its parent and the node itself. */
  lemma {:induction false} GrowView(recs: seq<Record>, id: string)
    requires WellFormed(recs) && id in Index(recs)
    ensures var p := ParentOf(recs, id);
      && (p == "" || p in Index(recs))
      && View(recs, id) == View(recs, p) + [Render(Index(recs)[id])]
  {
    NodeAt(recs, id);
    EdgeDown(recs, id);
    PathRanks(recs, id);
    var p := ParentOf(recs, id);
  }

  // ---------------------------------------------------------------- the compact node

  ghost predicate InRange(recs: seq<Record>, head: string, i: nat, j: nat) {
    WellFormed(recs) && head in Index(recs) && i <= j < |Path(recs, head)|
  }

  ghost function CompactNode(recs: seq<Record>, head: string, i: nat, j: nat, summary: string): Record
    requires InRange(recs, head, i, j)
  {
    var p := Path(recs, head);
    CompactRecord(CompactId(p[j]), if i > 0 then p[i - 1] else "", summary, p[i], p[j])
  }

  /** The compact id of a node stands on no path below that node. */
  lemma {:induction false} NotBelow(recs: seq<Record>, id: string, to: string)
    requires WellFormed(recs) && id in Index(recs) && to in Index(recs) && RankBelow(recs, id, to)
    ensures CompactId(to) !in Path(recs, id)
  {
    CompactIdBase(to);
    PathRanks(recs, id);
    var p := Path(recs, id);
    forall k | 0 <= k < |p| ensures p[k] != CompactId(to) {}
  }

  lemma {:induction false} CompactNodeAdmissible(recs: seq<Record>, head: string, i: nat, j: nat, summary: string)
    requires InRange(recs, head, i, j)
    ensures var c := CompactNode(recs, head, i, j, summary);
      && Admissible(recs, c) && WellFormed(recs + [c])
      && (c.parent == "" || (c.parent in Index(recs) && c.id !in Path(recs, c.parent)))
      && Path(recs, c.parent) == Path(recs, head)[..i]
  {
    var p := Path(recs, head);
    var c := CompactNode(recs, head, i, j, summary);
    PathRanks(recs, head);
    CompactIdBase(p[j]);
    if i > 0 {
      PathOrdered(recs, head, i - 1, j);
      PathPrefix(recs, head, i - 1);
      NotBelow(recs, p[i - 1], p[j]);
    }
    WellFormedSnoc(recs, c);
  }

  /** The compact node's view: what stood before the covered range, and the summary. */
  lemma {:induction false} CompactNodeView(recs: seq<Record>, head: string, i: nat, j: nat, summary: string)
    requires InRange(recs, head, i, j)
    ensures var c := CompactNode(recs, head, i, j, summary);
      && WellFormed(recs + [c]) && c.id in Index(recs + [c])
      && i <= |View(recs, head)|
      && View(recs + [c], c.id) == View(recs, head)[..i] + [Message(c.id, SummaryBody(summary))]
  {
    var c := CompactNode(recs, head, i, j, summary);
    CompactNodeAdmissible(recs, head, i, j, summary);
    Grow(recs, c);
    PathRanks(recs, head);
    NodeAt(recs, head);
    ViewIsPath(recs, head);
    ViewIsPath(recs, c.parent);
  }

  // ---------------------------------------------------------------- the copies

  ghost predicate FreshIds(recs: seq<Record>, newIds: seq<string>) {
    && (forall k :: 0 <= k < |newIds| ==> newIds[k] != "" && !Prefixed(newIds[k]) && newIds[k] !in Index(recs))
    && (forall k, l :: 0 <= k < l < |newIds| ==> newIds[k] != newIds[l])
  }

  /** The messages the copies render to. */
  ghost function Kept(idx: map<string, Record>, retain: seq<string>, newIds: seq<string>): seq<Message>
    requires |newIds| >= |retain|
  {
    if retain == [] then []
    else
      var n := |retain| - 1;
      var before := Kept(idx, retain[..n], newIds);
      if retain[n] in idx && idx[retain[n]].MsgRecord? then before + [Message(newIds[n], idx[retain[n]].body)] else before
  }

  /** Every head known before shows what it showed. */
  ghost predicate HeadsKept(recs: seq<Record>, all: seq<Record>)
    requires WellFormed(recs) && WellFormed(all)
  {
    forall h :: h in Index(recs) ==> h in Index(all) && View(all, h) == View(recs, h)
  }

  lemma {:induction false} HeadsSnoc(recs: seq<Record>, before: seq<Record>, r: Record)
    requires WellFormed(recs) && WellFormed(before) && HeadsKept(recs, before) && WellFormed(before + [r])
    requires IsNode(r) ==> r.id !in Index(before)
    ensures HeadsKept(recs, before + [r])
  {
    forall h | h in Index(recs) ensures h in Index(before + [r]) && View(before + [r], h) == View(recs, h) {
      PathRanks(before, h);
      ViewSnoc(before, r, h);
    }
  }

  lemma {:induction false} CloneIds(recs: seq<Record>, idx: map<string, Record>, retain: seq<string>,
                                    newIds: seq<string>, cid: string, x: string)
    requires |newIds| >= |retain| && x in Index(recs + Clones(idx, retain, newIds, cid))
    ensures x in Index(recs) || exists k :: 0 <= k < |retain| && newIds[k] == x
  {
    if retain == [] {
      assert recs + Clones(idx, retain, newIds, cid) == recs;
    } else {
      var n := |retain| - 1;
      if retain[n] in idx && idx[retain[n]].MsgRecord? {
        var r := MsgRecord(newIds[n], Tip(idx, retain[..n], newIds, cid), idx[retain[n]].body, retain[n]);
        Assoc(recs, Clones(idx, retain[..n], newIds, cid), r);
        IndexSnoc(recs + Clones(idx, retain[..n], newIds, cid), r);
      }
      if x in Index(recs + Clones(idx, retain[..n], newIds, cid)) { CloneIds(recs, idx, retain[..n], newIds, cid, x); }
    }
  }

  lemma {:induction false} ClonesView(recs: seq<Record>, idx: map<string, Record>, retain: seq<string>,
                                      newIds: seq<string>, cid: string)
    requires WellFormed(recs) && cid in Index(recs)
    requires |newIds| >= |retain| && FreshIds(recs, newIds)
    ensures var all := recs + Clones(idx, retain, newIds, cid);
      var tip := Tip(idx, retain, newIds, cid);
      && WellFormed(all) && tip in Index(all)
      && View(all, tip) == View(recs, cid) + Kept(idx, retain, newIds)
      && HeadsKept(recs, all)
  {
    if retain == [] {
      assert recs + Clones(idx, retain, newIds, cid) == recs;
    } else {
      var n := |retain| - 1;
      ClonesView(recs, idx, retain[..n], newIds, cid);
      if retain[n] in idx && idx[retain[n]].MsgRecord? {
        ClonesViewStep(recs, idx, retain, newIds, cid);
      }
    }
  }

  lemma ClonesViewStep(recs: seq<Record>, idx: map<string, Record>, retain: seq<string>,
                       newIds: seq<string>, cid: string)
    requires WellFormed(recs) && cid in Index(recs)
    requires |newIds| >= |retain| > 0 && FreshIds(recs, newIds)
    requires retain[|retain| - 1] in idx && idx[retain[|retain| - 1]].MsgRecord?
    requires var before := recs + Clones(idx, retain[..|retain| - 1], newIds, cid);
      var tip := Tip(idx, retain[..|retain| - 1], newIds, cid);
      && WellFormed(before) && tip in Index(before)
      && View(before, tip) == View(recs, cid) + Kept(idx, retain[..|retain| - 1], newIds)
      && HeadsKept(recs, before)
    ensures var all := recs + Clones(idx, retain, newIds, cid);
      var tip := Tip(idx, retain, newIds, cid);
      && WellFormed(all) && tip in Index(all)
      && View(all, tip) == View(recs, cid) + Kept(idx, retain, newIds)
      && HeadsKept(recs, all)
  {
    var n := |retain| - 1;
    var before := recs + Clones(idx, retain[..n], newIds, cid);
    var r := MsgRecord(newIds[n], Tip(idx, retain[..n], newIds, cid), idx[retain[n]].body, retain[n]);
    if newIds[n] in Index(before) { CloneIds(recs, idx, retain[..n], newIds, cid, newIds[n]); }
    CloneAppend(recs, before, r, View(recs, cid), Kept(idx, retain[..n], newIds));
    assert Clones(idx, retain, newIds, cid) == Clones(idx, retain[..n], newIds, cid) + [r];
    Assoc(recs, Clones(idx, retain[..n], newIds, cid), r);
  }

  lemma Assoc<T>(a: seq<T>, b: seq<T>, x: T)
    ensures a + (b + [x]) == a + b + [x]
  {}

  lemma {:induction false} CloneAppend(recs: seq<Record>, before: seq<Record>, r: Record, view: seq<Message>, kept: seq<Message>)
    requires WellFormed(recs) && WellFormed(before) && HeadsKept(recs, before) && r.MsgRecord?
    requires r.id != "" && !Prefixed(r.id) && r.id !in Index(before) && r.parent in Index(before)
    requires View(before, r.parent) == view + kept
    ensures WellFormed(before + [r]) && r.id in Index(before + [r]) && HeadsKept(recs, before + [r])
    ensures View(before + [r], r.id) == view + (kept + [Render(r)])
  {
    WellFormedSnoc(before, r);
    PathRanks(before, r.parent);
    Grow(before, r);
    HeadsSnoc(recs, before, r);
    Assoc(view, kept, Render(r));
  }

  /** Among the nodes of a path the real messages are the message nodes. */
  lemma {:induction false} NodeReal(recs: seq<Record>, id: string)
    requires WellFormed(recs) && id in Index(recs)
    ensures var m := Render(Index(recs)[id]);
      && m.id == id && m.id != "" && (IsReal(m) <==> Index(recs)[id].MsgRecord?)
  {
    NodeAt(recs, id);
    NodeIds(recs);
  }

  lemma {:induction false} RealsSnoc(v: seq<Message>, m: Message)
    ensures Reals(v + [m]) == if m.id != "" && IsReal(m) then Reals(v) + [m] else Reals(v)
  {
    assert (v + [m])[..|v|] == v;
  }

  lemma BodiesSnoc(a: seq<Message>, b: seq<Message>, m: Message, n: Message)
    requires Bodies(a) == Bodies(b) && m.body == n.body
    ensures Bodies(a + [m]) == Bodies(b + [n])
  {
    BodiesConcat(a, [m]);
    BodiesConcat(b, [n]);
    assert Bodies([m]) == Bodies([n]);
  }

  /** Up to ids, the copies are the messages of the retained segment that are no summaries. */
  lemma {:induction false} KeptBodies(recs: seq<Record>, ids: seq<string>, newIds: seq<string>)
    requires WellFormed(recs) && (forall k :: 0 <= k < |ids| ==> ids[k] in Index(recs))
    requires |newIds| >= |ids|
    ensures Bodies(Kept(Index(recs), ids, newIds)) == Bodies(Reals(RenderAll(Index(recs), ids)))
  {
    if ids != [] {
      var n := |ids| - 1;
      KeptBodies(recs, ids[..n], newIds);
      NodeReal(recs, ids[n]);
      var m := Render(Index(recs)[ids[n]]);
      var before := RenderAll(Index(recs), ids[..n]);
      assert RenderAll(Index(recs), ids) == before + [m];
      RealsSnoc(before, m);
      if IsReal(m) { BodiesSnoc(Kept(Index(recs), ids[..n], newIds), Reals(before), Message(newIds[n], m.body), m); }
    }
  }
}
