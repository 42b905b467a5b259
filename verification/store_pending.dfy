/** No message waiting for consolidation is lost by a compaction (store.go:444-498, 776-799). */
module StorePending {
  import opened Messages
  import opened StoreModel
  import opened StoreTree
  import opened StoreCompaction
  import opened StoreTheorems

  predicate Has(ms: seq<Message>, id: string) {
    FirstOf(ms, id) < |ms|
  }

  /** The messages of ms whose id is not among ids. */
  function Outside(ms: seq<Message>, ids: seq<string>): seq<Message> {
    if ms == [] then []
    else
      var rest := Outside(ms[..|ms| - 1], ids);
      if ms[|ms| - 1].id in ids then rest else rest + [ms[|ms| - 1]]
  }

  // ---------------------------------------------------------------- lists

  lemma {:induction false} FirstOfConcat(a: seq<Message>, b: seq<Message>, id: string)
    ensures FirstOf(a + b, id) == if Has(a, id) then FirstOf(a, id) else |a| + FirstOf(b, id)
  {
    if a == [] {
      assert a + b == b;
    } else {
      assert (a + b)[1..] == a[1..] + b;
      FirstOfConcat(a[1..], b, id);
    }
  }

  lemma AfterConcat(a: seq<Message>, b: seq<Message>, id: string)
    requires id != ""
    ensures AfterId(a + b, id) ==
      if Has(a, id) then AfterId(a, id) + b else if Has(b, id) then AfterId(b, id) else a + b
  {
    FirstOfConcat(a, b, id);
    var n := FirstOf(a, id);
    if n < |a| {
      DropLeft(a, b, n + 1);
    } else {
      DropRight(a, b, FirstOf(b, id) + 1);
    }
  }

  lemma DropLeft<T>(a: seq<T>, b: seq<T>, n: nat)
    requires n <= |a|
    ensures (a + b)[n..] == a[n..] + b
  {}

  lemma DropRight<T>(a: seq<T>, b: seq<T>, n: nat)
    ensures n <= |b| ==> (a + b)[|a| + n..] == b[n..]
  {}

  lemma {:induction false} RealsConcat(a: seq<Message>, b: seq<Message>)
    ensures Reals(a + b) == Reals(a) + Reals(b)
  {
    if b == [] {
      assert a + b == a;
    } else {
      var n := |b| - 1;
      RealsConcat(a, b[..n]);
      assert (a + b)[..|a + b| - 1] == a + b[..n];
    }
  }

  lemma {:induction false} OutsideConcat(a: seq<Message>, b: seq<Message>, ids: seq<string>)
    ensures Outside(a + b, ids) == Outside(a, ids) + Outside(b, ids)
  {
    if b == [] {
      assert a + b == a;
    } else {
      var n := |b| - 1;
      OutsideConcat(a, b[..n], ids);
      assert (a + b)[..|a + b| - 1] == a + b[..n];
    }
  }

  ghost predicate NoneIn(ms: seq<Message>, ids: seq<string>) {
    forall k :: 0 <= k < |ms| ==> ms[k].id !in ids
  }

  ghost predicate AllIn(ms: seq<Message>, ids: seq<string>) {
    forall k :: 0 <= k < |ms| ==> ms[k].id in ids
  }

  lemma {:induction false} OutsideAll(ms: seq<Message>, ids: seq<string>)
    requires NoneIn(ms, ids)
    ensures Outside(ms, ids) == ms
  {
    if ms != [] {
      OutsideAll(ms[..|ms| - 1], ids);
      assert ms == ms[..|ms| - 1] + [ms[|ms| - 1]];
    }
  }

  lemma {:induction false} OutsideNone(ms: seq<Message>, ids: seq<string>)
    requires AllIn(ms, ids)
    ensures Outside(ms, ids) == []
  {
    if ms != [] { OutsideNone(ms[..|ms| - 1], ids); }
  }

  // ---------------------------------------------------------------- one path segment

  ghost predicate Nodes(recs: seq<Record>, ids: seq<string>) {
    WellFormed(recs) && forall k :: 0 <= k < |ids| ==> ids[k] in Index(recs)
  }

  ghost predicate NoRepeats(ids: seq<string>) {
    forall k, l :: 0 <= k < l < |ids| ==> ids[k] != ids[l]
  }

  /** The real messages of a segment. */
  ghost function RealsOf(recs: seq<Record>, ids: seq<string>): seq<Message>
    requires Nodes(recs, ids)
  {
    Reals(RenderAll(Index(recs), ids))
  }

  lemma {:induction false} RealsOfSnoc(recs: seq<Record>, ids: seq<string>)
    requires Nodes(recs, ids) && ids != []
    ensures var n := |ids| - 1;
      var m := Render(Index(recs)[ids[n]]);
      && m.id == ids[n] && m.id != ""
      && (Index(recs)[ids[n]].MsgRecord? ==> m.body == Index(recs)[ids[n]].body && !Prefixed(m.id))
      && RealsOf(recs, ids) == if Index(recs)[ids[n]].MsgRecord? then RealsOf(recs, ids[..n]) + [m] else RealsOf(recs, ids[..n])
  {
    var n := |ids| - 1;
    NodeReal(recs, ids[n]);
    NodeIdent(recs, ids[n]);
    NodeIds(recs);
    assert RenderAll(Index(recs), ids) == RenderAll(Index(recs), ids[..n]) + [Render(Index(recs)[ids[n]])];
    RealsSnoc(RenderAll(Index(recs), ids[..n]), Render(Index(recs)[ids[n]]));
  }

  lemma {:induction false} RealsOfIds(recs: seq<Record>, ids: seq<string>)
    requires Nodes(recs, ids)
    ensures forall k :: 0 <= k < |RealsOf(recs, ids)| ==> RealsOf(recs, ids)[k].id in ids && !Prefixed(RealsOf(recs, ids)[k].id)
  {
    if ids != [] {
      var n := |ids| - 1;
      RealsOfIds(recs, ids[..n]);
      RealsOfSnoc(recs, ids);
      forall k | 0 <= k < |RealsOf(recs, ids)|
        ensures RealsOf(recs, ids)[k].id in ids && !Prefixed(RealsOf(recs, ids)[k].id)
      {
        if k < |RealsOf(recs, ids[..n])| {
          assert RealsOf(recs, ids)[k] == RealsOf(recs, ids[..n])[k];
          assert RealsOf(recs, ids)[k].id in ids[..n];
        }
      }
    }
  }

  lemma HasOf(recs: seq<Record>, ids: seq<string>, id: string)
    requires Nodes(recs, ids) && Has(RealsOf(recs, ids), id)
    ensures id in ids && !Prefixed(id)
  {
    RealsOfIds(recs, ids);
  }

  // ---------------------------------------------------------------- the copies

  lemma {:induction false} KeptIds(recs: seq<Record>, ids: seq<string>, newIds: seq<string>)
    requires Nodes(recs, ids) && |newIds| >= |ids|
    ensures forall m :: m in Kept(Index(recs), ids, newIds) ==> exists k :: 0 <= k < |ids| && newIds[k] == m.id
  {
    if ids != [] { KeptIds(recs, ids[..|ids| - 1], newIds); }
  }

  lemma HasMember(ms: seq<Message>, id: string)
    requires Has(ms, id)
    ensures exists m :: m in ms && m.id == id
  {
    assert ms[FirstOf(ms, id)] in ms;
  }

  /** A copy stands where its original stood. */
  lemma {:induction false} CloneStands(recs: seq<Record>, ids: seq<string>, newIds: seq<string>, c: string)
    requires Nodes(recs, ids) && NoRepeats(ids) && |newIds| >= |ids| && NoRepeats(newIds)
    ensures |Kept(Index(recs), ids, newIds)| == |RealsOf(recs, ids)|
    ensures if Has(RealsOf(recs, ids), c)
      then FirstOf(Kept(Index(recs), ids, newIds), CloneOf(Index(recs), ids, newIds, c)) == FirstOf(RealsOf(recs, ids), c)
           && exists k :: 0 <= k < |ids| && newIds[k] == CloneOf(Index(recs), ids, newIds, c)
      else CloneOf(Index(recs), ids, newIds, c) == c
  {
    if ids != [] {
      var n := |ids| - 1;
      CloneStands(recs, ids[..n], newIds, c);
      CloneStandsStep(recs, ids, newIds, c);
    }
  }

  lemma CloneStandsStep(recs: seq<Record>, ids: seq<string>, newIds: seq<string>, c: string)
    requires Nodes(recs, ids) && NoRepeats(ids) && |newIds| >= |ids| && NoRepeats(newIds) && ids != []
    requires var ids := ids[..|ids| - 1];
      && |Kept(Index(recs), ids, newIds)| == |RealsOf(recs, ids)|
      && if Has(RealsOf(recs, ids), c)
         then FirstOf(Kept(Index(recs), ids, newIds), CloneOf(Index(recs), ids, newIds, c)) == FirstOf(RealsOf(recs, ids), c)
              && exists k :: 0 <= k < |ids| && newIds[k] == CloneOf(Index(recs), ids, newIds, c)
         else CloneOf(Index(recs), ids, newIds, c) == c
    ensures |Kept(Index(recs), ids, newIds)| == |RealsOf(recs, ids)|
    ensures if Has(RealsOf(recs, ids), c)
      then FirstOf(Kept(Index(recs), ids, newIds), CloneOf(Index(recs), ids, newIds, c)) == FirstOf(RealsOf(recs, ids), c)
           && exists k :: 0 <= k < |ids| && newIds[k] == CloneOf(Index(recs), ids, newIds, c)
      else CloneOf(Index(recs), ids, newIds, c) == c
  {
    var n := |ids| - 1;
    var x := ids[n];
    var before, kept := RealsOf(recs, ids[..n]), Kept(Index(recs), ids[..n], newIds);
    RealsOfSnoc(recs, ids);
    if Index(recs)[x].MsgRecord? {
      var m, m' := Render(Index(recs)[x]), Message(newIds[n], Index(recs)[x].body);
      FirstOfConcat(before, [m], c);
      if x == c {
        if Has(before, c) { HasOf(recs, ids[..n], c); }
        FirstOfConcat(kept, [m'], newIds[n]);
        KeptIds(recs, ids[..n], newIds);
        if Has(kept, newIds[n]) { HasMember(kept, newIds[n]); }
      } else {
        FirstOfConcat(kept, [m'], CloneOf(Index(recs), ids[..n], newIds, c));
      }
    }
  }

  // ---------------------------------------------------------------- before and after

  lemma AfterSuffix(ms: seq<Message>, ids: seq<string>, c: string)
    ensures NoneIn(ms, ids) ==> NoneIn(AfterId(ms, c), ids)
    ensures AllIn(ms, ids) ==> AllIn(AfterId(ms, c), ids)
  {}

  lemma {:induction false} OutsideParts(x: seq<Message>, y: seq<Message>, z: seq<Message>, ids: seq<string>)
    requires NoneIn(x, ids) && AllIn(y, ids) && NoneIn(z, ids)
    ensures Outside(x + y + z, ids) == x + z
  {
    OutsideConcat(x + y, z, ids);
    OutsideConcat(x, y, ids);
    OutsideAll(x, ids);
    OutsideNone(y, ids);
    OutsideAll(z, ids);
    assert x + [] == x;
  }

  /** What the cursor selects among three lists, with the middle one taken out. */
  lemma {:induction false} OutsideAfter(x: seq<Message>, y: seq<Message>, z: seq<Message>, ids: seq<string>, c: string)
    requires NoneIn(x, ids) && AllIn(y, ids) && NoneIn(z, ids) && c != ""
    ensures Outside(AfterId(x + y + z, c), ids) ==
      if Has(x, c) then AfterId(x, c) + z else if Has(y, c) then z else AfterId(x + z, c)
  {
    AfterConcat(x + y, z, c);
    FirstOfConcat(x, y, c);
    AfterConcat(x, y, c);
    AfterSuffix(x, ids, c);
    AfterSuffix(y, ids, c);
    AfterSuffix(z, ids, c);
    if Has(x, c) {
      OutsideParts(AfterId(x, c), y, z, ids);
    } else if Has(y, c) {
      OutsideConcat(AfterId(y, c), z, ids);
      OutsideNone(AfterId(y, c), ids);
      OutsideAll(z, ids);
      assert [] + z == z;
    } else {
      AfterConcat(x, z, c);
      if Has(z, c) { OutsideAll(AfterId(z, c), ids); } else { OutsideParts(x, y, z, ids); }
    }
  }

  /** The pending messages a compaction of segment b must not lose. */
  lemma {:induction false} UncoveredPending(recs: seq<Record>, a: seq<string>, b: seq<string>, r: seq<string>, c: string)
    requires Nodes(recs, a) && Nodes(recs, b) && Nodes(recs, r) && NoRepeats(a + b + r)
    ensures var ra, rb, rr := RealsOf(recs, a), RealsOf(recs, b), RealsOf(recs, r);
      Outside(AfterId(ra + rb + rr, c), b) ==
        if c == "" then ra + rr
        else if Has(ra, c) then AfterId(ra, c) + rr
        else if Has(rb, c) then rr
        else AfterId(ra + rr, c)
  {
    var ra, rb, rr := RealsOf(recs, a), RealsOf(recs, b), RealsOf(recs, r);
    Apart(recs, a, b, r);
    if c == "" { OutsideParts(ra, rb, rr, b); } else { OutsideAfter(ra, rb, rr, b, c); }
  }

  lemma Apart(recs: seq<Record>, a: seq<string>, b: seq<string>, r: seq<string>)
    requires Nodes(recs, a) && Nodes(recs, b) && Nodes(recs, r) && NoRepeats(a + b + r)
    ensures NoneIn(RealsOf(recs, a), b) && AllIn(RealsOf(recs, b), b) && NoneIn(RealsOf(recs, r), b)
  {
    RealsOfIds(recs, a);
    RealsOfIds(recs, b);
    RealsOfIds(recs, r);
    Disjoint(a, b, r);
  }

  lemma Disjoint(a: seq<string>, b: seq<string>, r: seq<string>)
    requires NoRepeats(a + b + r)
    ensures forall x :: x in a ==> x !in b && x !in r
    ensures forall x :: x in b ==> x !in r
  {
    var all := a + b + r;
    assert forall k :: 0 <= k < |a| ==> all[k] == a[k];
    assert forall k :: 0 <= k < |b| ==> all[|a| + k] == b[k];
    assert forall k :: 0 <= k < |r| ==> all[|a| + |b| + k] == r[k];
  }

  /** The real messages after compaction: those before the range and the copies. */
  lemma {:induction false} KeptReal(recs: seq<Record>, ids: seq<string>, newIds: seq<string>)
    requires Nodes(recs, ids) && |newIds| >= |ids|
    requires forall k :: 0 <= k < |newIds| ==> newIds[k] != "" && !Prefixed(newIds[k])
    ensures Reals(Kept(Index(recs), ids, newIds)) == Kept(Index(recs), ids, newIds)
  {
    if ids != [] {
      var n := |ids| - 1;
      KeptReal(recs, ids[..n], newIds);
      if Index(recs)[ids[n]].MsgRecord? {
        RealsSnoc(Kept(Index(recs), ids[..n], newIds), Message(newIds[n], Index(recs)[ids[n]].body));
      }
    }
  }

  lemma {:induction false} RealsAfter(recs: seq<Record>, a: seq<string>, to: string, summary: string, r: seq<string>, newIds: seq<string>)
    requires Nodes(recs, a) && Nodes(recs, r) && |newIds| >= |r| && to != ""
    requires forall k :: 0 <= k < |newIds| ==> newIds[k] != "" && !Prefixed(newIds[k])
    ensures Reals(RenderAll(Index(recs), a) + [Message(CompactId(to), SummaryBody(summary))] + Kept(Index(recs), r, newIds))
         == RealsOf(recs, a) + Kept(Index(recs), r, newIds)
  {
    var m := Message(CompactId(to), SummaryBody(summary));
    CompactIdBase(to);
    RealsConcat(RenderAll(Index(recs), a) + [m], Kept(Index(recs), r, newIds));
    RealsSnoc(RenderAll(Index(recs), a), m);
    KeptReal(recs, r, newIds);
  }

  /** What the cursor c selects after the compaction, up to ids, when it was not moved: what it
      selected among the uncovered messages if it stands before the range, else all of them. */
  lemma {:induction false} UnmovedCursor(recs: seq<Record>, a: seq<string>, r: seq<string>, newIds: seq<string>, c: string)
    requires Nodes(recs, a) && Nodes(recs, r) && |newIds| >= |r| && c !in newIds
    ensures var ra, rr := RealsOf(recs, a), RealsOf(recs, r);
      Bodies(AfterId(ra + Kept(Index(recs), r, newIds), c)) ==
        Bodies(if c != "" && Has(ra, c) then AfterId(ra, c) + rr else ra + rr)
  {
    var ra, rr, kept := RealsOf(recs, a), RealsOf(recs, r), Kept(Index(recs), r, newIds);
    KeptBodies(recs, r, newIds);
    BodiesConcat(ra, kept);
    BodiesConcat(ra, rr);
    BodiesConcat(AfterId(ra, c), kept);
    BodiesConcat(AfterId(ra, c), rr);
    if c != "" {
      AfterConcat(ra, kept, c);
      if Has(kept, c) {
        KeptIds(recs, r, newIds);
        HasMember(kept, c);
      }
    }
  }

  lemma BodiesDrop(x: seq<Message>, y: seq<Message>, k: nat)
    requires Bodies(x) == Bodies(y) && k <= |x|
    ensures |x| == |y| && Bodies(x[k..]) == Bodies(y[k..])
  {
    assert |Bodies(x)| == |Bodies(y)|;
    forall n | 0 <= n < |x[k..]| ensures Bodies(x[k..])[n] == Bodies(y[k..])[n] {
      assert Bodies(x)[k + n] == Bodies(y)[k + n];
    }
  }

  /** A cursor that moved to a copy selects what it selected before. */
  lemma {:induction false} MovedCursor(recs: seq<Record>, a: seq<string>, r: seq<string>, newIds: seq<string>, c: string)
    requires Nodes(recs, a) && Nodes(recs, r) && NoRepeats(r) && FreshIds(recs, newIds) && |newIds| >= |r|
    requires c != "" && !Has(RealsOf(recs, a), c) && Has(RealsOf(recs, r), c)
    ensures var ra, rr := RealsOf(recs, a), RealsOf(recs, r);
      var c' := CloneOf(Index(recs), r, newIds, c);
      Bodies(AfterId(ra + Kept(Index(recs), r, newIds), c')) == Bodies(AfterId(ra + rr, c))
  {
    var ra, rr, kept := RealsOf(recs, a), RealsOf(recs, r), Kept(Index(recs), r, newIds);
    KeptBodies(recs, r, newIds);
    CloneStands(recs, r, newIds, c);
    var c' := CloneOf(Index(recs), r, newIds, c);
    if Has(ra, c') { HasOf(recs, a, c'); }
    AfterConcat(ra, rr, c);
    AfterConcat(ra, kept, c');
    BodiesDrop(kept, rr, FirstOf(rr, c) + 1);
  }

  // ---------------------------------------------------------------- compaction of a store

  ghost predicate Covers(s: Store, from: string, to: string, i: nat, j: nat, newIds: seq<string>) {
    && Ok(s) && s.head != "" && |newIds| >= |Path(s.recs, s.head)| && FreshIds(s.recs, newIds)
    && i == LastIndex(Path(s.recs, s.head), from) && j == LastIndex(Path(s.recs, s.head), to) && i <= j
  }

  lemma {:induction false} PathNoRepeats(recs: seq<Record>, head: string)
    requires WellFormed(recs) && head in Index(recs)
    ensures Nodes(recs, Path(recs, head)) && NoRepeats(Path(recs, head))
  {
    PathRanks(recs, head);
    forall k, l | 0 <= k < l < |Path(recs, head)| ensures Path(recs, head)[k] != Path(recs, head)[l] {
      PathOrdered(recs, head, k, l);
    }
  }

  lemma {:induction false} Segment(recs: seq<Record>, ids: seq<string>, lo: nat, hi: nat)
    requires Nodes(recs, ids) && NoRepeats(ids) && lo <= hi <= |ids|
    ensures Nodes(recs, ids[lo..hi]) && NoRepeats(ids[lo..hi])
    ensures RenderAll(Index(recs), ids)[lo..hi] == RenderAll(Index(recs), ids[lo..hi])
  {}

  lemma Split3<T>(t: seq<T>, i: nat, j: nat)
    requires i <= j < |t|
    ensures t == t[..i] + t[i..j + 1] + t[j + 1..]
    ensures t[0..i] == t[..i] && t[j + 1..|t|] == t[j + 1..]
  {}

  lemma {:induction false} ThreeReals(a: seq<Message>, b: seq<Message>, c: seq<Message>)
    ensures Reals(a + b + c) == Reals(a) + Reals(b) + Reals(c)
  {
    RealsConcat(a + b, c);
    RealsConcat(a, b);
  }

  lemma {:induction false} PathSegments(recs: seq<Record>, head: string, i: nat, j: nat)
    requires InRange(recs, head, i, j) && head != ""
    ensures var p, view := Path(recs, head), View(recs, head);
      && |view| == |p| && NoRepeats(p[..i] + p[i..j + 1] + p[j + 1..])
      && Nodes(recs, p[..i]) && Nodes(recs, p[i..j + 1]) && Nodes(recs, p[j + 1..]) && NoRepeats(p[j + 1..])
      && Reals(view[..i]) == RealsOf(recs, p[..i])
      && Reals(view[i..j + 1]) == RealsOf(recs, p[i..j + 1])
      && Reals(view[j + 1..]) == RealsOf(recs, p[j + 1..])
      && Reals(view) == RealsOf(recs, p[..i]) + RealsOf(recs, p[i..j + 1]) + RealsOf(recs, p[j + 1..])
      && view[..i] == RenderAll(Index(recs), p[..i])
  {
    PathNoRepeats(recs, head);
    ViewIsPath(recs, head);
    SegmentsOf(recs, Path(recs, head), i, j);
  }

  lemma {:induction false} SegmentsOf(recs: seq<Record>, p: seq<string>, i: nat, j: nat)
    requires Nodes(recs, p) && NoRepeats(p) && i <= j < |p|
    ensures var view := RenderAll(Index(recs), p);
      && NoRepeats(p[..i] + p[i..j + 1] + p[j + 1..])
      && Nodes(recs, p[..i]) && Nodes(recs, p[i..j + 1]) && Nodes(recs, p[j + 1..]) && NoRepeats(p[j + 1..])
      && Reals(view[..i]) == RealsOf(recs, p[..i])
      && Reals(view[i..j + 1]) == RealsOf(recs, p[i..j + 1])
      && Reals(view[j + 1..]) == RealsOf(recs, p[j + 1..])
      && Reals(view) == RealsOf(recs, p[..i]) + RealsOf(recs, p[i..j + 1]) + RealsOf(recs, p[j + 1..])
      && view[..i] == RenderAll(Index(recs), p[..i])
  {
    var view := RenderAll(Index(recs), p);
    Split3(p, i, j);
    Segment(recs, p, 0, i);
    Segment(recs, p, i, j + 1);
    Segment(recs, p, j + 1, |p|);
    Split3(view, i, j);
    ThreeReals(view[..i], view[i..j + 1], view[j + 1..]);
  }

  lemma {:induction false} PathEnds(recs: seq<Record>, head: string, i: nat, j: nat)
    requires InRange(recs, head, i, j) && head != ""
    ensures var p := Path(recs, head);
      && p[j] in Index(recs) && Nodes(recs, p[..i]) && Nodes(recs, p[j + 1..])
      && i <= |View(recs, head)| && View(recs, head)[..i] == RenderAll(Index(recs), p[..i])
  {
    PathSegments(recs, head, i, j);
    PathRanks(recs, head);
  }

  /** The real messages on the active path after compaction. */
  lemma {:induction false} RealsThen(s: Store, from: string, to: string, i: nat, j: nat, summary: string, newIds: seq<string>)
    requires Covers(s, from, to, i, j, newIds)
    ensures var r := Compact(s, Path(s.recs, s.head), from, to, summary, newIds).1;
      var p := Path(s.recs, s.head);
      && Sound(r) && Nodes(s.recs, p[..i])
      && Reals(View(r.recs, r.head)) == RealsOf(s.recs, p[..i]) + Kept(Index(s.recs), p[j + 1..], newIds)
  {
    CompactionView(s, from, to, i, j, summary, newIds);
    PathEnds(s.recs, s.head, i, j);
    NodeIdent(s.recs, to);
    RealsAfter(s.recs, Path(s.recs, s.head)[..i], to, summary, Path(s.recs, s.head)[j + 1..], newIds);
  }

  /** Where the cursor goes: to its copy if it stood on a retained message; otherwise it selects
      the same messages as if it had not moved. */
  lemma {:induction false} CursorMoves(s: Store, i: nat, j: nat, newIds: seq<string>)
    requires InRange(s.recs, s.head, i, j) && s.head != "" && |newIds| >= |Path(s.recs, s.head)| && NoRepeats(newIds)
    ensures var p := Path(s.recs, s.head);
      var tip := Tip(Index(s.recs), p[j + 1..], newIds, CompactId(p[j]));
      && Nodes(s.recs, p[..i]) && Nodes(s.recs, p[j + 1..])
      && CursorFits(s.recs, p[..i], p[j + 1..], newIds, s.cursor, RemapCursor(s, Index(s.recs), p[j + 1..], newIds, tip))
  {
    var p := Path(s.recs, s.head);
    PathNoRepeats(s.recs, s.head);
    PathRanks(s.recs, s.head);
    CursorOnPath(s, p, i, j, newIds);
  }

  lemma {:induction false} CursorOnPath(s: Store, p: seq<string>, i: nat, j: nat, newIds: seq<string>)
    requires Nodes(s.recs, p) && NoRepeats(p) && i <= j < |p| <= |newIds| && NoRepeats(newIds)
    requires p[|p| - 1] == s.head != ""
    ensures Nodes(s.recs, p[..i]) && Nodes(s.recs, p[j + 1..])
    ensures CursorFits(s.recs, p[..i], p[j + 1..], newIds, s.cursor,
                       RemapCursor(s, Index(s.recs), p[j + 1..], newIds, Tip(Index(s.recs), p[j + 1..], newIds, CompactId(p[j]))))
  {
    Ends(p, i, j);
    Segment(s.recs, p, 0, i);
    Segment(s.recs, p, j + 1, |p|);
    Split3(p, i, j);
    RemapFits(s, p[..i], p[j + 1..], p[j], newIds);
  }

  /** a, to, r are the start, the last covered id and the retained rest of a path that ends in head. */
  ghost predicate Around(a: seq<string>, to: string, r: seq<string>, head: string) {
    && (forall x :: x in a ==> x !in r) && to !in a
    && if r == [] then head == to else head in r
  }

  lemma Ends(p: seq<string>, i: nat, j: nat)
    requires NoRepeats(p) && i <= j < |p|
    ensures Around(p[..i], p[j], p[j + 1..], p[|p| - 1])
  {
    if p[j + 1..] != [] { assert p[j + 1..][|p| - j - 2] == p[|p| - 1]; }
  }

  lemma {:induction false} RemapFits(s: Store, a: seq<string>, r: seq<string>, to: string, newIds: seq<string>)
    requires Nodes(s.recs, a) && Nodes(s.recs, r) && NoRepeats(r) && NoRepeats(newIds) && |newIds| >= |r|
    requires Around(a, to, r, s.head) && s.head != ""
    ensures CursorFits(s.recs, a, r, newIds, s.cursor,
                       RemapCursor(s, Index(s.recs), r, newIds, Tip(Index(s.recs), r, newIds, CompactId(to))))
  {
    var c' := RemapCursor(s, Index(s.recs), r, newIds, Tip(Index(s.recs), r, newIds, CompactId(to)));
    if s.cursor == "" {
    } else if s.cursor in r {
      assert c' == CloneOf(Index(s.recs), r, newIds, s.cursor);
      CursorRetained(s.recs, a, r, newIds, s.cursor);
    } else if s.cursor == s.head {
      assert r == [] && c' == CompactId(to);
      CursorAtHead(s.recs, a, newIds, to);
    } else {
      assert c' == s.cursor;
      NotHas(s.recs, r, s.cursor);
    }
  }

  ghost predicate CursorFits(recs: seq<Record>, a: seq<string>, r: seq<string>, newIds: seq<string>, c: string, c': string)
    requires Nodes(recs, a) && Nodes(recs, r) && |newIds| >= |r|
  {
    if c != "" && Has(RealsOf(recs, r), c)
    then c' == CloneOf(Index(recs), r, newIds, c) && !Has(RealsOf(recs, a), c)
    else AfterId(RealsOf(recs, a) + Kept(Index(recs), r, newIds), c') == AfterId(RealsOf(recs, a) + Kept(Index(recs), r, newIds), c)
  }

  lemma {:induction false} CursorRetained(recs: seq<Record>, a: seq<string>, r: seq<string>, newIds: seq<string>, c: string)
    requires Nodes(recs, a) && Nodes(recs, r) && NoRepeats(r) && NoRepeats(newIds) && |newIds| >= |r|
    requires c in r && c !in a
    ensures CursorFits(recs, a, r, newIds, c, CloneOf(Index(recs), r, newIds, c))
  {
    var c' := CloneOf(Index(recs), r, newIds, c);
    var ra, rr := RealsOf(recs, a), RealsOf(recs, r);
    NotHas(recs, a, c);
    CloneStays(recs, r, newIds, c);
    NodeIdent(recs, c);
    if !Has(rr, c) { assert c' == c; }
  }

  lemma NotHas(recs: seq<Record>, a: seq<string>, c: string)
    requires Nodes(recs, a) && c !in a
    ensures !Has(RealsOf(recs, a), c)
  {
    if Has(RealsOf(recs, a), c) { HasOf(recs, a, c); }
  }

  lemma {:induction false} CloneStays(recs: seq<Record>, r: seq<string>, newIds: seq<string>, c: string)
    requires Nodes(recs, r) && NoRepeats(r) && |newIds| >= |r| && NoRepeats(newIds)
    ensures !Has(RealsOf(recs, r), c) ==> CloneOf(Index(recs), r, newIds, c) == c
  {
    CloneStands(recs, r, newIds, c);
  }

  lemma CursorAtHead(recs: seq<Record>, a: seq<string>, newIds: seq<string>, to: string)
    requires Nodes(recs, a) && to !in a && to != ""
    ensures Nodes(recs, []) && CursorFits(recs, a, [], newIds, to, CompactId(to))
  {
    CompactIdBase(to);
    if Has(RealsOf(recs, a), CompactId(to)) { HasOf(recs, a, CompactId(to)); }
    if Has(RealsOf(recs, a), to) { HasOf(recs, a, to); }
    assert RealsOf(recs, a) + [] == RealsOf(recs, a);
  }

  lemma {:induction false} PendingSegments(recs: seq<Record>, a: seq<string>, b: seq<string>, r: seq<string>, newIds: seq<string>, c: string, c': string)
    requires Nodes(recs, a) && Nodes(recs, b) && Nodes(recs, r) && NoRepeats(a + b + r) && NoRepeats(r)
    requires FreshIds(recs, newIds) && |newIds| >= |r| && c !in newIds && CursorFits(recs, a, r, newIds, c, c')
    ensures var ra, rb, rr := RealsOf(recs, a), RealsOf(recs, b), RealsOf(recs, r);
      Bodies(AfterId(ra + Kept(Index(recs), r, newIds), c')) ==
        if c != "" && Has(rb, c) then Bodies(ra + rr) else Bodies(Outside(AfterId(ra + rb + rr, c), b))
  {
    UncoveredPending(recs, a, b, r, c);
    UnmovedCursor(recs, a, r, newIds, c);
    Disjoint(a, b, r);
    var ra, rb, rr := RealsOf(recs, a), RealsOf(recs, b), RealsOf(recs, r);
    if c != "" {
      if Has(rb, c) {
        HasOf(recs, b, c);
        NotHas(recs, r, c);
        NotHas(recs, a, c);
      } else if Has(rr, c) {
        MovedCursor(recs, a, r, newIds, c);
      } else {
        AfterConcat(ra, rr, c);
      }
    }
  }

  lemma {:induction false} CursorThen(s: Store, from: string, to: string, i: nat, j: nat, summary: string, newIds: seq<string>)
    requires Covers(s, from, to, i, j, newIds)
    ensures InRange(s.recs, s.head, i, j) && Path(s.recs, s.head)[j] == to
    ensures var p := Path(s.recs, s.head);
      Compact(s, p, from, to, summary, newIds).1.cursor
      == RemapCursor(s, Index(s.recs), p[j + 1..], newIds, Tip(Index(s.recs), p[j + 1..], newIds, CompactId(to)))
  {}

  /** Compaction and consolidation: with the cursor outside the covered range the uncovered pending
      messages are, up to ids, exactly the pending messages afterwards; with the cursor on a covered
      message every uncovered message becomes pending again. */
  lemma PendingKept(s: Store, from: string, to: string, i: nat, j: nat, summary: string, newIds: seq<string>)
    requires Covers(s, from, to, i, j, newIds) && s.cursor !in newIds
    ensures var r := Compact(s, Path(s.recs, s.head), from, to, summary, newIds).1;
      var view, covered := View(s.recs, s.head), Path(s.recs, s.head)[i..j + 1];
      && Sound(r) && |view| > j
      && Bodies(Pending(View(r.recs, r.head), r.cursor)) ==
           if s.cursor != "" && Has(Reals(view[i..j + 1]), s.cursor)
           then Bodies(Reals(view[..i]) + Reals(view[j + 1..]))
           else Bodies(Outside(Pending(view, s.cursor), covered))
  {
    var p := Path(s.recs, s.head);
    CursorThen(s, from, to, i, j, summary, newIds);
    RealsThen(s, from, to, i, j, summary, newIds);
    PathSegments(s.recs, s.head, i, j);
    CursorMoves(s, i, j, newIds);
    var c' := RemapCursor(s, Index(s.recs), p[j + 1..], newIds, Tip(Index(s.recs), p[j + 1..], newIds, CompactId(to)));
    PendingSegments(s.recs, p[..i], p[i..j + 1], p[j + 1..], newIds, s.cursor, c');
  }

  ghost predicate EndsWith(x: seq<Body>, y: seq<Body>) {
    |y| <= |x| && x[|x| - |y|..] == y
  }

  lemma Whole(x: seq<Body>)
    ensures EndsWith(x, x)
  {}

  lemma Tail(x: seq<Body>, y: seq<Body>)
    ensures EndsWith(x + y, y)
  {}

  lemma {:induction false} StillThere(x: seq<Message>, z: seq<Message>, c: string, hasY: bool)
    ensures var after := if c != "" && Has(x, c) then AfterId(x, c) + z else x + z;
      var before := if c == "" then x + z else if Has(x, c) then AfterId(x, c) + z else if hasY then z else AfterId(x + z, c);
      EndsWith(Bodies(after), Bodies(before))
  {
    if c == "" {
      Whole(Bodies(x + z));
    } else if Has(x, c) {
      Whole(Bodies(AfterId(x, c) + z));
    } else {
      AfterConcat(x, z, c);
      if hasY {
        BodiesConcat(x, z);
        Tail(Bodies(x), Bodies(z));
      } else if Has(z, c) {
        var k := FirstOf(z, c) + 1;
        assert x + z == (x + z[..k]) + AfterId(z, c);
        BodiesConcat(x + z[..k], AfterId(z, c));
        Tail(Bodies(x + z[..k]), Bodies(AfterId(z, c)));
      } else {
        Whole(Bodies(x + z));
      }
    }
  }

  /** What stands before the covered range behind the cursor, all of it when the cursor is not there. */
  function Before(x: seq<Message>, c: string): seq<Message> {
    if c != "" && Has(x, c) then AfterId(x, c) else x
  }

  /** The moved cursor is not written to disk; a store reopened after the compaction finds the last
      one that was. It has pending exactly what stands behind that cursor before the covered range, and
      all that was retained; whatever it had left pending and uncovered is among it. */
  lemma {:induction false} PendingAfterReopen(s: Store, from: string, to: string, i: nat, j: nat, summary: string, newIds: seq<string>)
    requires Covers(s, from, to, i, j, newIds) && LastCursor(s.recs) !in newIds
    ensures var r := Compact(s, Path(s.recs, s.head), from, to, summary, newIds).1;
      var o, c := Reopen(r.recs), LastCursor(s.recs);
      var view, covered := View(s.recs, s.head), Path(s.recs, s.head)[i..j + 1];
      && Sound(o) && o.head == r.head && o.cursor == c && |view| > j
      && Bodies(Pending(View(o.recs, o.head), o.cursor)) == Bodies(Before(Reals(view[..i]), c) + Reals(view[j + 1..]))
      && EndsWith(Bodies(Pending(View(o.recs, o.head), o.cursor)), Bodies(Outside(Pending(view, c), covered)))
  {
    var p := Path(s.recs, s.head);
    var a, b, r, c := p[..i], p[i..j + 1], p[j + 1..], LastCursor(s.recs);
    PathSegments(s.recs, s.head, i, j);
    RealsThen(s, from, to, i, j, summary, newIds);
    ReopenedCursor(s, from, to, i, j, summary, newIds);
    UncoveredPending(s.recs, a, b, r, c);
    UnmovedCursor(s.recs, a, r, newIds, c);
    StillThere(RealsOf(s.recs, a), RealsOf(s.recs, r), c, Has(RealsOf(s.recs, b), c));
  }

  /** A cursor in z that is not in x cuts x + z short. */
  lemma {:induction false} CutShort(x: seq<Message>, z: seq<Message>, c: string)
    requires c != "" && !Has(x, c) && Has(z, c)
    ensures Bodies(AfterId(x + z, c)) != Bodies(x + z)
  {
    AfterConcat(x, z, c);
    assert |Bodies(AfterId(x + z, c))| == |z| - FirstOf(z, c) - 1 < |x + z| == |Bodies(x + z)|;
  }

  /** Where the cursor in memory was also the one on disk, the reopened store has pending what the
      compacted one had if and only if the cursor stood on no retained message. */
  lemma {:induction false} ReopenAgrees(s: Store, from: string, to: string, i: nat, j: nat, summary: string, newIds: seq<string>)
    requires Covers(s, from, to, i, j, newIds) && s.cursor == LastCursor(s.recs) && s.cursor !in newIds
    ensures var r := Compact(s, Path(s.recs, s.head), from, to, summary, newIds).1;
      var o, view := Reopen(r.recs), View(s.recs, s.head);
      && Sound(r) && Sound(o) && |view| > j
      && (Bodies(Pending(View(o.recs, o.head), o.cursor)) == Bodies(Pending(View(r.recs, r.head), r.cursor))
          <==> s.cursor == "" || !Has(Reals(view[j + 1..]), s.cursor))
  {
    var p, view, c := Path(s.recs, s.head), View(s.recs, s.head), s.cursor;
    PathSegments(s.recs, s.head, i, j);
    PendingKept(s, from, to, i, j, summary, newIds);
    PendingAfterReopen(s, from, to, i, j, summary, newIds);
    UncoveredPending(s.recs, p[..i], p[i..j + 1], p[j + 1..], c);
    var x, y, z := Reals(view[..i]), Reals(view[i..j + 1]), Reals(view[j + 1..]);
    Separate(s.recs, p[..i], p[i..j + 1], p[j + 1..], c);
    if c != "" && Has(z, c) {
      CutShort(x, z, c);
    } else if c != "" && !Has(x, c) {
      AfterConcat(x, z, c);
    }
  }

  /** The cursor stands in one segment at most. */
  lemma {:induction false} Separate(recs: seq<Record>, a: seq<string>, b: seq<string>, r: seq<string>, c: string)
    requires Nodes(recs, a) && Nodes(recs, b) && Nodes(recs, r) && NoRepeats(a + b + r)
    ensures Has(RealsOf(recs, r), c) ==> !Has(RealsOf(recs, a), c) && !Has(RealsOf(recs, b), c)
    ensures Has(RealsOf(recs, a), c) ==> !Has(RealsOf(recs, b), c)
  {
    Disjoint(a, b, r);
    if Has(RealsOf(recs, r), c) { HasOf(recs, r, c); }
    if Has(RealsOf(recs, a), c) { HasOf(recs, a, c); }
    if Has(RealsOf(recs, b), c) { HasOf(recs, b, c); }
  }

  lemma {:induction false} CursorSuffix(recs: seq<Record>, more: seq<Record>)
    requires forall k :: 0 <= k < |more| ==> !more[k].CursorRecord?
    ensures LastCursor(recs + more) == LastCursor(recs)
  {
    if more == [] {
      assert recs + more == recs;
    } else {
      CursorSuffix(recs, more[..|more| - 1]);
      assert (recs + more)[..|recs + more| - 1] == recs + more[..|more| - 1];
    }
  }

  lemma {:induction false} ClonesAreMessages(idx: map<string, Record>, retain: seq<string>, newIds: seq<string>, cid: string)
    requires |newIds| >= |retain|
    ensures forall r :: r in Clones(idx, retain, newIds, cid) ==> r.MsgRecord?
  {
    if retain != [] { ClonesAreMessages(idx, retain[..|retain| - 1], newIds, cid); }
  }

  lemma {:induction false} CompactedCursor(recs: seq<Record>, head: string, i: nat, j: nat, summary: string, newIds: seq<string>, tip: string)
    requires Compactable(recs, head, i, j, newIds)
    ensures LastCursor(Compacted(recs, head, i, j, summary, newIds) + [HeadRecord(tip)]) == LastCursor(recs)
  {
    var copies := Clones(Index(recs), Retained(recs, head, j), newIds, CompactId(Path(recs, head)[j]));
    ClonesAreMessages(Index(recs), Retained(recs, head, j), newIds, CompactId(Path(recs, head)[j]));
    var c := CompactNode(recs, head, i, j, summary);
    var more := [c] + copies + [HeadRecord(tip)];
    forall k | 0 <= k < |more| ensures !more[k].CursorRecord? {
      if 0 < k <= |copies| { assert more[k] == copies[k - 1] && copies[k - 1] in copies; }
    }
    assert Compacted(recs, head, i, j, summary, newIds) + [HeadRecord(tip)] == recs + more;
    CursorSuffix(recs, more);
  }

  lemma ReopenedCursor(s: Store, from: string, to: string, i: nat, j: nat, summary: string, newIds: seq<string>)
    requires Covers(s, from, to, i, j, newIds)
    ensures var r := Compact(s, Path(s.recs, s.head), from, to, summary, newIds).1;
      Sound(Reopen(r.recs)) && Reopen(r.recs).head == r.head && Reopen(r.recs).cursor == LastCursor(s.recs)
  {
    var r := Compact(s, Path(s.recs, s.head), from, to, summary, newIds).1;
    CompactRecords(s, from, to, summary, newIds);
    CompactedView(s.recs, s.head, i, j, summary, newIds);
    CompactedCursor(s.recs, s.head, i, j, summary, newIds, r.head);
    CrashSound(r.recs, |r.recs|);
    assert r.recs[..|r.recs|] == r.recs;
  }

  // ---------------------------------------------------------------- a compaction that stops

  /** The cursor on a retained node moves exactly when the node is a message, and then to its copy. */
  lemma {:induction false} RetainedTarget(recs: seq<Record>, r: seq<string>, newIds: seq<string>, c: string)
    requires Nodes(recs, r) && NoRepeats(r) && |newIds| >= |r| && FreshIds(recs, newIds) && c in r
    ensures var c' := CloneOf(Index(recs), r, newIds, c);
      (c' != c <==> Has(RealsOf(recs, r), c)) && (c' != c ==> c' in newIds)
  {
    hide CloneOf, RealsOf, Has, FirstOf, Kept;
    CloneStands(recs, r, newIds, c);
  }

  /** When a compaction moves the cursor, and where to. */
  lemma {:induction false} CursorTarget(s: Store, p: seq<string>, j: nat, newIds: seq<string>)
    requires Nodes(s.recs, p) && NoRepeats(p) && j < |p| <= |newIds| && FreshIds(s.recs, newIds) && s.head == p[|p| - 1] != ""
    requires Nodes(s.recs, p[j + 1..])
    ensures var r := p[j + 1..];
      var c := RemapCursor(s, Index(s.recs), r, newIds, Tip(Index(s.recs), r, newIds, CompactId(p[j])));
      && (c != s.cursor <==> s.cursor != "" && (Has(RealsOf(s.recs, r), s.cursor) || (s.cursor == s.head && r == [])))
      && (c != s.cursor ==> c in newIds || c == CompactId(p[j]))
  {
    hide CloneOf, RealsOf, Has, Index;
    var r := p[j + 1..];
    if s.cursor in r {
      Segment(s.recs, p, j + 1, |p|);
      RetainedTarget(s.recs, r, newIds, s.cursor);
    } else {
      if Has(RealsOf(s.recs, r), s.cursor) { HasOf(s.recs, r, s.cursor); }
      if r == [] {
        CompactIdBase(p[j]);
      } else {
        assert r[|r| - 1] == s.head;
      }
    }
  }

  /** A copy or a summary made now is no message of the view before. */
  lemma {:induction false} NewToView(recs: seq<Record>, p: seq<string>, newIds: seq<string>, to: string, c: string)
    requires Nodes(recs, p) && FreshIds(recs, newIds) && (c in newIds || c == CompactId(to))
    ensures c != "" && !Has(RealsOf(recs, p), c)
  {
    CompactIdBase(to);
    if Has(RealsOf(recs, p), c) { HasOf(recs, p, c); }
  }

  lemma {:induction false} CursorMoved(s: Store, i: nat, j: nat, newIds: seq<string>)
    requires InRange(s.recs, s.head, i, j) && s.head != "" && |newIds| >= |Path(s.recs, s.head)| && FreshIds(s.recs, newIds)
    ensures var p, view := Path(s.recs, s.head), View(s.recs, s.head);
      var c := RemapCursor(s, Index(s.recs), p[j + 1..], newIds, Tip(Index(s.recs), p[j + 1..], newIds, CompactId(p[j])));
      && |view| == |p|
      && (c != s.cursor <==> s.cursor != "" && (Has(Reals(view[j + 1..]), s.cursor) || (s.cursor == s.head && j + 1 == |p|)))
      && (c != s.cursor ==> c != "" && !Has(Reals(view), c))
  {
    hide RemapCursor, Tip, Has, Reals, FreshIds, WellFormed, Index, View, Path, CompactId, Render;
    var p, view := Path(s.recs, s.head), View(s.recs, s.head);
    PathNoRepeats(s.recs, s.head);
    PathSegments(s.recs, s.head, i, j);
    PathRanks(s.recs, s.head);
    CursorTarget(s, p, j, newIds);
    ViewIsPath(s.recs, s.head);
    assert Reals(view) == RealsOf(s.recs, p);
    var c := RemapCursor(s, Index(s.recs), p[j + 1..], newIds, Tip(Index(s.recs), p[j + 1..], newIds, CompactId(p[j])));
    if c != s.cursor { NewToView(s.recs, p, newIds, p[j], c); }
  }

  /** What a compaction that stops at a failed append leaves pending: what was pending, unless only its
      head record was missing and the cursor was to move; then every real message. None is lost. */
  lemma {:induction false} PendingAfterStop(s: Store, from: string, to: string, i: nat, j: nat, summary: string, newIds: seq<string>, writes: nat)
    requires Sound(s) && Covers(s, from, to, i, j, newIds)
    requires !CompactCut(s, Path(s.recs, s.head), from, to, summary, newIds, writes).0
    ensures var full := Compact(s, Path(s.recs, s.head), from, to, summary, newIds).1;
      var r := CompactCut(s, Path(s.recs, s.head), from, to, summary, newIds, writes).1;
      var view := View(s.recs, s.head);
      var moved := |s.recs| + writes + 1 == |full.recs| && s.cursor != "" && |view| > j
        && (Has(Reals(view[j + 1..]), s.cursor) || (s.cursor == s.head && j + 1 == |view|));
      && Sound(r) && r.head == s.head && View(r.recs, r.head) == view && |view| > j
      && Pending(View(r.recs, r.head), r.cursor) == if moved then Reals(view) else Pending(view, s.cursor)
  {
    StoppedCompaction(s, from, to, summary, newIds, writes);
    CursorThen(s, from, to, i, j, summary, newIds);
    CompactFound(s, from, to, i, j, summary, newIds);
    CursorMoved(s, i, j, newIds);
  }

  lemma {:induction false} CompactFound(s: Store, from: string, to: string, i: nat, j: nat, summary: string, newIds: seq<string>)
    requires Covers(s, from, to, i, j, newIds)
    ensures Compact(s, Path(s.recs, s.head), from, to, summary, newIds).0
  {}
}
