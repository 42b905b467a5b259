/** /compact on a persisted session (ai-runtime/agent/session.go:439-505): the in-memory compressor's
    answer is recognised by DetectCompact and replayed on the log. */
module PersistedCompaction {
  import opened Messages
  import opened Events
  import opened Compressor
  import opened ToolPairing
  import opened StoreModel
  import opened StoreTree
  import opened StoreCompaction
  import opened StoreTheorems
  import opened StorePending
  import opened SessionStore

  datatype Detected = Detected(from: string, to: string, summary: string)

  predicate Mentions(conv: seq<Message>, id: string) {
    exists k :: 0 <= k < |conv| && conv[k].id == id
  }

  /** The first message of oldView that is still in newConv, or |oldView|. */
  function FirstShared(oldView: seq<Message>, newConv: seq<Message>): (n: nat)
    ensures n <= |oldView|
    ensures n < |oldView| ==> oldView[n].id != "" && Mentions(newConv, oldView[n].id)
    ensures forall k :: 0 <= k < n ==> oldView[k].id == "" || !Mentions(newConv, oldView[k].id)
  {
    if oldView == [] then 0
    else if oldView[0].id != "" && Mentions(newConv, oldView[0].id) then 0
    else 1 + FirstShared(oldView[1..], newConv)
  }

  function DetectCompact(oldView: seq<Message>, newConv: seq<Message>): Option<Detected> {
    if |newConv| >= |oldView| || newConv == [] || newConv[0].body.role != System then None
    else
      var n := FirstShared(oldView, newConv);
      if n == 0 || oldView[0].id == "" || oldView[n - 1].id == "" then None
      else Some(Detected(oldView[0].id, oldView[n - 1].id, newConv[0].body.content))
  }

  method Detect(oldView: seq<Message>, newConv: seq<Message>) returns (found: Option<Detected>)
    ensures found == DetectCompact(oldView, newConv)
  {
    if |newConv| >= |oldView| || |newConv| == 0 {
      return None;
    }
    if newConv[0].body.role != System {
      return None;
    }
    var summary := newConv[0].body.content;
    var newIDs: set<string> := {};
    for n := 0 to |newConv|
      invariant forall id :: id in newIDs <==> id != "" && exists k :: 0 <= k < n && newConv[k].id == id
    {
      if newConv[n].id != "" { newIDs := newIDs + {newConv[n].id}; }
    }
    var splitIdx := -1;
    for i := 0 to |oldView|
      invariant splitIdx == -1
      invariant forall k :: 0 <= k < i ==> oldView[k].id == "" || !Mentions(newConv, oldView[k].id)
    {
      if oldView[i].id != "" && oldView[i].id in newIDs {
        splitIdx := i;
        break;
      }
    }
    if splitIdx < 0 {
      if |oldView| > 0 && oldView[0].id != "" && oldView[|oldView| - 1].id != "" {
        return Some(Detected(oldView[0].id, oldView[|oldView| - 1].id, summary));
      }
      return None;
    }
    if splitIdx == 0 {
      return None;
    }
    var covered := oldView[..splitIdx];
    if covered[0].id == "" || covered[|covered| - 1].id == "" {
      return None;
    }
    found := Some(Detected(covered[0].id, covered[|covered| - 1].id, summary));
  }

  ghost predicate Identified(view: seq<Message>) {
    && (forall k :: 0 <= k < |view| ==> view[k].id != "")
    && (forall k, l :: 0 <= k < l < |view| ==> view[k].id != view[l].id)
  }

  /** DetectCompact recovers exactly the prefix the compressor folded, and the summary. */
  lemma DetectsFold(view: seq<Message>, keepLast: int, summary: string)
    requires Identified(view) && SplitPoint(view, keepLast) != 0
    ensures var k := SplitPoint(view, keepLast);
      && Compress(view, keepLast, false, Some(summary)).Some?
      && DetectCompact(view, Compress(view, keepLast, false, Some(summary)).value)
         == Some(Detected(view[0].id, view[k - 1].id, summary))
  {
    var k := SplitPoint(view, keepLast);
    var out := [Summary(summary)] + view[k..];
    assert view[0..] == view;
    assert Compress(view, keepLast, false, Some(summary)) == Some(view[..0] + [Summary(summary)] + view[k..]);
    assert view[..0] + [Summary(summary)] + view[k..] == out;
    assert out[1] == view[k];
    assert Mentions(out, view[k].id);
    assert forall l :: 0 < l < |out| ==> out[l] == view[k + l - 1];
  }

  lemma {:induction false} ViewIdentified(recs: seq<Record>, head: string)
    requires WellFormed(recs) && head != "" && head in Index(recs)
    ensures Identified(View(recs, head)) && |View(recs, head)| == |Path(recs, head)|
    ensures forall k :: 0 <= k < |Path(recs, head)| ==> View(recs, head)[k].id == Path(recs, head)[k]
  {
    PathNoRepeats(recs, head);
    PathRanks(recs, head);
    ViewIsPath(recs, head);
    var p, v := Path(recs, head), View(recs, head);
    forall k | 0 <= k < |p| ensures v[k].id == p[k] && p[k] != "" { NodeReal(recs, p[k]); }
  }

  lemma {:induction false} LastIndexAt(ids: seq<string>, k: nat)
    requires NoRepeats(ids) && k < |ids|
    ensures LastIndex(ids, ids[k]) == k
  {
    if k < |ids| - 1 {
      assert ids[..|ids| - 1][k] == ids[k];
      LastIndexAt(ids[..|ids| - 1], k);
    }
  }

  /** Real messages are all of a list exactly when it holds no summary. */
  lemma {:induction false} RealsWhole(v: seq<Message>)
    ensures |Reals(v)| <= |v|
    ensures Reals(v) == v <==> forall k :: 0 <= k < |v| ==> v[k].id != "" && IsReal(v[k])
    ensures |Reals(v)| == |v| ==> Reals(v) == v
  {
    if v != [] {
      var n := |v| - 1;
      RealsWhole(v[..n]);
      assert v == v[..n] + [v[n]];
      if v[n].id != "" && IsReal(v[n]) {
        if Reals(v) == v { assert Reals(v[..n]) == v[..n]; }
        assert (forall k :: 0 <= k < |v| ==> v[k].id != "" && IsReal(v[k]))
          ==> forall k :: 0 <= k < n ==> v[..n][k].id != "" && IsReal(v[..n][k]);
      }
    }
  }

  /** What /compact leaves of a store: nothing when nothing can be folded, else the fold. */
  ghost function AfterCompact(s: StoreModel.Store, keepLast: int, summary: string, newIds: seq<string>): StoreModel.Store
    requires Ok(s) && |newIds| >= |Path(s.recs, s.head)|
  {
    var view := View(s.recs, s.head);
    var out := Compress(view, keepLast, false, Some(summary));
    if out.None? || |out.value| >= |view| then s
    else
      var d := DetectCompact(view, out.value);
      if d.None? then s
      else StoreModel.Compact(s, Path(s.recs, s.head), d.value.from, d.value.to, d.value.summary, newIds).1
  }

  /** The same when only so many appends go through. */
  ghost function StoppedAfter(s: StoreModel.Store, keepLast: int, summary: string, newIds: seq<string>, writes: nat): StoreModel.Store
    requires Ok(s) && |newIds| >= |Path(s.recs, s.head)|
  {
    var view := View(s.recs, s.head);
    var out := Compress(view, keepLast, false, Some(summary));
    if out.None? || |out.value| >= |view| then s
    else
      var d := DetectCompact(view, out.value);
      if d.None? then s
      else CompactCut(s, Path(s.recs, s.head), d.value.from, d.value.to, d.value.summary, newIds, writes).1
  }

  predicate AllReal(v: seq<Message>) {
    forall k :: 0 <= k < |v| ==> IsReal(v[k])
  }

  lemma CompressShape(view: seq<Message>, keepLast: int, summary: string)
    ensures Compress(view, keepLast, false, Some(summary)) ==
      Some(if SplitPoint(view, keepLast) == 0 then view else [Summary(summary)] + view[SplitPoint(view, keepLast)..])
  {
    assert view[0..] == view;
    assert view[..0] + [Summary(summary)] == [Summary(summary)];
  }

  /** Which compaction of the log /compact asks for. */
  lemma AsksFor(s: StoreModel.Store, keepLast: int, summary: string, newIds: seq<string>)
    requires Ok(s) && |newIds| >= |Path(s.recs, s.head)|
    ensures var view, k := View(s.recs, s.head), SplitPoint(View(s.recs, s.head), keepLast);
      if k == 0 then AfterCompact(s, keepLast, summary, newIds) == s
      else
        && s.head != ""
        && AfterCompact(s, keepLast, summary, newIds)
           == StoreModel.Compact(s, Path(s.recs, s.head), view[0].id, view[k - 1].id, summary, newIds).1
  {
    var view := View(s.recs, s.head);
    CompressShape(view, keepLast, summary);
    if SplitPoint(view, keepLast) != 0 {
      NodeIdentHead(s);
      ViewIdentified(s.recs, s.head);
      DetectsFold(view, keepLast, summary);
    }
  }

  lemma NodeIdentHead(s: StoreModel.Store)
    requires Ok(s) && View(s.recs, s.head) != []
    ensures s.head != "" && s.head in Index(s.recs)
  {}

  /** The first and the last folded node are found where they stand. */
  lemma {:induction false} FoldRange(recs: seq<Record>, head: string, k: nat)
    requires WellFormed(recs) && head in Index(recs) && 0 < k < |Path(recs, head)|
    ensures var p := Path(recs, head);
      LastIndex(p, p[0]) == 0 && LastIndex(p, p[k - 1]) == k - 1
  {
    PathNoRepeats(recs, head);
    LastIndexAt(Path(recs, head), 0);
    LastIndexAt(Path(recs, head), k - 1);
  }

  lemma {:induction false} FoldedView(s: StoreModel.Store, k: nat, from: string, to: string, summary: string, newIds: seq<string>, s': StoreModel.Store)
    requires Sound(s) && s.head != "" && |newIds| >= |Path(s.recs, s.head)| && FreshIds(s.recs, newIds)
    requires 2 <= k <= |Path(s.recs, s.head)|
    requires LastIndex(Path(s.recs, s.head), from) == 0 && LastIndex(Path(s.recs, s.head), to) == k - 1
    requires s' == StoreModel.Compact(s, Path(s.recs, s.head), from, to, summary, newIds).1
    ensures k <= |View(s.recs, s.head)| && Sound(s')
    ensures Bodies(View(s'.recs, s'.head)) == [SummaryBody(summary)] + Bodies(Reals(View(s.recs, s.head)[k..]))
  {
    CompactionMeaning(s, from, to, 0, k - 1, summary, newIds);
    assert Sound(s');
    var view := View(s.recs, s.head);
    assert Bodies(View(s'.recs, s'.head)) == Bodies(view[..0]) + [SummaryBody(summary)] + Bodies(Reals(view[k..]));
    NoPrefix(view, [SummaryBody(summary)]);
  }

  lemma NoPrefix(view: seq<Message>, b: seq<Body>)
    ensures Bodies(view[..0]) + b == b
  {}

  lemma {:induction false} FoldExact(tail: seq<Message>, summary: string)
    requires forall k :: 0 <= k < |tail| ==> tail[k].id != ""
    ensures [SummaryBody(summary)] + Bodies(Reals(tail)) == Bodies([Summary(summary)] + tail) <==> AllReal(tail)
  {
    BodiesCons(Summary(summary), tail);
    SameTail(SummaryBody(summary), Bodies(Reals(tail)), Bodies(tail));
    SameBodies(tail);
  }

  lemma BodiesCons(m: Message, tail: seq<Message>)
    ensures Bodies([m] + tail) == [m.body] + Bodies(tail)
  {
    BodiesConcat([m], tail);
    assert Bodies([m]) == [m.body];
  }

  lemma {:induction false} SameBodies(tail: seq<Message>)
    requires forall k :: 0 <= k < |tail| ==> tail[k].id != ""
    ensures Bodies(Reals(tail)) == Bodies(tail) <==> AllReal(tail)
  {
    RealsWhole(tail);
    if Bodies(Reals(tail)) == Bodies(tail) {
      assert |Reals(tail)| == |Bodies(Reals(tail))| == |Bodies(tail)| == |tail|;
    }
  }

  lemma SameTail(b: Body, x: seq<Body>, y: seq<Body>)
    ensures [b] + x == [b] + y <==> x == y
  {
    if [b] + x == [b] + y { assert x == ([b] + x)[1..] == ([b] + y)[1..] == y; }
  }

  lemma FoldRefines(s: StoreModel.Store, k: nat, summary: string, newIds: seq<string>, s': StoreModel.Store)
    requires Sound(s) && s.head != "" && |newIds| >= |Path(s.recs, s.head)| && FreshIds(s.recs, newIds)
    requires 2 <= k < |View(s.recs, s.head)|
    requires s' == StoreModel.Compact(s, Path(s.recs, s.head), View(s.recs, s.head)[0].id, View(s.recs, s.head)[k - 1].id, summary, newIds).1
    ensures Sound(s')
    ensures Bodies(View(s'.recs, s'.head)) == Bodies([Summary(summary)] + View(s.recs, s.head)[k..])
      <==> AllReal(View(s.recs, s.head)[k..])
  {
    var view := View(s.recs, s.head);
    ViewIdentified(s.recs, s.head);
    FoldRange(s.recs, s.head, k);
    FoldedView(s, k, view[0].id, view[k - 1].id, summary, newIds, s');
    RefinesWhen(view, k, View(s'.recs, s'.head), summary);
  }

  lemma RefinesWhen(view: seq<Message>, k: nat, after: seq<Message>, summary: string)
    requires Identified(view) && k <= |view| && Bodies(after) == [SummaryBody(summary)] + Bodies(Reals(view[k..]))
    ensures Bodies(after) == Bodies([Summary(summary)] + view[k..]) <==> AllReal(view[k..])
  {
    FoldExact(view[k..], summary);
  }

  /** Where the compressor finds nothing to fold, neither does the log. */
  lemma NothingToFold(s: StoreModel.Store, keepLast: int, summary: string, newIds: seq<string>)
    requires Ok(s) && |newIds| >= |Path(s.recs, s.head)| && SplitPoint(View(s.recs, s.head), keepLast) == 0
    ensures Compress(View(s.recs, s.head), keepLast, false, Some(summary)) == Some(View(s.recs, s.head))
    ensures AfterCompact(s, keepLast, summary, newIds) == s
  {
    CompressShape(View(s.recs, s.head), keepLast, summary);
  }

  // ---------------------------------------------------------------- compaction of prefixes

  /** Every compaction so far folded from the root on. */
  predicate Rooted(recs: seq<Record>) {
    forall k :: 0 <= k < |recs| && recs[k].CompactRecord? ==> recs[k].parent == ""
  }

  lemma {:induction false} RootedNode(recs: seq<Record>, id: string)
    requires Rooted(recs) && id in Index(recs) && Index(recs)[id].CompactRecord?
    ensures Index(recs)[id].parent == ""
  {
    var n := |recs| - 1;
    if !(IsNode(recs[n]) && recs[n].id == id) { RootedNode(recs[..n], id); }
  }

  /** So only the first node of a path can be a summary. */
  lemma {:induction false} SummaryFirst(recs: seq<Record>, head: string, j: nat)
    requires WellFormed(recs) && head != "" && head in Index(recs) && Rooted(recs) && 0 < j <= |Path(recs, head)|
    ensures |View(recs, head)| == |Path(recs, head)| && AllReal(View(recs, head)[j..])
  {
    ViewIsPath(recs, head);
    var p, v := Path(recs, head), View(recs, head);
    forall k | j <= k < |p| ensures IsReal(v[k]) {
      PathLink(recs, head, k);
      PathLink(recs, head, k - 1);
      NodeAt(recs, p[k - 1]);
      NodeReal(recs, p[k]);
      if !Index(recs)[p[k]].MsgRecord? { RootedNode(recs, p[k]); }
    }
  }

  /** A compaction that starts at the root, or is refused. */
  ghost predicate FoldsPrefix(s: StoreModel.Store, op: Op)
    requires Ok(s)
  {
    op.Compacts? || op.CompactStops? ==> LastIndex(Path(s.recs, s.head), op.from) <= 0
  }

  lemma {:induction false} ClonesRooted(idx: map<string, Record>, retain: seq<string>, newIds: seq<string>, cid: string)
    requires |newIds| >= |retain|
    ensures Rooted(Clones(idx, retain, newIds, cid))
  {
    ClonesAreMessages(idx, retain, newIds, cid);
    var copies := Clones(idx, retain, newIds, cid);
    forall k | 0 <= k < |copies| ensures copies[k].MsgRecord? { assert copies[k] in copies; }
  }

  lemma {:induction false} CommitRooted(s: StoreModel.Store, msgs: seq<Message>)
    requires Rooted(s.recs)
    ensures Rooted(StoreModel.Commit(s, msgs).recs)
  {
    if msgs != [] { CommitRooted(s, msgs[..|msgs| - 1]); }
  }

  lemma {:induction false} CompactRooted(s: StoreModel.Store, from: string, to: string, summary: string, newIds: seq<string>)
    requires Ok(s) && Rooted(s.recs) && |newIds| >= |Path(s.recs, s.head)|
    requires LastIndex(Path(s.recs, s.head), from) <= 0
    ensures Rooted(StoreModel.Compact(s, Path(s.recs, s.head), from, to, summary, newIds).1.recs)
  {
    var p := Path(s.recs, s.head);
    var j := LastIndex(p, to);
    if j >= 0 { ClonesRooted(Index(s.recs), p[j + 1..], newIds, CompactId(to)); }
  }

  lemma {:induction false} DoRooted(s: StoreModel.Store, op: Op)
    requires Sound(s) && Allowed(s, op) && FoldsPrefix(s, op) && Rooted(s.recs)
    ensures Rooted(Do(s, op).recs)
  {
    match op
    case Commits(msgs) => CommitRooted(s, msgs);
    case Compacts(from, to, summary, newIds) => CompactRooted(s, from, to, summary, newIds);
    case CompactStops(from, to, summary, newIds, _) => CompactRooted(s, from, to, summary, newIds);
    case _ =>
  }

  /** A run of the store in which every compaction folds from the root on, as DetectCompact asks for. */
  ghost predicate IsPrefixRun(states: seq<StoreModel.Store>, ops: seq<Op>) {
    IsRun(states, ops) && forall n :: 0 <= n < |ops| && Ok(states[n]) ==> FoldsPrefix(states[n], ops[n])
  }

  lemma {:induction false} RunRooted(states: seq<StoreModel.Store>, ops: seq<Op>, n: nat)
    requires IsPrefixRun(states, ops) && n < |states|
    ensures Sound(states[n]) && Rooted(states[n].recs)
  {
    RunSound(states, ops, n);
    if n > 0 {
      RunRooted(states, ops, n - 1);
      DoRooted(states[n - 1], ops[n - 1]);
    }
  }

  /** What /compact does to a store is such a compaction. */
  lemma {:induction false} CompactFoldsPrefix(s: StoreModel.Store, keepLast: int, summary: string, newIds: seq<string>)
    requires Sound(s) && |newIds| >= |Path(s.recs, s.head)| && FreshIds(s.recs, newIds)
    requires SplitPoint(View(s.recs, s.head), keepLast) != 0
    ensures var view, k := View(s.recs, s.head), SplitPoint(View(s.recs, s.head), keepLast);
      var op := Compacts(view[0].id, view[k - 1].id, summary, newIds);
      Allowed(s, op) && FoldsPrefix(s, op) && AfterCompact(s, keepLast, summary, newIds) == Do(s, op)
  {
    AsksFor(s, keepLast, summary, newIds);
    ViewIdentified(s.recs, s.head);
    FoldRange(s.recs, s.head, SplitPoint(View(s.recs, s.head), keepLast));
  }

  // ---------------------------------------------------------------- what /compact means

  /** The fold and the compressor's answer. */
  lemma {:induction false} RootedRefines(s: StoreModel.Store, keepLast: int, summary: string, newIds: seq<string>, s': StoreModel.Store)
    requires Sound(s) && Rooted(s.recs) && |newIds| >= |Path(s.recs, s.head)| && FreshIds(s.recs, newIds)
    requires s' == AfterCompact(s, keepLast, summary, newIds) && SplitPoint(View(s.recs, s.head), keepLast) != 0
    ensures Sound(s')
    ensures Bodies(View(s'.recs, s'.head))
      == Bodies([Summary(summary)] + View(s.recs, s.head)[SplitPoint(View(s.recs, s.head), keepLast)..])
  {
    AsksFor(s, keepLast, summary, newIds);
    assert s.head != "";
    FoldedRefines(s, SplitPoint(View(s.recs, s.head), keepLast), summary, newIds);
  }

  lemma {:induction false} FoldedRefines(s: StoreModel.Store, k: nat, summary: string, newIds: seq<string>)
    requires Sound(s) && Rooted(s.recs) && s.head != "" && |newIds| >= |Path(s.recs, s.head)| && FreshIds(s.recs, newIds)
    requires 2 <= k < |View(s.recs, s.head)|
    ensures var view := View(s.recs, s.head);
      var s' := StoreModel.Compact(s, Path(s.recs, s.head), view[0].id, view[k - 1].id, summary, newIds).1;
      Sound(s') && Bodies(View(s'.recs, s'.head)) == Bodies([Summary(summary)] + view[k..])
  {
    var view := View(s.recs, s.head);
    ViewIdentified(s.recs, s.head);
    SummaryFirst(s.recs, s.head, k);
    FoldRefines(s, k, summary, newIds,
                StoreModel.Compact(s, Path(s.recs, s.head), view[0].id, view[k - 1].id, summary, newIds).1);
  }

  lemma {:induction false} StaysRooted(s: StoreModel.Store, keepLast: int, summary: string, newIds: seq<string>)
    requires Sound(s) && Rooted(s.recs) && |newIds| >= |Path(s.recs, s.head)| && FreshIds(s.recs, newIds)
    ensures Rooted(AfterCompact(s, keepLast, summary, newIds).recs)
  {
    var view, k := View(s.recs, s.head), SplitPoint(View(s.recs, s.head), keepLast);
    if k == 0 {
      NothingToFold(s, keepLast, summary, newIds);
    } else {
      CompactFoldsPrefix(s, keepLast, summary, newIds);
      DoRooted(s, Compacts(view[0].id, view[k - 1].id, summary, newIds));
    }
  }

  lemma {:induction false} StepRefines(s: StoreModel.Store, keepLast: int, summary: string, newIds: seq<string>)
    requires Sound(s) && Rooted(s.recs) && |newIds| >= |Path(s.recs, s.head)| && FreshIds(s.recs, newIds)
    ensures var s' := AfterCompact(s, keepLast, summary, newIds);
      var out := Compress(View(s.recs, s.head), keepLast, false, Some(summary));
      Sound(s') && out.Some? && Bodies(View(s'.recs, s'.head)) == Bodies(out.value)
  {
    CompressShape(View(s.recs, s.head), keepLast, summary);
    if SplitPoint(View(s.recs, s.head), keepLast) == 0 {
      NothingToFold(s, keepLast, summary, newIds);
    } else {
      RootedRefines(s, keepLast, summary, newIds, AfterCompact(s, keepLast, summary, newIds));
    }
  }

  /** The persisted compaction refines the in-memory one: in every store the application reaches, the
      log shows after /compact, up to ids, exactly what the compressor answered; and it has stayed one
      whose compactions fold from the root on. */
  lemma {:induction false} CompactionRefines(states: seq<StoreModel.Store>, ops: seq<Op>, n: nat, keepLast: int, summary: string, newIds: seq<string>)
    requires IsPrefixRun(states, ops) && n < |states| && Ok(states[n])
    requires |newIds| >= |Path(states[n].recs, states[n].head)| && FreshIds(states[n].recs, newIds)
    ensures var s, s' := states[n], AfterCompact(states[n], keepLast, summary, newIds);
      var out := Compress(View(s.recs, s.head), keepLast, false, Some(summary));
      Sound(s') && Rooted(s'.recs) && out.Some? && Bodies(View(s'.recs, s'.head)) == Bodies(out.value)
  {
    RunRooted(states, ops, n);
    StepRefines(states[n], keepLast, summary, newIds);
    StaysRooted(states[n], keepLast, summary, newIds);
  }

  /** So a paired view is still paired after /compact. */
  lemma {:induction false} CompactionKeepsPairs(states: seq<StoreModel.Store>, ops: seq<Op>, n: nat, keepLast: int, summary: string, newIds: seq<string>)
    requires IsPrefixRun(states, ops) && n < |states| && Ok(states[n])
    requires |newIds| >= |Path(states[n].recs, states[n].head)| && FreshIds(states[n].recs, newIds)
    requires WellPaired(View(states[n].recs, states[n].head))
    ensures var s' := AfterCompact(states[n], keepLast, summary, newIds);
      Sound(s') && WellPaired(View(s'.recs, s'.head))
  {
    var s, s' := states[n], AfterCompact(states[n], keepLast, summary, newIds);
    CompactionRefines(states, ops, n, keepLast, summary, newIds);
    CompressKeepsPairs(View(s.recs, s.head), keepLast, false, Some(summary));
    PairedBodies(Compress(View(s.recs, s.head), keepLast, false, Some(summary)).value, View(s'.recs, s'.head));
  }

  /** Compact itself takes any range of the active path. Then summaries may stand behind the range, and
      they are not copied: up to ids the range is replaced by the summary if and only if there are none. */
  lemma {:induction false} RangeReplaced(s: StoreModel.Store, from: string, to: string, i: nat, j: nat, summary: string, newIds: seq<string>)
    requires Covers(s, from, to, i, j, newIds)
    ensures var view, r := View(s.recs, s.head), StoreModel.Compact(s, Path(s.recs, s.head), from, to, summary, newIds).1;
      && j < |view| && Sound(r)
      && (Bodies(View(r.recs, r.head)) == Bodies(view[..i] + [Summary(summary)] + view[j + 1..])
          <==> AllReal(view[j + 1..]))
  {
    hide StoreModel.Compact, View, Path, WellFormed, Index, Sound, LastIndex, FreshIds, Identified;
    var view := View(s.recs, s.head);
    CompactionMeaning(s, from, to, i, j, summary, newIds);
    ViewIdentified(s.recs, s.head);
    BodiesConcat(view[..i] + [Summary(summary)], view[j + 1..]);
    BodiesConcat(view[..i], [Summary(summary)]);
    assert Bodies([Summary(summary)]) == [SummaryBody(summary)];
    SameRest(Bodies(view[..i]) + [SummaryBody(summary)], Bodies(Reals(view[j + 1..])), Bodies(view[j + 1..]));
    SameBodies(view[j + 1..]);
  }

  lemma SameRest(a: seq<Body>, x: seq<Body>, y: seq<Body>)
    ensures a + x == a + y <==> x == y
  {
    if a + x == a + y { assert x == (a + x)[|a|..] == (a + y)[|a|..] == y; }
  }

  /** The part of a Session that /compact touches. */
  class Session {
    const store: SessionStore.Store
    var conversation: seq<Message>

    constructor (store: SessionStore.Store)
      ensures this.store == store && conversation == ActiveView(store.recs, store.head)
    {
      this.store := store;
      conversation := ActiveView(store.recs, store.head);
    }

    /** compactStore after consolidation; summary is None when the model call fails, writes says how many
        appends of the compaction go through. */
    method CompactStore(keepLast: int, summary: Option<string>, newIds: seq<string>, writes: nat) returns (done: bool)
      requires store.Valid() && Ok(store.St()) && |newIds| >= |Path(store.recs, store.head)|
      modifies this`conversation, store
      ensures store.Valid()
      ensures summary.None? ==> !done && store.St() == old(store.St())
      ensures summary.Some? ==>
        && (done ==> store.St() == AfterCompact(old(store.St()), keepLast, summary.value, newIds))
        && store.St() == StoppedAfter(old(store.St()), keepLast, summary.value, newIds, writes)
      ensures conversation == if done then ActiveView(store.recs, store.head) else old(conversation)
    {
      var view := store.ActiveView();
      ActiveIsPath(store.St());
      if |view| == 0 {
        return false;
      }
      var before := |view|;
      var compacted := CompressHistory(view, keepLast, false, summary);
      if compacted.None? {
        return false;
      }
      if |compacted.value| >= before {
        return false;
      }
      var found := Detect(view, compacted.value);
      if found.None? {
        return false;
      }
      var out := store.Compact(found.value.from, found.value.to, found.value.summary, newIds, writes);
      if !out.Compacted? {
        return false;
      }
      conversation := store.ActiveView();
      done := true;
    }
  }
}
