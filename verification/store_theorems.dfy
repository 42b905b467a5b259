/** Every run of the store: the log stays a forest, compaction means what it says, rewinding
    restores, and a crash between two records is harmless. */
module StoreTheorems {
  import opened Messages
  import opened StoreModel
  import opened StoreTree
  import opened StoreCompaction

  datatype Op =
    | Commits(msgs: seq<Message>)
    | Compacts(from: string, to: string, summary: string, newIds: seq<string>)
    | CompactStops(from: string, to: string, summary: string, newIds: seq<string>, writes: nat)
    | Rewinds(id: string)
    | Checkpoints(preview: string)
    | Advances(id: string)
    | Notes(r: Record)
    | Crashes(survivors: nat)

  ghost predicate PlainIds(recs: seq<Record>, msgs: seq<Message>) {
    forall k :: 0 <= k < |msgs| && Prefixed(msgs[k].id) ==> msgs[k].id in Index(recs)
  }

  /** What callers owe: ids drawn at random are new and unprefixed, a rewind goes to a known node. */
  ghost predicate Allowed(s: Store, op: Op)
    requires Ok(s)
  {
    match op
    case Commits(msgs) => PlainIds(s.recs, msgs)
    case Compacts(_, _, _, newIds) => |newIds| >= |Path(s.recs, s.head)| && FreshIds(s.recs, newIds)
    case CompactStops(_, _, _, newIds, _) => |newIds| >= |Path(s.recs, s.head)| && FreshIds(s.recs, newIds)
    case Rewinds(id) => id == "" || id in Index(s.recs)
    case Notes(r) => r.MetadataRecord? || r.WorkspaceRecord? || r.ArchivedRecord?
    case Crashes(k) => k <= |s.recs|
    case _ => true
  }

  ghost function Do(s: Store, op: Op): Store
    requires Ok(s) && Allowed(s, op)
  {
    match op
    case Commits(msgs) => Commit(s, msgs)
    case Compacts(from, to, summary, newIds) => Compact(s, Path(s.recs, s.head), from, to, summary, newIds).1
    case CompactStops(from, to, summary, newIds, writes) =>
      CompactCut(s, Path(s.recs, s.head), from, to, summary, newIds, writes).1
    case Rewinds(id) => SetHead(s, id)
    case Checkpoints(preview) => Checkpoint(s, preview)
    case Advances(id) => AdvanceCursor(s, id)
    case Notes(r) => s.(recs := s.recs + [r])
    case Crashes(k) => Reopen(s.recs[..k])
  }

  /** The head in memory is the one a reopening finds, unless it was cleared. */
  ghost predicate Persisted(s: Store) {
    s.head != "" ==> s.head == LastHead(s.recs)
  }

  ghost predicate Sound(s: Store) {
    Ok(s) && Persisted(s)
  }

  // ---------------------------------------------------------------- single appends

  lemma {:induction false} Snoc(recs: seq<Record>, r: Record)
    requires WellFormed(recs) && Admissible(recs, r)
    ensures WellFormed(recs + [r])
    ensures Index(recs + [r]) == if IsNode(r) then Index(recs)[r.id := r] else Index(recs)
    ensures LastHead(recs + [r]) == if r.HeadRecord? && r.tail != "" then r.tail else LastHead(recs)
    ensures LastCursor(recs + [r]) == if r.CursorRecord? && r.msgId != "" then r.msgId else LastCursor(recs)
  {
    WellFormedSnoc(recs, r);
    IndexSnoc(recs, r);
    assert (recs + [r])[..|recs|] == recs;
  }

  lemma CommitOneSound(s: Store, m: Message)
    requires Sound(s) && (Prefixed(m.id) ==> m.id in Index(s.recs))
    ensures Sound(CommitOne(s, m))
    ensures forall x :: x in Index(CommitOne(s, m).recs) <==> x in Index(s.recs) || (x == m.id && x != "")
  {
    if m.id != "" && m.id !in Index(s.recs) {
      var r := MsgRecord(m.id, s.head, m.body, "");
      Snoc(s.recs, r);
      Snoc(s.recs + [r], HeadRecord(m.id));
      assert s.recs + [r] + [HeadRecord(m.id)] == s.recs + [r, HeadRecord(m.id)];
    }
  }

  lemma {:induction false} CommitSound(s: Store, msgs: seq<Message>)
    requires Sound(s) && PlainIds(s.recs, msgs)
    ensures Sound(Commit(s, msgs))
    ensures forall x :: x in Index(s.recs) ==> x in Index(Commit(s, msgs).recs)
  {
    if msgs != [] {
      var n := |msgs| - 1;
      CommitSound(s, msgs[..n]);
      CommitOneSound(Commit(s, msgs[..n]), msgs[n]);
    }
  }

  // ---------------------------------------------------------------- compaction

  ghost predicate Compactable(recs: seq<Record>, head: string, i: nat, j: nat, newIds: seq<string>) {
    InRange(recs, head, i, j) && |newIds| >= |Path(recs, head)| && FreshIds(recs, newIds)
  }

  ghost function Retained(recs: seq<Record>, head: string, j: nat): seq<string>
    requires InRange(recs, head, 0, j)
  {
    Path(recs, head)[j + 1..]
  }

  ghost function NewTip(recs: seq<Record>, head: string, j: nat, newIds: seq<string>): string
    requires Compactable(recs, head, 0, j, newIds)
  {
    Tip(Index(recs), Retained(recs, head, j), newIds, CompactId(Path(recs, head)[j]))
  }

  /** The log after the compact node and the copies, before the head record. */
  ghost function Compacted(recs: seq<Record>, head: string, i: nat, j: nat, summary: string, newIds: seq<string>): seq<Record>
    requires Compactable(recs, head, i, j, newIds)
  {
    recs + [CompactNode(recs, head, i, j, summary)]
    + Clones(Index(recs), Retained(recs, head, j), newIds, CompactId(Path(recs, head)[j]))
  }

  lemma {:induction false} CompactedLog(recs: seq<Record>, head: string, i: nat, j: nat, summary: string, newIds: seq<string>)
    requires Compactable(recs, head, i, j, newIds)
    ensures var c := CompactNode(recs, head, i, j, summary);
      var log, tip := Compacted(recs, head, i, j, summary, newIds), NewTip(recs, head, j, newIds);
      && WellFormed(recs + [c]) && c.id in Index(recs + [c])
      && WellFormed(log) && tip in Index(log)
      && View(log, tip) == View(recs + [c], c.id) + Kept(Index(recs), Retained(recs, head, j), newIds)
      && (forall h :: h in Index(recs + [c]) ==> h in Index(log) && View(log, h) == View(recs + [c], h))
  {
    var c := CompactNode(recs, head, i, j, summary);
    PathRanks(recs, head);
    CompactNodeAdmissible(recs, head, i, j, summary);
    IndexSnoc(recs, c);
    CompactIdBase(Path(recs, head)[j]);
    ClonesView(recs + [c], Index(recs), Retained(recs, head, j), newIds, c.id);
  }

  /** The view of the new head, and the views of all others with the head record in place. */
  lemma {:induction false} CompactedView(recs: seq<Record>, head: string, i: nat, j: nat, summary: string, newIds: seq<string>)
    requires Compactable(recs, head, i, j, newIds)
    ensures var c := CompactNode(recs, head, i, j, summary);
      var tip := NewTip(recs, head, j, newIds);
      var all := Compacted(recs, head, i, j, summary, newIds) + [HeadRecord(tip)];
      && WellFormed(recs + [c]) && WellFormed(all) && tip in Index(all) && tip != "" && LastHead(all) == tip
      && i <= |View(recs, head)|
      && View(all, tip) == View(recs, head)[..i] + [Message(c.id, SummaryBody(summary))]
                           + Kept(Index(recs), Retained(recs, head, j), newIds)
      && (forall h :: h in Index(recs + [c]) ==> h in Index(all) && View(all, h) == View(recs + [c], h))
  {
    var log, tip := Compacted(recs, head, i, j, summary, newIds), NewTip(recs, head, j, newIds);
    CompactedLog(recs, head, i, j, summary, newIds);
    CompactNodeView(recs, head, i, j, summary);
    NodeIdent(log, tip);
    Snoc(log, HeadRecord(tip));
    ViewSnoc(log, HeadRecord(tip), tip);
    var c := CompactNode(recs, head, i, j, summary);
    forall h | h in Index(recs + [c])
      ensures h in Index(log + [HeadRecord(tip)]) && View(log + [HeadRecord(tip)], h) == View(recs + [c], h)
    {
      ViewSnoc(log, HeadRecord(tip), h);
    }
  }

  /** Compact of a store is the log above with its head record. */
  lemma {:induction false} CompactRecords(s: Store, from: string, to: string, summary: string, newIds: seq<string>)
    requires Ok(s) && s.head != "" && |newIds| >= |Path(s.recs, s.head)| && FreshIds(s.recs, newIds)
    ensures var path := Path(s.recs, s.head);
      var i, j := LastIndex(path, from), LastIndex(path, to);
      var r := Compact(s, path, from, to, summary, newIds);
      if 0 <= i <= j then
        && Compactable(s.recs, s.head, i, j, newIds) && r.0
        && r.1.recs == Compacted(s.recs, s.head, i, j, summary, newIds) + [HeadRecord(r.1.head)]
        && r.1.head == NewTip(s.recs, s.head, j, newIds)
      else r == (false, s)
  {
    hide Index, Clones, Tip, CloneOf, RemapCursor, FreshIds, RankBelow;
    NodeIdent(s.recs, s.head);
    PathRanks(s.recs, s.head);
  }

  lemma {:induction false} CompactionBodies(recs: seq<Record>, head: string, i: nat, j: nat, summary: string, newIds: seq<string>)
    requires Compactable(recs, head, i, j, newIds) && head != ""
    ensures var view := View(recs, head);
      && |view| == |Path(recs, head)|
      && Bodies(view[..i] + [Message(CompactId(Path(recs, head)[j]), SummaryBody(summary))]
                + Kept(Index(recs), Retained(recs, head, j), newIds))
         == Bodies(view[..i]) + [SummaryBody(summary)] + Bodies(Reals(view[j + 1..]))
  {
    var view, path := View(recs, head), Path(recs, head);
    var retain := Retained(recs, head, j);
    PathRanks(recs, head);
    KeptBodies(recs, retain, newIds);
    ViewIsPath(recs, head);
    assert RenderAll(Index(recs), retain) == view[j + 1..];
    var m := Message(CompactId(path[j]), SummaryBody(summary));
    BodiesConcat(view[..i] + [m], Kept(Index(recs), retain, newIds));
    BodiesConcat(view[..i], [m]);
    assert Bodies([m]) == [SummaryBody(summary)];
  }

  /** The log after a compaction, as a store. */
  lemma {:induction false} CompactedStore(recs: seq<Record>, head: string, i: nat, j: nat, summary: string, newIds: seq<string>, r: Store)
    requires Compactable(recs, head, i, j, newIds) && head != "" && r.head == NewTip(recs, head, j, newIds)
    requires r.recs == Compacted(recs, head, i, j, summary, newIds) + [HeadRecord(r.head)]
    ensures var view, m := View(recs, head), Message(CompactId(Path(recs, head)[j]), SummaryBody(summary));
      && |view| == |Path(recs, head)| && Sound(r)
      && View(r.recs, r.head) == view[..i] + [m] + Kept(Index(recs), Path(recs, head)[j + 1..], newIds)
  {
    ViewIsPath(recs, head);
    CompactedView(recs, head, i, j, summary, newIds);
  }

  /** The view after a compaction: the summary and the copies take the place of what came after
      the start of the covered range. */
  lemma {:induction false} CompactionView(s: Store, from: string, to: string, i: nat, j: nat, summary: string, newIds: seq<string>)
    requires Ok(s) && s.head != "" && |newIds| >= |Path(s.recs, s.head)| && FreshIds(s.recs, newIds)
    requires i == LastIndex(Path(s.recs, s.head), from) && j == LastIndex(Path(s.recs, s.head), to) && i <= j
    ensures var view, r := View(s.recs, s.head), Compact(s, Path(s.recs, s.head), from, to, summary, newIds);
      && j < |view| && r.0 && Sound(r.1)
      && View(r.1.recs, r.1.head) == view[..i] + [Message(CompactId(to), SummaryBody(summary))]
                                     + Kept(Index(s.recs), Path(s.recs, s.head)[j + 1..], newIds)
  {
    CompactRecords(s, from, to, summary, newIds);
    CompactedStore(s.recs, s.head, i, j, summary, newIds, Compact(s, Path(s.recs, s.head), from, to, summary, newIds).1);
    assert Path(s.recs, s.head)[j] == to;
  }

  /** What compaction means: on the active path the covered range gives way to the summary and
      everything else keeps its content and order; older summaries behind the range are dropped. */
  lemma {:induction false} CompactionMeaning(s: Store, from: string, to: string, i: nat, j: nat, summary: string, newIds: seq<string>)
    requires Ok(s) && s.head != "" && |newIds| >= |Path(s.recs, s.head)| && FreshIds(s.recs, newIds)
    requires i == LastIndex(Path(s.recs, s.head), from) && j == LastIndex(Path(s.recs, s.head), to) && i <= j
    ensures var view, r := View(s.recs, s.head), Compact(s, Path(s.recs, s.head), from, to, summary, newIds);
      && j < |view| && r.0 && Sound(r.1)
      && Bodies(View(r.1.recs, r.1.head)) == Bodies(view[..i]) + [SummaryBody(summary)] + Bodies(Reals(view[j + 1..]))
  {
    hide Compact, WellFormed, Index, Kept, View, Path, Bodies, Reals, Sound, FreshIds, SummaryBody;
    CompactionView(s, from, to, i, j, summary, newIds);
    CompactionBodies(s.recs, s.head, i, j, summary, newIds);
    assert Path(s.recs, s.head)[j] == to;
  }

  lemma {:induction false} LastIndexFinds(ids: seq<string>, x: string)
    ensures LastIndex(ids, x) >= 0 <==> x in ids
    ensures forall k :: LastIndex(ids, x) < k < |ids| ==> ids[k] != x
  {
    if ids != [] { LastIndexFinds(ids[..|ids| - 1], x); }
  }

  /** Both are on the path, from not behind to. */
  ghost predicate InOrder(path: seq<string>, from: string, to: string) {
    exists i, j :: 0 <= i <= j < |path| && path[i] == from && path[j] == to
  }

  /** Compaction takes a range exactly when both ends are on the active path in order; no node stands
      there twice. A range that is refused changes nothing. */
  lemma {:induction false} CompactionRejects(s: Store, from: string, to: string, summary: string, newIds: seq<string>)
    requires Ok(s) && |newIds| >= |Path(s.recs, s.head)|
    ensures var path := Path(s.recs, s.head);
      var r := Compact(s, path, from, to, summary, newIds);
      && (r.0 <==> InOrder(path, from, to))
      && (!r.0 ==> r.1 == s)
      && (forall k, l :: 0 <= k < l < |path| ==> path[k] != path[l])
  {
    hide WellFormed, Index, RankBelow, Clones, Tip, RemapCursor;
    var path := Path(s.recs, s.head);
    LastIndexFinds(path, from);
    LastIndexFinds(path, to);
    forall k, l | 0 <= k < l < |path| ensures path[k] != path[l] { PathOrdered(s.recs, s.head, k, l); }
  }

  /** Compaction leaves alone every head whose path avoids the compact id: rewinding to such
      a checkpoint shows exactly what it showed before. */
  lemma {:induction false} OtherHeads(s: Store, from: string, to: string, summary: string, newIds: seq<string>, h: string)
    requires Ok(s) && s.head != "" && |newIds| >= |Path(s.recs, s.head)| && FreshIds(s.recs, newIds)
    requires h in Index(s.recs) && CompactId(to) !in Path(s.recs, h)
    ensures var r := Compact(s, Path(s.recs, s.head), from, to, summary, newIds).1;
      && Ok(r) && h in Index(r.recs)
      && View(SetHead(r, h).recs, h) == View(SetHead(s, h).recs, h) == View(s.recs, h)
  {
    var path := Path(s.recs, s.head);
    var i, j := LastIndex(path, from), LastIndex(path, to);
    CompactRecords(s, from, to, summary, newIds);
    var r := Compact(s, path, from, to, summary, newIds).1;
    if 0 <= i <= j {
      var c := CompactNode(s.recs, s.head, i, j, summary);
      CompactedView(s.recs, s.head, i, j, summary, newIds);
      IndexSnoc(s.recs, c);
      ViewSnoc(s.recs, c, h);
    }
    Snoc(r.recs, HeadRecord(h));
    Snoc(s.recs, HeadRecord(h));
    ViewSnoc(r.recs, HeadRecord(h), h);
    ViewSnoc(s.recs, HeadRecord(h), h);
  }

  /** A head whose path runs through a re-created node: up to that node it shows the new
      node's history, after it what it showed before. */
  lemma {:induction false} Rebound(recs: seq<Record>, c: Record, h: string, k: nat)
    requires WellFormed(recs) && WellFormed(recs + [c]) && IsNode(c)
    requires c.id in Index(recs + [c]) && (c.parent == "" || (c.parent in Index(recs) && c.id !in Path(recs, c.parent)))
    requires h in Index(recs) && k < |Path(recs, h)| && Path(recs, h)[k] == c.id
    ensures h in Index(recs + [c]) && |View(recs, h)| == |Path(recs, h)|
    ensures View(recs + [c], h) == View(recs + [c], c.id) + View(recs, h)[k + 1..]
    decreases Birth(recs, Base(h)), Depth(h)
  {
    IndexSnoc(recs, c);
    NodeIdent(recs, h);
    PathRanks(recs, h);
    EdgeDown(recs, h);
    var p := ParentOf(recs, h);
    ViewIsPath(recs, h);
    if k == |Path(recs, h)| - 1 {
      assert View(recs, h)[k + 1..] == [];
    } else {
      assert h != c.id by { PathOrdered(recs, h, k, |Path(recs, h)| - 1); }
      assert Path(recs, h) == Path(recs, p) + [h];
      Rebound(recs, c, p, k);
      assert ParentOf(recs + [c], h) == p;
      GrowView(recs, h);
      GrowView(recs + [c], h);
    }
  }

  lemma {:induction false} ReboundHeads(s: Store, from: string, to: string, i: nat, j: nat, summary: string, newIds: seq<string>, h: string, k: nat)
    requires Ok(s) && s.head != "" && |newIds| >= |Path(s.recs, s.head)| && FreshIds(s.recs, newIds)
    requires i == LastIndex(Path(s.recs, s.head), from) && j == LastIndex(Path(s.recs, s.head), to) && i <= j
    requires h in Index(s.recs) && k < |Path(s.recs, h)| && Path(s.recs, h)[k] == CompactId(to)
    ensures var r := Compact(s, Path(s.recs, s.head), from, to, summary, newIds).1;
      && Ok(r) && h in Index(r.recs) && |View(s.recs, h)| == |Path(s.recs, h)| && i <= |View(s.recs, s.head)|
      && View(r.recs, h) == View(s.recs, s.head)[..i] + [Message(CompactId(to), SummaryBody(summary))] + View(s.recs, h)[k + 1..]
  {
    CompactRecords(s, from, to, summary, newIds);
    var c := CompactNode(s.recs, s.head, i, j, summary);
    CompactedView(s.recs, s.head, i, j, summary, newIds);
    CompactNodeAdmissible(s.recs, s.head, i, j, summary);
    CompactNodeView(s.recs, s.head, i, j, summary);
    ViewIsPath(s.recs, s.head);
    assert Path(s.recs, s.head)[j] == to;
    IndexSnoc(s.recs, c);
    Rebound(s.recs, c, h, k);
  }

  // ---------------------------------------------------------------- commit

  ghost predicate Repeats(msgs: seq<Message>, id: string) {
    exists k :: 0 <= k < |msgs| && msgs[k].id == id
  }

  /** The messages a commit takes: those with an id not seen before. */
  ghost function Taken(s: Store, msgs: seq<Message>): seq<Message> {
    if msgs == [] then []
    else
      var m, before := msgs[|msgs| - 1], msgs[..|msgs| - 1];
      if m.id == "" || m.id in Index(s.recs) || Repeats(before, m.id) then Taken(s, before) else Taken(s, before) + [m]
  }

  lemma RepeatsSnoc(msgs: seq<Message>, id: string)
    requires msgs != []
    ensures Repeats(msgs, id) <==> Repeats(msgs[..|msgs| - 1], id) || msgs[|msgs| - 1].id == id
  {
    if Repeats(msgs, id) && msgs[|msgs| - 1].id != id {
      var k :| 0 <= k < |msgs| && msgs[k].id == id;
      assert msgs[..|msgs| - 1][k].id == id;
    }
    if Repeats(msgs[..|msgs| - 1], id) {
      var k :| 0 <= k < |msgs| - 1 && msgs[..|msgs| - 1][k].id == id;
      assert msgs[k].id == id;
    }
  }

  lemma CommitOneIds(s: Store, m: Message, x: string)
    ensures x in Index(CommitOne(s, m).recs) <==> x in Index(s.recs) || (x == m.id && x != "")
  {
    if m.id != "" && m.id !in Index(s.recs) {
      var r := MsgRecord(m.id, s.head, m.body, "");
      IndexSnoc(s.recs, r);
      IndexSnoc(s.recs + [r], HeadRecord(m.id));
      assert s.recs + [r] + [HeadRecord(m.id)] == s.recs + [r, HeadRecord(m.id)];
    }
  }

  lemma {:induction false} CommitIds(s: Store, msgs: seq<Message>, x: string)
    ensures x in Index(Commit(s, msgs).recs) <==> x in Index(s.recs) || (x != "" && Repeats(msgs, x))
  {
    if msgs != [] {
      CommitIds(s, msgs[..|msgs| - 1], x);
      CommitOneIds(Commit(s, msgs[..|msgs| - 1]), msgs[|msgs| - 1], x);
      RepeatsSnoc(msgs, x);
    }
  }

  lemma CommitLast(s: Store, mid: Store, view: seq<Message>, taken: seq<Message>, m: Message)
    requires Sound(mid) && (Prefixed(m.id) ==> m.id in Index(mid.recs)) && View(mid.recs, mid.head) == view + taken
    ensures var s' := CommitOne(mid, m);
      && Sound(s')
      && View(s'.recs, s'.head) == view + (if m.id == "" || m.id in Index(mid.recs) then taken else taken + [m])
  {
    CommitOneView(mid, m);
    assert view + taken + [m] == view + (taken + [m]);
  }

  /** Commit appends exactly the new messages to the active view and changes no other head. */
  lemma {:induction false} CommitMeaning(s: Store, msgs: seq<Message>)
    requires Sound(s) && PlainIds(s.recs, msgs)
    ensures var s' := Commit(s, msgs);
      && Sound(s') && View(s'.recs, s'.head) == View(s.recs, s.head) + Taken(s, msgs)
  {
    if msgs != [] {
      var m, before := msgs[|msgs| - 1], msgs[..|msgs| - 1];
      CommitMeaning(s, before);
      CommitIds(s, before, m.id);
      CommitSound(s, before);
      CommitLast(s, Commit(s, before), View(s.recs, s.head), Taken(s, before), m);
    }
  }

  lemma {:induction false} CommitOtherHeads(s: Store, msgs: seq<Message>, h: string)
    requires Sound(s) && PlainIds(s.recs, msgs) && h in Index(s.recs)
    ensures var s' := Commit(s, msgs);
      Sound(s') && h in Index(s'.recs) && View(s'.recs, h) == View(s.recs, h)
  {
    if msgs != [] {
      var m, before := msgs[|msgs| - 1], msgs[..|msgs| - 1];
      CommitOtherHeads(s, before, h);
      CommitSound(s, before);
      CommitOneView(Commit(s, before), m);
    }
  }

  lemma CommitOneView(s: Store, m: Message)
    requires Sound(s) && (Prefixed(m.id) ==> m.id in Index(s.recs))
    ensures var s' := CommitOne(s, m);
      && Sound(s')
      && View(s'.recs, s'.head)
         == View(s.recs, s.head) + (if m.id == "" || m.id in Index(s.recs) then [] else [m])
      && (forall h :: h in Index(s.recs) ==> h in Index(s'.recs) && View(s'.recs, h) == View(s.recs, h))
  {
    CommitOneSound(s, m);
    if m.id != "" && m.id !in Index(s.recs) {
      var r := MsgRecord(m.id, s.head, m.body, "");
      var mid := s.recs + [r];
      Snoc(s.recs, r);
      Snoc(mid, HeadRecord(m.id));
      assert mid + [HeadRecord(m.id)] == s.recs + [r, HeadRecord(m.id)];
      if s.head != "" { PathRanks(s.recs, s.head); }
      Grow(s.recs, r);
      ViewSnoc(mid, HeadRecord(m.id), m.id);
      forall h | h in Index(s.recs) ensures View(mid + [HeadRecord(m.id)], h) == View(s.recs, h) {
        PathRanks(s.recs, h);
        ViewSnoc(s.recs, r, h);
        ViewSnoc(mid, HeadRecord(m.id), h);
      }
    }
  }

  // ---------------------------------------------------------------- runs

  lemma {:induction false} PrefixWellFormed(recs: seq<Record>, k: nat)
    requires WellFormed(recs) && k <= |recs|
    ensures WellFormed(recs[..k])
  {
    if k == |recs| {
      assert recs[..k] == recs;
    } else {
      PrefixWellFormed(recs[..|recs| - 1], k);
      assert recs[..|recs| - 1][..k] == recs[..k];
    }
  }

  lemma {:induction false} LastHeadKnown(recs: seq<Record>)
    requires WellFormed(recs)
    ensures LastHead(recs) == "" || LastHead(recs) in Index(recs)
  {
    if recs != [] {
      LastHeadKnown(recs[..|recs| - 1]);
    }
  }

  /** A crash between any two records leaves a store as sound as before. */
  lemma {:induction false} CrashSound(recs: seq<Record>, k: nat)
    requires WellFormed(recs) && k <= |recs|
    ensures Sound(Reopen(recs[..k]))
  {
    PrefixWellFormed(recs, k);
    LastHeadKnown(recs[..k]);
  }

  // ---------------------------------------------------------------- appends that fail

  /** Records that are no heads, and no nodes of the path of head. */
  ghost predicate Beside(recs: seq<Record>, head: string, more: seq<Record>)
    requires WellFormed(recs) && (head == "" || head in Index(recs))
  {
    forall k :: 0 <= k < |more| ==> !more[k].HeadRecord? && (IsNode(more[k]) ==> more[k].id !in Path(recs, head))
  }

  lemma {:induction false} BesideKept(recs: seq<Record>, head: string, more: seq<Record>)
    requires WellFormed(recs) && WellFormed(recs + more) && (head == "" || head in Index(recs)) && Beside(recs, head, more)
    ensures head == "" || (head in Index(recs + more) && Path(recs + more, head) == Path(recs, head))
    ensures View(recs + more, head) == View(recs, head) && LastHead(recs + more) == LastHead(recs)
  {
    if more == [] {
      assert recs + more == recs;
    } else {
      var n := |more| - 1;
      assert (recs + more)[..|recs + more| - 1] == recs + more[..n];
      assert recs + more == recs + more[..n] + [more[n]];
      PrefixWellFormed(recs + more, |recs| + n);
      BesideKept(recs, head, more[..n]);
      ViewSnoc(recs + more[..n], more[n], head);
      if head != "" { PathSnoc(recs + more[..n], more[n], head); }
    }
  }

  /** The compact id of a node stands on no path through that node. */
  lemma {:induction false} NotAcross(recs: seq<Record>, head: string, j: nat)
    requires WellFormed(recs) && head in Index(recs) && j < |Path(recs, head)|
    ensures CompactId(Path(recs, head)[j]) !in Path(recs, head)
  {
    var p := Path(recs, head);
    var to := p[j];
    CompactIdBase(to);
    forall k | 0 <= k < |p| ensures p[k] != CompactId(to) {
      if p[k] == CompactId(to) {
        if k < j {
          PathOrdered(recs, head, k, j);
        } else if j < k {
          PathPrefix(recs, head, k);
          PathLink(recs, head, k);
          NodeIds(recs);
          NodeIdent(recs, p[k]);
          SummaryEdge(recs, p[k]);
          SameTarget(Index(recs)[p[k]].coveredTo, to);
          if j < k - 1 { PathOrdered(recs, head, j, k - 1); }
        }
      }
    }
  }

  lemma SameTarget(a: string, b: string)
    requires CompactId(a) == CompactId(b)
    ensures a == b
  {
    CompactIdBase(a);
    CompactIdBase(b);
  }

  lemma {:induction false} CutBeside(recs: seq<Record>, head: string, i: nat, j: nat, summary: string, newIds: seq<string>)
    requires Compactable(recs, head, i, j, newIds)
    ensures var c := CompactNode(recs, head, i, j, summary);
      Beside(recs, head, [c] + Clones(Index(recs), Retained(recs, head, j), newIds, CompactId(Path(recs, head)[j])))
  {
    NotAcross(recs, head, j);
    PathRanks(recs, head);
    CloneNodes(Index(recs), Retained(recs, head, j), newIds, CompactId(Path(recs, head)[j]));
  }

  lemma {:induction false} CloneNodes(idx: map<string, Record>, retain: seq<string>, newIds: seq<string>, cid: string)
    requires |newIds| >= |retain|
    ensures forall k :: 0 <= k < |Clones(idx, retain, newIds, cid)| ==>
      Clones(idx, retain, newIds, cid)[k].MsgRecord? && Clones(idx, retain, newIds, cid)[k].id in newIds[..|retain|]
  {
    if retain != [] {
      var n := |retain| - 1;
      CloneNodes(idx, retain[..n], newIds, cid);
      assert newIds[..n] == newIds[..n + 1][..n] && newIds[n] in newIds[..n + 1];
    }
  }

  lemma {:induction false} CompactSound(s: Store, from: string, to: string, summary: string, newIds: seq<string>)
    requires Sound(s) && |newIds| >= |Path(s.recs, s.head)| && FreshIds(s.recs, newIds)
    ensures Sound(Compact(s, Path(s.recs, s.head), from, to, summary, newIds).1)
  {
    if s.head != "" {
      NodeIdent(s.recs, s.head);
      CompactRecords(s, from, to, summary, newIds);
      var path := Path(s.recs, s.head);
      if 0 <= LastIndex(path, from) <= LastIndex(path, to) {
        CompactionMeaning(s, from, to, LastIndex(path, from), LastIndex(path, to), summary, newIds);
      }
    }
  }

  /** A compaction that stops at a failed append leaves the active view as it was, and the log sound. */
  lemma {:induction false} StoppedCompaction(s: Store, from: string, to: string, summary: string, newIds: seq<string>, writes: nat)
    requires Sound(s) && |newIds| >= |Path(s.recs, s.head)| && FreshIds(s.recs, newIds)
    ensures var full := Compact(s, Path(s.recs, s.head), from, to, summary, newIds);
      var r := CompactCut(s, Path(s.recs, s.head), from, to, summary, newIds, writes);
      && Sound(r.1)
      && (full.0 && !r.0 ==> r.1.head == s.head && View(r.1.recs, s.head) == View(s.recs, s.head))
  {
    hide Compacted, CompactNode, FreshIds, View, Path, Index, WellFormed, LastIndex, Clones, Tip, CloneOf, RemapCursor;
    var full := Compact(s, Path(s.recs, s.head), from, to, summary, newIds);
    CompactSound(s, from, to, summary, newIds);
    if full.0 && |s.recs| + writes < |full.1.recs| {
      var i, j := LastIndex(Path(s.recs, s.head), from), LastIndex(Path(s.recs, s.head), to);
      assert s.head != "" && 0 <= i <= j;
      CompactRecords(s, from, to, summary, newIds);
      CutKept(s.recs, s.head, i, j, summary, newIds, writes, full.1.recs, full.1.head);
    }
  }

  lemma {:induction false} CutKept(recs: seq<Record>, head: string, i: nat, j: nat, summary: string, newIds: seq<string>,
                                   writes: nat, all: seq<Record>, tip: string)
    requires Compactable(recs, head, i, j, newIds) && WellFormed(all) && |recs| + writes < |all|
    requires all == Compacted(recs, head, i, j, summary, newIds) + [HeadRecord(tip)]
    ensures var cut := all[..|recs| + writes];
      && WellFormed(cut) && head in Index(cut) && View(cut, head) == View(recs, head) && LastHead(cut) == LastHead(recs)
  {
    var more := [CompactNode(recs, head, i, j, summary)]
      + Clones(Index(recs), Retained(recs, head, j), newIds, CompactId(Path(recs, head)[j]));
    CutBeside(recs, head, i, j, summary, newIds);
    assert all == recs + more + [HeadRecord(tip)];
    assert all[..|recs| + writes] == recs + more[..writes];
    PrefixWellFormed(all, |recs| + writes);
    BesideKept(recs, head, more[..writes]);
  }

  lemma StepSound(s: Store, op: Op)
    requires Sound(s) && Allowed(s, op)
    ensures Sound(Do(s, op))
  {
    match op {
      case Commits(msgs) => CommitSound(s, msgs);
      case Compacts(from, to, summary, newIds) => CompactSound(s, from, to, summary, newIds);
      case CompactStops(from, to, summary, newIds, writes) => StoppedCompaction(s, from, to, summary, newIds, writes);
      case Rewinds(id) => Snoc(s.recs, HeadRecord(id));
      case Checkpoints(preview) => Snoc(s.recs, CheckpointRecord("ck_" + s.head, s.head, preview));
      case Advances(id) => Snoc(s.recs, CursorRecord(id));
      case Notes(r) => Snoc(s.recs, r);
      case Crashes(k) => CrashSound(s.recs, k);
    }
  }

  /** The states of a run that starts on an empty log. */
  ghost predicate IsRun(states: seq<Store>, ops: seq<Op>) {
    && |states| == |ops| + 1 && states[0] == Store([], "", "")
    && (forall n :: 0 <= n < |ops| && Ok(states[n]) ==> Allowed(states[n], ops[n]) && states[n + 1] == Do(states[n], ops[n]))
  }

  lemma {:induction false} RunSound(states: seq<Store>, ops: seq<Op>, n: nat)
    requires IsRun(states, ops) && n < |states|
    ensures Sound(states[n])
  {
    if n > 0 {
      RunSound(states, ops, n - 1);
      StepSound(states[n - 1], ops[n - 1]);
    }
  }

  /** The parent links from id are p read backwards: they end at a root and meet no node twice. */
  ghost predicate LeadsToRoot(recs: seq<Record>, id: string, p: seq<string>)
    requires WellFormed(recs)
  {
    && |p| > 0 && p[|p| - 1] == id
    && (forall k :: 0 <= k < |p| ==> Linked(recs, p, k))
    && (forall k, l :: 0 <= k < l < |p| ==> p[k] != p[l])
  }

  ghost predicate Linked(recs: seq<Record>, p: seq<string>, k: nat)
    requires WellFormed(recs) && k < |p|
  {
    p[k] in Index(recs) && ParentOf(recs, p[k]) == if k == 0 then "" else p[k - 1]
  }

  /** Whatever was committed, compacted, rewound or lost in a crash, no node is its own ancestor. */
  lemma {:induction false} NoCycles(states: seq<Store>, ops: seq<Op>, n: nat, id: string)
    requires IsRun(states, ops) && n < |states| && id in Index(states[n].recs)
    ensures WellFormed(states[n].recs) && LeadsToRoot(states[n].recs, id, Path(states[n].recs, id))
  {
    RunSound(states, ops, n);
    PathLeadsToRoot(states[n].recs, id);
  }

  lemma {:induction false} PathLeadsToRoot(recs: seq<Record>, id: string)
    requires WellFormed(recs) && id in Index(recs)
    ensures LeadsToRoot(recs, id, Path(recs, id))
  {
    PathRanks(recs, id);
    var p := Path(recs, id);
    forall k | 0 <= k < |p| ensures Linked(recs, p, k) {
      PathLink(recs, id, k);
    }
    forall k, l | 0 <= k < l < |p| ensures p[k] != p[l] {
      PathOrdered(recs, id, k, l);
    }
  }

  lemma {:induction false} PathLink(recs: seq<Record>, id: string, k: nat)
    requires WellFormed(recs) && id in Index(recs) && k < |Path(recs, id)|
    ensures Linked(recs, Path(recs, id), k)
  {
    PathPrefix(recs, id, k);
    var p, x := Path(recs, id), Path(recs, id)[k];
    NodeIdent(recs, x);
    EdgeDown(recs, x);
    var q := ParentOf(recs, x);
    assert p[..k + 1] == Path(recs, q) + [x];
    if q != "" {
      PathRanks(recs, q);
      assert p[k - 1] == p[..k + 1][k - 1];
    }
  }
}
