/** What checkpoints are for, and what single records say: the place a checkpoint names, the head and the
    cursor that a reopening finds, the range a summary stands for and the message a copy was made of. */
module StoreCheckpoint {
  import opened Messages
  import opened StoreModel
  import opened StoreTree
  import opened StoreCompaction
  import opened StoreTheorems

  // ---------------------------------------------------------------- head and cursor of a file

  /** The last record that names one: x, and nothing behind it. */
  predicate LastNames(recs: seq<Record>, x: string, names: Record -> string) {
    if x == "" then forall k :: 0 <= k < |recs| ==> names(recs[k]) == ""
    else exists k :: 0 <= k < |recs| && names(recs[k]) == x && forall l :: k < l < |recs| ==> names(recs[l]) == ""
  }

  function TailOf(r: Record): string {
    if r.HeadRecord? then r.tail else ""
  }

  function CursorOf(r: Record): string {
    if r.CursorRecord? then r.msgId else ""
  }

  lemma LastNamesSnoc(recs: seq<Record>, r: Record, x: string, names: Record -> string)
    requires LastNames(recs, x, names)
    ensures LastNames(recs + [r], if names(r) == "" then x else names(r), names)
  {
    var all := recs + [r];
    if names(r) != "" {
      assert names(all[|recs|]) == names(r);
    } else if x != "" {
      var k :| 0 <= k < |recs| && names(recs[k]) == x && forall l :: k < l < |recs| ==> names(recs[l]) == "";
      assert names(all[k]) == x;
    }
  }

  /** A reopening finds the head and the cursor of the last records that name one. */
  lemma {:induction false} ReopenFinds(recs: seq<Record>)
    ensures LastNames(recs, Reopen(recs).head, TailOf) && LastNames(recs, Reopen(recs).cursor, CursorOf)
    ensures Reopen(recs).recs == recs
  {
    if recs != [] {
      var n := |recs| - 1;
      ReopenFinds(recs[..n]);
      LastNamesSnoc(recs[..n], recs[n], LastHead(recs[..n]), TailOf);
      LastNamesSnoc(recs[..n], recs[n], LastCursor(recs[..n]), CursorOf);
      assert recs == recs[..n] + [recs[n]];
    }
  }

  /** A cursor that was moved is the one a reopening finds. */
  lemma {:induction false} CursorStays(s: Store, id: string)
    requires id != ""
    ensures var t := AdvanceCursor(s, id); t.cursor == id && Reopen(t.recs).cursor == id && t.head == s.head
  {
    assert (s.recs + [CursorRecord(id)])[..|s.recs|] == s.recs;
  }

  // ---------------------------------------------------------------- checkpoints

  /** Nothing that happens from m on up to n makes a new node with an id that stands below id, and no crash
      takes records away. */
  ghost predicate LeavesBe(states: seq<Store>, ops: seq<Op>, m: nat, n: nat, id: string)
    requires n <= |ops| && |states| > |ops| && m < |states|
  {
    WellFormed(states[m].recs) && id in Index(states[m].recs) &&
    forall i :: m <= i < n ==>
      !ops[i].Crashes? && (SummaryId(ops[i]) == "" || SummaryId(ops[i]) !in Path(states[m].recs, id))
  }

  /** A node below which nothing changes shows what it showed. */
  ghost predicate Shown(recs: seq<Record>, all: seq<Record>, id: string) {
    && WellFormed(recs) && WellFormed(all) && id in Index(recs) && id in Index(all)
    && Path(all, id) == Path(recs, id) && View(all, id) == View(recs, id)
  }

  lemma {:induction false} ShownOn(recs: seq<Record>, mid: seq<Record>, more: seq<Record>, id: string)
    requires Shown(recs, mid, id) && WellFormed(mid + more)
    requires forall k :: 0 <= k < |more| && IsNode(more[k]) ==> more[k].id !in Path(recs, id)
    ensures Shown(recs, mid + more, id)
  {
    if more == [] {
      assert mid + more == mid;
    } else {
      var n := |more| - 1;
      assert mid + more == (mid + more[..n]) + [more[n]];
      PrefixWellFormed(mid + more, |mid| + n);
      assert (mid + more)[..|mid| + n] == mid + more[..n];
      ShownOn(recs, mid, more[..n], id);
      PathSnoc(mid + more[..n], more[n], id);
      ViewSnoc(mid + more[..n], more[n], id);
    }
  }

  /** What an operation appends: nodes with new ids, and a compaction one with the id of its summary. */
  ghost predicate Appends(recs: seq<Record>, all: seq<Record>, compactId: string) {
    && recs <= all
    && forall k :: |recs| <= k < |all| && IsNode(all[k]) ==> all[k].id !in Index(recs) || (compactId != "" && all[k].id == compactId)
  }

  lemma {:induction false} CommitAppends(s: Store, msgs: seq<Message>)
    ensures Appends(s.recs, Commit(s, msgs).recs, "")
  {
    if msgs != [] {
      var n := |msgs| - 1;
      CommitAppends(s, msgs[..n]);
      KnownOn(s, msgs[..n]);
    }
  }

  lemma {:induction false} KnownOn(s: Store, msgs: seq<Message>)
    ensures forall x :: x in Index(s.recs) ==> x in Index(Commit(s, msgs).recs)
  {
    forall x | x in Index(s.recs) ensures x in Index(Commit(s, msgs).recs) { CommitIds(s, msgs, x); }
  }

  lemma {:induction false} CompactAppends(s: Store, path: seq<string>, from: string, to: string, summary: string, newIds: seq<string>, writes: nat)
    requires |newIds| >= |path| && FreshIds(s.recs, newIds)
    ensures Appends(s.recs, Compact(s, path, from, to, summary, newIds).1.recs, CompactId(to))
    ensures Appends(s.recs, CompactCut(s, path, from, to, summary, newIds, writes).1.recs, CompactId(to))
  {
    hide Index, Clones, Tip, CloneOf, LastIndex, RemapCursor;
    var full := Compact(s, path, from, to, summary, newIds);
    if full.0 {
      var retain := path[LastIndex(path, to) + 1..];
      CloneNodes(Index(s.recs), retain, newIds, CompactId(to));
      var copies := Clones(Index(s.recs), retain, newIds, CompactId(to));
      forall k | |s.recs| <= k < |full.1.recs| && IsNode(full.1.recs[k])
        ensures full.1.recs[k].id !in Index(s.recs) || full.1.recs[k].id == CompactId(to)
      {
        if |s.recs| < k < |s.recs| + 1 + |copies| {
          assert full.1.recs[k] == copies[k - |s.recs| - 1];
          assert full.1.recs[k].id in newIds;
        }
      }
    }
  }

  /** The id of the summary an operation makes. */
  function SummaryId(op: Op): string {
    match op
    case Compacts(_, to, _, _) => CompactId(to)
    case CompactStops(_, to, _, _, _) => CompactId(to)
    case _ => ""
  }

  lemma {:induction false} DoAppends(s: Store, op: Op)
    requires Ok(s) && Allowed(s, op) && !op.Crashes?
    ensures Appends(s.recs, Do(s, op).recs, SummaryId(op))
  {
    hide Index, Path, View, WellFormed, Compact, CompactCut, Commit, CompactId;
    var path := Path(s.recs, s.head);
    match op {
      case Commits(msgs) => CommitAppends(s, msgs);
      case Compacts(from, to, summary, newIds) => CompactAppends(s, path, from, to, summary, newIds, 0);
      case CompactStops(from, to, summary, newIds, writes) => CompactAppends(s, path, from, to, summary, newIds, writes);
      case _ =>
    }
  }

  lemma {:induction false} StepShown(recs: seq<Record>, s: Store, op: Op, id: string)
    requires Sound(s) && Allowed(s, op) && !op.Crashes? && Shown(recs, s.recs, id)
    requires SummaryId(op) !in Path(recs, id) || SummaryId(op) == ""
    ensures Shown(recs, Do(s, op).recs, id)
  {
    StepSound(s, op);
    DoAppends(s, op);
    PathKnown(s.recs, id);
    hide Do, Index, Path, View, WellFormed;
    var all := Do(s, op).recs;
    var more := all[|s.recs|..];
    assert all == s.recs + more;
    forall k | 0 <= k < |more| && IsNode(more[k]) ensures more[k].id !in Path(recs, id) {
      assert more[k] == all[|s.recs| + k];
    }
    ShownOn(recs, s.recs, more, id);
  }

  /** Between two states of an execution, a node shows the same as long as no crash takes records away and
      no compaction makes the id of a summary below it again. */
  lemma {:induction false} ShowsOn(states: seq<Store>, ops: seq<Op>, m: nat, n: nat, id: string)
    requires IsRun(states, ops) && m <= n < |states| && LeavesBe(states, ops, m, n, id)
    ensures Shown(states[m].recs, states[n].recs, id)
  {
    RunSound(states, ops, n);
    if m < n {
      ShowsOn(states, ops, m, n - 1, id);
      RunSound(states, ops, n - 1);
      StepShown(states[m].recs, states[n - 1], ops[n - 1], id);
    }
  }

  /** A checkpoint names the place it was taken at, and going back to it later shows what was shown then. */
  lemma {:induction false} CheckpointRestores(states: seq<Store>, ops: seq<Op>, m: nat, n: nat, preview: string)
    requires IsRun(states, ops) && m < n < |states| && ops[m] == Checkpoints(preview) && states[m].head != ""
    ensures var recs := states[m + 1].recs;
      |recs| == |states[m].recs| + 1 && recs[|recs| - 1] == CheckpointRecord("ck_" + states[m].head, states[m].head, preview)
    ensures states[m + 1].head == states[m].head
    ensures LeavesBe(states, ops, m, n, states[m].head) ==>
      var t := SetHead(states[n], states[m].head);
      Sound(t) && Sound(states[m]) && t.head == states[m].head && View(t.recs, t.head) == View(states[m].recs, states[m].head)
  {
    RunSound(states, ops, m);
    if LeavesBe(states, ops, m, n, states[m].head) {
      RunSound(states, ops, n);
      ShowsOn(states, ops, m, n, states[m].head);
      StepSound(states[n], Rewinds(states[m].head));
      ViewSnoc(states[n].recs, HeadRecord(states[m].head), states[m].head);
    }
  }

  // ---------------------------------------------------------------- what a compaction puts on record

  /** The summary names the range it stands for, and each copy the message it was made of and its body; the
      head comes last. */
  lemma {:induction false} CompactRecordsSay(s: Store, from: string, to: string, i: nat, j: nat, summary: string, newIds: seq<string>)
    requires Ok(s) && s.head != "" && |newIds| >= |Path(s.recs, s.head)| && FreshIds(s.recs, newIds)
    requires i == LastIndex(Path(s.recs, s.head), from) && j == LastIndex(Path(s.recs, s.head), to) && i <= j
    ensures var r, path := Compact(s, Path(s.recs, s.head), from, to, summary, newIds).1, Path(s.recs, s.head);
      && |r.recs| > |s.recs| + 1
      && r.recs[|s.recs|] == CompactRecord(CompactId(to), if i > 0 then path[i - 1] else "", summary, from, to)
      && (forall k :: |s.recs| < k < |r.recs| - 1 ==> CopyOf(s.recs, path[j + 1..], newIds, r.recs[k]))
      && r.recs[|r.recs| - 1] == HeadRecord(r.head)
  {
    var path := Path(s.recs, s.head);
    var copies := Clones(Index(s.recs), path[j + 1..], newIds, CompactId(to));
    hide Clones, Tip, Index, Path, WellFormed, LastIndex, RemapCursor, FreshIds, CopyOf;
    CopiesSay(s.recs, path[j + 1..], newIds, CompactId(to));
    var r := Compact(s, path, from, to, summary, newIds).1;
    forall k | |s.recs| < k < |r.recs| - 1 ensures CopyOf(s.recs, path[j + 1..], newIds, r.recs[k]) {
      assert r.recs[k] == copies[k - |s.recs| - 1];
      assert r.recs[k] in copies;
    }
  }

  /** r is the copy of some retained message. */
  ghost predicate CopyOf(recs: seq<Record>, retain: seq<string>, newIds: seq<string>, r: Record) {
    exists k :: 0 <= k < |retain| && k < |newIds| && CopyAt(recs, retain, newIds, r, k)
  }

  ghost predicate CopyAt(recs: seq<Record>, retain: seq<string>, newIds: seq<string>, r: Record, k: nat)
    requires k < |retain| && k < |newIds|
  {
    && r.MsgRecord? && retain[k] in Index(recs) && Index(recs)[retain[k]].MsgRecord?
    && r.id == newIds[k] && r.cloneOf == retain[k] && r.body == Index(recs)[retain[k]].body
  }

  lemma {:induction false} CopiesSay(recs: seq<Record>, retain: seq<string>, newIds: seq<string>, cid: string)
    requires |newIds| >= |retain|
    ensures var copies := Clones(Index(recs), retain, newIds, cid);
      forall r :: r in copies ==> CopyOf(recs, retain, newIds, r)
  {
    if retain != [] {
      var n := |retain| - 1;
      CopiesSay(recs, retain[..n], newIds, cid);
      var before, copies := Clones(Index(recs), retain[..n], newIds, cid), Clones(Index(recs), retain, newIds, cid);
      forall r | r in copies ensures CopyOf(recs, retain, newIds, r) {
        if r in before {
          assert CopyOf(recs, retain[..n], newIds, r);
          var l :| 0 <= l < |retain[..n]| && l < |newIds| && CopyAt(recs, retain[..n], newIds, r, l);
          assert CopyAt(recs, retain, newIds, r, l);
        } else {
          assert CopyAt(recs, retain, newIds, r, n);
        }
      }
    }
  }
}
