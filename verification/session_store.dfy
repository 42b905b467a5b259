/** The Store of ai-runtime/session/store.go: fields changed in place, loops as in the source,
    each method proved against the functions of StoreModel. */
module SessionStore {
  import opened Messages
  import opened StoreModel
  import opened StoreTree
  import opened StoreTheorems
  import opened StoreFile
  import opened Events
  import M = StoreModel

  // ---------------------------------------------------------------- the walk is the path

  /** On a well-formed log neither guard of the walk fires before the root. */
  lemma {:induction false} WalkIsPath(recs: seq<Record>, cur: string, visited: set<string>)
    requires WellFormed(recs) && (cur == "" || cur in Index(recs))
    requires forall x :: x in Path(recs, cur) ==> x !in visited
    ensures Reversed(Walk(Index(recs), cur, visited)) == Path(recs, cur)
    decreases |Path(recs, cur)|
  {
    if cur != "" {
      PathRanks(recs, cur);
      PathLeadsToRoot(recs, cur);
      EdgeDown(recs, cur);
      NodeIdent(recs, cur);
      var p := ParentOf(recs, cur);
      var rest := Walk(Index(recs), p, visited + {cur});
      assert Path(recs, cur) == Path(recs, p) + [cur];
      forall x | x in Path(recs, p) ensures x !in visited + {cur} {
        var k :| 0 <= k < |Path(recs, p)| && Path(recs, p)[k] == x;
        assert Path(recs, cur)[k] == x;
      }
      WalkIsPath(recs, p, visited + {cur});
      ReversedCons(cur, rest);
    }
  }

  lemma ReversedCons<T>(x: T, t: seq<T>)
    ensures Reversed([x] + t) == Reversed(t) + [x]
  {}

  /** What ActiveView and activePathIDs return on a sound store. */
  lemma ActiveIsPath(s: M.Store)
    requires Ok(s)
    ensures ActivePath(s.recs, s.head) == Path(s.recs, s.head)
    ensures ActiveView(s.recs, s.head) == View(s.recs, s.head)
  {
    WalkIsPath(s.recs, s.head, {});
    ViewIsPath(s.recs, s.head);
  }

  // ---------------------------------------------------------------- helpers over records

  method BuildIndex(recs: seq<Record>) returns (byId: map<string, Record>)
    ensures byId == Index(recs)
  {
    byId := map[];
    for n := 0 to |recs|
      invariant byId == Index(recs[..n])
    {
      assert recs[..n + 1][..n] == recs[..n];
      if IsNode(recs[n]) { byId := byId[recs[n].id := recs[n]]; }
    }
    assert recs[..|recs|] == recs;
  }

  method WalkUp(recs: seq<Record>, head: string) returns (chain: seq<string>, byId: map<string, Record>)
    ensures byId == Index(recs) && chain == Walk(byId, head, {})
  {
    byId := BuildIndex(recs);
    chain := [];
    var cur := head;
    var visited: set<string> := {};
    while cur != "" && cur !in visited
      invariant chain + Walk(byId, cur, visited) == Walk(byId, head, {})
      decreases byId.Keys - visited, cur != "" && cur !in visited && cur in byId
    {
      if cur !in byId {
        break;
      }
      visited := visited + {cur};
      chain := chain + [cur];
      cur := ParentId(byId[cur]);
    }
  }

  method Reverse<T>(t: seq<T>) returns (r: seq<T>)
    ensures r == Reversed(t)
  {
    r := [];
    for n := 0 to |t|
      invariant r == Reversed(t[..n])
    {
      r := [t[n]] + r;
    }
    assert t[..|t|] == t;
  }

  method BuildActiveView(recs: seq<Record>, head: string) returns (msgs: seq<Message>)
    ensures msgs == ActiveView(recs, head)
  {
    if head == "" {
      return [];
    }
    var chain, byId := WalkUp(recs, head);
    chain := Reverse(chain);
    msgs := [];
    for n := 0 to |chain|
      invariant |msgs| == n && forall k :: 0 <= k < n ==> msgs[k] == Render(byId[chain[k]])
    {
      msgs := msgs + [Render(byId[chain[n]])];
    }
  }

  method FindMetadata(recs: seq<Record>) returns (has: bool)
    ensures has <==> HasMetadata(recs)
  {
    for n := 0 to |recs|
      invariant forall k :: 0 <= k < n ==> !(recs[k].MetadataRecord? && recs[k].sessionId != "")
    {
      if recs[n].MetadataRecord? && recs[n].sessionId != "" {
        return true;
      }
    }
    return false;
  }

  /** The last head and the last cursor on record, read from the end. */
  method ScanBack(recs: seq<Record>) returns (head: string, cursor: string)
    ensures head == LastHead(recs) && cursor == LastCursor(recs)
  {
    head, cursor := "", "";
    var i := |recs|;
    assert recs[..i] == recs;
    while i > 0
      invariant 0 <= i <= |recs|
      invariant LastHead(recs) == if head != "" then head else LastHead(recs[..i])
      invariant LastCursor(recs) == if cursor != "" then cursor else LastCursor(recs[..i])
    {
      i := i - 1;
      assert recs[..i + 1][..i] == recs[..i];
      if head == "" && recs[i].HeadRecord? { head := recs[i].tail; }
      if cursor == "" && recs[i].CursorRecord? { cursor := recs[i].msgId; }
      if head != "" && cursor != "" {
        break;
      }
    }
  }

  /** Where the covered range starts and ends on the active path; the last match counts. */
  method Locate(ids: seq<string>, from: string, to: string) returns (fromIdx: int, toIdx: int)
    ensures fromIdx == LastIndex(ids, from) && toIdx == LastIndex(ids, to)
  {
    fromIdx, toIdx := -1, -1;
    for i := 0 to |ids|
      invariant fromIdx == LastIndex(ids[..i], from) && toIdx == LastIndex(ids[..i], to)
    {
      assert ids[..i + 1][..i] == ids[..i];
      if ids[i] == from { fromIdx := i; }
      if ids[i] == to { toIdx := i; }
    }
    assert ids[..|ids|] == ids;
  }

  datatype CompactOutcome = Compacted | Refused | Failed

  class Store {
    var recs: seq<Record>
    var head: string
    var cursor: string
    var file: seq<Record>

    /** The fields as one value. */
    function St(): M.Store
      reads this
    {
      M.Store(recs, head, cursor)
    }

    ghost predicate Valid()
      reads this
    {
      Mirrors(file, recs)
    }

    /** Open on the records that were read back; the first opening adds the identity. */
    constructor (loaded: seq<Record>, sessionId: string)
      ensures Valid() && file == recs
      ensures St() == Reopen(if HasMetadata(loaded) then loaded else loaded + [MetadataRecord(sessionId)])
    {
      var has := FindMetadata(loaded);
      var all := if has then loaded else loaded + [MetadataRecord(sessionId)];
      var h, c := ScanBack(all);
      recs, head, cursor, file := all, h, c, all;
    }

    method ActiveView() returns (msgs: seq<Message>)
      ensures msgs == M.ActiveView(recs, head)
    {
      msgs := BuildActiveView(recs, head);
    }

    method ActivePathIDs() returns (ids: seq<string>)
      ensures ids == ActivePath(recs, head)
    {
      var chain, _ := WalkUp(recs, head);
      ids := Reverse(chain);
    }

    method HasID(id: string) returns (found: bool)
      ensures found <==> id in Index(recs)
    {
      var n := 0;
      found := false;
      while n < |recs|
        invariant 0 <= n <= |recs| && id !in Index(recs[..n])
      {
        assert recs[..n + 1][..n] == recs[..n];
        if IsNode(recs[n]) && recs[n].id == id {
          StaysKnown(recs, n + 1, id);
          return true;
        }
        n := n + 1;
      }
      assert recs[..|recs|] == recs;
    }

    /** A new message and the head: it enters memory when both are on file. left appends go through. */
    method Put(m: Message, prev: string, left: nat) returns (ok: bool)
      requires Valid() && m.id !in Index(recs)
      modifies this`recs, this`head, this`file
      ensures var rec := MsgRecord(m.id, prev, m.body, "");
        && Valid() && ok == (left >= 2)
        && recs == old(recs) + (if ok then [rec, HeadRecord(m.id)] else [])
        && file == old(file) + (if ok then [rec, HeadRecord(m.id)] else if left == 1 then [rec] else [])
        && head == if ok then m.id else old(head)
    {
      var rec := MsgRecord(m.id, prev, m.body, "");
      if left == 0 {
        return false;
      }
      if left == 1 {
        MirrorsOrphan(file, recs, rec);
        file := file + [rec];
        return false;
      }
      MirrorsAll(file, recs, [rec, HeadRecord(m.id)]);
      file := file + [rec, HeadRecord(m.id)];
      recs := recs + [rec, HeadRecord(m.id)];
      head := m.id;
      ok := true;
    }

    /** writes: how many appends go through before one fails; a message takes two. failed: the message at
        which an append failed. */
    method Commit(msgs: seq<Message>, writes: nat) returns (committed: seq<Message>, failed: Option<nat>)
      requires Valid()
      modifies this
      ensures Valid()
      ensures failed.Some? ==> failed.value < |msgs|
      ensures var done := if failed.Some? then msgs[..failed.value] else msgs;
        St() == M.Commit(old(St()), done) && committed == Taken(old(St()), done)
      ensures failed.None? ==> writes >= 2 * |committed|
      ensures failed.Some? ==>
        && 2 * |committed| <= writes <= 2 * |committed| + 1
        && msgs[failed.value].id != "" && msgs[failed.value].id !in Index(recs)
      ensures old(recs) <= recs
      ensures file == old(file) + recs[|old(recs)|..]
        + if failed.Some? && writes % 2 == 1 then [MsgRecord(msgs[failed.value].id, head, msgs[failed.value].body, "")] else []
    {
      hide Mirrors, Index;
      committed := [];
      var prev := head;
      var left: nat := writes;
      ghost var before := St();
      for n := 0 to |msgs|
        invariant St() == M.Commit(before, msgs[..n]) && committed == Taken(before, msgs[..n]) && prev == head
        invariant left + 2 * |committed| == writes && Valid()
        invariant old(recs) <= recs && file == old(file) + recs[|old(recs)|..]
      {
        assert msgs[..n + 1][..n] == msgs[..n];
        var m := msgs[n];
        if m.id == "" {
          continue;
        }
        CommitIds(before, msgs[..n], m.id);
        var dup := HasID(m.id);
        if dup {
          continue;
        }
        var ok := Put(m, prev, left);
        if !ok {
          return committed, Some(n);
        }
        left := left - 2;
        prev := m.id;
        committed := committed + [m];
      }
      assert msgs[..|msgs|] == msgs;
      failed := None;
    }

    /** A record on file and in memory. */
    method Append(r: Record)
      requires Valid()
      modifies this`recs, this`file
      ensures Valid() && recs == old(recs) + [r] && file == old(file) + [r]
    {
      MirrorsOne(file, recs, r);
      file := file + [r];
      recs := recs + [r];
    }

    /** newIds are the random ids drawn for the copies, one per retained position; writes says how many
        appends go through. */
    method Compact(coveredFrom: string, coveredTo: string, summary: string, newIds: seq<string>, writes: nat)
      returns (out: CompactOutcome)
      requires Valid() && |newIds| >= |ActivePath(recs, head)|
      modifies this
      ensures Valid() && old(recs) <= recs && file == old(file) + recs[|old(recs)|..]
      ensures (out.Compacted?, St())
        == M.CompactCut(old(St()), old(ActivePath(recs, head)), coveredFrom, coveredTo, summary, newIds, writes)
      ensures out.Refused? <==> !M.Compact(old(St()), old(ActivePath(recs, head)), coveredFrom, coveredTo, summary, newIds).0
    {
      hide Mirrors, Index, Clones, Tip, CloneOf, M.RemapCursor, LastIndex;
      if head == "" {
        return Refused;
      }
      var activeIDs := ActivePathIDs();
      if |activeIDs| == 0 {
        return Refused;
      }
      var fromIdx, toIdx := Locate(activeIDs, coveredFrom, coveredTo);
      if fromIdx < 0 || toIdx < 0 || fromIdx > toIdx {
        return Refused;
      }
      ghost var before, path := St(), activeIDs;
      var ok := Fold(activeIDs, fromIdx, toIdx, coveredFrom, coveredTo, summary, newIds, writes);
      CutShape(before, path, coveredFrom, coveredTo, fromIdx, toIdx, summary, newIds, writes);
      hide *;
      out := if ok then Compacted else Failed;
    }

    /** The part of Compact that appends: compact node, copies, head. */
    method Fold(activeIDs: seq<string>, fromIdx: nat, toIdx: nat, coveredFrom: string, coveredTo: string,
                summary: string, newIds: seq<string>, writes: nat) returns (ok: bool)
      requires Valid() && fromIdx <= toIdx < |activeIDs| <= |newIds|
      modifies this
      ensures Valid() && old(recs) <= recs && file == old(file) + recs[|old(recs)|..]
      ensures var idx, retain, compactId := Index(old(recs)), activeIDs[toIdx + 1..], CompactId(coveredTo);
        var node := CompactRecord(compactId, if fromIdx > 0 then activeIDs[fromIdx - 1] else "", summary, coveredFrom, coveredTo);
        var tip := Tip(idx, retain, newIds, compactId);
        var all := old(recs) + [node] + Clones(idx, retain, newIds, compactId) + [HeadRecord(tip)];
        && (ok <==> |old(recs)| + writes >= |all|)
        && recs == (if ok then all else all[..|old(recs)| + writes])
        && head == (if ok then tip else old(head))
        && cursor == if |old(recs)| + writes + 1 >= |all| then M.RemapCursor(old(St()), idx, retain, newIds, tip) else old(cursor)
    {
      hide Mirrors, Index, Clones, Tip, CloneOf;
      ghost var start := recs;
      var compactParent := "";
      if fromIdx > 0 { compactParent := activeIDs[fromIdx - 1]; }
      var retainIDs := activeIDs[toIdx + 1..];
      var byId := BuildIndex(recs);
      var compactID := "s_" + coveredTo;
      var node := CompactRecord(compactID, compactParent, summary, coveredFrom, coveredTo);
      ghost var copies := Clones(byId, retainIDs, newIds, compactID);
      ghost var all := start + [node] + copies + [HeadRecord(Tip(byId, retainIDs, newIds, compactID))];
      CutAt(start, node, copies, HeadRecord(Tip(byId, retainIDs, newIds, compactID)));
      if writes == 0 {
        return false;
      }
      Append(node);
      var cloneMap, prevClone, left, cloned := CloneRetained(retainIDs, byId, compactID, newIds, writes - 1);
      if !cloned {
        return false;
      }
      RemapCursor(retainIDs, cloneMap, prevClone, byId, newIds);
      var newHead := compactID;
      if prevClone != compactID { newHead := prevClone; }
      if left == 0 {
        return false;
      }
      Append(HeadRecord(newHead));
      head := newHead;
      ok := true;
    }

    method CloneRetained(retainIDs: seq<string>, byId: map<string, Record>, compactID: string, newIds: seq<string>, writes: nat)
      returns (cloneMap: map<string, string>, prevClone: string, left: nat, ok: bool)
      requires Valid() && |newIds| >= |retainIDs|
      modifies this`recs, this`file
      ensures Valid()
      ensures var copies := Clones(byId, retainIDs, newIds, compactID);
        var made := if writes >= |copies| then copies else copies[..writes];
        && (ok <==> writes >= |copies|) && recs == old(recs) + made && file == old(file) + made
        && (ok ==> left == writes - |copies|)
      ensures ok ==> prevClone == Tip(byId, retainIDs, newIds, compactID)
      ensures ok ==> forall x :: CloneOf(byId, retainIDs, newIds, x) == if x in cloneMap then cloneMap[x] else x
    {
      hide Mirrors, Index;
      cloneMap, prevClone, left := map[], compactID, writes;
      for n := 0 to |retainIDs|
        invariant var copies := Clones(byId, retainIDs[..n], newIds, compactID);
          |copies| + left == writes && recs == old(recs) + copies && file == old(file) + copies && Valid()
        invariant prevClone == Tip(byId, retainIDs[..n], newIds, compactID)
        invariant forall x :: CloneOf(byId, retainIDs[..n], newIds, x) == if x in cloneMap then cloneMap[x] else x
      {
        assert retainIDs[..n + 1][..n] == retainIDs[..n];
        var origID := retainIDs[n];
        if origID !in byId || !byId[origID].MsgRecord? {
          continue;
        }
        if left == 0 {
          ClonesPrefix(byId, retainIDs, newIds, compactID, n + 1);
          ClonesPrefix(byId, retainIDs[..n + 1], newIds, compactID, n);
          return cloneMap, prevClone, 0, false;
        }
        left := left - 1;
        Append(MsgRecord(newIds[n], prevClone, byId[origID].body, origID));
        cloneMap := cloneMap[origID := newIds[n]];
        prevClone := newIds[n];
      }
      assert retainIDs[..|retainIDs|] == retainIDs;
      ok := true;
    }

    method RemapCursor(retainIDs: seq<string>, cloneMap: map<string, string>, lastClone: string,
                       ghost byId: map<string, Record>, ghost newIds: seq<string>)
      requires |newIds| >= |retainIDs|
      requires forall x :: CloneOf(byId, retainIDs, newIds, x) == if x in cloneMap then cloneMap[x] else x
      modifies this`cursor
      ensures cursor == M.RemapCursor(old(St()), byId, retainIDs, newIds, lastClone)
    {
      if cursor == "" {
        return;
      }
      for n := 0 to |retainIDs|
        invariant cursor == old(cursor) && forall k :: 0 <= k < n ==> retainIDs[k] != cursor
      {
        if cursor == retainIDs[n] {
          if retainIDs[n] in cloneMap { cursor := cloneMap[retainIDs[n]]; }
          return;
        }
      }
      if cursor == head { cursor := lastClone; }
    }

    /** ok: the append goes through; without it nothing changes. */
    method SetHead(atID: string, ok: bool)
      requires Valid()
      modifies this
      ensures Valid() && St() == (if ok then M.SetHead(old(St()), atID) else old(St()))
      ensures file == old(file) + if ok then [HeadRecord(atID)] else []
    {
      if !ok {
        return;
      }
      Append(HeadRecord(atID));
      head := atID;
    }

    method Checkpoint(preview: string, writes: bool) returns (ok: bool)
      requires Valid()
      modifies this
      ensures Valid() && ok == (old(head) != "" && writes)
      ensures St() == (if writes then M.Checkpoint(old(St()), preview) else old(St()))
      ensures file == old(file) + recs[|old(recs)|..] && old(recs) <= recs
    {
      if head == "" || !writes {
        return false;
      }
      Append(CheckpointRecord("ck_" + head, head, preview));
      ok := true;
    }

    /** The record is appended once; afterwards the answer is yes without a write. */
    method MarkArchived(writes: bool) returns (ok: bool)
      requires Valid()
      modifies this
      ensures Valid() && ok == (ArchivedRecord in old(recs) || writes)
      ensures recs == old(recs) + if ok && ArchivedRecord !in old(recs) then [ArchivedRecord] else []
      ensures file == old(file) + recs[|old(recs)|..] && head == old(head) && cursor == old(cursor)
    {
      for n := 0 to |recs|
        invariant ArchivedRecord !in recs[..n]
      {
        if recs[n].ArchivedRecord? {
          return true;
        }
      }
      assert recs[..|recs|] == recs;
      if !writes {
        return false;
      }
      Append(ArchivedRecord);
      ok := true;
    }

    method AdvanceCursor(id: string, ok: bool)
      requires Valid()
      modifies this
      ensures Valid() && St() == (if ok then M.AdvanceCursor(old(St()), id) else old(St()))
      ensures file == old(file) + if ok then [CursorRecord(id)] else []
    {
      if !ok {
        return;
      }
      Append(CursorRecord(id));
      cursor := id;
    }

    method PendingAfterCursor() returns (out: seq<Message>)
      ensures out == Pending(M.ActiveView(recs, head), cursor)
    {
      hide M.ActiveView, IsReal;
      var active := ActiveView();
      if |active| == 0 {
        return [];
      }
      var realMsgs: seq<Message> := [];
      for n := 0 to |active|
        invariant realMsgs == Reals(active[..n])
      {
        assert active[..n + 1][..n] == active[..n];
        if active[n].id != "" && IsReal(active[n]) { realMsgs := realMsgs + [active[n]]; }
      }
      assert active[..|active|] == active;
      if cursor == "" {
        return realMsgs;
      }
      var cursorIdx := -1;
      for n := 0 to |realMsgs|
        invariant cursorIdx == -1 && forall k :: 0 <= k < n ==> realMsgs[k].id != cursor
      {
        if realMsgs[n].id == cursor {
          cursorIdx := n;
          break;
        }
      }
      if cursorIdx < 0 {
        return realMsgs;
      }
      return realMsgs[cursorIdx + 1..];
    }
  }

  lemma {:induction false} StaysKnown(recs: seq<Record>, n: nat, id: string)
    requires n <= |recs| && id in Index(recs[..n])
    ensures id in Index(recs)
  {
    if n == |recs| {
      assert recs[..n] == recs;
    } else {
      assert recs[..n] == recs[..|recs| - 1][..n];
      StaysKnown(recs[..|recs| - 1], n, id);
    }
  }

  /** The copies of a prefix come first. */
  lemma {:induction false} ClonesPrefix(idx: map<string, Record>, retain: seq<string>, newIds: seq<string>, cid: string, n: nat)
    requires |newIds| >= |retain| >= n
    ensures Clones(idx, retain[..n], newIds, cid) <= Clones(idx, retain, newIds, cid)
    decreases |retain|
  {
    if n == |retain| {
      assert retain[..n] == retain;
    } else {
      assert retain[..|retain| - 1][..n] == retain[..n];
      ClonesPrefix(idx, retain[..|retain| - 1], newIds, cid, n);
    }
  }

  /** CompactCut written out, for a range that is found. */
  lemma {:induction false} CutShape(s: M.Store, path: seq<string>, from: string, to: string, i: nat, j: nat, summary: string, newIds: seq<string>, writes: nat)
    requires s.head != "" && i == LastIndex(path, from) && j == LastIndex(path, to) && i <= j && |newIds| >= |path|
    ensures var idx, retain, compactId := Index(s.recs), path[j + 1..], CompactId(to);
      var node := CompactRecord(compactId, if i > 0 then path[i - 1] else "", summary, from, to);
      var tip := Tip(idx, retain, newIds, compactId);
      var all := s.recs + [node] + Clones(idx, retain, newIds, compactId) + [HeadRecord(tip)];
      var ok := |s.recs| + writes >= |all|;
      && M.Compact(s, path, from, to, summary, newIds).0
      && M.CompactCut(s, path, from, to, summary, newIds, writes)
         == (ok, M.Store(if ok then all else all[..|s.recs| + writes], if ok then tip else s.head,
                         if |s.recs| + writes + 1 >= |all| then M.RemapCursor(s, idx, retain, newIds, tip) else s.cursor))
  {}

  /** Where the appends of a compaction may stop. */
  lemma CutAt(start: seq<Record>, node: Record, copies: seq<Record>, last: Record)
    ensures var all := start + [node] + copies + [last];
      && |all| == |start| + |copies| + 2 && all[..|start|] == start
      && (forall w :: 0 <= w <= |copies| ==> all[..|start| + 1 + w] == start + [node] + copies[..w])
  {}
}
