/** Executions of a store that carry its file beside its memory. Appends fail, with or without leaving
    their record on file, and a restart reads whatever the file holds by then. */
module StoreDisk {
  import opened Messages
  import opened StoreModel
  import opened StoreTree
  import opened StoreCompaction
  import opened StoreTheorems
  import opened StoreWeave
  import S = SessionStore

  datatype Disk = Disk(mem: Store, file: seq<Record>)

  /** An operation whose records all go to both; a record whose append fails after it was written; a
      restart on the first k records of the file. */
  datatype Step = Works(op: Op) | Strays(r: Record) | Restarts(k: nat)

  // ---------------------------------------------------------------- operations on any log

  /** What callers owe, and the operations, with the walk of the source in place of the path. */
  ghost predicate MayWork(s: Store, op: Op) {
    match op
    case Commits(msgs) => PlainIds(s.recs, msgs)
    case Compacts(_, _, _, newIds) => |newIds| >= |ActivePath(s.recs, s.head)| && FreshIds(s.recs, newIds)
    case CompactStops(_, _, _, newIds, _) => |newIds| >= |ActivePath(s.recs, s.head)| && FreshIds(s.recs, newIds)
    case Rewinds(id) => id == "" || id in Index(s.recs)
    case Notes(r) => r.MetadataRecord? || r.WorkspaceRecord? || r.ArchivedRecord?
    case Crashes(_) => false
    case _ => true
  }

  ghost function Work(s: Store, op: Op): Store
    requires MayWork(s, op)
  {
    match op
    case Commits(msgs) => Commit(s, msgs)
    case Compacts(from, to, summary, newIds) => Compact(s, ActivePath(s.recs, s.head), from, to, summary, newIds).1
    case CompactStops(from, to, summary, newIds, writes) =>
      CompactCut(s, ActivePath(s.recs, s.head), from, to, summary, newIds, writes).1
    case Rewinds(id) => SetHead(s, id)
    case Checkpoints(preview) => Checkpoint(s, preview)
    case Advances(id) => AdvanceCursor(s, id)
    case Notes(r) => s.(recs := s.recs + [r])
  }

  /** A record that an operation may write now. A head may also name what was left on file just before. */
  ghost predicate MayStray(d: Disk, r: Record) {
    match r
    case MsgRecord(id, parent, _, _) =>
      id != "" && !Prefixed(id) && id !in Index(d.mem.recs) && (parent == "" || parent in Index(d.mem.recs))
    case CompactRecord(id, parent, _, _, to) =>
      var path := ActivePath(d.mem.recs, d.mem.head);
      exists i, j :: 0 <= i <= j < |path| && Spans(path, i, j, id, parent, to)
    case HeadRecord(tail) => tail == "" || tail in Index(d.file)
    case _ => true
  }

  predicate Spans(path: seq<string>, i: nat, j: nat, id: string, parent: string, to: string)
    requires i <= j < |path|
  {
    path[j] == to && id == CompactId(to) && parent == if i > 0 then path[i - 1] else ""
  }

  function Added(before: seq<Record>, after: seq<Record>): seq<Record> {
    if before <= after then after[|before|..] else []
  }

  ghost predicate MayHappen(d: Disk, e: Step) {
    match e
    case Works(op) => MayWork(d.mem, op)
    case Strays(r) => MayStray(d, r)
    case Restarts(k) => k <= |d.file|
  }

  ghost function Happens(d: Disk, e: Step): Disk
    requires MayHappen(d, e)
  {
    match e
    case Works(op) =>
      var s := Work(d.mem, op);
      Disk(s, d.file + Added(d.mem.recs, s.recs))
    case Strays(r) => d.(file := d.file + [r])
    case Restarts(k) => Disk(Reopen(d.file[..k]), d.file[..k])
  }

  ghost predicate HappensAt(states: seq<Disk>, steps: seq<Step>, n: nat) {
    n < |steps| && n + 1 < |states| && MayHappen(states[n], steps[n]) && states[n + 1] == Happens(states[n], steps[n])
  }

  ghost predicate IsDiskRun(states: seq<Disk>, steps: seq<Step>) {
    && |states| == |steps| + 1 && states[0] == Disk(Store([], "", ""), [])
    && forall n :: 0 <= n < |steps| ==> HappensAt(states, steps, n)
  }

  // ---------------------------------------------------------------- one log for another

  /** t behaves as s does: it knows the same nodes, head and cursor; and it is sound. */
  ghost predicate StandsFor(t: Store, s: Store) {
    Sound(t) && Index(t.recs) == Index(s.recs) && t.head == s.head && t.cursor == s.cursor
  }

  /** The operation adds the same records and moves head and cursor alike. */
  ghost predicate Alike(s: Store, t: Store, s': Store, t': Store) {
    && s.recs <= s'.recs && t.recs <= t'.recs && s'.recs[|s.recs|..] == t'.recs[|t.recs|..]
    && t'.head == s'.head && t'.cursor == s'.cursor
  }

  lemma {:induction false} SameIndex(a: seq<Record>, b: seq<Record>, more: seq<Record>)
    requires Index(a) == Index(b)
    ensures Index(a + more) == Index(b + more)
  {
    if more == [] {
      assert a + more == a && b + more == b;
    } else {
      var n := |more| - 1;
      SameIndex(a, b, more[..n]);
      IndexSnoc(a + more[..n], more[n]);
      IndexSnoc(b + more[..n], more[n]);
      assert a + more == a + more[..n] + [more[n]] && b + more == b + more[..n] + [more[n]];
    }
  }

  lemma AlikeIndex(s: Store, t: Store, s': Store, t': Store)
    requires Index(s.recs) == Index(t.recs) && Alike(s, t, s', t')
    ensures Index(s'.recs) == Index(t'.recs)
  {
    SameIndex(s.recs, t.recs, s'.recs[|s.recs|..]);
    assert s'.recs == s.recs + s'.recs[|s.recs|..] && t'.recs == t.recs + t'.recs[|t.recs|..];
  }

  lemma {:induction false} CommitAlike(s: Store, t: Store, msgs: seq<Message>)
    requires Index(s.recs) == Index(t.recs) && s.head == t.head && s.cursor == t.cursor
    ensures Alike(s, t, Commit(s, msgs), Commit(t, msgs))
  {
    if msgs != [] {
      var before, m := msgs[..|msgs| - 1], msgs[|msgs| - 1];
      CommitAlike(s, t, before);
      AlikeIndex(s, t, Commit(s, before), Commit(t, before));
      OneAlike(s, t, Commit(s, before), Commit(t, before), m);
    }
  }

  lemma {:induction false} OneAlike(s: Store, t: Store, s1: Store, t1: Store, m: Message)
    requires Alike(s, t, s1, t1) && Index(s1.recs) == Index(t1.recs)
    ensures Alike(s, t, CommitOne(s1, m), CommitOne(t1, m))
  {
    hide Index;
    var added := s1.recs[|s.recs|..];
    if CommitOne(s1, m) != s1 {
      var two := CommitOne(s1, m).recs[|s1.recs|..];
      assert CommitOne(s1, m).recs == s1.recs + two && CommitOne(t1, m).recs == t1.recs + two;
      assert (s1.recs + two)[|s.recs|..] == added + two && (t1.recs + two)[|t.recs|..] == added + two;
    }
  }

  lemma {:induction false} CompactAlike(s: Store, t: Store, path: seq<string>, from: string, to: string,
                                        summary: string, newIds: seq<string>, writes: nat)
    requires Index(s.recs) == Index(t.recs) && s.head == t.head && s.cursor == t.cursor && |newIds| >= |path|
    ensures Alike(s, t, Compact(s, path, from, to, summary, newIds).1, Compact(t, path, from, to, summary, newIds).1)
    ensures Alike(s, t, CompactCut(s, path, from, to, summary, newIds, writes).1, CompactCut(t, path, from, to, summary, newIds, writes).1)
  {
    hide Index, Clones, Tip, CloneOf, LastIndex;
    var s', t' := Compact(s, path, from, to, summary, newIds), Compact(t, path, from, to, summary, newIds);
    if s'.0 {
      var added := s'.1.recs[|s.recs|..];
      assert s'.1.recs == s.recs + added && t'.1.recs == t.recs + added;
      if writes <= |added| {
        assert (s.recs + added)[..|s.recs| + writes] == s.recs + added[..writes];
        assert (t.recs + added)[..|t.recs| + writes] == t.recs + added[..writes];
      }
    }
  }

  lemma {:induction false} SamePath(s: Store, t: Store)
    requires StandsFor(t, s)
    ensures ActivePath(s.recs, s.head) == Path(t.recs, t.head)
    ensures ActiveView(s.recs, s.head) == View(t.recs, t.head)
  {
    S.ActiveIsPath(t);
  }

  /** What an operation does to a store it does to any that stands for it, and the result stands for the
      result: the theorems about sound stores speak of both. */
  lemma {:induction false} WorksAlike(s: Store, t: Store, op: Op)
    requires StandsFor(t, s) && MayWork(s, op)
    ensures Allowed(t, op) && Alike(s, t, Work(s, op), Do(t, op)) && StandsFor(Do(t, op), Work(s, op))
  {
    SamePath(s, t);
    SameWork(s, t, op);
    AlikeIndex(s, t, Work(s, op), Do(t, op));
    StepSound(t, op);
  }

  lemma {:induction false} SameWork(s: Store, t: Store, op: Op)
    requires StandsFor(t, s) && MayWork(s, op) && ActivePath(s.recs, s.head) == Path(t.recs, t.head)
    ensures Allowed(t, op) && Alike(s, t, Work(s, op), Do(t, op))
  {
    hide Index, Path, ActivePath, Compact, CompactCut, Commit, WellFormed;
    match op {
      case Commits(msgs) => CommitAlike(s, t, msgs);
      case Compacts(from, to, summary, newIds) => CompactAlike(s, t, Path(t.recs, t.head), from, to, summary, newIds, 0);
      case CompactStops(from, to, summary, newIds, writes) =>
        CompactAlike(s, t, Path(t.recs, t.head), from, to, summary, newIds, writes);
      case _ =>
    }
  }

  // ---------------------------------------------------------------- what a file opens to

  /** A well-formed log with the nodes of the file, and only nodes. */
  ghost predicate Nodes(w: seq<Record>, file: seq<Record>) {
    WellFormed(w) && Index(w) == Index(file) && forall k :: 0 <= k < |w| ==> IsNode(w[k])
  }

  ghost predicate Openable(file: seq<Record>) {
    (exists w :: Nodes(w, file)) && (LastHead(file) == "" || LastHead(file) in Index(file))
  }

  lemma {:induction false} LastHeadSnoc(recs: seq<Record>, r: Record)
    ensures LastHead(recs + [r]) == if r.HeadRecord? && r.tail != "" then r.tail else LastHead(recs)
  {
    assert (recs + [r])[..|recs|] == recs;
  }

  /** The nodes of an openable file, the head and the cursor it names: a sound store for the one that
      opens. */
  lemma {:induction false} Opens(file: seq<Record>, w: seq<Record>) returns (t: Store)
    requires Nodes(w, file) && Openable(file)
    ensures StandsFor(t, Reopen(file))
  {
    t := Named(w, LastHead(file), LastCursor(file));
  }

  /** A well-formed log with a head record behind it. */
  lemma {:induction false} Named(w: seq<Record>, head: string, cursor: string) returns (t: Store)
    requires WellFormed(w) && (head == "" || head in Index(w))
    ensures Sound(t) && t.head == head && t.cursor == cursor && Index(t.recs) == Index(w)
    ensures t.recs == w + [HeadRecord(head)]
  {
    Snoc(w, HeadRecord(head));
    t := Store(w + [HeadRecord(head)], head, cursor);
  }

  // ---------------------------------------------------------------- the invariant

  /** w stands for the log in memory, v for the file; and every prefix of the file opens. */
  ghost predicate Woven(d: Disk, w: seq<Record>, v: seq<Record>) {
    && Weave(w, v) && Index(w) == Index(d.mem.recs) && Index(v) == Index(d.file)
    && (d.mem.head == "" || d.mem.head in Index(w))
    && forall k :: 0 <= k <= |d.file| ==> Openable(d.file[..k])
  }

  lemma HangsNodes(w: seq<Record>, v: seq<Record>, file: seq<Record>)
    requires Weave(w, v) && Index(v) == Index(file)
    ensures Nodes(v, file)
  {
    forall k | 0 <= k < |v| ensures IsNode(v[k]) { assert HangsOn(w, v[k]); }
  }

  /** One record goes to memory and file, or to the file alone. */
  lemma {:induction false} OneRecord(w: seq<Record>, v: seq<Record>, file: seq<Record>, r: Record, both: bool)
    returns (v': seq<Record>)
    requires Weave(w, v) && Index(v) == Index(file) && Admissible(w, r)
    ensures Weave(if both then w + [r] else w, v') && Index(v') == Index(file + [r])
    ensures Index(file).Keys <= Index(file + [r]).Keys
  {
    IndexSnoc(file, r);
    hide WellFormed, Index, OrderKept, Hangs, Drop;
    if !IsNode(r) {
      v' := v;
      if both { NoNode(w, v, r); }
    } else {
      var u := v;
      if r.MsgRecord? && r.id in Index(v) {
        DropWeave(w, v, r.id);
        u := Drop(v, r.id);
      }
      if both { OnBoth(w, u, r); } else { LeftBehind(w, u, r); }
      v' := u + [r];
      IndexSnoc(u, r);
      assert Index(u)[r.id := r] == Index(v)[r.id := r];
    }
  }

  ghost predicate KnownTail(idx: map<string, Record>, r: Record) {
    r.HeadRecord? && r.tail != "" ==> r.tail in idx
  }

  lemma {:induction false} StillOpens(file: seq<Record>, r: Record, w: seq<Record>)
    requires Openable(file) && Nodes(w, file + [r]) && KnownTail(Index(file), r) && Index(file).Keys <= Index(file + [r]).Keys
    ensures Openable(file + [r])
  {
    LastHeadSnoc(file, r);
    assert forall id :: id in Index(file).Keys ==> id in Index(file + [r]).Keys;
  }

  lemma PrefixesOpen(file: seq<Record>, r: Record)
    requires (forall k :: 0 <= k <= |file| ==> Openable(file[..k])) && Openable(file + [r])
    ensures forall k :: 0 <= k <= |file + [r]| ==> Openable((file + [r])[..k])
  {
    forall k | 0 <= k <= |file + [r]| ensures Openable((file + [r])[..k]) {
      if k <= |file| {
        assert (file + [r])[..k] == file[..k];
      } else {
        assert (file + [r])[..k] == file + [r];
      }
    }
  }

  ghost predicate AllOpen(file: seq<Record>) {
    forall k :: 0 <= k <= |file| ==> Openable(file[..k])
  }

  /** Records that memory takes go to the file one by one. */
  lemma {:induction false} ManyRecords(w: seq<Record>, v: seq<Record>, file: seq<Record>, added: seq<Record>) returns (v': seq<Record>)
    requires Weave(w, v) && Index(v) == Index(file) && AllOpen(file) && WellFormed(w + added)
    ensures Weave(w + added, v') && Index(v') == Index(file + added) && AllOpen(file + added)
  {
    if added == [] {
      assert w + added == w && file + added == file;
      v' := v;
    } else {
      var n := |added| - 1;
      var most, r := added[..n], added[n];
      assert w + added == (w + most) + [r] && file + added == (file + most) + [r];
      WellFormedSnoc(w + most, r);
      var u := ManyRecords(w, v, file, most);
      v' := OneRecord(w + most, u, file + most, r, true);
      HangsNodes(w + added, v', file + added);
      assert KnownTail(Index(file + most), r) by {
        if r.HeadRecord? && r.tail != "" { assert r.tail in Index(u).Keys; }
      }
      assert (file + most)[..|file + most|] == file + most;
      StillOpens(file + most, r, v');
      PrefixesOpen(file + most, r);
    }
  }

  // ---------------------------------------------------------------- steps

  lemma {:induction false} WorksWoven(d: Disk, w: seq<Record>, v: seq<Record>, op: Op) returns (w': seq<Record>, v': seq<Record>)
    requires Woven(d, w, v) && MayWork(d.mem, op)
    ensures Woven(Happens(d, Works(op)), w', v')
  {
    var t := Named(w, d.mem.head, d.mem.cursor);
    WorksAlike(d.mem, t, op);
    w' := Do(t, op).recs;
    var s' := Work(d.mem, op);
    var added := s'.recs[|d.mem.recs|..];
    assert w' == t.recs + added && Added(d.mem.recs, s'.recs) == added;
    hide Work, Do, Index, WellFormed, Openable, Sound;
    NoNode(w, v, HeadRecord(d.mem.head)) by { KnownHead(w, d.mem.head); }
    WellFormedParts(t, op, added);
    v' := ManyRecords(t.recs, v, d.file, added);
  }

  lemma KnownHead(w: seq<Record>, head: string)
    requires head == "" || head in Index(w)
    ensures Admissible(w, HeadRecord(head))
  {}

  lemma WellFormedParts(t: Store, op: Op, added: seq<Record>)
    requires Ok(t) && Allowed(t, op) && Sound(Do(t, op)) && Do(t, op).recs == t.recs + added
    ensures WellFormed(t.recs + added)
  {}

  /** A record left on the file alone is one that memory might have taken, but for its head. */
  lemma {:induction false} StraysWoven(d: Disk, w: seq<Record>, v: seq<Record>, r: Record) returns (v': seq<Record>)
    requires Woven(d, w, v) && MayStray(d, r)
    ensures Woven(Happens(d, Strays(r)), w, v')
  {
    if IsNode(r) {
      StrayAdmits(d, w, r);
      v' := OneRecord(w, v, d.file, r, false);
    } else {
      v' := v;
      IndexSnoc(d.file, r);
    }
    hide Index, WellFormed, MayStray;
    HangsNodes(w, v', d.file + [r]);
    assert d.file[..|d.file|] == d.file;
    assert KnownTail(Index(d.file), r) by { StrayTail(d, r); }
    StillOpens(d.file, r, v');
    PrefixesOpen(d.file, r);
  }

  lemma StrayTail(d: Disk, r: Record)
    requires MayStray(d, r)
    ensures KnownTail(Index(d.file), r)
  {}

  lemma {:induction false} StrayAdmits(d: Disk, w: seq<Record>, r: Record)
    requires WellFormed(w) && Index(w) == Index(d.mem.recs) && (d.mem.head == "" || d.mem.head in Index(w))
    requires MayStray(d, r) && IsNode(r)
    ensures Admissible(w, r)
  {
    hide WellFormed, Index, Path, ActivePath, Base;
    if r.CompactRecord? {
      var t := Named(w, d.mem.head, d.mem.cursor);
      SamePath(d.mem, t);
      var path := Path(t.recs, t.head);
      var i, j :| 0 <= i <= j < |path| && Spans(path, i, j, r.id, r.parent, r.coveredTo);
      PathKnown(t.recs, t.head);
      if i > 0 {
        PathOrdered(t.recs, t.head, i - 1, j);
        NodeAt(w, path[i - 1]);
        NodeAt(w, path[j]);
        BirthSnoc(w, HeadRecord(t.head), Base(path[i - 1]));
        BirthSnoc(w, HeadRecord(t.head), Base(path[j]));
      }
    }
  }

  /** A well-formed log of nodes hangs on itself. */
  lemma {:induction false} WeavesItself(v: seq<Record>)
    requires WellFormed(v) && forall k :: 0 <= k < |v| ==> IsNode(v[k])
    ensures Weave(v, v)
  {
    HangsItself(v);
  }

  lemma {:induction false} HangsItself(v: seq<Record>)
    requires WellFormed(v) && forall k :: 0 <= k < |v| ==> IsNode(v[k])
    ensures Hangs(v, v)
  {
    if v != [] {
      var n := |v| - 1;
      HangsItself(v[..n]);
      assert v == v[..n] + [v[n]];
      IndexSnoc(v[..n], v[n]);
      forall k | 0 <= k < |v| ensures HangsOn(v, v[k]) {
        if k < n { assert HangsOn(v[..n], v[..n][k]); }
      }
    }
  }

  lemma {:induction false} RestartsWoven(d: Disk, w: seq<Record>, v: seq<Record>, k: nat) returns (u: seq<Record>)
    requires Woven(d, w, v) && k <= |d.file|
    ensures Woven(Happens(d, Restarts(k)), u, u)
  {
    var file := d.file[..k];
    assert Openable(file);
    u :| Nodes(u, file);
    WeavesItself(u);
    forall j | 0 <= j <= |file| ensures Openable(file[..j]) { assert file[..j] == d.file[..j]; }
  }

  lemma {:induction false} RunWoven(states: seq<Disk>, steps: seq<Step>, n: nat) returns (w: seq<Record>, v: seq<Record>)
    requires IsDiskRun(states, steps) && n < |states|
    ensures Woven(states[n], w, v)
  {
    if n == 0 {
      w, v := [], [];
      assert Nodes([], []);
      assert Openable([]);
    } else {
      w, v := RunWoven(states, steps, n - 1);
      assert HappensAt(states, steps, n - 1);
      match steps[n - 1] {
        case Works(op) => w, v := WorksWoven(states[n - 1], w, v, op);
        case Strays(r) => v := StraysWoven(states[n - 1], w, v, r);
        case Restarts(k) =>
          w := RestartsWoven(states[n - 1], w, v, k);
          v := w;
      }
    }
  }

  // ---------------------------------------------------------------- over every execution

  /** Whatever was appended, failed, left behind or read back, a sound store stands for the one in memory,
      and one for what any prefix of the file opens to. */
  lemma {:induction false} DiskSound(states: seq<Disk>, steps: seq<Step>, n: nat, k: nat) returns (t: Store, o: Store)
    requires IsDiskRun(states, steps) && n < |states| && k <= |states[n].file|
    ensures StandsFor(t, states[n].mem) && StandsFor(o, Reopen(states[n].file[..k]))
  {
    var d := states[n];
    var w, v := RunWoven(states, steps, n);
    t := Named(w, d.mem.head, d.mem.cursor);
    assert Openable(d.file[..k]);
    var u :| Nodes(u, d.file[..k]);
    o := Opens(d.file[..k], u);
  }

  /** The parent links from id, in an index of nodes. */
  ghost predicate LinksToRoot(idx: map<string, Record>, id: string, p: seq<string>) {
    && |p| > 0 && p[|p| - 1] == id
    && (forall k :: 0 <= k < |p| ==> LinkedIn(idx, p, k))
    && (forall k, l :: 0 <= k < l < |p| ==> p[k] != p[l])
  }

  ghost predicate LinkedIn(idx: map<string, Record>, p: seq<string>, k: nat)
    requires k < |p|
  {
    p[k] in idx && ParentId(idx[p[k]]) == if k == 0 then "" else p[k - 1]
  }

  /** No node in memory is its own ancestor, and the walk of the source finds all ancestors; nor is any in
      what a prefix of the file opens to. */
  lemma {:induction false} DiskNoCycles(states: seq<Disk>, steps: seq<Step>, n: nat, k: nat, id: string)
    requires IsDiskRun(states, steps) && n < |states| && k <= |states[n].file|
    ensures var recs := states[n].mem.recs;
      id in Index(recs) ==> LinksToRoot(Index(recs), id, ActivePath(recs, id))
    ensures var recs := states[n].file[..k];
      id in Index(recs) ==> LinksToRoot(Index(recs), id, ActivePath(recs, id))
  {
    var t, o := DiskSound(states, steps, n, k);
    if id in Index(states[n].mem.recs) { StandingPath(t.recs, states[n].mem.recs, id); }
    if id in Index(states[n].file[..k]) { StandingPath(o.recs, states[n].file[..k], id); }
  }

  lemma {:induction false} StandingPath(w: seq<Record>, recs: seq<Record>, id: string)
    requires WellFormed(w) && Index(w) == Index(recs) && id in Index(w)
    ensures LinksToRoot(Index(recs), id, ActivePath(recs, id))
  {
    var p := Path(w, id);
    PathRanks(w, id);
    S.WalkIsPath(w, id, {});
    assert ActivePath(recs, id) == p;
    PathLeadsToRoot(w, id);
    forall k | 0 <= k < |p| ensures LinkedIn(Index(recs), p, k) {
      assert Linked(w, p, k);
      NodeIdent(w, p[k]);
    }
  }
}
