/** The append-only session log of ai-runtime/session/store.go and record.go: records, the
    parent tree they describe, and the operations as functions on the log. */
module StoreModel {
  import opened Messages

  datatype Record =
    | MsgRecord(id: string, parent: string, body: Body, cloneOf: string)
    | CompactRecord(id: string, parent: string, summary: string, coveredFrom: string, coveredTo: string)
    | HeadRecord(tail: string)
    | CheckpointRecord(id: string, at: string, preview: string)
    | CursorRecord(msgId: string)
    | MetadataRecord(sessionId: string)
    | WorkspaceRecord(path: string)
    | ArchivedRecord

  datatype Store = Store(recs: seq<Record>, head: string, cursor: string)

  predicate IsNode(r: Record) {
    r.MsgRecord? || r.CompactRecord?
  }

  /** byID of every tree walk: the last record of an id wins. */
  function Index(recs: seq<Record>): map<string, Record> {
    if recs == [] then map[]
    else
      var rest := Index(recs[..|recs| - 1]);
      var r := recs[|recs| - 1];
      if IsNode(r) then rest[r.id := r] else rest
  }

  // ---------------------------------------------------------------- ids

  predicate Prefixed(id: string) {
    |id| >= 2 && id[0] == 's' && id[1] == '_'
  }

  function Base(id: string): string {
    if Prefixed(id) then Base(id[2..]) else id
  }

  function Depth(id: string): nat {
    if Prefixed(id) then 1 + Depth(id[2..]) else 0
  }

  function CompactId(to: string): string {
    "s_" + to
  }

  // ---------------------------------------------------------------- walking the tree

  function ParentId(r: Record): string {
    if IsNode(r) then r.parent else ""
  }

  /** The walk from a node towards the root; visited nodes and unknown ids end it. */
  function Walk(idx: map<string, Record>, cur: string, visited: set<string>): (w: seq<string>)
    ensures forall k :: 0 <= k < |w| ==> w[k] in idx
    decreases idx.Keys - visited
  {
    if cur == "" || cur in visited || cur !in idx then []
    else [cur] + Walk(idx, ParentId(idx[cur]), visited + {cur})
  }

  function Reversed<T>(t: seq<T>): (r: seq<T>)
    ensures |r| == |t| && forall k :: 0 <= k < |t| ==> r[k] == t[|t| - 1 - k]
  {
    seq(|t|, k requires 0 <= k < |t| => t[|t| - 1 - k])
  }

  /** activePathIDs: root first, whatever the log holds. */
  function ActivePath(recs: seq<Record>, head: string): (p: seq<string>)
    ensures forall k :: 0 <= k < |p| ==> p[k] in Index(recs)
  {
    Reversed(Walk(Index(recs), head, {}))
  }

  // ---------------------------------------------------------------- well-formed logs

  /** The position at which a message id first appears. */
  ghost function Birth(recs: seq<Record>, id: string): nat {
    if recs == [] then 0
    else if id in Index(recs[..|recs| - 1]) then Birth(recs[..|recs| - 1], id)
    else |recs| - 1
  }

  ghost predicate RankBelow(recs: seq<Record>, a: string, b: string) {
    || Birth(recs, Base(a)) < Birth(recs, Base(b))
    || (Birth(recs, Base(a)) == Birth(recs, Base(b)) && Depth(a) < Depth(b))
  }

  /** What appending r to a well-formed log must respect. */
  ghost predicate Admissible(recs: seq<Record>, r: Record) {
    match r
    case MsgRecord(id, parent, _, _) =>
      id != "" && !Prefixed(id) && id !in Index(recs) && (parent == "" || parent in Index(recs))
    case CompactRecord(id, parent, _, _, to) =>
      && id == CompactId(to) && to in Index(recs)
      && (parent == "" || (parent in Index(recs) && RankBelow(recs, parent, to)))
    case HeadRecord(tail) => tail == "" || tail in Index(recs)
    case _ => true
  }

  ghost predicate WellFormed(recs: seq<Record>) {
    recs == [] || (WellFormed(recs[..|recs| - 1]) && Admissible(recs[..|recs| - 1], recs[|recs| - 1]))
  }

  ghost predicate Ok(s: Store) {
    WellFormed(s.recs) && (s.head == "" || s.head in Index(s.recs))
  }

  // ---------------------------------------------------------------- operations

  /** Commit of one message: no id or a known id is skipped. */
  function CommitOne(s: Store, m: Message): Store {
    if m.id == "" || m.id in Index(s.recs) then s
    else s.(recs := s.recs + [MsgRecord(m.id, s.head, m.body, ""), HeadRecord(m.id)], head := m.id)
  }

  function Commit(s: Store, msgs: seq<Message>): Store {
    if msgs == [] then s else CommitOne(Commit(s, msgs[..|msgs| - 1]), msgs[|msgs| - 1])
  }

  function SetHead(s: Store, id: string): Store {
    s.(recs := s.recs + [HeadRecord(id)], head := id)
  }

  function AdvanceCursor(s: Store, id: string): Store {
    s.(recs := s.recs + [CursorRecord(id)], cursor := id)
  }

  function Checkpoint(s: Store, preview: string): Store {
    if s.head == "" then s else s.(recs := s.recs + [CheckpointRecord("ck_" + s.head, s.head, preview)])
  }

  /** The copies Compact makes of the retained segment: compact nodes in it are skipped. */
  function Tip(idx: map<string, Record>, retain: seq<string>, newIds: seq<string>, compactId: string): string
    requires |newIds| >= |retain|
  {
    if retain == [] then compactId
    else
      var n := |retain| - 1;
      if retain[n] in idx && idx[retain[n]].MsgRecord? then newIds[n] else Tip(idx, retain[..n], newIds, compactId)
  }

  function Clones(idx: map<string, Record>, retain: seq<string>, newIds: seq<string>, compactId: string): seq<Record>
    requires |newIds| >= |retain|
  {
    if retain == [] then []
    else
      var n := |retain| - 1;
      var before := Clones(idx, retain[..n], newIds, compactId);
      if retain[n] in idx && idx[retain[n]].MsgRecord? then
        before + [MsgRecord(newIds[n], Tip(idx, retain[..n], newIds, compactId), idx[retain[n]].body, retain[n])]
      else before
  }

  /** The copy made of position k of the retained segment, if any. */
  function RemapCursor(s: Store, idx: map<string, Record>, retain: seq<string>, newIds: seq<string>, tip: string): string
    requires |newIds| >= |retain|
  {
    if s.cursor == "" then s.cursor
    else if exists k :: 0 <= k < |retain| && retain[k] == s.cursor then CloneOf(idx, retain, newIds, s.cursor)
    else if s.cursor == s.head then tip
    else s.cursor
  }

  /** cloneMap: an id of the retained segment goes to its copy, a compact node stays. */
  function CloneOf(idx: map<string, Record>, retain: seq<string>, newIds: seq<string>, id: string): string
    requires |newIds| >= |retain|
  {
    if retain == [] then id
    else
      var n := |retain| - 1;
      if retain[n] == id && id in idx && idx[id].MsgRecord? then newIds[n] else CloneOf(idx, retain[..n], newIds, id)
  }

  /** The last position of x, or -1. */
  function LastIndex(ids: seq<string>, x: string): int
    ensures -1 <= LastIndex(ids, x) < |ids|
    ensures LastIndex(ids, x) >= 0 ==> ids[LastIndex(ids, x)] == x
  {
    if ids == [] then -1
    else if ids[|ids| - 1] == x then |ids| - 1
    else LastIndex(ids[..|ids| - 1], x)
  }

  /** Compact on a known active path; None when the range is not on it or out of order. */
  function Compact(s: Store, path: seq<string>, from: string, to: string, summary: string, newIds: seq<string>)
    : (r: (bool, Store))
    requires |newIds| >= |path|
  {
    var i, j := LastIndex(path, from), LastIndex(path, to);
    if s.head == "" || path == [] || i < 0 || j < 0 || i > j then (false, s)
    else
      var idx := Index(s.recs);
      var retain := path[j + 1..];
      var compactId := CompactId(to);
      var tip := Tip(idx, retain, newIds, compactId);
      (true, Store(
         s.recs + [CompactRecord(compactId, if i > 0 then path[i - 1] else "", summary, from, to)]
         + Clones(idx, retain, newIds, compactId) + [HeadRecord(tip)],
         tip,
         RemapCursor(s, idx, retain, newIds, tip)))
  }

  // ---------------------------------------------------------------- reopening

  /** Compact when only so many of its appends go through: the node and the copies before the failure are
      on record, head stays; the cursor has moved when nothing but the head record failed. */
  function CompactCut(s: Store, path: seq<string>, from: string, to: string, summary: string, newIds: seq<string>, writes: nat)
    : (r: (bool, Store))
    requires |newIds| >= |path|
  {
    var full := Compact(s, path, from, to, summary, newIds);
    if !full.0 || |s.recs| + writes >= |full.1.recs| then full
    else
      (false, Store(full.1.recs[..|s.recs| + writes], s.head,
                    if |s.recs| + writes + 1 == |full.1.recs| then full.1.cursor else s.cursor))
  }

  predicate HasMetadata(recs: seq<Record>) {
    exists k :: 0 <= k < |recs| && recs[k].MetadataRecord? && recs[k].sessionId != ""
  }

  function LastHead(recs: seq<Record>): string {
    if recs == [] then ""
    else
      var r := recs[|recs| - 1];
      if r.HeadRecord? && r.tail != "" then r.tail else LastHead(recs[..|recs| - 1])
  }

  function LastCursor(recs: seq<Record>): string {
    if recs == [] then ""
    else
      var r := recs[|recs| - 1];
      if r.CursorRecord? && r.msgId != "" then r.msgId else LastCursor(recs[..|recs| - 1])
  }

  /** Open on the records a crash left behind. */
  function Reopen(recs: seq<Record>): Store {
    Store(recs, LastHead(recs), LastCursor(recs))
  }

  // ---------------------------------------------------------------- views

  /** recordToMessage. */
  function Render(r: Record): Message {
    match r
    case CompactRecord(id, _, summary, _, _) => Message(id, SummaryBody(summary))
    case MsgRecord(id, _, body, _) => Message(id, body)
    case _ => Message("", Body(Named(""), "", [], "", "", ""))
  }

  /** The messages of a list of ids. */
  function RenderAll(idx: map<string, Record>, ids: seq<string>): (v: seq<Message>)
    requires forall k :: 0 <= k < |ids| ==> ids[k] in idx
    ensures |v| == |ids| && forall k :: 0 <= k < |ids| ==> v[k] == Render(idx[ids[k]])
  {
    seq(|ids|, k requires 0 <= k < |ids| => Render(idx[ids[k]]))
  }

  /** buildActiveView: whatever the log holds. */
  function ActiveView(recs: seq<Record>, head: string): seq<Message> {
    RenderAll(Index(recs), ActivePath(recs, head))
  }

  /** isRealMessage: a summary is recognised by its role and the prefix of its id. */
  predicate IsReal(m: Message) {
    !(m.body.role == System && |m.id| > 2 && Prefixed(m.id))
  }

  function Reals(view: seq<Message>): seq<Message> {
    if view == [] then []
    else
      var m := view[|view| - 1];
      var rest := Reals(view[..|view| - 1]);
      if m.id != "" && IsReal(m) then rest + [m] else rest
  }

  /** The first position of id among ms, or |ms|. */
  function FirstOf(ms: seq<Message>, id: string): nat
    ensures FirstOf(ms, id) <= |ms|
    ensures FirstOf(ms, id) < |ms| ==> ms[FirstOf(ms, id)].id == id
    ensures forall k :: 0 <= k < FirstOf(ms, id) ==> ms[k].id != id
  {
    if ms == [] then 0 else if ms[0].id == id then 0 else 1 + FirstOf(ms[1..], id)
  }

  /** What stands after the message with the cursor's id; everything when there is none. */
  function AfterId(ms: seq<Message>, cursor: string): seq<Message> {
    if cursor == "" || FirstOf(ms, cursor) == |ms| then ms else ms[FirstOf(ms, cursor) + 1..]
  }

  /** PendingAfterCursor over an active view. */
  function Pending(view: seq<Message>, cursor: string): seq<Message> {
    AfterId(Reals(view), cursor)
  }
}
