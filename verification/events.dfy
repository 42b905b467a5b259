/** The event contract of a session (ai-runtime/session/journal.go) and the part of the
    hub that only reads records: batch validation and the expansion of stored records
    back into the events that were broadcast. */
module Events {

  datatype Option<+T> = None | Some(value: T)

  datatype EventType =
    | ToolCall | ToolResult
    | PermissionRequested | PermissionResolved
    | AssistantMessageFinalized
    | RunStarted | RunStateChanged | RunFinished | RunError
    | TextDelta | ThinkingDelta | UsageProgress
    | Other(name: string)

  /** The nine durable-first types; anything else, known or not, is treated as a delta. */
  predicate IsKeyEvent(t: EventType) {
    match t
    case ToolCall | ToolResult => true
    case PermissionRequested | PermissionResolved => true
    case AssistantMessageFinalized => true
    case RunStarted | RunStateChanged | RunFinished | RunError => true
    case _ => false
  }

  /** What decoding a payload can find: a DeltaBatch object, a JSON string (the form an
      older version stored), or anything else. */
  datatype Payload =
    | Plain(text: string)
    | StringLiteral(text: string)
    | Batch(parts: seq<DeltaPart>)

  datatype DeltaPart = DeltaPart(seqNo: nat, payload: Payload)

  datatype SessionEvent = SessionEvent(run: string, seqNo: nat, typ: EventType, payload: Payload)

  /** fromSeq == 0: a single event. fromSeq > 0: a merged batch for fromSeq..seqNo. */
  datatype EventRecord = EventRecord(run: string, typ: EventType, seqNo: nat, fromSeq: nat, payload: Payload)

  predicate ValidDeltaBatch(parts: seq<DeltaPart>, fromSeq: nat, seqNo: nat) {
    && |parts| > 0
    && parts[0].seqNo == fromSeq
    && (forall i :: 1 <= i < |parts| ==> parts[i - 1].seqNo < parts[i].seqNo)
    && parts[|parts| - 1].seqNo == seqNo
  }

  function PartsToEvents(run: string, typ: EventType, parts: seq<DeltaPart>): (r: seq<SessionEvent>)
    ensures |r| == |parts|
    ensures forall i :: 0 <= i < |r| ==> r[i] == SessionEvent(run, parts[i].seqNo, typ, parts[i].payload)
  {
    seq(|parts|, i requires 0 <= i < |parts| => SessionEvent(run, parts[i].seqNo, typ, parts[i].payload))
  }

  /** The events one stored record stands for; a batch that does not decode or whose
      boundaries are inconsistent stands for none. */
  function Expand(rec: EventRecord): seq<SessionEvent> {
    if rec.fromSeq == 0 then [SessionEvent(rec.run, rec.seqNo, rec.typ, rec.payload)]
    else
      match rec.payload
      case Batch(parts) =>
        if ValidDeltaBatch(parts, rec.fromSeq, rec.seqNo) then PartsToEvents(rec.run, rec.typ, parts) else []
      case StringLiteral(_) => [SessionEvent(rec.run, rec.seqNo, rec.typ, rec.payload)]
      case Plain(_) => []
  }

  /** Reading this record back loses event boundaries or whole events. */
  predicate Damaged(rec: EventRecord) {
    rec.fromSeq > 0 && !(rec.payload.Batch? && ValidDeltaBatch(rec.payload.parts, rec.fromSeq, rec.seqNo))
  }

  predicate AnyDamaged(log: seq<EventRecord>) {
    log != [] && (AnyDamaged(log[..|log| - 1]) || Damaged(log[|log| - 1]))
  }

  function ExpandAll(log: seq<EventRecord>): seq<SessionEvent> {
    if log == [] then [] else ExpandAll(log[..|log| - 1]) + Expand(log[|log| - 1])
  }

  /** RunJournalStore.ReadEvents: a record is selected by its last sequence number. */
  function ReadEvents(log: seq<EventRecord>, after: nat): seq<EventRecord> {
    if log == [] then []
    else
      var rest := ReadEvents(log[..|log| - 1], after);
      if log[|log| - 1].seqNo > after then rest + [log[|log| - 1]] else rest
  }

  predicate Increasing(s: seq<SessionEvent>) {
    forall i, j :: 0 <= i < j < |s| ==> s[i].seqNo < s[j].seqNo
  }

  ghost predicate Distinct(s: seq<SessionEvent>) {
    forall i, j :: 0 <= i < j < |s| ==> s[i].seqNo != s[j].seqNo
  }

  /** The events of s numbered above c, in order. */
  function After(s: seq<SessionEvent>, c: nat): seq<SessionEvent> {
    if s == [] then []
    else
      var rest := After(s[..|s| - 1], c);
      if s[|s| - 1].seqNo > c then rest + [s[|s| - 1]] else rest
  }

  /** The events of s numbered in (lo, hi] that were not lost, in order. */
  ghost function Select(s: seq<SessionEvent>, lost: set<SessionEvent>, lo: nat, hi: nat): seq<SessionEvent> {
    if s == [] then []
    else
      var rest := Select(s[..|s| - 1], lost, lo, hi);
      var e := s[|s| - 1];
      if lo < e.seqNo <= hi && e !in lost then rest + [e] else rest
  }

  /** sort.Slice by sequence number, written as an insertion. */
  function Insert(s: seq<SessionEvent>, e: SessionEvent): seq<SessionEvent> {
    if s == [] || s[|s| - 1].seqNo <= e.seqNo then s + [e]
    else Insert(s[..|s| - 1], e) + [s[|s| - 1]]
  }

  function SortBySeq(s: seq<SessionEvent>): seq<SessionEvent> {
    if s == [] then [] else Insert(SortBySeq(s[..|s| - 1]), s[|s| - 1])
  }

  lemma Snoc<T>(s: seq<T>, e: T)
    ensures (s + [e])[..|s + [e]| - 1] == s && (s + [e])[|s + [e]| - 1] == e
  {}

  lemma EmptyOrMember<T>(s: seq<T>)
    ensures s == [] || exists e :: e in s
  {
    assert s == [] || s[0] in s;
  }

  lemma {:induction false} AfterSnoc(s: seq<SessionEvent>, e: SessionEvent, c: nat)
    ensures After(s + [e], c) == if e.seqNo > c then After(s, c) + [e] else After(s, c)
  {
    Snoc(s, e);
  }

  lemma {:induction false} AfterConcat(a: seq<SessionEvent>, b: seq<SessionEvent>, c: nat)
    ensures After(a + b, c) == After(a, c) + After(b, c)
  {
    if b == [] {
      assert a + b == a;
    } else {
      var n := |b| - 1;
      assert a + b == (a + b[..n]) + [b[n]];
      AfterSnoc(a + b[..n], b[n], c);
      AfterConcat(a, b[..n], c);
    }
  }

  lemma {:induction false} AfterMembers(s: seq<SessionEvent>, c: nat)
    ensures forall e :: e in After(s, c) <==> e in s && e.seqNo > c
  {
    if s != [] {
      AfterMembers(s[..|s| - 1], c);
      assert s == s[..|s| - 1] + [s[|s| - 1]];
    }
  }

  lemma {:induction false} AfterDistinct(s: seq<SessionEvent>, c: nat)
    requires Distinct(s)
    ensures Distinct(After(s, c))
  {
    if s != [] {
      AfterDistinct(s[..|s| - 1], c);
      AfterMembers(s[..|s| - 1], c);
    }
  }

  lemma {:induction false} AfterIncreasing(s: seq<SessionEvent>, c: nat)
    requires Increasing(s)
    ensures Increasing(After(s, c))
  {
    if s != [] {
      AfterIncreasing(s[..|s| - 1], c);
      AfterMembers(s[..|s| - 1], c);
    }
  }

  lemma {:induction false} SelectMembers(s: seq<SessionEvent>, lost: set<SessionEvent>, lo: nat, hi: nat)
    ensures forall e :: e in Select(s, lost, lo, hi) <==> e in s && lo < e.seqNo <= hi && e !in lost
  {
    if s != [] {
      SelectMembers(s[..|s| - 1], lost, lo, hi);
      assert s == s[..|s| - 1] + [s[|s| - 1]];
    }
  }

  lemma {:induction false} SelectIncreasing(s: seq<SessionEvent>, lost: set<SessionEvent>, lo: nat, hi: nat)
    requires Increasing(s)
    ensures Increasing(Select(s, lost, lo, hi))
  {
    if s != [] {
      SelectIncreasing(s[..|s| - 1], lost, lo, hi);
      SelectMembers(s[..|s| - 1], lost, lo, hi);
    }
  }

  /** Two strictly increasing sequences with the same elements are the same sequence. */
  lemma {:induction false} IncreasingUnique(a: seq<SessionEvent>, b: seq<SessionEvent>)
    requires Increasing(a) && Increasing(b)
    requires forall e :: e in a <==> e in b
    ensures a == b
  {
    if a == [] {
      EmptyOrMember(b);
    } else {
      var m, n := |a| - 1, |b| - 1;
      assert a[m] in b;
      assert b[n] in a;
      assert a[m] == b[n];
      forall e ensures e in a[..m] <==> e in b[..n] {
        if e in a[..m] { assert e in a; }
        if e in b[..n] { assert e in b; }
      }
      IncreasingUnique(a[..m], b[..n]);
      assert a == a[..m] + [a[m]] && b == b[..n] + [b[n]];
    }
  }

  lemma IncreasingSnoc(s: seq<SessionEvent>, e: SessionEvent)
    requires Increasing(s) && forall x :: x in s ==> x.seqNo < e.seqNo
    ensures Increasing(s + [e])
  {
    assert forall i :: 0 <= i < |s| ==> s[i] in s;
  }

  lemma IncreasingConcat(a: seq<SessionEvent>, b: seq<SessionEvent>, bound: nat)
    requires Increasing(a) && Increasing(b)
    requires forall x :: x in a ==> x.seqNo <= bound
    requires forall x :: x in b ==> x.seqNo > bound
    ensures Increasing(a + b)
  {
    assert forall i :: 0 <= i < |a| ==> a[i] in a;
    assert forall i :: 0 <= i < |b| ==> b[i] in b;
  }

  lemma {:induction false} InsertIncreasing(s: seq<SessionEvent>, e: SessionEvent)
    requires Increasing(s)
    requires forall x :: x in s ==> x.seqNo != e.seqNo
    ensures Increasing(Insert(s, e))
    ensures forall x :: x in Insert(s, e) <==> x in s || x == e
  {
    if s == [] || s[|s| - 1].seqNo <= e.seqNo {
      if s != [] { assert s[|s| - 1] in s; }
      IncreasingSnoc(s, e);
    } else {
      var n := |s| - 1;
      InsertIncreasing(s[..n], e);
      IncreasingSnoc(Insert(s[..n], e), s[n]);
      assert s == s[..n] + [s[n]];
    }
  }

  lemma {:induction false} SortIncreasing(s: seq<SessionEvent>)
    requires Distinct(s)
    ensures Increasing(SortBySeq(s))
    ensures forall x :: x in SortBySeq(s) <==> x in s
  {
    if s != [] {
      var n := |s| - 1;
      SortIncreasing(s[..n]);
      InsertIncreasing(SortBySeq(s[..n]), s[n]);
      assert s == s[..n] + [s[n]];
    }
  }

  lemma {:induction false} PartsIncreasing(parts: seq<DeltaPart>, i: nat, j: nat)
    requires forall k :: 1 <= k < |parts| ==> parts[k - 1].seqNo < parts[k].seqNo
    requires i < j < |parts|
    ensures parts[i].seqNo < parts[j].seqNo
  {
    if i + 1 < j { PartsIncreasing(parts, i, j - 1); }
  }

  /** No event of a record is numbered above the record, so filtering records first and
      events second selects exactly the events above the cursor. */
  lemma ExpandBound(rec: EventRecord)
    ensures forall e :: e in Expand(rec) ==> e.seqNo <= rec.seqNo
  {
    forall e | e in Expand(rec) ensures e.seqNo <= rec.seqNo {
      var i :| 0 <= i < |Expand(rec)| && Expand(rec)[i] == e;
      if rec.fromSeq > 0 && rec.payload.Batch? && i < |rec.payload.parts| - 1 {
        PartsIncreasing(rec.payload.parts, i, |rec.payload.parts| - 1);
      }
    }
  }

  lemma {:induction false} ReadExpandsExactly(log: seq<EventRecord>, c: nat)
    ensures After(ExpandAll(ReadEvents(log, c)), c) == After(ExpandAll(log), c)
  {
    if log != [] {
      var n := |log| - 1;
      ReadExpandsExactly(log[..n], c);
      AfterConcat(ExpandAll(log[..n]), Expand(log[n]), c);
      if log[n].seqNo > c {
        Snoc(ReadEvents(log[..n], c), log[n]);
        AfterConcat(ExpandAll(ReadEvents(log[..n], c)), Expand(log[n]), c);
      } else {
        ExpandBound(log[n]);
        AfterMembers(Expand(log[n]), c);
        EmptyOrMember(After(Expand(log[n]), c));
      }
    }
  }
}
