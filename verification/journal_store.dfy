/** RunJournalStore (ai-runtime/session/journal_store.go) as an object: routing of records to the file
    of their run, and the scans that seed and replay the event hub. */
module RunJournalStore {
  import opened Events
  import J = JournalModel
  import H = HubModel

  datatype AppendResult = Appended | NoRun | RunExists | NotCreated | Refused

  /** Why there is no handle for a run, if there is none. */
  function NoHandle(j: J.Journal, run: string, creates: bool): Option<AppendResult> {
    if run in j.handles then None
    else if run in j.files then Some(RunExists)
    else if !creates then Some(NotCreated)
    else None
  }

  class RunJournalStore {
    var files: map<string, seq<J.Entry>>
    var handles: set<string>
    var open: set<string>

    constructor (existing: map<string, seq<J.Entry>>)
      ensures St() == J.Start(existing)
    {
      files, handles, open := existing, {}, {};
    }

    /** The fields in the model of the session's journal. */
    function St(): J.Journal
      reads this
    {
      J.Start(files).(handles := handles, open := open)
    }

    /** The handle of a run: cached, or of a file created now; an existing file is nobody's to write.
        creates: the creation of a file goes through. */
    method Handle(run: string, creates: bool) returns (missing: Option<AppendResult>)
      modifies this
      ensures missing == NoHandle(old(St()), run, creates)
      ensures St() == if missing.None? then J.Lookup(old(St()), run) else old(St())
    {
      if run in handles {
        return None;
      }
      if run in files {
        return Some(RunExists);
      }
      if !creates {
        return Some(NotCreated);
      }
      files := files[run := []];
      handles := handles + {run};
      open := open + {run};
      missing := None;
    }

    /** ioOk: the write and the sync go through. */
    method AppendEvent(run: string, creates: bool, ioOk: bool) returns (r: AppendResult)
      modifies this
      ensures run == "" ==> r.NoRun? && St() == old(St())
      ensures run != "" && NoHandle(old(St()), run, creates).Some? ==>
        Some(r) == NoHandle(old(St()), run, creates) && St() == old(St())
      ensures run != "" && NoHandle(old(St()), run, creates).None? ==>
        && St() == J.Append(J.Lookup(old(St()), run), run, J.EventEntry, ioOk)
        && r == if ioOk && run in open && run in files then Appended else Refused
    {
      if run == "" {
        return NoRun;
      }
      var missing := Handle(run, creates);
      if missing.Some? {
        return missing.value;
      }
      if !ioOk || run !in open || run !in files {
        return Refused;
      }
      files := files[run := files[run] + [J.EventEntry]];
      r := Appended;
    }

    /** A terminal record closes and evicts the handle whether or not it could be written. */
    method AppendState(run: string, state: J.StateName, creates: bool, ioOk: bool) returns (r: AppendResult)
      modifies this
      ensures run == "" ==> r.NoRun? && St() == old(St())
      ensures run != "" && NoHandle(old(St()), run, creates).Some? ==>
        Some(r) == NoHandle(old(St()), run, creates) && St() == old(St())
      ensures run != "" && NoHandle(old(St()), run, creates).None? ==>
        var found := J.Lookup(old(St()), run);
        var written := J.Append(found, run, J.StateEntry(state), ioOk);
        && St() == (if state.TerminalState? then written.(handles := written.handles - {run}, open := written.open - {run}) else written)
        && r == if ioOk && run in found.open && run in found.files then Appended else Refused
    {
      if run == "" {
        return NoRun;
      }
      var missing := Handle(run, creates);
      if missing.Some? {
        return missing.value;
      }
      r := Refused;
      if ioOk && run in open && run in files {
        files := files[run := files[run] + [J.StateEntry(state)]];
        r := Appended;
      }
      if state.TerminalState? {
        handles := handles - {run};
        open := open - {run};
      }
    }
  }

  // ---------------------------------------------------------------- scans over the files

  /** A line of a run file: a state record, or an event record of some session. */
  datatype RunLine = StateLine | EventLine(sessionId: string, rec: EventRecord)

  function EventsIn(lines: seq<RunLine>, sessionId: string): seq<EventRecord> {
    if lines == [] then []
    else
      var last := lines[|lines| - 1];
      if last.EventLine? && last.sessionId == sessionId then EventsIn(lines[..|lines| - 1], sessionId) + [last.rec]
      else EventsIn(lines[..|lines| - 1], sessionId)
  }

  /** The events of a session: its files in name order, each from first line to last. */
  function History(files: seq<seq<RunLine>>, sessionId: string): seq<EventRecord> {
    if files == [] then [] else History(files[..|files| - 1], sessionId) + EventsIn(files[|files| - 1], sessionId)
  }

  lemma {:induction false} ReadConcat(a: seq<EventRecord>, b: seq<EventRecord>, after: nat)
    ensures ReadEvents(a + b, after) == ReadEvents(a, after) + ReadEvents(b, after)
  {
    if b == [] {
      assert a + b == a;
    } else {
      ReadConcat(a, b[..|b| - 1], after);
      assert (a + b)[..|a + b| - 1] == a + b[..|b| - 1];
    }
  }

  // ---------------------------------------------------------------- what the scans find

  /** A line of a run file: the files in name order, the lines from the first. */
  datatype Place = Place(file: nat, line: nat)

  predicate Before(p: Place, q: Place) {
    p.file < q.file || (p.file == q.file && p.line < q.line)
  }

  /** An event record of the session stands there. */
  predicate EventAt(files: seq<seq<RunLine>>, p: Place, sessionId: string) {
    p.file < |files| && p.line < |files[p.file]|
    && files[p.file][p.line].EventLine? && files[p.file][p.line].sessionId == sessionId
  }

  /** out are the records at these places, read from first to last. */
  ghost predicate ReadAt(files: seq<seq<RunLine>>, sessionId: string, at: seq<Place>, out: seq<EventRecord>) {
    && |at| == |out| && (forall i, j :: 0 <= i < j < |at| ==> Before(at[i], at[j]))
    && (forall i :: 0 <= i < |at| ==> EventAt(files, at[i], sessionId) && out[i] == files[at[i].file][at[i].line].rec)
  }

  /** Every event of the session numbered above afterSeq is read, in the order of the files, and
      nothing else is. */
  ghost predicate ReadsAll(files: seq<seq<RunLine>>, sessionId: string, afterSeq: nat, out: seq<EventRecord>) {
    exists at :: ReadAt(files, sessionId, at, out)
      && forall p :: p in at <==> EventAt(files, p, sessionId) && files[p.file][p.line].rec.seqNo > afterSeq
  }

  /** The places of the first n lines of the last file. */
  lemma {:induction false} LinesAt(files: seq<seq<RunLine>>, sessionId: string, n: nat, m: nat) returns (at: seq<Place>)
    requires n < |files| && m <= |files[n]|
    ensures ReadAt(files, sessionId, at, EventsIn(files[n][..m], sessionId))
    ensures forall p :: p in at <==> EventAt(files, p, sessionId) && p.file == n && p.line < m
  {
    if m == 0 {
      at := [];
    } else {
      var before := LinesAt(files, sessionId, n, m - 1);
      assert files[n][..m][..m - 1] == files[n][..m - 1];
      at := if EventAt(files, Place(n, m - 1), sessionId) then before + [Place(n, m - 1)] else before;
      forall i, j | 0 <= i < j < |at| ensures Before(at[i], at[j]) { if j == |before| { assert before[i] in before; } }
      forall p ensures p in at <==> EventAt(files, p, sessionId) && p.file == n && p.line < m {
        assert p.file == n && p.line == m - 1 ==> p == Place(n, m - 1);
      }
    }
  }

  lemma {:induction false} HistoryAt(files: seq<seq<RunLine>>, sessionId: string, n: nat) returns (at: seq<Place>)
    requires n <= |files|
    ensures ReadAt(files, sessionId, at, History(files[..n], sessionId))
    ensures forall p :: p in at <==> EventAt(files, p, sessionId) && p.file < n
  {
    if n == 0 {
      at := [];
    } else {
      var before := HistoryAt(files, sessionId, n - 1);
      var more := LinesAt(files, sessionId, n - 1, |files[n - 1]|);
      assert files[..n][..n - 1] == files[..n - 1] && files[n - 1][..|files[n - 1]|] == files[n - 1];
      at := before + more;
      forall i, j | 0 <= i < j < |at| ensures Before(at[i], at[j]) {
        assert i < |before| ==> before[i] in before;
        assert j >= |before| ==> more[j - |before|] in more;
      }
    }
  }

  /** Of records at places, those numbered above afterSeq. */
  lemma {:induction false} FilterAt(files: seq<seq<RunLine>>, sessionId: string, at: seq<Place>, log: seq<EventRecord>, afterSeq: nat)
    returns (kept: seq<Place>)
    requires ReadAt(files, sessionId, at, log)
    ensures ReadAt(files, sessionId, kept, ReadEvents(log, afterSeq))
    ensures forall p :: p in kept <==> p in at && EventAt(files, p, sessionId) && files[p.file][p.line].rec.seqNo > afterSeq
  {
    if at == [] {
      kept := [];
    } else {
      var n := |at| - 1;
      var before := FilterAt(files, sessionId, at[..n], log[..n], afterSeq);
      assert at == at[..n] + [at[n]];
      kept := before;
      if log[n].seqNo > afterSeq {
        kept := before + [at[n]];
        forall i | 0 <= i < |before| ensures Before(before[i], at[n]) { assert before[i] in before; }
        ReadSnoc(files, sessionId, before, ReadEvents(log[..n], afterSeq), at[n]);
      }
      hide EventAt, ReadAt, ReadEvents;
      forall p ensures p in kept <==> p in before || (p == at[n] && log[n].seqNo > afterSeq) {}
    }
  }

  lemma ReadSnoc(files: seq<seq<RunLine>>, sessionId: string, at: seq<Place>, out: seq<EventRecord>, p: Place)
    requires ReadAt(files, sessionId, at, out) && EventAt(files, p, sessionId)
    requires forall i :: 0 <= i < |at| ==> Before(at[i], p)
    ensures ReadAt(files, sessionId, at + [p], out + [files[p.file][p.line].rec])
  {}

  /** What a history read with a cursor holds. */
  lemma HistoryReadsAll(files: seq<seq<RunLine>>, sessionId: string, afterSeq: nat)
    ensures ReadsAll(files, sessionId, afterSeq, ReadEvents(History(files, sessionId), afterSeq))
  {
    var at := HistoryAt(files, sessionId, |files|);
    assert files[..|files|] == files;
    var kept := FilterAt(files, sessionId, at, History(files, sessionId), afterSeq);
  }

  /** The least and the greatest number of the session's events, and none when there are no events. */
  ghost predicate RangeIs(files: seq<seq<RunLine>>, sessionId: string, range: Option<(nat, nat)>) {
    match range
    case None => forall p :: !EventAt(files, p, sessionId)
    case Some(r) =>
      && (exists p :: EventAt(files, p, sessionId) && files[p.file][p.line].rec.seqNo == r.0)
      && (exists p :: EventAt(files, p, sessionId) && files[p.file][p.line].rec.seqNo == r.1)
      && (forall p :: EventAt(files, p, sessionId) ==> r.0 <= files[p.file][p.line].rec.seqNo <= r.1)
  }

  lemma {:induction false} Extremes(log: seq<EventRecord>)
    requires log != []
    ensures exists i, j :: 0 <= i < |log| && 0 <= j < |log| && log[i].seqNo == H.MinSeq(log) && log[j].seqNo == H.MaxSeq(log)
    ensures forall i :: 0 <= i < |log| ==> H.MinSeq(log) <= log[i].seqNo <= H.MaxSeq(log)
  {
    var n := |log| - 1;
    if n > 0 {
      Extremes(log[..n]);
      var i, j :| 0 <= i < n && 0 <= j < n && log[..n][i].seqNo == H.MinSeq(log[..n]) && log[..n][j].seqNo == H.MaxSeq(log[..n]);
      var a, b := if log[n].seqNo < log[i].seqNo then n else i, if log[n].seqNo > log[j].seqNo then n else j;
      assert log[a].seqNo == H.MinSeq(log) && log[b].seqNo == H.MaxSeq(log);
      forall k | 0 <= k < |log| ensures H.MinSeq(log) <= log[k].seqNo <= H.MaxSeq(log) {
        if k < n { assert log[..n][k] == log[k]; }
      }
    } else {
      assert log[0].seqNo == H.MinSeq(log) && log[0].seqNo == H.MaxSeq(log);
    }
  }

  lemma HistoryRange(files: seq<seq<RunLine>>, sessionId: string, range: Option<(nat, nat)>)
    requires Ranges(History(files, sessionId), range)
    ensures RangeIs(files, sessionId, range)
  {
    var log := History(files, sessionId);
    var at := HistoryAt(files, sessionId, |files|);
    assert files[..|files|] == files;
    if range.None? {
      forall p ensures !EventAt(files, p, sessionId) { assert p !in at; }
    } else {
      Extremes(log);
      var i, j :| 0 <= i < |log| && 0 <= j < |log| && log[i].seqNo == H.MinSeq(log) && log[j].seqNo == H.MaxSeq(log);
      assert EventAt(files, at[i], sessionId) && EventAt(files, at[j], sessionId);
      forall p | EventAt(files, p, sessionId)
        ensures range.value.0 <= files[p.file][p.line].rec.seqNo <= range.value.1
      {
        assert p in at;
        var k :| 0 <= k < |at| && at[k] == p;
      }
    }
  }

  lemma OneFile(lines: seq<RunLine>, sessionId: string)
    ensures History([lines], sessionId) == EventsIn(lines, sessionId)
  {
    assert [lines][..0] == [];
    assert History([], sessionId) == [];
  }

  // ---------------------------------------------------------------- the scans

  method CollectFile(lines: seq<RunLine>, sessionId: string, afterSeq: nat) returns (out: seq<EventRecord>)
    ensures out == ReadEvents(EventsIn(lines, sessionId), afterSeq)
    ensures ReadsAll([lines], sessionId, afterSeq, out)
  {
    out := [];
    for n := 0 to |lines|
      invariant out == ReadEvents(EventsIn(lines[..n], sessionId), afterSeq)
    {
      assert lines[..n + 1][..n] == lines[..n];
      if !lines[n].EventLine? || lines[n].sessionId != sessionId {
        continue;
      }
      ghost var before := EventsIn(lines[..n], sessionId);
      assert (before + [lines[n].rec])[..|before|] == before;
      if lines[n].rec.seqNo > afterSeq { out := out + [lines[n].rec]; }
    }
    assert lines[..|lines|] == lines;
    OneFile(lines, sessionId);
    HistoryReadsAll([lines], sessionId, afterSeq);
  }

  /** What Subscribe replays from. */
  method ReadHistory(files: seq<seq<RunLine>>, sessionId: string, afterSeq: nat) returns (out: seq<EventRecord>)
    ensures out == ReadEvents(History(files, sessionId), afterSeq)
    ensures ReadsAll(files, sessionId, afterSeq, out)
  {
    out := [];
    for n := 0 to |files|
      invariant out == ReadEvents(History(files[..n], sessionId), afterSeq)
    {
      assert files[..n + 1][..n] == files[..n];
      var more := CollectFile(files[n], sessionId, afterSeq);
      ReadConcat(History(files[..n], sessionId), EventsIn(files[n], sessionId), afterSeq);
      out := out + more;
    }
    assert files[..|files|] == files;
    HistoryReadsAll(files, sessionId, afterSeq);
  }

  /** The least and the greatest number seen so far. */
  ghost predicate Ranges(log: seq<EventRecord>, range: Option<(nat, nat)>) {
    match range
    case None => log == []
    case Some(r) => log != [] && r.0 == H.MinSeq(log) && r.1 == H.MaxSeq(log)
  }

  lemma RangesSnoc(log: seq<EventRecord>, range: Option<(nat, nat)>, rec: EventRecord)
    requires Ranges(log, range)
    ensures Ranges(log + [rec], Some(if range.None? then (rec.seqNo, rec.seqNo)
                                     else (if rec.seqNo < range.value.0 then rec.seqNo else range.value.0,
                                           if rec.seqNo > range.value.1 then rec.seqNo else range.value.1)))
  {
    assert (log + [rec])[..|log|] == log;
  }

  /** One file; before is the history of the files read so far. */
  method RangeOfFile(lines: seq<RunLine>, sessionId: string, range0: Option<(nat, nat)>, ghost before: seq<EventRecord>)
    returns (range: Option<(nat, nat)>)
    requires Ranges(before, range0)
    ensures Ranges(before + EventsIn(lines, sessionId), range)
  {
    range := range0;
    assert before + [] == before;
    for m := 0 to |lines|
      invariant Ranges(before + EventsIn(lines[..m], sessionId), range)
    {
      assert lines[..m + 1][..m] == lines[..m];
      var line := lines[m];
      if !line.EventLine? || line.sessionId != sessionId {
        continue;
      }
      ghost var log := before + EventsIn(lines[..m], sessionId);
      RangesSnoc(log, range, line.rec);
      assert log + [line.rec] == before + (EventsIn(lines[..m], sessionId) + [line.rec]);
      range :=
        if range.None? then Some((line.rec.seqNo, line.rec.seqNo))
        else Some((if line.rec.seqNo < range.value.0 then line.rec.seqNo else range.value.0,
                   if line.rec.seqNo > range.value.1 then line.rec.seqNo else range.value.1));
    }
    assert lines[..|lines|] == lines;
  }

  /** What seeds the hub: NewHub over the history starts from exactly these numbers. */
  method SeqRange(files: seq<seq<RunLine>>, sessionId: string) returns (range: Option<(nat, nat)>)
    ensures Ranges(History(files, sessionId), range) && RangeIs(files, sessionId, range)
    ensures var h := H.NewHub(Some(History(files, sessionId)));
      if range.None? then h.nextSeq == 1 && h.latest == 0 && h.integrity.Complete?
      else h.earliest == range.value.0 && h.latest == range.value.1 && h.nextSeq == range.value.1 + 1 && h.integrity.Unknown?
  {
    range := None;
    for n := 0 to |files|
      invariant Ranges(History(files[..n], sessionId), range)
    {
      assert files[..n + 1][..n] == files[..n];
      range := RangeOfFile(files[n], sessionId, range, History(files[..n], sessionId));
    }
    assert files[..|files|] == files;
    HistoryRange(files, sessionId, range);
  }
}
