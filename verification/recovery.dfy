/** What a restart makes of the files a crash left behind: the session log (store.go:68-179) and the
    run files (journal.go:379-461). */
module Recovery {
  import opened Events
  import opened Jsonl
  import opened StoreModel
  import opened StoreTheorems
  import J = JournalModel

  // ---------------------------------------------------------------- the session log

  /** The file of a log whose records take these bytes. */
  function LogFile(recs: seq<Record>, lens: seq<nat>): File<Record>
    requires |lens| >= |recs|
  {
    File(seq(|recs|, k requires 0 <= k < |recs| => Good(recs[k], lens[k])), true)
  }

  lemma {:induction false} LogGoods(recs: seq<Record>, lens: seq<nat>)
    requires |lens| >= |recs|
    ensures Goods(LogFile(recs, lens).lines) == recs
  {
    if recs != [] {
      var init := recs[..|recs| - 1];
      LogGoods(init, lens);
      assert LogFile(recs, lens).lines[..|recs| - 1] == LogFile(init, lens).lines;
      assert recs == init + [recs[|recs| - 1]];
    }
  }

  lemma Written(recs: seq<Record>, lens: seq<nat>)
    requires |recs| <= |lens| && forall n :: 0 <= n < |lens| ==> 0 < lens[n] < LINE_LIMIT
    ensures var f := LogFile(recs, lens); Valid(f) && Readable(f) && Clean(f)
  {}

  /** A crash at any byte while record k of a well-formed log is written: the store that opens is exactly
      the one with the records written whole, and sound. Its file takes a further record if and only if
      the crash did not come between record and newline. */
  lemma {:induction false} OpensAfterCrash(recs: seq<Record>, lens: seq<nat>, k: nat, bytes: nat, next: Record, m: nat)
    requires StoreModel.WellFormed(recs) && k < |recs| <= |lens| && bytes <= lens[k] + 1
    requires (forall n :: 0 <= n < |lens| ==> 0 < lens[n] < LINE_LIMIT) && 0 < m < LINE_LIMIT
    ensures var t := Torn(LogFile(recs[..k], lens), recs[k], lens[k], bytes);
      var whole := if bytes < lens[k] then recs[..k] else recs[..k + 1];
      var g := Jsonl.Append(Repaired(t), next, m);
      && Scan(t).Some? && Scan(t).value.0 == whole && Sound(Reopen(whole))
      && (Readable(g) && Goods(g.lines) == whole + [next] <==> bytes != lens[k])
  {
    hide StoreModel.WellFormed, Sound, Goods, Kept, GoodEnd, Bytes, Scan, Torn, Jsonl.Append, Repaired, Readable;
    TornTail(LogFile(recs[..k], lens), recs[k], lens[k], bytes, next, m) by { Written(recs[..k], lens); }
    LogGoods(recs[..k], lens);
    assert recs[..k] + [recs[k]] == recs[..k + 1];
    CrashSound(recs, k);
    CrashSound(recs, k + 1);
  }

  // ---------------------------------------------------------------- interrupted runs

  function LastState(recs: seq<J.Entry>): Option<J.StateName> {
    if recs == [] then None
    else if recs[|recs| - 1].StateEntry? then Some(recs[|recs| - 1].state)
    else LastState(recs[..|recs| - 1])
  }

  /** The run was under way: its last state record is not terminal. The interrupted mark is terminal. */
  predicate Unfinished(recs: seq<J.Entry>) {
    LastState(recs).Some? && !LastState(recs).value.TerminalState?
  }

  /** One file of the recovery scan; None when it can not be scanned. len: the bytes of the mark. */
  function Marked(f: File<J.Entry>, len: nat): Option<(File<J.Entry>, bool)> {
    if Scan(f).None? then None
    else if !Unfinished(Scan(f).value.0) then Some((Repaired(f), false))
    else Some((Jsonl.Append(Repaired(f), J.StateEntry(J.TerminalState), len), true))
  }

  /** Whether a truncation and the append of a mark go through. */
  datatype Io = Io(truncates: bool, appends: bool)

  /** What becomes of a file, and whether it was marked; None when the scan, the truncation or the mark fails. */
  function Attempt(f: File<J.Entry>, len: nat, io: Io): (File<J.Entry>, Option<bool>) {
    if Scan(f).None? || (Kept(f.lines) < |f.lines| && !io.truncates) then (f, None)
    else if !Unfinished(Scan(f).value.0) then (Repaired(f), Some(false))
    else if !io.appends then (Repaired(f), None)
    else (Jsonl.Append(Repaired(f), J.StateEntry(J.TerminalState), len), Some(true))
  }

  method MarkFile(f: File<J.Entry>, len: nat, io: Io) returns (g: File<J.Entry>, r: Option<bool>)
    requires Valid(f)
    ensures (g, r) == Attempt(f, len, io)
  {
    var scan := ScanFile(f);
    if scan.None? {
      return f, None;
    }
    RepairCutsAt(f);
    g := f;
    if Size(f) > scan.value.1 {
      if !io.truncates {
        return f, None;
      }
      g := Repaired(f);
    }
    var last := FindLastState(scan.value.0);
    if last.None? || last.value.TerminalState? {
      return g, Some(false);
    }
    if !io.appends {
      return g, None;
    }
    g, r := Jsonl.Append(g, J.StateEntry(J.TerminalState), len), Some(true);
  }

  /** With all writes going through an attempt is the recovery of the file; and one that failed leaves a
      file of which a later recovery makes what a recovery now would have made. */
  lemma AttemptIsRecovery(f: File<J.Entry>, len: nat, io: Io)
    requires Valid(f) && Scan(f).Some?
    ensures var (g, r) := Attempt(f, len, io);
      && Marked(f, len).Some?
      && (r.Some? ==> (g, r.value) == Marked(f, len).value)
      && (io.truncates && io.appends ==> r.Some?)
      && (r.None? ==> Valid(g) && Marked(g, len) == Marked(f, len))
  {
    RepairCutsAt(f);
    RepairKeepsRecords(f);
    if Scan(f).Some? { RepairCutsAt(Repaired(f)); }
  }

  /** The first n files were recovered. */
  predicate RecoveredTo(files: seq<File<J.Entry>>, out: seq<File<J.Entry>>, ios: seq<Io>, n: nat, len: nat) {
    n <= |files| && n <= |out| && n <= |ios| &&
    forall k :: 0 <= k < n ==> Attempt(files[k], len, ios[k]).1.Some? && out[k] == Attempt(files[k], len, ios[k]).0
  }

  predicate Marks(f: File<J.Entry>, len: nat, io: Io) {
    Attempt(f, len, io).1 == Some(true)
  }

  /** MarkInterruptedRuns over the files in name order: it stops at the first that fails. marked lists the
      positions of the runs it marked, and nothing when it failed. */
  method MarkInterruptedRuns(files: seq<File<J.Entry>>, len: nat, ios: seq<Io>)
    returns (out: seq<File<J.Entry>>, marked: seq<nat>, failed: Option<nat>)
    requires |ios| == |files| && forall k :: 0 <= k < |files| ==> Valid(files[k])
    ensures |out| == |files|
    ensures failed.None? ==> RecoveredTo(files, out, ios, |files|, len)
    ensures failed.Some? ==>
      var n := failed.value;
      && n < |files| && RecoveredTo(files, out, ios, n, len)
      && Attempt(files[n], len, ios[n]) == (out[n], None) && out[n + 1..] == files[n + 1..]
    ensures forall k: nat :: k in marked <==> failed.None? && k < |files| && Marks(files[k], len, ios[k])
  {
    hide Attempt;
    out, marked := [], [];
    for n := 0 to |files|
      invariant |out| == n && RecoveredTo(files, out, ios, n, len)
      invariant forall k: nat :: k in marked <==> k < n && Marks(files[k], len, ios[k])
    {
      var g, r := MarkFile(files[n], len, ios[n]);
      out := out + [g];
      if r.None? {
        out := out + files[n + 1..];
        assert out[n + 1..] == files[n + 1..];
        return out, [], Some(n);
      }
      if r.value { marked := marked + [n]; }
    }
    failed := None;
  }

  /** The loop that keeps the last state record; also LastRunState. */
  method FindLastState(recs: seq<J.Entry>) returns (last: Option<J.StateName>)
    ensures last == LastState(recs)
  {
    last := None;
    for n := 0 to |recs|
      invariant last == LastState(recs[..n])
    {
      assert recs[..n + 1][..n] == recs[..n];
      if recs[n].StateEntry? { last := Some(recs[n].state); }
    }
    assert recs[..|recs|] == recs;
  }

  lemma {:induction false} LastStateSnoc(recs: seq<J.Entry>, s: J.StateName)
    ensures LastState(recs + [J.StateEntry(s)]) == Some(s)
  {}

  /** After recovery the run has ended, every record from before is still there with at most the mark
      behind it, and recovering again changes nothing. */
  predicate Recovered(recs: seq<J.Entry>, g: File<J.Entry>, len: nat) {
    && Readable(g)
    && LastState(Goods(g.lines)) == Some(J.TerminalState)
    && Goods(g.lines) == recs + (if Unfinished(recs) then [J.StateEntry(J.TerminalState)] else [])
    && Marked(g, len) == Some((g, false))
  }

  /** Recovery does this for every file with a state record, except exactly that of an unfinished run
      whose last record lost only its newline: there the mark joins the last record, and the run is
      left with one record less. */
  lemma RecoveryExact(f: File<J.Entry>, len: nat)
    requires Valid(f) && Readable(f) && 0 < len < LINE_LIMIT && LastState(Goods(f.lines)).Some?
    ensures Marked(f, len).Some?
    ensures var g, recs := Marked(f, len).value.0, Goods(f.lines);
      && (Recovered(recs, g, len) <==> Repaired(f).terminated || !Unfinished(recs))
      && (!Recovered(recs, g, len) ==> |Goods(g.lines)| == |recs| - 1)
  {
    RepairCutsAt(f);
    RepairKeepsRecords(f);
    if !Unfinished(Goods(f.lines)) {
      RepairCutsAt(Repaired(f));
    } else if Repaired(f).terminated {
      MarkEnds(f, len);
    } else {
      MarkLoses(f, len);
    }
  }

  lemma MarkEnds(f: File<J.Entry>, len: nat)
    requires Valid(f) && Readable(f) && 0 < len < LINE_LIMIT && Unfinished(Goods(f.lines)) && Repaired(f).terminated
    ensures Marked(f, len).Some? && Recovered(Goods(f.lines), Marked(f, len).value.0, len)
  {
    var mark := J.StateEntry(J.TerminalState);
    var g := Jsonl.Append(Repaired(f), mark, len);
    ReadsBack(f, mark, len);
    LastStateSnoc(Goods(f.lines), J.TerminalState);
    EndsGood(g);
  }

  lemma EndsGood(g: File<J.Entry>)
    requires g.lines != [] && g.lines[|g.lines| - 1].Good?
    ensures Repaired(g) == g
  {
    assert g.lines[..|g.lines|] == g.lines;
  }

  lemma MarkLoses(f: File<J.Entry>, len: nat)
    requires Valid(f) && Readable(f) && len > 0 && Unfinished(Goods(f.lines)) && !Repaired(f).terminated
    ensures Marked(f, len).Some? && |Goods(Marked(f, len).value.0.lines)| == |Goods(f.lines)| - 1
  {
    RepairCutsAt(f);
    assert Repaired(f) == f by { assert f.lines[..|f.lines|] == f.lines; }
    GoodsSnoc(f.lines[..|f.lines| - 1], Joined(f.lines[|f.lines| - 1], J.StateEntry(J.TerminalState), len));
  }
}
