/** Log files as lines (ai-runtime/session/store.go:875-941): scanning, repairing a torn tail, appending,
    and exactly when what was appended can be read back. */
module Jsonl {
  import opened Events
  import opened Picking

  /** A scanned line holds fewer bytes than this. */
  const LINE_LIMIT := 0x10_0000

  /** A line without its newline: a record, something that is none, or white space. */
  datatype Line<R> = Good(rec: R, len: nat) | Bad(len: nat) | Blank(len: nat)

  /** terminated: the last line has its newline. */
  datatype File<R> = File(lines: seq<Line<R>>, terminated: bool)

  predicate Valid<R>(f: File<R>) {
    && (forall k :: 0 <= k < |f.lines| && !f.lines[k].Blank? ==> f.lines[k].len > 0)
    && (f.lines == [] ==> f.terminated)
    && (!f.terminated ==> f.lines[|f.lines| - 1].len > 0)
  }

  /** The bytes of whole lines with their newlines. */
  function Bytes<R>(lines: seq<Line<R>>): nat {
    if lines == [] then 0 else Bytes(lines[..|lines| - 1]) + lines[|lines| - 1].len + 1
  }

  function Size<R>(f: File<R>): int {
    Bytes(f.lines) - if f.terminated then 0 else 1
  }

  predicate Readable<R>(f: File<R>) {
    forall k :: 0 <= k < |f.lines| ==> f.lines[k].len < LINE_LIMIT
  }

  function Goods<R>(lines: seq<Line<R>>): seq<R> {
    if lines == [] then []
    else if lines[|lines| - 1].Good? then Goods(lines[..|lines| - 1]) + [lines[|lines| - 1].rec]
    else Goods(lines[..|lines| - 1])
  }

  /** The number of lines up to the last good one. */
  function Kept<R>(lines: seq<Line<R>>): (n: nat)
    ensures n <= |lines| && (n > 0 ==> lines[n - 1].Good?)
    ensures forall k :: n <= k < |lines| ==> !lines[k].Good?
  {
    if lines == [] then 0
    else if lines[|lines| - 1].Good? then |lines|
    else Kept(lines[..|lines| - 1])
  }

  /** Where the last good line ends, its newline counted. */
  function GoodEnd<R>(lines: seq<Line<R>>): nat {
    if lines == [] then 0
    else if lines[|lines| - 1].Good? then Bytes(lines)
    else GoodEnd(lines[..|lines| - 1])
  }

  lemma {:induction false} GoodEndIsKept<R>(lines: seq<Line<R>>)
    ensures GoodEnd(lines) == Bytes(lines[..Kept(lines)])
  {
    if lines != [] && !lines[|lines| - 1].Good? {
      GoodEndIsKept(lines[..|lines| - 1]);
      assert lines[..|lines| - 1][..Kept(lines)] == lines[..Kept(lines)];
    } else {
      assert lines[..|lines|] == lines;
    }
  }

  /** The records and the end of the last good line; None when a line is too long for the scanner. */
  function Scan<R>(f: File<R>): Option<(seq<R>, nat)> {
    if !Readable(f) then None
    else Some((Goods(f.lines), if GoodEnd(f.lines) > Size(f) >= 0 then Size(f) else GoodEnd(f.lines)))
  }

  /** The scan loop, with its offsets counted line by line. */
  method ScanFile<R>(f: File<R>) returns (r: Option<(seq<R>, nat)>)
    requires Valid(f)
    ensures r == Scan(f)
  {
    var recs: seq<R> := [];
    var pos, lastGoodEnd := 0, 0;
    for n := 0 to |f.lines|
      invariant forall k :: 0 <= k < n ==> f.lines[k].len < LINE_LIMIT
      invariant recs == Goods(f.lines[..n]) && pos == Bytes(f.lines[..n])
      invariant lastGoodEnd == GoodEnd(f.lines[..n])
    {
      if f.lines[n].len >= LINE_LIMIT {
        return None;
      }
      var lineEnd := pos + f.lines[n].len + 1;
      pos := lineEnd;
      assert f.lines[..n + 1][..n] == f.lines[..n];
      if f.lines[n].Blank? {
        continue;
      }
      if f.lines[n].Good? {
        recs := recs + [f.lines[n].rec];
        lastGoodEnd := lineEnd;
      }
    }
    assert f.lines[..|f.lines|] == f.lines;
    SizeNat(f);
    var size := pos - if f.terminated then 0 else 1;
    if lastGoodEnd > size { lastGoodEnd := size; }
    r := Some((recs, lastGoodEnd));
  }

  lemma SizeNat<R>(f: File<R>)
    requires Valid(f)
    ensures Size(f) >= 0
  {}

  ghost function GoodLines<R>(lines: seq<Line<R>>): set<nat> {
    set k: nat | k < |lines| && lines[k].Good?
  }

  /** The records read are those of exactly the lines that decode, in order. */
  lemma {:induction false} GoodsAre<R>(lines: seq<Line<R>>) returns (kept: seq<Line<R>>)
    ensures Keeps(lines, GoodLines(lines), kept)
    ensures |Goods(lines)| == |kept| && forall i :: 0 <= i < |kept| ==> kept[i].Good? && Goods(lines)[i] == kept[i].rec
  {
    hide Keeps, Picks;
    if lines == [] {
      kept := [];
      KeepsNone<Line<R>>(GoodLines(lines));
    } else {
      var init, last := lines[..|lines| - 1], lines[|lines| - 1];
      var before := GoodsAre(init);
      assert lines == init + [last];
      KeepsSnoc(init, GoodLines(init), before, last);
      GoodLast(init, last);
      kept := if last.Good? then before + [last] else before;
    }
  }

  lemma GoodLast<R>(init: seq<Line<R>>, last: Line<R>)
    ensures GoodLines(init + [last]) == if last.Good? then GoodLines(init) + {|init|} else GoodLines(init)
  {}

  // ---------------------------------------------------------------- repair

  /** What truncating to the end of the last good line leaves. */
  function Repaired<R>(f: File<R>): File<R> {
    var n := Kept(f.lines);
    File(f.lines[..n], if n == |f.lines| then f.terminated else true)
  }

  lemma {:induction false} BytesGrow<R>(lines: seq<Line<R>>, k: nat)
    requires k <= |lines|
    ensures Bytes(lines[..k]) <= Bytes(lines)
    ensures k < |lines| ==> Bytes(lines[..k]) < Bytes(lines)
  {
    if k == |lines| {
      assert lines[..k] == lines;
    } else {
      BytesGrow(lines[..|lines| - 1], k);
      assert lines[..|lines| - 1][..k] == lines[..k];
    }
  }

  /** The file is truncated exactly when something follows the last good line, and the offset the
      scan reports is where the repaired file ends. */
  lemma RepairCutsAt<R>(f: File<R>)
    requires Valid(f) && Readable(f)
    ensures Scan(f).Some? && Scan(f).value.1 == Size(Repaired(f))
    ensures Size(f) > Scan(f).value.1 <==> Kept(f.lines) < |f.lines|
    ensures Size(f) == Scan(f).value.1 ==> Repaired(f) == f
    ensures Valid(Repaired(f)) && Readable(Repaired(f))
  {
    var n := Kept(f.lines);
    BytesGrow(f.lines, n);
    SizeNat(f);
    GoodEndIsKept(f.lines);
    if n == |f.lines| {
      assert f.lines[..n] == f.lines;
    } else {
      LastBytes(f, n);
    }
    if n > 0 { assert f.lines[..n][n - 1] == f.lines[n - 1]; }
  }

  /** A line past the kept ones takes at least one byte. */
  lemma LastBytes<R>(f: File<R>, n: nat)
    requires Valid(f) && n < |f.lines|
    ensures Bytes(f.lines[..n]) < Size(f)
  {
    BytesGrow(f.lines[..|f.lines| - 1], n);
    assert f.lines[..|f.lines| - 1][..n] == f.lines[..n];
  }

  lemma {:induction false} GoodsKept<R>(lines: seq<Line<R>>)
    ensures Goods(lines[..Kept(lines)]) == Goods(lines)
  {
    if lines != [] && !lines[|lines| - 1].Good? {
      GoodsKept(lines[..|lines| - 1]);
      assert lines[..|lines| - 1][..Kept(lines)] == lines[..Kept(lines)];
    } else {
      assert lines[..|lines|] == lines;
    }
  }

  /** Repair loses no record and a second repair changes nothing. */
  lemma RepairKeepsRecords<R>(f: File<R>)
    requires Valid(f) && Readable(f)
    ensures Goods(Repaired(f).lines) == Goods(f.lines) && Repaired(Repaired(f)) == Repaired(f)
  {
    GoodsKept(f.lines);
    var n := Kept(f.lines);
    if n > 0 { assert f.lines[..n][|f.lines[..n]| - 1].Good?; }
    assert f.lines[..n][..n] == f.lines[..n];
  }

  // ---------------------------------------------------------------- append

  /** A record written at the end: behind a newline it is a line of its own, else it joins the last. */
  function Joined<R>(last: Line<R>, rec: R, len: nat): Line<R> {
    match last
    case Good(_, n) => Bad(n + len)
    case Bad(n) => Bad(n + len)
    case Blank(n) => Good(rec, n + len)
  }

  function Append<R>(f: File<R>, rec: R, len: nat): File<R> {
    if f.terminated || f.lines == [] then File(f.lines + [Good(rec, len)], true)
    else File(f.lines[..|f.lines| - 1] + [Joined(f.lines[|f.lines| - 1], rec, len)], true)
  }

  lemma {:induction false} GoodsSnoc<R>(lines: seq<Line<R>>, l: Line<R>)
    ensures Goods(lines + [l]) == if l.Good? then Goods(lines) + [l.rec] else Goods(lines)
  {
    assert (lines + [l])[..|lines|] == lines;
  }

  /** Whether a repaired file takes an append: it ends with a newline, and the line fits the scanner. */
  predicate Takes<R>(f: File<R>, len: nat) {
    f.terminated && len < 1_048_576
  }

  /** Appending to a repaired file and opening it again gives the records and the new one, exactly
      when the file ended in a newline and the line fits. A tail that lost only its newline takes the
      record before it down as well; a line too long makes the whole file unreadable. */
  lemma ReadsBack<R>(f: File<R>, rec: R, len: nat)
    requires Valid(f) && Readable(f) && len > 0
    ensures var g := Append(Repaired(f), rec, len);
      && (Readable(g) && Goods(g.lines) == Goods(f.lines) + [rec] <==> Takes(Repaired(f), len))
      && (!Repaired(f).terminated && Readable(g) ==> Goods(g.lines) + [f.lines[|f.lines| - 1].rec] == Goods(f.lines))
  {
    var r := Repaired(f);
    var g := Append(r, rec, len);
    RepairCutsAt(f);
    RepairKeepsRecords(f);
    if r.terminated {
      GoodsSnoc(r.lines, Good(rec, len));
      assert g.lines[|r.lines|].len == len;
    } else {
      assert f.lines[..|f.lines|] == f.lines && r == f;
      GoodsSnoc(f.lines[..|f.lines| - 1], Joined(f.lines[|f.lines| - 1], rec, len));
      assert |Goods(g.lines)| < |Goods(f.lines)|;
    }
  }

  // ---------------------------------------------------------------- crashes

  /** A log of whole records, written one line each. */
  predicate Clean<R>(f: File<R>) {
    f.terminated && forall k :: 0 <= k < |f.lines| ==> f.lines[k].Good?
  }

  /** A crash while a record was written at the end: so many of its bytes and its newline are there. Part
      of the text of a record is none. */
  function Torn<R>(f: File<R>, rec: R, len: nat, bytes: nat): File<R> {
    if bytes == 0 then f
    else if bytes < len then File(f.lines + [Bad(bytes)], false)
    else File(f.lines + [Good(rec, len)], bytes > len)
  }

  lemma {:induction false} CleanKept<R>(lines: seq<Line<R>>)
    requires forall k :: 0 <= k < |lines| ==> lines[k].Good?
    ensures Kept(lines) == |lines|
  {}

  lemma {:induction false} KeptBad<R>(lines: seq<Line<R>>, bytes: nat)
    ensures Kept(lines + [Bad(bytes)]) == Kept(lines)
  {
    assert (lines + [Bad(bytes)])[..|lines|] == lines;
  }

  /** Wherever the crash cuts, opening gives the records before, and the new one when its text is whole.
      And to the repaired file a further record is appended as if there had been no crash, if and only if
      the cut did not come between the text and its newline. */
  lemma TornTail<R>(f: File<R>, rec: R, len: nat, bytes: nat, next: R, m: nat)
    requires Valid(f) && Readable(f) && Clean(f) && 0 < len < LINE_LIMIT && bytes <= len + 1 && 0 < m < LINE_LIMIT
    ensures var t := Torn(f, rec, len, bytes);
      var kept := if bytes < len then Goods(f.lines) else Goods(f.lines) + [rec];
      var g := Append(Repaired(t), next, m);
      && Valid(t) && Scan(t).Some? && Scan(t).value.0 == kept
      && (bytes < len ==> Repaired(t) == f)
      && (Readable(g) && Goods(g.lines) == kept + [next] <==> bytes != len)
  {
    var t := Torn(f, rec, len, bytes);
    CleanKept(f.lines);
    if bytes == 0 {
      assert f.lines[..|f.lines|] == f.lines;
    } else if bytes < len {
      KeptBad(f.lines, bytes);
      GoodsSnoc(f.lines, Bad(bytes));
      assert (f.lines + [Bad(bytes)])[..|f.lines|] == f.lines;
    } else {
      GoodsSnoc(f.lines, Good(rec, len));
      CleanKept(t.lines);
      assert t.lines[..|t.lines|] == t.lines;
    }
    ReadsBack(t, next, m);
  }

  // ---------------------------------------------------------------- two files

  lemma OneLine<R>(l: Line<R>)
    ensures Goods([l]) == (if l.Good? then [l.rec] else []) && Bytes([l]) == l.len + 1
    ensures GoodEnd([l]) == (if l.Good? then l.len + 1 else 0) && Kept([l]) == if l.Good? then 1 else 0
  {
    assert [l][..0] == [];
    assert Goods<R>([]) == [] && Bytes<R>([]) == 0 && GoodEnd<R>([]) == 0 && Kept<R>([]) == 0;
  }

  /** A record of a mebibyte or more goes into a file that can then not be scanned at all. */
  lemma LongLine<R>(first: R, rec: R, len: nat)
    requires len >= LINE_LIMIT
    ensures var f := File([Good(first, 1)], true); Valid(f) && Scan(f) == Some(([first], 2)) && Scan(Append(f, rec, len)).None?
  {
    OneLine(Good(first, 1));
    assert Append(File([Good(first, 1)], true), rec, len).lines[1] == Good(rec, len);
  }

  /** A file that lost its last newline scans as before; with the next record both are gone. */
  lemma LostNewline<R>(first: R, rec: R)
    ensures var f := File([Good(first, 1)], false);
      && Valid(f) && Repaired(f) == f && Scan(f).Some? && Scan(f).value.0 == [first]
      && Scan(Append(f, rec, 1)).Some? && Scan(Append(f, rec, 1)).value.0 == []
  {
    var f := File([Good(first, 1)], false);
    OneLine(Good(first, 1));
    var joined: Line<R> := Bad(2);
    OneLine(joined);
    assert f.lines[..0] + [joined] == [joined];
    assert Append(f, rec, 1) == File([joined], true);
  }
}
