/** The file behind a store. An append that fails in the middle of a commit leaves a message on file that
    memory does not have; whatever is read back later shows what memory showed. */
module StoreFile {
  import opened Messages
  import opened StoreModel
  import opened StoreTree
  import opened StoreTheorems

  /** The file has every node of the log as it is, the same head and the same cursor. */
  ghost predicate Mirrors(file: seq<Record>, recs: seq<Record>) {
    && (forall id :: id in Index(recs) ==> id in Index(file) && Index(file)[id] == Index(recs)[id])
    && LastHead(file) == LastHead(recs) && LastCursor(file) == LastCursor(recs)
  }

  lemma MirrorsOne(file: seq<Record>, recs: seq<Record>, r: Record)
    requires Mirrors(file, recs)
    ensures Mirrors(file + [r], recs + [r])
  {
    IndexSnoc(file, r);
    IndexSnoc(recs, r);
    assert (file + [r])[..|file|] == file && (recs + [r])[..|recs|] == recs;
  }

  lemma {:induction false} MirrorsAll(file: seq<Record>, recs: seq<Record>, more: seq<Record>)
    requires Mirrors(file, recs)
    ensures Mirrors(file + more, recs + more)
  {
    if more == [] {
      assert file + more == file && recs + more == recs;
    } else {
      var n := |more| - 1;
      MirrorsAll(file, recs, more[..n]);
      MirrorsOne(file + more[..n], recs + more[..n], more[n]);
      assert file + more == file + more[..n] + [more[n]] && recs + more == recs + more[..n] + [more[n]];
    }
  }

  /** A message that memory does not know. */
  lemma MirrorsOrphan(file: seq<Record>, recs: seq<Record>, r: Record)
    requires Mirrors(file, recs) && r.MsgRecord? && r.id !in Index(recs)
    ensures Mirrors(file + [r], recs)
  {
    IndexSnoc(file, r);
    assert (file + [r])[..|file|] == file;
  }

  /** The guarded walk over the file is the path in memory. */
  lemma {:induction false} FileWalk(file: seq<Record>, recs: seq<Record>, cur: string, visited: set<string>)
    requires WellFormed(recs) && Mirrors(file, recs) && (cur == "" || cur in Index(recs))
    requires forall x :: x in Path(recs, cur) ==> x !in visited
    ensures Reversed(Walk(Index(file), cur, visited)) == Path(recs, cur)
    decreases |Path(recs, cur)|
  {
    if cur != "" {
      NodeAt(recs, cur);
      EdgeDown(recs, cur);
      PathRanks(recs, cur);
      var p := ParentOf(recs, cur);
      assert Path(recs, cur) == Path(recs, p) + [cur];
      forall x | x in Path(recs, p) ensures x !in visited + {cur} {
        var k :| 0 <= k < |Path(recs, p)| && Path(recs, p)[k] == x;
        assert Path(recs, cur)[k] == x;
        PathOrdered(recs, cur, k, |Path(recs, cur)| - 1);
      }
      FileWalk(file, recs, p, visited + {cur});
      assert Walk(Index(file), cur, visited) == [cur] + Walk(Index(file), p, visited + {cur});
    }
  }

  /** What the file shows at a head that memory knows. */
  lemma {:induction false} FileShows(file: seq<Record>, recs: seq<Record>, head: string)
    requires WellFormed(recs) && Mirrors(file, recs) && (head == "" || head in Index(recs))
    ensures ActiveView(file, head) == View(recs, head)
  {
    FileWalk(file, recs, head, {});
    ViewIsPath(recs, head);
    PathKnown(recs, head);
    assert ActivePath(file, head) == Path(recs, head);
    var p := Path(recs, head);
    forall k | 0 <= k < |p| ensures Index(file)[p[k]] == Index(recs)[p[k]] { assert p[k] in Index(recs); }
  }

  /** Reopened, a store with a head shows what it showed, whatever appends failed before. */
  lemma {:induction false} ReopenShows(s: Store, file: seq<Record>)
    requires Sound(s) && s.head != "" && Mirrors(file, s.recs)
    ensures Reopen(file).head == s.head && ActiveView(file, Reopen(file).head) == View(s.recs, s.head)
  {
    FileShows(file, s.recs, s.head);
  }
}
