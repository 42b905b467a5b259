/** Commit skips ids it knows, so that the same messages may be handed to it again. After a failed append
    that works; after a crash it works unless the crash came between a message and its head. */
module StoreRetry {
  import opened Messages
  import opened StoreModel
  import opened StoreTree
  import opened StoreCompaction
  import opened StoreTheorems

  lemma {:induction false} CommitConcat(s: Store, a: seq<Message>, b: seq<Message>)
    ensures Commit(s, a + b) == Commit(Commit(s, a), b)
  {
    if b == [] {
      assert a + b == a;
    } else {
      var n := |b| - 1;
      CommitConcat(s, a, b[..n]);
      assert (a + b)[..|a + b| - 1] == a + b[..n];
    }
  }

  ghost predicate AllKnown(s: Store, msgs: seq<Message>) {
    forall k :: 0 <= k < |msgs| ==> msgs[k].id == "" || msgs[k].id in Index(s.recs)
  }

  lemma {:induction false} KnownSkipped(s: Store, msgs: seq<Message>)
    requires AllKnown(s, msgs)
    ensures Commit(s, msgs) == s && Taken(s, msgs) == []
  {
    if msgs != [] { KnownSkipped(s, msgs[..|msgs| - 1]); }
  }

  lemma {:induction false} CommitKnows(s: Store, msgs: seq<Message>)
    ensures AllKnown(Commit(s, msgs), msgs)
  {
    forall k | 0 <= k < |msgs| ensures msgs[k].id == "" || msgs[k].id in Index(Commit(s, msgs).recs) {
      CommitIds(s, msgs, msgs[k].id);
      assert Repeats(msgs, msgs[k].id);
    }
  }

  lemma {:induction false} TakenSnoc(s: Store, msgs: seq<Message>, m: Message)
    ensures Taken(s, msgs + [m])
      == if m.id == "" || m.id in Index(Commit(s, msgs).recs) then Taken(s, msgs) else Taken(s, msgs) + [m]
  {
    CommitIds(s, msgs, m.id);
    assert (msgs + [m])[..|msgs + [m]| - 1] == msgs;
  }

  lemma {:induction false} TakenConcat(s: Store, a: seq<Message>, b: seq<Message>)
    ensures Taken(s, a + b) == Taken(s, a) + Taken(Commit(s, a), b)
  {
    if b == [] {
      hide Index, Commit, Repeats;
      assert a + b == a;
      assert Taken(Commit(s, a), b) == [];
    } else {
      hide *;
      var c, m := b[..|b| - 1], b[|b| - 1];
      assert b == c + [m];
      TakenConcat(s, a, c);
      TakenNext(s, a, c, m);
    }
  }

  lemma {:induction false} TakenNext(s: Store, a: seq<Message>, c: seq<Message>, m: Message)
    requires Taken(s, a + c) == Taken(s, a) + Taken(Commit(s, a), c)
    ensures Taken(s, a + (c + [m])) == Taken(s, a) + Taken(Commit(s, a), c + [m])
  {
    hide *;
    CommitConcat(s, a, c);
    TakenSnoc(s, a + c, m);
    TakenSnoc(Commit(s, a), c, m);
    assert a + (c + [m]) == (a + c) + [m];
  }

  /** What is taken depends on the ids known. */
  lemma {:induction false} TakenByIds(s: Store, t: Store, msgs: seq<Message>)
    requires Index(s.recs).Keys == Index(t.recs).Keys
    ensures Taken(s, msgs) == Taken(t, msgs)
  {
    if msgs != [] {
      assert forall x :: x in Index(s.recs) <==> x in Index(s.recs).Keys;
      assert forall x :: x in Index(t.recs) <==> x in Index(t.recs).Keys;
      TakenByIds(s, t, msgs[..|msgs| - 1]);
    }
  }

  /** In the process that saw the append fail, committing all of it again leaves what committing it once
      would have left. */
  lemma {:induction false} RetryAtOnce(s: Store, msgs: seq<Message>, n: nat)
    requires n <= |msgs|
    ensures Commit(Commit(s, msgs[..n]), msgs) == Commit(s, msgs)
  {
    var c := Commit(s, msgs[..n]);
    CommitKnows(s, msgs[..n]);
    KnownSkipped(c, msgs[..n]);
    CommitConcat(c, msgs[..n], msgs[n..]);
    CommitConcat(s, msgs[..n], msgs[n..]);
    assert msgs[..n] + msgs[n..] == msgs;
  }

  ghost predicate FindsHead(s: Store) {
    s.head == LastHead(s.recs)
  }

  lemma {:induction false} CommitFindsHead(s: Store, msgs: seq<Message>)
    requires Sound(s) && FindsHead(s) && PlainIds(s.recs, msgs)
    ensures FindsHead(Commit(s, msgs))
  {
    if msgs != [] {
      var n := |msgs| - 1;
      CommitFindsHead(s, msgs[..n]);
      CommitSound(s, msgs[..n]);
      CommitSound(s, msgs);
    }
  }

  function Orphan(c: Store, m: Message): Record {
    MsgRecord(m.id, c.head, m.body, "")
  }

  lemma {:induction false} CommitGrows(s: Store, msgs: seq<Message>)
    ensures s.recs <= Commit(s, msgs).recs && |Commit(s, msgs).recs| == |s.recs| + 2 * |Taken(s, msgs)|
  {
    if msgs != [] {
      CommitGrows(s, msgs[..|msgs| - 1]);
      TakenSnoc(s, msgs[..|msgs| - 1], msgs[|msgs| - 1]);
      assert msgs[..|msgs| - 1] + [msgs[|msgs| - 1]] == msgs;
    }
  }

  /** The first k records of a commit: those of its first i messages, and the next message without its
      head when torn. */
  ghost predicate CutsAt(s: Store, msgs: seq<Message>, k: nat, i: nat, torn: bool) {
    && i <= |msgs| && k <= |Commit(s, msgs).recs|
    && var c := Commit(s, msgs[..i]);
      && k == |s.recs| + 2 * |Taken(s, msgs[..i])| + (if torn then 1 else 0)
      && (torn ==> i < |msgs| && msgs[i].id != "" && msgs[i].id !in Index(c.recs))
      && Commit(s, msgs).recs[..k] == c.recs + if torn then [Orphan(c, msgs[i])] else []
  }

  /** Where a crash may cut a commit short: between two messages, or between a message and its head. */
  lemma {:induction false} CutPoint(s: Store, msgs: seq<Message>, k: nat) returns (i: nat, torn: bool)
    requires |s.recs| <= k <= |Commit(s, msgs).recs|
    ensures CutsAt(s, msgs, k, i, torn)
  {
    CommitGrows(s, msgs);
    if k == |Commit(s, msgs).recs| {
      i, torn := |msgs|, false;
      assert msgs[..i] == msgs && Commit(s, msgs).recs[..k] == Commit(s, msgs).recs;
    } else {
      CommitGrows(s, msgs[..|msgs| - 1]);
      if k <= |Commit(s, msgs[..|msgs| - 1]).recs| {
        i, torn := CutPoint(s, msgs[..|msgs| - 1], k);
        CutEarlier(s, msgs, k, i, torn);
      } else {
        i, torn := |msgs| - 1, true;
      }
    }
  }

  lemma {:induction false} CutEarlier(s: Store, msgs: seq<Message>, k: nat, i: nat, torn: bool)
    requires msgs != [] && CutsAt(s, msgs[..|msgs| - 1], k, i, torn)
    ensures CutsAt(s, msgs, k, i, torn)
  {
    var before := msgs[..|msgs| - 1];
    assert before[..i] == msgs[..i];
    assert Commit(s, before).recs <= Commit(s, msgs).recs;
    assert Commit(s, msgs).recs[..k] == Commit(s, before).recs[..k];
  }

  /** The reopened store after such a crash: what it shows, and what it takes of the same messages. */
  lemma {:induction false} AfterCut(s: Store, msgs: seq<Message>, k: nat, i: nat, torn: bool)
    requires Sound(s) && FindsHead(s) && PlainIds(s.recs, msgs) && CutsAt(s, msgs, k, i, torn)
    ensures var o, t := Reopen(Commit(s, msgs).recs[..k]), Taken(s, msgs);
      var p := |Taken(s, msgs[..i])|;
      && Sound(o) && PlainIds(o.recs, msgs) && p + (if torn then 1 else 0) <= |t|
      && View(o.recs, o.head) == View(s.recs, s.head) + t[..p]
      && Taken(o, msgs) == t[p + (if torn then 1 else 0)..]
  {
    var a, b, c, o := msgs[..i], msgs[i..], Commit(s, msgs[..i]), Reopen(Commit(s, msgs).recs[..k]);
    assert msgs == a + b;
    hide Index, Commit, Taken, View, Path, Walk, WellFormed, LastHead, LastCursor, FindsHead, Prefixed, Repeats;
    CommitMeaning(s, a);
    CommitSound(s, a);
    CommitFindsHead(s, a);
    CommitKnows(s, a);
    TakenConcat(s, a, b);
    TakenConcat(o, a, b);
    if torn {
      OrphanSound(c, b[0]);
      OrphanTakes(c, o, a, b);
    } else {
      assert o.recs == c.recs;
      KnownSkipped(o, a);
      TakenByIds(o, c, b);
    }
  }

  /** A message on file without its head changes neither the view nor the head. */
  lemma OrphanSound(c: Store, m: Message)
    requires Sound(c) && FindsHead(c) && m.id != "" && m.id !in Index(c.recs) && !Prefixed(m.id)
    ensures var o := Reopen(c.recs + [Orphan(c, m)]);
      && Sound(o) && o.head == c.head && View(o.recs, o.head) == View(c.recs, c.head)
      && Index(o.recs).Keys == Index(c.recs).Keys + {m.id}
  {
    Snoc(c.recs, Orphan(c, m));
    if c.head != "" { PathRanks(c.recs, c.head); }
    ViewSnoc(c.recs, Orphan(c, m), c.head);
  }

  lemma OrphanTakes(c: Store, o: Store, a: seq<Message>, b: seq<Message>)
    requires b != [] && b[0].id != "" && b[0].id !in Index(c.recs)
    requires AllKnown(c, a) && Index(o.recs).Keys == Index(c.recs).Keys + {b[0].id}
    ensures Commit(o, a) == o && Taken(o, a) == [] && Taken(c, b) == [b[0]] + Taken(o, b)
  {
    var m, rest := [b[0]], b[1..];
    assert b == m + rest && m[..0] == [];
    KnownSkipped(o, a);
    KnownSkipped(o, m);
    TakenConcat(c, m, rest);
    TakenConcat(o, m, rest);
    assert Commit(c, []) == c;
    assert Commit(c, m) == CommitOne(c, b[0]);
    forall x ensures x in Index(Commit(c, m).recs) <==> x in Index(o.recs) {
      CommitOneIds(c, b[0], x);
      assert x in Index(o.recs) <==> x in Index(o.recs).Keys;
    }
    TakenByIds(Commit(c, m), o, rest);
  }

  /** After a crash in the middle of a commit, committing the same messages again completes the view if
      and only if the crash did not come between a message and its head. Then that one message is on
      file, skipped as known, and on the view of no head; everything else is in its place. */
  lemma {:induction false} RetryAfterCrash(s: Store, msgs: seq<Message>, k: nat)
    requires Sound(s) && FindsHead(s) && PlainIds(s.recs, msgs)
    requires |s.recs| <= k <= |Commit(s, msgs).recs|
    ensures var full, t, n := Commit(s, msgs), Taken(s, msgs), k - |s.recs|;
      var again := Commit(Reopen(full.recs[..k]), msgs);
      && |full.recs| == |s.recs| + 2 * |t| && Sound(full) && Sound(again)
      && View(again.recs, again.head) == View(s.recs, s.head) + t[..n / 2] + t[(n + 1) / 2..]
      && (View(again.recs, again.head) == View(full.recs, full.head) <==> n % 2 == 0)
  {
    hide Index, Commit, Taken, View, Path, Walk, WellFormed, LastHead, LastCursor, FindsHead, PlainIds, Prefixed;
    var i, torn := CutPoint(s, msgs, k);
    CommitGrows(s, msgs);
    AfterCut(s, msgs, k, i, torn);
    CommitMeaning(s, msgs);
    CommitMeaning(Reopen(Commit(s, msgs).recs[..k]), msgs);
    Halves(k - |s.recs|, |Taken(s, msgs[..i])|, torn);
    WithoutOne(View(s.recs, s.head), Taken(s, msgs), |Taken(s, msgs[..i])|, torn);
  }

  /** The first commit of a session, cut after its first record: a retry leaves the view empty. */
  lemma {:induction false} MessageStranded(m: Message)
    requires m.id != "" && !Prefixed(m.id)
    ensures var full := Commit(Store([], "", ""), [m]);
      var again := Commit(Reopen(full.recs[..1]), [m]);
      && |full.recs| == 2 && Sound(full) && Sound(again)
      && View(full.recs, full.head) == [m] && View(again.recs, again.head) == []
  {
    var s := Store([], "", "");
    FirstMessage(m);
    hide Index, Commit, Taken, View, Path, WellFormed, LastHead, LastCursor, FindsHead, PlainIds, Prefixed, Sound;
    CommitGrows(s, [m]);
    RetryAfterCrash(s, [m], 1);
    CommitMeaning(s, [m]);
  }

  lemma {:induction false} FirstMessage(m: Message)
    requires m.id != "" && !Prefixed(m.id)
    ensures var s := Store([], "", "");
      Sound(s) && FindsHead(s) && PlainIds(s.recs, [m]) && View(s.recs, s.head) == [] && Taken(s, [m]) == [m]
  {
    hide Walk, LastCursor, Base, Depth;
    assert [m][..0] == [] && Taken(Store([], "", ""), []) == [];
  }

  lemma Halves(n: nat, p: nat, torn: bool)
    requires n == 2 * p + if torn then 1 else 0
    ensures n / 2 == p && (n + 1) / 2 == p + (if torn then 1 else 0) && (n % 2 == 0 <==> !torn)
  {}

  lemma WithoutOne<T>(view: seq<T>, t: seq<T>, p: nat, torn: bool)
    requires p + (if torn then 1 else 0) <= |t|
    ensures (view + t[..p] + t[p + (if torn then 1 else 0)..] == view + t) <==> !torn
  {
    if torn {
      assert |view + t[..p] + t[p + 1..]| < |view + t|;
    } else {
      assert t[..p] + t[p..] == t;
      assert view + t[..p] + t[p..] == view + (t[..p] + t[p..]);
    }
  }
}
