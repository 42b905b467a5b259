/** Runs of the store in which four properties one might expect fail. The conditions under which they hold
    are StoreTheorems.OtherHeads, PersistedCompaction.RangeReplaced, StorePending.ReopenAgrees and
    StorePending.PendingAfterStop. */
module StoreWitness {
  import opened Messages
  import opened StoreModel
  import opened StoreTree
  import opened StoreCompaction
  import opened StoreTheorems
  import opened StorePending
  import opened PersistedCompaction

  const EMPTY := Store([], "", "")

  function Said(id: string): Message {
    Message(id, Body(User, "", [], "", "", ""))
  }

  function Summed(to: string, summary: string): Message {
    Message(CompactId(to), SummaryBody(summary))
  }

  const SAID := [Said("a"), Said("b"), Said("c")]

  /** Ids drawn at random do not occur yet. */
  const FIRST := ["u", "v", "w"]
  const SECOND := ["x", "y", "z"]

  ghost predicate Leads(s: Store, op: Op, t: Store) {
    Ok(s) && Allowed(s, op) && t == Do(s, op)
  }

  lemma RunOfThree(states: seq<Store>, ops: seq<Op>)
    requires |states| == 4 && |ops| == 3 && states[0] == EMPTY
    requires Leads(states[0], ops[0], states[1]) && Leads(states[1], ops[1], states[2]) && Leads(states[2], ops[2], states[3])
    ensures IsRun(states, ops)
  {}

  lemma RunOfFour(states: seq<Store>, ops: seq<Op>)
    requires |states| == 5 && |ops| == 4 && states[0] == EMPTY
    requires Leads(states[0], ops[0], states[1]) && Leads(states[1], ops[1], states[2])
    requires Leads(states[2], ops[2], states[3]) && Leads(states[3], ops[3], states[4])
    ensures IsRun(states, ops)
  {}

  lemma CompactLeads(s: Store, from: string, to: string, summary: string, newIds: seq<string>)
    requires Ok(s) && |newIds| >= |Path(s.recs, s.head)| && FreshIds(s.recs, newIds)
    ensures Leads(s, Compacts(from, to, summary, newIds), Compact(s, Path(s.recs, s.head), from, to, summary, newIds).1)
  {}

  lemma RewindLeads(s: Store, id: string)
    requires Ok(s) && id in Index(s.recs)
    ensures Leads(s, Rewinds(id), SetHead(s, id))
  {}

  lemma AdvanceLeads(s: Store, id: string)
    requires Ok(s)
    ensures Leads(s, Advances(id), AdvanceCursor(s, id))
  {}

  lemma CommitLeads()
    ensures Leads(EMPTY, Commits(SAID), Commit(EMPTY, SAID))
  {
    EmptySound();
    PlainSaid();
  }

  /** A store that shows these messages, under these ids. */
  ghost predicate Shows(s: Store, view: seq<Message>) {
    Sound(s) && s.head != "" && View(s.recs, s.head) == view
      && |Path(s.recs, s.head)| == |view| > 0
      && (forall k :: 0 <= k < |view| ==> Path(s.recs, s.head)[k] == view[k].id)
      && s.head == view[|view| - 1].id && NoRepeats(Path(s.recs, s.head))
  }

  lemma {:induction false} ShowsView(s: Store, view: seq<Message>)
    requires Sound(s) && s.head != "" && View(s.recs, s.head) == view
    ensures Shows(s, view)
  {
    ViewIdentified(s.recs, s.head);
    PathRanks(s.recs, s.head);
    PathNoRepeats(s.recs, s.head);
  }

  lemma EmptySound()
    ensures Sound(EMPTY) && View(EMPTY.recs, EMPTY.head) == [] && Index(EMPTY.recs) == map[] && EMPTY.cursor == ""
  {}

  lemma PlainSaid()
    ensures PlainIds(EMPTY.recs, SAID)
  {}

  /** What is known after committing the three messages. */
  lemma {:induction false} Committed(s: Store)
    requires s == Commit(EMPTY, SAID)
    ensures Shows(s, SAID) && s.cursor == ""
    ensures forall id :: id in Index(s.recs) ==> id == "a" || id == "b" || id == "c"
  {
    EmptySound();
    PlainSaid();
    TakenAll();
    CommitMeaning(EMPTY, SAID);
    SaidShows(s);
    CommitCursor(EMPTY, SAID);
    forall id | id in Index(s.recs) ensures id == "a" || id == "b" || id == "c" { SaidIds(s, id); }
  }

  lemma {:induction false} SaidShows(s: Store)
    requires Sound(s) && View(s.recs, s.head) == [] + SAID
    ensures Shows(s, SAID)
  {
    assert [] + SAID == SAID;
    NodeIdentHead(s);
    ShowsView(s, SAID);
  }

  lemma {:induction false} SaidIds(s: Store, id: string)
    requires s == Commit(EMPTY, SAID) && id in Index(s.recs)
    ensures id == "a" || id == "b" || id == "c"
  {
    EmptySound();
    CommitIds(EMPTY, SAID, id);
  }

  lemma {:induction false} CommitCursor(s: Store, msgs: seq<Message>)
    ensures Commit(s, msgs).cursor == s.cursor
  {
    if msgs != [] { CommitCursor(s, msgs[..|msgs| - 1]); }
  }

  lemma {:induction false} TakenAll()
    ensures Taken(EMPTY, SAID) == SAID
  {
    var a, ab := [Said("a")], [Said("a"), Said("b")];
    assert SAID[..2] == ab && ab[..1] == a && a[..0] == [];
    assert Taken(EMPTY, []) == [];
    assert Taken(EMPTY, a) == [] + [Said("a")] == a;
    assert !Repeats(a, "b") && Taken(EMPTY, ab) == a + [Said("b")] == ab;
    assert !Repeats(ab, "c") && Taken(EMPTY, SAID) == ab + [Said("c")] == SAID;
  }

  /** A message that is shown is on record as it is shown. */
  lemma {:induction false} OnRecord(s: Store, view: seq<Message>, k: nat)
    requires Shows(s, view) && k < |view|
    ensures view[k].id in Index(s.recs) && Render(Index(s.recs)[view[k].id]) == view[k]
    ensures Index(s.recs)[view[k].id].MsgRecord? <==> IsReal(view[k])
  {
    ViewIsPath(s.recs, s.head);
    PathRanks(s.recs, s.head);
    NodeReal(s.recs, view[k].id);
  }

  /** The copy of one retained message. */
  lemma {:induction false} KeptOne(s: Store, view: seq<Message>, newIds: seq<string>)
    requires Shows(s, view) && |newIds| > 0
    ensures var m := view[|view| - 1];
      Kept(Index(s.recs), [m.id], newIds) == if IsReal(m) then [Message(newIds[0], m.body)] else []
  {
    var m := view[|view| - 1];
    OnRecord(s, view, |view| - 1);
    assert [m.id][..0] == [];
    assert Kept(Index(s.recs), [], newIds) == [];
  }

  /** Compaction of positions i to j of a view that leaves its last message behind. */
  lemma {:induction false} Folds(s: Store, view: seq<Message>, i: nat, j: nat, summary: string, newIds: seq<string>, r: Store)
    requires Shows(s, view) && i <= j == |view| - 2 && |newIds| >= |view| && FreshIds(s.recs, newIds)
    requires r == Compact(s, Path(s.recs, s.head), view[i].id, view[j].id, summary, newIds).1
    ensures Shows(r, view[..i] + [Summed(view[j].id, summary)]
                     + if IsReal(view[j + 1]) then [Message(newIds[0], view[j + 1].body)] else [])
  {
    var p := Path(s.recs, s.head);
    LastIndexAt(p, i);
    LastIndexAt(p, j);
    CompactionView(s, view[i].id, view[j].id, i, j, summary, newIds);
    assert p[j + 1..] == [view[j + 1].id];
    KeptOne(s, view, newIds);
    NodeIdentHead(r);
    ShowsView(r, View(r.recs, r.head));
  }

  /** The ids a compaction adds. */
  lemma {:induction false} CompactedIds(recs: seq<Record>, head: string, i: nat, j: nat, summary: string, newIds: seq<string>, x: string)
    requires Compactable(recs, head, i, j, newIds) && x in Index(Compacted(recs, head, i, j, summary, newIds))
    ensures x in Index(recs) || x == CompactId(Path(recs, head)[j]) || x in newIds
  {
    var c := CompactNode(recs, head, i, j, summary);
    CloneIds(recs + [c], Index(recs), Retained(recs, head, j), newIds, c.id, x);
    IndexSnoc(recs, c);
  }

  lemma {:induction false} CompactIds(s: Store, from: string, to: string, i: nat, j: nat, summary: string, newIds: seq<string>, x: string)
    requires Covers(s, from, to, i, j, newIds)
    ensures var r := Compact(s, Path(s.recs, s.head), from, to, summary, newIds).1;
      x in Index(r.recs) ==> x in Index(s.recs) || x == CompactId(to) || x in newIds
  {
    var r := Compact(s, Path(s.recs, s.head), from, to, summary, newIds).1;
    CompactRecords(s, from, to, summary, newIds);
    hide Compact, Compacted;
    IndexSnoc(Compacted(s.recs, s.head, i, j, summary, newIds), HeadRecord(r.head));
    if x in Index(r.recs) { CompactedIds(s.recs, s.head, i, j, summary, newIds, x); }
  }

  // ---------------------------------------------------------------- a compact id created again

  const ONCE := [Summed("b", "one"), Message("u", Said("c").body)]
  const TWICE := [Summed("b", "two"), Message("u", Said("c").body)]

  lemma FreshFor(recs: seq<Record>, newIds: seq<string>)
    requires newIds == FIRST || newIds == SECOND
    requires forall id :: id in Index(recs) ==> id !in newIds
    ensures FreshIds(recs, newIds)
  {}

  lemma {:induction false} FoldedOnce(s1: Store, s2: Store)
    requires Shows(s1, SAID) && FreshIds(s1.recs, FIRST)
    requires s2 == Compact(s1, Path(s1.recs, s1.head), "a", "b", "one", FIRST).1
    ensures Shows(s2, ONCE)
  {
    Folds(s1, SAID, 0, 1, "one", FIRST, s2);
    assert SAID[..0] + [Summed("b", "one")] + [Message("u", Said("c").body)] == ONCE;
  }

  /** Rewinding brings the old view back, and leaves the compacted one where it is. */
  lemma {:induction false} BackToStart(s1: Store, s2: Store, s3: Store)
    requires Shows(s1, SAID) && FreshIds(s1.recs, FIRST) && Shows(s2, ONCE) && s3 == SetHead(s2, "c")
    requires s2 == Compact(s1, Path(s1.recs, s1.head), "a", "b", "one", FIRST).1
    ensures "c" in Index(s2.recs) && Shows(s3, SAID) && "u" in Index(s3.recs) && View(s3.recs, "u") == ONCE && Path(s3.recs, "u") == Path(s2.recs, "u")
  {
    OnRecord(s1, SAID, 2);
    assert CompactId("b") !in Path(s1.recs, "c");
    OtherHeads(s1, "a", "b", "one", FIRST, "c");
    StepSound(s2, Rewinds("c"));
    ShowsView(s3, SAID);
    ViewSnoc(s2.recs, HeadRecord("c"), "u");
    PathSnoc(s2.recs, HeadRecord("c"), "u");
  }

  lemma {:induction false} FoldedTwice(s3: Store, s4: Store)
    requires Shows(s3, SAID) && FreshIds(s3.recs, SECOND)
    requires "u" in Index(s3.recs) && View(s3.recs, "u") == ONCE && |Path(s3.recs, "u")| == 2 && Path(s3.recs, "u")[0] == CompactId("b")
    requires s4 == Compact(s3, Path(s3.recs, s3.head), "a", "b", "two", SECOND).1
    ensures Ok(s4) && "u" in Index(s4.recs) && View(s4.recs, "u") == TWICE
  {
    LastIndexAt(Path(s3.recs, s3.head), 0);
    LastIndexAt(Path(s3.recs, s3.head), 1);
    ReboundHeads(s3, "a", "b", 0, 1, "two", SECOND, "u", 0);
    assert View(s3.recs, s3.head)[..0] + [Summed("b", "two")] + ONCE[1..] == TWICE;
  }

  /** Three messages are committed and two of them compacted; the session goes back to the checkpoint
      before that, and the two are compacted once more. The head of the first compaction then shows the
      summary of the second. */
  lemma {:induction false} HeadRebound() returns (ops: seq<Op>, states: seq<Store>)
    ensures IsRun(states, ops)
    ensures ops == [Commits(SAID), Compacts("a", "b", "one", FIRST), Rewinds("c"), Compacts("a", "b", "two", SECOND)]
    ensures Ok(states[3]) && Ok(states[4]) && "u" in Index(states[3].recs) && "u" in Index(states[4].recs)
    ensures View(states[3].recs, "u") == ONCE && View(states[4].recs, "u") == TWICE
  {
    hide Leads, Compact, Commit, SetHead, AdvanceCursor, Index, IsRun;
    var s1 := Commit(EMPTY, SAID);
    Committed(s1);
    FreshFor(s1.recs, FIRST);
    var s2 := Compact(s1, Path(s1.recs, s1.head), "a", "b", "one", FIRST).1;
    FoldedOnce(s1, s2);
    var s3 := SetHead(s2, "c");
    BackToStart(s1, s2, s3);
    SecondFresh(s1, s2, s3);
    var s4 := Compact(s3, Path(s3.recs, s3.head), "a", "b", "two", SECOND).1;
    FoldedTwice(s3, s4);
    CommitLeads();
    CompactLeads(s1, "a", "b", "one", FIRST);
    CompactLeads(s3, "a", "b", "two", SECOND);
    RewindLeads(s2, "c");
    ops := [Commits(SAID), Compacts("a", "b", "one", FIRST), Rewinds("c"), Compacts("a", "b", "two", SECOND)];
    states := [EMPTY, s1, s2, s3, s4];
    RunOfFour(states, ops);
  }

  lemma {:induction false} SecondFresh(s1: Store, s2: Store, s3: Store)
    requires Shows(s1, SAID) && FreshIds(s1.recs, FIRST) && s3 == SetHead(s2, "c")
    requires forall id :: id in Index(s1.recs) ==> id == "a" || id == "b" || id == "c"
    requires s2 == Compact(s1, Path(s1.recs, s1.head), "a", "b", "one", FIRST).1
    ensures FreshIds(s3.recs, SECOND)
  {
    LastIndexAt(Path(s1.recs, s1.head), 0);
    LastIndexAt(Path(s1.recs, s1.head), 1);
    IndexSnoc(s2.recs, HeadRecord("c"));
    forall id | id in Index(s3.recs) ensures id !in SECOND { CompactIds(s1, "a", "b", 0, 1, "one", FIRST, id); }
    FreshFor(s3.recs, SECOND);
  }

  // ---------------------------------------------------------------- a summary left out

  /** The last of two messages is compacted, then the first: the summary behind it is gone. */
  lemma {:induction false} SummaryDropped() returns (ops: seq<Op>, states: seq<Store>)
    ensures IsRun(states, ops)
    ensures ops == [Commits(SAID), Compacts("c", "c", "one", FIRST), Compacts("a", "b", "two", SECOND)]
    ensures Shows(states[2], [Said("a"), Said("b"), Summed("c", "one")]) && Shows(states[3], [Summed("b", "two")])
  {
    hide Leads, Compact, Commit, SetHead, AdvanceCursor, Index, IsRun;
    var s1 := Commit(EMPTY, SAID);
    Committed(s1);
    FreshFor(s1.recs, FIRST);
    var s2 := Compact(s1, Path(s1.recs, s1.head), "c", "c", "one", FIRST).1;
    LastFolded(s1, s2);
    var view := [Said("a"), Said("b"), Summed("c", "one")];
    var s3 := Compact(s2, Path(s2.recs, s2.head), "a", "b", "two", SECOND).1;
    Folds(s2, view, 0, 1, "two", SECOND, s3);
    assert view[..0] + [Summed("b", "two")] + [] == [Summed("b", "two")];
    CommitLeads();
    CompactLeads(s1, "c", "c", "one", FIRST);
    CompactLeads(s2, "a", "b", "two", SECOND);
    ops := [Commits(SAID), Compacts("c", "c", "one", FIRST), Compacts("a", "b", "two", SECOND)];
    states := [EMPTY, s1, s2, s3];
    RunOfThree(states, ops);
  }

  lemma {:induction false} LastFolded(s1: Store, s2: Store)
    requires Shows(s1, SAID) && FreshIds(s1.recs, FIRST)
    requires forall id :: id in Index(s1.recs) ==> id == "a" || id == "b" || id == "c"
    requires s2 == Compact(s1, Path(s1.recs, s1.head), "c", "c", "one", FIRST).1
    ensures Shows(s2, [Said("a"), Said("b"), Summed("c", "one")]) && FreshIds(s2.recs, SECOND)
  {
    LastIndexAt(Path(s1.recs, s1.head), 2);
    CompactionView(s1, "c", "c", 2, 2, "one", FIRST);
    assert Path(s1.recs, s1.head)[3..] == [];
    assert Kept(Index(s1.recs), [], FIRST) == [];
    assert SAID[..2] + [Summed("c", "one")] + [] == [Said("a"), Said("b"), Summed("c", "one")];
    NodeIdentHead(s2);
    ShowsView(s2, [Said("a"), Said("b"), Summed("c", "one")]);
    forall id | id in Index(s2.recs) ensures id !in SECOND { CompactIds(s1, "c", "c", 2, 2, "one", FIRST, id); }
    FreshFor(s2.recs, SECOND);
  }

  // ---------------------------------------------------------------- a moved cursor forgotten

  /** All messages are consolidated and the first two compacted: nothing is pending. Reopened, the store
      has the last message pending again. */
  lemma {:induction false} PendingAgain() returns (ops: seq<Op>, states: seq<Store>)
    ensures IsRun(states, ops)
    ensures ops == [Commits(SAID), Advances("c"), Compacts("a", "b", "one", FIRST)]
    ensures var s, o := states[3], Reopen(states[3].recs);
      && Sound(s) && Sound(o)
      && Pending(View(s.recs, s.head), s.cursor) == []
      && Bodies(Pending(View(o.recs, o.head), o.cursor)) == [Said("c").body]
  {
    hide Leads, Compact, Commit, SetHead, AdvanceCursor, Index, IsRun;
    var s1 := Commit(EMPTY, SAID);
    Committed(s1);
    var s2 := AdvanceCursor(s1, "c");
    Consolidated(s1, s2);
    FreshFor(s2.recs, FIRST);
    var s3 := Compact(s2, Path(s2.recs, s2.head), "a", "b", "one", FIRST).1;
    PendingBothWays(s2, s3);
    CommitLeads();
    AdvanceLeads(s1, "c");
    CompactLeads(s2, "a", "b", "one", FIRST);
    ops := [Commits(SAID), Advances("c"), Compacts("a", "b", "one", FIRST)];
    states := [EMPTY, s1, s2, s3];
    RunOfThree(states, ops);
  }

  lemma {:induction false} Consolidated(s1: Store, s2: Store)
    requires Shows(s1, SAID) && s2 == AdvanceCursor(s1, "c")
    ensures Shows(s2, SAID) && s2.cursor == "c" == LastCursor(s2.recs) && Index(s2.recs) == Index(s1.recs)
  {
    StepSound(s1, Advances("c"));
    IndexSnoc(s1.recs, CursorRecord("c"));
    ViewSnoc(s1.recs, CursorRecord("c"), s1.head);
    ShowsView(s2, SAID);
  }

  lemma {:induction false} SaidCovered(s2: Store)
    requires Shows(s2, SAID) && FreshIds(s2.recs, FIRST)
    ensures Covers(s2, "a", "b", 0, 1, FIRST)
  {
    LastIndexAt(Path(s2.recs, s2.head), 0);
    LastIndexAt(Path(s2.recs, s2.head), 1);
  }

  /** What the three messages come to in the statements on compaction and pending messages. */
  lemma {:induction false} SaidPending(covered: seq<string>)
    ensures Bodies(Outside(Pending(SAID, "c"), covered)) == [] && !Has(Reals(SAID[0..2]), "c")
    ensures Bodies(Before(Reals(SAID[..0]), "c") + Reals(SAID[2..])) == [Said("c").body]
  {
    hide Reals, AfterId, Has, Before;
    SaidReals();
    assert Outside([], covered) == [] && Bodies([]) == [];
    assert Bodies([Said("c")]) == [Said("c").body];
  }

  lemma {:induction false} PendingBothWays(s2: Store, s3: Store)
    requires Shows(s2, SAID) && s2.cursor == "c" == LastCursor(s2.recs) && FreshIds(s2.recs, FIRST)
    requires s3 == Compact(s2, Path(s2.recs, s2.head), "a", "b", "one", FIRST).1
    ensures Sound(s3) && Sound(Reopen(s3.recs))
    ensures Pending(View(s3.recs, s3.head), s3.cursor) == []
    ensures Bodies(Pending(View(Reopen(s3.recs).recs, Reopen(s3.recs).head), Reopen(s3.recs).cursor)) == [Said("c").body]
  {
    hide Compact, Covers, Pending, Outside, Has, Before, Reals;
    SaidCovered(s2);
    SaidPending(Path(s2.recs, s2.head)[0..2]);
    PendingKept(s2, "a", "b", 0, 1, "one", FIRST);
    NonePending(Pending(View(s3.recs, s3.head), s3.cursor));
    PendingAfterReopen(s2, "a", "b", 0, 1, "one", FIRST);
  }

  // ---------------------------------------------------------------- a cursor moved too early

  lemma CompactStopLeads(s: Store, from: string, to: string, summary: string, newIds: seq<string>, writes: nat)
    requires Ok(s) && |newIds| >= |Path(s.recs, s.head)| && FreshIds(s.recs, newIds)
    ensures Leads(s, CompactStops(from, to, summary, newIds, writes),
                  CompactCut(s, Path(s.recs, s.head), from, to, summary, newIds, writes).1)
  {}

  /** Of node, copy and head record the head record is not on file. */
  lemma {:induction false} HeadMissing(s2: Store)
    requires Shows(s2, SAID) && Covers(s2, "a", "b", 0, 1, FIRST)
    ensures var p := Path(s2.recs, s2.head);
      && |Compact(s2, p, "a", "b", "one", FIRST).1.recs| == |s2.recs| + 3
      && !CompactCut(s2, p, "a", "b", "one", FIRST, 2).0
  {
    OnRecord(s2, SAID, 2);
    hide Index, Tip, LastIndex, CloneOf, FreshIds, WellFormed, Path, View, Sound, Render;
    assert Path(s2.recs, s2.head)[2..] == ["c"];
    assert ["c"][..0] == [] && Clones(Index(s2.recs), [], FIRST, CompactId("b")) == [];
    assert |Clones(Index(s2.recs), ["c"], FIRST, CompactId("b"))| == 1;
  }

  /** All messages are consolidated, and a compaction of the first two fails at its head record: the view
      is what it was, and everything is pending again. */
  lemma {:induction false} PendingByFailure() returns (ops: seq<Op>, states: seq<Store>)
    ensures IsRun(states, ops)
    ensures ops == [Commits(SAID), Advances("c"), CompactStops("a", "b", "one", FIRST, 2)]
    ensures Shows(states[2], SAID) && Pending(View(states[2].recs, states[2].head), states[2].cursor) == []
    ensures Shows(states[3], SAID) && Pending(View(states[3].recs, states[3].head), states[3].cursor) == SAID
  {
    hide Leads, CompactCut, Commit, AdvanceCursor, Index, IsRun, Pending;
    var s1 := Commit(EMPTY, SAID);
    Committed(s1);
    var s2 := AdvanceCursor(s1, "c");
    Consolidated(s1, s2);
    FreshFor(s2.recs, FIRST);
    var s3 := CompactCut(s2, Path(s2.recs, s2.head), "a", "b", "one", FIRST, 2).1;
    StoppedAtHead(s2, s3);
    CommitLeads();
    AdvanceLeads(s1, "c");
    CompactStopLeads(s2, "a", "b", "one", FIRST, 2);
    ops := [Commits(SAID), Advances("c"), CompactStops("a", "b", "one", FIRST, 2)];
    states := [EMPTY, s1, s2, s3];
    RunOfThree(states, ops);
  }

  lemma {:induction false} StoppedAtHead(s2: Store, s3: Store)
    requires Shows(s2, SAID) && s2.cursor == "c" && FreshIds(s2.recs, FIRST)
    requires s3 == CompactCut(s2, Path(s2.recs, s2.head), "a", "b", "one", FIRST, 2).1
    ensures Pending(View(s2.recs, s2.head), s2.cursor) == []
    ensures Shows(s3, SAID) && Pending(View(s3.recs, s3.head), s3.cursor) == SAID
  {
    SaidCovered(s2);
    HeadMissing(s2);
    hide Compact, CompactCut, Index, Covers, Pending, Has, Reals, FreshIds, Path, View, WellFormed;
    PendingAfterStop(s2, "a", "b", 0, 1, "one", FIRST, 2);
    NothingLeft();
    ShowsView(s3, SAID);
  }

  lemma {:induction false} NothingLeft()
    ensures Reals(SAID) == SAID && Pending(SAID, "c") == [] && Has(Reals(SAID[2..]), "c")
  {
    SaidReals();
    assert FirstOf([Said("c")], "c") == 0;
  }

  lemma NonePending(ms: seq<Message>)
    ensures Bodies(ms) == [] <==> ms == []
  {}

  lemma {:induction false} SaidReals()
    ensures Reals(SAID) == SAID && Reals(SAID[..0]) == [] && Reals(SAID[0..2]) == SAID[..2] && Reals(SAID[2..]) == [Said("c")]
    ensures AfterId(SAID, "c") == [] && !Has(SAID[..2], "c") && Before([], "c") + [Said("c")] == [Said("c")]
  {
    AllSaid(SAID);
    AllSaid(SAID[0..2]);
    AllSaid(SAID[2..]);
    assert SAID[0..2] == SAID[..2] && SAID[2..] == [Said("c")];
    LastSaid();
  }

  lemma {:induction false} AllSaid(ms: seq<Message>)
    requires forall k :: 0 <= k < |ms| ==> ms[k] in SAID
    ensures Reals(ms) == ms
  {
    RealsWhole(ms);
  }

  lemma {:induction false} LastSaid()
    ensures FirstOf(SAID, "c") == 2 && AfterId(SAID, "c") == [] && !Has(SAID[..2], "c")
  {
    assert SAID[1..][1..] == [Said("c")];
    assert SAID[..2][1..] == [Said("b")];
    assert [Said("b")][1..] == [];
    assert FirstOf([Said("b")], "c") == 1;
  }
}
