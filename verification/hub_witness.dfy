/** Two runs of the hub: one in which a reopened hub refuses a cursor whose events it retains, one in
    which a delta reads back under another run. The conditions under which neither happens are
    HubTheorems.CursorWindow and HubTheorems.ReplayKeepsRun. */
module HubWitness {
  import opened Events
  import opened HubModel

  lemma RunSnoc(h: Hub, steps: seq<Step>, step: Step)
    ensures Run(h, steps + [step]) == if Enabled(Run(h, steps), step) then Apply(Run(h, steps), step) else Run(h, steps)
  {
    assert (steps + [step])[..|steps|] == steps;
  }

  function Delta(run: string): Step {
    DoPublish(run, TextDelta, Plain(""), 0, {})
  }

  function Broadcasted(run: string, n: nat): SessionEvent {
    SessionEvent(run, n, TextDelta, Plain(""))
  }

  /** A hub without subscribers that holds the deltas of hist in one bucket of the run. */
  function Holding(run: string, parts: seq<DeltaPart>, hist: seq<SessionEvent>): Hub {
    Hub(true, |hist| + 1, 0, |hist|, Complete, {}, 0, map[], [], "",
        if parts == [] then map[] else map[TextDelta := PendingDelta(run, 1, |hist|, parts, 0)],
        parts != [], false, hist, {})
  }

  lemma Published(owner: string, run: string, parts: seq<DeltaPart>, hist: seq<SessionEvent>)
    requires (parts == [] <==> hist == []) && (parts == [] ==> owner == run) && run != ""
    ensures Apply(Holding(owner, parts, hist), Delta(run))
      == Holding(owner, parts + [DeltaPart(|hist| + 1, Plain(""))], hist + [Broadcasted(run, |hist| + 1)])
  {
    var h := Holding(owner, parts, hist);
    var ev := Broadcasted(run, |hist| + 1);
    assert OfferAll(map[], {}, ev) == map[] && StillRegistered(map[], {}, ev) == {};
    var b := Bucketed(Broadcast(h, ev), ev, 0);
    assert b == PendingDelta(owner, 1, |hist| + 1, parts + [DeltaPart(|hist| + 1, Plain(""))], 0);
    assert Broadcast(h, ev).deltaBuf[TextDelta := b] == map[TextDelta := b];
  }

  lemma Ticked(run: string, parts: seq<DeltaPart>, hist: seq<SessionEvent>)
    requires parts != []
    ensures var h := Holding(run, parts, hist);
      && Enabled(h, DoTimer([TextDelta], {}))
      && Apply(h, DoTimer([TextDelta], {}))
         == Holding(run, [], hist).(log := [EventRecord(run, TextDelta, |hist|, 1, Batch(parts))])
  {
    var h := Holding(run, parts, hist);
    var order := [TextDelta];
    assert order[..|order| - 1] == [];
    assert FlushTypes(h, [], {}) == h;
    assert FlushTypes(h, order, {}) == FlushType(h, TextDelta, {});
    assert h.deltaBuf - {TextDelta} == map[];
  }

  ghost predicate Reaches(steps: seq<Step>, h: Hub) {
    Run(NewHub(Some([])), steps) == h
  }

  lemma Publishes(steps: seq<Step>, owner: string, run: string, parts: seq<DeltaPart>, hist: seq<SessionEvent>)
    requires (parts == [] <==> hist == []) && (parts == [] ==> owner == run) && run != ""
    requires Reaches(steps, Holding(owner, parts, hist))
    ensures Reaches(steps + [Delta(run)],
                    Holding(owner, parts + [DeltaPart(|hist| + 1, Plain(""))], hist + [Broadcasted(run, |hist| + 1)]))
  {
    RunSnoc(NewHub(Some([])), steps, Delta(run));
    Published(owner, run, parts, hist);
  }

  lemma Ticks(steps: seq<Step>, owner: string, parts: seq<DeltaPart>, hist: seq<SessionEvent>)
    requires parts != [] && Reaches(steps, Holding(owner, parts, hist))
    ensures Reaches(steps + [DoTimer([TextDelta], {})],
                    Holding(owner, [], hist).(log := [EventRecord(owner, TextDelta, |hist|, 1, Batch(parts))]))
  {
    RunSnoc(NewHub(Some([])), steps, DoTimer([TextDelta], {}));
    Ticked(owner, parts, hist);
  }

  /** Two deltas, of any runs. */
  lemma TwoDeltas(first: string, second: string) returns (steps: seq<Step>)
    requires first != "" && second != ""
    ensures Reaches(steps, Holding(first, [DeltaPart(1, Plain("")), DeltaPart(2, Plain(""))],
                                   [Broadcasted(first, 1), Broadcasted(second, 2)]))
  {
    assert NewHub(Some([])) == Holding(first, [], []);
    Publishes([], first, first, [], []);
    assert [] + [DeltaPart(1, Plain(""))] == [DeltaPart(1, Plain(""))];
    assert [] + [Broadcasted(first, 1)] == [Broadcasted(first, 1)];
    assert [] + [Delta(first)] == [Delta(first)];
    Publishes([Delta(first)], first, second, [DeltaPart(1, Plain(""))], [Broadcasted(first, 1)]);
    assert [DeltaPart(1, Plain(""))] + [DeltaPart(2, Plain(""))] == [DeltaPart(1, Plain("")), DeltaPart(2, Plain(""))];
    assert [Broadcasted(first, 1)] + [Broadcasted(second, 2)] == [Broadcasted(first, 1), Broadcasted(second, 2)];
    steps := [Delta(first)] + [Delta(second)];
  }

  lemma ReadsBatch(rec: EventRecord)
    ensures ExpandAll([rec]) == Expand(rec)
  {
    assert [rec][..0] == [];
    assert ExpandAll([]) == [];
  }

  /** The hub is reopened on what was written: the cursor after event 1 is refused as expired, although
      event 2 is on record. */
  lemma RetainedYetExpired() returns (steps: seq<Step>)
    ensures var log := Run(NewHub(Some([])), steps).log; var h := NewHub(Some(log));
      && Broadcasted("r", 2) in ExpandAll(log)
      && Subscribe(h, 1, [], {}, true) == (h, CursorExpired)
  {
    steps := TwoDeltas("r", "r");
    Publishes(steps, "r", "r", [DeltaPart(1, Plain("")), DeltaPart(2, Plain(""))], [Broadcasted("r", 1), Broadcasted("r", 2)]);
    var parts := [DeltaPart(1, Plain("")), DeltaPart(2, Plain(""))] + [DeltaPart(3, Plain(""))];
    var hist := [Broadcasted("r", 1), Broadcasted("r", 2)] + [Broadcasted("r", 3)];
    steps := steps + [Delta("r")];
    Ticks(steps, "r", parts, hist);
    steps := steps + [DoTimer([TextDelta], {})];
    var rec := EventRecord("r", TextDelta, 3, 1, Batch(parts));
    ReadsBatch(rec);
    assert Expand(rec)[1] == Broadcasted("r", 2);
    assert MinSeq([rec]) == MaxSeq([rec]) == 3;
  }

  /** The delta of the second run is broadcast as its own, reported as complete, and read back as the
      first run's. */
  lemma ForeignDelta() returns (steps: seq<Step>)
    ensures var h := Run(NewHub(Some([])), steps);
      && Broadcasted("b", 2) in h.hist && h.integrity == Complete && h.deltaBuf == map[]
      && Broadcasted("a", 2) in ExpandAll(h.log) && Broadcasted("b", 2) !in ExpandAll(h.log)
  {
    steps := TwoDeltas("a", "b");
    var parts, hist := [DeltaPart(1, Plain("")), DeltaPart(2, Plain(""))], [Broadcasted("a", 1), Broadcasted("b", 2)];
    Ticks(steps, "a", parts, hist);
    steps := steps + [DoTimer([TextDelta], {})];
    var rec := EventRecord("a", TextDelta, 2, 1, Batch(parts));
    ReadsBatch(rec);
    assert Expand(rec)[1] == Broadcasted("a", 2);
    assert hist[1] == Broadcasted("b", 2);
    assert forall e :: e in Expand(rec) ==> e.run == "a";
  }
}
