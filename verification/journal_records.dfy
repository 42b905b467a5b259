/** What stands in the file of a run: exactly what was written for it, a queued record first. */
module JournalRecords {
  import opened Events
  import opened JournalModel
  import opened RunJournal

  // ---------------------------------------------------------------- what was written

  /** The state a run's last lookup was for. */
  function LookedFor(events: seq<Event>, r: string): StateName {
    if events == [] then QueuedState
    else if events[|events| - 1].StateLook? && events[|events| - 1].run == r then events[|events| - 1].state
    else LookedFor(events[..|events| - 1], r)
  }

  /** The records written for r by the first n events, in order: the state that was looked up for, or an
      event whose lookup was for r. */
  ghost function WrittenFor(states: seq<Journal>, events: seq<Event>, n: nat, r: string): seq<Entry>
    requires n <= |events| && |states| > |events|
  {
    if n == 0 then []
    else
      var before := WrittenFor(states, events, n - 1, r);
      match events[n - 1]
      case StateWrite(x, ok) => if x == r && ok then before + [StateEntry(LookedFor(events[..n - 1], r))] else before
      case EventWrite(ok) => if ok && IsFor(states[n - 1], r) then before + [EventEntry] else before
      case _ => before
  }

  /** The holder of the hub's lock looked up the handle of r. */
  predicate IsFor(j: Journal, r: string) {
    j.mu.Some? && j.mu.value.target == Some(r)
  }

  // ---------------------------------------------------------------- one step

  lemma Ready(j: Journal, e: Event)
    requires Inv(j) && Enabled(j, e)
    ensures e.StateWrite? ==> e.run in j.open && e.run in j.files
    ensures e.EventWrite? ==> j.mu.value.target.value in j.open && j.mu.value.target.value in j.files
    ensures e.Take? ==> Lookup(j.(buf := j.buf - {e.typ}), j.buf[e.typ]).files == j.files
    ensures e.KeyLook? ==> Lookup(j, j.mu.value.job.run).files == j.files
  {
    if e.StateWrite? { assert OpOk(j.runs[e.run]) && HandleOk(e.run, j.runs[e.run], j); }
    if e.EventWrite? { EmitterReady(j, j.mu.value.target.value); }
    if e.Take? { EmitterReady(j, j.buf[e.typ]); }
    if e.KeyLook? { EmitterReady(j, j.mu.value.job.run); }
  }

  /** What a step does to the files. */
  lemma StepWrites(j: Journal, e: Event, r: string)
    requires Inv(j) && Enabled(j, e)
    ensures r in j.files ==> r in Happen(j, e).files
    ensures r in Happen(j, e).files ==>
      Happen(j, e).files[r] == (if r in j.files then j.files[r] else [])
        + (match e
           case StateWrite(x, ok) => if x == r && ok then [StateEntry(j.runs[r].op.state)] else []
           case EventWrite(ok) => if ok && IsFor(j, r) then [EventEntry] else []
           case _ => [])
  {
    Ready(j, e);
    hide Inv;
    if !e.StateLook? && !e.StateWrite? && !e.Take? && !e.KeyLook? && !e.EventWrite? { NoWrite(j, e); }
  }

  lemma NoWrite(j: Journal, e: Event)
    requires Enabled(j, e) && !e.StateLook? && !e.StateWrite? && !e.Take? && !e.KeyLook? && !e.EventWrite?
    ensures Happen(j, e).files == j.files
  {}

  lemma StepLooks(j: Journal, e: Event, r: string)
    requires Inv(j) && Enabled(j, e) && r in j.runs
    ensures r in Happen(j, e).runs
    ensures Happen(j, e).runs[r].op.Looked? ==>
      if e.StateLook? && e.run == r then Happen(j, e).runs[r].op.state == e.state else Happen(j, e).runs[r].op == j.runs[r].op
  {
    if e.Unlock? {
      UnlockThread(j, r);
    } else {
      hide Inv;
      if e.StateLook? || e.StateWrite? || e.StateEvict? || e.StateClose? { RecordLooks(j, e, r); } else { OtherLooks(j, e, r); }
    }
  }

  lemma RecordLooks(j: Journal, e: Event, r: string)
    requires Enabled(j, e) && r in j.runs && (e.StateLook? || e.StateWrite? || e.StateEvict? || e.StateClose?)
    ensures r in Happen(j, e).runs
    ensures Happen(j, e).runs[r].op.Looked? ==>
      if e.StateLook? && e.run == r then Happen(j, e).runs[r].op.state == e.state else Happen(j, e).runs[r].op == j.runs[r].op
  {}

  lemma OtherLooks(j: Journal, e: Event, r: string)
    requires Enabled(j, e) && r in j.runs && !e.Unlock? && !e.StateLook? && !e.StateWrite? && !e.StateEvict? && !e.StateClose?
    ensures r in Happen(j, e).runs
    ensures Happen(j, e).runs[r].op.Looked? ==> Happen(j, e).runs[r].op == j.runs[r].op
  {}

  /** A hub call that returns leaves the state record in progress alone, and moves no run that has not got
      past its acceptance. */
  lemma UnlockThread(j: Journal, r: string)
    requires Inv(j) && Enabled(j, Unlock) && r in j.runs
    ensures r in Happen(j, Unlock).runs && Happen(j, Unlock).runs[r].op == j.runs[r].op
    ensures !Past(j.runs[r].stage) ==> Happen(j, Unlock).runs[r] == j.runs[r]
  {
    var job := j.mu.value.job;
    assert JobOk(j, job) && Happen(j, Unlock) == Released(j, job);
    hide *;
    ReleasedThread(j, job, r);
  }

  lemma ReleasedThread(j: Journal, job: Job, r: string)
    requires JobOk(j, job) && r in j.runs
    ensures r in Released(j, job).runs && Released(j, job).runs[r].op == j.runs[r].op
    ensures !Past(j.runs[r].stage) ==> Released(j, job).runs[r] == j.runs[r]
  {}

  lemma {:induction false} LookedSo(states: seq<Journal>, events: seq<Event>, n: nat, r: string)
    requires IsRun(states, events) && n < |states| && r in states[n].runs
    ensures states[n].runs[r].op.Looked? ==> states[n].runs[r].op.state == LookedFor(events[..n], r)
  {
    if n > 0 {
      assert StepAt(states, events, n - 1);
      RunInv(states, events, n - 1);
      assert events[..n][..n - 1] == events[..n - 1];
      if r in states[n - 1].runs {
        LookedSo(states, events, n - 1, r);
        StepLooks(states[n - 1], events[n - 1], r);
      } else {
        NewThread(states[n - 1], events[n - 1], r);
      }
    }
  }

  lemma NewThread(j: Journal, e: Event, r: string)
    requires Inv(j) && Enabled(j, e) && r !in j.runs
    ensures r in Happen(j, e).runs ==> e == Accept(r) && Happen(j, e).runs[r] == Thread(Accepting, NoOp)
    ensures !e.StateWrite? || e.run != r
    ensures !IsFor(j, r)
  {
    if e.Unlock? { assert MuOk(j); }
  }

  /** A file that a run made holds exactly what was written for the run. */
  lemma {:induction false} FileIsWritten(states: seq<Journal>, events: seq<Event>, n: nat, r: string)
    requires IsRun(states, events) && n < |states|
    ensures r in states[n].runs ==> r !in states[0].files
    ensures r in states[n].runs && r in states[n].files ==> states[n].files[r] == WrittenFor(states, events, n, r)
    ensures r in states[n].runs && r !in states[n].files ==> WrittenFor(states, events, n, r) == []
    ensures r !in states[n].runs ==>
      && WrittenFor(states, events, n, r) == [] && (r in states[n].files <==> r in states[0].files)
  {
    if n > 0 {
      assert StepAt(states, events, n - 1);
      RunInv(states, events, n - 1);
      FileIsWritten(states, events, n - 1, r);
      var j, e := states[n - 1], events[n - 1];
      StepWrites(j, e, r);
      if r in j.runs {
        LookedSo(states, events, n - 1, r);
        StepLooks(j, e, r);
        Ready(j, e);
      } else {
        NewThread(j, e, r);
        NobodysFile(j, e, r);
      }
    }
  }

  /** Nobody makes a file for a run that is not there. */
  lemma NobodysFile(j: Journal, e: Event, r: string)
    requires Inv(j) && Enabled(j, e) && r !in j.runs
    ensures r in Happen(j, e).files <==> r in j.files
    ensures r in Happen(j, e).runs ==> r !in j.files
  {
    Ready(j, e);
  }

  // ---------------------------------------------------------------- accepted means recorded

  /** The run got past its acceptance. */
  predicate Past(s: Stage) {
    !s.Accepting? && !s.Dropped? && !s.Uncreated?
  }

  predicate QueuedFirst(j: Journal, r: string) {
    r in j.runs && Past(j.runs[r].stage) ==> r in j.files && j.files[r] != [] && j.files[r][0] == StateEntry(QueuedState)
  }

  lemma StepPast(j: Journal, e: Event, r: string)
    requires Inv(j) && Enabled(j, e) && r in j.runs && !Past(j.runs[r].stage)
    ensures r in Happen(j, e).runs
    ensures Past(Happen(j, e).runs[r].stage) ==> e == StateWrite(r, true) && j.runs[r].stage.Accepting? && j.runs[r].op.Looked?
  {
    if e.Unlock? {
      UnlockThread(j, r);
    } else {
      assert OpOk(j.runs[r]);
      hide Inv;
      if e.StateLook? || e.StateWrite? || e.StateEvict? || e.StateClose? { RecordPast(j, e, r); } else { OtherPast(j, e, r); }
    }
  }

  lemma RecordPast(j: Journal, e: Event, r: string)
    requires Enabled(j, e) && r in j.runs && !Past(j.runs[r].stage) && OpOk(j.runs[r])
    requires e.StateLook? || e.StateWrite? || e.StateEvict? || e.StateClose?
    ensures r in Happen(j, e).runs
    ensures Past(Happen(j, e).runs[r].stage) ==> e == StateWrite(r, true) && j.runs[r].stage.Accepting? && j.runs[r].op.Looked?
  {}

  lemma OtherPast(j: Journal, e: Event, r: string)
    requires Enabled(j, e) && r in j.runs && !Past(j.runs[r].stage) && !e.Unlock?
    requires !e.StateLook? && !e.StateWrite? && !e.StateEvict? && !e.StateClose?
    ensures r in Happen(j, e).runs && !Past(Happen(j, e).runs[r].stage)
  {}

  /** No run is begun whose queued record was not written first: whoever was told that a run is accepted
      finds it in its file, whatever happens later. */
  lemma {:induction false} AcceptedIsRecorded(states: seq<Journal>, events: seq<Event>, n: nat, r: string)
    requires IsRun(states, events) && n < |states|
    ensures QueuedFirst(states[n], r)
  {
    if n > 0 {
      assert StepAt(states, events, n - 1);
      RunInv(states, events, n - 1);
      AcceptedIsRecorded(states, events, n - 1, r);
      AlwaysLeftOpen(states, events, n - 1, r);
      var j, e := states[n - 1], events[n - 1];
      StepWrites(j, e, r);
      if r in j.runs && !Past(j.runs[r].stage) {
        StepPast(j, e, r);
        assert OpOk(j.runs[r]);
      } else if r !in j.runs {
        NewThread(j, e, r);
      }
    }
  }

  /** Whose record comes next: of the run whose event it is, or of the one that opened the bucket. */
  lemma WritesForOwner(states: seq<Journal>, events: seq<Event>, n: nat)
    requires IsRun(states, events) && n < |events|
    ensures events[n].KeyLook? ==>
      states[n].mu.Some? && states[n].mu.value.job.KeyJob? && IsFor(states[n + 1], states[n].mu.value.job.run)
    ensures events[n].Take? ==> events[n].typ in states[n].buf && IsFor(states[n + 1], states[n].buf[events[n].typ])
    ensures events[n].Put? || events[n].Spill? ==>
      events[n].typ in states[n + 1].buf
      && states[n + 1].buf[events[n].typ] == events[n].run
  {
    RunInv(states, events, n);
    assert StepAt(states, events, n);
    NoEvictedHandle(states, events, n);
    if events[n].Put? || events[n].Spill? { OneBucketOwner(states, events, n); }
  }
}
