/** Staging keys are drained for good: what the timed protocol guarantees over whole runs. */
module StagingTheorems {
  import opened Wrappers
  import opened UploadRows
  import opened ObjectStore
  import opened UploadProtocol
  import opened UploadInvariant
  import opened UploadTheorems
  import opened StagingDrain

  // When the deletion of a staging key falls due, every form ever signed for it has expired.
  lemma DueAfterForms(events: seq<Event>, u: UploadId)
    requires Staging(u) in Due(TimedRun(START, events).s.tables, TimedRun(START, events).time)
    ensures var t := TimedRun(START, events);
            && u in t.s.tables.uploads && !Open(t.s.tables.uploads[u])
            && forall e :: e in Forms(t, u) ==> e <= t.time
  {
    hide TimedRun;
    StartInv();
    TimedKeeps(START, events);
    DueIsClosed(TimedRun(START, events), u);
  }

  // An upload is completed within its session, and given up only after it.
  lemma EndsInTime(events: seq<Event>, u: UploadId)
    requires u in TimedRun(START, events).s.tables.uploads
    ensures var t := TimedRun(START, events); var row := t.s.tables.uploads[u];
            && (row.status.Completed? ==> u in t.completedAt && t.completedAt[u] < row.expiresAt)
            && (row.status.CleanupPending? ==> row.expiresAt <= t.time)
  {
    hide TimedRun, Inv, DrainOk, JobClosed, FileKeysOk;
    StartInv();
    TimedKeeps(START, events);
    assert FormsOk(TimedRun(START, events), u);
  }

  // The staging key of a terminal upload has an outbox entry, or it is empty in every later state
  // and gets no entry again.
  lemma StagingDrained(before: seq<Event>, after: seq<Event>, u: UploadId)
    requires var t := TimedRun(START, before);
             u in t.s.tables.uploads && !Open(t.s.tables.uploads[u]) && Staging(u) !in t.s.tables.outbox
    ensures var t := TimedRun(TimedRun(START, before), after);
            Staging(u) !in t.s.tables.outbox && At(t.s.store, Staging(u)) == []
  {
    hide TimedRun;
    StartInv();
    TimedKeeps(START, before);
    DrainedForever(TimedRun(START, before), after, u);
  }

  lemma {:induction false} DrainedForever(t: Timed, events: seq<Event>, u: UploadId)
    requires TimedInv(t)
    requires u in t.s.tables.uploads && !Open(t.s.tables.uploads[u]) && Staging(u) !in t.s.tables.outbox
    ensures var t' := TimedRun(t, events);
            Staging(u) !in t'.s.tables.outbox && At(t'.s.store, Staging(u)) == []
    decreases |events|
  {
    hide Step, Inv, FormsOk, FileKeysOk, JobClosed, Closed;
    if events == [] {
      assert DrainOk(t, u);
    } else {
      var t' := Step(t, events[0]);
      TimedKeeps(t, [events[0]]);
      assert [events[0]][1..] == [];
      assert TimedRun(t, [events[0]]) == TimedRun(t', []);
      StaysOut(t, events[0], u);
      DrainedForever(t', events[1..], u);
    }
  }

  lemma StaysOut(t: Timed, e: Event, u: UploadId)
    requires TimedInv(t)
    requires u in t.s.tables.uploads && !Open(t.s.tables.uploads[u]) && Staging(u) !in t.s.tables.outbox
    ensures var s := Step(t, e).s; u in s.tables.uploads && !Open(s.tables.uploads[u]) && Staging(u) !in s.tables.outbox
  {
    hide Next, Timely, FormsOk, DrainOk, JobClosed, FileKeysOk, RowOk, CallOk, FileOk, JobOk, ObjectOk;
    if e.Do? {
      NextGrows(t.s, e.a);
      NextStaging(t.s, e.a, u);
    }
  }

  // The delay cannot be shorter: a form signed at the last moment is still accepted a second earlier.
  lemma ShorterDelayFails(t: Timed, u: UploadId, o: Object)
    requires u in t.s.tables.uploads && u in t.completedAt && t.time == t.completedAt[u] + SIGNING_SECONDS
    requires t.completedAt[u] + REPLAY_SECONDS <= t.s.tables.uploads[u].expiresAt
    ensures var t' := Step(Step(t, Sign(u, FORM_SECONDS)), Tick(299));
            t'.time == t.completedAt[u] + REPLAY_SECONDS - 1 && Timely(t', Post(u, o))
  {
    var t' := Step(Step(t, Sign(u, FORM_SECONDS)), Tick(299));
    assert t.completedAt[u] + REPLAY_SECONDS in Forms(t', u);
  }
}
