/** Undisturbed passes over staging keys, in the timed protocol and by the service. */
module StagingPasses {
  import opened Wrappers
  import opened UploadRows
  import opened ObjectStore
  import opened UploadProtocol
  import opened StagingDrain
  import opened CleanupPasses
  import Uploads

  function Dos(actions: seq<Action>): seq<Event> {
    if actions == [] then [] else [Do(actions[0])] + Dos(actions[1..])
  }

  // Steps of deletion passes read the clock, if at all, at `now`.
  predicate PassStep(a: Action, now: Time) {
    (a.ReadEntry? && a.now == now) || a.List? || a.DeleteNext? || a.Recheck?
  }

  lemma {:induction false} TimedPass(t: Timed, actions: seq<Action>)
    requires forall i :: 0 <= i < |actions| ==> PassStep(actions[i], t.time)
    ensures var t' := TimedRun(t, Dos(actions)); t'.s == Run(t.s, actions) && t'.time == t.time
    decreases |actions|
  {
    hide Next;
    if actions != [] {
      var t1 := Step(t, Do(actions[0]));
      assert PassStep(actions[0], t.time);
      assert t1.s == Next(t.s, actions[0]) && t1.time == t.time;
      TimedPass(t1, actions[1..]);
      assert Dos(actions)[1..] == Dos(actions[1..]);
    }
  }

  lemma {:induction false} DeletesAreSteps(j: nat, n: nat, now: Time)
    ensures forall i :: 0 <= i < |Deletes(j, n)| ==> PassStep(Deletes(j, n)[i], now)
  {
    if n > 0 { DeletesAreSteps(j, n - 1, now); }
  }

  lemma EntryPassSteps(s: State, j: nat, key: Key, now: Time)
    ensures forall i :: 0 <= i < |EntryPass(s, j, key, now)| ==> PassStep(EntryPass(s, j, key, now)[i], now)
  {
    hide Versions, Deletes;
    DeletesAreSteps(j, |Versions(s.store, key)|, now);
  }

  // The upload has ended and its forms have run out: a completion lies 305 seconds back.
  predicate Settled(t: Timed, u: UploadId) {
    && u in t.s.tables.uploads
    && (t.s.tables.uploads[u].status == CleanupPending
        || (t.s.tables.uploads[u].status == Completed && u in t.completedAt && t.completedAt[u] + 305 <= t.time))
  }

  lemma SettledIsDue(t: Timed, u: UploadId)
    requires TimedInv(t) && Settled(t, u) && Staging(u) in t.s.tables.outbox
    ensures t.s.tables.outbox[Staging(u)].notBefore <= t.time
  {
    hide JobClosed, FormsOk, FileKeysOk;
    assert DrainOk(t, u);
  }

  // From 305 seconds after its completion on, and at once after it was given up, an undisturbed pass over
  // the staging key of an upload leaves the key empty and without an outbox row.
  lemma SettledPassDrains(events: seq<Event>, u: UploadId, j: nat)
    requires var t := TimedRun(START, events);
             Settled(t, u) && Staging(u) in t.s.tables.outbox && j !in t.s.jobs
    ensures var t := TimedRun(START, events);
            var t' := TimedRun(t, Dos(EntryPass(t.s, j, Staging(u), t.time)));
            Staging(u) !in t'.s.tables.outbox && At(t'.s.store, Staging(u)) == [] && t'.time == t.time
  {
    hide TimedRun, EntryPass, Run;
    StartInv();
    TimedKeeps(START, events);
    var t := TimedRun(START, events);
    SettledIsDue(t, u);
    EntryPassSteps(t.s, j, Staging(u), t.time);
    TimedPass(t, EntryPass(t.s, j, Staging(u), t.time));
    EntryPassDrains(t.s, j, Staging(u), t.time);
  }

  // The same by the service's own drain loop, whatever else is in the outbox.
  method DrainSettled(service: Uploads.Service, now: Time, ghost events: seq<Event>, ghost u: UploadId)
    requires var t := TimedRun(START, events);
             service.Mirrors(t.s) && now == t.time && Settled(t, u)
    modifies service
    ensures Staging(u) !in service.outbox && At(service.store, Staging(u)) == []
  {
    ghost var t := TimedRun(START, events);
    assert TimedInv(t) by {
      StartInv();
      TimedKeeps(START, events);
    }
    assert DrainOk(t, u);
    service.DrainOutbox(now);
  }

  // A form that is answered is one that the timed protocol counts as signed.
  method AnswerForm(service: Uploads.Service, u: UploadId, created: bool, readAt: Time, signedAt: Time, ttl: nat, ghost t: Timed)
    returns (r: Result<Uploads.Response, Uploads.Error>)
    requires service.Mirrors(t.s) && u in t.s.tables.uploads && signedAt == t.time && 1 <= ttl <= 300
    ensures r.Success? && r.value.answer.Form? ==> r.value.answer.expiresAt in Forms(Step(t, Sign(u, ttl)), u)
  {
    r := service.Respond(u, created, readAt, signedAt, ttl);
  }
}
