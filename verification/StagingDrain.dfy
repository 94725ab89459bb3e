/** Upload forms, one real clock, and the draining of staging keys.

  The same protocol as in UploadProtocol, run under a clock that never goes back and that every
  transaction reads. Forms are signed for at most 300 seconds and never past the session; a client's
  post is accepted strictly before its form expires. Signing a form for an upload that was still
  pending when it was read happens at most 5 seconds after the transaction that completes it. */
module StagingDrain {
  import opened Wrappers
  import opened UploadRows
  import opened ObjectStore
  import opened UploadProtocol
  import opened UploadInvariant
  import opened UploadSteps
  import opened UploadTheorems

  const FORM_SECONDS := 300
  const SIGNING_SECONDS := 5

  // `forms` holds the expiries of all forms ever signed, `completedAt` the commit times.
  datatype Timed = Timed(s: State, time: Time, forms: map<UploadId, set<Time>>, completedAt: map<UploadId, Time>)

  datatype Event = Tick(seconds: nat) | Sign(u: UploadId, ttl: nat) | Do(a: Action)

  const START := Timed(UploadProtocol.EMPTY, 0, map[], map[])

  function Forms(t: Timed, u: UploadId): set<Time> {
    if u in t.forms then t.forms[u] else {}
  }

  function FormExpiry(row: Row, now: Time, ttl: nat): Time {
    if row.expiresAt < now + ttl then row.expiresAt else now + ttl
  }

  predicate Signable(t: Timed, u: UploadId, ttl: nat) {
    && u in t.s.tables.uploads && 1 <= ttl <= FORM_SECONDS
    && (t.s.tables.uploads[u].status.Completed? && u in t.completedAt ==> t.time <= t.completedAt[u] + SIGNING_SECONDS)
  }

  // The step happens now, and a post comes with a form that is still valid.
  predicate Timely(t: Timed, a: Action) {
    match a
    case Begin(_, _, now) => now == t.time
    case Claim(_, now) => now == t.time
    case Reject(_, now) => now == t.time
    case Finish(_, now) => now == t.time
    case Expire(now) => now == t.time
    case ReadEntry(_, _, now) => now == t.time
    case Post(u, _) => exists expiry :: expiry in Forms(t, u) && t.time < expiry
    case _ => true
  }

  function Completions(t: Timed, s: State): map<UploadId, Time> {
    map u | u in s.tables.uploads && s.tables.uploads[u].status.Completed? ::
      if u in t.completedAt then t.completedAt[u] else t.time
  }

  function Step(t: Timed, e: Event): Timed {
    match e
    case Tick(seconds) => t.(time := t.time + seconds)
    case Sign(u, ttl) =>
      if !Signable(t, u, ttl) then t
      else t.(forms := t.forms[u := Forms(t, u) + {FormExpiry(t.s.tables.uploads[u], t.time, ttl)}])
    case Do(a) =>
      if !Timely(t, a) then t
      else var s := Next(t.s, a); t.(s := s, completedAt := Completions(t, s))
  }

  function TimedRun(t: Timed, events: seq<Event>): Timed
    decreases |events|
  {
    if events == [] then t else TimedRun(Step(t, events[0]), events[1..])
  }

  // No form of `u` can be accepted any more, nor will one be signed that could.
  predicate Closed(t: Timed, u: UploadId) {
    && u in t.s.tables.uploads && !Open(t.s.tables.uploads[u])
    && if t.s.tables.uploads[u].status.Completed? then u in t.completedAt && t.completedAt[u] + REPLAY_SECONDS <= t.time
       else t.s.tables.uploads[u].expiresAt <= t.time
  }

  predicate FormsOk(t: Timed, u: UploadId) {
    if u !in t.s.tables.uploads then Forms(t, u) == {} && u !in t.completedAt
    else
      var row := t.s.tables.uploads[u];
      && (forall e :: e in Forms(t, u) ==> e <= row.expiresAt && e <= t.time + FORM_SECONDS)
      && (row.status.Completed? <==> u in t.completedAt)
      && (row.status.Completed? ==>
            && t.completedAt[u] <= t.time && t.completedAt[u] < row.expiresAt
            && forall e :: e in Forms(t, u) ==> e <= t.completedAt[u] + REPLAY_SECONDS)
      && (row.status.CleanupPending? ==> row.expiresAt <= t.time)
  }

  predicate DrainOk(t: Timed, u: UploadId) {
    u in t.s.tables.uploads && !Open(t.s.tables.uploads[u]) ==>
      if Staging(u) in t.s.tables.outbox then
        if t.s.tables.uploads[u].status.Completed? then
          u in t.completedAt && t.s.tables.outbox[Staging(u)].notBefore == t.completedAt[u] + REPLAY_SECONDS
        else t.s.tables.outbox[Staging(u)].notBefore <= t.time
      else Closed(t, u) && At(t.s.store, Staging(u)) == []
  }

  predicate JobClosed(t: Timed, j: nat) {
    j in t.s.jobs && t.s.jobs[j].key.Staging? ==> t.s.jobs[j].kind.OfEntry? && Closed(t, t.s.jobs[j].key.upload)
  }

  predicate FileKeysOk(s: State) {
    forall f :: f in s.tables.fileOutbox ==> !s.tables.fileOutbox[f].Staging?
  }

  ghost predicate TimedInv(t: Timed) {
    && Inv(t.s) && FileKeysOk(t.s)
    && (forall u :: FormsOk(t, u) && DrainOk(t, u))
    && (forall j :: JobClosed(t, j))
  }

  // What one protocol step does to an upload, its staging key and its outbox row.
  predicate StagingStep(s: State, s': State, a: Action, u: UploadId) {
    var key := Staging(u);
    && (u in s.tables.uploads ==>
          u in s'.tables.uploads && s'.tables.uploads[u].expiresAt == s.tables.uploads[u].expiresAt)
    && (At(s'.store, key) != At(s.store, key) ==>
          (a.Post? && a.u == u && u in s.tables.uploads) || forall o :: o in At(s'.store, key) ==> o in At(s.store, key))
    && (key in s'.tables.outbox ==>
          || (key in s.tables.outbox && s'.tables.outbox[key] == s.tables.outbox[key])
          || (u in s.tables.uploads && Open(s.tables.uploads[u]) && !Open(s'.tables.uploads[u])))
    && (u in s'.tables.uploads && !Open(s'.tables.uploads[u]) && (u in s.tables.uploads ==> Open(s.tables.uploads[u])) ==>
          && u in s.tables.uploads && key in s'.tables.outbox
          && if s'.tables.uploads[u].status.Completed? then
               a.Finish? && a.now < s.tables.uploads[u].expiresAt && (key !in s.tables.outbox ==> s'.tables.outbox[key].notBefore == a.now + REPLAY_SECONDS)
             else
               a.Expire? && s.tables.uploads[u].expiresAt <= a.now && (key !in s.tables.outbox ==> s'.tables.outbox[key].notBefore == a.now))
    && (key in s.tables.outbox && key !in s'.tables.outbox ==>
          a.Recheck? && a.j in s.jobs && s.jobs[a.j].key == key && At(s.store, key) == [] && At(s'.store, key) == [])
  }

  lemma ClaimStaging(s: State, u: UploadId, w: CallId, now: Time, x: UploadId)
    requires RowOk(s, u) && UploadRows.Claim(s.tables, u, w, now).Some?
    ensures var t := UploadRows.Claim(s.tables, u, w, now).value;
            && (Staging(x) in t.outbox <==> Staging(x) in s.tables.outbox)
            && (Staging(x) in t.outbox ==> t.outbox[Staging(x)] == s.tables.outbox[Staging(x)])
            && t.uploads.Keys == s.tables.uploads.Keys
            && (x in t.uploads ==>
                  && t.uploads[x].expiresAt == s.tables.uploads[x].expiresAt
                  && (Open(t.uploads[x]) <==> Open(s.tables.uploads[x])))
  {
    hide Attempt;
  }

  lemma FinishStaging(s: State, u: UploadId, w: CallId, now: Time, x: UploadId)
    requires UploadRows.Finish(s.tables, u, w, now).Some?
    ensures var t := UploadRows.Finish(s.tables, u, w, now).value;
            && t.uploads == s.tables.uploads[u := Released(s.tables.uploads[u], Completed)]
            && u in s.tables.uploads && Open(s.tables.uploads[u])
            && (Staging(x) in t.outbox <==> Staging(x) in s.tables.outbox || x == u)
            && (Staging(x) in s.tables.outbox ==> t.outbox[Staging(x)] == s.tables.outbox[Staging(x)])
            && (Staging(u) !in s.tables.outbox ==> t.outbox[Staging(u)].notBefore == now + REPLAY_SECONDS)
            && now < s.tables.uploads[u].expiresAt
  {
  }

  lemma ClaimCase(s: State, w: CallId, now: Time, x: UploadId)
    requires forall u :: RowOk(s, u)
    ensures StagingStep(s, CallNext(s, Action.Claim(w, now)), Action.Claim(w, now), x)
  {
    hide Queued, UploadRows.Claim, RowOk, Open;
    if Active(s, w) && UploadRows.Claim(s.tables, s.calls[w].upload, w, now).Some? {
      assert RowOk(s, s.calls[w].upload);
      ClaimStaging(s, s.calls[w].upload, w, now, x);
    }
  }

  lemma FinishCase(s: State, w: CallId, now: Time, x: UploadId)
    ensures StagingStep(s, CallNext(s, Action.Finish(w, now)), Action.Finish(w, now), x)
  {
    hide Queued, UploadRows.Finish;
    if Active(s, w) && UploadRows.Finish(s.tables, s.calls[w].upload, w, now).Some? {
      FinishStaging(s, s.calls[w].upload, w, now, x);
    }
  }

  lemma CallStaging(s: State, a: Action, x: UploadId)
    requires forall u :: RowOk(s, u)
    ensures StagingStep(s, CallNext(s, a), a, x)
  {
    hide RowOk;
    match a
    case Claim(w, now) => ClaimCase(s, w, now, x);
    case Finish(w, now) => FinishCase(s, w, now, x);
    case _ => PlainCase(s, a, x);
  }

  lemma PlainCase(s: State, a: Action, x: UploadId)
    requires !a.Claim? && !a.Finish?
    ensures StagingStep(s, CallNext(s, a), a, x)
  {
    if a.Restore? { RestoreCase(s, a.w, x); }
    else if a.Reject? { RejectCase(s, a.w, a.now, x); }
    else { CallFrame(s, a, x); }
  }

  lemma RestoreCase(s: State, w: CallId, x: UploadId)
    ensures StagingStep(s, CallNext(s, Action.Restore(w)), Action.Restore(w), x)
  {
    hide Queued;
  }

  lemma RejectCase(s: State, w: CallId, now: Time, x: UploadId)
    ensures StagingStep(s, CallNext(s, Reject(w, now)), Reject(w, now), x)
  {
    hide Queued;
  }

  lemma CallFrame(s: State, a: Action, x: UploadId)
    requires !a.Claim? && !a.Finish? && !a.Restore? && !a.Reject?
    ensures var t := CallNext(s, a); t.tables == s.tables && At(t.store, Staging(x)) == At(s.store, Staging(x))
  {
    hide Without, Find, Matches, CandidateMatches, Head, UploadRows.Claim, UploadRows.Finish, UploadRows.Restore, Enqueue, Queued;
  }

  lemma SaveStaging(s: State, a: Action, x: UploadId)
    ensures StagingStep(s, SaveNext(s, a), a, x)
  {
    hide Queued, Without;
  }

  lemma SessionStaging(s: State, a: Action, x: UploadId)
    requires forall u :: RowOk(s, u)
    ensures StagingStep(s, SessionNext(s, a), a, x)
  {
    hide RowOk;
    if a.Expire? { ExpireCase(s, a.now, x); } else { OpenCase(s, a, x); }
  }

  lemma OpenCase(s: State, a: Action, x: UploadId)
    requires !a.Expire?
    ensures StagingStep(s, SessionNext(s, a), a, x)
  {
    hide Queued, Without;
  }

  lemma ExpireCase(s: State, now: Time, x: UploadId)
    requires forall u :: RowOk(s, u)
    ensures StagingStep(s, SessionNext(s, Action.Expire(now)), Action.Expire(now), x)
  {
    hide Queued, RowOk, ExpiredKeys, UploadRows.Expire;
    ExpireStaging(s, now, x);
    ExpireRows(s.tables, now, x);
  }

  lemma ExpireRows(t: Tables, now: Time, x: UploadId)
    ensures var t' := UploadRows.Expire(t, now);
            && (x in t'.uploads <==> x in t.uploads)
            && (x in t.uploads && x in Expired(t, now) ==>
                  && t'.uploads[x] == Released(t.uploads[x], CleanupPending)
                  && Open(t.uploads[x]) && t.uploads[x].expiresAt <= now)
            && (x in t.uploads && x !in Expired(t, now) ==> t'.uploads[x] == t.uploads[x])
  {
    hide ExpiredKeys;
  }

  lemma ExpiredStaging(s: State, now: Time, x: UploadId)
    requires forall u :: RowOk(s, u)
    ensures Staging(x) in ExpiredKeys(s.tables, now) <==> x in Expired(s.tables, now)
  {
    hide Attempt, Expirable;
    forall u | u in s.tables.uploads ensures s.tables.uploads[u].candidate != Some(Staging(x)) { assert RowOk(s, u); }
  }

  lemma ExpireStaging(s: State, now: Time, x: UploadId)
    requires forall u :: RowOk(s, u)
    ensures var t := UploadRows.Expire(s.tables, now);
            && (Staging(x) in t.outbox <==> Staging(x) in s.tables.outbox || x in Expired(s.tables, now))
            && (Staging(x) in s.tables.outbox ==> t.outbox[Staging(x)] == s.tables.outbox[Staging(x)])
            && (x in Expired(s.tables, now) && Staging(x) !in s.tables.outbox ==> t.outbox[Staging(x)].notBefore == now)
  {
    hide RowOk, Expired, ExpiredKeys;
    ExpiredStaging(s, now, x);
  }

  lemma JobStaging(s: State, a: Action, x: UploadId)
    ensures StagingStep(s, JobNext(s, a), a, x)
  {
    hide StagingStep;
    if a.DeleteNext? { DeleteCase(s, a.j, x); } else { JobCase(s, a, x); }
  }

  lemma DeleteCase(s: State, j: nat, x: UploadId)
    ensures StagingStep(s, JobNext(s, DeleteNext(j)), DeleteNext(j), x)
  {
    hide Queued, Versions;
  }

  lemma JobCase(s: State, a: Action, x: UploadId)
    requires !a.DeleteNext?
    ensures StagingStep(s, JobNext(s, a), a, x)
  {
    hide Queued, Versions, DeleteVersion, At, Due;
    if !a.Recheck? { JobTables(s, a); }
  }

  lemma JobTables(s: State, a: Action)
    requires !a.DeleteNext? && !a.Recheck?
    ensures JobNext(s, a).tables == s.tables && JobNext(s, a).store == s.store
  {
    hide Versions, Due;
  }

  lemma NextStaging(s: State, a: Action, x: UploadId)
    requires forall u :: RowOk(s, u)
    ensures StagingStep(s, Next(s, a), a, x)
  {
    hide RowOk, CallNext, SaveNext, SessionNext, JobNext, StagingStep;
    CallStaging(s, a, x);
    SaveStaging(s, a, x);
    SessionStaging(s, a, x);
    JobStaging(s, a, x);
  }

  lemma TickKeeps(t: Timed, seconds: nat)
    requires TimedInv(t)
    ensures TimedInv(Step(t, Tick(seconds)))
  {
    hide Inv, FileKeysOk;
    var t' := Step(t, Tick(seconds));
    forall u ensures FormsOk(t', u) { assert FormsOk(t, u); assert Forms(t', u) == Forms(t, u); }
    forall u ensures DrainOk(t', u) { assert DrainOk(t, u); }
    forall j ensures JobClosed(t', j) { assert JobClosed(t, j); }
  }

  lemma SignKeeps(t: Timed, u: UploadId, ttl: nat)
    requires TimedInv(t)
    ensures TimedInv(Step(t, Sign(u, ttl)))
  {
    hide Inv, FileKeysOk;
    var t' := Step(t, Sign(u, ttl));
    forall x ensures FormsOk(t', x) {
      assert FormsOk(t, x);
      assert Forms(t', x) == Forms(t, x) || (x == u && Forms(t', x) == Forms(t, x) + {FormExpiry(t.s.tables.uploads[u], t.time, ttl)});
    }
    forall x ensures DrainOk(t', x) { assert DrainOk(t, x); }
    forall j ensures JobClosed(t', j) { assert JobClosed(t, j); }
  }

  predicate Done(t: Timed, a: Action, t': Timed) {
    Timely(t, a) && t' == Step(t, Do(a))
  }

  // Once closed, an upload stays closed.
  lemma ClosedStays(t: Timed, a: Action, t': Timed, u: UploadId)
    requires Closed(t, u) && Grows(t.s, t'.s) && Done(t, a, t')
    ensures Closed(t', u)
  {
    hide Next, Timely;
  }

  lemma FormsStep(t: Timed, a: Action, t': Timed, u: UploadId)
    requires FormsOk(t, u) && Grows(t.s, t'.s) && Done(t, a, t') && StagingStep(t.s, t'.s, a, u)
    ensures FormsOk(t', u)
  {
    hide Next, Queued;
    assert Forms(t', u) == Forms(t, u);
  }

  lemma DrainStep(t: Timed, a: Action, t': Timed, u: UploadId)
    requires FormsOk(t, u) && DrainOk(t, u) && Grows(t.s, t'.s) && Done(t, a, t') && StagingStep(t.s, t'.s, a, u)
    requires RowOk(t.s, u) && QueuesOk(t.s) && (a.Recheck? ==> JobClosed(t, a.j))
    ensures DrainOk(t', u)
  {
    hide Next;
    var key := Staging(u);
    assert key in t.s.tables.outbox ==> key in t.s.doomed;
    if u in t'.s.tables.uploads && !Open(t'.s.tables.uploads[u]) && key !in t'.s.tables.outbox {
      DrainedStep(t, a, t', u);
    }
  }

  lemma DrainedStep(t: Timed, a: Action, t': Timed, u: UploadId)
    requires FormsOk(t, u) && DrainOk(t, u) && Grows(t.s, t'.s) && Done(t, a, t') && StagingStep(t.s, t'.s, a, u)
    requires a.Recheck? ==> JobClosed(t, a.j)
    requires u in t'.s.tables.uploads && !Open(t'.s.tables.uploads[u]) && Staging(u) !in t'.s.tables.outbox
    ensures Closed(t', u) && At(t'.s.store, Staging(u)) == []
  {
    hide Next;
    assert u in t.s.tables.uploads && !Open(t.s.tables.uploads[u]);
    assert Closed(t, u);
    ClosedStays(t, a, t', u);
    assert |At(t'.s.store, Staging(u))| > 0 ==> At(t'.s.store, Staging(u))[0] in At(t'.s.store, Staging(u));
  }

  // Jobs on staging keys start only when the entry is due.
  lemma JobStep(t: Timed, a: Action, t': Timed, j: nat)
    requires TimedInv(t) && Done(t, a, t')
    ensures JobClosed(t', j)
  {
    hide CallNext, SessionNext, Inv, Closed, FormsOk, DrainOk, Queued;
    NextGrows(t.s, a);
    assert JobClosed(t, j);
    if j in t.s.jobs {
      if t.s.jobs[j].key.Staging? { ClosedStays(t, a, t', t.s.jobs[j].key.upload); }
      JobsKeepKeys(t.s, a, j);
    } else if j in t'.s.jobs && t'.s.jobs[j].key.Staging? {
      NewJob(t.s, a, j);
      var u := t'.s.jobs[j].key.upload;
      DueIsClosed(t, u);
      ClosedStays(t, a, t', u);
    }
  }

  predicate KeepsJob(s: State, t: State, j: nat) {
    j in s.jobs ==> j in t.jobs && t.jobs[j].key == s.jobs[j].key && t.jobs[j].kind == s.jobs[j].kind
  }

  lemma SaveJobs(s: State, a: Action, j: nat)
    ensures KeepsJob(s, SaveNext(s, a), j)
  {
    hide Queued, Put, UploadRows.Remove;
  }

  lemma JobJobs(s: State, a: Action, j: nat)
    ensures KeepsJob(s, JobNext(s, a), j)
  {
    hide Versions, DeleteVersion, Due, At;
  }

  lemma JobsKeepKeys(s: State, a: Action, j: nat)
    ensures KeepsJob(s, Next(s, a), j)
  {
    hide CallNext, SaveNext, SessionNext, JobNext;
    CallJobs(s, a);
    SaveJobs(s, a, j);
    JobJobs(s, a, j);
  }

  // Only saves, cleanup passes and removals touch the jobs.
  lemma CallJobs(s: State, a: Action)
    ensures CallNext(s, a).jobs == s.jobs && SessionNext(s, a).jobs == s.jobs
  {
    hide Queued, Put, Find, Matches, CandidateMatches, Head, UploadRows.Claim, UploadRows.Finish, UploadRows.Restore,
      UploadRows.Expire;
  }

  lemma NewJob(s: State, a: Action, j: nat)
    requires FileKeysOk(s) && j !in s.jobs && j in Next(s, a).jobs && Next(s, a).jobs[j].key.Staging?
    ensures a.ReadEntry? && Next(s, a).jobs[j].kind.OfEntry? && Next(s, a).jobs[j].key in Due(s.tables, a.now)
  {
    hide Queued, Versions, DeleteVersion, CallNext, SessionNext, UploadRows.Remove;
    CallJobs(s, a);
  }

  // When the deletion of a staging key falls due, no form for it can be accepted any more.
  lemma DueIsClosed(t: Timed, u: UploadId)
    requires TimedInv(t) && Staging(u) in Due(t.s.tables, t.time)
    ensures Closed(t, u) && forall e :: e in Forms(t, u) ==> e <= t.time
  {
    hide CallOk, FileOk, JobOk, ObjectOk, JobClosed, FileKeysOk;
    assert FormsOk(t, u) && DrainOk(t, u) && RowOk(t.s, u);
    assert Staging(u) in t.s.doomed;
  }

  lemma DoKeeps(t: Timed, a: Action)
    requires TimedInv(t) && Timely(t, a)
    ensures TimedInv(Step(t, Do(a)))
  {
    hide Next, Inv, FormsOk, DrainOk, JobClosed, FileKeysOk, Timely, StagingStep, Grows;
    var t' := Step(t, Do(a));
    NextKeeps(t.s, a);
    NextGrows(t.s, a);
    FileKeysStep(t.s, a);
    forall u ensures FormsOk(t', u) && DrainOk(t', u) { UploadStep(t, a, t', u); }
    forall j ensures JobClosed(t', j) { JobStep(t, a, t', j); }
  }

  lemma UploadStep(t: Timed, a: Action, t': Timed, u: UploadId)
    requires TimedInv(t) && Done(t, a, t') && Grows(t.s, t'.s)
    ensures FormsOk(t', u) && DrainOk(t', u)
  {
    hide Next, FormsOk, DrainOk, JobClosed, FileKeysOk, Timely, StagingStep, Grows, RowOk, CallOk, FileOk, JobOk, ObjectOk;
    assert FormsOk(t, u) && DrainOk(t, u) && RowOk(t.s, u);
    assert a.Recheck? ==> JobClosed(t, a.j);
    NextStaging(t.s, a, u);
    FormsStep(t, a, t', u);
    DrainStep(t, a, t', u);
  }

  // Removed files never had a staging key.
  lemma FileKeysStep(s: State, a: Action)
    requires Inv(s) && FileKeysOk(s)
    ensures FileKeysOk(Next(s, a))
  {
    hide CallNext, SaveNext, SessionNext, JobNext, Inv, FileKeysOk;
    CallFileKeys(s, a);
    SaveFileKeys(s, a);
    SessionFileKeys(s, a);
    JobFileKeys(s, a);
  }

  lemma CallFileKeys(s: State, a: Action)
    requires FileKeysOk(s)
    ensures FileKeysOk(CallNext(s, a))
  {
    hide Queued, Put, Find, Matches, CandidateMatches, Head, UploadRows.Claim, UploadRows.Finish, UploadRows.Restore, FileKeysOk;
    match a {
      case Claim(w, now) => if Active(s, w) { QueueFrame(s.tables, s.calls[w].upload, w, now); }
      case Finish(w, now) => if Active(s, w) { QueueFrame(s.tables, s.calls[w].upload, w, now); }
      case Restore(w) => if Active(s, w) { QueueFrame(s.tables, s.calls[w].upload, w, 0); }
      case _ =>
    }
    SameFileKeys(s, CallNext(s, a));
  }

  lemma SameFileKeys(s: State, t: State)
    requires FileKeysOk(s) && t.tables.fileOutbox == s.tables.fileOutbox
    ensures FileKeysOk(t)
  {
  }

  lemma QueueFrame(t: Tables, u: UploadId, w: CallId, now: Time)
    ensures var c, f := UploadRows.Claim(t, u, w, now), UploadRows.Finish(t, u, w, now);
            && (c.Some? ==> c.value.fileOutbox == t.fileOutbox)
            && (f.Some? ==> f.value.fileOutbox == t.fileOutbox)
            && UploadRows.Restore(t, u, w).fileOutbox == t.fileOutbox
  {
  }

  lemma SaveFileKeys(s: State, a: Action)
    requires Inv(s) && FileKeysOk(s)
    ensures FileKeysOk(SaveNext(s, a))
  {
    hide Queued, Put, RowOk, CallOk, JobOk, ObjectOk, Single, CopyOf;
    if a.Remove? { assert FileOk(s, a.f); }
  }

  lemma SessionFileKeys(s: State, a: Action)
    requires FileKeysOk(s)
    ensures FileKeysOk(SessionNext(s, a))
  {
    hide Queued, Put, ExpiredKeys;
  }

  lemma JobFileKeys(s: State, a: Action)
    requires FileKeysOk(s)
    ensures FileKeysOk(JobNext(s, a))
  {
    hide Queued, Versions, DeleteVersion, Due, At;
  }

  lemma {:induction false} TimedKeeps(t: Timed, events: seq<Event>)
    requires TimedInv(t)
    ensures TimedInv(TimedRun(t, events))
    decreases |events|
  {
    hide TimedInv, Step, Timely;
    if events != [] {
      match events[0] {
        case Tick(seconds) => TickKeeps(t, seconds);
        case Sign(u, ttl) => SignKeeps(t, u, ttl);
        case Do(a) => if Timely(t, a) { DoKeeps(t, a); } else { LateStep(t, a); }
      }
      TimedKeeps(Step(t, events[0]), events[1..]);
    }
  }

  lemma LateStep(t: Timed, a: Action)
    requires !Timely(t, a)
    ensures Step(t, Do(a)) == t
  {
  }

  lemma StartInv()
    ensures TimedInv(START)
  {
    EmptyInv();
  }
}
