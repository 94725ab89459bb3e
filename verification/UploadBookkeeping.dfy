/** No object is forgotten, and a lease excludes everybody else while it runs. */
module UploadBookkeeping {
  import opened Wrappers
  import opened UploadRows
  import opened ObjectStore
  import opened UploadProtocol
  import opened UploadInvariant
  import opened UploadSteps
  import opened UploadTheorems

  // The call has claimed its upload, or left an object behind.
  predicate Used(s: State, w: CallId) {
    || At(s.store, Candidate(w)) != []
    || (w in s.calls && s.calls[w].Completing? && !s.calls[w].pc.Claiming? && !s.calls[w].pc.Ended?)
  }

  // A used candidate key is the candidate of its upload, or was handed to deletion.
  predicate CandidateKept(s: State, w: CallId) {
    Used(s, w) ==>
      && w in s.calls && s.calls[w].Completing? && s.calls[w].upload in s.tables.uploads
      && (Candidate(w) in s.doomed || s.tables.uploads[s.calls[w].upload].candidate == Some(Candidate(w)))
  }

  predicate RowKept(s: State, u: UploadId) {
    u in s.tables.uploads ==>
      var row := s.tables.uploads[u];
      && (row.token.Some? <==> row.leaseExpiresAt.Some?)
      && (row.status.CleanupPending? ==>
            Staging(u) in s.doomed && (row.candidate.Some? ==> row.candidate.value in s.doomed))
      && (row.status.Completed? ==>
            && Staging(u) in s.doomed
            && row.candidate.Some? && (UploadFile(u) in s.tables.files || row.candidate.value in s.doomed))
  }

  predicate SavedKept(s: State, w: CallId) {
    At(s.store, Saved(w)) != [] ==>
      w in s.calls && (s.calls[w].Inserting? || SavedFile(w) in s.tables.files || Saved(w) in s.doomed)
  }

  predicate StagingKept(s: State, u: UploadId) {
    At(s.store, Staging(u)) != [] ==> u in s.tables.uploads
  }

  ghost predicate Kept(s: State) {
    && (forall w :: CandidateKept(s, w) && SavedKept(s, w))
    && (forall u :: RowKept(s, u) && StagingKept(s, u))
  }

  // ---- Steps of a call ----

  // What one such step does to the tables.
  predicate CallStep(s: State, t: State) {
    && s.doomed <= t.doomed
    && (forall f :: f in s.tables.files ==> f in t.tables.files)
    && t.tables.uploads.Keys == s.tables.uploads.Keys
    && (forall u :: u in s.tables.uploads ==>
          var row, row' := s.tables.uploads[u], t.tables.uploads[u];
          && (row'.candidate != row.candidate && row.candidate.Some? ==> row.candidate.value in t.doomed)
          && (row'.candidate != row.candidate ==> row'.candidate.Some?)
          && ((row.token.Some? <==> row.leaseExpiresAt.Some?) ==> (row'.token.Some? <==> row'.leaseExpiresAt.Some?))
          && (!row'.status.CleanupPending? || row' == row)
          && (row'.status.Completed? && row' != row ==>
                UploadFile(u) in t.tables.files && Staging(u) in t.doomed && row'.candidate.Some?))
  }

  lemma ClaimStep(s: State, w: CallId, now: Time)
    requires QueuesOk(s)
    ensures CallStep(s, CallNext(s, Action.Claim(w, now)))
  {
    hide Queued, Claimable, QueuesOk;
    if Active(s, w) && s.calls[w].pc.Claiming? && Claimable(RowOf(s, w), now) { ClaimedStep(s, w, now); }
  }

  lemma ClaimedStep(s: State, w: CallId, now: Time)
    requires QueuesOk(s) && Active(s, w) && s.calls[w].pc.Claiming? && Claimable(RowOf(s, w), now)
    ensures CallStep(s, CallNext(s, Action.Claim(w, now)))
  {
    hide Queued, Claimable, QueuesOk, CallNext;
    ClaimShape(s, w, now);
    assert Next(s, Action.Claim(w, now)) == CallNext(s, Action.Claim(w, now));
    ClaimLease(s, w, now);
  }

  lemma ClaimLease(s: State, w: CallId, now: Time)
    requires Active(s, w) && s.calls[w].pc.Claiming? && Claimable(RowOf(s, w), now)
    ensures CallNext(s, Action.Claim(w, now)).tables.uploads[s.calls[w].upload].leaseExpiresAt == Some(now + LEASE_SECONDS)
  {
    hide Queued, Claimable;
  }

  lemma EnqueuedIsQueued(t: Tables, key: Key)
    ensures key in t.outbox ==> key in Queued(t)
  {
  }

  lemma FinishStep(s: State, w: CallId, now: Time)
    requires Inv(s)
    ensures CallStep(s, CallNext(s, Action.Finish(w, now)))
  {
    hide Queued, CallOk, FileOk, JobOk, ObjectOk, Attempt;
    if Active(s, w) && UploadRows.Finish(s.tables, s.calls[w].upload, w, now).Some? {
      var u := s.calls[w].upload;
      assert RowOk(s, u);
      EnqueuedIsQueued(UploadRows.Finish(s.tables, u, w, now).value, Staging(u));
    }
  }

  lemma PlainStep(s: State, a: Action)
    requires !a.Claim? && !a.Finish?
    ensures CallStep(s, CallNext(s, a))
  {
    hide CallNext;
    if a.Restore? { RestoreStep(s, a.w); }
    else if a.Reject? { RejectStep(s, a.w, a.now); }
    else { TablesLeft(s, a); }
  }

  lemma RestoreStep(s: State, w: CallId)
    ensures CallStep(s, CallNext(s, Action.Restore(w)))
  {
    hide Queued;
  }

  lemma RejectStep(s: State, w: CallId, now: Time)
    ensures CallStep(s, CallNext(s, Reject(w, now)))
  {
    hide Queued;
  }

  lemma TablesLeft(s: State, a: Action)
    requires !a.Claim? && !a.Finish? && !a.Restore? && !a.Reject?
    ensures CallNext(s, a).tables == s.tables && CallNext(s, a).doomed == s.doomed
  {
    hide Queued, Put, Find, Matches, CandidateMatches, Head;
  }

  lemma CallStepHolds(s: State, a: Action)
    requires Inv(s)
    ensures CallStep(s, CallNext(s, a))
  {
    hide CallStep, CallNext, RowOk, CallOk, FileOk, JobOk, ObjectOk, LogOk;
    match a {
      case Claim(w, now) => ClaimStep(s, w, now);
      case Finish(w, now) => FinishStep(s, w, now);
      case _ => PlainStep(s, a);
    }
  }

  // After such a step a used candidate key was used before, or its call has just claimed.
  predicate SameCall(s: State, t: State, w: CallId) {
    w in s.calls && s.calls[w].Completing? ==>
      w in t.calls && t.calls[w].Completing? && t.calls[w].upload == s.calls[w].upload
  }

  predicate JustClaimed(t: State, w: CallId) {
    w in t.calls && t.calls[w].Completing? && t.calls[w].upload in t.tables.uploads
    && t.tables.uploads[t.calls[w].upload].candidate == Some(Candidate(w))
  }

  lemma CallUses(s: State, a: Action, w: CallId)
    requires CallOk(s, w) && Used(CallNext(s, a), w)
    ensures var t := CallNext(s, a); (Used(s, w) && SameCall(s, t, w)) || JustClaimed(t, w)
  {
    hide Used, CallNext, CallOk;
    if w in s.calls { CallCalls(s, a, w); }
    if a.Claim? { ClaimUses(s, a.w, a.now, w); }
    else if a.Copy? { CopyUses(s, a.w, a.version, w); }
    else { PlainUses(s, a, w); }
  }

  lemma ClaimUses(s: State, c: CallId, now: Time, w: CallId)
    requires Used(CallNext(s, Action.Claim(c, now)), w)
    ensures Used(s, w) || JustClaimed(CallNext(s, Action.Claim(c, now)), w)
  {
    hide Queued, Claimable;
  }

  lemma CopyUses(s: State, c: CallId, version: VersionId, w: CallId)
    requires Used(CallNext(s, Action.Copy(c, version)), w)
    ensures Used(s, w)
  {
    hide Without, Find;
  }

  lemma PlainUses(s: State, a: Action, w: CallId)
    requires !a.Claim? && !a.Copy? && CallOk(s, w) && Used(CallNext(s, a), w)
    ensures Used(s, w)
  {
    hide Queued, Find, Matches, CandidateMatches, Head, UploadRows.Finish, UploadRows.Restore, Enqueue, CopyOf, Checked;
  }

  lemma CallCandidate(s: State, a: Action, w: CallId)
    requires Inv(s) && CandidateKept(s, w)
    ensures CandidateKept(CallNext(s, a), w)
  {
    hide CallNext, Used, RowOk, FileOk, JobOk, ObjectOk, LogOk, QueuesOk, PcOk;
    CallStepHolds(s, a);
    if Used(CallNext(s, a), w) {
      assert CallOk(s, w);
      CallUses(s, a, w);
    }
  }

  lemma CallRow(s: State, a: Action, u: UploadId)
    requires Inv(s) && RowKept(s, u)
    ensures RowKept(CallNext(s, a), u)
  {
    hide CallNext, FileOk, JobOk, ObjectOk, LogOk, QueuesOk, CallOk;
    CallStepHolds(s, a);
    assert RowOk(s, u);
  }

  lemma CallSaved(s: State, a: Action, w: CallId)
    requires Inv(s) && SavedKept(s, w)
    ensures SavedKept(CallNext(s, a), w)
  {
    hide CallNext, RowOk, CallOk, FileOk, JobOk, ObjectOk, LogOk, QueuesOk;
    CallStepHolds(s, a);
    CallStores(s, a, Saved(w));
    if w in s.calls { CallCalls(s, a, w); }
  }

  lemma CallStores(s: State, a: Action, key: Key)
    requires !key.Candidate?
    ensures At(CallNext(s, a).store, key) == At(s.store, key)
  {
    hide Queued, Without, Find, Matches, CandidateMatches, Head, UploadRows.Claim, UploadRows.Finish, UploadRows.Restore, Enqueue;
  }

  // Calls stay, and keep their upload.
  lemma CallCalls(s: State, a: Action, w: CallId)
    requires w in s.calls
    ensures w in CallNext(s, a).calls && (!s.calls[w].Completing? ==> CallNext(s, a).calls[w] == s.calls[w])
    ensures SameCall(s, CallNext(s, a), w)
  {
    hide Queued, Put, Find, Matches, CandidateMatches, Head, UploadRows.Claim, UploadRows.Finish, UploadRows.Restore, Enqueue,
      Open, Unmade, Queued;
    if s.calls[w].Completing? { KeepsUpload(s, a, w); }
  }

  lemma KeepsUpload(s: State, a: Action, w: CallId)
    requires w in s.calls && s.calls[w].Completing?
    ensures SameCall(s, CallNext(s, a), w)
  {
    hide Queued, Put, Find, Matches, CandidateMatches, Head, UploadRows.Claim, UploadRows.Finish, UploadRows.Restore, Enqueue,
      Open, Unmade;
  }

  // ---- The other steps ----

  lemma LiveCandidate(s: State, u: UploadId)
    requires Inv(s) && UploadFile(u) in s.tables.files
    ensures u in s.tables.uploads && s.tables.uploads[u].candidate == Some(s.tables.files[UploadFile(u)].key)
  {
    hide RowOk, JobOk, ObjectOk, LogOk, QueuesOk, Single;
    assert FileOk(s, UploadFile(u));
    assert CallOk(s, s.tables.files[UploadFile(u)].key.call);
  }

  lemma SaveCandidate(s: State, a: Action, w: CallId)
    requires Inv(s) && CandidateKept(s, w)
    ensures CandidateKept(SaveNext(s, a), w)
  {
    hide Queued, Without, RowOk, FileOk, JobOk, ObjectOk, LogOk, QueuesOk, PcOk;
    assert CallOk(s, w);
  }

  lemma SaveRow(s: State, a: Action, u: UploadId)
    requires Inv(s) && RowKept(s, u)
    ensures RowKept(SaveNext(s, a), u)
  {
    hide Inv;
    if a.Remove? { RemoveRow(s, a.f, a.referenced, u); } else { InsertRow(s, a, u); }
  }

  lemma InsertRow(s: State, a: Action, u: UploadId)
    requires RowKept(s, u) && !a.Remove?
    ensures RowKept(SaveNext(s, a), u)
  {
    hide Put, Queued, Open;
  }

  lemma RemoveRow(s: State, f: FileId, referenced: bool, u: UploadId)
    requires Inv(s) && RowKept(s, u)
    ensures RowKept(SaveNext(s, Action.Remove(f, referenced)), u)
  {
    hide Inv, Queued;
    if UploadRows.Remove(s.tables, f, referenced).Some? {
      RemoveQueues(s.tables, f);
      if f == UploadFile(u) { LiveCandidate(s, u); }
    }
  }

  lemma SaveSaved(s: State, a: Action, w: CallId)
    requires Inv(s) && SavedKept(s, w)
    ensures SavedKept(SaveNext(s, a), w)
  {
    hide Without, RowOk, CallOk, JobOk, ObjectOk, LogOk, QueuesOk, Single, CopyOf;
    if a.Remove? && UploadRows.Remove(s.tables, a.f, a.referenced).Some? {
      assert FileOk(s, a.f);
      RemoveQueues(s.tables, a.f);
    }
  }

  lemma SessionCandidate(s: State, a: Action, w: CallId)
    requires CandidateKept(s, w)
    ensures CandidateKept(SessionNext(s, a), w)
  {
    hide Queued, Without, ExpiredKeys, Expirable;
  }

  lemma SessionRow(s: State, a: Action, u: UploadId)
    requires Inv(s) && RowKept(s, u)
    ensures RowKept(SessionNext(s, a), u)
  {
    hide Queued, Without, RowOk, CallOk, FileOk, JobOk, ObjectOk, LogOk;
    if a.Expire? {
      ExpireQueues(s.tables, a.now);
      if u in Expired(s.tables, a.now) && s.tables.uploads[u].candidate.Some? {
        assert s.tables.uploads[u].candidate.value in CandidateKeys(s.tables, Expired(s.tables, a.now));
      }
    }
  }

  lemma SessionSaved(s: State, a: Action, w: CallId)
    requires SavedKept(s, w)
    ensures SavedKept(SessionNext(s, a), w)
  {
    hide Queued, Without, UploadRows.Expire;
    SessionObject(s, a, Saved(w));
    assert SessionNext(s, a).tables.files == s.tables.files by { SessionFiles(s, a); }
  }

  lemma SessionFiles(s: State, a: Action)
    ensures SessionNext(s, a).tables.files == s.tables.files && SessionNext(s, a).calls == s.calls
  {
    hide Queued, Put, ExpiredKeys;
  }

  lemma SessionStaging(s: State, a: Action, u: UploadId)
    requires StagingKept(s, u)
    ensures StagingKept(SessionNext(s, a), u)
  {
    hide Queued, Without, ExpiredKeys, Expirable;
  }

  // Deletion passes change neither rows nor calls, and only take objects away.
  lemma JobFrame(s: State, a: Action, k: Key)
    requires forall j :: JobOk(s, j)
    ensures var t := JobNext(s, a);
            && t.tables.uploads == s.tables.uploads && t.tables.files == s.tables.files
            && t.calls == s.calls && t.doomed == s.doomed
            && (At(s.store, k) == [] ==> At(t.store, k) == [])
  {
    hide JobOk, Queued;
    if a.ReadEntry? || a.ReadFileEntry? || a.List? || a.DeleteNext? || a.Recheck? || a.Abandon? {
      JobIsNext(s, a);
      JobQueues(s, a);
      JobStore(s, a);
      FirstIsIn(At(JobNext(s, a).store, k));
    }
  }

  lemma JobIsNext(s: State, a: Action)
    requires a.ReadEntry? || a.ReadFileEntry? || a.List? || a.DeleteNext? || a.Recheck? || a.Abandon?
    ensures Next(s, a) == JobNext(s, a)
  {
    hide JobNext;
  }

  lemma JobKept(s: State, a: Action, w: CallId, u: UploadId)
    requires CandidateKept(s, w) && SavedKept(s, w) && RowKept(s, u) && StagingKept(s, u) && forall j :: JobOk(s, j)
    ensures var t := JobNext(s, a); CandidateKept(t, w) && SavedKept(t, w) && RowKept(t, u) && StagingKept(t, u)
  {
    hide JobNext, At, JobOk;
    JobFrame(s, a, Candidate(w));
    JobFrame(s, a, Saved(w));
    JobFrame(s, a, Staging(u));
  }

  lemma NextKept(s: State, a: Action)
    requires Inv(s) && Kept(s)
    ensures Kept(Next(s, a))
  {
    hide CallNext, SaveNext, SessionNext, JobNext, RowOk, CallOk, FileOk, JobOk, ObjectOk, LogOk, QueuesOk, CandidateKept, SavedKept, RowKept, StagingKept;
    var t := Next(s, a);
    forall w ensures CandidateKept(t, w) && SavedKept(t, w) {
      assert CandidateKept(s, w) && SavedKept(s, w) && RowKept(s, 0) && StagingKept(s, 0);
      CallCandidate(s, a, w);
      CallSaved(s, a, w);
      SaveCandidate(s, a, w);
      SaveSaved(s, a, w);
      SessionCandidate(s, a, w);
      SessionSaved(s, a, w);
      JobKept(s, a, w, 0);
    }
    forall u ensures RowKept(t, u) && StagingKept(t, u) {
      assert RowKept(s, u) && StagingKept(s, u) && CandidateKept(s, 0) && SavedKept(s, 0);
      CallRow(s, a, u);
      SaveRow(s, a, u);
      SessionRow(s, a, u);
      SessionStaging(s, a, u);
      StagingLeft(s, a, u);
      JobKept(s, a, 0, u);
    }
  }

  lemma StagingLeft(s: State, a: Action, u: UploadId)
    requires Inv(s) && StagingKept(s, u)
    ensures StagingKept(CallNext(s, a), u) && StagingKept(SaveNext(s, a), u)
  {
    hide CallNext, Inv, Queued, Without;
    CallStepHolds(s, a);
    CallStores(s, a, Staging(u));
  }

  lemma {:induction false} RunKept(s: State, actions: seq<Action>)
    requires Inv(s) && Kept(s)
    ensures Kept(Run(s, actions))
    decreases |actions|
  {
    hide Inv, Kept, Next;
    if actions != [] {
      NextKept(s, actions[0]);
      NextKeeps(s, actions[0]);
      RunKept(Next(s, actions[0]), actions[1..]);
    }
  }

  lemma ReachKept(actions: seq<Action>)
    ensures Kept(Reach(actions))
  {
    EmptyInv();
    RunKept(UploadProtocol.EMPTY, actions);
  }

  // No object is forgotten. Whatever key holds one, in any interleaving: a staging key belongs to an
  // upload; a candidate key is its upload's current candidate or was handed to deletion, and once the
  // upload is terminal it is handed to deletion unless it holds the live file; a saved key belongs to a
  // live file, to a save still under way, or was handed to deletion.
  lemma NothingForgotten(actions: seq<Action>, key: Key)
    requires At(Reach(actions).store, key) != [] && key !in Reach(actions).doomed
    ensures var s := Reach(actions);
            match key
            case Staging(u) => u in s.tables.uploads && Open(s.tables.uploads[u])
            case Candidate(w) =>
              && w in s.calls && s.calls[w].Completing? && s.calls[w].upload in s.tables.uploads
              && var u := s.calls[w].upload;
                 && s.tables.uploads[u].candidate == Some(key)
                 && (Open(s.tables.uploads[u]) || (UploadFile(u) in s.tables.files && s.tables.files[UploadFile(u)].key == key))
            case Saved(w) =>
              && w in s.calls
              && (s.calls[w].Inserting? || (SavedFile(w) in s.tables.files && s.tables.files[SavedFile(w)].key == key))
  {
    hide Run, RowOk, CallOk, JobOk, ObjectOk, LogOk, QueuesOk, Single, CopyOf;
    ReachInv(actions);
    ReachKept(actions);
    var s := Reach(actions);
    match key
    case Staging(u) => assert StagingKept(s, u) && RowKept(s, u);
    case Candidate(w) =>
      assert CandidateKept(s, w);
      var u := s.calls[w].upload;
      assert RowKept(s, u);
      if UploadFile(u) in s.tables.files { LiveCandidate(s, u); }
    case Saved(w) =>
      assert SavedKept(s, w);
      assert FileOk(s, SavedFile(w));
  }
}
