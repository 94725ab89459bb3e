/** Every step of the upload protocol keeps its invariant. */
module UploadSteps {
  import opened Wrappers
  import opened UploadRows
  import opened ObjectStore
  import opened UploadProtocol
  import opened UploadInvariant

  // Steps of a call that change nothing but its program counter.
  predicate Moves(s: State, t: State, w: CallId) {
    && Active(s, w) && w in t.calls && t.calls[w].Completing?
    && t == To(s, w, t.calls[w].pc) && !s.calls[w].pc.Won? && !t.calls[w].pc.Won? && !t.calls[w].pc.Claiming?
    && PcOk(s, w, s.calls[w].upload, t.calls[w].pc)
    && (s.calls[w].pc.Claiming? ==> t.calls[w].pc.Ended?)
    && (s.calls[w].pc.Restoring? || s.calls[w].pc.Ended? ==> t.calls[w].pc.Ended?)
  }

  lemma MovesKeeps(s: State, t: State, w: CallId)
    requires Inv(s) && Moves(s, t, w)
    ensures Inv(t)
  {
    forall u ensures RowOk(t, u) { assert RowOk(s, u); }
    forall c ensures CallOk(t, c) { assert CallOk(s, c); }
    forall f ensures FileOk(t, f) { assert FileOk(s, f); }
    forall j ensures JobOk(t, j) { assert JobOk(s, j); }
    forall key, o ensures ObjectOk(t, key, o) { assert ObjectOk(s, key, o); }
  }

  lemma BeginKeeps(s: State, w: CallId, u: UploadId, now: Time)
    requires Inv(s)
    ensures Inv(Next(s, Begin(w, u, now)))
  {
    hide SaveNext, SessionNext, JobNext;
    var t := Next(s, Begin(w, u, now));
    forall x ensures RowOk(t, x) { assert RowOk(s, x); }
    forall c ensures CallOk(t, c) { assert CallOk(s, c); }
    forall f ensures FileOk(t, f) { assert FileOk(s, f); }
    forall j ensures JobOk(t, j) { assert JobOk(s, j); }
    forall key, o ensures ObjectOk(t, key, o) { assert ObjectOk(s, key, o); }
  }

  lemma HeadStagingKeeps(s: State, w: CallId, limit: nat)
    requires Inv(s)
    ensures Inv(Next(s, HeadStaging(w, limit)))
  {
    hide RowOk, FileOk, JobOk, LogOk, QueuesOk;
    var t := Next(s, HeadStaging(w, limit));
    if Active(s, w) && s.calls[w].pc.Claimed? {
      var u := s.calls[w].upload;
      var o := Head(s.store, Staging(u));
      assert CallOk(s, w);
      if o.Some? { assert ObjectOk(s, Staging(u), o.value); }
      assert t.calls[w].Completing? && t == To(s, w, t.calls[w].pc);
      assert PcOk(s, w, u, t.calls[w].pc);
      MovesKeeps(s, t, w);
    }
  }

  lemma HeadCandidateKeeps(s: State, w: CallId)
    requires Inv(s)
    ensures Inv(Next(s, HeadCandidate(w)))
  {
    hide RowOk, FileOk, JobOk, LogOk, QueuesOk;
    var t := Next(s, HeadCandidate(w));
    if Active(s, w) && s.calls[w].pc.Heading? {
      assert CallOk(s, w);
      assert t == To(s, w, t.calls[w].pc);
      assert PcOk(s, w, s.calls[w].upload, t.calls[w].pc);
      MovesKeeps(s, t, w);
    }
  }

  lemma StopKeeps(s: State, w: CallId)
    requires Inv(s)
    ensures Inv(Next(s, Stop(w)))
  {
    hide RowOk, FileOk, JobOk, LogOk, QueuesOk;
    if Active(s, w) && !s.calls[w].pc.Won? { MovesKeeps(s, Next(s, Stop(w)), w); }
  }

  // What each transaction hands to deletion.

  lemma EnqueueQueues(t: Tables, key: Key, notBefore: Time)
    ensures Queued(Enqueue(t, key, notBefore)) == Queued(t) + {key}
  {
  }

  lemma ExpireQueues(t: Tables, now: Time)
    ensures Queued(UploadRows.Expire(t, now)) == Queued(t) + ExpiredKeys(t, now)
  {
    hide Expired, ExpiredKeys;
  }

  // The previous candidate of an open upload is nobody's live file.
  lemma CandidateNotLive(s: State, u: UploadId, f: FileId)
    requires Inv(s) && u in s.tables.uploads && Open(s.tables.uploads[u]) && f in s.tables.files
    ensures s.tables.uploads[u].candidate != Some(s.tables.files[f].key)
  {
    hide JobOk, ObjectOk, LogOk, QueuesOk, Single, CopyOf;
    assert RowOk(s, u);
    assert FileOk(s, f);
    var key := s.tables.files[f].key;
    if key.Candidate? { assert CallOk(s, key.call); }
  }

  lemma ClaimKeeps(s: State, w: CallId, now: Time)
    requires Inv(s)
    ensures Inv(Next(s, Action.Claim(w, now)))
  {
    var t := Next(s, Action.Claim(w, now));
    if Active(s, w) && s.calls[w].pc.Claiming? {
      var u := s.calls[w].upload;
      var row := s.tables.uploads[u];
      var tables := UploadRows.Claim(s.tables, u, w, now);
      assert CallOk(s, w);
      assert RowOk(s, u);
      if tables.None? {
        MovesKeeps(s, t, w);
      } else {
        ClaimedKeeps(s, w, now);
      }
    }
  }

  // A successful claim, without the queues: the row is the caller's, the previous candidate is doomed.
  predicate Claimed(s: State, t: State, w: CallId, u: UploadId) {
    && Active(s, w) && s.calls[w] == Completing(u, Claiming) && Open(s.tables.uploads[u])
    && u in t.tables.uploads
    && var row, row' := s.tables.uploads[u], t.tables.uploads[u];
       && row' == row.(status := Finalizing, token := Some(w), leaseExpiresAt := row'.leaseExpiresAt, candidate := Some(Candidate(w)))
       && t == s.(tables := t.tables, calls := s.calls[w := Completing(u, UploadProtocol.Claimed)], doomed := t.doomed)
       && t.tables.uploads == s.tables.uploads[u := row'] && t.tables.files == s.tables.files
       && t.doomed == s.doomed + (if row.candidate.Some? then {row.candidate.value} else {})
  }

  lemma ClaimShape(s: State, w: CallId, now: Time)
    requires QueuesOk(s) && Active(s, w) && s.calls[w].pc.Claiming? && Claimable(RowOf(s, w), now)
    ensures var t := Next(s, Action.Claim(w, now)); Claimed(s, t, w, s.calls[w].upload) && QueuesOk(t)
  {
    hide Queued;
    var u := s.calls[w].upload;
    var row := s.tables.uploads[u];
    var row' := row.(status := Finalizing, token := Some(w), leaseExpiresAt := Some(now + LEASE_SECONDS), candidate := Some(Candidate(w)));
    RowQueues(s.tables, u, row');
    if row.candidate.Some? { EnqueueQueues(SetRow(s.tables, u, row'), row.candidate.value, now); }
  }

  lemma RowQueues(t: Tables, u: UploadId, row: Row)
    ensures Queued(SetRow(t, u, row)) == Queued(t)
  {
  }

  lemma ClaimedOthers(s: State, t: State, w: CallId, u: UploadId, c: CallId, x: UploadId)
    requires Claimed(s, t, w, u) && RowOk(s, u) && CallOk(s, w) && CallOk(s, c) && RowOk(s, x)
    ensures CallOk(t, c) && RowOk(t, x)
  {
  }

  lemma ClaimedFile(s: State, t: State, w: CallId, u: UploadId, f: FileId)
    requires Claimed(s, t, w, u) && Inv(s)
    ensures FileOk(t, f)
  {
    hide RowOk, CallOk, ObjectOk, LogOk, QueuesOk, JobOk;
    assert FileOk(s, f);
    if f in s.tables.files { CandidateNotLive(s, u, f); }
  }

  lemma ClaimedKeeps(s: State, w: CallId, now: Time)
    requires Inv(s) && Active(s, w) && s.calls[w].pc.Claiming?
    requires Claimable(RowOf(s, w), now)
    ensures Inv(Next(s, Action.Claim(w, now)))
  {
    hide RowOk, CallOk, FileOk, QueuesOk, Next;
    var t := Next(s, Action.Claim(w, now));
    var u := s.calls[w].upload;
    ClaimShape(s, w, now);
    assert RowOk(s, u) && CallOk(s, w);
    forall x ensures RowOk(t, x) { assert RowOk(s, x); ClaimedOthers(s, t, w, u, w, x); }
    forall c ensures CallOk(t, c) { assert CallOk(s, c); ClaimedOthers(s, t, w, u, c, u); }
    forall f ensures FileOk(t, f) { ClaimedFile(s, t, w, u, f); }
    forall j ensures JobOk(t, j) { assert JobOk(s, j); }
    forall key, o ensures ObjectOk(t, key, o) { assert ObjectOk(s, key, o); }
  }

  // A write to one key under a number never used before.
  lemma ObjectWritten(s: State, key: Key, o: Object, k: Key, p: Object)
    requires Unmade(s, o.version) && ObjectOk(s, k, p)
    ensures ObjectOk(WithObject(s, key, o), k, p)
  {
  }

  // A staging object that was posted later changes nothing that anybody relies on.
  lemma PostKeeps(s: State, u: UploadId, o: Object)
    requires Inv(s)
    ensures Inv(Next(s, Post(u, o)))
  {
    hide Without, CallNext, SaveNext, JobNext;
    var t := Next(s, Post(u, o));
    forall x ensures RowOk(t, x) { assert RowOk(s, x); }
    forall c ensures CallOk(t, c) { assert CallOk(s, c); }
    forall f ensures FileOk(t, f) { assert FileOk(s, f); }
    forall j ensures JobOk(t, j) { assert JobOk(s, j); }
    forall k, p ensures ObjectOk(t, k, p) {
      assert ObjectOk(s, k, p);
      if u in s.tables.uploads && Unmade(s, o.version) { ObjectWritten(s, Staging(u), o, k, p); }
    }
  }

  lemma CopyKeeps(s: State, w: CallId, version: VersionId)
    requires Inv(s)
    ensures Inv(Next(s, Action.Copy(w, version)))
  {
    hide RowOk, FileOk, JobOk, LogOk, QueuesOk, Without, Find;
    var t := Next(s, Action.Copy(w, version));
    if Active(s, w) && s.calls[w].pc.Copying? && Unmade(s, version) {
      var u := s.calls[w].upload;
      var o := Find(At(s.store, Staging(u)), Version(s.calls[w].pc.source));
      assert CallOk(s, w);
      if o.None? {
        MovesKeeps(s, t, w);
      } else {
        assert ObjectOk(s, Staging(u), o.value);
        CopiedKeeps(s, t, w, o.value.body, version);
      }
    }
  }

  lemma CopiedKeeps(s: State, t: State, w: CallId, body: seq<Byte>, version: VersionId)
    requires Inv(s) && Active(s, w) && s.calls[w].pc.Copying? && Unmade(s, version)
    requires var source := s.calls[w].pc.source;
             && Checked(s, s.calls[w].upload, source) && s.made[source].content.body == body
             && t == WithObject(To(s, w, Heading(source)), Candidate(w), Object(version, body, Some(RowOf(s, w).mime), None))
    ensures Inv(t)
  {
    var s1, o := To(s, w, Heading(s.calls[w].pc.source)), Object(version, body, Some(RowOf(s, w).mime), None);
    forall x ensures RowOk(t, x) { assert RowOk(s, x); }
    forall c ensures CallOk(t, c) { assert CallOk(s, c); CopiedCall(s, t, w, o, c); }
    forall f ensures FileOk(t, f) { assert FileOk(s, f); }
    forall j ensures JobOk(t, j) { assert JobOk(s, j); }
    forall k, p ensures ObjectOk(t, k, p) {
      assert ObjectOk(s, k, p);
      ObjectWritten(s1, Candidate(w), o, k, p);
    }
  }

  lemma CopiedCall(s: State, t: State, w: CallId, o: Object, c: CallId)
    requires Active(s, w) && s.calls[w].pc.Copying? && CallOk(s, w) && CallOk(s, c) && Unmade(s, o.version)
    requires var source := s.calls[w].pc.source;
             && Checked(s, s.calls[w].upload, source) && s.made[source].content.body == o.body
             && o.mime == Some(RowOf(s, w).mime)
             && t == WithObject(To(s, w, Heading(source)), Candidate(w), o)
    ensures CallOk(t, c)
  {
  }

  lemma SavePutKeeps(s: State, w: CallId, body: seq<Byte>, mime: string, version: VersionId)
    requires Inv(s)
    ensures Inv(Next(s, SavePut(w, body, mime, version)))
  {
    if w !in s.calls && Unmade(s, version) { SavedPutKeeps(s, w, body, mime, version); }
  }

  lemma SavePutShape(s: State, w: CallId, body: seq<Byte>, mime: string, version: VersionId)
    requires w !in s.calls && Unmade(s, version)
    ensures Next(s, SavePut(w, body, mime, version))
         == WithObject(s, Saved(w), Object(version, body, Some(mime), None)).(calls := s.calls[w := Inserting(|body|, mime)])
  {
  }

  lemma SavedPutCall(s: State, t: State, w: CallId, o: Object, c: CallId)
    requires CallOk(s, w) && CallOk(s, c) && w !in s.calls && Unmade(s, o.version) && o.mime.Some?
    requires t == WithObject(s, Saved(w), o).(calls := s.calls[w := Inserting(|o.body|, o.mime.value)])
    ensures CallOk(t, c)
  {
    hide Without;
  }

  lemma SavedPutKeeps(s: State, w: CallId, body: seq<Byte>, mime: string, version: VersionId)
    requires Inv(s) && w !in s.calls && Unmade(s, version)
    ensures Inv(Next(s, SavePut(w, body, mime, version)))
  {
    hide Without, Next, PcOk, Untouched;
    var t := Next(s, SavePut(w, body, mime, version));
    var o := Object(version, body, Some(mime), None);
    SavePutShape(s, w, body, mime, version);
    forall x ensures RowOk(t, x) { assert RowOk(s, x); }
    forall c ensures CallOk(t, c) { assert CallOk(s, c); SavedPutCall(s, t, w, o, c); }
    forall f ensures FileOk(t, f) { assert FileOk(s, f); }
    forall j ensures JobOk(t, j) { assert JobOk(s, j); }
    forall k, p ensures ObjectOk(t, k, p) {
      assert ObjectOk(s, k, p);
      ObjectWritten(s, Saved(w), o, k, p);
    }
  }

  predicate Rejects(s: State, t: State, w: CallId) {
    && Active(s, w) && s.calls[w].pc.Rejecting?
    && t == s.(tables := t.tables, calls := s.calls[w := Completing(s.calls[w].upload, Restoring)],
               doomed := s.doomed + {Candidate(w)})
    && t.tables.uploads == s.tables.uploads && t.tables.files == s.tables.files
  }

  lemma RejectShape(s: State, w: CallId, now: Time)
    requires QueuesOk(s) && Active(s, w) && s.calls[w].pc.Rejecting?
    ensures var t := Next(s, Reject(w, now)); Rejects(s, t, w) && QueuesOk(t)
  {
    hide Queued;
    EnqueueQueues(s.tables, Candidate(w), now);
  }

  lemma RejectKeeps(s: State, w: CallId, now: Time)
    requires Inv(s)
    ensures Inv(Next(s, Reject(w, now)))
  {
    if Active(s, w) && s.calls[w].pc.Rejecting? { RejectedKeeps(s, w, now); }
  }

  lemma RejectedKeeps(s: State, w: CallId, now: Time)
    requires Inv(s) && Active(s, w) && s.calls[w].pc.Rejecting?
    ensures Inv(Next(s, Reject(w, now)))
  {
    hide Next, QueuesOk;
    var t := Next(s, Reject(w, now));
    RejectShape(s, w, now);
    forall x ensures RowOk(t, x) { assert RowOk(s, x); }
    forall c ensures CallOk(t, c) { assert CallOk(s, c); }
    forall f ensures FileOk(t, f) { assert FileOk(s, f); }
    forall j ensures JobOk(t, j) { assert JobOk(s, j); }
    forall k, p ensures ObjectOk(t, k, p) { assert ObjectOk(s, k, p); }
  }

  // Giving the lease back changes the row only if it is still the caller's.
  lemma RestoreKeeps(s: State, w: CallId)
    requires Inv(s)
    ensures Inv(Next(s, Action.Restore(w)))
  {
    hide Queued, SaveNext, SessionNext, JobNext;
    var t := Next(s, Action.Restore(w));
    if Active(s, w) && s.calls[w].pc.Restoring? {
      var u := s.calls[w].upload;
      RowQueues(s.tables, u, Released(s.tables.uploads[u], Pending));
      assert t.doomed == s.doomed;
      forall x ensures RowOk(t, x) { assert RowOk(s, x); }
      forall c ensures CallOk(t, c) { assert CallOk(s, c); }
      forall f ensures FileOk(t, f) { assert FileOk(s, f); }
      forall j ensures JobOk(t, j) { assert JobOk(s, j); }
      forall k, p ensures ObjectOk(t, k, p) { assert ObjectOk(s, k, p); }
    }
  }

  lemma InitiateKeeps(s: State, u: UploadId, size: nat, mime: string, expiresAt: Time)
    requires Inv(s)
    ensures Inv(Next(s, Initiate(u, size, mime, expiresAt)))
  {
    hide Queued, CallNext, SaveNext, JobNext;
    var t := Next(s, Initiate(u, size, mime, expiresAt));
    if u !in s.tables.uploads {
      RowQueues(s.tables, u, Row(size, mime, expiresAt, Pending, None, None, None));
      assert t.doomed == s.doomed;
      forall x ensures RowOk(t, x) { assert RowOk(s, x) && RowOk(s, u); }
      forall c ensures CallOk(t, c) { assert CallOk(s, c); }
      forall f ensures FileOk(t, f) { assert FileOk(s, f); }
      forall j ensures JobOk(t, j) { assert JobOk(s, j); }
      forall k, p ensures ObjectOk(t, k, p) { assert ObjectOk(s, k, p); }
    }
  }

  // A key doomed by expiry is the staging key of an expired upload or its last candidate.
  lemma ExpiredKey(s: State, now: Time, key: Key)
    requires Inv(s) && key in ExpiredKeys(s.tables, now)
    ensures key.Staging? ==> key.upload in s.tables.uploads && Expirable(s.tables.uploads[key.upload], now)
    ensures key.Candidate? ==>
              && key.call in s.calls && s.calls[key.call].Completing? && !s.calls[key.call].pc.Claiming?
              && var u := s.calls[key.call].upload;
                 u in s.tables.uploads && Expirable(s.tables.uploads[u], now) && s.tables.uploads[u].candidate == Some(key)
    ensures !key.Saved?
  {
    hide Expirable;
    if key !in StagingKeys(Expired(s.tables, now)) {
      var u :| u in Expired(s.tables, now) && s.tables.uploads[u].candidate == Some(key);
      assert RowOk(s, u);
    }
  }

  ghost predicate Expires(s: State, t: State, now: Time) {
    && t == s.(tables := t.tables, doomed := s.doomed + ExpiredKeys(s.tables, now))
    && t.tables.files == s.tables.files
    && t.tables.uploads.Keys == s.tables.uploads.Keys
    && (forall u :: u in s.tables.uploads ==>
          t.tables.uploads[u] ==
            if Expirable(s.tables.uploads[u], now) then Released(s.tables.uploads[u], CleanupPending) else s.tables.uploads[u])
  }

  lemma ExpireRow(s: State, t: State, now: Time, u: UploadId)
    requires Inv(s) && Expires(s, t, now)
    ensures RowOk(t, u)
  {
    hide ExpiredKeys, CallOk, FileOk, JobOk, ObjectOk, LogOk, QueuesOk;
    assert RowOk(s, u);
    if Staging(u) in ExpiredKeys(s.tables, now) { ExpiredKey(s, now, Staging(u)); }
    if u in s.tables.uploads && s.tables.uploads[u].token.Some? {
      var w := s.tables.uploads[u].token.value;
      if Candidate(w) in ExpiredKeys(s.tables, now) { ExpiredKey(s, now, Candidate(w)); }
    }
  }

  lemma ExpireCall(s: State, t: State, now: Time, c: CallId)
    requires Inv(s) && Expires(s, t, now)
    ensures CallOk(t, c)
  {
    hide ExpiredKeys, RowOk, FileOk, JobOk, ObjectOk, LogOk, QueuesOk;
    assert CallOk(s, c);
    if Candidate(c) in ExpiredKeys(s.tables, now) { ExpiredKey(s, now, Candidate(c)); }
    if Saved(c) in ExpiredKeys(s.tables, now) { ExpiredKey(s, now, Saved(c)); }
  }

  lemma ExpireFile(s: State, t: State, now: Time, f: FileId)
    requires Inv(s) && Expires(s, t, now)
    ensures FileOk(t, f)
  {
    hide ExpiredKeys, RowOk, CallOk, JobOk, ObjectOk, LogOk, QueuesOk;
    assert FileOk(s, f);
    if f in s.tables.files {
      var key := s.tables.files[f].key;
      if key in ExpiredKeys(s.tables, now) {
        ExpiredKey(s, now, key);
        CandidateNotLive(s, s.calls[key.call].upload, f);
      }
    }
  }

  lemma ExpireShape(s: State, now: Time)
    requires QueuesOk(s)
    ensures var t := Next(s, Action.Expire(now)); Expires(s, t, now) && QueuesOk(t)
  {
    hide Queued, ExpiredKeys, Expirable;
    ExpireQueues(s.tables, now);
  }

  // Expiry touches open uploads only, and no live file's key.
  lemma ExpireKeeps(s: State, now: Time)
    requires Inv(s)
    ensures Inv(Next(s, Action.Expire(now)))
  {
    hide Next, RowOk, CallOk, FileOk, QueuesOk;
    var t := Next(s, Action.Expire(now));
    ExpireShape(s, now);
    forall x ensures RowOk(t, x) { ExpireRow(s, t, now, x); }
    forall c ensures CallOk(t, c) { ExpireCall(s, t, now, c); }
    forall f ensures FileOk(t, f) { ExpireFile(s, t, now, f); }
    forall j ensures JobOk(t, j) { assert JobOk(s, j); }
    forall k, p ensures ObjectOk(t, k, p) { assert ObjectOk(s, k, p); }
  }

  // A successful commit: the file is live under the caller's candidate key.
  predicate Finishes(s: State, t: State, w: CallId, u: UploadId) {
    && Active(s, w) && s.calls[w].upload == u && s.calls[w].pc.Finishing?
    && Holds(s.tables.uploads[u], w)
    && var row := s.tables.uploads[u];
       && t == s.(tables := t.tables, calls := s.calls[w := Completing(u, Won(s.calls[w].pc.source))],
                  doomed := s.doomed + {Staging(u)}, inserted := s.inserted + [UploadFile(u)])
       && t.tables.uploads == s.tables.uploads[u := Released(row, Completed)]
       && t.tables.files == s.tables.files[UploadFile(u) := File(Candidate(w), row.size, row.mime)]
  }

  lemma FinishShape(s: State, w: CallId, now: Time)
    requires QueuesOk(s) && Active(s, w) && s.calls[w].pc.Finishing?
    requires UploadRows.Finish(s.tables, s.calls[w].upload, w, now).Some?
    ensures var t := Next(s, Action.Finish(w, now)); Finishes(s, t, w, s.calls[w].upload) && QueuesOk(t)
  {
    hide Queued;
    var u := s.calls[w].upload;
    var row := s.tables.uploads[u];
    var t1 := SetRow(s.tables, u, Released(row, Completed));
    var t2 := t1.(files := t1.files[UploadFile(u) := File(Candidate(w), row.size, row.mime)]);
    RowQueues(s.tables, u, Released(row, Completed));
    FilesQueue(t1, t2);
    EnqueueQueues(t2, Staging(u), now + REPLAY_SECONDS);
  }

  lemma FilesQueue(t: Tables, t': Tables)
    requires t' == t.(files := t'.files)
    ensures Queued(t') == Queued(t)
  {
  }

  lemma FinishOthers(s: State, t: State, w: CallId, u: UploadId, c: CallId, x: UploadId, f: FileId)
    requires Finishes(s, t, w, u) && RowOk(s, u) && CallOk(s, w) && CallOk(s, c) && RowOk(s, x) && FileOk(s, f)
    ensures CallOk(t, c) && RowOk(t, x) && FileOk(t, f)
  {
  }

  lemma FinishKeeps(s: State, w: CallId, now: Time)
    requires Inv(s)
    ensures Inv(Next(s, Action.Finish(w, now)))
  {
    hide RowOk, FileOk, QueuesOk, UploadRows.Finish, Checked, CopyOf;
    var t := Next(s, Action.Finish(w, now));
    if Active(s, w) && s.calls[w].pc.Finishing? {
      assert CallOk(s, w);
      if UploadRows.Finish(s.tables, s.calls[w].upload, w, now).None? {
        MovesKeeps(s, t, w);
      } else {
        FinishedKeeps(s, w, now);
      }
    }
  }

  lemma FinishedKeeps(s: State, w: CallId, now: Time)
    requires Inv(s) && Active(s, w) && s.calls[w].pc.Finishing?
    requires UploadRows.Finish(s.tables, s.calls[w].upload, w, now).Some?
    ensures Inv(Next(s, Action.Finish(w, now)))
  {
    hide RowOk, CallOk, FileOk, QueuesOk, Next, UploadRows.Finish, LogOk;
    var t := Next(s, Action.Finish(w, now));
    var u := s.calls[w].upload;
    FinishShape(s, w, now);
    assert RowOk(s, u) && CallOk(s, w);
    FinishLog(s, t, w, u);
    assert FileOk(s, UploadFile(u));
    forall x ensures RowOk(t, x) { assert RowOk(s, x); FinishOthers(s, t, w, u, w, x, UploadFile(u)); }
    forall c ensures CallOk(t, c) { assert CallOk(s, c); FinishOthers(s, t, w, u, c, u, UploadFile(u)); }
    forall f ensures FileOk(t, f) { assert FileOk(s, f); FinishOthers(s, t, w, u, w, u, f); }
    forall j ensures JobOk(t, j) { assert JobOk(s, j); }
    forall key, o ensures ObjectOk(t, key, o) { assert ObjectOk(s, key, o); }
  }

  lemma FinishLog(s: State, t: State, w: CallId, u: UploadId)
    requires Finishes(s, t, w, u) && RowOk(s, u) && LogOk(s)
    ensures LogOk(t)
  {
    hide Attempt;
    assert UploadFile(u) !in s.inserted;
  }

  lemma SaveInsertKeeps(s: State, w: CallId, ok: bool, j: nat)
    requires Inv(s)
    ensures Inv(Next(s, SaveInsert(w, ok, j)))
  {
    hide Queued, CallNext, SessionNext, JobNext;
    var t := Next(s, SaveInsert(w, ok, j));
    if w in s.calls && s.calls[w].Inserting? && j !in s.jobs {
      assert CallOk(s, w);
      if ok { FilesQueue(s.tables, t.tables); }
      assert t.doomed == if ok then s.doomed else s.doomed + {Saved(w)};
      forall x ensures RowOk(t, x) { assert RowOk(s, x); }
      forall c ensures CallOk(t, c) { assert CallOk(s, c); }
      forall f ensures FileOk(t, f) { assert FileOk(s, f); }
      forall i ensures JobOk(t, i) { assert JobOk(s, i); }
      forall k, p ensures ObjectOk(t, k, p) { assert ObjectOk(s, k, p); }
    }
  }

  lemma RemoveQueues(t: Tables, f: FileId)
    requires f in t.files && f !in t.fileOutbox
    ensures Queued(UploadRows.Remove(t, f, false).value) == Queued(t) + {t.files[f].key}
  {
    var t' := UploadRows.Remove(t, f, false).value;
    assert t'.fileOutbox[f] == t.files[f].key;
    forall g | g in t.fileOutbox ensures g in t'.fileOutbox && t'.fileOutbox[g] == t.fileOutbox[g] {
    }
  }

  lemma RemoveKeeps(s: State, f: FileId, referenced: bool)
    requires Inv(s)
    ensures Inv(Next(s, Action.Remove(f, referenced)))
  {
    if UploadRows.Remove(s.tables, f, referenced).Some? { RemovedKeeps(s, f); }
  }

  lemma RemovedKeeps(s: State, f: FileId)
    requires Inv(s) && UploadRows.Remove(s.tables, f, false).Some?
    ensures Inv(Next(s, Action.Remove(f, false)))
  {
    hide Queued;
    var t := Next(s, Action.Remove(f, false));
    RemoveQueues(s.tables, f);
    var key := s.tables.files[f].key;
    assert t.doomed == s.doomed + {key};
    assert FileOk(s, f);
    assert key.Candidate? ==> CallOk(s, key.call);
    forall x ensures RowOk(t, x) { assert RowOk(s, x); }
    forall c ensures CallOk(t, c) { assert CallOk(s, c); }
    forall g ensures FileOk(t, g) { assert FileOk(s, g); }
    forall j ensures JobOk(t, j) { assert JobOk(s, j); }
    forall k, p ensures ObjectOk(t, k, p) { assert ObjectOk(s, k, p); }
  }

  // What a deletion job may do: drop outbox rows, and delete versions of the key it is on.
  ghost predicate Deletes(s: State, t: State) {
    && t == s.(tables := t.tables, store := t.store, jobs := t.jobs)
    && t.tables.uploads == s.tables.uploads && t.tables.files == s.tables.files
    && Queued(t.tables) <= Queued(s.tables)
    && (forall j :: JobOk(t, j))
    && (forall k :: k !in s.doomed ==> At(t.store, k) == At(s.store, k))
    && (forall k, o :: o in At(t.store, k) ==> o in At(s.store, k))
  }

  lemma DeletesKeeps(s: State, t: State)
    requires Inv(s) && Deletes(s, t)
    ensures Inv(t)
  {
    hide JobOk;
    forall x ensures RowOk(t, x) { assert RowOk(s, x); }
    forall c ensures CallOk(t, c) { assert CallOk(s, c); DeletesCall(s, t, c); }
    forall f ensures FileOk(t, f) { assert FileOk(s, f); }
    forall k, p ensures ObjectOk(t, k, p) { assert ObjectOk(s, k, p); }
  }

  lemma DeletesCall(s: State, t: State, c: CallId)
    requires CallOk(s, c) && Deletes(s, t)
    ensures CallOk(t, c)
  {
    hide JobOk, Queued;
    assert |At(t.store, Candidate(c))| > 0 ==> At(t.store, Candidate(c))[0] in At(t.store, Candidate(c));
  }

  lemma JobKeeps(s: State, a: Action)
    requires Inv(s)
    requires a.ReadEntry? || a.ReadFileEntry? || a.List? || a.DeleteNext? || a.Recheck? || a.Abandon?
    ensures Inv(Next(s, a))
  {
    hide RowOk, CallOk, FileOk, ObjectOk, LogOk;
    var t := Next(s, a);
    forall j ensures JobOk(t, j) { assert JobOk(s, j); JobJob(s, a, j); }
    JobQueues(s, a);
    JobStore(s, a);
    DeletesKeeps(s, t);
  }

  lemma JobJob(s: State, a: Action, j: nat)
    requires JobOk(s, j) && QueuesOk(s)
    requires a.ReadEntry? || a.ReadFileEntry? || a.List? || a.DeleteNext? || a.Recheck? || a.Abandon?
    ensures JobOk(Next(s, a), j)
  {
    hide Versions, DeleteVersion, DropEntry;
  }

  lemma JobQueues(s: State, a: Action)
    requires a.ReadEntry? || a.ReadFileEntry? || a.List? || a.DeleteNext? || a.Recheck? || a.Abandon?
    ensures var t := Next(s, a);
            && t == s.(tables := t.tables, store := t.store, jobs := t.jobs)
            && t.tables.uploads == s.tables.uploads && t.tables.files == s.tables.files
            && Queued(t.tables) <= Queued(s.tables)
  {
    hide Versions, DeleteVersion;
  }

  lemma JobStore(s: State, a: Action)
    requires forall j :: JobOk(s, j)
    requires a.ReadEntry? || a.ReadFileEntry? || a.List? || a.DeleteNext? || a.Recheck? || a.Abandon?
    ensures var t := Next(s, a);
            && (forall k :: k !in s.doomed ==> At(t.store, k) == At(s.store, k))
            && (forall k, o :: o in At(t.store, k) ==> o in At(s.store, k))
  {
    hide Versions, DropFileEntry, DropEntry;
    if a.DeleteNext? { assert JobOk(s, a.j); }
  }

  // Any step keeps the invariant.
  lemma NextKeeps(s: State, a: Action)
    requires Inv(s)
    ensures Inv(Next(s, a))
  {
    hide Inv, Next;
    match a
    case Initiate(u, size, mime, expiresAt) => InitiateKeeps(s, u, size, mime, expiresAt);
    case Post(u, o) => PostKeeps(s, u, o);
    case Begin(w, u, now) => BeginKeeps(s, w, u, now);
    case Claim(w, now) => ClaimKeeps(s, w, now);
    case HeadStaging(w, limit) => HeadStagingKeeps(s, w, limit);
    case Copy(w, version) => CopyKeeps(s, w, version);
    case HeadCandidate(w) => HeadCandidateKeeps(s, w);
    case Reject(w, now) => RejectKeeps(s, w, now);
    case Restore(w) => RestoreKeeps(s, w);
    case Finish(w, now) => FinishKeeps(s, w, now);
    case Stop(w) => StopKeeps(s, w);
    case SavePut(w, body, mime, version) => SavePutKeeps(s, w, body, mime, version);
    case SaveInsert(w, ok, j) => SaveInsertKeeps(s, w, ok, j);
    case Remove(f, referenced) => RemoveKeeps(s, f, referenced);
    case Expire(now) => ExpireKeeps(s, now);
    case _ => JobKeeps(s, a);
  }

  lemma {:induction false} RunKeeps(s: State, actions: seq<Action>)
    requires Inv(s)
    ensures Inv(Run(s, actions))
    decreases |actions|
  {
    hide Inv, Next;
    if actions != [] {
      NextKeeps(s, actions[0]);
      RunKeeps(Next(s, actions[0]), actions[1..]);
    }
  }

  lemma EmptyInv()
    ensures Inv(UploadProtocol.EMPTY)
  {
  }
}
