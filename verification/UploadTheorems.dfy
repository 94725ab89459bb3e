/** What the upload protocol guarantees over whole runs: any number of calls, lease takeovers, cleanup
  passes over stale lists and removals, under any clock readings. */
module UploadTheorems {
  import opened Wrappers
  import opened UploadRows
  import opened ObjectStore
  import opened UploadProtocol
  import opened UploadInvariant
  import opened UploadSteps

  function Reach(actions: seq<Action>): State {
    Run(UploadProtocol.EMPTY, actions)
  }

  lemma ReachInv(actions: seq<Action>)
    ensures Inv(Reach(actions))
  {
    EmptyInv();
    RunKeeps(UploadProtocol.EMPTY, actions);
  }

  // A live file's key holds exactly its object and is in neither outbox; no key that was ever handed
  // to deletion is the key of a live file.
  lemma LiveFilesKeepObjects(actions: seq<Action>, f: FileId)
    requires f in Reach(actions).tables.files
    ensures var s := Reach(actions); var file := s.tables.files[f];
            && file.key !in s.tables.outbox
            && (forall g :: g in s.tables.fileOutbox ==> s.tables.fileOutbox[g] != file.key)
            && file.key !in s.doomed
            && Single(s, file.key, file.size, file.mime)
  {
    hide Run;
    ReachInv(actions);
    var s := Reach(actions);
    assert FileOk(s, f);
    assert s.tables.files[f].key !in Queued(s.tables);
  }

  // What one step leaves alone: history only grows, a terminal row stays, and a file row that is new
  // is one that is newly inserted.
  predicate Grows(s: State, t: State) {
    && s.doomed <= t.doomed && s.inserted <= t.inserted
    && (forall v :: v in s.made ==> v in t.made && t.made[v] == s.made[v])
    && (forall u :: u in s.tables.uploads && !Open(s.tables.uploads[u]) ==>
          u in t.tables.uploads && t.tables.uploads[u] == s.tables.uploads[u])
    && (forall f :: f in t.tables.files && !(f in s.tables.files && t.tables.files[f] == s.tables.files[f]) ==>
          t.inserted == s.inserted + [f])
  }

  lemma TransactionsKeepTerminal(t: Tables, u: UploadId, w: CallId, now: Time)
    ensures var c, r, f := UploadRows.Claim(t, u, w, now), UploadRows.Restore(t, u, w), UploadRows.Finish(t, u, w, now);
            && (forall x :: x in t.uploads && !Open(t.uploads[x]) ==>
                  && (c.Some? ==> x in c.value.uploads && c.value.uploads[x] == t.uploads[x])
                  && x in r.uploads && r.uploads[x] == t.uploads[x]
                  && (f.Some? ==> x in f.value.uploads && f.value.uploads[x] == t.uploads[x]))
            && (c.Some? ==> c.value.files == t.files) && r.files == t.files
            && (f.Some? ==> f.value.files == t.files[UploadFile(u) := File(Candidate(w), t.uploads[u].size, t.uploads[u].mime)])
  {
  }

  lemma CallGrows(s: State, a: Action)
    ensures Grows(s, CallNext(s, a))
  {
    hide Grows;
    match a {
      case Claim(w, now) => ClaimGrows(s, w, now);
      case Finish(w, now) => FinishGrows(s, w, now);
      case Restore(w) => RestoreGrows(s, w);
      case _ => PlainGrows(s, a);
    }
  }

  lemma ClaimGrows(s: State, w: CallId, now: Time)
    ensures Grows(s, CallNext(s, Action.Claim(w, now)))
  {
    hide Queued, UploadRows.Claim, Open;
    if Active(s, w) { TransactionsKeepTerminal(s.tables, s.calls[w].upload, w, now); }
  }

  lemma FinishGrows(s: State, w: CallId, now: Time)
    ensures Grows(s, CallNext(s, Action.Finish(w, now)))
  {
    hide Queued, UploadRows.Finish, Open;
    if Active(s, w) { TransactionsKeepTerminal(s.tables, s.calls[w].upload, w, now); }
  }

  lemma RestoreGrows(s: State, w: CallId)
    ensures Grows(s, CallNext(s, Action.Restore(w)))
  {
    hide Queued, UploadRows.Restore, Open;
    if Active(s, w) { TransactionsKeepTerminal(s.tables, s.calls[w].upload, w, 0); }
  }

  lemma PlainGrows(s: State, a: Action)
    requires !a.Claim? && !a.Finish? && !a.Restore?
    ensures Grows(s, CallNext(s, a))
  {
    hide Queued, Put, Find, Matches, CandidateMatches, Head, Open;
  }

  lemma SaveGrows(s: State, a: Action)
    ensures Grows(s, SaveNext(s, a))
  {
    hide Queued, Without;
  }

  lemma SessionGrows(s: State, a: Action)
    ensures Grows(s, SessionNext(s, a))
  {
    hide Queued, Without, ExpiredKeys;
  }

  lemma JobGrows(s: State, a: Action)
    ensures Grows(s, JobNext(s, a))
  {
    hide Queued, Without, Versions, DeleteVersion, At, Due, Open;
  }

  lemma NextGrows(s: State, a: Action)
    ensures Grows(s, Next(s, a))
  {
    hide CallNext, SaveNext, SessionNext, JobNext, Grows;
    CallGrows(s, a);
    SaveGrows(s, a);
    SessionGrows(s, a);
    JobGrows(s, a);
  }

  lemma {:induction false} RunGrows(s: State, actions: seq<Action>)
    ensures s.doomed <= Run(s, actions).doomed && s.inserted <= Run(s, actions).inserted
    ensures forall v :: v in s.made ==> v in Run(s, actions).made && Run(s, actions).made[v] == s.made[v]
    decreases |actions|
  {
    hide Next;
    if actions != [] {
      NextGrows(s, actions[0]);
      RunGrows(Next(s, actions[0]), actions[1..]);
    }
  }

  // A key handed to deletion never names a live file again.
  lemma DoomedForever(before: seq<Action>, after: seq<Action>, key: Key)
    requires key in Reach(before).doomed
    ensures var t := Run(Reach(before), after);
            key in t.doomed && forall f :: f in t.tables.files ==> t.tables.files[f].key != key
  {
    hide Run;
    ReachInv(before);
    RunGrows(Reach(before), after);
    RunKeeps(Reach(before), after);
    var t := Run(Reach(before), after);
    forall f | f in t.tables.files ensures t.tables.files[f].key != key { assert FileOk(t, f); }
  }

  // One step inserts no file id that was inserted before.
  lemma NextFile(s: State, a: Action, f: FileId)
    requires Inv(s) && f in s.inserted && f in Next(s, a).tables.files
    ensures f in s.tables.files && Next(s, a).tables.files[f] == s.tables.files[f]
  {
    hide Next, RowOk, CallOk, FileOk, QueuesOk, JobOk, ObjectOk;
    NextGrows(s, a);
    NextKeeps(s, a);
    Repeats(s.inserted, f);
  }

  lemma Repeats(log: seq<FileId>, f: FileId)
    requires f in log
    ensures exists i, j :: 0 <= i < j < |log + [f]| && (log + [f])[i] == (log + [f])[j]
  {
    var i :| 0 <= i < |log| && log[i] == f;
    assert (log + [f])[i] == (log + [f])[|log|];
  }

  // Steps write under keys that no live file has.
  lemma CallObject(s: State, a: Action, key: Key)
    requires key.Candidate? ==> key.call in s.calls && s.calls[key.call].Completing? && s.calls[key.call].pc.Won?
    requires !key.Staging?
    ensures At(CallNext(s, a).store, key) == At(s.store, key)
  {
    hide Queued, Without, Find, Matches, CandidateMatches, Head, UploadRows.Claim, UploadRows.Finish, UploadRows.Restore;
  }

  lemma SaveObject(s: State, a: Action, key: Key)
    requires key.Saved? ==> key.call in s.calls
    ensures At(SaveNext(s, a).store, key) == At(s.store, key)
  {
    hide Queued, Without, UploadRows.Remove;
  }

  lemma JobObject(s: State, a: Action, key: Key)
    requires key !in s.doomed && forall j :: JobOk(s, j)
    ensures At(JobNext(s, a).store, key) == At(s.store, key)
  {
    hide Queued, Without, Versions;
    if a.DeleteNext? { assert JobOk(s, a.j); }
  }

  lemma NextObject(s: State, a: Action, f: FileId)
    requires Inv(s) && f in s.tables.files
    ensures At(Next(s, a).store, s.tables.files[f].key) == At(s.store, s.tables.files[f].key)
  {
    hide CallNext, SaveNext, JobNext, At, Without, Single, CopyOf, RowOk, CallOk, ObjectOk, JobOk, UploadRows.Expire, Queued;
    var key := s.tables.files[f].key;
    assert FileOk(s, f);
    CallObject(s, a, key);
    SaveObject(s, a, key);
    JobObject(s, a, key);
    SessionObject(s, a, key);
  }

  lemma SessionObject(s: State, a: Action, key: Key)
    requires !key.Staging?
    ensures At(SessionNext(s, a).store, key) == At(s.store, key)
  {
    hide Queued, Without, UploadRows.Expire;
  }

  // As long as a file lives, its row and its object stay what they were, whatever clients post to the
  // staging key and whatever other calls do; once gone it never comes back.
  lemma {:induction false} FileUnchanged(s: State, actions: seq<Action>, f: FileId)
    requires Inv(s) && f in s.inserted
    ensures f in Run(s, actions).tables.files ==>
              && f in s.tables.files
              && Run(s, actions).tables.files[f] == s.tables.files[f]
              && At(Run(s, actions).store, s.tables.files[f].key) == At(s.store, s.tables.files[f].key)
    decreases |actions|
  {
    hide Inv, Next;
    if actions != [] {
      var s1 := Next(s, actions[0]);
      NextKeeps(s, actions[0]);
      NextGrows(s, actions[0]);
      FileUnchanged(s1, actions[1..], f);
      if f in Run(s, actions).tables.files {
        NextFile(s, actions[0], f);
        NextObject(s, actions[0], f);
      }
    }
  }

  lemma LiveFileUnchanged(before: seq<Action>, after: seq<Action>, f: FileId)
    requires f in Reach(before).inserted && f in Run(Reach(before), after).tables.files
    ensures var s, t := Reach(before), Run(Reach(before), after);
            && f in s.tables.files && t.tables.files[f] == s.tables.files[f]
            && At(t.store, s.tables.files[f].key) == At(s.store, s.tables.files[f].key)
  {
    hide Run;
    ReachInv(before);
    FileUnchanged(Reach(before), after, f);
  }

  // `completed` and `cleanup_pending` are absorbing: the whole row stays as it is.
  lemma {:induction false} TerminalForever(s: State, actions: seq<Action>, u: UploadId)
    requires u in s.tables.uploads && !Open(s.tables.uploads[u])
    ensures u in Run(s, actions).tables.uploads && Run(s, actions).tables.uploads[u] == s.tables.uploads[u]
    decreases |actions|
  {
    hide Next;
    if actions != [] {
      NextGrows(s, actions[0]);
      TerminalForever(Next(s, actions[0]), actions[1..], u);
    }
  }

  // At most one call ever returns created for an upload, exactly one once it is completed, and its
  // files row is inserted at most once in the whole history, even if the file was deleted since.
  lemma CompletedOnce(actions: seq<Action>, u: UploadId)
    requires u in Reach(actions).tables.uploads
    ensures var s := Reach(actions);
            && (forall w, w' :: Created(s, w, u) && Created(s, w', u) ==> w == w')
            && (s.tables.uploads[u].status.Completed? <==> exists w :: Created(s, w, u))
            && (s.tables.uploads[u].status.Completed? <==> UploadFile(u) in s.inserted)
            && (forall i, j :: 0 <= i < j < |s.inserted| ==> s.inserted[i] != s.inserted[j])
  {
    hide Run, Checked, CopyOf, Single, FileOk, JobOk, ObjectOk, QueuesOk;
    ReachInv(actions);
    var s := Reach(actions);
    assert RowOk(s, u);
    forall w, w' | Created(s, w, u) && Created(s, w', u) ensures w == w' {
      assert CallOk(s, w) && CallOk(s, w');
    }
    if s.tables.uploads[u].status.Completed? {
      assert Created(s, s.tables.uploads[u].candidate.value.call, u);
    }
    if w :| Created(s, w, u) { assert CallOk(s, w); }
  }

  predicate Created(s: State, w: CallId, u: UploadId) {
    w in s.calls && s.calls[w].Completing? && s.calls[w].upload == u && s.calls[w].pc.Won?
  }

  // The guarded commit never runs into the primary key of files.
  lemma CommitNeverCollides(actions: seq<Action>, u: UploadId, w: CallId, now: Time)
    ensures var t := Reach(actions).tables;
            u in t.uploads && Finishable(t.uploads[u], w, now) ==> UploadRows.Finish(t, u, w, now).Some?
  {
    hide Run, Checked, CopyOf, Single, JobOk, ObjectOk, QueuesOk;
    ReachInv(actions);
    var s := Reach(actions);
    assert RowOk(s, u);
    assert FileOk(s, UploadFile(u));
  }

  // The bytes of a completed upload are those that were checked: some version posted to its staging key
  // passed every check, and the file's only object is a copy of exactly that version.
  lemma CompletedBytes(actions: seq<Action>, u: UploadId)
    requires UploadFile(u) in Reach(actions).tables.files
    ensures var s := Reach(actions);
            exists w, v ::
              && w in s.calls && s.calls[w] == Completing(u, Won(v))
              && Checked(s, u, v)
              && s.tables.files[UploadFile(u)] == File(Candidate(w), |s.made[v].content.body|, s.tables.uploads[u].mime)
              && |At(s.store, Candidate(w))| == 1
              && At(s.store, Candidate(w))[0].body == s.made[v].content.body
  {
    hide Run;
    ReachInv(actions);
    var s := Reach(actions);
    assert FileOk(s, UploadFile(u));
    var w := s.tables.files[UploadFile(u)].key.call;
    assert s.calls[w] == Completing(u, Won(s.calls[w].pc.source));
  }

  // The check judges the object posted last, whatever was posted before: it goes on with that very
  // version if size, type and marker are right, and otherwise the call gives up.
  lemma LatestPostIsChecked(s: State, u: UploadId, o: Object, w: CallId, limit: nat)
    requires u in s.tables.uploads && Unmade(s, o.version)
    requires w in s.calls && s.calls[w] == Completing(u, Claimed)
    ensures var row, t := s.tables.uploads[u], Next(Next(s, Post(u, o)), HeadStaging(w, limit));
            var fits := |o.body| == row.size && |o.body| <= limit && o.mime == Some(row.mime) && o.marker == Some(u);
            && t.tables == s.tables && w in t.calls
            && t.calls[w] == Completing(u, if o.version.NullVersion? then Ended
                                           else if fits then Copying(o.version.number) else Restoring)
  {
    hide Without;
    var objects := At(Next(s, Post(u, o)).store, Staging(u));
    assert objects[|objects| - 1] == o;
  }
}
