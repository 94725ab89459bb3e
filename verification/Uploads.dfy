/** The upload service, statement by statement: the transactions on the tables, the deletion loops, and
  one uninterrupted run of `complete`, which is a run of the steps in UploadProtocol. */
module Uploads {
  import opened Wrappers
  import opened UploadRows
  import opened UploadTransactions
  import opened ObjectStore
  import opened UploadProtocol
  import opened UploadInvariant
  import opened UploadTheorems

  datatype Error =
    | NotFound | SessionExpired | BeingFinalized | Incomplete | VersioningRequired | SizeMismatch | SizeLimit
    | MetadataMismatch | CopyMissing | CopyMismatch | LeaseLost | FileDeleted | Referenced | Database

  // Queueing many keys, seen from one of them.
  lemma EnqueueAllAt(t: Tables, keys: set<Key>, now: Time, k: Key)
    ensures var t', added := EnqueueAll(t, keys, now), k in keys && k !in t.outbox;
            && (k in t'.outbox <==> k in t.outbox || added)
            && (k in t'.outbox ==> t'.outbox[k] == if added then Entry(Drawn(t, k), now) else t.outbox[k])
            && (k in t'.drawn <==> k in t.drawn || added)
            && (k in t'.drawn ==> t'.drawn[k] == if added then Drawn(t, k) + 1 else t.drawn[k])
  {
  }

  lemma EnqueueAllRest(t: Tables, keys: set<Key>, now: Time)
    ensures EnqueueAll(t, keys, now) == t.(outbox := EnqueueAll(t, keys, now).outbox, drawn := EnqueueAll(t, keys, now).drawn)
  {
  }

  lemma EnqueueOneMore(t: Tables, keys: set<Key>, key: Key, now: Time)
    ensures Enqueue(EnqueueAll(t, keys, now), key, now) == EnqueueAll(t, keys + {key}, now)
  {
    hide EnqueueAll;
    var one, all := Enqueue(EnqueueAll(t, keys, now), key, now), EnqueueAll(t, keys + {key}, now);
    EnqueueAllRest(t, keys, now);
    EnqueueAllRest(t, keys + {key}, now);
    EnqueueAllAt(t, keys, now, key);
    forall k ensures k in one.outbox <==> k in all.outbox
             ensures k in one.outbox ==> one.outbox[k] == all.outbox[k]
             ensures k in one.drawn <==> k in all.drawn
             ensures k in one.drawn ==> one.drawn[k] == all.drawn[k]
    {
      EnqueueAllAt(t, keys, now, k);
      EnqueueAllAt(t, keys + {key}, now, k);
    }
    assert one.outbox == all.outbox && one.drawn == all.drawn;
  }

  lemma EnqueueNothing(t: Tables, now: Time)
    ensures EnqueueAll(t, {}, now) == t
  {
  }

  lemma KeysOneMore(t: Tables, us: set<UploadId>, u: UploadId)
    requires us <= t.uploads.Keys && u in t.uploads
    ensures var c := t.uploads[u].candidate;
            KeysOf(t, us + {u}) == if c.Some? then KeysOf(t, us) + {Staging(u)} + {c.value} else KeysOf(t, us) + {Staging(u)}
  {
    var c := t.uploads[u].candidate;
    if c.Some? { assert c.value in CandidateKeys(t, us + {u}) by { assert u in us + {u}; } }
    forall k | k in StagingKeys(us) + {Staging(u)} ensures k in StagingKeys(us + {u}) { assert k.upload in us + {u}; }
    forall k | k in StagingKeys(us + {u}) ensures k in StagingKeys(us) + {Staging(u)} { assert k.upload in us + {u}; }
  }

  // Changing the status of the rows changes none of their keys.
  lemma SameKeys(t: Tables, t': Tables, us: set<UploadId>)
    requires us <= t.uploads.Keys && us <= t'.uploads.Keys
    requires forall u :: u in us ==> t'.uploads[u].candidate == t.uploads[u].candidate
    ensures KeysOf(t', us) == KeysOf(t, us)
  {
  }

  lemma NoKeys(t: Tables)
    ensures KeysOf(t, {}) == {}
  {
  }

  lemma LapsedKey(t: Tables, u: UploadId, now: Time)
    requires u in t.uploads && Lapsed(t.uploads[u], now)
    ensures Staging(u) in LapsedKeys(t, now)
    ensures t.uploads[u].candidate.Some? ==> t.uploads[u].candidate.value in LapsedKeys(t, now)
  {
  }

  datatype Completion = Completion(created: bool, file: File)

  // The answer to `initiate`, besides the session itself.
  datatype Answer = Done(file: File) | RetryAfter(seconds: nat) | Form(expiresAt: Time)

  datatype Response = Response(created: bool, answer: Answer)

  lemma {:induction false} RunAppend(s: State, first: seq<Action>, then': seq<Action>)
    ensures Run(s, first + then') == Run(Run(s, first), then')
    decreases |first|
  {
    hide Next;
    if first == [] {
      assert first + then' == then';
    } else {
      RunAppend(Next(s, first[0]), first[1..], then');
      assert (first + then')[1..] == first[1..] + then';
    }
  }

  lemma RunOne(s: State, a: Action)
    ensures Run(s, [a]) == Next(s, a)
  {
    hide Next;
    assert [a][1..] == [];
  }

  lemma RunNothing(s: State)
    ensures Run(s, []) == s
  {
  }

  // A claim succeeds exactly when the row is claimable, and touches no file.
  lemma ClaimOutcome(t: Tables, u: UploadId, w: CallId, now: Time)
    requires u in t.uploads
    ensures UploadRows.Claim(t, u, w, now).Some? <==> Claimable(t.uploads[u], now)
    ensures UploadRows.Claim(t, u, w, now).Some? ==> UploadRows.Claim(t, u, w, now).value.files == t.files
  {
  }

  lemma RunTwo(s: State, a: Action, b: Action)
    ensures Run(s, [a, b]) == Next(Next(s, a), b)
  {
    hide Next;
    RunOne(Next(s, a), b);
    assert [a, b][1..] == [b];
  }

  predicate CallAt(s: State, w: CallId, u: UploadId, pc: Pc) {
    w in s.calls && s.calls[w] == Completing(u, pc) && u in s.tables.uploads
  }

  // The row can be read and claimed at these times.
  predicate Startable(t: Tables, u: UploadId, readAt: Time, claimedAt: Time) {
    && u in t.uploads
    && var row := t.uploads[u];
       && readAt < row.expiresAt && claimedAt < row.expiresAt
       && (row.status == Pending
           || (row.status == Finalizing && row.leaseExpiresAt.Some? && row.leaseExpiresAt.value <= claimedAt))
  }

  // When an undisturbed `complete` succeeds: the upload is open and claimable, the newest staging object
  // is numbered and passes the checks, the copy is numbered, and the commit is in time.
  predicate Completable(t: Tables, store: Store, u: UploadId, limit: nat, version: VersionId,
                        readAt: Time, claimedAt: Time, finishedAt: Time) {
    && Startable(t, u, readAt, claimedAt)
    && version.Version?
    && (var head := Head(store, Staging(u));
        && head.Some? && head.value.version.Version?
        && |head.value.body| == t.uploads[u].size && |head.value.body| <= limit
        && head.value.mime == Some(t.uploads[u].mime) && head.value.marker == Some(u))
    && finishedAt < t.uploads[u].expiresAt && finishedAt < claimedAt + 120
    && UploadFile(u) !in t.files
  }

  // The rows after call `w` let go of upload `u`: if it still held it, the row is pending again, without
  // token and lease; otherwise nothing changed.
  predicate LetGo(before: map<UploadId, Row>, after: map<UploadId, Row>, u: UploadId, w: CallId) {
    after ==
      if u in before && before[u].status == Finalizing && before[u].token == Some(w) then
        before[u := Row(before[u].size, before[u].mime, before[u].expiresAt, Pending, None, None, before[u].candidate)]
      else before
  }

  // Anybody can claim the upload, at any time before its session expires and at no other.
  ghost predicate FreeToClaim(t: Tables, u: UploadId) {
    u in t.uploads && forall w: CallId, now: Time :: UploadRows.Claim(t, u, w, now).Some? <==> now < t.uploads[u].expiresAt
  }

  lemma PendingIsFree(t: Tables, u: UploadId)
    requires u in t.uploads && t.uploads[u].status == Pending
    ensures FreeToClaim(t, u)
  {
  }

  lemma RestoreLetsGo(t: Tables, u: UploadId, w: CallId)
    ensures LetGo(t.uploads, UploadRows.Restore(t, u, w).uploads, u, w)
  {
  }

  // The row that is left when the caller lets go of its claim.
  function FreedRow(row: Row, w: CallId): Row {
    Row(row.size, row.mime, row.expiresAt, Pending, None, None, Some(Candidate(w)))
  }

  // The row a claim leaves.
  function ClaimedRow(row: Row, w: CallId, now: Time): Row {
    Row(row.size, row.mime, row.expiresAt, Finalizing, Some(w), Some(now + 120), Some(Candidate(w)))
  }

  lemma AfterClaim(t: Tables, u: UploadId, w: CallId, readAt: Time, claimedAt: Time, finishedAt: Time, o: Object, limit: nat)
    requires Startable(t, u, readAt, claimedAt)
    ensures var t' := UploadRows.Claim(t, u, w, claimedAt).value;
            && u in t'.uploads && t'.files == t.files && t'.uploads[u].size == t.uploads[u].size
            && (Finishable(t'.uploads[u], w, finishedAt) <==>
                  finishedAt < t.uploads[u].expiresAt && finishedAt < claimedAt + LEASE_SECONDS)
            && (Matches(o, t'.uploads[u], u, limit) <==> Matches(o, t.uploads[u], u, limit))
            && (Matches(o, t.uploads[u], u, limit) <==>
                  && |o.body| == t.uploads[u].size && |o.body| <= limit
                  && o.mime == Some(t.uploads[u].mime) && o.marker == Some(u))
  {
  }

  lemma ClaimTakes(t: Tables, u: UploadId, w: CallId, readAt: Time, claimedAt: Time)
    requires Startable(t, u, readAt, claimedAt)
    ensures UploadRows.Claim(t, u, w, claimedAt).value.uploads == t.uploads[u := ClaimedRow(t.uploads[u], w, claimedAt)]
  {
  }

  // Letting go of a row just claimed.
  lemma ClaimLetGo(before: Tables, claimed: map<UploadId, Row>, after: Tables, u: UploadId, w: CallId, claimedAt: Time)
    requires u in before.uploads && claimed == before.uploads[u := ClaimedRow(before.uploads[u], w, claimedAt)]
    requires LetGo(claimed, after.uploads, u, w)
    ensures after.uploads == before.uploads[u := FreedRow(before.uploads[u], w)] && FreeToClaim(after, u)
  {
    assert after.uploads == before.uploads[u := FreedRow(before.uploads[u], w)];
    PendingIsFree(after, u);
  }

  lemma EnqueuedHere(t: Tables, key: Key, now: Time)
    ensures key in Enqueue(t, key, now).outbox
  {
  }

  // Version numbers are unique: what the pinned number finds is what was headed.
  lemma PinnedIsHeaded(s: State, u: UploadId)
    requires Inv(s) && Head(s.store, Staging(u)).Some? && Head(s.store, Staging(u)).value.version.Version?
    ensures var head := Head(s.store, Staging(u)); Find(At(s.store, Staging(u)), head.value.version) == head
  {
    hide RowOk, CallOk, FileOk, JobOk, LogOk, QueuesOk;
    var head := Head(s.store, Staging(u)).value;
    var found := Find(At(s.store, Staging(u)), head.version);
    assert ObjectOk(s, Staging(u), head);
    if found.Some? { assert ObjectOk(s, Staging(u), found.value); }
  }

  lemma BeginNext(s: State, w: CallId, u: UploadId, now: Time)
    requires w !in s.calls && u in s.tables.uploads
    ensures var row := s.tables.uploads[u];
            Next(s, Begin(w, u, now))
              == s.(calls := s.calls[w := Completing(u, if !Open(row) || row.expiresAt <= now then Ended else Claiming)])
  {
  }

  lemma ClaimNext(s: State, w: CallId, u: UploadId, now: Time)
    requires CallAt(s, w, u, Claiming)
    ensures var c, t := UploadRows.Claim(s.tables, u, w, now), Next(s, Action.Claim(w, now));
            && t.tables == (if c.Some? then c.value else s.tables) && t.store == s.store && t.made == s.made
            && CallAt(t, w, u, if c.Some? then UploadProtocol.Claimed else Ended)
  {
    hide Queued, Claimable;
  }

  lemma StagingNext(s: State, w: CallId, u: UploadId, limit: nat)
    requires CallAt(s, w, u, UploadProtocol.Claimed)
    ensures var head := Head(s.store, Staging(u));
            Next(s, HeadStaging(w, limit))
              == To(s, w, if head.None? then Restoring
                          else if head.value.version.NullVersion? then Ended
                          else if Matches(head.value, s.tables.uploads[u], u, limit) then Copying(head.value.version.number)
                          else Restoring)
  {
    hide Head, Matches;
  }

  lemma PinnedNext(s: State, w: CallId, u: UploadId, source: nat, version: VersionId)
    requires CallAt(s, w, u, Copying(source)) && Unmade(s, version)
    ensures var found, t := Find(At(s.store, Staging(u)), Version(source)), Next(s, Copy(w, version));
            && t.tables == s.tables && CallAt(t, w, u, if found.Some? then Heading(source) else Ended)
            && t.store == (if found.Some? then
                 Put(s.store, Candidate(w), Object(version, found.value.body, Some(s.tables.uploads[u].mime), None))
               else s.store)
  {
    hide Find, Put;
  }

  lemma RejectNext(s: State, w: CallId, u: UploadId, now: Time)
    requires CallAt(s, w, u, Rejecting)
    ensures var t := Next(s, Reject(w, now));
            t.tables == Enqueue(s.tables, Candidate(w), now) && t.store == s.store && CallAt(t, w, u, Restoring)
  {
    hide Queued;
  }

  lemma RestoreNext(s: State, w: CallId, u: UploadId)
    requires CallAt(s, w, u, Restoring)
    ensures var t := Next(s, Action.Restore(w));
            && t.tables == UploadRows.Restore(s.tables, u, w) && t.store == s.store && t.made == s.made
            && CallAt(t, w, u, Ended)
  {
    hide Queued;
  }

  lemma HeadNext(s: State, w: CallId, u: UploadId, source: nat)
    requires CallAt(s, w, u, Heading(source)) && Head(s.store, Candidate(w)).Some?
    ensures var t := Next(s, HeadCandidate(w)); var o := Head(s.store, Candidate(w)).value;
            && t == To(s, w, if CandidateMatches(o, s.tables.uploads[u]) then Finishing(source) else Rejecting)
  {
  }

  class Service {
    var uploads: map<UploadId, Row>
    var files: map<FileId, File>
    var outbox: map<Key, Entry>
    var drawn: map<Key, nat>
    var fileOutbox: map<FileId, Key>
    var store: Store

    function Contents(): Tables
      reads this
    {
      Tables(uploads, files, outbox, drawn, fileOutbox)
    }

    constructor ()
      ensures Contents() == UploadRows.EMPTY && store == map[]
    {
      uploads, files, outbox, drawn, fileOutbox, store := map[], map[], map[], map[], map[], map[];
    }

    method EnqueueAllVersions(key: Key, notBefore: Time)
      modifies this`outbox, this`drawn
      ensures Contents() == Enqueue(old(Contents()), key, notBefore)
    {
      if key !in outbox {
        var id := if key in drawn then drawn[key] else 0;
        outbox, drawn := outbox[key := Entry(id, notBefore)], drawn[key := id + 1];
      }
    }

    method ClaimCompletion(u: UploadId, call: CallId, now: Time) returns (claimed: bool)
      modifies this`uploads, this`outbox, this`drawn
      ensures var t := UploadRows.Claim(old(Contents()), u, call, now);
              claimed == t.Some? && Contents() == if claimed then t.value else old(Contents())
    {
      var previous := if u in uploads then uploads[u].candidate else None;
      claimed := u in uploads && Claimable(uploads[u], now);
      if claimed {
        uploads := uploads[u := uploads[u].(status := Finalizing, token := Some(call),
                                            leaseExpiresAt := Some(now + LEASE_SECONDS), candidate := Some(Candidate(call)))];
        if previous.Some? {
          EnqueueAllVersions(previous.value, now);
        }
      }
    }

    method RestorePending(u: UploadId, call: CallId)
      modifies this`uploads
      ensures Contents() == UploadRows.Restore(old(Contents()), u, call)
      ensures LetGo(old(uploads), uploads, u, call)
    {
      if u in uploads && uploads[u].status.Finalizing? && uploads[u].token == Some(call) {
        uploads := uploads[u := uploads[u].(status := Pending, token := None, leaseExpiresAt := None)];
      }
    }

    // The last transaction of `complete`. The file row is inserted first and dropped if the lease is lost.
    method FinishCompletion(u: UploadId, call: CallId, now: Time) returns (finished: bool)
      requires u in uploads
      modifies this`uploads, this`files, this`outbox, this`drawn
      ensures var t := UploadRows.Finish(old(Contents()), u, call, now);
              finished == t.Some? && Contents() == if finished then t.value else old(Contents())
    {
      if UploadFile(u) in files { return false; }
      files := files[UploadFile(u) := File(Candidate(call), uploads[u].size, uploads[u].mime)];
      if !Finishable(uploads[u], call, now) {
        files := files - {UploadFile(u)};
        return false;
      }
      uploads := uploads[u := uploads[u].(status := Completed, token := None, leaseExpiresAt := None)];
      EnqueueAllVersions(Staging(u), now + REPLAY_SECONDS);
      finished := true;
    }

    // The loop over the rows that came back, in any order.
    method EnqueueKeys(rows: set<UploadId>, now: Time)
      requires rows <= uploads.Keys
      modifies this`outbox, this`drawn
      ensures Contents() == EnqueueAll(old(Contents()), KeysOf(old(Contents()), rows), now)
    {
      hide EnqueueAll, Enqueue, KeysOf;
      ghost var begin := Contents();
      var rest := rows;
      ghost var done: set<UploadId> := {};
      NoKeys(begin);
      EnqueueNothing(begin, now);
      while rest != {}
        invariant done + rest == rows && uploads == begin.uploads
        invariant Contents() == EnqueueAll(begin, KeysOf(begin, done), now)
        decreases |rest|
      {
        var u :| u in rest;
        KeysOneMore(begin, done, u);
        EnqueueOneMore(begin, KeysOf(begin, done), Staging(u), now);
        EnqueueAllVersions(Staging(u), now);
        if uploads[u].candidate.Some? {
          EnqueueOneMore(begin, KeysOf(begin, done) + {Staging(u)}, uploads[u].candidate.value, now);
          EnqueueAllVersions(uploads[u].candidate.value, now);
        }
        rest := rest - {u};
        done := done + {u};
      }
      assert done == rows;
    }

    // The first transaction of `cleanup_expired`.
    method ExpireSessions(now: Time)
      modifies this`uploads, this`outbox, this`drawn
      ensures Contents() == UploadRows.Expire(old(Contents()), now)
    {
      hide EnqueueAll, KeysOf, Expirable;
      var expired := UploadRows.Expired(Contents(), now);
      uploads := map u | u in uploads :: if u in expired then Released(uploads[u], CleanupPending) else uploads[u];
      SameKeys(old(Contents()), Contents(), expired);
      EnqueueKeys(expired, now);
    }

    // Lists the versions of a key and deletes them one by one.
    method DeleteAllVersions(key: Key)
      modifies this`store
      ensures At(store, key) == []
      ensures forall k :: k != key ==> At(store, k) == old(At(store, k))
    {
      var todo := Versions(store, key);
      forall o | o in At(store, key) ensures o.version in todo {
        ghost var i :| 0 <= i < |At(store, key)| && At(store, key)[i] == o;
        assert todo[i] == o.version;
      }
      for i := 0 to |todo|
        invariant forall o :: o in At(store, key) ==> o.version in todo[i..]
        invariant forall k :: k != key ==> At(store, k) == old(At(store, k))
      {
        assert todo[i..] == [todo[i]] + todo[i + 1..];
        store := DeleteVersion(store, key, todo[i]);
      }
      FirstIsIn(At(store, key));
    }

    // The drain loop of `cleanup_expired`, run undisturbed: every due key is emptied and its row dropped.
    method DrainOutbox(now: Time)
      modifies this`store, this`outbox
      ensures outbox == old(outbox) - Due(old(Contents()), now)
      ensures forall k :: At(store, k) == if k in Due(old(Contents()), now) then [] else old(At(store, k))
      ensures forall k :: k in outbox <==> k in old(outbox) && old(outbox)[k].notBefore > now
      ensures forall k :: k in outbox ==> outbox[k] == old(outbox)[k]
      ensures forall k :: At(store, k) == if k in old(outbox) && old(outbox)[k].notBefore <= now then [] else old(At(store, k))
    {
      var due := Due(Contents(), now);
      var rest := due;
      while rest != {}
        invariant rest <= due && outbox == old(outbox) - (due - rest)
        invariant forall k :: At(store, k) == if k in due - rest then [] else old(At(store, k))
        decreases |rest|
      {
        var key :| key in rest;
        var id := outbox[key].id;
        DeleteAllVersions(key);
        if At(store, key) == [] {
          if key in outbox && outbox[key].id == id { outbox := outbox - {key}; }
        }
        rest := rest - {key};
      }
      assert due - rest == due;
    }

    // Expiry and drain, one after the other. What expires in a pass is gone by its end: its staging object
    // and its last candidate, unless an earlier outbox row has them wait.
    method CleanupExpired(expireNow: Time, drainNow: Time)
      modifies this
      ensures var t := UploadRows.Expire(old(Contents()), expireNow);
              && Contents() == t.(outbox := t.outbox - Due(t, drainNow))
              && forall k :: At(store, k) == if k in Due(t, drainNow) then [] else old(At(store, k))
      ensures uploads.Keys == old(uploads).Keys
      ensures forall u :: u in old(uploads) ==>
                var row := old(uploads)[u];
                uploads[u] ==
                  if Lapsed(row, expireNow) then Row(row.size, row.mime, row.expiresAt, CleanupPending, None, None, row.candidate)
                  else row
      ensures forall u :: u in old(uploads) && Lapsed(old(uploads)[u], expireNow) && expireNow <= drainNow ==>
                && Emptied(old(outbox), Staging(u))
                && (old(uploads)[u].candidate.Some? ==> Emptied(old(outbox), old(uploads)[u].candidate.value))
    {
      hide Due, Expirable, UploadRows.Expire, Lapsed, LapsedKeys;
      ExpireExactly(Contents(), expireNow);
      ghost var begin := Contents();
      ExpireSessions(expireNow);
      DrainOutbox(drainNow);
      forall u | u in begin.uploads && Lapsed(begin.uploads[u], expireNow)
        ensures Staging(u) in LapsedKeys(begin, expireNow)
        ensures begin.uploads[u].candidate.Some? ==> begin.uploads[u].candidate.value in LapsedKeys(begin, expireNow)
      {
        LapsedKey(begin, u, expireNow);
      }
    }

    // A key that had no outbox row before has none now, and no object.
    predicate Emptied(before: map<Key, Entry>, key: Key)
      reads this
    {
      key !in before ==> key !in outbox && At(store, key) == []
    }

    // files::remove, with the deletion it tries at once.
    method RemoveFile(f: FileId, referenced: bool) returns (r: Result<(), Error>)
      modifies this`files, this`fileOutbox, this`store
      ensures r.Success? <==> f in old(files) && !referenced && f !in old(fileOutbox)
      ensures r.Failure? ==> Contents() == old(Contents()) && store == old(store)
      ensures r.Success? ==>
                && Contents() == DropFileEntry(UploadRows.Remove(old(Contents()), f, referenced).value, f)
                && At(store, old(files)[f].key) == []
                && forall k :: k != old(files)[f].key ==> At(store, k) == old(At(store, k))
    {
      if f !in files { return Failure(NotFound); }
      if referenced { return Failure(Referenced); }
      if f in fileOutbox { return Failure(Database); }
      var key := files[f].key;
      files := files - {f};
      fileOutbox := fileOutbox[f := key];
      DeletePending(f, key);
      r := Success(());
    }

    method DeletePending(f: FileId, key: Key)
      modifies this`fileOutbox, this`store
      ensures fileOutbox == old(fileOutbox) - {f} && At(store, key) == []
      ensures forall k :: k != key ==> At(store, k) == old(At(store, k))
    {
      DeleteAllVersions(key);
      fileOutbox := fileOutbox - {f};
    }

    // `cleanup_deletions`, run undisturbed: every key of the file outbox is emptied and no row is left.
    method CleanupDeletions()
      modifies this`fileOutbox, this`store
      ensures fileOutbox == map[]
      ensures forall k :: At(store, k) == if exists f :: f in old(fileOutbox) && old(fileOutbox)[f] == k then [] else old(At(store, k))
    {
      var pending := fileOutbox;
      var rest := pending.Keys;
      while rest != {}
        invariant rest <= pending.Keys && fileOutbox.Keys == rest
        invariant forall k :: At(store, k) == if exists f :: f in pending && f !in rest && pending[f] == k then [] else old(At(store, k))
        decreases |rest|
      {
        var f :| f in rest;
        DeletePending(f, pending[f]);
        rest := rest - {f};
      }
    }

    // files::save: an object whose row cannot be inserted is deleted again.
    method SaveFile(call: CallId, body: seq<Byte>, mime: string, version: VersionId, inserts: bool) returns (saved: bool)
      modifies this`files, this`store
      ensures saved == inserts
      ensures Contents() == if saved then InsertSaved(old(Contents()), call, |body|, mime) else old(Contents())
      ensures saved ==> store == Put(old(store), Saved(call), Object(version, body, Some(mime), None))
      ensures !saved ==> At(store, Saved(call)) == []
      ensures forall k :: k != Saved(call) ==> At(store, k) == old(At(store, k))
    {
      store := Put(store, Saved(call), Object(version, body, Some(mime), None));
      if inserts {
        files := files[SavedFile(call) := File(Saved(call), |body|, mime)];
        saved := true;
      } else {
        DeleteAllVersions(Saved(call));
        saved := false;
      }
    }

    // The protocol state `s` has these tables and this store.
    predicate Mirrors(s: State)
      reads this
    {
      s.tables == Contents() && s.store == store
    }

    // `response_for_upload`. Only an open, unclaimed session that is not over gets a form, and the form ends
    // with the session or after `ttl` seconds, whichever is first.
    method Respond(u: UploadId, created: bool, readAt: Time, signedAt: Time, ttl: nat) returns (r: Result<Response, Error>)
      requires u in uploads
      ensures var row := uploads[u];
              && (row.status == Completed ==>
                    r == if UploadFile(u) in files then Success(Response(false, Done(files[UploadFile(u)]))) else Failure(FileDeleted))
              && (r == Failure(SessionExpired) <==> row.status == CleanupPending || (row.status != Completed && row.expiresAt <= readAt))
              && (row.status == Finalizing && readAt < row.expiresAt ==> r == Success(Response(false, RetryAfter(5))))
              && (r.Success? && r.value.answer.Form? <==> row.status == Pending && readAt < row.expiresAt)
              && (r.Success? && r.value.answer.Form? ==>
                    && r.value.created == created
                    && var e := r.value.answer.expiresAt;
                       e <= row.expiresAt && e <= signedAt + ttl && (e == row.expiresAt || e == signedAt + ttl))
    {
      var upload := uploads[u];
      if upload.status.Completed? {
        if UploadFile(u) !in files { return Failure(FileDeleted); }
        return Success(Response(false, Done(files[UploadFile(u)])));
      }
      if upload.status.CleanupPending? || upload.expiresAt <= readAt { return Failure(SessionExpired); }
      if upload.status.Finalizing? { return Success(Response(false, RetryAfter(5))); }
      var expiry := signedAt + ttl;
      if upload.expiresAt < expiry { expiry := upload.expiresAt; }
      return Success(Response(created, Form(expiry)));
    }

    // `complete` up to the claim.
    method StartCompletion(w: CallId, u: UploadId, readAt: Time, claimedAt: Time, ghost s: State)
      returns (r: Result<Option<Completion>, Error>, ghost steps: seq<Action>)
      requires Mirrors(s) && w !in s.calls
      modifies this`uploads, this`outbox, this`drawn
      ensures Mirrors(Run(s, steps)) && store == old(store) && files == old(files)
      ensures r == Failure(NotFound) <==> u !in old(uploads)
      ensures r.Success? && r.value.None? <==> Startable(old(Contents()), u, readAt, claimedAt)
      ensures r.Success? && r.value.None? ==> Contents() == UploadRows.Claim(old(Contents()), u, w, claimedAt).value
      ensures r.Success? && r.value.None? ==> CallAt(Run(s, steps), w, u, UploadProtocol.Claimed) && Run(s, steps).made == s.made
      ensures r.Success? && r.value.Some? ==>
                && Contents() == old(Contents()) && old(uploads)[u].status.Completed?
                && UploadFile(u) in files && r.value.value == Completion(false, files[UploadFile(u)])
      ensures r.Failure? ==> Contents() == old(Contents())
      ensures r == Failure(SessionExpired) <==>
                u in old(uploads) && var row := old(uploads)[u];
                row.status == CleanupPending || (row.status != Completed && row.expiresAt <= readAt)
      ensures r == Failure(FileDeleted) <==>
                u in old(uploads) && old(uploads)[u].status == Completed && UploadFile(u) !in files
      ensures r == Failure(BeingFinalized) <==>
                u in old(uploads) && var row := old(uploads)[u];
                && (row.status == Pending || row.status == Finalizing) && readAt < row.expiresAt
                && !Startable(old(Contents()), u, readAt, claimedAt)
      ensures r.Failure? ==> r.error in {NotFound, SessionExpired, FileDeleted, BeingFinalized}
      ensures r.Failure? || r.value.Some? ==> w in Run(s, steps).calls ==> CallAt(Run(s, steps), w, u, Ended)
    {
      hide Next, Run, Enqueue, UploadRows.Claim;
      steps := [];
      if u !in uploads {
        assert Run(s, []) == s by { RunNothing(s); }
        return Failure(NotFound), steps;
      }
      var upload := uploads[u];
      steps := [Begin(w, u, readAt)];
      RunOne(s, Begin(w, u, readAt));
      BeginNext(s, w, u, readAt);
      if upload.status.Completed? {
        r := if UploadFile(u) in files then Success(Some(Completion(false, files[UploadFile(u)]))) else Failure(FileDeleted);
        return;
      }
      if upload.status.CleanupPending? || upload.expiresAt <= readAt { return Failure(SessionExpired), steps; }
      steps := [Begin(w, u, readAt), Action.Claim(w, claimedAt)];
      RunTwo(s, Begin(w, u, readAt), Action.Claim(w, claimedAt));
      ClaimNext(Next(s, Begin(w, u, readAt)), w, u, claimedAt);
      ClaimOutcome(s.tables, u, w, claimedAt);
      var claimed := ClaimCompletion(u, w, claimedAt);
      r := if claimed then Success(None) else Failure(BeingFinalized);
    }

    // The checks on the staging object. A mismatch gives the lease back; a missing version number does not.
    method CheckStaging(w: CallId, u: UploadId, limit: nat, ghost s: State)
      returns (r: Result<nat, Error>, ghost steps: seq<Action>)
      requires Mirrors(s) && CallAt(s, w, u, UploadProtocol.Claimed)
      modifies this`uploads
      ensures Mirrors(Run(s, steps)) && Run(s, steps).made == s.made
      ensures r.Success? ==> CallAt(Run(s, steps), w, u, Copying(r.value)) && Contents() == old(Contents())
      ensures r.Failure? ==> CallAt(Run(s, steps), w, u, Ended) && r.error != NotFound
      ensures var head := Head(store, Staging(u));
              && (r.Success? <==> head.Some? && head.value.version.Version? && Matches(head.value, old(uploads)[u], u, limit))
              && (r.Success? ==> head.value.version == Version(r.value))
              && (r == Failure(VersioningRequired) <==> head.Some? && head.value.version.NullVersion?)
      ensures r.Failure? && r.error != VersioningRequired ==> Contents() == UploadRows.Restore(old(Contents()), u, w)
      ensures if r.Failure? && r.error != VersioningRequired then LetGo(old(uploads), uploads, u, w) else uploads == old(uploads)
      ensures var head, row := Head(store, Staging(u)), old(uploads)[u];
              && (head.None? <==> r == Failure(Incomplete))
              && (head.Some? && head.value.version.Version? ==>
                    var o := head.value;
                    && (r == Failure(SizeMismatch) <==> |o.body| != row.size)
                    && (r == Failure(SizeLimit) <==> |o.body| == row.size && row.size > limit)
                    && (r == Failure(MetadataMismatch) <==>
                          |o.body| == row.size && row.size <= limit && (o.mime != Some(row.mime) || o.marker != Some(u))))
      ensures r.Failure? ==> r.error in {Incomplete, VersioningRequired, SizeMismatch, SizeLimit, MetadataMismatch}
    {
      hide Next, Run, Head, UploadRows.Restore;
      var upload := uploads[u];
      var head := Head(store, Staging(u));
      steps := [HeadStaging(w, limit)];
      RunOne(s, HeadStaging(w, limit));
      StagingNext(s, w, u, limit);
      if head.Some? && head.value.version.NullVersion? { return Failure(VersioningRequired), steps; }
      if head.None? {
        r := Failure(Incomplete);
      } else if |head.value.body| != upload.size {
        r := Failure(SizeMismatch);
      } else if |head.value.body| > limit {
        r := Failure(SizeLimit);
      } else if head.value.mime != Some(upload.mime) || head.value.marker != Some(u) {
        r := Failure(MetadataMismatch);
      } else {
        return Success(head.value.version.number), steps;
      }
      RestorePending(u, w);
      RestoreNext(Next(s, HeadStaging(w, limit)), w, u);
      steps := [HeadStaging(w, limit), Action.Restore(w)];
      RunTwo(s, HeadStaging(w, limit), Action.Restore(w));
    }

    // Copies the pinned version to the caller's candidate key.
    method CopyPinned(w: CallId, u: UploadId, source: nat, version: VersionId, ghost s: State) returns (copied: bool)
      requires Mirrors(s) && CallAt(s, w, u, Copying(source)) && Unmade(s, version)
      modifies this`store
      ensures var s' := Next(s, Copy(w, version)); Mirrors(s') && CallAt(s', w, u, if copied then Heading(source) else Ended)
      ensures copied == Find(At(old(store), Staging(u)), Version(source)).Some?
      ensures copied ==>
                Head(store, Candidate(w)) ==
                Some(Object(version, Find(At(old(store), Staging(u)), Version(source)).value.body, Some(uploads[u].mime), None))
      ensures forall k :: k != Candidate(w) ==> At(store, k) == old(At(store, k))
    {
      hide Without, Find, Next;
      PinnedNext(s, w, u, source, version);
      var found := Find(At(store, Staging(u)), Version(source));
      copied := found.Some?;
      if copied {
        store := Put(store, Candidate(w), Object(version, found.value.body, Some(uploads[u].mime), None));
      }
    }

    // Queues a copy that failed its checks and gives the lease back.
    method RejectCandidate(w: CallId, u: UploadId, rejectedAt: Time, ghost s: State)
      requires Mirrors(s) && CallAt(s, w, u, Rejecting)
      modifies this`uploads, this`outbox, this`drawn
      ensures var s' := Run(s, [Reject(w, rejectedAt), Action.Restore(w)]); Mirrors(s') && CallAt(s', w, u, Ended)
      ensures LetGo(old(uploads), uploads, u, w) && Candidate(w) in outbox
    {
      hide Next, Enqueue, UploadRows.Restore;
      RunTwo(s, Reject(w, rejectedAt), Action.Restore(w));
      RejectNext(s, w, u, rejectedAt);
      RestoreNext(Next(s, Reject(w, rejectedAt)), w, u);
      EnqueuedHere(Contents(), Candidate(w), rejectedAt);
      EnqueueAllVersions(Candidate(w), rejectedAt);
      RestorePending(u, w);
    }

    // The copy and the checks on what arrived there.
    method CopyCandidate(w: CallId, u: UploadId, source: nat, version: VersionId, rejectedAt: Time, ghost s: State)
      returns (r: Result<(), Error>, ghost steps: seq<Action>)
      requires Mirrors(s) && CallAt(s, w, u, Copying(source)) && Unmade(s, version)
      modifies this`uploads, this`outbox, this`drawn, this`store
      ensures Mirrors(Run(s, steps)) && files == old(files)
      ensures r.Success? ==> CallAt(Run(s, steps), w, u, Finishing(source)) && Contents() == old(Contents())
      ensures var found := Find(At(old(store), Staging(u)), Version(source));
              && (r.Success? <==> found.Some? && version.Version? && |found.value.body| == old(uploads)[u].size)
              && (r == Failure(CopyMissing) <==> found.None?)
      ensures r.Failure? ==> r.error in {CopyMissing, CopyMismatch}
      ensures r == Failure(CopyMissing) ==> Contents() == old(Contents())
      ensures r == Failure(CopyMismatch) ==> LetGo(old(uploads), uploads, u, w) && Candidate(w) in outbox
      ensures r.Failure? ==> CallAt(Run(s, steps), w, u, Ended) && r.error != NotFound
      ensures forall k :: k != Candidate(w) ==> At(store, k) == old(At(store, k))
    {
      hide Without, Find, CallNext, SaveNext, SessionNext, JobNext;
      var upload := uploads[u];
      var copied := CopyPinned(w, u, source, version, s);
      steps := [Copy(w, version)];
      RunOne(s, Copy(w, version));
      if !copied { return Failure(CopyMissing), steps; }
      ghost var heading := Run(s, steps);
      var candidate := Head(store, Candidate(w)).value;
      steps := [Copy(w, version), HeadCandidate(w)];
      RunTwo(s, Copy(w, version), HeadCandidate(w));
      HeadNext(heading, w, u, source);
      ghost var headed := Run(s, steps);
      if candidate.version.NullVersion? || |candidate.body| != upload.size || candidate.mime != Some(upload.mime) {
        RejectCandidate(w, u, rejectedAt, headed);
        RunAppend(s, steps, [Reject(w, rejectedAt), Action.Restore(w)]);
        steps := steps + [Reject(w, rejectedAt), Action.Restore(w)];
        return Failure(CopyMismatch), steps;
      }
      r := Success(());
    }

    // From the copy on.
    method CopyAndCommit(w: CallId, u: UploadId, source: nat, version: VersionId, rejectedAt: Time, finishedAt: Time, ghost s: State)
      returns (r: Result<Completion, Error>, ghost steps: seq<Action>)
      requires Mirrors(s) && CallAt(s, w, u, Copying(source)) && Unmade(s, version)
      modifies this
      ensures Mirrors(Run(s, steps)) && CallAt(Run(s, steps), w, u, if r.Success? then Won(source) else Ended)
      ensures var found := Find(At(old(store), Staging(u)), Version(source));
              r.Success? <==>
                && found.Some? && version.Version? && |found.value.body| == old(uploads)[u].size
                && UploadFile(u) !in old(files) && Finishable(old(uploads)[u], w, finishedAt)
      ensures r.Success? ==> UploadFile(u) in files && r.value == Completion(true, files[UploadFile(u)])
      ensures r.Failure? ==> files == old(files) && r.error in {CopyMissing, CopyMismatch, LeaseLost}
      ensures r == Failure(CopyMismatch) ==> LetGo(old(uploads), uploads, u, w) && Candidate(w) in outbox
      ensures r == Failure(CopyMissing) || r == Failure(LeaseLost) ==> uploads == old(uploads)
      ensures forall k :: k != Candidate(w) ==> At(store, k) == old(At(store, k))
    {
      hide Next, Find, Run, Finishable, LetGo;
      var copied, copying := CopyCandidate(w, u, source, version, rejectedAt, s);
      steps := copying;
      if copied.Failure? { return Failure(copied.error), steps; }
      ghost var ready := Run(s, steps);
      r := Commit(w, u, source, finishedAt, ready);
      RunAppend(s, steps, [Action.Finish(w, finishedAt)]);
      RunOne(ready, Action.Finish(w, finishedAt));
      steps := steps + [Action.Finish(w, finishedAt)];
    }

    // `complete`, undisturbed: every branch is a run of the protocol's steps, and the call reports
    // `created` exactly when it won.
    method Complete(w: CallId, u: UploadId, limit: nat, version: VersionId,
                    readAt: Time, claimedAt: Time, rejectedAt: Time, finishedAt: Time, ghost s: State)
      returns (r: Result<Completion, Error>, ghost steps: seq<Action>)
      requires Mirrors(s) && Inv(s) && w !in s.calls && Unmade(s, version)
      modifies this
      ensures Mirrors(Run(s, steps))
      ensures r.Success? && r.value.created <==>
                Completable(old(Contents()), old(store), u, limit, version, readAt, claimedAt, finishedAt)
      ensures r == Failure(NotFound) <==> u !in old(uploads)
      ensures r.Success? && r.value.created <==> Created(Run(s, steps), w, u)
      ensures r.Success? ==> UploadFile(u) in files && r.value.file == files[UploadFile(u)]
      ensures r.Failure? || !r.value.created ==> files == old(files)
      ensures r.Failure? && r.error in {NotFound, SessionExpired, FileDeleted, BeingFinalized} ==> Contents() == old(Contents())
      ensures r.Failure? && r.error in {Incomplete, SizeMismatch, SizeLimit, MetadataMismatch, CopyMismatch} ==>
                && u in old(uploads)
                && uploads == old(uploads)[u := FreedRow(old(uploads)[u], w)]
                && FreeToClaim(Contents(), u)
      ensures r.Failure? && r.error in {VersioningRequired, CopyMissing, LeaseLost} ==>
                u in old(uploads) && uploads == old(uploads)[u := ClaimedRow(old(uploads)[u], w, claimedAt)]
      ensures forall k :: k != Candidate(w) ==> At(store, k) == old(At(store, k))
    {
      hide Next, Inv, Find, Run, UploadRows.Claim, Matches, Finishable, Head, Startable, LetGo, FreeToClaim, FreedRow, ClaimedRow;
      var head := Head(store, Staging(u));
      if Startable(Contents(), u, readAt, claimedAt) { ClaimTakes(Contents(), u, w, readAt, claimedAt); }
      if head.Some? && head.value.version.Version? {
        PinnedIsHeaded(s, u);
        if Startable(Contents(), u, readAt, claimedAt) {
          AfterClaim(Contents(), u, w, readAt, claimedAt, finishedAt, head.value, limit);
        }
      }
      var started, first := StartCompletion(w, u, readAt, claimedAt, s);
      steps := first;
      if started.Failure? { return Failure(started.error), steps; }
      if started.value.Some? { return Success(started.value.value), steps; }
      ghost var claimed, claimedRows := Run(s, steps), uploads;
      var checked, second := CheckStaging(w, u, limit, claimed);
      RunAppend(s, steps, second);
      steps := steps + second;
      if checked.Failure? {
        if checked.error != VersioningRequired { ClaimLetGo(old(Contents()), claimedRows, Contents(), u, w, claimedAt); }
        return Failure(checked.error), steps;
      }
      ghost var pinned := Run(s, steps);
      var completion, third := CopyAndCommit(w, u, checked.value, version, rejectedAt, finishedAt, pinned);
      RunAppend(s, steps, third);
      steps := steps + third;
      if completion == Failure(CopyMismatch) { ClaimLetGo(old(Contents()), claimedRows, Contents(), u, w, claimedAt); }
      r := completion;
    }

    method Commit(w: CallId, u: UploadId, source: nat, finishedAt: Time, ghost s: State) returns (r: Result<Completion, Error>)
      requires Mirrors(s) && CallAt(s, w, u, Finishing(source))
      modifies this`uploads, this`files, this`outbox, this`drawn
      ensures var s' := Next(s, Action.Finish(w, finishedAt));
              Mirrors(s') && CallAt(s', w, u, if r.Success? then Won(source) else Ended)
      ensures r.Success? <==> UploadFile(u) !in old(files) && Finishable(old(uploads)[u], w, finishedAt)
      ensures r.Success? ==> UploadFile(u) in files && r.value == Completion(true, files[UploadFile(u)])
      ensures r.Failure? ==> r.error == LeaseLost && Contents() == old(Contents())
    {
      var finished := FinishCompletion(u, w, finishedAt);
      r := if finished then Success(Completion(true, files[UploadFile(u)])) else Failure(LeaseLost);
    }
  }
}
