/** What every reachable state of the upload protocol satisfies. */
module UploadInvariant {
  import opened Wrappers
  import opened UploadRows
  import opened ObjectStore
  import opened UploadProtocol

  // Call `w` has tried to claim upload `u`.
  predicate Attempt(s: State, w: CallId, u: UploadId) {
    w in s.calls && s.calls[w].Completing? && s.calls[w].upload == u && !s.calls[w].pc.Claiming?
  }

  // Version `v` was posted to the staging key of `u` and passes the checks of its row.
  predicate Checked(s: State, u: UploadId, v: nat) {
    && u in s.tables.uploads && v in s.made
    && s.made[v].key == Staging(u)
    && var o := s.made[v].content; var row := s.tables.uploads[u];
       o.version == Version(v) && |o.body| == row.size && o.mime == Some(row.mime) && o.marker == Some(u)
  }

  predicate Single(s: State, key: Key, size: nat, mime: string) {
    && |At(s.store, key)| == 1
    && |At(s.store, key)[0].body| == size && At(s.store, key)[0].mime == Some(mime)
  }

  // The candidate key of `w` holds one object, a copy of the checked version `v`.
  predicate CopyOf(s: State, w: CallId, u: UploadId, v: nat) {
    && Checked(s, u, v)
    && var row := s.tables.uploads[u];
       Single(s, Candidate(w), row.size, row.mime) && At(s.store, Candidate(w))[0].body == s.made[v].content.body
  }

  predicate Untouched(s: State, key: Key) {
    key !in s.doomed && At(s.store, key) == []
  }

  predicate RowOk(s: State, u: UploadId) {
    if u !in s.tables.uploads then Staging(u) !in s.doomed && UploadFile(u) !in s.inserted
    else
      var row := s.tables.uploads[u];
      && (row.status.Finalizing? <==> row.token.Some?)
      && (row.candidate.Some? ==> row.candidate.value.Candidate? && Attempt(s, row.candidate.value.call, u))
      && (row.token.Some? ==>
            && row.candidate == Some(Candidate(row.token.value))
            && var w := row.token.value;
               Candidate(w) in s.doomed ==> s.calls[w].pc.Restoring? || s.calls[w].pc.Ended?)
      && (Open(row) ==> Staging(u) !in s.doomed)
      && (row.status.Completed? <==> UploadFile(u) in s.inserted)
      && (row.status.Completed? ==> row.candidate.Some? && s.calls[row.candidate.value.call].pc.Won?)
  }

  predicate PcOk(s: State, w: CallId, u: UploadId, pc: Pc) {
    match pc
    case Claiming => Untouched(s, Candidate(w))
    case Claimed => At(s.store, Candidate(w)) == []
    case Copying(v) => Checked(s, u, v) && At(s.store, Candidate(w)) == []
    case Heading(v) => Checked(s, u, v) && (Candidate(w) !in s.doomed ==> CopyOf(s, w, u, v))
    case Finishing(v) =>
      && Checked(s, u, v)
      && (Candidate(w) !in s.doomed ==> CopyOf(s, w, u, v) && At(s.store, Candidate(w))[0].version.Version?)
    case Won(v) =>
      Checked(s, u, v) && var row := s.tables.uploads[u]; row.status.Completed? && row.candidate == Some(Candidate(w))
    case _ => true
  }

  predicate CallOk(s: State, w: CallId) {
    if w !in s.calls then Untouched(s, Candidate(w)) && Untouched(s, Saved(w)) && SavedFile(w) !in s.inserted
    else
      match s.calls[w]
      case Completing(u, pc) => u in s.tables.uploads && PcOk(s, w, u, pc)
      case Inserting(size, mime) =>
        Saved(w) !in s.doomed && SavedFile(w) !in s.inserted && Single(s, Saved(w), size, mime)
      case SaveEnded => true
  }

  // A live file has its object, and its key was never handed to deletion.
  predicate FileOk(s: State, f: FileId) {
    f in s.tables.files ==>
      var file := s.tables.files[f];
      && f in s.inserted && file.key !in s.doomed && Single(s, file.key, file.size, file.mime)
      && match f {
           case UploadFile(u) =>
             && file.key.Candidate?
             && var w := file.key.call;
                && w in s.calls && s.calls[w].Completing? && s.calls[w].upload == u && s.calls[w].pc.Won?
                && CopyOf(s, w, u, s.calls[w].pc.source) && At(s.store, file.key)[0].version.Version?
           case SavedFile(w) => file.key == Saved(w) && w in s.calls && s.calls[w].SaveEnded?
         }
  }

  predicate JobOk(s: State, j: nat) {
    j in s.jobs ==> s.jobs[j].key in s.doomed
  }

  // A numbered version in the store is the one that was made under that number.
  predicate ObjectOk(s: State, key: Key, o: Object) {
    o in At(s.store, key) && o.version.Version? ==>
      o.version.number in s.made && s.made[o.version.number] == Made(key, o)
  }

  predicate QueuesOk(s: State) {
    Queued(s.tables) <= s.doomed
  }

  predicate LogOk(s: State) {
    forall i, j :: 0 <= i < j < |s.inserted| ==> s.inserted[i] != s.inserted[j]
  }

  ghost predicate Inv(s: State) {
    && QueuesOk(s) && LogOk(s)
    && (forall u :: RowOk(s, u))
    && (forall w :: CallOk(s, w))
    && (forall f :: FileOk(s, f))
    && (forall j :: JobOk(s, j))
    && (forall key, o :: ObjectOk(s, key, o))
  }
}
