/** Direct uploads, saves, removals and cleanup, interleaved step by step.

  A call of `complete` claims the upload, heads the staging object, copies one pinned version to a
  candidate key of its own, heads the copy and commits if its lease token is still current. A call of
  `save` puts an object and inserts its row. Clients post anything to a staging key at any time.
  Cleanup expires sessions and works through stale lists of keys to delete. Every transaction and every
  request to the object store is one step; every reading of the clock is arbitrary. */
module UploadProtocol {
  import opened Wrappers
  import opened UploadRows
  import opened ObjectStore

  // `source` is the number of the pinned staging version.
  datatype Pc =
    | Claiming
    | Claimed
    | Copying(source: nat)
    | Heading(source: nat)
    | Finishing(source: nat)
    | Rejecting
    | Restoring
    | Won(source: nat)
    | Ended

  datatype Call =
    | Completing(upload: UploadId, pc: Pc)
    | Inserting(size: nat, mime: string)
    | SaveEnded

  datatype Kind = OfEntry(id: nat) | OfFile(file: FileId) | OfSave

  datatype Phase = Listing | Deleting(todo: seq<VersionId>) | Rechecking | Over

  // The deletion of all versions of one key, started from a row read some time ago.
  datatype Job = Job(kind: Kind, key: Key, phase: Phase)

  datatype Made = Made(key: Key, content: Object)

  // The last three fields are history: keys ever handed to deletion, every numbered version ever
  // made, and the file ids inserted, in order.
  datatype State = State(
    tables: Tables, store: Store, calls: map<CallId, Call>, jobs: map<nat, Job>,
    doomed: set<Key>, made: map<nat, Made>, inserted: seq<FileId>)

  datatype Action =
    | Initiate(u: UploadId, size: nat, mime: string, expiresAt: Time)
    | Post(u: UploadId, object: Object)
    | Begin(w: CallId, u: UploadId, now: Time)
    | Claim(w: CallId, now: Time)
    | HeadStaging(w: CallId, limit: nat)
    | Copy(w: CallId, version: VersionId)
    | HeadCandidate(w: CallId)
    | Reject(w: CallId, now: Time)
    | Restore(w: CallId)
    | Finish(w: CallId, now: Time)
    | Stop(w: CallId)
    | SavePut(w: CallId, body: seq<Byte>, mime: string, version: VersionId)
    | SaveInsert(w: CallId, ok: bool, j: nat)
    | Remove(f: FileId, referenced: bool)
    | Expire(now: Time)
    | ReadEntry(j: nat, key: Key, now: Time)
    | ReadFileEntry(j: nat, f: FileId)
    | List(j: nat)
    | DeleteNext(j: nat)
    | Recheck(j: nat)
    | Abandon(j: nat)

  const EMPTY := State(UploadRows.EMPTY, map[], map[], map[], {}, map[], [])

  predicate Active(s: State, w: CallId) {
    w in s.calls && s.calls[w].Completing? && s.calls[w].upload in s.tables.uploads
  }

  function RowOf(s: State, w: CallId): Row
    requires Active(s, w)
  {
    s.tables.uploads[s.calls[w].upload]
  }

  function To(s: State, w: CallId, pc: Pc): State
    requires Active(s, w)
  {
    s.(calls := s.calls[w := Completing(s.calls[w].upload, pc)])
  }

  // New tables; whatever they queue is handed to deletion.
  function WithTables(s: State, t: Tables): State {
    s.(tables := t, doomed := s.doomed + Queued(t))
  }

  // A version number is used once; the null version is not numbered.
  predicate Unmade(s: State, version: VersionId) {
    version.Version? ==> version.number !in s.made
  }

  function WithObject(s: State, key: Key, o: Object): State {
    s.(store := Put(s.store, key, o),
       made := if o.version.Version? then s.made[o.version.number := Made(key, o)] else s.made)
  }

  // The checks on a headed staging object.
  predicate Matches(o: Object, row: Row, u: UploadId, limit: nat) {
    |o.body| == row.size && |o.body| <= limit && o.mime == Some(row.mime) && o.marker == Some(u)
  }

  predicate CandidateMatches(o: Object, row: Row) {
    o.version.Version? && |o.body| == row.size && o.mime == Some(row.mime)
  }

  function CallNext(s: State, a: Action): State {
    match a
    case Begin(w, u, now) =>
      if w in s.calls || u !in s.tables.uploads then s
      else
        var row := s.tables.uploads[u];
        s.(calls := s.calls[w := Completing(u, if !Open(row) || row.expiresAt <= now then Ended else Claiming)])
    case Claim(w, now) =>
      if !Active(s, w) || !s.calls[w].pc.Claiming? then s
      else
        var t := UploadRows.Claim(s.tables, s.calls[w].upload, w, now);
        if t.None? then To(s, w, Ended) else WithTables(To(s, w, Claimed), t.value)
    case HeadStaging(w, limit) =>
      if !Active(s, w) || !s.calls[w].pc.Claimed? then s
      else
        var u := s.calls[w].upload;
        var o := Head(s.store, Staging(u));
        if o.None? then To(s, w, Restoring)
        else if o.value.version.NullVersion? then To(s, w, Ended)
        else if Matches(o.value, RowOf(s, w), u, limit) then To(s, w, Copying(o.value.version.number))
        else To(s, w, Restoring)
    case Copy(w, version) =>
      if !Active(s, w) || !s.calls[w].pc.Copying? || !Unmade(s, version) then s
      else
        var key, source := Staging(s.calls[w].upload), s.calls[w].pc.source;
        var o := Find(At(s.store, key), Version(source));
        if o.None? then To(s, w, Ended)
        else WithObject(To(s, w, Heading(source)), Candidate(w), Object(version, o.value.body, Some(RowOf(s, w).mime), None))
    case HeadCandidate(w) =>
      if !Active(s, w) || !s.calls[w].pc.Heading? then s
      else
        var o := Head(s.store, Candidate(w));
        if o.None? then To(s, w, Ended)
        else if CandidateMatches(o.value, RowOf(s, w)) then To(s, w, Finishing(s.calls[w].pc.source))
        else To(s, w, Rejecting)
    case Reject(w, now) =>
      if !Active(s, w) || !s.calls[w].pc.Rejecting? then s
      else WithTables(To(s, w, Restoring), Enqueue(s.tables, Candidate(w), now))
    case Restore(w) =>
      if !Active(s, w) || !s.calls[w].pc.Restoring? then s
      else WithTables(To(s, w, Ended), UploadRows.Restore(s.tables, s.calls[w].upload, w))
    case Finish(w, now) =>
      if !Active(s, w) || !s.calls[w].pc.Finishing? then s
      else
        var u := s.calls[w].upload;
        var t := UploadRows.Finish(s.tables, u, w, now);
        if t.None? then To(s, w, Ended)
        else WithTables(To(s, w, Won(s.calls[w].pc.source)), t.value).(inserted := s.inserted + [UploadFile(u)])
    case Stop(w) =>
      if !Active(s, w) || s.calls[w].pc.Won? then s else To(s, w, Ended)
    case _ => s
  }

  function SaveNext(s: State, a: Action): State {
    match a
    case SavePut(w, body, mime, version) =>
      if w in s.calls || !Unmade(s, version) then s
      else
        WithObject(s, Saved(w), Object(version, body, Some(mime), None)).(
          calls := s.calls[w := Inserting(|body|, mime)])
    case SaveInsert(w, ok, j) =>
      if w !in s.calls || !s.calls[w].Inserting? || j in s.jobs then s
      else if ok then
        WithTables(s, InsertSaved(s.tables, w, s.calls[w].size, s.calls[w].mime)).(
          calls := s.calls[w := SaveEnded], inserted := s.inserted + [SavedFile(w)])
      else
        s.(calls := s.calls[w := SaveEnded], doomed := s.doomed + {Saved(w)},
           jobs := s.jobs[j := Job(OfSave, Saved(w), Listing)])
    case Remove(f, referenced) =>
      var t := UploadRows.Remove(s.tables, f, referenced);
      if t.None? then s else WithTables(s, t.value)
    case _ => s
  }

  function SessionNext(s: State, a: Action): State {
    match a
    case Initiate(u, size, mime, expiresAt) =>
      if u in s.tables.uploads then s
      else
        WithTables(s, SetRow(s.tables, u, Row(size, mime, expiresAt, Pending, None, None, None)))
    case Post(u, o) =>
      if u !in s.tables.uploads || !Unmade(s, o.version) then s else WithObject(s, Staging(u), o)
    case Expire(now) => WithTables(s, UploadRows.Expire(s.tables, now))
    case _ => s
  }

  predicate Doing(s: State, j: nat) {
    j in s.jobs
  }

  function SetPhase(s: State, j: nat, phase: Phase): State
    requires Doing(s, j)
  {
    s.(jobs := s.jobs[j := s.jobs[j].(phase := phase)])
  }

  // What follows the deletions: the outbox row goes, for an upload key only if nothing is left.
  function AfterDeleting(s: State, j: nat): State
    requires Doing(s, j)
  {
    match s.jobs[j].kind
    case OfEntry(id) => SetPhase(s, j, Rechecking)
    case OfFile(f) => SetPhase(s.(tables := DropFileEntry(s.tables, f)), j, Over)
    case OfSave => SetPhase(s, j, Over)
  }

  function JobNext(s: State, a: Action): State {
    match a
    case ReadEntry(j, key, now) =>
      if j in s.jobs || key !in Due(s.tables, now) then s
      else s.(jobs := s.jobs[j := Job(OfEntry(s.tables.outbox[key].id), key, Listing)])
    case ReadFileEntry(j, f) =>
      if j in s.jobs || f !in s.tables.fileOutbox then s
      else s.(jobs := s.jobs[j := Job(OfFile(f), s.tables.fileOutbox[f], Listing)])
    case List(j) =>
      if !Doing(s, j) || !s.jobs[j].phase.Listing? then s
      else SetPhase(s, j, Deleting(Versions(s.store, s.jobs[j].key)))
    case DeleteNext(j) =>
      if !Doing(s, j) || !s.jobs[j].phase.Deleting? then s
      else if s.jobs[j].phase.todo == [] then AfterDeleting(s, j)
      else
        var todo := s.jobs[j].phase.todo;
        SetPhase(s, j, Deleting(todo[1..])).(store := DeleteVersion(s.store, s.jobs[j].key, todo[0]))
    case Recheck(j) =>
      if !Doing(s, j) || !s.jobs[j].phase.Rechecking? || !s.jobs[j].kind.OfEntry? then s
      else if At(s.store, s.jobs[j].key) != [] then SetPhase(s, j, Over)
      else SetPhase(s.(tables := DropEntry(s.tables, s.jobs[j].key, s.jobs[j].kind.id)), j, Over)
    case Abandon(j) => if Doing(s, j) then SetPhase(s, j, Over) else s
    case _ => s
  }

  function Next(s: State, a: Action): State {
    if a.Initiate? || a.Post? || a.Expire? then SessionNext(s, a)
    else if a.SavePut? || a.SaveInsert? || a.Remove? then SaveNext(s, a)
    else if a.ReadEntry? || a.ReadFileEntry? || a.List? || a.DeleteNext? || a.Recheck? || a.Abandon? then JobNext(s, a)
    else CallNext(s, a)
  }

  function Run(s: State, actions: seq<Action>): State
    decreases |actions|
  {
    if actions == [] then s else Run(Next(s, actions[0]), actions[1..])
  }
}
