/** The upload tables and the transactions on them.

  Tokens, keys and ids are drawn fresh by the code; here each is named after the call that drew it, so
  two draws are never equal. A call is one run of `complete` or of `save`. Every transaction takes its
  own reading of the clock. */
module UploadRows {
  import opened Wrappers

  type CallId = nat
  type UploadId = nat
  type Time = int

  datatype Key = Staging(upload: UploadId) | Candidate(call: CallId) | Saved(call: CallId)

  datatype FileId = UploadFile(upload: UploadId) | SavedFile(call: CallId)

  datatype Status = Pending | Finalizing | Completed | CleanupPending

  // A row of file_uploads. Size, media type and expiry never change.
  datatype Row = Row(
    size: nat, mime: string, expiresAt: Time,
    status: Status, token: Option<CallId>, leaseExpiresAt: Option<Time>, candidate: Option<Key>)

  datatype File = File(key: Key, size: nat, mime: string)

  // A row of object_deletion_outbox for all versions of a key; `id` counts the rows the key has had.
  datatype Entry = Entry(id: nat, notBefore: Time)

  datatype Tables = Tables(
    uploads: map<UploadId, Row>, files: map<FileId, File>,
    outbox: map<Key, Entry>, drawn: map<Key, nat>, fileOutbox: map<FileId, Key>)

  const LEASE_SECONDS := 120
  const REPLAY_SECONDS := 305

  const EMPTY := Tables(map[], map[], map[], map[], map[])

  predicate Open(row: Row) {
    row.status.Pending? || row.status.Finalizing?
  }

  // `lease_expires_at <= now()` is not true of a NULL.
  predicate LeaseOver(row: Row, now: Time) {
    row.leaseExpiresAt.Some? && row.leaseExpiresAt.value <= now
  }

  predicate Claimable(row: Row, now: Time) {
    row.expiresAt > now && (row.status.Pending? || (row.status.Finalizing? && LeaseOver(row, now)))
  }

  predicate Holds(row: Row, call: CallId) {
    row.status.Finalizing? && row.token == Some(call)
  }

  predicate Finishable(row: Row, call: CallId, now: Time) {
    Holds(row, call) && row.expiresAt > now && row.leaseExpiresAt.Some? && row.leaseExpiresAt.value > now
  }

  predicate Expirable(row: Row, now: Time) {
    row.expiresAt <= now && (row.status.Pending? || (row.status.Finalizing? && LeaseOver(row, now)))
  }

  function Drawn(t: Tables, key: Key): nat {
    if key in t.drawn then t.drawn[key] else 0
  }

  // INSERT ... ON CONFLICT DO NOTHING, for one key or for many.
  function Enqueue(t: Tables, key: Key, notBefore: Time): Tables {
    if key in t.outbox then t
    else t.(outbox := t.outbox[key := Entry(Drawn(t, key), notBefore)], drawn := t.drawn[key := Drawn(t, key) + 1])
  }

  function EnqueueAll(t: Tables, keys: set<Key>, notBefore: Time): Tables {
    var added := keys - t.outbox.Keys;
    t.(outbox := t.outbox + map k | k in added :: Entry(Drawn(t, k), notBefore),
       drawn := t.drawn + map k | k in added :: Drawn(t, k) + 1)
  }

  function SetRow(t: Tables, u: UploadId, row: Row): Tables {
    t.(uploads := t.uploads[u := row])
  }

  function Released(row: Row, status: Status): Row {
    row.(status := status, token := None, leaseExpiresAt := None)
  }

  // claim_completion: None when no row was claimed.
  function Claim(t: Tables, u: UploadId, call: CallId, now: Time): Option<Tables> {
    if u !in t.uploads || !Claimable(t.uploads[u], now) then None
    else
      var row := t.uploads[u];
      var t1 := SetRow(t, u, row.(status := Finalizing, token := Some(call),
                                  leaseExpiresAt := Some(now + LEASE_SECONDS), candidate := Some(Candidate(call))));
      Some(if row.candidate.Some? then Enqueue(t1, row.candidate.value, now) else t1)
  }

  function Restore(t: Tables, u: UploadId, call: CallId): Tables {
    if u in t.uploads && Holds(t.uploads[u], call) then SetRow(t, u, Released(t.uploads[u], Pending)) else t
  }

  // The last transaction of `complete`: None when it rolls back.
  function Finish(t: Tables, u: UploadId, call: CallId, now: Time): Option<Tables> {
    if u !in t.uploads || UploadFile(u) in t.files || !Finishable(t.uploads[u], call, now) then None
    else
      var row := t.uploads[u];
      var t1 := SetRow(t, u, Released(row, Completed));
      Some(Enqueue(t1.(files := t1.files[UploadFile(u) := File(Candidate(call), row.size, row.mime)]),
                   Staging(u), now + REPLAY_SECONDS))
  }

  function Expired(t: Tables, now: Time): set<UploadId> {
    set u | u in t.uploads && Expirable(t.uploads[u], now)
  }

  function StagingKeys(us: set<UploadId>): (keys: set<Key>)
    ensures forall u :: Staging(u) in keys <==> u in us
    ensures forall k :: k in keys ==> k.Staging?
  {
    set u | u in us :: Staging(u)
  }

  function CandidateKeys(t: Tables, us: set<UploadId>): (keys: set<Key>)
    requires us <= t.uploads.Keys
  {
    set u | u in us && t.uploads[u].candidate.Some? :: t.uploads[u].candidate.value
  }

  // The staging and candidate keys of some uploads.
  function KeysOf(t: Tables, us: set<UploadId>): set<Key>
    requires us <= t.uploads.Keys
  {
    StagingKeys(us) + CandidateKeys(t, us)
  }

  function ExpiredKeys(t: Tables, now: Time): set<Key> {
    KeysOf(t, Expired(t, now))
  }

  // The first transaction of cleanup_expired.
  function Expire(t: Tables, now: Time): Tables {
    EnqueueAll(
      t.(uploads := map u | u in t.uploads ::
                      if u in Expired(t, now) then Released(t.uploads[u], CleanupPending) else t.uploads[u]),
      ExpiredKeys(t, now), now)
  }

  function Due(t: Tables, now: Time): set<Key> {
    set k | k in t.outbox && t.outbox[k].notBefore <= now
  }

  // DELETE FROM object_deletion_outbox WHERE id = ...
  function DropEntry(t: Tables, key: Key, id: nat): Tables {
    if key in t.outbox && t.outbox[key].id == id then t.(outbox := t.outbox - {key}) else t
  }

  // files::remove; whether the file is referenced is the ledger's business.
  function Remove(t: Tables, f: FileId, referenced: bool): Option<Tables> {
    if f !in t.files || referenced || f in t.fileOutbox then None
    else Some(t.(files := t.files - {f}, fileOutbox := t.fileOutbox[f := t.files[f].key]))
  }

  function DropFileEntry(t: Tables, f: FileId): Tables {
    t.(fileOutbox := t.fileOutbox - {f})
  }

  function InsertSaved(t: Tables, call: CallId, size: nat, mime: string): Tables {
    t.(files := t.files[SavedFile(call) := File(Saved(call), size, mime)])
  }

  // Every key that either outbox holds.
  function Queued(t: Tables): set<Key> {
    t.outbox.Keys + (set f | f in t.fileOutbox :: t.fileOutbox[f])
  }
}
