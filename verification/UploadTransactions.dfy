/** What each transaction on the upload tables writes, row by row and key by key. */
module UploadTransactions {
  import opened Wrappers
  import opened UploadRows

  // The session is over and no lease on it is running.
  predicate Lapsed(row: Row, now: Time) {
    && row.expiresAt <= now
    && (row.status == Pending
        || (row.status == Finalizing && row.leaseExpiresAt.Some? && row.leaseExpiresAt.value <= now))
  }

  // The outbox after some keys were queued: rows that were there stay, and each of the keys that had none
  // has one now, due at the given time and numbered after all rows the key ever had.
  ghost predicate Queues(t: Tables, t': Tables, keys: iset<Key>, notBefore: Time) {
    && (forall k :: k in t'.outbox <==> k in t.outbox || k in keys)
    && (forall k :: k in t.outbox ==> t'.outbox[k] == t.outbox[k])
    && (forall k :: k in keys && k !in t.outbox ==>
          && t'.outbox[k] == Entry(if k in t.drawn then t.drawn[k] else 0, notBefore)
          && k in t'.drawn && t'.drawn[k] == t'.outbox[k].id + 1)
    && (forall k :: !(k in keys && k !in t.outbox) ==>
          (k in t'.drawn <==> k in t.drawn) && (k in t.drawn ==> t'.drawn[k] == t.drawn[k]))
  }

  lemma EnqueueExactly(t: Tables, key: Key, notBefore: Time)
    ensures var t' := Enqueue(t, key, notBefore);
            && t' == t.(outbox := t'.outbox, drawn := t'.drawn)
            && Queues(t, t', iset{key}, notBefore)
  {
  }

  lemma EnqueueAllExactly(t: Tables, keys: set<Key>, notBefore: Time)
    ensures var t' := EnqueueAll(t, keys, notBefore);
            && t' == t.(outbox := t'.outbox, drawn := t'.drawn)
            && Queues(t, t', (iset k | k in keys), notBefore)
  {
  }

  // A claim makes the row the caller's for 120 seconds, with the caller's candidate key, and queues the
  // previous candidate at once.
  lemma ClaimExactly(t: Tables, u: UploadId, w: CallId, now: Time)
    ensures var claimed := UploadRows.Claim(t, u, w, now);
            claimed.Some? ==>
              && u in t.uploads
              && var t', row := claimed.value, t.uploads[u];
              && t' == t.(uploads := t'.uploads, outbox := t'.outbox, drawn := t'.drawn)
              && t'.uploads == t.uploads[u := Row(row.size, row.mime, row.expiresAt, Finalizing, Some(w), Some(now + 120), Some(Candidate(w)))]
              && Queues(t, t', (iset k | row.candidate == Some(k)), now)
  {
    if u in t.uploads && t.uploads[u].candidate.Some? { EnqueueExactly(t, t.uploads[u].candidate.value, now); }
  }

  // A commit inserts the file row under the caller's candidate key, completes the row and queues the
  // staging key 305 seconds ahead; it happens only while the caller's lease and the session run.
  lemma FinishExactly(t: Tables, u: UploadId, w: CallId, now: Time)
    ensures var finished := UploadRows.Finish(t, u, w, now);
            && (finished.Some? <==>
                  && u in t.uploads && UploadFile(u) !in t.files
                  && var row := t.uploads[u];
                  && row.status == Finalizing && row.token == Some(w) && now < row.expiresAt
                  && row.leaseExpiresAt.Some? && now < row.leaseExpiresAt.value)
            && (finished.Some? ==>
                  && u in t.uploads
                  && var t', row := finished.value, t.uploads[u];
                  && t' == t.(uploads := t'.uploads, files := t'.files, outbox := t'.outbox, drawn := t'.drawn)
                  && t'.uploads == t.uploads[u := Row(row.size, row.mime, row.expiresAt, Completed, None, None, row.candidate)]
                  && t'.files == t.files[UploadFile(u) := File(Candidate(w), row.size, row.mime)]
                  && Queues(t, t', iset{Staging(u)}, now + 305))
  {
    EnqueueExactly(t, Staging(u), now + 305);
  }

  // Expiry gives up exactly the lapsed uploads, and queues exactly their staging keys and last candidates.
  lemma ExpireExactly(t: Tables, now: Time)
    ensures var t' := UploadRows.Expire(t, now);
            && t' == t.(uploads := t'.uploads, outbox := t'.outbox, drawn := t'.drawn)
            && t'.uploads.Keys == t.uploads.Keys
            && (forall u :: u in t.uploads ==>
                  var row := t.uploads[u];
                  t'.uploads[u] ==
                    if Lapsed(row, now) then Row(row.size, row.mime, row.expiresAt, CleanupPending, None, None, row.candidate)
                    else row)
            && Queues(t, t', LapsedKeys(t, now), now)
  {
    hide EnqueueAll, Expirable, Lapsed, ExpiredKeys, Queues;
    assert forall u :: u in t.uploads ==> (Lapsed(t.uploads[u], now) <==> Expirable(t.uploads[u], now)) by { LapsedIsExpirable(now); }
    var base := t.(uploads := map u | u in t.uploads ::
                     if u in Expired(t, now) then Released(t.uploads[u], CleanupPending) else t.uploads[u]);
    EnqueueAllExactly(base, ExpiredKeys(t, now), now);
    LapsedKeysAre(t, now);
    QueuesSame(t, base, UploadRows.Expire(t, now), LapsedKeys(t, now), now);
  }

  ghost function LapsedKeys(t: Tables, now: Time): iset<Key> {
    iset k | exists u :: u in t.uploads && Lapsed(t.uploads[u], now) && (k == Staging(u) || t.uploads[u].candidate == Some(k))
  }

  lemma LapsedIsExpirable(now: Time)
    ensures forall row: Row :: Lapsed(row, now) <==> Expirable(row, now)
  {
  }

  lemma LapsedKeysAre(t: Tables, now: Time)
    ensures LapsedKeys(t, now) == (iset k | k in ExpiredKeys(t, now))
  {
    hide Expirable, Lapsed;
    LapsedIsExpirable(now);
    forall k | k in LapsedKeys(t, now) ensures k in ExpiredKeys(t, now) {
      var u :| u in t.uploads && Lapsed(t.uploads[u], now) && (k == Staging(u) || t.uploads[u].candidate == Some(k));
      assert u in Expired(t, now);
    }
    forall k | k in ExpiredKeys(t, now) ensures k in LapsedKeys(t, now) {
      if k in StagingKeys(Expired(t, now)) {
        assert k.upload in Expired(t, now);
      } else {
        var u :| u in Expired(t, now) && t.uploads[u].candidate == Some(k);
      }
    }
  }

  lemma QueuesSame(t: Tables, base: Tables, t': Tables, keys: iset<Key>, now: Time)
    requires base.outbox == t.outbox && base.drawn == t.drawn && Queues(base, t', keys, now)
    ensures Queues(t, t', keys, now)
  {
  }

  // A removal moves the key of an unreferenced file to the file outbox.
  lemma RemoveExactly(t: Tables, f: FileId, referenced: bool)
    ensures var removed := UploadRows.Remove(t, f, referenced);
            && (removed.Some? <==> f in t.files && !referenced && f !in t.fileOutbox)
            && (removed.Some? ==>
                  var t' := removed.value;
                  && t' == t.(files := t'.files, fileOutbox := t'.fileOutbox)
                  && (forall g :: g in t'.files <==> g in t.files && g != f)
                  && (forall g :: g in t'.files ==> t'.files[g] == t.files[g])
                  && t'.fileOutbox == t.fileOutbox[f := t.files[f].key])
  {
  }
}
