/** Outbox rows and stale cleanup passes: a pass drops only the row it read. */
module OutboxRows {
  import opened Wrappers
  import opened UploadRows
  import opened UploadTransactions
  import opened UploadProtocol
  import opened UploadTheorems
  import opened UploadBookkeeping
  import ObjectStore
  import StagingDrain

  // What one step does to the rows of a key: they are numbered upwards, and never renumbered.
  predicate Draws(t: Tables, t': Tables, key: Key) {
    && Drawn(t, key) <= Drawn(t', key)
    && (key in t'.outbox ==>
          || (key in t.outbox && t'.outbox[key] == t.outbox[key])
          || Drawn(t, key) <= t'.outbox[key].id < Drawn(t', key))
  }

  lemma QueuesDraws(t: Tables, t': Tables, keys: iset<Key>, notBefore: Time, key: Key)
    requires Queues(t, t', keys, notBefore)
    ensures Draws(t, t', key)
  {
  }

  lemma TransactionsDraw(t: Tables, u: UploadId, w: CallId, now: Time, key: Key)
    ensures var c, f := UploadRows.Claim(t, u, w, now), UploadRows.Finish(t, u, w, now);
            && (c.Some? ==> Draws(t, c.value, key)) && (f.Some? ==> Draws(t, f.value, key))
            && Draws(t, UploadRows.Restore(t, u, w), key) && Draws(t, Enqueue(t, key, now), key)
  {
    hide Queues, Draws, Claimable, Finishable, Enqueue;
    ClaimExactly(t, u, w, now);
    FinishExactly(t, u, w, now);
    var c, f := UploadRows.Claim(t, u, w, now), UploadRows.Finish(t, u, w, now);
    if c.Some? { QueuesDraws(t, c.value, (iset k | t.uploads[u].candidate == Some(k)), now, key); }
    if f.Some? { QueuesDraws(t, f.value, iset{Staging(u)}, now + 305, key); }
    EnqueueExactly(t, key, now);
    QueuesDraws(t, Enqueue(t, key, now), iset{key}, now, key);
    SameDraws(t, UploadRows.Restore(t, u, w), key);
  }

  lemma SameDraws(t: Tables, t': Tables, key: Key)
    requires t'.outbox == t.outbox && t'.drawn == t.drawn
    ensures Draws(t, t', key)
  {
  }

  lemma RejectDraws(t: Tables, other: Key, now: Time, key: Key)
    ensures Draws(t, Enqueue(t, other, now), key)
  {
    hide Queues, Draws, Enqueue;
    EnqueueExactly(t, other, now);
    QueuesDraws(t, Enqueue(t, other, now), iset{other}, now, key);
  }

  lemma CallDraws(s: State, a: Action, key: Key)
    ensures Draws(s.tables, CallNext(s, a).tables, key)
  {
    hide CallNext, Draws;
    SameDraws(s.tables, s.tables, key);
    match a {
      case Claim(w, now) => TransactionCall(s, a, w, now, key);
      case Finish(w, now) => TransactionCall(s, a, w, now, key);
      case Restore(w) => TransactionCall(s, a, w, 0, key);
      case Reject(w, now) => TransactionCall(s, a, w, now, key);
      case _ => TablesLeft(s, a);
    }
  }

  lemma TransactionCall(s: State, a: Action, w: CallId, now: Time, key: Key)
    requires a in {Action.Claim(w, now), Action.Finish(w, now), Action.Restore(w), Reject(w, now)}
    ensures Draws(s.tables, CallNext(s, a).tables, key)
  {
    hide Draws, Queued, UploadRows.Claim, UploadRows.Finish, UploadRows.Restore, Enqueue;
    SameDraws(s.tables, s.tables, key);
    RejectDraws(s.tables, Candidate(w), now, key);
    if Active(s, w) { TransactionsDraw(s.tables, s.calls[w].upload, w, now, key); }
  }

  lemma SessionDraws(s: State, a: Action, key: Key)
    ensures Draws(s.tables, SessionNext(s, a).tables, key)
  {
    hide Draws, Queued, UploadRows.Expire, ObjectStore.Put, Queues, LapsedKeys;
    if a.Expire? {
      ExpireExactly(s.tables, a.now);
      QueuesDraws(s.tables, UploadRows.Expire(s.tables, a.now), LapsedKeys(s.tables, a.now), a.now, key);
    } else {
      SameDraws(s.tables, SessionNext(s, a).tables, key);
    }
  }

  lemma OtherDraws(s: State, a: Action, key: Key)
    ensures Draws(s.tables, SaveNext(s, a).tables, key) && Draws(s.tables, JobNext(s, a).tables, key)
  {
    hide Queued, ObjectStore.Put, ObjectStore.Versions, ObjectStore.DeleteVersion, ObjectStore.At, Due;
  }

  lemma NextDraws(s: State, a: Action, key: Key)
    ensures Draws(s.tables, Next(s, a).tables, key)
  {
    hide CallNext, SaveNext, SessionNext, JobNext, Draws;
    CallDraws(s, a, key);
    SessionDraws(s, a, key);
    OtherDraws(s, a, key);
  }

  // Rows are numbered below the count of rows their key has had, and so are those that passes have read.
  predicate Numbered(s: State, key: Key) {
    key in s.tables.outbox ==> s.tables.outbox[key].id < Drawn(s.tables, key)
  }

  predicate ReadNumbered(s: State, j: nat) {
    j in s.jobs && s.jobs[j].kind.OfEntry? ==> s.jobs[j].kind.id < Drawn(s.tables, s.jobs[j].key)
  }

  ghost predicate AllNumbered(s: State) {
    (forall key :: Numbered(s, key)) && (forall j :: ReadNumbered(s, j))
  }

  lemma JobReads(s: State, a: Action, j: nat)
    requires AllNumbered(s)
    ensures ReadNumbered(Next(s, a), j)
  {
    hide CallNext, SaveNext, SessionNext, Drawn;
    assert ReadNumbered(s, j);
    KindKept(s, a, j);
    if j in s.jobs { NextDraws(s, a, s.jobs[j].key); }
    else if a.ReadEntry? { assert Numbered(s, a.key); }
  }

  lemma KindKept(s: State, a: Action, j: nat)
    ensures j in s.jobs ==> j in Next(s, a).jobs && Next(s, a).jobs[j].key == s.jobs[j].key && Next(s, a).jobs[j].kind == s.jobs[j].kind
    ensures j !in s.jobs && j in Next(s, a).jobs && Next(s, a).jobs[j].kind.OfEntry? ==>
              && a.ReadEntry? && a.key in s.tables.outbox
              && Next(s, a).jobs[j].key == a.key && Next(s, a).jobs[j].kind.id == s.tables.outbox[a.key].id
              && Next(s, a).tables == s.tables
  {
    hide CallNext, SessionNext, SaveNext, JobNext;
    StagingDrain.CallJobs(s, a);
    StagingDrain.JobsKeepKeys(s, a, j);
    NewEntryJob(s, a, j);
  }

  lemma NewEntryJob(s: State, a: Action, j: nat)
    ensures j !in s.jobs && j in SaveNext(s, a).jobs ==> !SaveNext(s, a).jobs[j].kind.OfEntry?
    ensures j !in s.jobs && j in JobNext(s, a).jobs && JobNext(s, a).jobs[j].kind.OfEntry? ==>
              && a.ReadEntry? && a.key in s.tables.outbox
              && JobNext(s, a).jobs[j].key == a.key && JobNext(s, a).jobs[j].kind.id == s.tables.outbox[a.key].id
              && JobNext(s, a).tables == s.tables
  {
    hide Queued, ObjectStore.Put, ObjectStore.Versions, ObjectStore.DeleteVersion, ObjectStore.At;
  }

  lemma NextNumbered(s: State, a: Action)
    requires AllNumbered(s)
    ensures AllNumbered(Next(s, a))
  {
    hide Next, ReadNumbered;
    forall key ensures Numbered(Next(s, a), key) {
      assert Numbered(s, key);
      NextDraws(s, a, key);
    }
    forall j ensures ReadNumbered(Next(s, a), j) { JobReads(s, a, j); }
  }

  lemma {:induction false} RunNumbered(s: State, actions: seq<Action>)
    requires AllNumbered(s)
    ensures AllNumbered(Run(s, actions))
    decreases |actions|
  {
    hide AllNumbered, Next;
    if actions != [] {
      NextNumbered(s, actions[0]);
      RunNumbered(Next(s, actions[0]), actions[1..]);
    }
  }

  // Row number `id` of the key is gone.
  predicate RowGone(s: State, key: Key, id: nat) {
    id < Drawn(s.tables, key) && (key in s.tables.outbox ==> s.tables.outbox[key].id != id)
  }

  lemma {:induction false} GoneForever(s: State, actions: seq<Action>, key: Key, id: nat)
    requires RowGone(s, key, id)
    ensures RowGone(Run(s, actions), key, id)
    decreases |actions|
  {
    hide Next;
    if actions != [] {
      NextDraws(s, actions[0], key);
      GoneForever(Next(s, actions[0]), actions[1..], key, id);
    }
  }

  // A pass that read a row which is gone by now drops no row any more, in any later state: a row that was
  // queued for the key since then waits for a pass of its own.
  lemma StalePassDropsNothing(before: seq<Action>, after: seq<Action>, j: nat)
    requires var s := Reach(before);
             && j in s.jobs && s.jobs[j].kind.OfEntry?
             && (s.jobs[j].key in s.tables.outbox ==> s.tables.outbox[s.jobs[j].key].id != s.jobs[j].kind.id)
    ensures var t := Run(Reach(before), after);
            Next(t, Recheck(j)).tables == t.tables
  {
    hide Run, CallNext, SaveNext, SessionNext, Drawn;
    var s := Reach(before);
    assert AllNumbered(UploadProtocol.EMPTY);
    RunNumbered(UploadProtocol.EMPTY, before);
    assert ReadNumbered(s, j);
    GoneForever(s, after, s.jobs[j].key, s.jobs[j].kind.id);
    JobKept(s, after, j);
  }

  lemma {:induction false} JobKept(s: State, actions: seq<Action>, j: nat)
    requires j in s.jobs
    ensures j in Run(s, actions).jobs && Run(s, actions).jobs[j].key == s.jobs[j].key && Run(s, actions).jobs[j].kind == s.jobs[j].kind
    decreases |actions|
  {
    hide Next;
    if actions != [] {
      KindKept(s, actions[0], j);
      JobKept(Next(s, actions[0]), actions[1..], j);
    }
  }
}
