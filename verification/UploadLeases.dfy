/** Leases: while one runs its holder is undisturbed, and no upload is ever stuck. */
module UploadLeases {
  import opened Wrappers
  import opened UploadRows
  import opened UploadProtocol
  import opened UploadInvariant
  import opened UploadSteps
  import opened UploadTheorems
  import opened UploadBookkeeping
  import Uploads

  // The lease of a finalizing row has not run out.
  predicate Leased(row: Row, now: Time) {
    row.status.Finalizing? && row.leaseExpiresAt.Some? && now < row.leaseExpiresAt.value
  }

  // In every reachable state and at every moment exactly one thing can happen to an open upload: it can
  // be claimed, or it expires, or it is held under a running lease. Nothing can happen to any other.
  lemma ClaimExpireOrHeld(actions: seq<Action>, u: UploadId, w: CallId, now: Time)
    requires u in Reach(actions).tables.uploads
    ensures var t := Reach(actions).tables;
            var claims, expires, held := UploadRows.Claim(t, u, w, now).Some?, u in Expired(t, now), Leased(t.uploads[u], now);
            && (Open(t.uploads[u]) <==> claims || expires || held)
            && !(claims && expires) && !(claims && held) && !(expires && held)
  {
    hide Run, CallOk, FileOk, JobOk, ObjectOk, LogOk, QueuesOk, CandidateKept, SavedKept, StagingKept;
    ReachInv(actions);
    ReachKept(actions);
    var s := Reach(actions);
    assert RowOk(s, u) && RowKept(s, u);
  }

  // A claim can be taken over from 120 seconds on, and then until the session expires; not before.
  lemma TakenOverExactly(t: Tables, u: UploadId, w: CallId, now: Time, w': CallId, later: Time)
    requires UploadRows.Claim(t, u, w, now).Some?
    ensures var t' := UploadRows.Claim(t, u, w, now).value;
            && (UploadRows.Claim(t', u, w', later).Some? <==> now + 120 <= later < t.uploads[u].expiresAt)
            && (u in Expired(t', later) <==> now + 120 <= later && t.uploads[u].expiresAt <= later)
  {
  }

  // A call that gives its lease back and still holds it leaves the upload free for anybody to claim, at any
  // time before the session expires; one that has lost it changes no row.
  lemma GivesBack(s: State, w: CallId)
    requires Active(s, w) && s.calls[w].pc == Restoring
    ensures var u, t := s.calls[w].upload, Next(s, Action.Restore(w)).tables;
            && Uploads.LetGo(s.tables.uploads, t.uploads, u, w)
            && (s.tables.uploads[u].status == Finalizing && s.tables.uploads[u].token == Some(w) ==> Uploads.FreeToClaim(t, u))
  {
    hide Queued, SaveNext, SessionNext, JobNext;
    var u := s.calls[w].upload;
    Uploads.RestoreLetsGo(s.tables, u, w);
    var t := Next(s, Action.Restore(w)).tables;
    assert t == UploadRows.Restore(s.tables, u, w);
    if t.uploads[u].status == Pending { Uploads.PendingIsFree(t, u); }
  }

  // A step of somebody else, at a time before the lease ends.
  predicate Foreign(a: Action, w: CallId, lease: Time) {
    match a
    case Claim(_, now) => now < lease
    case Expire(now) => now < lease
    case Restore(c) => c != w
    case Finish(c, _) => c != w
    case _ => true
  }

  predicate HeldBy(s: State, u: UploadId, w: CallId, lease: Time) {
    u in s.tables.uploads && Holds(s.tables.uploads[u], w) && s.tables.uploads[u].leaseExpiresAt == Some(lease)
  }

  lemma NextForeign(s: State, a: Action, u: UploadId, w: CallId, lease: Time)
    requires HeldBy(s, u, w, lease) && Foreign(a, w, lease)
    ensures u in Next(s, a).tables.uploads && Next(s, a).tables.uploads[u] == s.tables.uploads[u]
  {
    hide CallNext, SaveNext, SessionNext, JobNext;
    CallForeign(s, a, u, w, lease);
    OtherForeign(s, a, u, w, lease);
  }

  lemma CallForeign(s: State, a: Action, u: UploadId, w: CallId, lease: Time)
    requires HeldBy(s, u, w, lease) && Foreign(a, w, lease)
    ensures u in CallNext(s, a).tables.uploads && CallNext(s, a).tables.uploads[u] == s.tables.uploads[u]
  {
    hide CallNext;
    match a {
      case Claim(c, now) => ClaimForeign(s, c, now, u, w, lease);
      case Finish(c, now) => EndForeign(s, c, now, u, w, lease);
      case Restore(c) => EndForeign(s, c, 0, u, w, lease);
      case Reject(c, now) => RejectForeign(s, c, now);
      case _ => TablesLeft(s, a);
    }
  }

  lemma ClaimForeign(s: State, c: CallId, now: Time, u: UploadId, w: CallId, lease: Time)
    requires HeldBy(s, u, w, lease) && now < lease
    ensures var t := CallNext(s, Action.Claim(c, now)).tables; u in t.uploads && t.uploads[u] == s.tables.uploads[u]
  {
    hide Queued;
  }

  lemma EndForeign(s: State, c: CallId, now: Time, u: UploadId, w: CallId, lease: Time)
    requires HeldBy(s, u, w, lease) && c != w
    ensures var t := CallNext(s, Action.Finish(c, now)).tables; u in t.uploads && t.uploads[u] == s.tables.uploads[u]
    ensures var t := CallNext(s, Action.Restore(c)).tables; u in t.uploads && t.uploads[u] == s.tables.uploads[u]
  {
    hide Queued;
  }

  lemma RejectForeign(s: State, c: CallId, now: Time)
    ensures CallNext(s, Reject(c, now)).tables.uploads == s.tables.uploads
  {
    hide Queued;
  }

  lemma OtherForeign(s: State, a: Action, u: UploadId, w: CallId, lease: Time)
    requires HeldBy(s, u, w, lease) && Foreign(a, w, lease)
    ensures SaveNext(s, a).tables.uploads == s.tables.uploads && JobNext(s, a).tables.uploads == s.tables.uploads
    ensures u in SessionNext(s, a).tables.uploads && SessionNext(s, a).tables.uploads[u] == s.tables.uploads[u]
  {
    hide JobNext, SaveNext, Queued, ExpiredKeys, ObjectStore.Put;
    JobRows(s, a);
    SaveRows(s, a);
    if a.Expire? { ExpireForeign(s, a.now, u, w, lease); }
  }

  lemma ExpireForeign(s: State, now: Time, u: UploadId, w: CallId, lease: Time)
    requires HeldBy(s, u, w, lease) && now < lease
    ensures var t := SessionNext(s, Action.Expire(now)).tables; u in t.uploads && t.uploads[u] == s.tables.uploads[u]
  {
    hide Queued, ExpiredKeys;
  }

  lemma SaveRows(s: State, a: Action)
    ensures SaveNext(s, a).tables.uploads == s.tables.uploads
  {
    hide Queued, ObjectStore.Put;
  }

  lemma JobRows(s: State, a: Action)
    ensures JobNext(s, a).tables.uploads == s.tables.uploads
  {
    hide ObjectStore.Versions, ObjectStore.DeleteVersion, Due;
  }

  // While its lease runs, nobody but the holder changes the upload's row: not other calls of `complete`,
  // takeovers or late give-backs, not cleanup.
  lemma {:induction false} LeaseExcludes(s: State, actions: seq<Action>, u: UploadId, w: CallId, lease: Time)
    requires HeldBy(s, u, w, lease)
    requires forall i :: 0 <= i < |actions| ==> Foreign(actions[i], w, lease)
    ensures u in Run(s, actions).tables.uploads && Run(s, actions).tables.uploads[u] == s.tables.uploads[u]
    decreases |actions|
  {
    hide Next, Foreign;
    if actions != [] {
      assert Foreign(actions[0], w, lease);
      NextForeign(s, actions[0], u, w, lease);
      LeaseExcludes(Next(s, actions[0]), actions[1..], u, w, lease);
    }
  }
}
