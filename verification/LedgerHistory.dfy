/** What one transaction, and then a whole run, can do to the transcript below a given number. */
module LedgerHistory {
  import opened Wrappers
  import opened LedgerState
  import opened LedgerInvariant
  import opened LedgerSteps
  import FileUri
  import Text

  // The event deletes conversation c, or truncates it at or below number n.
  ghost predicate Cuts(s: State, e: Event, c: Id, n: int) {
    match e
    case Deleting(a, d) => d == c && Owned(s, a, c)
    case Truncating(a, d, item) =>
      && d == c && Owned(s, a, c)
      && FindItem(s.convs[c].items, item).Some? && FindItem(s.convs[c].items, item).value <= n
    case _ => false
  }

  // Some event of the run deletes c or cuts it at or below n.
  ghost predicate CutSince(s: State, events: seq<Event>, c: Id, n: int)
    decreases |events|
  {
    events != [] && (Cuts(s, events[0], c, n) || CutSince(Apply(s, events[0]), events[1..], c, n))
  }

  // The event regenerates conversation c and removes its item number n.
  ghost predicate Removes(s: State, e: Event, c: Id, n: int) {
    e.Regenerating? && e.conv == c && Owned(s, e.actor, c) && n in Regenerable(s.convs[c])
  }

  ghost predicate RemovedSince(s: State, events: seq<Event>, c: Id, n: int)
    decreases |events|
  {
    events != [] && (Removes(s, events[0], c, n) || RemovedSince(Apply(s, events[0]), events[1..], c, n))
  }

  // Up to number n, `after` has exactly the items of `before` that the event did not remove.
  ghost predicate SameBelow(s: State, after: State, e: Event, c: Id, n: int)
    requires c in s.convs && c in after.convs
  {
    && (forall m :: m <= n ==> (m in after.convs[c].items <==> m in s.convs[c].items && !Removes(s, e, c, m)))
    && (forall m :: m <= n && m in after.convs[c].items && m in s.convs[c].items ==>
          after.convs[c].items[m] == s.convs[c].items[m])
  }

  // What an event that does not cut at or below n leaves in place.
  ghost predicate Survives(s: State, after: State, e: Event, c: Id, n: int)
    requires c in s.convs
  {
    && c in after.convs
    && after.convs[c].tenant == s.convs[c].tenant && after.convs[c].owner == s.convs[c].owner
    && n < after.convs[c].next
    && SameBelow(s, after, e, c, n)
    && (forall k :: k in s.convs[c].batches && s.convs[c].batches[k].last <= n ==>
          k in after.convs[c].batches && after.convs[c].batches[k] == s.convs[c].batches[k])
  }

  lemma ExtendBelow(conv: Conversation, added: seq<Item>, n: int, bound: Id)
    requires ItemsOk(conv, bound) && n < conv.next
    ensures forall m :: m <= n ==> (m in Extend(conv, added).items <==> m in conv.items)
    ensures forall m :: m <= n && m in conv.items ==> Extend(conv, added).items[m] == conv.items[m]
  {
    PlaceAt(conv.items, conv.next, added);
  }

  lemma AppendSurvives(s: State, a: Actor, d: Id, r: AppendRequest, c: Id, n: int)
    requires Inv(s) && c in s.convs && n < s.convs[c].next
    ensures Survives(s, AppendItems(s, a, d, r).state, Appending(a, d, r), c, n)
  {
    hide Inv, FilesOwned, HasTurn, FileUri.References, Utf8Length, Text.Trim, NewItems, Place, TurnsOk, FilesOk, BatchesOk;
    assert ItemsOk(s.convs[c], s.nextId) by { InvConv(s, c); }
    if AppendItems(s, a, d, r).state != s && d == c {
      ExtendBelow(s.convs[c], NewItems(r.items, r.turn, r.source, s.nextId), n, s.nextId);
    }
  }

  lemma InvConv(s: State, c: Id)
    requires Inv(s) && c in s.convs
    ensures ConvOk(s.convs[c], s.nextId, s.files) && c < s.nextId
  {
  }

  lemma StartSurvives(s: State, auth: Session, r: StartRequest, c: Id, n: int)
    requires Inv(s) && c in s.convs && n < s.convs[c].next
    ensures Survives(s, StartTurn(s, auth, r).state, Starting(auth, r), c, n)
  {
    hide Inv, FilesOwned, HasTurn, FileUri.References, NormalTitle, Text.Trim, StartRetry, ConvFiles, NewItems, Place,
      TurnsOk, FilesOk, BatchesOk;
    InvConv(s, c);
    var after := StartTurn(s, auth, r).state;
    if after != s {
      var normal := NormalStart(r).value;
      if normal.conv == Some(c) {
        var conv := s.convs[c];
        var turn := Turn(s.nextId, normal.agent, None, Pending, ConvFiles(conv));
        ExtendBelow(conv, NewItems(normal.items, Some(s.nextId), User, s.nextId + 1), n, s.nextId);
      }
    }
  }

  lemma TruncateSurvives(s: State, a: Actor, d: Id, item: Id, c: Id, n: int)
    requires c in s.convs && n < s.convs[c].next && !Cuts(s, Truncating(a, d, item), c, n)
    ensures Survives(s, Truncate(s, a, d, item).state, Truncating(a, d, item), c, n)
  {
  }

  lemma RegenerateSurvives(s: State, a: Actor, d: Id, c: Id, n: int)
    requires c in s.convs && n < s.convs[c].next
    ensures Survives(s, Regenerate(s, a, d).state, Regenerating(a, d), c, n)
  {
  }

  lemma CreateTurnSurvives(s: State, a: Actor, d: Id, r: TurnRequest, c: Id, n: int)
    requires c in s.convs && n < s.convs[c].next
    ensures Survives(s, CreateTurn(s, a, d, r).state, CreatingTurn(a, d, r), c, n)
  {
    hide Text.Trim, FilesOwned, ConvFiles, ActiveExists, TurnByKey, NameOk;
  }

  lemma UpdateTurnSurvives(s: State, a: Actor, t: Id, status: Status, c: Id, n: int)
    requires c in s.convs && n < s.convs[c].next
    ensures Survives(s, UpdateTurn(s, a, t, status).state, Updating(a, t, status), c, n)
  {
    hide ConvOfTurn, WithStatus, OneActive;
    TurnHolds(s, a, t);
  }

  lemma TurnHolds(s: State, a: Actor, t: Id)
    ensures var found := ConvOfTurn(s, a, t);
            found.Some? ==> Owned(s, a, found.value) && HasTurn(s.convs[found.value].turns, t)
  {
  }

  lemma OtherSurvives(s: State, e: Event, c: Id, n: int)
    requires Inv(s) && c in s.convs && n < s.convs[c].next && !Cuts(s, e, c, n)
    requires e.Creating? || e.Deleting? || e.Continuing? || e.Saving? || e.Removing?
    ensures Survives(s, Apply(s, e), e, c, n)
  {
    hide Inv, ConvOk, Text.Trim, Referenced, AppendItems, StartTurn, Truncate, Regenerate, CreateTurn, UpdateTurn;
    InvConv(s, c);
  }

  // One event leaves everything below an uncut number in place, except what it regenerates away.
  lemma StepBelow(s: State, e: Event, c: Id, n: int)
    requires Inv(s) && c in s.convs && n < s.convs[c].next && !Cuts(s, e, c, n)
    ensures Survives(s, Apply(s, e), e, c, n)
  {
    hide Inv, Survives, Cuts, AppendItems, StartTurn, Truncate, Regenerate, CreateTurn, UpdateTurn, DeleteConversation,
      CreateConversation, CreateContinuation, SaveFile, RemoveFile;
    match e
    case Appending(a, d, r) => AppendSurvives(s, a, d, r, c, n);
    case Starting(auth, r) => StartSurvives(s, auth, r, c, n);
    case Truncating(a, d, item) => TruncateSurvives(s, a, d, item, c, n);
    case Regenerating(a, d) => RegenerateSurvives(s, a, d, c, n);
    case CreatingTurn(a, d, r) => CreateTurnSurvives(s, a, d, r, c, n);
    case Updating(a, t, status) => UpdateTurnSurvives(s, a, t, status, c, n);
    case _ => OtherSurvives(s, e, c, n);
  }

  // Below an uncut number a run leaves exactly the items that no regeneration removed.
  lemma {:induction false} RunBelow(s: State, events: seq<Event>, c: Id, n: int)
    requires Inv(s) && c in s.convs && n < s.convs[c].next && !CutSince(s, events, c, n)
    ensures var after := Run(s, events);
      && c in after.convs
      && after.convs[c].tenant == s.convs[c].tenant && after.convs[c].owner == s.convs[c].owner
      && n < after.convs[c].next
      && (forall m :: m <= n ==> (m in after.convs[c].items <==> m in s.convs[c].items && !RemovedSince(s, events, c, m)))
      && (forall m :: m <= n && m in after.convs[c].items && m in s.convs[c].items ==>
            after.convs[c].items[m] == s.convs[c].items[m])
      && (forall k :: k in s.convs[c].batches && s.convs[c].batches[k].last <= n ==>
            k in after.convs[c].batches && after.convs[c].batches[k] == s.convs[c].batches[k])
    decreases |events|
  {
    hide Inv, Apply, Cuts, Removes;
    if events != [] {
      var s1 := Apply(s, events[0]);
      StepBelow(s, events[0], c, n);
      StepKeeps(s, events[0]);
      RunBelow(s1, events[1..], c, n);
    }
  }

  // ---- Things that never come back ----

  // The conversation is gone, or no longer holds the item.
  ghost predicate Gone(s: State, c: Id, id: Id) {
    c !in s.convs || !HasId(s.convs[c].items, id)
  }

  lemma ExtendIds(conv: Conversation, added: seq<Item>, bound: Id, id: Id)
    requires ItemsOk(conv, bound) && !HasId(conv.items, id)
    requires forall i :: 0 <= i < |added| ==> added[i].id != id
    ensures !HasId(Extend(conv, added).items, id)
  {
    PlaceAt(conv.items, conv.next, added);
  }

  lemma AppendStaysGone(s: State, a: Actor, d: Id, r: AppendRequest, c: Id, id: Id)
    requires Inv(s) && id < s.nextId && c < s.nextId && Gone(s, c, id)
    ensures Gone(AppendItems(s, a, d, r).state, c, id)
  {
    hide Inv, FilesOwned, HasTurn, FileUri.References, Utf8Length, Text.Trim, HasId;
    if AppendItems(s, a, d, r).state != s && d == c {
      InvConv(s, c);
      ExtendIds(s.convs[c], NewItems(r.items, r.turn, r.source, s.nextId), s.nextId, id);
    }
  }

  lemma StartStaysGone(s: State, auth: Session, r: StartRequest, c: Id, id: Id)
    requires Inv(s) && id < s.nextId && c < s.nextId && Gone(s, c, id)
    ensures Gone(StartTurn(s, auth, r).state, c, id)
  {
    hide Inv, FilesOwned, HasTurn, FileUri.References, NormalTitle, Text.Trim, StartRetry, ConvFiles, HasId,
      Place, TurnsOk, BatchesOk, FilesOk, ActiveExists, FileUri.BatchReferences;
    var after := StartTurn(s, auth, r).state;
    if after != s {
      var normal := NormalStart(r).value;
      if normal.conv == Some(c) {
        InvConv(s, c);
        var added := NewItems(normal.items, Some(s.nextId), User, s.nextId + 1);
        ExtendIds(s.convs[c], added, s.nextId, id);
        assert after.convs[c].items == Extend(s.convs[c], added).items;
      }
    }
  }

  lemma StepStaysGone(s: State, e: Event, c: Id, id: Id)
    requires Inv(s) && id < s.nextId && c < s.nextId && Gone(s, c, id)
    ensures Gone(Apply(s, e), c, id) && s.nextId <= Apply(s, e).nextId
  {
    hide Inv, Text.Trim, FilesOwned, HasTurn, FindItem, NormalTitle, StartRetry, ConvFiles, NewItems, Extend, OneActive;
    match e
    case Appending(a, d, r) => AppendStaysGone(s, a, d, r, c, id);
    case Starting(auth, r) => StartStaysGone(s, auth, r, c, id);
    case _ =>
  }

  lemma {:induction false} RunStaysGone(s: State, events: seq<Event>, c: Id, id: Id)
    requires Inv(s) && id < s.nextId && c < s.nextId && Gone(s, c, id)
    ensures Gone(Run(s, events), c, id)
    decreases |events|
  {
    hide Inv, Apply, Gone;
    if events != [] {
      StepStaysGone(s, events[0], c, id);
      StepKeeps(s, events[0]);
      RunStaysGone(Apply(s, events[0]), events[1..], c, id);
    }
  }

  // A turn start, once recorded, is never changed or forgotten.
  lemma {:induction false} StartsPersist(s: State, events: seq<Event>, k: StartKey)
    requires k in s.starts
    ensures k in Run(s, events).starts && Run(s, events).starts[k] == s.starts[k]
    decreases |events|
  {
    if events != [] {
      StartPersists(s, events[0], k);
      StartsPersist(Apply(s, events[0]), events[1..], k);
    }
  }

  lemma StartPersists(s: State, e: Event, k: StartKey)
    requires k in s.starts
    ensures k in Apply(s, e).starts && Apply(s, e).starts[k] == s.starts[k]
  {
    hide Text.Trim, FilesOwned, HasTurn, FindItem, NormalTitle, StartRetry, ConvFiles, NewItems, Extend, OneActive;
  }
}
