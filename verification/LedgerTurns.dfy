/** Turns and continuations over whole runs: what keeps them, and what alone ends them. */
module LedgerTurns {
  import opened Wrappers
  import opened LedgerState
  import opened LedgerInvariant
  import opened LedgerSteps
  import opened LedgerHistory
  import opened LedgerSequence
  import opened LedgerTheorems
  import FileUri
  import Text

  // The event deletes conversation c.
  predicate Deletes(s: State, e: Event, c: Id) {
    e.Deleting? && e.conv == c && Owned(s, e.actor, c)
  }

  ghost predicate DeletedSince(s: State, events: seq<Event>, c: Id)
    decreases |events|
  {
    events != [] && (Deletes(s, events[0], c) || DeletedSince(Apply(s, events[0]), events[1..], c))
  }

  // `later` has the turns of `earlier` in the same places, each the same but for its status.
  predicate TurnsKept(earlier: seq<Turn>, later: seq<Turn>) {
    && |earlier| <= |later|
    && forall i :: 0 <= i < |earlier| ==> later[i] == earlier[i].(status := later[i].status)
  }

  predicate ConvKept(s: State, after: State, c: Id) {
    && c in s.convs && c in after.convs
    && after.convs[c].tenant == s.convs[c].tenant && after.convs[c].owner == s.convs[c].owner
    && TurnsKept(s.convs[c].turns, after.convs[c].turns)
  }

  lemma StartConvKept(s: State, auth: Session, r: StartRequest, c: Id)
    requires Inv(s) && c in s.convs
    ensures ConvKept(s, StartTurn(s, auth, r).state, c)
  {
    hide Inv, NormalStart, StartOn, StartRetry, ConvKept, KeyOf;
    FreshId(s);
    SameKept(s, c);
    if NormalStart(r).Some? {
      var n := NormalStart(r).value;
      StartOnConvKept(s, auth, n, s.nextId, NewConv(auth.actor), s.nextId + 1, c);
      if n.conv.Some? && n.conv.value in s.convs {
        StartOnConvKept(s, auth, n, n.conv.value, s.convs[n.conv.value], s.nextId, c);
      }
    }
  }

  lemma SameKept(s: State, c: Id)
    requires c in s.convs
    ensures ConvKept(s, s, c)
  {
  }

  lemma StartOnConvKept(s: State, auth: Session, r: StartRequest, d: Id, conv: Conversation, t: Id, c: Id)
    requires c in s.convs && (d == c ==> conv == s.convs[c])
    ensures ConvKept(s, StartOn(s, auth, r, d, conv, t).state, c)
  {
    hide FilesOwned, FileUri.BatchReferences, ConvFiles, ActiveExists, NewItems, Place, KeyOf, BodyOf, StartItems, ItemIds;
  }

  lemma AppendConvKept(s: State, a: Actor, d: Id, r: AppendRequest, c: Id)
    requires c in s.convs
    ensures ConvKept(s, AppendItems(s, a, d, r).state, c)
  {
    hide FilesOwned, FileUri.BatchReferences, HasTurn, NewItems, Place, AppendOk, Rows;
  }

  lemma UpdateConvKept(s: State, a: Actor, t: Id, status: Status, c: Id)
    requires c in s.convs
    ensures ConvKept(s, UpdateTurn(s, a, t, status).state, c)
  {
    hide HasTurn, OneActive;
  }

  lemma OtherConvKept(s: State, e: Event, c: Id)
    requires Inv(s) && c in s.convs && !e.Starting? && !e.Updating? && !e.Appending? && !Deletes(s, e, c)
    ensures ConvKept(s, Apply(s, e), c)
  {
    hide FilesOwned, HasTurn, FileUri.References, FileUri.BatchReferences, NormalTitle, Text.Trim, StartRetry, ConvFiles,
      ActiveExists, NewItems, Place, ConvOk, FindItem, Regenerable, AppendOk, Rows, Referenced, TurnByKey;
  }

  lemma StepConvKept(s: State, e: Event, c: Id)
    requires Inv(s) && c in s.convs && !Deletes(s, e, c)
    ensures ConvKept(s, Apply(s, e), c)
  {
    hide Inv, ConvKept, StartTurn, UpdateTurn, AppendItems;
    match e {
      case Appending(a, d, r) => AppendConvKept(s, a, d, r, c);
      case Starting(auth, r) => StartConvKept(s, auth, r, c);
      case Updating(a, t, status) => UpdateConvKept(s, a, t, status, c);
      case _ => OtherConvKept(s, e, c);
    }
  }

  // A turn is never removed, moved or changed but for its status, until its conversation is deleted:
  // its agent, key and file snapshot are frozen.
  lemma {:induction false} TurnsFrozen(s: State, events: seq<Event>, c: Id)
    requires Inv(s) && c in s.convs && !DeletedSince(s, events, c)
    ensures ConvKept(s, Run(s, events), c)
    decreases |events|
  {
    hide Inv, Apply, Deletes;
    if events != [] {
      StepKeeps(s, events[0]);
      StepConvKept(s, events[0], c);
      TurnsFrozen(Apply(s, events[0]), events[1..], c);
    }
  }

  lemma {:induction false} TurnByKeyFinds(turns: seq<Turn>, key: string)
    ensures TurnByKey(turns, key) == None <==> forall i :: 0 <= i < |turns| ==> turns[i].key != Some(key)
    ensures TurnByKey(turns, key).Some? ==>
              exists i :: 0 <= i < |turns| && turns[i] == TurnByKey(turns, key).value && turns[i].key == Some(key)
  {
    if turns != [] {
      TurnByKeyFinds(turns[1..], key);
      if turns[0].key == Some(key) {
        assert turns[0] == TurnByKey(turns, key).value;
      } else if TurnByKey(turns, key).Some? {
        var i :| 0 <= i < |turns[1..]| && turns[1..][i] == TurnByKey(turns[1..], key).value && turns[1..][i].key == Some(key);
        assert turns[i + 1] == TurnByKey(turns, key).value;
      }
    }
  }

  // Creating a turn again under its key changes nothing and names the same turn, in whatever status it
  // is by then, until the conversation is deleted; under another agent it is refused.
  lemma CreateTurnRetry(s: State, a: Actor, c: Id, r: TurnRequest, events: seq<Event>, again: TurnRequest)
    requires Inv(s) && CreateTurn(s, a, c, r).result.Success?
    requires again.key == r.key && !DeletedSince(CreateTurn(s, a, c, r).state, events, c)
    ensures var first := CreateTurn(s, a, c, r);
            var after := Run(first.state, events);
            var made := first.result.value;
            var out := CreateTurn(after, a, c, again);
            && out.state == after
            && (out.result.Success? <==> made.agent == again.agent || made.agent == Text.Trim(again.agent))
            && (out.result.Success? ==> out.result.value == made.(status := out.result.value.status))
            && (out.result.Failure? ==> out.result.error == KeyReused)
  {
    hide Inv, Run, Apply, DeletedSince, FilesOwned, ConvFiles, ActiveExists, Text.Trim, TurnByKey, NameOk;
    var first := CreateTurn(s, a, c, r);
    var after := Run(first.state, events);
    CreateTurnKeeps(s, a, c, r);
    TurnsFrozen(first.state, events, c);
    RunKeeps(first.state, events);
    var i := MadeTurn(s, a, c, r);
    KeyNamesTurn(after, c, again.key, i);
  }

  lemma MadeTurn(s: State, a: Actor, c: Id, r: TurnRequest) returns (i: nat)
    requires Inv(s) && CreateTurn(s, a, c, r).result.Success?
    ensures var out := CreateTurn(s, a, c, r);
            && c in out.state.convs && Owned(s, a, c) && Owned(out.state, a, c)
            && i < |out.state.convs[c].turns| && out.state.convs[c].turns[i] == out.result.value
            && out.result.value.key == Some(r.key)
  {
    hide Inv, FilesOwned, ConvFiles, ActiveExists, Text.Trim, TurnByKey, NameOk;
    TurnByKeyFinds(s.convs[c].turns, r.key);
    if TurnByKey(s.convs[c].turns, r.key).Some? {
      i :| 0 <= i < |s.convs[c].turns| && s.convs[c].turns[i] == TurnByKey(s.convs[c].turns, r.key).value;
    } else {
      i := |s.convs[c].turns|;
    }
  }

  // A key names one turn only.
  lemma KeyNamesTurn(s: State, c: Id, key: string, i: nat)
    requires Inv(s) && c in s.convs && i < |s.convs[c].turns| && s.convs[c].turns[i].key == Some(key)
    ensures TurnByKey(s.convs[c].turns, key) == Some(s.convs[c].turns[i])
  {
    hide StartOk, StartsApart, ContinuationOk, TurnsApart, ItemsOk, BatchesOk, FilesOk;
    assert ConvOk(s.convs[c], s.nextId, s.files);
    var turns := s.convs[c].turns;
    TurnByKeyFinds(turns, key);
    var j :| 0 <= j < |turns| && turns[j] == TurnByKey(turns, key).value && turns[j].key == Some(key);
    assert i == j;
  }

  // Some other turn than the one at place i is active.
  predicate OtherActive(turns: seq<Turn>, i: nat) {
    exists j :: 0 <= j < |turns| && j != i && turns[j].status.Active()
  }

  lemma ActiveClash(turns: seq<Turn>, i: nat, status: Status)
    requires i < |turns| && OneActive(turns)
    ensures OneActive(turns[i := turns[i].(status := status)]) <==> !(status.Active() && OtherActive(turns, i))
  {
    var after := turns[i := turns[i].(status := status)];
    if j :| 0 <= j < |turns| && j != i && turns[j].status.Active() {
      assert after[j] == turns[j] && after[i].status == status;
    }
  }

  // A status change touches that one turn and nothing else, and is refused exactly when it would make
  // a second turn of the conversation active.
  lemma UpdateTurnExact(s: State, a: Actor, t: Id, status: Status, c: Id, i: nat)
    requires Inv(s) && Owned(s, a, c) && i < |s.convs[c].turns| && s.convs[c].turns[i].id == t
    ensures var conv := s.convs[c];
            UpdateTurn(s, a, t, status) ==
              if status.Active() && OtherActive(conv.turns, i) then Outcome(s, Failure(UniqueViolation))
              else Outcome(Put(s, c, conv.(turns := conv.turns[i := conv.turns[i].(status := status)])), Success(()))
  {
    hide StartOk, StartsApart, ContinuationOk, ItemsOk, BatchesOk, FilesOk, OtherActive, OneActive;
    var turns := s.convs[c].turns;
    assert ConvOk(s.convs[c], s.nextId, s.files);
    assert HasTurn(turns, t);
    assert ConvOfTurn(s, a, t) == Some(c);
    assert WithStatus(turns, t, status) == turns[i := turns[i].(status := status)];
    ActiveClash(turns, i, status);
  }

  // Some item before number `first` references the file.
  predicate ReferencedBefore(items: map<int, Item>, first: int, f: string) {
    exists n :: n in items && n < first && f in items[n].files
  }

  // The snapshot of a started turn holds exactly the files referenced by items before the turn's own.
  lemma StartSnapshot(s: State, auth: Session, request: StartRequest)
    requires Inv(s)
    requires StartTurn(s, auth, request).result.Success? && !StartTurn(s, auth, request).result.value.replayed
    ensures var out := StartTurn(s, auth, request);
            var reply := out.result.value;
            && reply.conv in out.state.convs
            && var conv := out.state.convs[reply.conv];
            && conv.turns != [] && conv.turns[|conv.turns| - 1].id == reply.turn
            && forall f :: f in conv.turns[|conv.turns| - 1].snapshot <==> ReferencedBefore(conv.items, reply.first, f)
  {
    hide Inv, NormalStart, StartOn, ReferencedBefore;
    var r := NormalStart(request).value;
    if r.conv.None? {
      StartOnSnapshot(s, auth, r, s.nextId, NewConv(auth.actor), s.nextId + 1, 1);
    } else {
      InvConv(s, r.conv.value);
      StartOnSnapshot(s, auth, r, r.conv.value, s.convs[r.conv.value], s.nextId, s.nextId);
    }
  }

  lemma StartOnSnapshot(s: State, auth: Session, r: StartRequest, c: Id, conv: Conversation, t: Id, bound: Id)
    requires ItemsOk(conv, bound) && StartOn(s, auth, r, c, conv, t).result.Success?
    ensures var out := StartOn(s, auth, r, c, conv, t);
            && out.result.value.conv == c && c in out.state.convs && out.result.value.turn == t
            && var after := out.state.convs[c];
            && after.turns != [] && after.turns[|after.turns| - 1].id == t
            && forall f :: f in after.turns[|after.turns| - 1].snapshot <==> ReferencedBefore(after.items, out.result.value.first, f)
  {
    hide FilesOwned, FileUri.BatchReferences, ActiveExists, NewItems, Place, ConvFiles, KeyOf, BodyOf, ItemsOk, ReferencedBefore,
      ItemIds, StartItems;
    SnapshotOf(conv, NewItems(r.items, Some(t), User, t + 1), bound);
  }

  lemma SnapshotOf(conv: Conversation, added: seq<Item>, bound: Id)
    requires ItemsOk(conv, bound)
    ensures forall f :: f in ConvFiles(conv) <==> ReferencedBefore(Place(conv.items, conv.next, added), conv.next, f)
  {
    hide Place, HasTurn;
    PlaceAt(conv.items, conv.next, added);
    var placed := Place(conv.items, conv.next, added);
    forall f | f in ConvFiles(conv) ensures ReferencedBefore(placed, conv.next, f) {
      var n :| n in conv.items && f in conv.items[n].files;
      assert n in placed && placed[n] == conv.items[n];
    }
  }

  // ---- Continuations ----

  // Recorded under a new key; without a boundary of its own it covers the whole transcript.
  lemma ContinuationCovers(s: State, a: Actor, c: Id, r: ContinuationRequest)
    requires Inv(s) && CreateContinuation(s, a, c, r).result.Success?
    ensures var out := CreateContinuation(s, a, c, r);
            var k, made := ContinuationKey(a.tenant, r.agent, r.response), out.result.value;
            && k !in s.continuations && k in out.state.continuations && out.state.continuations[k] == made
            && made.conv == c && made.through < s.convs[c].next
            && (r.through.Some? ==> made.through == r.through.value)
            && (r.through.None? ==> forall n :: n in s.convs[c].items ==> n <= made.through)
  {
    hide StartOk, StartsApart, ContinuationOk, TurnsApart, BatchesOk, FilesOk, TurnsOk, Text.Trim, HasTurn;
    assert ConvOk(s.convs[c], s.nextId, s.files);
  }

  // The event ends the continuations of conversation c that reach number n: it deletes c, cuts it at or
  // below n, or regenerates a turn of it.
  ghost predicate Voids(s: State, e: Event, c: Id, n: int) {
    Cuts(s, e, c, n) || (e.Regenerating? && e.conv == c && Owned(s, e.actor, c) && s.convs[c].turns != [])
  }

  ghost predicate VoidedSince(s: State, events: seq<Event>, c: Id, n: int)
    decreases |events|
  {
    events != [] && (Voids(s, events[0], c, n) || VoidedSince(Apply(s, events[0]), events[1..], c, n))
  }

  lemma StepLives(s: State, e: Event, k: ContinuationKey)
    requires Inv(s) && ContinuationIds(s) && k in s.continuations
    ensures var made := s.continuations[k];
            var after := Apply(s, e);
            if Voids(s, e, made.conv, made.through) then NoContinuation(after, made.id)
            else k in after.continuations && after.continuations[k] == made
  {
    hide Inv, Text.Trim, FilesOwned, HasTurn, FindItem, NormalTitle, StartRetry, ConvFiles, NewItems, Extend, OneActive,
      AppendItems, StartTurn, CreateTurn, UpdateTurn, Regenerable;
    if !e.Truncating? && !e.Regenerating? && !e.Deleting? { OtherContinuations(s, e); }
  }

  lemma {:induction false} RunKeepsIds(s: State, events: seq<Event>)
    requires Inv(s) && ContinuationIds(s)
    ensures ContinuationIds(Run(s, events))
    decreases |events|
  {
    hide Inv, Apply, ContinuationIds;
    if events != [] {
      StepKeepsIds(s, events[0]);
      StepKeeps(s, events[0]);
      RunKeepsIds(Apply(s, events[0]), events[1..]);
    }
  }

  lemma {:induction false} LivesFrom(s: State, events: seq<Event>, k: ContinuationKey)
    requires Inv(s) && ContinuationIds(s) && k in s.continuations
    ensures var made := s.continuations[k];
            var after := Run(s, events);
            if VoidedSince(s, events, made.conv, made.through) then NoContinuation(after, made.id)
            else k in after.continuations && after.continuations[k] == made
    decreases |events|
  {
    hide Inv, Apply, ContinuationIds, Voids, NoContinuation;
    if events != [] {
      var s1, made := Apply(s, events[0]), s.continuations[k];
      StepLives(s, events[0], k);
      StepKeepsIds(s, events[0]);
      StepKeeps(s, events[0]);
      if Voids(s, events[0], made.conv, made.through) {
        IdIsOld(s, k);
        IdsGrow(s, events[0]);
        RunKeepsMissing(s1, events[1..], made.id);
      } else {
        LivesFrom(s1, events[1..], k);
      }
    }
  }

  lemma IdIsOld(s: State, k: ContinuationKey)
    requires Inv(s) && k in s.continuations
    ensures s.continuations[k].id < s.nextId
  {
    hide StartOk, StartsApart, TurnsApart, ConvOk;
    assert ContinuationOk(s, k);
  }

  // A continuation lives, under its key and unchanged, exactly until its conversation is deleted, cut at
  // or below its boundary or regenerated; after that no continuation ever carries its id again.
  lemma ContinuationLivesExactly(before: seq<Event>, after: seq<Event>, k: ContinuationKey)
    requires k in Run(EMPTY, before).continuations
    ensures var s := Run(EMPTY, before);
            var made := s.continuations[k];
            var t := Run(s, after);
            && (k in t.continuations && t.continuations[k] == made <==> !VoidedSince(s, after, made.conv, made.through))
            && (VoidedSince(s, after, made.conv, made.through) ==> NoContinuation(t, made.id))
  {
    hide Run, Inv;
    EmptyInv();
    RunKeeps(EMPTY, before);
    assert ContinuationIds(EMPTY);
    RunKeepsIds(EMPTY, before);
    LivesFrom(Run(EMPTY, before), after, k);
  }
}
