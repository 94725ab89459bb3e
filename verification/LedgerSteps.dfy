/** Every transaction keeps the ledger invariant. */
module LedgerSteps {
  import opened Wrappers
  import opened LedgerState
  import opened LedgerInvariant
  import FileUri
  import Json
  import Text

  // ---- Changes to one conversation ----

  // Intact starts stay complete, and no start becomes intact again.
  ghost predicate Follows(before: Conversation, after: Conversation, k: StartKey, r: TurnStart) {
    LinkOk(after, k, r) && (Intact(after, r) ==> Intact(before, r))
  }

  lemma PlaceAt(items: map<int, Item>, first: int, added: seq<Item>)
    requires forall n :: n in items ==> n < first
    ensures forall n :: n in Place(items, first, added) <==> n in items || first <= n < first + |added|
    ensures forall n :: n in items ==> Place(items, first, added)[n] == items[n]
    ensures forall n :: first <= n < first + |added| ==> Place(items, first, added)[n] == added[n - first]
  {
    forall n | first <= n < first + |added|
      ensures n in Place(items, first, added) && Place(items, first, added)[n] == added[n - first]
    {
      assert Slot(added, first, n) == added[n - first];
    }
  }

  lemma ExtendItems(conv: Conversation, payloads: seq<Json.Value>, turn: Option<Id>, source: Source, base: Id)
    requires ItemsOk(conv, base)
    requires turn.Some? ==> HasTurn(conv.turns, turn.value)
    ensures ItemsOk(Extend(conv, NewItems(payloads, turn, source, base)), base + |payloads|)
  {
    hide FileUri.References, Place;
    PlaceAt(conv.items, conv.next, NewItems(payloads, turn, source, base));
  }

  lemma ExtendFiles(conv: Conversation, payloads: seq<Json.Value>, turn: Option<Id>, source: Source,
                    base: Id, files: map<string, File>)
    requires ItemsOk(conv, base) && FilesOk(conv, files)
    requires forall f :: f in FileUri.BatchReferences(payloads) ==> f in files && files[f] == File(conv.tenant, conv.owner)
    ensures FilesOk(Extend(conv, NewItems(payloads, turn, source, base)), files)
  {
    hide FileUri.References, Place, HasTurn;
    var added := NewItems(payloads, turn, source, base);
    var after := Extend(conv, added);
    PlaceAt(conv.items, conv.next, added);
    forall f | ReferencedIn(after, f) ensures f in files && files[f] == File(conv.tenant, conv.owner) {
      if n :| n in after.items && f in after.items[n].files {
        if n in conv.items {
          assert ReferencedIn(conv, f);
        } else {
          assert f in FileUri.References(payloads[n - conv.next]);
        }
      } else {
        assert ReferencedIn(conv, f);
      }
    }
  }

  lemma ExtendKeeps(conv: Conversation, payloads: seq<Json.Value>, turn: Option<Id>, source: Source,
                    base: Id, files: map<string, File>)
    requires ConvOk(conv, base, files)
    requires turn.Some? ==> HasTurn(conv.turns, turn.value)
    requires forall f :: f in FileUri.BatchReferences(payloads) ==> f in files && files[f] == File(conv.tenant, conv.owner)
    ensures ConvOk(Extend(conv, NewItems(payloads, turn, source, base)), base + |payloads|, files)
  {
    ExtendItems(conv, payloads, turn, source, base);
    ExtendFiles(conv, payloads, turn, source, base, files);
  }

  lemma ExtendFollows(conv: Conversation, payloads: seq<Json.Value>, turn: Option<Id>, source: Source,
                      base: Id, k: StartKey, r: TurnStart, files: map<string, File>)
    requires ConvOk(conv, base, files) && RecordOk(r, base) && LinkOk(conv, k, r)
    ensures Follows(conv, Extend(conv, NewItems(payloads, turn, source, base)), k, r)
  {
    hide FileUri.References, Place, HasTurn, FilesOk, TurnsOk, BatchesOk;
    var added := NewItems(payloads, turn, source, base);
    var after := Extend(conv, added);
    PlaceAt(conv.items, conv.next, added);
    if Intact(after, r) {
      var n :| n in after.items && after.items[n].id == LastId(r);
      assert n in conv.items;
      assert Intact(conv, r);
      forall i | 0 <= i < |r.items|
        ensures ChildFound(after.items, r.turn, r.items[i])
        ensures after.items[r.items[i].number] == conv.items[r.items[i].number]
      {
        assert ChildFound(conv.items, r.turn, r.items[i]);
      }
    }
  }

  // No turn carries the idempotency key.
  predicate KeyFree(turns: seq<Turn>, key: Option<string>) {
    key.Some? ==> forall i :: 0 <= i < |turns| ==> turns[i].key != key
  }

  lemma {:induction false} LookupMisses(turns: seq<Turn>, key: string)
    ensures TurnByKey(turns, key) == None <==> KeyFree(turns, Some(key))
  {
    if turns != [] { LookupMisses(turns[1..], key); }
  }

  lemma AddTurnKeeps(conv: Conversation, turn: Turn, bound: Id, files: map<string, File>)
    requires ConvOk(conv, bound, files)
    requires turn.id >= bound && turn.snapshot == ConvFiles(conv) && !ActiveExists(conv.turns)
    requires KeyFree(conv.turns, turn.key)
    ensures ConvOk(conv.(turns := conv.turns + [turn]), turn.id + 1, files)
    ensures HasTurn(conv.turns + [turn], turn.id)
  {
    var after := conv.(turns := conv.turns + [turn]);
    assert after.turns[|conv.turns|] == turn;
    TurnsGrow(conv.turns, turn);
    forall f | ReferencedIn(after, f) ensures ReferencedIn(conv, f) {
      if i :| 0 <= i < |after.turns| && f in after.turns[i].snapshot {
        if i < |conv.turns| {
          assert f in conv.turns[i].snapshot;
        } else {
          var n :| n in conv.items && f in conv.items[n].files;
        }
      }
    }
  }

  lemma TurnsGrow(turns: seq<Turn>, turn: Turn)
    ensures forall t :: HasTurn(turns + [turn], t) <==> HasTurn(turns, t) || t == turn.id
  {
    forall t ensures HasTurn(turns + [turn], t) <==> HasTurn(turns, t) || t == turn.id {
      if HasTurn(turns, t) {
        var i :| 0 <= i < |turns| && turns[i].id == t;
        assert (turns + [turn])[i].id == t;
      }
      assert (turns + [turn])[|turns|].id == turn.id;
    }
  }

  lemma AddTurnFollows(conv: Conversation, turn: Turn, k: StartKey, r: TurnStart)
    requires LinkOk(conv, k, r)
    ensures Follows(conv, conv.(turns := conv.turns + [turn]), k, r)
  {
    var i :| 0 <= i < |conv.turns| && conv.turns[i].id == r.turn && conv.turns[i].agent == r.body.agent;
    var after := conv.(turns := conv.turns + [turn]);
    assert after.turns[i].id == r.turn && after.turns[i].agent == r.body.agent;
    assert Complete(conv, r) ==> Complete(after, r);
  }

  lemma StatusKeeps(conv: Conversation, t: Id, status: Status, bound: Id, files: map<string, File>)
    requires ConvOk(conv, bound, files) && OneActive(WithStatus(conv.turns, t, status))
    ensures ConvOk(conv.(turns := WithStatus(conv.turns, t, status)), bound, files)
    ensures forall u :: HasTurn(WithStatus(conv.turns, t, status), u) <==> HasTurn(conv.turns, u)
  {
    var turns := WithStatus(conv.turns, t, status);
    var after := conv.(turns := turns);
    forall u ensures HasTurn(turns, u) <==> HasTurn(conv.turns, u) {
      if HasTurn(conv.turns, u) {
        var i :| 0 <= i < |conv.turns| && conv.turns[i].id == u;
        assert turns[i].id == u;
      }
    }
    forall f | ReferencedIn(after, f) ensures ReferencedIn(conv, f) {
      if i :| 0 <= i < |turns| && f in turns[i].snapshot {
        assert f in conv.turns[i].snapshot;
      }
    }
  }

  lemma StatusFollows(conv: Conversation, t: Id, status: Status, k: StartKey, r: TurnStart)
    requires LinkOk(conv, k, r)
    ensures Follows(conv, conv.(turns := WithStatus(conv.turns, t, status)), k, r)
  {
    var turns := WithStatus(conv.turns, t, status);
    var i :| 0 <= i < |conv.turns| && conv.turns[i].id == r.turn && conv.turns[i].agent == r.body.agent;
    assert turns[i].id == r.turn && turns[i].agent == r.body.agent;
    assert Complete(conv, r) ==> Complete(conv.(turns := turns), r);
  }

  // Fewer items and fewer batches, same turns.
  ghost predicate Shrinks(before: Conversation, after: Conversation) {
    && after.tenant == before.tenant && after.owner == before.owner && after.turns == before.turns
    && (forall n :: n in after.items ==> n in before.items && after.items[n] == before.items[n])
    && (forall k :: k in after.batches ==> k in before.batches && after.batches[k] == before.batches[k])
  }

  lemma ShrinkKeeps(before: Conversation, after: Conversation, bound: Id, files: map<string, File>)
    requires ConvOk(before, bound, files) && Shrinks(before, after)
    requires after.next >= 1 && (forall n :: n in after.items ==> n < after.next)
    requires forall k :: k in after.batches ==> after.batches[k].last < after.next
    ensures ConvOk(after, bound, files)
  {
    forall f | ReferencedIn(after, f) ensures ReferencedIn(before, f) {
      if n :| n in after.items && f in after.items[n].files {
        assert f in before.items[n].files;
      }
    }
  }

  lemma CutFollows(conv: Conversation, n: int, k: StartKey, r: TurnStart, bound: Id, files: map<string, File>)
    requires ConvOk(conv, bound, files) && RecordOk(r, bound) && LinkOk(conv, k, r) && n >= 1
    ensures Follows(conv, Cut(conv, n), k, r)
    ensures Intact(Cut(conv, n), r) <==> Intact(conv, r) && r.last < n
  {
    var after := Cut(conv, n);
    if Intact(conv, r) {
      assert ChildFound(conv.items, r.turn, r.items[|r.items| - 1]);
      if r.last < n {
        assert after.items[r.last].id == LastId(r);
      }
      if Intact(after, r) {
        var m :| m in after.items && after.items[m].id == LastId(r);
        assert m == r.last;
        forall i | 0 <= i < |r.items| ensures ChildFound(after.items, r.turn, r.items[i]) {
          assert ChildFound(conv.items, r.turn, r.items[i]);
        }
      }
    }
  }

  lemma RegeneratedFollows(conv: Conversation, k: StartKey, r: TurnStart, bound: Id, files: map<string, File>)
    requires ConvOk(conv, bound, files) && RecordOk(r, bound) && LinkOk(conv, k, r)
    ensures Follows(conv, Regenerated(conv), k, r)
    ensures Intact(Regenerated(conv), r) <==> Intact(conv, r)
  {
    var after := Regenerated(conv);
    if Intact(conv, r) {
      forall i | 0 <= i < |r.items|
        ensures r.items[i].number in after.items && ChildFound(after.items, r.turn, r.items[i])
      {
        assert ChildFound(conv.items, r.turn, r.items[i]);
      }
      assert after.items[r.last].id == LastId(r);
    }
  }

  // ---- From one conversation to the state ----

  // Only conversation c changes (or appears); the tables around it stay.
  ghost predicate Puts(s: State, after: State, c: Id) {
    && c in after.convs && c < after.nextId && s.nextId <= after.nextId
    && after.convs == s.convs[c := after.convs[c]]
    && after.starts == s.starts && after.files == s.files
    && (c !in s.convs ==> c >= s.nextId)
  }

  // The turns of c afterwards are its old turns and new ones.
  ghost predicate TurnsFollow(s: State, after: State, c: Id)
    requires c in after.convs
  {
    forall t: Id :: HasTurn(after.convs[c].turns, t) ==> t >= s.nextId || (c in s.convs && HasTurn(s.convs[c].turns, t))
  }

  ghost predicate StartsFollow(s: State, after: State, c: Id)
    requires c in after.convs
  {
    c in s.convs ==>
      forall k :: k in s.starts && s.starts[k].conv == c ==> Follows(s.convs[c], after.convs[c], k, s.starts[k])
  }

  lemma ConvGrows(conv: Conversation, bound: Id, higher: Id, files: map<string, File>)
    requires ConvOk(conv, bound, files) && bound <= higher
    ensures ConvOk(conv, higher, files)
  {
  }

  lemma TurnBounded(conv: Conversation, bound: Id, files: map<string, File>, t: Id)
    requires ConvOk(conv, bound, files) && HasTurn(conv.turns, t)
    ensures t < bound
  {
  }

  lemma PutTurnsApart(s: State, after: State, c: Id)
    requires Inv(s) && Puts(s, after, c) && TurnsFollow(s, after, c)
    ensures TurnsApart(after)
  {
    forall d, e, t | d in after.convs && e in after.convs && HasTurn(after.convs[d].turns, t) && HasTurn(after.convs[e].turns, t)
      ensures d == e
    {
      if d != c { TurnBounded(s.convs[d], s.nextId, s.files, t); }
      if e != c { TurnBounded(s.convs[e], s.nextId, s.files, t); }
      assert TurnsApart(s);
    }
  }

  lemma PutStart(s: State, after: State, c: Id, k: StartKey)
    requires Puts(s, after, c) && StartsFollow(s, after, c) && StartOk(s, k)
    ensures StartOk(after, k)
  {
  }

  lemma PutStartsApart(s: State, after: State, c: Id, k: StartKey, l: StartKey)
    requires Puts(s, after, c) && StartsFollow(s, after, c) && StartOk(s, k) && StartOk(s, l) && StartsApart(s, k, l)
    ensures StartsApart(after, k, l)
  {
  }

  lemma PutKeeps(s: State, after: State, c: Id)
    requires Inv(s) && Puts(s, after, c) && TurnsFollow(s, after, c) && StartsFollow(s, after, c)
    requires ConvOk(after.convs[c], after.nextId, after.files)
    requires forall k :: ContinuationOk(after, k)
    ensures Inv(after)
  {
    forall d | d in after.convs ensures ConvOk(after.convs[d], after.nextId, after.files) && d < after.nextId {
      if d != c { ConvGrows(s.convs[d], s.nextId, after.nextId, s.files); }
    }
    PutTurnsApart(s, after, c);
    forall k ensures StartOk(after, k) { PutStart(s, after, c, k); }
    forall k, l ensures StartsApart(after, k, l) { PutStartsApart(s, after, c, k, l); }
  }

  lemma CreateConversationKeeps(s: State, a: Actor)
    requires Inv(s)
    ensures Inv(CreateConversation(s, a).state)
  {
    var after := CreateConversation(s, a).state;
    forall k ensures ContinuationOk(after, k) { assert ContinuationOk(s, k); }
    PutKeeps(s, after, s.nextId);
  }

  // Continuations survive a change that keeps the conversation's tenant and does not lower `next`.
  lemma ContinuationsKept(s: State, after: State, c: Id)
    requires Inv(s) && c in s.convs && c in after.convs && s.nextId <= after.nextId
    requires after.convs == s.convs[c := after.convs[c]] && after.continuations == s.continuations
    requires after.convs[c].tenant == s.convs[c].tenant && s.convs[c].next <= after.convs[c].next
    ensures forall k :: ContinuationOk(after, k)
  {
    forall k ensures ContinuationOk(after, k) { assert ContinuationOk(s, k); }
  }

  // New items at the end of conversation c, by any of its turns or by none.
  lemma ExtendState(s: State, c: Id, payloads: seq<Json.Value>, turn: Option<Id>, source: Source)
    requires Inv(s) && c in s.convs
    requires turn.Some? ==> HasTurn(s.convs[c].turns, turn.value)
    requires FilesOwned(s, Actor(s.convs[c].tenant, s.convs[c].owner), FileUri.BatchReferences(payloads))
    ensures var added := NewItems(payloads, turn, source, s.nextId);
            Inv(Put(s, c, Extend(s.convs[c], added)).(nextId := s.nextId + |added|))
  {
    hide ConvOk, LinkOk, RecordOk, StartsApart, TurnsApart, Intact, HasTurn;
    var conv := s.convs[c];
    var added := NewItems(payloads, turn, source, s.nextId);
    var after := Put(s, c, Extend(conv, added)).(nextId := s.nextId + |added|);
    ExtendKeeps(conv, payloads, turn, source, s.nextId, s.files);
    forall k | k in s.starts && s.starts[k].conv == c
      ensures Follows(conv, after.convs[c], k, s.starts[k])
    {
      assert StartOk(s, k);
      ExtendFollows(conv, payloads, turn, source, s.nextId, k, s.starts[k], s.files);
    }
    ContinuationsKept(s, after, c);
    PutKeeps(s, after, c);
  }

  lemma BatchAdded(conv: Conversation, after: Conversation, bound: Id, files: map<string, File>, key: string, b: Batch)
    requires ConvOk(conv, bound, files) && after == conv.(batches := conv.batches[key := b]) && key !in conv.batches
    requires 1 <= b.first <= b.last < conv.next
    requires forall k :: k in conv.batches ==> conv.batches[k].last < b.first
    ensures ConvOk(after, bound, files)
  {
    hide HasTurn, TurnsOk, FileUri.References;
    assert forall f :: ReferencedIn(after, f) ==> ReferencedIn(conv, f);
  }

  lemma BatchFollows(conv: Conversation, key: string, b: Batch, k: StartKey, r: TurnStart)
    requires LinkOk(conv, k, r) && (Intact(conv, r) ==> r.last < b.first)
    ensures Follows(conv, conv.(batches := conv.batches[key := b]), k, r)
  {
    assert Complete(conv, r) ==> Complete(conv.(batches := conv.batches[key := b]), r);
  }

  // A new batch above everything that was there before the extension.
  lemma AddBatch(s: State, c: Id, key: string, b: Batch)
    requires Inv(s) && c in s.convs && key !in s.convs[c].batches
    requires 1 <= b.first <= b.last == s.convs[c].next - 1
    requires forall k :: k in s.convs[c].batches ==> s.convs[c].batches[k].last < b.first
    requires forall k :: k in s.starts && s.starts[k].conv == c && Intact(s.convs[c], s.starts[k]) ==> s.starts[k].last < b.first
    ensures Inv(Put(s, c, s.convs[c].(batches := s.convs[c].batches[key := b])))
  {
    hide HasTurn, ReferencedIn, ItemsOk, TurnsOk, RecordOk, LinkOk, TurnsApart, StartsApart, Intact;
    var conv := s.convs[c];
    var conv' := conv.(batches := conv.batches[key := b]);
    var after := Put(s, c, conv');
    BatchAdded(conv, conv', s.nextId, s.files, key, b);
    forall k | k in s.starts && s.starts[k].conv == c ensures Follows(conv, conv', k, s.starts[k]) {
      assert StartOk(s, k);
      BatchFollows(conv, key, b, k, s.starts[k]);
    }
    ContinuationsKept(s, after, c);
    PutKeeps(s, after, c);
  }

  lemma BatchesBelow(s: State, c: Id)
    requires Inv(s) && c in s.convs
    ensures s.convs[c].next >= 1
    ensures forall k :: k in s.convs[c].batches ==> s.convs[c].batches[k].last < s.convs[c].next
  {
    assert ConvOk(s.convs[c], s.nextId, s.files);
  }

  // What a first append writes, if it writes anything.
  lemma AppendWrites(s: State, a: Actor, c: Id, r: AppendRequest)
    requires AppendItems(s, a, c, r).state != s
    ensures Owned(s, a, c) && r.key !in s.convs[c].batches && r.items != []
    ensures r.turn.Some? ==> HasTurn(s.convs[c].turns, r.turn.value)
    ensures FilesOwned(s, Actor(s.convs[c].tenant, s.convs[c].owner), FileUri.BatchReferences(r.items))
    ensures var conv, added := s.convs[c], NewItems(r.items, r.turn, r.source, s.nextId);
            var mid := Put(s, c, Extend(conv, added)).(nextId := s.nextId + |added|);
            AppendItems(s, a, c, r).state
              == Put(mid, c, mid.convs[c].(batches := mid.convs[c].batches[r.key := Batch(conv.next, conv.next + |added| - 1)]))
  {
    hide FileUri.BatchReferences, FileUri.References, HasTurn, Rows, NewItems, Place;
  }

  lemma AppendKeeps(s: State, a: Actor, c: Id, r: AppendRequest)
    requires Inv(s)
    ensures Inv(AppendItems(s, a, c, r).state)
  {
    hide Inv, Extend, NewItems, HasTurn, FilesOwned, Intact, AppendItems, FileUri.BatchReferences;
    if AppendItems(s, a, c, r).state != s {
      AppendWrites(s, a, c, r);
      AppendedKeeps(s, c, r);
    }
  }

  lemma AppendedKeeps(s: State, c: Id, r: AppendRequest)
    requires Inv(s) && c in s.convs && r.key !in s.convs[c].batches && r.items != []
    requires r.turn.Some? ==> HasTurn(s.convs[c].turns, r.turn.value)
    requires FilesOwned(s, Actor(s.convs[c].tenant, s.convs[c].owner), FileUri.BatchReferences(r.items))
    ensures var conv, added := s.convs[c], NewItems(r.items, r.turn, r.source, s.nextId);
            var mid := Put(s, c, Extend(conv, added)).(nextId := s.nextId + |added|);
            Inv(Put(mid, c, mid.convs[c].(batches := mid.convs[c].batches[r.key := Batch(conv.next, conv.next + |added| - 1)])))
  {
    hide Inv, HasTurn, FilesOwned, Intact, FileUri.BatchReferences, FileUri.References, Place;
    var conv := s.convs[c];
    var added := NewItems(r.items, r.turn, r.source, s.nextId);
    BatchesBelow(s, c);
    ExtendState(s, c, r.items, r.turn, r.source);
    var mid := Put(s, c, Extend(conv, added)).(nextId := s.nextId + |added|);
    forall k | k in mid.starts && mid.starts[k].conv == c && Intact(mid.convs[c], mid.starts[k])
      ensures mid.starts[k].last < conv.next
    {
      OldStartBelow(s, c, r.items, r.turn, r.source, k);
    }
    AddBatch(mid, c, r.key, Batch(conv.next, conv.next + |added| - 1));
  }

  lemma AddTurnState(s: State, c: Id, turn: Turn, nextId: Id)
    requires Inv(s) && c in s.convs && !ActiveExists(s.convs[c].turns)
    requires s.nextId <= turn.id && nextId == turn.id + 1 && turn.snapshot == ConvFiles(s.convs[c])
    requires KeyFree(s.convs[c].turns, turn.key)
    ensures Inv(Put(s, c, s.convs[c].(turns := s.convs[c].turns + [turn])).(nextId := nextId))
  {
    var conv := s.convs[c];
    var after := Put(s, c, conv.(turns := conv.turns + [turn])).(nextId := nextId);
    AddTurnKeeps(conv, turn, s.nextId, s.files);
    TurnsGrow(conv.turns, turn);
    forall k | k in s.starts && s.starts[k].conv == c ensures Follows(conv, after.convs[c], k, s.starts[k]) {
      assert StartOk(s, k);
      AddTurnFollows(conv, turn, k, s.starts[k]);
    }
    ContinuationsKept(s, after, c);
    PutKeeps(s, after, c);
  }

  lemma CreateTurnKeeps(s: State, a: Actor, c: Id, r: TurnRequest)
    requires Inv(s)
    ensures Inv(CreateTurn(s, a, c, r).state)
  {
    hide Inv, ConvFiles, FilesOwned, Text.Trim;
    var out := CreateTurn(s, a, c, r);
    if out.state != s {
      LookupMisses(s.convs[c].turns, r.key);
      AddTurnState(s, c, out.result.value, s.nextId + 1);
    }
  }

  // The i-th new item of an extension stands at the i-th new number.
  lemma NewItemAt(conv: Conversation, payloads: seq<Json.Value>, turn: Option<Id>, source: Source, base: Id, i: int)
    requires 0 <= i < |payloads|
    ensures var items := Extend(conv, NewItems(payloads, turn, source, base)).items;
            conv.next + i in items
            && items[conv.next + i] == Item(base + i, turn, source, payloads[i], FileUri.References(payloads[i]))
  {
    hide FileUri.References;
    var added := NewItems(payloads, turn, source, base);
    assert Slot(added, conv.next, conv.next + i) == added[i];
  }

  // The new items of a start stand complete at the end of the transcript.
  lemma FreshComplete(conv: Conversation, r: TurnStart, base: Id)
    requires r.first == conv.next && r.last == conv.next + |r.body.items| - 1
    requires r.body.items != [] && r.items == StartItems(r.first, base, |r.body.items|)
    ensures Complete(Extend(conv, NewItems(r.body.items, Some(r.turn), User, base)), r)
    ensures Intact(Extend(conv, NewItems(r.body.items, Some(r.turn), User, base)), r)
  {
    hide NewItems, Place, FileUri.References;
    var items := Extend(conv, NewItems(r.body.items, Some(r.turn), User, base)).items;
    forall i | 0 <= i < |r.items|
      ensures ChildFound(items, r.turn, r.items[i])
      ensures items[r.items[i].number].source.User? && items[r.items[i].number].payload == r.body.items[i]
    {
      NewItemAt(conv, r.body.items, Some(r.turn), User, base, i);
    }
    assert ChildFound(items, r.turn, r.items[|r.items| - 1]);
  }

  // The turns of the items before a start are older than its turn.
  lemma FreshOlder(conv: Conversation, added: seq<Item>, r: TurnStart, turn: Turn, files: map<string, File>)
    requires ConvOk(conv, turn.id, files) && r.turn == turn.id && r.first == conv.next
    ensures OlderBefore(Extend(conv.(turns := conv.turns + [turn]), added), r)
  {
    PlaceAt(conv.items, conv.next, added);
    forall n | n in conv.items && conv.items[n].turn.Some? ensures conv.items[n].turn.value < r.turn {
      TurnBounded(conv, turn.id, files, conv.items[n].turn.value);
    }
  }

  // The new turn is the latest, the transcript before it is older and its own items are complete.
  lemma FreshStart(conv: Conversation, r: TurnStart, turn: Turn, base: Id, files: map<string, File>)
    requires ConvOk(conv, turn.id, files) && !ActiveExists(conv.turns) && turn.key.None? && base == turn.id + 1
    requires r.turn == turn.id && turn.agent == r.body.agent && turn.snapshot == ConvFiles(conv)
    requires r.first == conv.next && r.last == conv.next + |r.body.items| - 1
    requires r.body.items != [] && r.items == StartItems(r.first, base, |r.body.items|)
    ensures var after := Extend(conv.(turns := conv.turns + [turn]), NewItems(r.body.items, Some(turn.id), User, base));
            && Complete(after, r) && OlderBefore(after, r) && TurnRuns(after, r.turn, r.body.agent)
            && Intact(after, r)
            && (forall b :: b in after.batches ==> Apart(after.batches[b], Batch(r.first, r.last)))
  {
    var mid := conv.(turns := conv.turns + [turn]);
    AddTurnKeeps(conv, turn, turn.id, files);
    FreshComplete(mid, r, base);
    FreshOlder(conv, NewItems(r.body.items, Some(turn.id), User, base), r, turn, files);
    assert mid.turns[|conv.turns|] == turn;
  }

  lemma AddStart(s: State, k: StartKey, r: TurnStart)
    requires Inv(s) && k !in s.starts && r.conv in s.convs && RecordOk(r, s.nextId)
    requires LinkOk(s.convs[r.conv], k, r)
    requires forall l :: l in s.starts ==> s.starts[l].turn != r.turn
    requires forall l :: l in s.starts && s.starts[l].conv == r.conv && Intact(s.convs[r.conv], s.starts[l]) ==>
                         s.starts[l].last < r.first
    ensures Inv(s.(starts := s.starts[k := r]))
  {
    var after := s.(starts := s.starts[k := r]);
    forall l ensures StartOk(after, l) { assert StartOk(s, l); }
    forall l, m ensures StartsApart(after, l, m) { assert StartsApart(s, l, m); }
    forall l ensures ContinuationOk(after, l) { assert ContinuationOk(s, l); }
  }

  // A start's turn and items are in place, its record is not written yet.
  function StartPlaced(s: State, c: Id, turn: Turn, payloads: seq<Json.Value>): State
    requires c in s.convs
  {
    var s1 := Put(s, c, s.convs[c].(turns := s.convs[c].turns + [turn])).(nextId := turn.id + 1);
    var added := NewItems(payloads, Some(turn.id), User, turn.id + 1);
    Put(s1, c, Extend(s1.convs[c], added)).(nextId := turn.id + 1 + |added|)
  }

  lemma StartPlacedKeeps(s: State, c: Id, turn: Turn, payloads: seq<Json.Value>)
    requires Inv(s) && c in s.convs && !ActiveExists(s.convs[c].turns)
    requires turn.id == s.nextId && turn.key.None? && turn.snapshot == ConvFiles(s.convs[c])
    requires FilesOwned(s, Actor(s.convs[c].tenant, s.convs[c].owner), FileUri.BatchReferences(payloads))
    ensures Inv(StartPlaced(s, c, turn, payloads))
    ensures forall l :: l in s.starts ==> s.starts[l].turn < turn.id
    ensures forall l :: l in s.starts && s.starts[l].conv == c && Intact(StartPlaced(s, c, turn, payloads).convs[c], s.starts[l]) ==>
              s.starts[l].last < s.convs[c].next
  {
    hide Inv, HasTurn, Intact, NewItems, Extend, ConvFiles, FileUri.BatchReferences, ActiveExists;
    AddTurnState(s, c, turn, turn.id + 1);
    var s1 := Put(s, c, s.convs[c].(turns := s.convs[c].turns + [turn])).(nextId := turn.id + 1);
    TurnsGrow(s.convs[c].turns, turn);
    FilesOwnedSame(s, s1, Actor(s.convs[c].tenant, s.convs[c].owner));
    ExtendState(s1, c, payloads, Some(turn.id), User);
    forall l | l in s.starts ensures s.starts[l].turn < turn.id { RecordOf(s, l); }
    forall l | l in s.starts && s.starts[l].conv == c && Intact(StartPlaced(s, c, turn, payloads).convs[c], s.starts[l])
      ensures s.starts[l].last < s.convs[c].next
    {
      OldStartBelow(s1, c, payloads, Some(turn.id), User, l);
    }
  }

  lemma RecordOf(s: State, k: StartKey)
    requires Inv(s) && k in s.starts
    ensures RecordOk(s.starts[k], s.nextId)
  {
    assert StartOk(s, k);
  }

  // A start on a conversation of the actor.
  lemma StartOnKeeps(s: State, auth: Session, r: StartRequest, c: Id)
    requires Inv(s) && Owned(s, auth.actor, c) && KeyOf(auth, r) !in s.starts && r.items != []
    ensures Inv(StartOn(s, auth, r, c, s.convs[c], s.nextId).state)
  {
    hide Inv, ConvOk, Intact, FileUri.BatchReferences, ActiveExists, ConvFiles, Complete, OlderBefore, NewItems,
      Place, FileUri.References, TurnRuns;
    var out := StartOn(s, auth, r, c, s.convs[c], s.nextId);
    if out.result.Success? {
      var conv := s.convs[c];
      BatchesBelow(s, c);
      var turn := Turn(s.nextId, r.agent, None, Pending, ConvFiles(conv));
      StartPlacedKeeps(s, c, turn, r.items);
      var s2 := StartPlaced(s, c, turn, r.items);
      var k := KeyOf(auth, r);
      var record := out.state.starts[k];
      ConvOf(s, c);
      FreshStart(conv, record, turn, s.nextId + 1, s.files);
      AddStart(s2, k, record);
      assert out.state == s2.(starts := s2.starts[k := record]);
    }
  }

  lemma ConvOf(s: State, c: Id)
    requires Inv(s) && c in s.convs
    ensures ConvOk(s.convs[c], s.nextId, s.files) && c < s.nextId
  {
  }

  // After an extension, an intact start still ends below the numbers handed out.
  lemma OldStartBelow(s: State, c: Id, payloads: seq<Json.Value>, turn: Option<Id>, source: Source, k: StartKey)
    requires Inv(s) && c in s.convs && k in s.starts && s.starts[k].conv == c
    requires Intact(Extend(s.convs[c], NewItems(payloads, turn, source, s.nextId)), s.starts[k])
    ensures s.starts[k].last < s.convs[c].next
  {
    assert StartOk(s, k);
    ExtendFollows(s.convs[c], payloads, turn, source, s.nextId, k, s.starts[k], s.files);
  }

  lemma StartTurnKeeps(s: State, auth: Session, request: StartRequest)
    requires Inv(s)
    ensures Inv(StartTurn(s, auth, request).state)
  {
    hide Inv, StartOn, StartRetry, NormalTitle, Text.Trim;
    var normal := NormalStart(request);
    if normal.Some? {
      var r := normal.value;
      if KeyOf(auth, r) !in s.starts {
        if r.conv.None? {
          CreateConversationKeeps(s, auth.actor);
          var s0 := CreateConversation(s, auth.actor).state;
          StartOnKeeps(s0, auth, r, s.nextId);
          StartOnFresh(s, auth, r);
        } else if Owned(s, auth.actor, r.conv.value) {
          StartOnKeeps(s, auth, r, r.conv.value);
        }
      }
    }
  }

  // Creating the conversation within the start, or just before it, comes to the same.
  lemma StartOnFresh(s: State, auth: Session, r: StartRequest)
    ensures var out := StartOn(s, auth, r, s.nextId, NewConv(auth.actor), s.nextId + 1);
            var s0 := CreateConversation(s, auth.actor).state;
            var out0 := StartOn(s0, auth, r, s.nextId, s0.convs[s.nextId], s0.nextId);
            out.result == out0.result && out.state == if out.result.Success? then out0.state else s
  {
    hide FileUri.BatchReferences, NewItems, FilesOwned;
    var s0 := CreateConversation(s, auth.actor).state;
    FilesOwnedSame(s, s0, auth.actor);
    var out0 := StartOn(s0, auth, r, s.nextId, s0.convs[s.nextId], s0.nextId);
    if out0.result.Success? {
      var conv := out0.state.convs[s.nextId];
      assert s.convs[s.nextId := conv] == s0.convs[s.nextId := conv];
    }
  }

  lemma FilesOwnedSame(s: State, t: State, a: Actor)
    requires s.files == t.files
    ensures forall files :: FilesOwned(s, a, files) == FilesOwned(t, a, files)
  {
  }

  lemma UpdateTurnKeeps(s: State, a: Actor, t: Id, status: Status)
    requires Inv(s)
    ensures Inv(UpdateTurn(s, a, t, status).state)
  {
    var found := ConvOfTurn(s, a, t);
    if found.Some? && OneActive(WithStatus(s.convs[found.value].turns, t, status)) {
      var c := found.value;
      StatusState(s, c, t, status);
    }
  }

  lemma StatusState(s: State, c: Id, t: Id, status: Status)
    requires Inv(s) && c in s.convs && OneActive(WithStatus(s.convs[c].turns, t, status))
    ensures Inv(Put(s, c, s.convs[c].(turns := WithStatus(s.convs[c].turns, t, status))))
  {
    hide ConvOk, LinkOk, RecordOk, StartsApart, TurnsApart, Intact, HasTurn;
    var conv := s.convs[c];
    var after := Put(s, c, conv.(turns := WithStatus(conv.turns, t, status)));
    StatusKeeps(conv, t, status, s.nextId, s.files);
    forall k | k in s.starts && s.starts[k].conv == c ensures Follows(conv, after.convs[c], k, s.starts[k]) {
      assert StartOk(s, k);
      StatusFollows(conv, t, status, k, s.starts[k]);
    }
    ContinuationsKept(s, after, c);
    PutKeeps(s, after, c);
  }

  // A shrunken transcript, with fewer continuations.
  lemma ShrinkState(s: State, after: State, c: Id)
    requires Inv(s) && c in s.convs && Puts(s, after, c) && after.nextId == s.nextId
    requires ConvOk(after.convs[c], s.nextId, s.files) && Shrinks(s.convs[c], after.convs[c])
    requires forall k :: k in s.starts && s.starts[k].conv == c ==> Follows(s.convs[c], after.convs[c], k, s.starts[k])
    requires forall k :: k in after.continuations ==>
               && k in s.continuations && after.continuations[k] == s.continuations[k]
               && (after.continuations[k].conv == c ==> after.continuations[k].through < after.convs[c].next)
    ensures Inv(after)
  {
    hide ConvOk, LinkOk, RecordOk, StartsApart, StartOk, TurnsApart, Intact, Follows;
    forall k ensures ContinuationOk(after, k) { assert ContinuationOk(s, k); }
    PutKeeps(s, after, c);
  }

  lemma TruncateKeeps(s: State, a: Actor, c: Id, item: Id)
    requires Inv(s)
    ensures Inv(Truncate(s, a, c, item).state)
  {
    if Truncate(s, a, c, item).result.Success? {
      var n := FindItem(s.convs[c].items, item).value;
      CutState(s, c, n, Truncate(s, a, c, item).state);
    }
  }

  lemma CutState(s: State, c: Id, n: int, after: State)
    requires Inv(s) && c in s.convs && n in s.convs[c].items
    requires after == Put(s, c, Cut(s.convs[c], n)).(continuations := map k | k in s.continuations
                        && !(s.continuations[k].conv == c && s.continuations[k].through >= n) :: s.continuations[k])
    ensures Inv(after)
  {
    hide LinkOk, RecordOk, StartsApart, TurnsApart, Intact, Follows, TurnsOk, FilesOk, HasTurn;
    var conv := s.convs[c];
    assert ConvOk(conv, s.nextId, s.files);
    ShrinkKeeps(conv, Cut(conv, n), s.nextId, s.files);
    forall k | k in s.starts && s.starts[k].conv == c ensures Follows(conv, after.convs[c], k, s.starts[k]) {
      assert StartOk(s, k);
      CutFollows(conv, n, k, s.starts[k], s.nextId, s.files);
    }
    ShrinkState(s, after, c);
  }

  lemma RegenerateKeeps(s: State, a: Actor, c: Id)
    requires Inv(s)
    ensures Inv(Regenerate(s, a, c).state)
  {
    hide LinkOk, RecordOk, StartsApart, TurnsApart, Intact, Follows, TurnsOk, FilesOk, HasTurn;
    var after := Regenerate(s, a, c).state;
    if after != s {
      var conv := s.convs[c];
      assert ConvOk(conv, s.nextId, s.files);
      ShrinkKeeps(conv, Regenerated(conv), s.nextId, s.files);
      forall k | k in s.starts && s.starts[k].conv == c ensures Follows(conv, after.convs[c], k, s.starts[k]) {
        assert StartOk(s, k);
        RegeneratedFollows(conv, k, s.starts[k], s.nextId, s.files);
      }
      ShrinkState(s, after, c);
    }
  }

  lemma DeleteKeeps(s: State, a: Actor, c: Id)
    requires Inv(s)
    ensures Inv(DeleteConversation(s, a, c).state)
  {
    hide ConvOk, LinkOk, RecordOk, Intact, HasTurn;
    var after := DeleteConversation(s, a, c).state;
    forall k ensures StartOk(after, k) { assert StartOk(s, k); }
    forall k, l ensures StartsApart(after, k, l) { assert StartsApart(s, k, l); }
    forall k ensures ContinuationOk(after, k) { assert ContinuationOk(s, k); }
  }

  lemma RecordGrows(r: TurnStart, bound: Id, higher: Id)
    requires RecordOk(r, bound) && bound <= higher
    ensures RecordOk(r, higher)
  {
  }

  lemma ContinueKeeps(s: State, a: Actor, c: Id, r: ContinuationRequest)
    requires Inv(s)
    ensures Inv(CreateContinuation(s, a, c, r).state)
  {
    hide ConvOk, LinkOk, RecordOk, Intact, HasTurn, Text.Trim;
    var after := CreateContinuation(s, a, c, r).state;
    if after != s {
      forall d | d in after.convs ensures ConvOk(after.convs[d], after.nextId, after.files) {
        ConvGrows(s.convs[d], s.nextId, after.nextId, s.files);
      }
      forall k ensures StartOk(after, k) {
        assert StartOk(s, k);
        if k in s.starts { RecordGrows(s.starts[k], s.nextId, after.nextId); }
      }
      forall k, l ensures StartsApart(after, k, l) { assert StartsApart(s, k, l); }
      forall k ensures ContinuationOk(after, k) { assert ContinuationOk(s, k); }
    }
  }

  // The files table may change as long as every referenced file stays.
  lemma FilesKeep(s: State, after: State)
    requires Inv(s) && after == s.(files := after.files)
    requires forall c, f :: c in s.convs && ReferencedIn(s.convs[c], f) ==> f in after.files && after.files[f] == s.files[f]
    ensures Inv(after)
  {
    hide LinkOk, RecordOk, Intact, HasTurn, ItemsOk, TurnsOk, BatchesOk;
    forall d | d in after.convs ensures ConvOk(after.convs[d], after.nextId, after.files) {
      assert ConvOk(s.convs[d], s.nextId, s.files);
    }
    forall k ensures StartOk(after, k) { assert StartOk(s, k); }
    forall k, l ensures StartsApart(after, k, l) { assert StartsApart(s, k, l); }
    forall k ensures ContinuationOk(after, k) { assert ContinuationOk(s, k); }
  }

  lemma FileStepsKeep(s: State, a: Actor, f: string)
    requires Inv(s)
    ensures Inv(SaveFile(s, a, f).state) && Inv(RemoveFile(s, a, f).state)
  {
    hide StartOk, StartsApart, ContinuationOk, TurnsApart, ItemsOk, TurnsOk, BatchesOk, ReferencedIn;
    forall c, g | c in s.convs && ReferencedIn(s.convs[c], g) ensures g in s.files {
      assert FilesOk(s.convs[c], s.files);
    }
    FilesKeep(s, SaveFile(s, a, f).state);
    FilesKeep(s, RemoveFile(s, a, f).state);
  }

  // Every transaction, successful or refused, keeps the invariant.
  lemma StepKeeps(s: State, e: Event)
    requires Inv(s)
    ensures Inv(Apply(s, e))
  {
    hide Inv;
    match e
    case Creating(a) => CreateConversationKeeps(s, a);
    case Appending(a, c, r) => AppendKeeps(s, a, c, r);
    case Starting(auth, r) => StartTurnKeeps(s, auth, r);
    case CreatingTurn(a, c, r) => CreateTurnKeeps(s, a, c, r);
    case Updating(a, t, status) => UpdateTurnKeeps(s, a, t, status);
    case Truncating(a, c, item) => TruncateKeeps(s, a, c, item);
    case Regenerating(a, c) => RegenerateKeeps(s, a, c);
    case Continuing(a, c, r) => ContinueKeeps(s, a, c, r);
    case Deleting(a, c) => DeleteKeeps(s, a, c);
    case Saving(a, f) => FileStepsKeep(s, a, f);
    case Removing(a, f) => FileStepsKeep(s, a, f);
  }

  lemma EmptyInv()
    ensures Inv(EMPTY)
  {
  }

  // Safety over whole runs.
  lemma {:induction false} RunKeeps(s: State, events: seq<Event>)
    requires Inv(s)
    ensures Inv(Run(s, events))
    decreases |events|
  {
    hide Inv, Apply;
    if events != [] {
      StepKeeps(s, events[0]);
      RunKeeps(Apply(s, events[0]), events[1..]);
    }
  }
}
