/** What every reachable ledger state satisfies, and that every transaction keeps it. */
module LedgerInvariant {
  import opened Wrappers
  import opened LedgerState
  import FileUri
  import Json

  // ---- One conversation ----

  ghost predicate ItemsOk(conv: Conversation, bound: Id) {
    && conv.next >= 1
    && (forall n :: n in conv.items ==> 1 <= n < conv.next)
    && (forall n :: n in conv.items ==> conv.items[n].id < bound)
    && (forall n, m :: n in conv.items && m in conv.items && n != m ==> conv.items[n].id != conv.items[m].id)
    && (forall n :: n in conv.items && conv.items[n].turn.Some? ==> HasTurn(conv.turns, conv.items[n].turn.value))
  }

  // Turn ids grow in commit order, idempotency keys are unique and at most one turn is active.
  ghost predicate TurnsOk(turns: seq<Turn>, bound: Id) {
    && (forall i :: 0 <= i < |turns| ==> turns[i].id < bound)
    && (forall i, j :: 0 <= i < j < |turns| ==> turns[i].id < turns[j].id)
    && (forall i, j :: 0 <= i < j < |turns| && turns[i].key.Some? ==> turns[i].key != turns[j].key)
    && OneActive(turns)
  }

  predicate Apart(a: Batch, b: Batch) {
    a.last < b.first || b.last < a.first
  }

  ghost predicate BatchesOk(conv: Conversation) {
    && (forall k :: k in conv.batches ==> 1 <= conv.batches[k].first <= conv.batches[k].last < conv.next)
    && (forall k, l :: k in conv.batches && l in conv.batches && k != l ==> Apart(conv.batches[k], conv.batches[l]))
  }

  // Reference rows are exactly the references in the payload, and every referenced or
  // snapshotted file exists and belongs to the conversation's owner.
  ghost predicate FilesOk(conv: Conversation, files: map<string, File>) {
    && (forall n :: n in conv.items ==> conv.items[n].files == FileUri.References(conv.items[n].payload))
    && (forall f :: ReferencedIn(conv, f) ==> f in files && files[f] == File(conv.tenant, conv.owner))
  }

  ghost predicate ConvOk(conv: Conversation, bound: Id, files: map<string, File>) {
    && ItemsOk(conv, bound)
    && TurnsOk(conv.turns, bound)
    && BatchesOk(conv)
    && FilesOk(conv, files)
  }

  // ---- Turn starts ----

  ghost predicate RecordOk(r: TurnStart, bound: Id) {
    && r.first >= 1
    && |r.items| >= 1
    && r.last == r.first + |r.items| - 1
    && |r.body.items| == |r.items|
    && r.conv < bound && r.turn < bound
    && (forall i :: 0 <= i < |r.items| ==> r.items[i].ordinal == i && r.items[i].number == r.first + i)
    && (forall i :: 0 <= i < |r.items| ==> r.items[i].item < bound)
  }

  predicate HasId(items: map<int, Item>, id: Id) {
    exists n :: n in items && items[n].id == id
  }

  function LastId(r: TurnStart): Id
    requires r.items != []
  {
    r.items[|r.items| - 1].item
  }

  // The start's last item is still in the transcript.
  predicate Intact(conv: Conversation, r: TurnStart) {
    r.items != [] && HasId(conv.items, LastId(r))
  }

  // Every item of the start stands where it was put, unchanged.
  ghost predicate Complete(conv: Conversation, r: TurnStart) {
    && r.last < conv.next
    && |r.items| == |r.body.items|
    && forall i :: 0 <= i < |r.items| ==>
         && ChildFound(conv.items, r.turn, r.items[i])
         && conv.items[r.items[i].number].source.User?
         && conv.items[r.items[i].number].payload == r.body.items[i]
  }

  // Items before the start belong to older turns, or to none.
  ghost predicate OlderBefore(conv: Conversation, r: TurnStart) {
    forall n :: n in conv.items && n < r.first && conv.items[n].turn.Some? ==> conv.items[n].turn.value < r.turn
  }

  // A live conversation agrees with a start recorded on it.
  ghost predicate LinkOk(conv: Conversation, k: StartKey, r: TurnStart) {
    && conv.tenant == k.tenant && conv.owner == k.owner
    && TurnRuns(conv, r.turn, r.body.agent)
    && (Intact(conv, r) ==> Complete(conv, r) && OlderBefore(conv, r))
    && (Intact(conv, r) ==> forall b :: b in conv.batches ==> Apart(conv.batches[b], Batch(r.first, r.last)))
  }

  ghost predicate StartOk(s: State, k: StartKey) {
    k in s.starts ==>
      && RecordOk(s.starts[k], s.nextId)
      && (s.starts[k].conv in s.convs ==> LinkOk(s.convs[s.starts[k].conv], k, s.starts[k]))
  }

  // Two starts never share a turn, and their intact ranges are disjoint.
  ghost predicate StartsApart(s: State, k: StartKey, l: StartKey) {
    k in s.starts && l in s.starts && k != l ==>
      && s.starts[k].turn != s.starts[l].turn
      && (s.starts[k].conv == s.starts[l].conv && s.starts[k].conv in s.convs
          && Intact(s.convs[s.starts[k].conv], s.starts[k]) && Intact(s.convs[s.starts[l].conv], s.starts[l])
          ==> Apart(Batch(s.starts[k].first, s.starts[k].last), Batch(s.starts[l].first, s.starts[l].last)))
  }

  // ---- Continuations ----

  ghost predicate ContinuationOk(s: State, k: ContinuationKey) {
    k in s.continuations ==>
      var made := s.continuations[k];
      && made.id < s.nextId
      && made.conv in s.convs
      && s.convs[made.conv].tenant == k.tenant
      && 0 <= made.through < s.convs[made.conv].next
  }

  // ---- The whole state ----

  // A turn belongs to one conversation.
  ghost predicate TurnsApart(s: State) {
    forall c, d, t :: c in s.convs && d in s.convs && HasTurn(s.convs[c].turns, t) && HasTurn(s.convs[d].turns, t) ==> c == d
  }

  ghost predicate Inv(s: State) {
    && (forall c :: c in s.convs ==> c < s.nextId && ConvOk(s.convs[c], s.nextId, s.files))
    && TurnsApart(s)
    && (forall k :: StartOk(s, k))
    && (forall k, l :: StartsApart(s, k, l))
    && (forall k :: ContinuationOk(s, k))
  }
}
