/** What each ledger request does: when it is refused, with which error, and what it writes.

  The conditions are written out over tables and request; the transactions of LedgerState are only the
  thing they are about. */
module LedgerRequests {
  import opened Wrappers
  import opened LedgerState
  import opened LedgerInvariant
  import opened LedgerSteps
  import opened LedgerHistory
  import opened LedgerTheorems
  import opened LedgerSequence
  import opened LedgerTurns
  import FileUri
  import Json
  import Text

  // ---- Vocabulary ----

  predicate Mine(s: State, a: Actor, c: Id) {
    c in s.convs && s.convs[c].tenant == a.tenant && s.convs[c].owner == a.principal
  }

  // A text of at least one character that is not whitespace.
  predicate Visible(text: string) {
    exists i :: 0 <= i < |text| && !Text.IsWhitespace(text[i])
  }

  predicate Batchable(items: seq<Json.Value>) {
    1 <= |items| && |items| <= 100 && forall i :: 0 <= i < |items| ==> items[i].Object?
  }

  predicate Mentions(payload: Json.Value, f: string) {
    FileUri.CanonicalId(f) && FileUri.UriOf(f) in Json.Strings(payload)
  }

  predicate MentionedIn(payloads: seq<Json.Value>, f: string) {
    exists i :: 0 <= i < |payloads| && Mentions(payloads[i], f)
  }

  predicate MyFile(s: State, a: Actor, f: string) {
    f in s.files && s.files[f] == File(a.tenant, a.principal)
  }

  ghost predicate MayMention(s: State, a: Actor, payloads: seq<Json.Value>) {
    forall f :: MentionedIn(payloads, f) ==> MyFile(s, a, f)
  }

  predicate ReferencedByItem(items: map<int, Item>, f: string) {
    exists n :: n in items && f in items[n].files
  }

  ghost predicate MayReference(s: State, a: Actor, items: map<int, Item>) {
    forall f :: ReferencedByItem(items, f) ==> MyFile(s, a, f)
  }

  predicate HasActive(turns: seq<Turn>) {
    exists i :: 0 <= i < |turns| && (turns[i].status.Pending? || turns[i].status.Streaming?)
  }

  predicate TurnIn(turns: seq<Turn>, t: Id) {
    exists i :: 0 <= i < |turns| && turns[i].id == t
  }

  lemma VisibleText(text: string)
    ensures Visible(text) <==> Text.Trim(text) != ""
  {
    var i, j := Text.TrimCuts(text);
    assert i < j ==> Text.Trim(text)[0] == text[i];
    if Visible(text) {
      var k :| 0 <= k < |text| && !Text.IsWhitespace(text[k]);
      assert i <= k < j;
    }
  }

  lemma MentionedReferences(payloads: seq<Json.Value>)
    ensures forall f :: f in FileUri.BatchReferences(payloads) <==> MentionedIn(payloads, f)
  {
    hide FileUri.References, FileUri.CanonicalId, FileUri.UriOf, Json.Strings;
    forall i | 0 <= i < |payloads| { FileUri.ReferencesAreUris(payloads[i]); }
    forall f | MentionedIn(payloads, f) ensures f in FileUri.BatchReferences(payloads) {
      var i :| 0 <= i < |payloads| && Mentions(payloads[i], f);
      assert f in FileUri.References(payloads[i]);
    }
  }

  lemma OwnedFiles(s: State, a: Actor, payloads: seq<Json.Value>)
    ensures MayMention(s, a, payloads) <==> FilesOwned(s, a, FileUri.BatchReferences(payloads))
  {
    hide FileUri.BatchReferences, MentionedIn;
    MentionedReferences(payloads);
  }

  lemma ConvFilesReferenced(conv: Conversation)
    ensures forall f :: f in ConvFiles(conv) <==> ReferencedByItem(conv.items, f)
  {
    forall f | ReferencedByItem(conv.items, f) ensures f in ConvFiles(conv) {
      var n :| n in conv.items && f in conv.items[n].files;
    }
  }

  function AtOrAbove(text: string, c: char): nat {
    if text == [] then 0 else (if text[0] >= c then 1 else 0) + AtOrAbove(text[1..], c)
  }

  // The length in bytes: one for each character, and one more for each boundary of UTF-8 it has passed.
  lemma {:induction false} Utf8Counts(text: string)
    ensures Utf8Length(text)
         == |text| + AtOrAbove(text, '\U{80}') + AtOrAbove(text, '\U{800}') + AtOrAbove(text, '\U{10000}')
  {
    if text != [] { Utf8Counts(text[1..]); }
  }

  // ---- append_items ----

  predicate AppendValid(r: AppendRequest) {
    Visible(r.key) && Utf8Length(r.key) <= 200 && Batchable(r.items)
  }

  // Which appends are refused, and with which error; a refusal and a retry write nothing.
  lemma AppendOutcome(s: State, a: Actor, c: Id, r: AppendRequest)
    ensures var out := AppendItems(s, a, c, r);
            if !AppendValid(r) then out == Outcome(s, Failure(BadRequest))
            else if !Mine(s, a, c) then out == Outcome(s, Failure(NotFound))
            else if r.key in s.convs[c].batches then out.state == s && out.result.Success? && out.result.value.replayed
            else if r.turn.Some? && !TurnIn(s.convs[c].turns, r.turn.value) then out == Outcome(s, Failure(BadRequest))
            else if !MayMention(s, a, r.items) then out == Outcome(s, Failure(NotFound))
            else if s.convs[c].next + |r.items| > 0x7fff_ffff_ffff_ffff then out == Outcome(s, Failure(SequenceOverflow))
            else out.result.Success? && !out.result.value.replayed
  {
    hide FileUri.BatchReferences, FilesOwned, MayMention, Rows, NewItems, Extend, Text.Trim, Visible, Utf8Length;
    VisibleText(r.key);
    OwnedFiles(s, a, r.items);
  }

  // `later` holds the items of `earlier`, and from number `first` on one new item for each payload.
  ghost predicate Placed(earlier: map<int, Item>, later: map<int, Item>, first: int, base: Id, turn: Option<Id>, source: Source,
                   payloads: seq<Json.Value>)
  {
    && (forall n :: n in later <==> n in earlier || first <= n < first + |payloads|)
    && (forall n :: n in earlier && n < first ==> n in later && later[n] == earlier[n])
    && (forall n :: first <= n < first + |payloads| ==>
          n in later
          && later[n] == Item(base + (n - first), turn, source, payloads[n - first], FileUri.References(payloads[n - first])))
  }

  lemma ItemsBelow(s: State, c: Id)
    requires Inv(s) && c in s.convs
    ensures forall n :: n in s.convs[c].items ==> 1 <= n < s.convs[c].next
  {
    hide StartOk, StartsApart, ContinuationOk, TurnsApart, TurnsOk, BatchesOk, FilesOk;
    assert ConvOk(s.convs[c], s.nextId, s.files);
  }

  // What a first append writes: its items at the end, its batch, and nothing else anywhere.
  lemma AppendWritesExactly(s: State, a: Actor, c: Id, r: AppendRequest)
    requires Inv(s)
    requires AppendItems(s, a, c, r).result.Success? && !AppendItems(s, a, c, r).result.value.replayed
    ensures var after := AppendItems(s, a, c, r).state;
            && c in s.convs && c in after.convs
            && var conv, conv' := s.convs[c], after.convs[c];
            && after == s.(nextId := s.nextId + |r.items|, convs := s.convs[c := conv'])
            && conv' == conv.(items := conv'.items, next := conv.next + |r.items|,
                              batches := conv.batches[r.key := Batch(conv.next, conv.next + |r.items| - 1)])
            && Placed(conv.items, conv'.items, conv.next, s.nextId, r.turn, r.source, r.items)
  {
    hide Inv, FileUri.BatchReferences, FileUri.References, FilesOwned, Rows, AppendOk, HasTurn, Place;
    ItemsBelow(s, c);
    PlaceAt(s.convs[c].items, s.convs[c].next, NewItems(r.items, r.turn, r.source, s.nextId));
  }

  // ---- start_turn ----

  predicate Named(text: string) {
    1 <= |text| && |text| <= 200
  }

  // The title a new conversation gets.
  function TitleOf(title: Option<string>): string {
    Text.Trim(match title case Some(text) => text case None => "New conversation")
  }

  predicate StartValid(r: StartRequest) {
    && Named(Text.Trim(r.key)) && Named(Text.Trim(r.agent)) && Batchable(r.items)
    && (r.conv.Some? <==> r.create.None?)
    && (r.create.Some? ==> r.create.value.metadata.Object? && Named(TitleOf(r.create.value.title)))
  }

  // What is digested and recorded of a valid start: key, agent and title trimmed, a title by default.
  lemma StartNormalised(r: StartRequest)
    ensures NormalStart(r) ==
              if !StartValid(r) then None
              else
                Some(StartRequest(
                       Text.Trim(r.key), r.conv,
                       match r.create
                       case None => None
                       case Some(conv) => Some(NewConversation(Some(TitleOf(conv.title)), conv.metadata)),
                       Text.Trim(r.agent), r.items))
  {
    hide Text.Trim;
  }

  // Which first starts are refused, and with which error; a refusal writes nothing.
  lemma StartOutcome(s: State, auth: Session, request: StartRequest)
    requires NormalStart(request).Some? ==> KeyOf(auth, NormalStart(request).value) !in s.starts
    ensures var out := StartTurn(s, auth, request);
            var existing := request.conv.Some?;
            if !StartValid(request) then out == Outcome(s, Failure(BadRequest))
            else if existing && !Mine(s, auth.actor, request.conv.value) then out == Outcome(s, Failure(NotFound))
            else if existing && HasActive(s.convs[request.conv.value].turns) then out == Outcome(s, Failure(ActiveTurnExists))
            else if !(MayMention(s, auth.actor, request.items)
                      && (existing ==> MayReference(s, auth.actor, s.convs[request.conv.value].items))) then
              out == Outcome(s, Failure(NotFound))
            else
              var next := if existing then s.convs[request.conv.value].next else 1;
              if next + |request.items| > 0x7fff_ffff_ffff_ffff then out == Outcome(s, Failure(SequenceSpaceExhausted))
              else out.result.Success? && !out.result.value.replayed
  {
    hide FileUri.BatchReferences, MayMention, MayReference, StartValid, NewItems, Extend, Text.Trim, NormalStart, StartOn, StartRetry;
    StartNormalised(request);
    if StartValid(request) {
      var r := NormalStart(request).value;
      StartKeeps(request);
      if request.conv.None? {
        StartOnOutcome(s, auth, r, s.nextId, NewConv(auth.actor), s.nextId + 1);
        NothingReferenced(s, auth.actor);
      } else if Mine(s, auth.actor, request.conv.value) {
        StartOnOutcome(s, auth, r, request.conv.value, s.convs[request.conv.value], s.nextId);
      }
    }
  }

  lemma NothingReferenced(s: State, a: Actor)
    ensures MayReference(s, a, map[])
  {
  }

  // A valid request names exactly one of the two, and normalising keeps items and conversation.
  lemma StartKeeps(request: StartRequest)
    requires StartValid(request) && NormalStart(request).Some?
    ensures NormalStart(request).value.conv == request.conv && NormalStart(request).value.items == request.items
  {
    hide StartValid, NormalStart;
    StartNormalised(request);
  }

  lemma StartOnOutcome(s: State, auth: Session, r: StartRequest, c: Id, conv: Conversation, t: Id)
    ensures var out := StartOn(s, auth, r, c, conv, t);
            if HasActive(conv.turns) then out == Outcome(s, Failure(ActiveTurnExists))
            else if !(MayMention(s, auth.actor, r.items) && MayReference(s, auth.actor, conv.items)) then
              out == Outcome(s, Failure(NotFound))
            else if conv.next + |r.items| > 0x7fff_ffff_ffff_ffff then out == Outcome(s, Failure(SequenceSpaceExhausted))
            else out.result.Success? && !out.result.value.replayed
  {
    hide FileUri.BatchReferences, FilesOwned, MayMention, MayReference, NewItems, Extend, ConvFiles, ItemIds, StartItems, KeyOf, BodyOf;
    OwnedFiles(s, auth.actor, r.items);
    OwnedReferences(s, auth.actor, conv);
    FilesOwnedUnion(s, auth.actor, ConvFiles(conv), FileUri.BatchReferences(r.items));
  }

  lemma OwnedReferences(s: State, a: Actor, conv: Conversation)
    ensures MayReference(s, a, conv.items) <==> FilesOwned(s, a, ConvFiles(conv))
  {
    hide ConvFiles, ReferencedByItem;
    ConvFilesReferenced(conv);
  }

  lemma FilesOwnedUnion(s: State, a: Actor, some: set<string>, more: set<string>)
    ensures FilesOwned(s, a, some + more) <==> FilesOwned(s, a, some) && FilesOwned(s, a, more)
  {
    assert forall f :: f in some || f in more ==> f in some + more;
  }

  // What a first start writes: the turn, its items at the end of the transcript, the record, and, if it
  // was asked to, a new conversation; nothing else anywhere.
  lemma StartWritesExactly(s: State, auth: Session, request: StartRequest)
    requires Inv(s)
    requires StartTurn(s, auth, request).result.Success? && !StartTurn(s, auth, request).result.value.replayed
    ensures var out := StartTurn(s, auth, request);
            var after, reply := out.state, out.result.value;
            var count := |request.items|;
            && reply.conv in after.convs && NormalStart(request).Some?
            && var k := StartKey(auth.actor.tenant, auth.actor.principal, auth.client, Text.Trim(request.key));
            && var conv := after.convs[reply.conv];
            && var before := if request.conv.Some? then s.convs[request.conv.value]
                             else Conversation(auth.actor.tenant, auth.actor.principal, 1, map[], map[], []);
            && (if request.conv.Some? then reply.conv == request.conv.value && reply.turn == s.nextId
                else reply.conv == s.nextId && reply.turn == s.nextId + 1)
            && reply.first == before.next && reply.last == before.next + count - 1
            && reply.items == seq(count, i => reply.turn + 1 + i)
            && k in after.starts && after == s.(nextId := reply.turn + 1 + count, convs := s.convs[reply.conv := conv],
                          starts := s.starts[k := after.starts[k]])
            && conv == before.(items := conv.items, next := before.next + count, turns := conv.turns)
            && Placed(before.items, conv.items, before.next, reply.turn + 1, Some(reply.turn), User, request.items)
            && |conv.turns| == |before.turns| + 1 && conv.turns[..|before.turns|] == before.turns
            && var turn := conv.turns[|before.turns|];
               turn == Turn(reply.turn, Text.Trim(request.agent), None, Pending, turn.snapshot)
  {
    hide Inv, FileUri.BatchReferences, FileUri.References, NormalStart, StartOn, StartValid, Text.Trim, Placed;
    StartNormalised(request);
    var r := NormalStart(request).value;
    var t := if r.conv.Some? then s.nextId else s.nextId + 1;
    StartKeeps(request);
    if r.conv.None? {
      StartOnWrites(s, auth, r, s.nextId, NewConv(auth.actor), t);
    } else {
      ItemsBelow(s, r.conv.value);
      StartOnWrites(s, auth, r, r.conv.value, s.convs[r.conv.value], t);
    }
  }

  lemma StartOnWrites(s: State, auth: Session, r: StartRequest, c: Id, conv: Conversation, t: Id)
    requires StartOn(s, auth, r, c, conv, t).result.Success?
    requires forall n :: n in conv.items ==> n < conv.next
    ensures var out := StartOn(s, auth, r, c, conv, t);
            var after, reply, count := out.state, out.result.value, |r.items|;
            && reply == StartReply(c, t, seq(count, i => t + 1 + i), conv.next, conv.next + count - 1, false)
            && c in after.convs && KeyOf(auth, r) in after.starts
            && var conv' := after.convs[c];
            && after == s.(nextId := t + 1 + count, convs := s.convs[c := conv'],
                           starts := s.starts[KeyOf(auth, r) := after.starts[KeyOf(auth, r)]])
            && conv' == conv.(items := conv'.items, next := conv.next + count, turns := conv'.turns)
            && Placed(conv.items, conv'.items, conv.next, t + 1, Some(t), User, r.items)
            && |conv'.turns| == |conv.turns| + 1 && conv'.turns[..|conv.turns|] == conv.turns
            && var turn := conv'.turns[|conv.turns|];
               turn == Turn(t, r.agent, None, Pending, turn.snapshot)
  {
    hide FileUri.BatchReferences, FileUri.References, FilesOwned, ActiveExists, Place, ConvFiles, KeyOf, BodyOf;
    PlaceAt(conv.items, conv.next, NewItems(r.items, Some(t), User, t + 1));
    assert StartOn(s, auth, r, c, conv, t).result.value.items == seq(|r.items|, i => t + 1 + i);
  }

  // A start record answers nobody but the same caller, through the same client and under the same key:
  // for any other request the outcome is the same with the record as without, and the record stays.
  lemma RecordUnseen(s: State, auth: Session, request: StartRequest, k: StartKey)
    requires k != StartKey(auth.actor.tenant, auth.actor.principal, auth.client, Text.Trim(request.key))
    ensures var out := StartTurn(s, auth, request);
            var without := StartTurn(s.(starts := s.starts - {k}), auth, request);
            && out.result == without.result
            && without.state == out.state.(starts := out.state.starts - {k})
            && (k in s.starts <==> k in out.state.starts)
            && (k in s.starts ==> out.state.starts[k] == s.starts[k])
  {
    hide StartOn, StartRetry, NormalStart, Text.Trim;
    NormalKey(request);
    if NormalStart(request).Some? {
      var r := NormalStart(request).value;
      if KeyOf(auth, r) in s.starts {
        RetryUnseen(s, auth, r, s.starts[KeyOf(auth, r)], k);
      } else if r.conv.None? {
        StartOnUnseen(s, auth, r, s.nextId, NewConv(auth.actor), s.nextId + 1, k);
      } else if Owned(s, auth.actor, r.conv.value) {
        StartOnUnseen(s, auth, r, r.conv.value, s.convs[r.conv.value], s.nextId, k);
      }
    }
  }

  lemma NormalKey(request: StartRequest)
    ensures NormalStart(request).Some? ==> NormalStart(request).value.key == Text.Trim(request.key)
  {
    hide Text.Trim, PayloadsOk;
  }

  lemma RetryUnseen(s: State, auth: Session, r: StartRequest, stored: TurnStart, k: StartKey)
    ensures StartRetry(s.(starts := s.starts - {k}), auth, r, stored) == StartRetry(s, auth, r, stored)
  {
    hide OrdinalTest, BodyOf, ItemIds;
  }

  lemma StartOnUnseen(s: State, auth: Session, r: StartRequest, c: Id, conv: Conversation, t: Id, k: StartKey)
    requires k != KeyOf(auth, r)
    ensures var out := StartOn(s, auth, r, c, conv, t);
            var without := StartOn(s.(starts := s.starts - {k}), auth, r, c, conv, t);
            && out.result == without.result
            && without.state == out.state.(starts := out.state.starts - {k})
            && (k in s.starts <==> k in out.state.starts)
            && (k in s.starts ==> out.state.starts[k] == s.starts[k])
  {
    hide FileUri.BatchReferences, ConvFiles, ActiveExists, NewItems, Extend, BodyOf, StartItems, ItemIds, KeyOf;
  }

  // Once a key was used, any other request under it is refused and changes nothing, after any run: as not
  // found exactly when it names a conversation the caller does not own, and otherwise as a key reused.
  lemma KeyReuseRefused(s: State, auth: Session, request: StartRequest, events: seq<Event>, again: StartRequest)
    requires Inv(s)
    requires StartTurn(s, auth, request).result.Success? && !StartTurn(s, auth, request).result.value.replayed
    requires NormalStart(again).Some? && NormalStart(again).value.key == NormalStart(request).value.key
    requires var n, m := NormalStart(request).value, NormalStart(again).value;
             m.conv != n.conv || m.create != n.create || m.agent != n.agent || m.items != n.items
    ensures var after := Run(StartTurn(s, auth, request).state, events);
            StartTurn(after, auth, again) ==
              Outcome(after, Failure(if again.conv.Some? && !Mine(after, auth.actor, again.conv.value) then NotFound else KeyReused))
  {
    hide Inv, Run, NormalStart, Intact, Text.Trim;
    FirstStart(s, auth, request);
    var first := StartTurn(s, auth, request);
    StartsPersist(first.state, events, KeyOf(auth, NormalStart(request).value));
    StartNormalised(again);
    StartKeeps(again);
  }

  // ---- create_turn ----

  predicate KeyIn(turns: seq<Turn>, key: string) {
    exists i :: 0 <= i < |turns| && turns[i].key == Some(key)
  }

  // Which creations under an unused key are refused, and with which error; a refusal writes nothing.
  lemma CreateTurnOutcome(s: State, a: Actor, c: Id, r: TurnRequest)
    ensures var out := CreateTurn(s, a, c, r);
            if !Mine(s, a, c) then out == Outcome(s, Failure(NotFound))
            else if KeyIn(s.convs[c].turns, r.key) then out.state == s
            else if !(Named(Text.Trim(r.agent)) && Visible(r.key) && |r.key| <= 200) then out == Outcome(s, Failure(BadRequest))
            else if HasActive(s.convs[c].turns) then out == Outcome(s, Failure(ActiveTurnExists))
            else if !MayReference(s, a, s.convs[c].items) then out == Outcome(s, Failure(NotFound))
            else out.result.Success? && out.state != s
  {
    hide FilesOwned, MayReference, ConvFiles, Text.Trim, TurnByKey, Visible;
    VisibleText(r.key);
    if Mine(s, a, c) {
      TurnByKeyFinds(s.convs[c].turns, r.key);
      OwnedReferences(s, a, s.convs[c]);
    }
  }

  // A turn that was made is the last one, with a new id, the trimmed agent, the request's key, pending,
  // and with a snapshot of exactly the files that some item of the conversation references.
  lemma CreateTurnWritesExactly(s: State, a: Actor, c: Id, r: TurnRequest)
    requires Inv(s) && CreateTurn(s, a, c, r).result.Success?
    requires c in s.convs ==> !KeyIn(s.convs[c].turns, r.key)
    ensures var out := CreateTurn(s, a, c, r);
            var made := out.result.value;
            && c in s.convs
            && made == Turn(s.nextId, Text.Trim(r.agent), Some(r.key), Pending, made.snapshot)
            && (forall f :: f in made.snapshot <==> ReferencedByItem(s.convs[c].items, f))
            && (forall d :: d in s.convs ==> !TurnIn(s.convs[d].turns, made.id))
            && out.state == s.(nextId := s.nextId + 1,
                               convs := s.convs[c := s.convs[c].(turns := s.convs[c].turns + [made])])
  {
    hide Inv, FilesOwned, ConvFiles, Text.Trim, TurnByKey, NameOk, ReferencedByItem;
    TurnByKeyFinds(s.convs[c].turns, r.key);
    ConvFilesReferenced(s.convs[c]);
    forall d | d in s.convs ensures !TurnIn(s.convs[d].turns, s.nextId) { TurnIdsOld(s, d); }
  }

  lemma TurnIdsOld(s: State, c: Id)
    requires Inv(s) && c in s.convs
    ensures forall i :: 0 <= i < |s.convs[c].turns| ==> s.convs[c].turns[i].id < s.nextId
  {
    hide StartOk, StartsApart, ContinuationOk, TurnsApart, ItemsOk, BatchesOk, FilesOk;
    assert ConvOk(s.convs[c], s.nextId, s.files);
  }

  // What a turn's snapshot names can never be removed while the conversation stands, whatever happens
  // to the items that referenced it.
  lemma SnapshotProtects(s: State, events: seq<Event>, c: Id, i: nat, f: string, a: Actor)
    requires Inv(s) && c in s.convs && i < |s.convs[c].turns| && f in s.convs[c].turns[i].snapshot
    requires !DeletedSince(s, events, c)
    ensures var after := Run(s, events);
            && f in after.files && after.files[f] == File(s.convs[c].tenant, s.convs[c].owner)
            && RemoveFile(after, a, f) ==
                 Outcome(after, Failure(if after.files[f] == File(a.tenant, a.principal) then Conflict else NotFound))
  {
    hide Run, StartOk, StartsApart, ContinuationOk, TurnsApart, ItemsOk, BatchesOk, TurnsOk, DeletedSince;
    TurnsFrozen(s, events, c);
    RunKeeps(s, events);
    var after := Run(s, events);
    assert f in after.convs[c].turns[i].snapshot;
    assert ReferencedIn(after.convs[c], f);
    assert ConvOk(after.convs[c], after.nextId, after.files);
  }

  // So a file referenced when a turn was created stays, after any run that does not delete the conversation.
  lemma CreatedTurnProtects(s: State, a: Actor, c: Id, r: TurnRequest, events: seq<Event>, f: string, b: Actor)
    requires Inv(s) && CreateTurn(s, a, c, r).result.Success?
    requires c in s.convs && !KeyIn(s.convs[c].turns, r.key) && ReferencedByItem(s.convs[c].items, f)
    requires !DeletedSince(CreateTurn(s, a, c, r).state, events, c)
    ensures var after := Run(CreateTurn(s, a, c, r).state, events);
            f in after.files && RemoveFile(after, b, f).state == after && RemoveFile(after, b, f).result.Failure?
  {
    hide Inv, Run, DeletedSince, ReferencedByItem, KeyIn, CreateTurn, RemoveFile;
    CreateTurnWritesExactly(s, a, c, r);
    CreateTurnKeeps(s, a, c, r);
    SnapshotProtects(CreateTurn(s, a, c, r).state, events, c, |s.convs[c].turns|, f, b);
  }
}
