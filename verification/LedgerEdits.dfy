/** What the ledger's other requests do: cutting, regenerating, deleting, continuations and files. */
module LedgerEdits {
  import opened Wrappers
  import opened LedgerState
  import opened LedgerInvariant
  import opened LedgerRequests
  import Text

  // ---- truncate, regenerate, delete, create ----

  // `later` lacks the continuations of conversation c that reach number n, and only those.
  predicate EndedFrom(earlier: map<ContinuationKey, Continuation>, later: map<ContinuationKey, Continuation>, c: Id, n: int) {
    && (forall k :: k in earlier ==> (k in later <==> earlier[k].conv != c || earlier[k].through < n))
    && (forall k :: k in later ==> k in earlier && later[k] == earlier[k])
  }

  // `later` lacks the continuations of conversation c, and only those.
  predicate EndedAll(earlier: map<ContinuationKey, Continuation>, later: map<ContinuationKey, Continuation>, c: Id) {
    && (forall k :: k in earlier ==> (k in later <==> earlier[k].conv != c))
    && (forall k :: k in later ==> k in earlier && later[k] == earlier[k])
  }

  // An owner who names an item of the conversation cuts it there: the items and batches below stay, the
  // number is handed out next, and continuations that reach it end. Anything else is not found.
  lemma TruncateExactly(s: State, a: Actor, c: Id, item: Id, n: int)
    requires Inv(s)
    ensures !Mine(s, a, c) || !HasId(s.convs[c].items, item) ==> Truncate(s, a, c, item) == Outcome(s, Failure(NotFound))
    ensures Mine(s, a, c) && n in s.convs[c].items && s.convs[c].items[n].id == item ==>
              var out := Truncate(s, a, c, item);
              && out.result == Success(())
              && c in out.state.convs
              && var conv, conv' := s.convs[c], out.state.convs[c];
              && out.state == s.(convs := s.convs[c := conv'], continuations := out.state.continuations)
              && conv' == conv.(items := conv'.items, batches := conv'.batches, next := n)
              && (forall m :: m in conv'.items <==> m in conv.items && m < n)
              && (forall m :: m in conv'.items ==> conv'.items[m] == conv.items[m])
              && (forall k :: k in conv'.batches <==> k in conv.batches && conv.batches[k].last < n)
              && (forall k :: k in conv'.batches ==> conv'.batches[k] == conv.batches[k])
              && EndedFrom(s.continuations, out.state.continuations, c, n)
  {
    hide StartOk, StartsApart, ContinuationOk, TurnsApart, TurnsOk, BatchesOk, FilesOk;
    if c in s.convs { assert ConvOk(s.convs[c], s.nextId, s.files); }
  }

  // An owner's regeneration removes the agent's items of the latest turn and every continuation of the
  // conversation, keeps everything else, next number included, and answers that turn's id; without a turn
  // it does nothing.
  lemma RegenerateExactly(s: State, a: Actor, c: Id)
    ensures var out := Regenerate(s, a, c);
            if !Mine(s, a, c) then out == Outcome(s, Failure(NotFound))
            else if s.convs[c].turns == [] then out == Outcome(s, Success(None))
            else
              var conv := s.convs[c];
              var latest := conv.turns[|conv.turns| - 1].id;
              && out.result == Success(Some(latest))
              && c in out.state.convs
              && var conv' := out.state.convs[c];
              && out.state == s.(convs := s.convs[c := conv'], continuations := out.state.continuations)
              && conv' == conv.(items := conv'.items)
              && (forall m :: m in conv'.items <==>
                    m in conv.items && !(conv.items[m].turn == Some(latest) && conv.items[m].source == Agent))
              && (forall m :: m in conv'.items ==> conv'.items[m] == conv.items[m])
              && EndedAll(s.continuations, out.state.continuations, c)
  {
  }

  // An owner's deletion takes the conversation and its continuations, and leaves the start records.
  lemma DeleteExactly(s: State, a: Actor, c: Id)
    ensures var out := DeleteConversation(s, a, c);
            if !Mine(s, a, c) then out == Outcome(s, Failure(NotFound))
            else
              && out.result == Success(())
              && out.state == s.(convs := out.state.convs, continuations := out.state.continuations)
              && (forall d :: d in out.state.convs <==> d in s.convs && d != c)
              && (forall d :: d in out.state.convs ==> out.state.convs[d] == s.convs[d])
              && EndedAll(s.continuations, out.state.continuations, c)
  {
  }

  // A new conversation has a new id, belongs to its creator and is empty.
  lemma CreateConversationExactly(s: State, a: Actor)
    requires Inv(s)
    ensures var out := CreateConversation(s, a);
            && out.result == Success(s.nextId) && s.nextId !in s.convs
            && out.state == s.(nextId := s.nextId + 1,
                               convs := s.convs[s.nextId := Conversation(a.tenant, a.principal, 1, map[], map[], [])])
  {
    hide StartOk, StartsApart, ContinuationOk, TurnsApart, ConvOk;
  }

  // ---- update_turn ----

  // A turn that is in no conversation of the caller is not found.
  lemma UpdateTurnNotFound(s: State, a: Actor, t: Id, status: Status)
    requires forall c :: Mine(s, a, c) ==> !TurnIn(s.convs[c].turns, t)
    ensures UpdateTurn(s, a, t, status) == Outcome(s, Failure(NotFound))
  {
    forall c | c in s.convs && Owned(s, a, c) ensures !HasTurn(s.convs[c].turns, t) { assert Mine(s, a, c); }
  }

  // ---- create_continuation ----

  // When a continuation is recorded, and which error says why it is not.
  lemma ContinuationOutcome(s: State, a: Actor, c: Id, r: ContinuationRequest)
    ensures var out := CreateContinuation(s, a, c, r);
            if !Mine(s, a, c) then out == Outcome(s, Failure(NotFound))
            else if !Visible(r.agent) || !Visible(r.response) then out == Outcome(s, Failure(BadRequest))
            else
              var through := match r.through case Some(n) => n case None => s.convs[c].next - 1;
              var k := ContinuationKey(a.tenant, r.agent, r.response);
              if !(0 <= through < s.convs[c].next) then out == Outcome(s, Failure(BadRequest))
              else if k in s.continuations then out == Outcome(s, Failure(Conflict))
              else
                out == Outcome(s.(nextId := s.nextId + 1, continuations := s.continuations[k := Continuation(s.nextId, c, through)]),
                               Success(Continuation(s.nextId, c, through)))
  {
    hide Visible, Text.Trim;
    VisibleText(r.agent);
    VisibleText(r.response);
  }

  // ---- Files ----

  // A file row is inserted once under an id and belongs to its creator.
  lemma SaveFileExactly(s: State, a: Actor, f: string)
    ensures var out := SaveFile(s, a, f);
            if f in s.files then out == Outcome(s, Failure(UniqueViolation))
            else out.result == Success(()) && out.state == s.(files := s.files[f := File(a.tenant, a.principal)])
  {
  }

  // A removal that succeeds takes that file row and changes nothing else; any other changes nothing.
  lemma RemoveFileExactly(s: State, a: Actor, f: string)
    ensures var out := RemoveFile(s, a, f);
            if out.result.Success? then
              && f in s.files && f !in out.state.files
              && out.state == s.(files := out.state.files)
              && (forall g :: g in out.state.files <==> g in s.files && g != f)
              && (forall g :: g in out.state.files ==> out.state.files[g] == s.files[g])
            else out == Outcome(s, Failure(if MyFile(s, a, f) then Conflict else NotFound))
  {
    hide Referenced;
  }
}
