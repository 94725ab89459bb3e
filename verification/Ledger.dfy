/** The ledger's transactions, statement by statement.

  A refused request leaves the tables as they were: the transaction is dropped, which `Rollback` undoes. */
module Ledger {
  import opened Wrappers
  import opened LedgerState
  import opened LedgerInvariant
  import opened LedgerSteps
  import opened LedgerTheorems
  import AgentProjection
  import FileUri
  import Json
  import Text

  // One more item at the end of a placed batch.
  lemma PlaceNext(items: map<int, Item>, first: int, added: seq<Item>, item: Item)
    ensures Place(items, first, added + [item]) == Place(items, first, added)[first + |added| := item]
  {
    var longer := Place(items, first, added + [item]);
    var shorter := Place(items, first, added)[first + |added| := item];
    assert forall n :: first <= n < first + |added| + 1 ==> Slot(added + [item], first, n) == (added + [item])[n - first];
    assert forall n :: first <= n < first + |added| ==> Slot(added, first, n) == added[n - first];
    assert longer.Keys == shorter.Keys;
  }

  // The state after the insert loop, before `next_seq` is written.
  function Inserted(s: State, c: Id, first: int, turn: Option<Id>, source: Source, payloads: seq<Json.Value>): State
    requires c in s.convs
  {
    Put(s, c, s.convs[c].(items := Place(s.convs[c].items, first, NewItems(payloads, turn, source, s.nextId))))
      .(nextId := s.nextId + |payloads|)
  }

  // The statements of a first append, one after the other.
  function Appended(s: State, c: Id, r: AppendRequest): State
    requires c in s.convs
  {
    var first := s.convs[c].next;
    var last := first + |r.items| - 1;
    var s1 := Inserted(s, c, first, r.turn, r.source, r.items);
    var s2 := Put(s1, c, s1.convs[c].(batches := s1.convs[c].batches[r.key := Batch(first, last)]));
    Put(s2, c, s2.convs[c].(next := last + 1))
  }

  lemma AppendBySteps(s: State, a: Actor, c: Id, r: AppendRequest)
    requires AppendOk(r) && Owned(s, a, c) && r.key !in s.convs[c].batches
    requires r.turn.Some? ==> HasTurn(s.convs[c].turns, r.turn.value)
    requires FilesOwned(s, a, FileUri.BatchReferences(r.items))
    requires s.convs[c].next + |r.items| <= MAX_SEQ
    ensures var first := s.convs[c].next;
            var after := Appended(s, c, r);
            && c in after.convs
            && LedgerState.AppendItems(s, a, c, r) ==
              Outcome(after, Success(AppendReply(Rows(after.convs[c].items, first, first + |r.items| - 1), false)))
  {
    hide FileUri.References, FileUri.BatchReferences, FilesOwned, AppendOk, HasTurn, Rows, NewItems, Place;
    var out := LedgerState.AppendItems(s, a, c, r).state.convs;
    assert out == s.convs[c := out[c]];
  }

  // What an append answers when it writes nothing.
  lemma AppendRefusals(s: State, a: Actor, c: Id, r: AppendRequest)
    ensures var out := LedgerState.AppendItems(s, a, c, r);
      && (!AppendOk(r) ==> out == Outcome(s, Failure(BadRequest)))
      && (AppendOk(r) && !Owned(s, a, c) ==> out == Outcome(s, Failure(NotFound)))
      && (AppendOk(r) && Owned(s, a, c) ==>
            var conv := s.convs[c];
            if r.key in conv.batches then
              var b := conv.batches[r.key];
              out == Outcome(s, Success(AppendReply(Rows(conv.items, b.first, b.last), true)))
            else if r.turn.Some? && !HasTurn(conv.turns, r.turn.value) then out == Outcome(s, Failure(BadRequest))
            else if !FilesOwned(s, a, FileUri.BatchReferences(r.items)) then out == Outcome(s, Failure(NotFound))
            else conv.next + |r.items| > MAX_SEQ ==> out == Outcome(s, Failure(SequenceOverflow)))
  {
    hide FileUri.BatchReferences, FilesOwned, AppendOk, Rows, HasTurn, Extend, NewItems;
  }

  class Tables {
    var nextId: Id
    var convs: map<Id, Conversation>
    var starts: map<StartKey, TurnStart>
    var continuations: map<ContinuationKey, Continuation>
    var files: map<string, File>

    function Contents(): State
      reads this
    {
      State(nextId, convs, starts, continuations, files)
    }

    ghost predicate Valid()
      reads this
    {
      Inv(Contents())
    }

    constructor ()
      ensures Valid() && Contents() == EMPTY
    {
      nextId, convs, starts, continuations, files := 1, map[], map[], map[], map[];
      new;
      EmptyInv();
    }

    method Rollback(begin: State)
      modifies this
      ensures Contents() == begin
    {
      nextId, convs, starts := begin.nextId, begin.convs, begin.starts;
      continuations, files := begin.continuations, begin.files;
    }

    method NewId() returns (id: Id)
      modifies this`nextId
      ensures id == old(nextId) && nextId == old(nextId) + 1
    {
      id := nextId;
      nextId := nextId + 1;
    }

    // The insert loop that append and start share: one item row a payload, with its reference rows.
    method InsertItems(c: Id, first: int, turn: Option<Id>, source: Source, payloads: seq<Json.Value>)
      returns (ids: seq<Id>)
      requires c in convs
      modifies this`nextId, this`convs
      ensures var added := NewItems(payloads, turn, source, old(nextId));
              && Contents() == Inserted(old(Contents()), c, first, turn, source, payloads)
              && |ids| == |payloads| && forall i :: 0 <= i < |ids| ==> ids[i] == old(nextId) + i
    {
      hide FileUri.References, Place;
      ids := [];
      ghost var added := NewItems(payloads, turn, source, nextId);
      assert Place(convs[c].items, first, []) == convs[c].items by { PlaceNone(convs[c].items, first); }
      for offset := 0 to |payloads|
        invariant nextId == old(nextId) + offset && c in convs
        invariant convs == old(convs)[c := old(convs[c]).(items := Place(old(convs[c].items), first, added[..offset]))]
        invariant |ids| == offset && forall i :: 0 <= i < offset ==> ids[i] == old(nextId) + i
      {
        var referenced := FileUri.ReferencedFileIds(payloads[offset]);
        var id := NewId();
        var rows: set<string> := {};
        for i := 0 to |referenced|
          invariant rows == set f | f in referenced[..i]
        {
          rows := rows + {referenced[i]};
          assert referenced[..i + 1] == referenced[..i] + [referenced[i]];
        }
        assert referenced[..|referenced|] == referenced;
        assert rows == FileUri.References(payloads[offset]);
        var item := Item(id, turn, source, payloads[offset], rows);
        PlaceNext(old(convs[c].items), first, added[..offset], item);
        assert added[..offset + 1] == added[..offset] + [item];
        convs := convs[c := convs[c].(items := convs[c].items[first + offset := item])];
        ids := ids + [id];
      }
      assert added[..|payloads|] == added;
    }

    method AppendItems(a: Actor, c: Id, r: AppendRequest) returns (result: Result<AppendReply, Error>)
      requires Valid()
      modifies this
      ensures Valid() && Outcome(Contents(), result) == LedgerState.AppendItems(old(Contents()), a, c, r)
    {
      hide Inv;
      ghost var begin := Contents();
      hide LedgerState.AppendItems, Appended, FileUri.BatchReferences, FilesOwned, AppendOk, Rows, HasTurn;
      AppendKeeps(begin, a, c, r);
      AppendRefusals(begin, a, c, r);
      if !AppendOk(r) { return Failure(BadRequest); }
      if !Owned(Contents(), a, c) { return Failure(NotFound); }
      var conv := convs[c];
      if r.key in conv.batches {
        var b := conv.batches[r.key];
        return Success(AppendReply(Rows(conv.items, b.first, b.last), true));
      }
      if r.turn.Some? && !HasTurn(conv.turns, r.turn.value) { return Failure(BadRequest); }
      var allOwned := LockReferences(a, r.items);
      if !allOwned { return Failure(NotFound); }
      if conv.next + |r.items| > MAX_SEQ { return Failure(SequenceOverflow); }
      AppendBySteps(begin, a, c, r);
      WriteBatch(c, r);
      var first := conv.next;
      result := Success(AppendReply(Rows(convs[c].items, first, first + |r.items| - 1), false));
    }

    // The writes of a first append: items, batch row, next number.
    method WriteBatch(c: Id, r: AppendRequest)
      requires c in convs
      modifies this
      ensures Contents() == Appended(old(Contents()), c, r)
    {
      hide Place, NewItems;
      var first := convs[c].next;
      var last := first + |r.items| - 1;
      var _ := InsertItems(c, first, r.turn, r.source, r.items);
      convs := convs[c := convs[c].(batches := convs[c].batches[r.key := Batch(first, last)])];
      convs := convs[c := convs[c].(next := last + 1)];
    }

    // Locks every referenced file of the actor in turn; false when one is missing.
    method LockReferences(a: Actor, payloads: seq<Json.Value>) returns (found: bool)
      ensures found <==> FilesOwned(Contents(), a, FileUri.BatchReferences(payloads))
    {
      for i := 0 to |payloads|
        invariant forall j, f :: 0 <= j < i && f in FileUri.References(payloads[j]) ==>
                    f in files && files[f] == File(a.tenant, a.principal)
      {
        var ids := FileUri.ReferencedFileIds(payloads[i]);
        for j := 0 to |ids|
          invariant forall k :: 0 <= k < j ==> ids[k] in files && files[ids[k]] == File(a.tenant, a.principal)
        {
          if ids[j] !in files || files[ids[j]] != File(a.tenant, a.principal) {
            assert ids[j] in FileUri.References(payloads[i]);
            assert ids[j] in FileUri.BatchReferences(payloads);
            return false;
          }
        }
        forall f | f in FileUri.References(payloads[i])
          ensures f in files && files[f] == File(a.tenant, a.principal)
        {
          assert f in ids;
        }
      }
      return true;
    }

    // The cardinality check of lock_turn_files: as many owned files are found as are referenced.
    method LockTurnFiles(a: Actor, c: Id, extra: set<string>) returns (found: bool)
      requires c in convs
      ensures found <==> FilesOwned(Contents(), a, ConvFiles(convs[c]) + extra)
    {
      var wanted := ConvFiles(convs[c]) + extra;
      var locked := set f | f in wanted && f in files && files[f] == File(a.tenant, a.principal);
      found := |locked| == |wanted|;
      assert locked <= wanted;
      if locked != wanted {
        var f :| f in wanted && f !in locked;
        SubsetSmaller(locked, wanted, f);
      }
    }

    method StartTurn(auth: Session, request: StartRequest) returns (result: Result<StartReply, Error>)
      requires Valid()
      modifies this
      ensures Valid() && Outcome(Contents(), result) == LedgerState.StartTurn(old(Contents()), auth, request)
    {
      hide Inv;
      var begin := Contents();
      hide LedgerState.StartOn, StartRetry, NormalStart;
      StartTurnKeeps(begin, auth, request);
      var normal := NormalStart(request);
      if normal.None? { return Failure(BadRequest); }
      var r := normal.value;
      var k := KeyOf(auth, r);
      if k in starts { return StartRetry(Contents(), auth, r, starts[k]); }
      var c: Id;
      if r.conv.Some? {
        c := r.conv.value;
        if !Owned(Contents(), auth.actor, c) { return Failure(NotFound); }
      } else {
        StartOnFresh(begin, auth, r);
        c := NewId();
        convs := convs[c := NewConv(auth.actor)];
      }
      result := StartOn(auth, r, c);
      if result.Failure? { Rollback(begin); }
    }

    // The part of a start that follows the lock, or the creation, of its conversation.
    method StartOn(auth: Session, r: StartRequest, c: Id) returns (result: Result<StartReply, Error>)
      requires c in convs
      modifies this
      ensures Outcome(if result.Success? then Contents() else old(Contents()), result)
              == LedgerState.StartOn(old(Contents()), auth, r, c, old(convs[c]), old(nextId))
    {
      hide ActiveExists, ConvFiles, FileUri.BatchReferences, FilesOwned;
      if ActiveExists(convs[c].turns) { return Failure(ActiveTurnExists); }
      var found := LockTurnFiles(auth.actor, c, FileUri.BatchReferences(r.items));
      if !found { return Failure(NotFound); }
      StartBySteps(Contents(), auth, r, c);
      if convs[c].next + |r.items| > MAX_SEQ { return Failure(SequenceSpaceExhausted); }
      result := WriteStart(auth, r, c);
    }

    // The writes of a start: turn and snapshot, items, next number, start record with its children.
    method WriteStart(auth: Session, r: StartRequest, c: Id) returns (result: Result<StartReply, Error>)
      requires c in convs
      modifies this
      ensures Contents() == Started(old(Contents()), auth, r, c).state
      ensures result == Started(old(Contents()), auth, r, c).result
    {
      hide Place, NewItems, ConvFiles;
      ghost var begin := Contents();
      var first := convs[c].next;
      var last := first + |r.items| - 1;
      var t := NewId();
      var snapshot := ConvFiles(convs[c]);
      convs := convs[c := convs[c].(turns := convs[c].turns + [Turn(t, r.agent, None, Pending, snapshot)])];
      var ids := InsertItems(c, first, Some(t), User, r.items);
      convs := convs[c := convs[c].(next := last + 1)];
      var children: seq<StartItem> := [];
      for ordinal := 0 to |ids|
        invariant |children| == ordinal
        invariant forall i :: 0 <= i < ordinal ==> children[i] == StartItem(i, ids[i], first + i)
      {
        children := children + [StartItem(ordinal, ids[ordinal], first + ordinal)];
      }
      assert children == StartItems(first, t + 1, |r.items|);
      assert ids == ItemIds(children);
      starts := starts[KeyOf(auth, r) := TurnStart(BodyOf(r), c, t, first, last, children)];
      result := Success(StartReply(c, t, ids, first, last, false));
    }

    method CreateConversation(a: Actor) returns (c: Id)
      requires Valid()
      modifies this
      ensures Valid() && Outcome(Contents(), Success(c)) == LedgerState.CreateConversation(old(Contents()), a)
    {
      hide Inv;
      CreateConversationKeeps(Contents(), a);
      c := NewId();
      convs := convs[c := NewConv(a)];
    }

    method CreateTurn(a: Actor, c: Id, r: TurnRequest) returns (result: Result<Turn, Error>)
      requires Valid()
      modifies this
      ensures Valid() && Outcome(Contents(), result) == LedgerState.CreateTurn(old(Contents()), a, c, r)
    {
      hide Inv;
      CreateTurnKeeps(Contents(), a, c, r);
      hide ActiveExists, ConvFiles, FilesOwned, Text.Trim, NameOk;
      if !Owned(Contents(), a, c) { return Failure(NotFound); }
      var agent := Text.Trim(r.agent);
      var existing := TurnByKey(convs[c].turns, r.key);
      if existing.Some? {
        if existing.value.agent != r.agent && existing.value.agent != agent { return Failure(KeyReused); }
        return Success(existing.value);
      }
      if !NameOk(agent) || Text.Trim(r.key) == "" || |r.key| > 200 { return Failure(BadRequest); }
      if ActiveExists(convs[c].turns) { return Failure(ActiveTurnExists); }
      var found := LockTurnFiles(a, c, {});
      assert ConvFiles(convs[c]) + {} == ConvFiles(convs[c]);
      if !found { return Failure(NotFound); }
      var id := NewId();
      var turn := Turn(id, agent, Some(r.key), Pending, ConvFiles(convs[c]));
      convs := convs[c := convs[c].(turns := convs[c].turns + [turn])];
      result := Success(turn);
    }

    method UpdateTurn(a: Actor, t: Id, status: Status) returns (result: Result<(), Error>)
      requires Valid()
      modifies this
      ensures Valid() && Outcome(Contents(), result) == LedgerState.UpdateTurn(old(Contents()), a, t, status)
    {
      hide Inv, HasTurn, OneActive, WithStatus;
      UpdateTurnKeeps(Contents(), a, t, status);
      OneConvOfTurn(Contents(), a, t);
      var found := set c | c in convs && Owned(Contents(), a, c) && HasTurn(convs[c].turns, t);
      assert forall c :: c in convs && Owned(Contents(), a, c) && HasTurn(convs[c].turns, t) ==> c in found;
      if found == {} { return Failure(NotFound); }
      var c :| c in found;
      var turns := WithStatus(convs[c].turns, t, status);
      if !OneActive(turns) { return Failure(UniqueViolation); }
      convs := convs[c := convs[c].(turns := turns)];
      result := Success(());
    }

    method TruncateConversation(a: Actor, c: Id, item: Id) returns (result: Result<(), Error>)
      requires Valid()
      modifies this
      ensures Valid() && Outcome(Contents(), result) == Truncate(old(Contents()), a, c, item)
    {
      TruncateKeeps(Contents(), a, c, item);
      OneNumberOfItem(Contents(), c, item);
      hide Inv;
      if !Owned(Contents(), a, c) { return Failure(NotFound); }
      var conv := convs[c];
      if !HasId(conv.items, item) { return Failure(NotFound); }
      var n :| n in conv.items && conv.items[n].id == item;
      conv := conv.(items := map m | m in conv.items && m < n :: conv.items[m]);
      conv := conv.(batches := map k | k in conv.batches && conv.batches[k].last < n :: conv.batches[k]);
      continuations := map k | k in continuations
        && !(continuations[k].conv == c && continuations[k].through >= n) :: continuations[k];
      conv := conv.(next := n);
      convs := convs[c := conv];
      result := Success(());
    }

    method RegenerateConversation(a: Actor, c: Id) returns (result: Result<Option<Id>, Error>)
      requires Valid()
      modifies this
      ensures Valid() && Outcome(Contents(), result) == Regenerate(old(Contents()), a, c)
    {
      RegenerateKeeps(Contents(), a, c);
      hide Inv, Regenerable;
      if !Owned(Contents(), a, c) { return Failure(NotFound); }
      var conv := convs[c];
      if conv.turns == [] { return Success(None); }
      var latest := conv.turns[|conv.turns| - 1].id;
      convs := convs[c := conv.(items := conv.items - Regenerable(conv))];
      continuations := map k | k in continuations && continuations[k].conv != c :: continuations[k];
      result := Success(Some(latest));
    }

    method DeleteConversation(a: Actor, c: Id) returns (result: Result<(), Error>)
      requires Valid()
      modifies this
      ensures Valid() && Outcome(Contents(), result) == LedgerState.DeleteConversation(old(Contents()), a, c)
    {
      hide Inv;
      DeleteKeeps(Contents(), a, c);
      if !Owned(Contents(), a, c) { return Failure(NotFound); }
      convs := convs - {c};
      continuations := map k | k in continuations && continuations[k].conv != c :: continuations[k];
      result := Success(());
    }

    method CreateContinuation(a: Actor, c: Id, r: ContinuationRequest) returns (result: Result<Continuation, Error>)
      requires Valid()
      modifies this
      ensures Valid() && Outcome(Contents(), result) == LedgerState.CreateContinuation(old(Contents()), a, c, r)
    {
      hide Inv;
      ContinueKeeps(Contents(), a, c, r);
      if !Owned(Contents(), a, c) { return Failure(NotFound); }
      if Text.Trim(r.agent) == "" || Text.Trim(r.response) == "" { return Failure(BadRequest); }
      var through := if r.through.Some? then r.through.value else convs[c].next - 1;
      if through < 0 || through >= convs[c].next { return Failure(BadRequest); }
      var k := ContinuationKey(a.tenant, r.agent, r.response);
      if k in continuations { return Failure(Conflict); }
      var id := NewId();
      continuations := continuations[k := Continuation(id, c, through)];
      result := Success(continuations[k]);
    }

    method SaveFile(a: Actor, id: string) returns (result: Result<(), Error>)
      requires Valid()
      modifies this
      ensures Valid() && Outcome(Contents(), result) == LedgerState.SaveFile(old(Contents()), a, id)
    {
      hide Inv;
      FileStepsKeep(Contents(), a, id);
      if id in files { return Failure(UniqueViolation); }
      files := files[id := File(a.tenant, a.principal)];
      result := Success(());
    }

    method RemoveFile(a: Actor, id: string) returns (result: Result<(), Error>)
      requires Valid()
      modifies this
      ensures Valid() && Outcome(Contents(), result) == LedgerState.RemoveFile(old(Contents()), a, id)
    {
      hide Inv;
      FileStepsKeep(Contents(), a, id);
      hide ReferencedIn;
      if id !in files || files[id] != File(a.tenant, a.principal) { return Failure(NotFound); }
      if Referenced(Contents(), id) { return Failure(Conflict); }
      files := files - {id};
      result := Success(());
    }

    method AgentReplay(a: Actor, c: Id, t: Id, agent: string, config: AgentProjection.Config)
      returns (result: Result<AgentReply, Error>)
      requires Valid()
      ensures result == LedgerState.AgentReplay(Contents(), a, c, t, agent, config)
    {
      ghost var now := Contents();
      forall k | StartsTurn(now, k, c, t)
        ensures LedgerState.AgentReplay(now, a, c, t, agent, config) ==
                  if Owned(now, a, c) && TurnRuns(now.convs[c], t, agent)
                  then ReplayRecord(now.convs[c].items, now.starts[k], config) else Failure(NotFound)
      {
        ReplayFindsRecord(now, a, c, t, agent, config, k);
      }
      hide Inv, TurnRuns, Rows, ChildFound;
      var records := set k | k in starts && starts[k].turn == t && starts[k].conv == c;
      if !Owned(Contents(), a, c) || !TurnRuns(convs[c], t, agent) || records == {} {
        assert !Owned(now, a, c) || !TurnRuns(now.convs[c], t, agent) || !exists k :: StartsTurn(now, k, c, t) by {
          if k :| StartsTurn(now, k, c, t) { assert records == {} ==> k !in records; }
        }
        return Failure(NotFound);
      }
      var k :| k in records;
      assert StartsTurn(now, k, c, t);
      var r := starts[k];
      var items := convs[c].items;
      if !CountTest(items, r) { return Failure(SnapshotUnavailable); }
      var rows := Rows(items, 1, r.last);
      if |rows| > config.maxItems { return Failure(Projection(AgentProjection.ContextLimit)); }
      var projected := AgentProjection.BuildAgentProjection(Payloads(rows), config);
      match projected
      case Failure(error) => result := Failure(Projection(error));
      case Success(input) => result := Success(AgentReply(r.last, input));
    }
  }

  // A turn belongs to one conversation and an item id to one number.
  lemma OneConvOfTurn(s: State, a: Actor, t: Id)
    requires Inv(s)
    ensures forall c :: c in s.convs && Owned(s, a, c) && HasTurn(s.convs[c].turns, t) ==> ConvOfTurn(s, a, t) == Some(c)
  {
  }

  lemma OneNumberOfItem(s: State, c: Id, item: Id)
    requires Inv(s)
    ensures c in s.convs ==> forall n :: n in s.convs[c].items && s.convs[c].items[n].id == item ==>
              FindItem(s.convs[c].items, item) == Some(n)
  {
    if c in s.convs { assert ConvOk(s.convs[c], s.nextId, s.files); }
  }

  // The statements of a start, one after the other.
  ghost function Started(s: State, auth: Session, r: StartRequest, c: Id): Outcome<StartReply>
    requires c in s.convs
  {
    var t := s.nextId;
    var first := s.convs[c].next;
    var last := first + |r.items| - 1;
    var s1 := s.(nextId := t + 1, convs := s.convs[c := s.convs[c].(turns := s.convs[c].turns
                   + [Turn(t, r.agent, None, Pending, ConvFiles(s.convs[c]))])]);
    var s2 := Inserted(s1, c, first, Some(t), User, r.items);
    var s3 := Put(s2, c, s2.convs[c].(next := last + 1));
    var children := StartItems(first, t + 1, |r.items|);
    Outcome(s3.(starts := s3.starts[KeyOf(auth, r) := TurnStart(BodyOf(r), c, t, first, last, children)]),
            Success(StartReply(c, t, ItemIds(children), first, last, false)))
  }

  lemma StartBySteps(s: State, auth: Session, r: StartRequest, c: Id)
    requires c in s.convs && !ActiveExists(s.convs[c].turns)
    requires FilesOwned(s, auth.actor, ConvFiles(s.convs[c]) + FileUri.BatchReferences(r.items))
    ensures s.convs[c].next + |r.items| <= MAX_SEQ ==>
              LedgerState.StartOn(s, auth, r, c, s.convs[c], s.nextId) == Started(s, auth, r, c)
  {
    hide FileUri.References, FileUri.BatchReferences, FilesOwned, ActiveExists, ConvFiles, NewItems, Place;
    var out := Started(s, auth, r, c).state.convs;
    assert out == s.convs[c := out[c]];
  }

  lemma PlaceNone(items: map<int, Item>, first: int)
    ensures Place(items, first, []) == items
  {
  }

  // A set that misses an element of a larger set is smaller.
  lemma SubsetSmaller<T>(small: set<T>, large: set<T>, x: T)
    requires small <= large && x in large && x !in small
    ensures |small| < |large|
  {
    assert large == small + (large - small);
    assert x in large - small;
  }
}
