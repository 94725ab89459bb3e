/** Sequence numbers, append retries, continuations and file references over whole runs. */
module LedgerSequence {
  import opened Wrappers
  import opened LedgerState
  import opened LedgerInvariant
  import opened LedgerSteps
  import opened LedgerHistory
  import opened LedgerTheorems
  import FileUri
  import Json
  import Text

  // ---- Append batches ----

  // The event regenerates conversation c while t is its latest turn.
  ghost predicate RegeneratesTurn(s: State, e: Event, c: Id, t: Id) {
    && e.Regenerating? && e.conv == c && Owned(s, e.actor, c)
    && s.convs[c].turns != [] && s.convs[c].turns[|s.convs[c].turns| - 1].id == t
  }

  ghost predicate RegeneratedSince(s: State, events: seq<Event>, c: Id, t: Id)
    decreases |events|
  {
    events != [] && (RegeneratesTurn(s, events[0], c, t) || RegeneratedSince(Apply(s, events[0]), events[1..], c, t))
  }

  // An item is removed exactly by a regeneration of its own turn, and only if the agent wrote it.
  lemma {:induction false} RemovedWithTurn(s: State, events: seq<Event>, c: Id, n: int)
    requires Inv(s) && c in s.convs && n in s.convs[c].items && !CutSince(s, events, c, n)
    ensures var item := s.convs[c].items[n];
            RemovedSince(s, events, c, n) <==>
              item.source.Agent? && item.turn.Some? && RegeneratedSince(s, events, c, item.turn.value)
    decreases |events|
  {
    InvConv(s, c);
    hide Inv, Apply, Cuts, ConvOk;
    if events != [] && !Removes(s, events[0], c, n) {
      StepBelow(s, events[0], c, n);
      StepKeeps(s, events[0]);
      RemovedWithTurn(Apply(s, events[0]), events[1..], c, n);
    }
  }

  // A first append returns one row a payload, in request order, from the next number on.
  lemma FirstAppend(s: State, a: Actor, c: Id, r: AppendRequest)
    requires Inv(s)
    requires AppendItems(s, a, c, r).result.Success? && !AppendItems(s, a, c, r).result.value.replayed
    ensures var out := AppendItems(s, a, c, r);
            var first := s.convs[c].next;
            var last := first + |r.items| - 1;
            && Owned(s, a, c) && c in out.state.convs
            && var conv := out.state.convs[c];
            && conv.tenant == s.convs[c].tenant && conv.owner == s.convs[c].owner
            && conv.next == last + 1
            && r.key in conv.batches && conv.batches[r.key] == Batch(first, last)
            && |out.result.value.items| == |r.items|
            && forall n :: first <= n <= last ==>
                 && n in conv.items
                 && out.result.value.items[n - first] == Row(n, conv.items[n])
                 && conv.items[n].turn == r.turn
                 && conv.items[n].source == r.source
                 && conv.items[n].payload == r.items[n - first]
  {
    hide Inv, FileUri.References, FileUri.BatchReferences, FilesOwned, Text.Trim, Utf8Length, NewItems, Extend, HasTurn, Rows;
    ExtendedRows(s.convs[c], r.items, r.turn, r.source, s.nextId);
    ExtendNext(s.convs[c], NewItems(r.items, r.turn, r.source, s.nextId));
  }

  lemma ExtendNext(conv: Conversation, added: seq<Item>)
    ensures var after := Extend(conv, added);
            after == conv.(items := after.items, next := conv.next + |added|)
  {
  }

  lemma ExtendedRows(conv: Conversation, payloads: seq<Json.Value>, turn: Option<Id>, source: Source, base: Id)
    ensures var items := Extend(conv, NewItems(payloads, turn, source, base)).items;
            var last := conv.next + |payloads| - 1;
            && |Rows(items, conv.next, last)| == |payloads|
            && forall n :: conv.next <= n <= last ==>
                 && n in items && Rows(items, conv.next, last)[n - conv.next] == Row(n, items[n])
                 && items[n].turn == turn && items[n].source == source && items[n].payload == payloads[n - conv.next]
  {
    hide FileUri.References, NewItems, Place, Rows;
    var items := Extend(conv, NewItems(payloads, turn, source, base)).items;
    var last := conv.next + |payloads| - 1;
    forall n | conv.next <= n <= last
      ensures n in items && items[n].turn == turn && items[n].source == source && items[n].payload == payloads[n - conv.next]
    {
      NewItemAt(conv, payloads, turn, source, base, n - conv.next);
    }
    if payloads == [] {
      RowsEmpty(items, conv.next, last);
    } else {
      RowAt(items, conv.next, last, conv.next);
    }
    forall n | conv.next <= n <= last ensures Rows(items, conv.next, last)[n - conv.next] == Row(n, items[n]) {
      RowAt(items, conv.next, last, n);
    }
  }

  // Append retry never shows a foreign item. While nothing cut the batch, any request under its key
  // changes nothing and returns the rows first inserted; for a batch the agent wrote within a turn it
  // returns none of them once that turn was regenerated.
  lemma AppendRetry(s: State, a: Actor, c: Id, r: AppendRequest, events: seq<Event>, retry: AppendRequest)
    requires Inv(s) && AppendOk(retry) && retry.key == r.key
    ensures var out := AppendItems(s, a, c, r);
            var after := Run(out.state, events);
            out.result.Success? && !out.result.value.replayed && c in s.convs
            && !CutSince(out.state, events, c, s.convs[c].next + |r.items| - 1) ==>
              var gone := r.source.Agent? && r.turn.Some? && RegeneratedSince(out.state, events, c, r.turn.value);
              AppendItems(after, a, c, retry) ==
                Outcome(after, Success(AppendReply(if gone then [] else out.result.value.items, true)))
  {
    hide Inv, Run, Apply, CutSince, RegeneratedSince, RemovedSince, AppendItems, Rows, AppendOk, Cuts;
    var out := AppendItems(s, a, c, r);
    if out.result.Success? && !out.result.value.replayed && c in s.convs
       && !CutSince(out.state, events, c, s.convs[c].next + |r.items| - 1) {
      FirstAppend(s, a, c, r);
      var s1 := out.state;
      var first := s.convs[c].next;
      var last := first + |r.items| - 1;
      AppendKeeps(s, a, c, r);
      RunBelow(s1, events, c, last);
      var after := Run(s1, events);
      var gone := r.source.Agent? && r.turn.Some? && RegeneratedSince(s1, events, c, r.turn.value);
      forall n | first <= n <= last ensures RemovedSince(s1, events, c, n) <==> gone {
        CutMonotone(s1, events, c, n, last);
        RemovedWithTurn(s1, events, c, n);
      }
      AppendAgain(after, a, c, retry, first, last);
      if gone {
        RowsEmpty(after.convs[c].items, first, last);
      } else {
        RowsAgree(s1.convs[c].items, after.convs[c].items, first, last);
        RowsWritten(s1.convs[c].items, first, last, out.result.value.items);
      }
    }
  }

  // A full range of rows is what was returned when it was written.
  lemma RowsWritten(items: map<int, Item>, first: int, last: int, rows: seq<Row>)
    requires |rows| == last - first + 1
    requires forall n :: first <= n <= last ==> n in items
    requires forall n :: first <= n <= last ==> rows[n - first] == Row(n, items[n])
    ensures Rows(items, first, last) == rows
  {
    hide Rows;
    RowsDense(items, first, last);
    var found := Rows(items, first, last);
    forall i | 0 <= i < |found| ensures found[i] == rows[i] {
      assert first + i in items;
      assert rows[first + i - first] == Row(first + i, items[first + i]);
    }
  }

  lemma AppendAgain(s: State, a: Actor, c: Id, r: AppendRequest, first: int, last: int)
    requires Owned(s, a, c) && AppendOk(r)
    requires r.key in s.convs[c].batches && s.convs[c].batches[r.key] == Batch(first, last)
    ensures AppendItems(s, a, c, r) == Outcome(s, Success(AppendReply(Rows(s.convs[c].items, first, last), true)))
  {
  }

  // A run that does not cut at or below the higher number does not cut at or below the lower.
  lemma {:induction false} CutMonotone(s: State, events: seq<Event>, c: Id, low: int, high: int)
    requires low <= high && !CutSince(s, events, c, high)
    ensures !CutSince(s, events, c, low)
    decreases |events|
  {
    hide Apply;
    if events != [] { CutMonotone(Apply(s, events[0]), events[1..], c, low, high); }
  }

  // The truncation that cuts a batch also drops its row, so its key is free again.
  lemma CutFreesKey(s: State, a: Actor, c: Id, item: Id, key: string)
    requires c in s.convs && key in s.convs[c].batches
    requires Cuts(s, Truncating(a, c, item), c, s.convs[c].batches[key].last)
    ensures key !in Truncate(s, a, c, item).state.convs[c].batches
  {
  }

  // ---- Continuations ----

  // No continuation carries the id.
  ghost predicate NoContinuation(s: State, id: Id) {
    forall k :: k in s.continuations ==> s.continuations[k].id != id
  }

  lemma StepKeepsMissing(s: State, e: Event, id: Id)
    requires NoContinuation(s, id) && id < s.nextId
    ensures NoContinuation(Apply(s, e), id) && id < Apply(s, e).nextId
  {
    hide Text.Trim, FilesOwned, HasTurn, FindItem, NormalTitle, StartRetry, ConvFiles, NewItems, Extend, OneActive;
  }

  lemma {:induction false} RunKeepsMissing(s: State, events: seq<Event>, id: Id)
    requires NoContinuation(s, id) && id < s.nextId
    ensures NoContinuation(Run(s, events), id)
    decreases |events|
  {
    hide Apply, NoContinuation;
    if events != [] {
      StepKeepsMissing(s, events[0], id);
      RunKeepsMissing(Apply(s, events[0]), events[1..], id);
    }
  }

  // Ids of continuations are unique.
  ghost predicate ContinuationIds(s: State) {
    forall k, l :: k in s.continuations && l in s.continuations && k != l ==> s.continuations[k].id != s.continuations[l].id
  }

  lemma StepKeepsIds(s: State, e: Event)
    requires Inv(s) && ContinuationIds(s)
    ensures ContinuationIds(Apply(s, e))
  {
    forall k | k in s.continuations ensures s.continuations[k].id < s.nextId { assert ContinuationOk(s, k); }
    hide Inv, Apply;
    ContinuationTable(s, e);
  }

  // Only create_continuation adds a row, and its id is new.
  lemma ContinuationTable(s: State, e: Event)
    ensures forall k :: k in Apply(s, e).continuations ==>
              || (k in s.continuations && Apply(s, e).continuations[k] == s.continuations[k])
              || (e.Continuing? && k == ContinuationKey(e.actor.tenant, e.continuation.agent, e.continuation.response)
                  && Apply(s, e).continuations[k].id == s.nextId)
  {
    hide Text.Trim, FilesOwned, HasTurn, FindItem, NormalTitle, StartRetry, ConvFiles, NewItems, Extend, OneActive,
      Regenerated, Cut, Regenerable;
  }

  lemma NoTurnsNothing(conv: Conversation)
    ensures conv.turns == [] ==> Regenerable(conv) == {}
  {
  }

  // Events other than truncating, regenerating and deleting leave the recorded continuations alone.
  lemma OtherContinuations(s: State, e: Event)
    requires !e.Truncating? && !e.Regenerating? && !e.Deleting?
    ensures forall k :: k in s.continuations ==> k in Apply(s, e).continuations && Apply(s, e).continuations[k] == s.continuations[k]
  {
    hide Inv, Text.Trim, FilesOwned, HasTurn, FindItem, NormalTitle, StartRetry, ConvFiles, NewItems, Extend, OneActive;
  }

  // One event either keeps a continuation, and then cuts and removes nothing it covers, or drops it.
  lemma StepContinuation(s: State, e: Event, k: ContinuationKey)
    requires Inv(s) && ContinuationIds(s) && k in s.continuations
    ensures var made := s.continuations[k];
            var after := Apply(s, e);
            || NoContinuation(after, made.id)
            || (k in after.continuations && after.continuations[k] == made
                && !Cuts(s, e, made.conv, made.through) && forall n :: !Removes(s, e, made.conv, n))
  {
    hide Inv, Text.Trim, FilesOwned, HasTurn, FindItem, NormalTitle, StartRetry, ConvFiles, NewItems, Extend, OneActive,
      AppendItems, StartTurn, CreateTurn, UpdateTurn, Regenerable;
    match e
    case Truncating(a, c, item) =>
    case Regenerating(a, c) => if c in s.convs { NoTurnsNothing(s.convs[c]); }
    case Deleting(a, c) =>
    case _ => OtherContinuations(s, e);
  }

  // Every live continuation names a frozen prefix: after any run that leaves it in place, the items
  // at or below its boundary are exactly those that were there, and the boundary lies below `next`.
  lemma {:induction false} ContinuationFrozen(s: State, events: seq<Event>, k: ContinuationKey)
    requires Inv(s) && ContinuationIds(s) && k in s.continuations
    requires exists l :: l in Run(s, events).continuations && Run(s, events).continuations[l].id == s.continuations[k].id
    ensures var made := s.continuations[k];
            var after := Run(s, events);
            && k in after.continuations && after.continuations[k] == made
            && made.conv in s.convs && made.conv in after.convs
            && made.through < after.convs[made.conv].next
            && forall n :: n <= made.through ==>
                 && (n in after.convs[made.conv].items <==> n in s.convs[made.conv].items)
                 && (n in s.convs[made.conv].items ==> after.convs[made.conv].items[n] == s.convs[made.conv].items[n])
    decreases |events|
  {
    var made := s.continuations[k];
    assert ContinuationOk(s, k);
    hide Inv, Apply, Cuts, Removes, ContinuationIds;
    if events != [] {
      StepContinuation(s, events[0], k);
      var s1 := Apply(s, events[0]);
      if NoContinuation(s1, made.id) {
        IdsGrow(s, events[0]);
        RunKeepsMissing(s1, events[1..], made.id);
      } else {
        StepBelow(s, events[0], made.conv, made.through);
        StepKeeps(s, events[0]);
        StepKeepsIds(s, events[0]);
        ContinuationFrozen(s1, events[1..], k);
      }
    }
  }

  // ---- Holes ----

  function Holes(conv: Conversation): set<int> {
    set n | 1 <= n < conv.next && n !in conv.items
  }

  function HolesOf(s: State, c: Id): set<int> {
    if c in s.convs then Holes(s.convs[c]) else {}
  }

  // The numbers vacated by regeneration and not since cut off, after one more event.
  ghost function VacatedBy(s: State, e: Event, c: Id, vacated: set<int>): set<int> {
    match e
    case Regenerating(a, d) =>
      if d == c && Owned(s, a, c) then vacated + Regenerable(s.convs[c]) else vacated
    case Truncating(a, d, item) =>
      if d == c && Owned(s, a, c) && FindItem(s.convs[c].items, item).Some?
      then set n | n in vacated && n < FindItem(s.convs[c].items, item).value
      else vacated
    case Deleting(a, d) => if d == c && Owned(s, a, c) then {} else vacated
    case _ => vacated
  }

  ghost function Vacated(s: State, events: seq<Event>, c: Id, vacated: set<int>): set<int>
    decreases |events|
  {
    if events == [] then vacated
    else Vacated(Apply(s, events[0]), events[1..], c, VacatedBy(s, events[0], c, vacated))
  }

  lemma ExtendHoles(conv: Conversation, added: seq<Item>, bound: Id)
    requires ItemsOk(conv, bound)
    ensures Holes(Extend(conv, added)) == Holes(conv)
  {
    PlaceAt(conv.items, conv.next, added);
  }

  lemma AppendHoles(s: State, a: Actor, d: Id, r: AppendRequest, c: Id)
    requires Inv(s)
    ensures HolesOf(AppendItems(s, a, d, r).state, c) == HolesOf(s, c)
  {
    hide Inv, FilesOwned, HasTurn, FileUri.References, Utf8Length, Text.Trim;
    var after := AppendItems(s, a, d, r).state;
    if after != s && d == c {
      InvConv(s, c);
      var added := NewItems(r.items, r.turn, r.source, s.nextId);
      ExtendHoles(s.convs[c], added, s.nextId);
      assert Holes(after.convs[c]) == Holes(Extend(s.convs[c], added));
    }
  }

  lemma StartHoles(s: State, auth: Session, r: StartRequest, c: Id)
    requires Inv(s)
    ensures HolesOf(StartTurn(s, auth, r).state, c) == HolesOf(s, c)
  {
    hide Inv, FilesOwned, HasTurn, FileUri.References, NormalTitle, Text.Trim, StartRetry, ConvFiles, ActiveExists;
    var after := StartTurn(s, auth, r).state;
    if after != s {
      var normal := NormalStart(r).value;
      if normal.conv.None? {
        FreshId(s);
        var added := NewItems(normal.items, Some(s.nextId + 1), User, s.nextId + 2);
        if c == s.nextId {
          ExtendHoles(NewConv(auth.actor), added, 0);
          assert Holes(after.convs[c]) == Holes(Extend(NewConv(auth.actor), added));
        }
      } else if normal.conv.value == c {
        InvConv(s, c);
        var added := NewItems(normal.items, Some(s.nextId), User, s.nextId + 1);
        ExtendHoles(s.convs[c], added, s.nextId);
        assert Holes(after.convs[c]) == Holes(Extend(s.convs[c], added));
      }
    }
  }

  lemma FreshId(s: State)
    requires Inv(s)
    ensures s.nextId !in s.convs
  {
  }

  lemma CutHoles(conv: Conversation, n: int)
    requires n <= conv.next
    ensures Holes(Cut(conv, n)) == set m | m in Holes(conv) && m < n
  {
  }

  lemma RegeneratedHoles(conv: Conversation, bound: Id)
    requires ItemsOk(conv, bound)
    ensures Holes(Regenerated(conv)) == Holes(conv) + Regenerable(conv)
  {
    hide HasTurn;
  }

  lemma TruncateHoles(s: State, a: Actor, d: Id, item: Id, c: Id)
    requires Inv(s)
    ensures HolesOf(Truncate(s, a, d, item).state, c) == VacatedBy(s, Truncating(a, d, item), c, HolesOf(s, c))
  {
    hide Inv, Holes, Cut, FindItem, LinkOk, FilesOk, TurnsOk, BatchesOk, HasTurn;
    if d == c && Owned(s, a, c) && FindItem(s.convs[c].items, item).Some? {
      InvConv(s, c);
      FoundBelow(s.convs[c], item, s.nextId);
      CutHoles(s.convs[c], FindItem(s.convs[c].items, item).value);
    }
  }

  lemma FoundBelow(conv: Conversation, item: Id, bound: Id)
    requires ItemsOk(conv, bound) && FindItem(conv.items, item).Some?
    ensures FindItem(conv.items, item).value <= conv.next
  {
    hide HasTurn;
  }

  lemma RegenerateHoles(s: State, a: Actor, d: Id, c: Id)
    requires Inv(s)
    ensures HolesOf(Regenerate(s, a, d).state, c) == VacatedBy(s, Regenerating(a, d), c, HolesOf(s, c))
  {
    hide Inv, Holes, Regenerated, Regenerable, LinkOk, FilesOk, TurnsOk, BatchesOk, ItemsOk, HasTurn;
    if d == c && Owned(s, a, c) {
      InvConv(s, c);
      RegeneratedHoles(s.convs[c], s.nextId);
      NoTurnsNothing(s.convs[c]);
    }
  }

  lemma StepHoles(s: State, e: Event, c: Id)
    requires Inv(s)
    ensures HolesOf(Apply(s, e), c) == VacatedBy(s, e, c, HolesOf(s, c))
  {
    hide Inv, Text.Trim, FilesOwned, AppendItems, StartTurn, Truncate, Regenerate, FindItem, WithStatus, OneActive;
    match e
    case Appending(a, d, r) => AppendHoles(s, a, d, r, c);
    case Starting(auth, r) => StartHoles(s, auth, r, c);
    case Truncating(a, d, item) => TruncateHoles(s, a, d, item, c);
    case Regenerating(a, d) => RegenerateHoles(s, a, d, c);
    case Creating(a) =>
      FreshId(s);
      assert Holes(NewConv(a)) == {};
    case _ =>
  }

  // The missing numbers of a conversation are exactly those vacated by regeneration and not since cut off.
  lemma {:induction false} HolesAreVacated(s: State, events: seq<Event>, c: Id)
    requires Inv(s)
    ensures HolesOf(Run(s, events), c) == Vacated(s, events, c, HolesOf(s, c))
    decreases |events|
  {
    hide Inv, Apply, VacatedBy;
    if events != [] {
      StepHoles(s, events[0], c);
      StepKeeps(s, events[0]);
      HolesAreVacated(Apply(s, events[0]), events[1..], c);
    }
  }

  // Without regeneration nothing is ever vacated.
  lemma {:induction false} NoRegenerationNoHoles(s: State, events: seq<Event>, c: Id)
    requires forall i :: 0 <= i < |events| ==> !events[i].Regenerating?
    ensures Vacated(s, events, c, {}) == {}
    decreases |events|
  {
    hide Apply;
    if events != [] {
      assert VacatedBy(s, events[0], c, {}) == {};
      NoRegenerationNoHoles(Apply(s, events[0]), events[1..], c);
    }
  }

  // A dense transcript becomes gapped exactly by regenerating a turn with agent items in it.
  lemma GapAppearsIff(s: State, e: Event, c: Id)
    requires Inv(s) && HolesOf(s, c) == {}
    ensures HolesOf(Apply(s, e), c) != {} <==>
              e.Regenerating? && e.conv == c && Owned(s, e.actor, c) && Regenerable(s.convs[c]) != {}
  {
    hide Inv, Apply, Regenerable, Holes;
    StepHoles(s, e, c);
  }

  // Sequence discipline in every reachable state: numbers are positive and below `next`, ids are
  // unique, the holes are the vacated numbers (none in a run without regeneration), and live append
  // batches and intact turn starts occupy pairwise disjoint ranges.
  lemma SequenceDiscipline(events: seq<Event>, c: Id)
    requires c in Run(EMPTY, events).convs
    ensures var s := Run(EMPTY, events);
            var conv := s.convs[c];
            && (forall n :: n in conv.items ==> 1 <= n < conv.next)
            && (forall n, m :: n in conv.items && m in conv.items && n != m ==> conv.items[n].id != conv.items[m].id)
            && Holes(conv) == Vacated(EMPTY, events, c, {})
            && ((forall i :: 0 <= i < |events| ==> !events[i].Regenerating?) ==>
                  forall n :: 1 <= n < conv.next ==> n in conv.items)
            && (forall b, d :: b in conv.batches && d in conv.batches && b != d ==> Apart(conv.batches[b], conv.batches[d]))
            && (forall k, b :: k in s.starts && s.starts[k].conv == c && Intact(conv, s.starts[k]) && b in conv.batches ==>
                  Apart(conv.batches[b], Batch(s.starts[k].first, s.starts[k].last)))
            && (forall k, l :: (k in s.starts && l in s.starts && k != l && s.starts[k].conv == c && s.starts[l].conv == c
                                && Intact(conv, s.starts[k]) && Intact(conv, s.starts[l])) ==>
                  Apart(Batch(s.starts[k].first, s.starts[k].last), Batch(s.starts[l].first, s.starts[l].last)))
  {
    hide Run, Vacated, ConvOk, LinkOk, RecordOk, Complete, OlderBefore, Intact;
    var s := Run(EMPTY, events);
    EmptyInv();
    RunKeeps(EMPTY, events);
    HolesAreVacated(EMPTY, events, c);
    ConvDiscipline(s, c);
    if forall i :: 0 <= i < |events| ==> !events[i].Regenerating? {
      NoRegenerationNoHoles(EMPTY, events, c);
      forall n | 1 <= n < s.convs[c].next ensures n in s.convs[c].items {
        assert n !in Holes(s.convs[c]);
      }
    }
    forall k | k in s.starts && s.starts[k].conv == c ensures LinkOk(s.convs[c], k, s.starts[k]) { StartOkOf(s, k); }
    forall k, l | k in s.starts && l in s.starts ensures StartsApart(s, k, l) {}
    StartsAndBatches(s, c);
  }

  lemma ConvDiscipline(s: State, c: Id)
    requires Inv(s) && c in s.convs
    ensures ItemsOk(s.convs[c], s.nextId) && BatchesOk(s.convs[c])
  {
    InvConv(s, c);
  }

  lemma StartsAndBatches(s: State, c: Id)
    requires c in s.convs
    requires forall k :: k in s.starts && s.starts[k].conv == c ==> LinkOk(s.convs[c], k, s.starts[k])
    ensures forall k, b :: k in s.starts && s.starts[k].conv == c && Intact(s.convs[c], s.starts[k]) && b in s.convs[c].batches ==>
              Apart(s.convs[c].batches[b], Batch(s.starts[k].first, s.starts[k].last))
  {
  }

  // ---- Files ----

  // File references never dangle: in every reachable state an item's reference rows are exactly the
  // canonical URIs among the strings of its payload, and every referenced or snapshotted file exists
  // and belongs to the conversation's owner.
  lemma NoDanglingReference(events: seq<Event>, c: Id)
    requires c in Run(EMPTY, events).convs
    ensures var s := Run(EMPTY, events);
            var conv := s.convs[c];
            && (forall n, f :: n in conv.items ==>
                  (f in conv.items[n].files <==>
                   FileUri.CanonicalId(f) && FileUri.UriOf(f) in Json.Strings(conv.items[n].payload)))
            && (forall n, f :: n in conv.items && f in conv.items[n].files ==>
                  f in s.files && s.files[f] == File(conv.tenant, conv.owner))
            && (forall i, f :: 0 <= i < |conv.turns| && f in conv.turns[i].snapshot ==>
                  f in s.files && s.files[f] == File(conv.tenant, conv.owner))
  {
    hide FileUri.References, Json.Strings, FileUri.CanonicalId, FileUri.UriOf, LinkOk, Run;
    var s := Run(EMPTY, events);
    EmptyInv();
    RunKeeps(EMPTY, events);
    InvConv(s, c);
    var conv := s.convs[c];
    forall n | n in conv.items { FileUri.ReferencesAreUris(conv.items[n].payload); }
    assert forall n, f :: n in conv.items && f in conv.items[n].files ==> ReferencedIn(conv, f);
    assert forall i, f :: 0 <= i < |conv.turns| && f in conv.turns[i].snapshot ==> ReferencedIn(conv, f);
  }

  // Removing an owned file succeeds exactly when no live item mentions its URI and no snapshot lists it.
  lemma RemoveExact(s: State, a: Actor, f: string)
    requires Inv(s) && FileUri.CanonicalId(f)
    ensures RemoveFile(s, a, f).result.Success? <==>
              && f in s.files && s.files[f] == File(a.tenant, a.principal)
              && forall c :: c in s.convs ==>
                   && (forall n :: n in s.convs[c].items ==> FileUri.UriOf(f) !in Json.Strings(s.convs[c].items[n].payload))
                   && (forall i :: 0 <= i < |s.convs[c].turns| ==> f !in s.convs[c].turns[i].snapshot)
  {
    hide FileUri.References, Json.Strings, FileUri.CanonicalId, FileUri.UriOf, LinkOk, ItemsOk, TurnsOk;
    forall c, n | c in s.convs && n in s.convs[c].items
      ensures f in s.convs[c].items[n].files <==> FileUri.UriOf(f) in Json.Strings(s.convs[c].items[n].payload)
    {
      InvConv(s, c);
      FileUri.ReferencesAreUris(s.convs[c].items[n].payload);
    }
    if Referenced(s, f) {
      var c :| c in s.convs && ReferencedIn(s.convs[c], f);
    }
  }

  // ---- The documented gap-free ordering ----

  // Regenerating leaves a gap: one agent item written in a turn and regenerated leaves number 1 empty,
  // and the next item will get number 2.
  lemma GapFreeFails() returns (events: seq<Event>)
    ensures 1 in Run(EMPTY, events).convs
    ensures Run(EMPTY, events).convs[1].next == 2 && 1 !in Run(EMPTY, events).convs[1].items
  {
    hide CreateConversation, CreateTurn, AppendItems, Regenerate, GapStart, Run;
    var a := Actor("tenant", "owner");
    var turn := TurnRequest("turn", "agent");
    var request := AppendRequest("key", Some(2), Agent, [Json.Object([])]);
    GapTurn(a, turn);
    GapItem(a, request);
    var e1, e2, e3, e4 := Creating(a), CreatingTurn(a, 1, turn), Appending(a, 1, request), Regenerating(a, 1);
    RunFour(EMPTY, e1, e2, e3, e4);
    events := [e1, e2, e3, e4];
  }

  // An empty conversation with one running turn.
  function GapStart(a: Actor): State {
    var turns := [Turn(2, "agent", Some("turn"), Pending, {})];
    State(3, map[1 := Conversation(a.tenant, a.principal, 1, map[], map[], turns)], map[], map[], map[])
  }

  lemma GapTurn(a: Actor, r: TurnRequest)
    requires r == TurnRequest("turn", "agent")
    ensures CreateTurn(CreateConversation(EMPTY, a).state, a, 1, r).state == GapStart(a)
  {
    Text.TrimmedFixed("agent");
    Text.TrimmedFixed("turn");
    var s1 := CreateConversation(EMPTY, a).state;
    assert ConvFiles(s1.convs[1]) == {};
    var s2 := CreateTurn(s1, a, 1, r).state;
    assert TurnByKey([], "turn") == None;
    assert s2.convs[1].turns == [Turn(2, "agent", Some("turn"), Pending, {})];
    assert s2.convs == GapStart(a).convs;
  }

  lemma GapItem(a: Actor, r: AppendRequest)
    requires r == AppendRequest("key", Some(2), Agent, [Json.Object([])])
    ensures var s := Regenerate(AppendItems(GapStart(a), a, 1, r).state, a, 1).state;
            1 in s.convs && s.convs[1].next == 2 && 1 !in s.convs[1].items
  {
    Text.TrimmedFixed("key");
    var s := GapStart(a);
    assert FileUri.BatchReferences(r.items) == {};
    assert Utf8Length("key") == 3;
    assert s.convs[1].turns[0].id == 2;
    NewItemAt(s.convs[1], r.items, Some(2), Agent, 3, 0);
    assert 1 in Regenerable(AppendItems(s, a, 1, r).state.convs[1]);
  }

  lemma RunFour(s: State, e1: Event, e2: Event, e3: Event, e4: Event)
    ensures Run(s, [e1, e2, e3, e4]) == Apply(Apply(Apply(Apply(s, e1), e2), e3), e4)
  {
    hide Apply;
    var events := [e1, e2, e3, e4];
    assert events[1..] == [e2, e3, e4] && [e2, e3, e4][1..] == [e3, e4] && [e3, e4][1..] == [e4] && [e4][1..] == [];
    var s3 := Apply(Apply(Apply(s, e1), e2), e3);
    assert Run(s3, [e4]) == Apply(s3, e4);
    assert Run(Apply(Apply(s, e1), e2), [e3, e4]) == Run(s3, [e4]);
    assert Run(Apply(s, e1), [e2, e3, e4]) == Run(Apply(Apply(s, e1), e2), [e3, e4]);
  }
}
