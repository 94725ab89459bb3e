/** The ledger's promises over whole runs: retries, agent replays, append batches, continuations. */
module LedgerTheorems {
  import opened Wrappers
  import opened LedgerState
  import opened LedgerInvariant
  import opened LedgerSteps
  import opened LedgerHistory
  import AgentProjection
  import FileUri
  import Json
  import Text

  // ---- Rows ----

  // Equal items in a range give equal rows.
  lemma {:induction false} RowsAgree(items: map<int, Item>, other: map<int, Item>, lo: int, hi: int)
    requires forall n :: lo <= n <= hi ==> (n in items <==> n in other)
    requires forall n :: lo <= n <= hi && n in items && n in other ==> items[n] == other[n]
    ensures Rows(items, lo, hi) == Rows(other, lo, hi)
    decreases hi - lo
  {
    if lo <= hi { RowsAgree(items, other, lo + 1, hi); }
  }

  lemma {:induction false} RowsEmpty(items: map<int, Item>, lo: int, hi: int)
    requires forall n :: lo <= n <= hi ==> n !in items
    ensures Rows(items, lo, hi) == []
    decreases hi - lo
  {
    if lo <= hi { RowsEmpty(items, lo + 1, hi); }
  }

  lemma {:induction false} RowsSplit(items: map<int, Item>, lo: int, mid: int, hi: int)
    requires lo <= mid + 1 && mid <= hi
    ensures Rows(items, lo, hi) == Rows(items, lo, mid) + Rows(items, mid + 1, hi)
    decreases mid - lo
  {
    if lo <= mid { RowsSplit(items, lo + 1, mid, hi); }
  }

  // A range without holes gives one row a number.
  lemma {:induction false} RowsDense(items: map<int, Item>, lo: int, hi: int)
    requires forall n :: lo <= n <= hi ==> n in items
    ensures |Rows(items, lo, hi)| == if hi < lo then 0 else hi - lo + 1
    ensures forall i :: 0 <= i < |Rows(items, lo, hi)| ==> lo + i in items && Rows(items, lo, hi)[i] == Row(lo + i, items[lo + i])
    decreases hi - lo
  {
    if lo <= hi { RowsDense(items, lo + 1, hi); }
  }

  lemma RowAt(items: map<int, Item>, lo: int, hi: int, n: int)
    requires lo <= n <= hi && forall m :: lo <= m <= hi ==> m in items
    ensures |Rows(items, lo, hi)| == hi - lo + 1 && Rows(items, lo, hi)[n - lo] == Row(n, items[n])
  {
    RowsDense(items, lo, hi);
    var i := n - lo;
    assert Rows(items, lo, hi)[i] == Row(lo + i, items[lo + i]);
  }

  // ---- Turn starts ----

  // Which of an owned start's completeness tests pass is the same question as whether its last
  // item is still there: the count and anti-join test, the ordinal test and Intact all agree.
  lemma CompletenessTestsAgree(s: State, k: StartKey)
    requires Inv(s) && k in s.starts && s.starts[k].conv in s.convs
    ensures var r := s.starts[k];
            var items := s.convs[r.conv].items;
            && (OrdinalTest(items, r) <==> CountTest(items, r))
            && (CountTest(items, r) <==> Intact(s.convs[r.conv], r))
  {
    hide ConvOk, StartsApart, TurnsApart, ContinuationOk, OrdinalTest, CountTest, Intact, Complete, RecordOk, TurnRuns;
    assert StartOk(s, k);
    ItemsOf(s, s.starts[k].conv);
    TestsAgree(s.convs[s.starts[k].conv], s.starts[k], s.nextId);
  }

  lemma ItemsOf(s: State, c: Id)
    requires Inv(s) && c in s.convs
    ensures ItemsOk(s.convs[c], s.nextId)
  {
    assert ConvOk(s.convs[c], s.nextId, s.files);
  }

  lemma TestsAgree(conv: Conversation, r: TurnStart, bound: Id)
    requires ItemsOk(conv, bound) && RecordOk(r, bound) && (Intact(conv, r) ==> Complete(conv, r))
    ensures OrdinalTest(conv.items, r) <==> CountTest(conv.items, r)
    ensures CountTest(conv.items, r) <==> Intact(conv, r)
  {
    if OrdinalTest(conv.items, r) || CountTest(conv.items, r) {
      assert ChildFound(conv.items, r.turn, r.items[|r.items| - 1]);
    }
  }

  // Nothing a regeneration may remove lies at or below the end of an intact start.
  lemma IntactNotRegenerable(conv: Conversation, k: StartKey, r: TurnStart, bound: Id, files: map<string, File>, n: int)
    requires ConvOk(conv, bound, files) && RecordOk(r, bound) && LinkOk(conv, k, r) && Intact(conv, r)
    requires n <= r.last
    ensures n !in Regenerable(conv)
  {
    var i :| 0 <= i < |conv.turns| && conv.turns[i].id == r.turn && conv.turns[i].agent == r.body.agent;
    assert r.turn <= conv.turns[|conv.turns| - 1].id;
    if n >= r.first {
      assert ChildFound(conv.items, r.turn, r.items[n - r.first]);
    }
  }

  // While nothing cuts at or below its end, an intact start stays intact and not a single item
  // at or below its end disappears.
  lemma {:induction false} IntactPersists(s: State, events: seq<Event>, k: StartKey)
    requires Inv(s) && k in s.starts && s.starts[k].conv in s.convs
    requires Intact(s.convs[s.starts[k].conv], s.starts[k])
    requires !CutSince(s, events, s.starts[k].conv, s.starts[k].last)
    ensures forall n :: n <= s.starts[k].last ==> !RemovedSince(s, events, s.starts[k].conv, n)
    decreases |events|
  {
    var r := s.starts[k];
    var c := r.conv;
    assert StartOk(s, k);
    hide Inv, Apply, Cuts, Removes, LinkOk, RecordOk;
    if events != [] {
      var e := events[0];
      var s1 := Apply(s, e);
      StartNotRemoved(s, e, k);
      StepBelow(s, e, c, r.last);
      StepKeeps(s, e);
      StartPersists(s, e, k);
      assert Intact(s1.convs[c], r) by {
        assert s1.convs[c].items[r.last].id == LastId(r);
      }
      IntactPersists(s1, events[1..], k);
    }
  }

  lemma StartNotRemoved(s: State, e: Event, k: StartKey)
    requires Inv(s) && k in s.starts && s.starts[k].conv in s.convs
    requires Intact(s.convs[s.starts[k].conv], s.starts[k])
    ensures forall n :: n <= s.starts[k].last ==> !Removes(s, e, s.starts[k].conv, n)
    ensures s.starts[k].last < s.convs[s.starts[k].conv].next
    ensures s.starts[k].items != [] && s.starts[k].last in s.convs[s.starts[k].conv].items
    ensures s.convs[s.starts[k].conv].items[s.starts[k].last].id == LastId(s.starts[k])
  {
    var r := s.starts[k];
    assert StartOk(s, k);
    assert ChildFound(s.convs[r.conv].items, r.turn, r.items[|r.items| - 1]);
    forall n | n <= r.last ensures !Removes(s, e, r.conv, n) {
      IntactNotRegenerable(s.convs[r.conv], k, r, s.nextId, s.files, n);
    }
  }

  // A cut at or below the end of an intact start takes its last item away.
  lemma CutTakesStart(s: State, e: Event, k: StartKey)
    requires Inv(s) && k in s.starts && s.starts[k].conv in s.convs
    requires Intact(s.convs[s.starts[k].conv], s.starts[k])
    requires Cuts(s, e, s.starts[k].conv, s.starts[k].last)
    ensures Gone(Apply(s, e), s.starts[k].conv, LastId(s.starts[k]))
  {
    var r := s.starts[k];
    assert StartOk(s, k);
    if e.Truncating? {
      var n := FindItem(s.convs[r.conv].items, e.item).value;
      CutFollows(s.convs[r.conv], n, k, r, s.nextId, s.files);
    }
  }

  // Cut once, the start's last item is missing in every later state, whatever reuses its number.
  lemma {:induction false} CutIsForever(s: State, events: seq<Event>, k: StartKey)
    requires Inv(s) && k in s.starts && s.starts[k].conv in s.convs
    requires Intact(s.convs[s.starts[k].conv], s.starts[k])
    requires CutSince(s, events, s.starts[k].conv, s.starts[k].last)
    ensures Gone(Run(s, events), s.starts[k].conv, LastId(s.starts[k]))
    decreases |events|
  {
    var r := s.starts[k];
    var c := r.conv;
    assert StartOk(s, k);
    hide Inv, Apply, Cuts, Removes, LinkOk, Gone;
    var e := events[0];
    var s1 := Apply(s, e);
    StepKeeps(s, e);
    if Cuts(s, e, c, r.last) {
      CutTakesStart(s, e, k);
      IdsGrow(s, e);
      RunStaysGone(s1, events[1..], c, LastId(r));
    } else {
      StartNotRemoved(s, e, k);
      StepBelow(s, e, c, r.last);
      StartPersists(s, e, k);
      assert Intact(s1.convs[c], r) by {
        assert s1.convs[c].items[r.last].id == LastId(r);
      }
      CutIsForever(s1, events[1..], k);
    }
  }

  lemma IdsGrow(s: State, e: Event)
    ensures s.nextId <= Apply(s, e).nextId
  {
    hide Text.Trim, FilesOwned, HasTurn, FindItem, NormalTitle, StartRetry, ConvFiles, NewItems, Extend, OneActive;
  }

  // After any run, an intact start is intact if and only if nothing cut it.
  lemma IntactIffUncut(s: State, events: seq<Event>, k: StartKey)
    requires Inv(s) && k in s.starts && s.starts[k].conv in s.convs
    requires Intact(s.convs[s.starts[k].conv], s.starts[k])
    ensures var after := Run(s, events);
            var r := s.starts[k];
            && Inv(after) && k in after.starts && after.starts[k] == r
            && (!CutSince(s, events, r.conv, r.last) <==> r.conv in after.convs && Intact(after.convs[r.conv], r))
            && (r.conv in after.convs ==> StartOk(after, k))
  {
    hide Inv, Run, CutSince, LinkOk, RecordOk;
    var r := s.starts[k];
    RunKeeps(s, events);
    StartsPersist(s, events, k);
    StartOkOf(Run(s, events), k);
    if CutSince(s, events, r.conv, r.last) {
      CutIsForever(s, events, k);
    } else {
      StartNotRemoved(s, Creating(Actor("", "")), k);
      IntactPersists(s, events, k);
      RunBelow(s, events, r.conv, r.last);
      assert Run(s, events).convs[r.conv].items[r.last].id == LastId(r);
    }
  }

  lemma StartOkOf(s: State, k: StartKey)
    requires Inv(s)
    ensures StartOk(s, k)
  {
  }

  // A first start records itself intact.
  lemma FirstStart(s: State, auth: Session, request: StartRequest)
    requires Inv(s)
    requires StartTurn(s, auth, request).result.Success? && !StartTurn(s, auth, request).result.value.replayed
    ensures var out := StartTurn(s, auth, request);
            var reply := out.result.value;
            && NormalStart(request).Some?
            && var r := NormalStart(request).value;
               var k := KeyOf(auth, r);
            && k !in s.starts && k in out.state.starts
            && var record := out.state.starts[k];
            && record.body == BodyOf(r) && record.conv == reply.conv && record.turn == reply.turn
            && record.first == reply.first && record.last == reply.last && reply.items == ItemIds(record.items)
            && reply.conv in out.state.convs && Intact(out.state.convs[reply.conv], record)
  {
    hide Inv, NormalStart, StartOn;
    var r := NormalStart(request).value;
    var c := if r.conv.Some? then r.conv.value else s.nextId;
    var conv := if r.conv.Some? then s.convs[c] else NewConv(auth.actor);
    assert r.items != [] by { NormalHasItems(request); }
    StartOnRecords(s, auth, r, c, conv, if r.conv.Some? then s.nextId else s.nextId + 1);
  }

  lemma NormalHasItems(request: StartRequest)
    ensures NormalStart(request).Some? ==> NormalStart(request).value.items != []
  {
    hide Text.Trim, NormalTitle;
  }

  lemma StartOnRecords(s: State, auth: Session, r: StartRequest, c: Id, conv: Conversation, t: Id)
    requires r.items != [] && StartOn(s, auth, r, c, conv, t).result.Success?
    ensures var out := StartOn(s, auth, r, c, conv, t);
            var reply := out.result.value;
            var k := KeyOf(auth, r);
            && !reply.replayed && reply.conv == c && k in out.state.starts && c in out.state.convs
            && var record := out.state.starts[k];
            && record.body == BodyOf(r) && record.conv == c && record.turn == reply.turn
            && record.first == reply.first && record.last == reply.last && reply.items == ItemIds(record.items)
            && Intact(out.state.convs[c], record)
  {
    hide FilesOwned, ActiveExists, ConvFiles, FileUri.References, FileUri.BatchReferences, NewItems, Place, Intact;
    var out := StartOn(s, auth, r, c, conv, t);
    var record := out.state.starts[KeyOf(auth, r)];
    FreshComplete(conv, record, t + 1);
    IntactByItems(Extend(conv, NewItems(r.items, Some(t), User, t + 1)), out.state.convs[c], record);
  }

  lemma IntactByItems(a: Conversation, b: Conversation, r: TurnStart)
    requires a.items == b.items
    ensures Intact(a, r) == Intact(b, r)
  {
  }

  // Turn-start retry is decided exactly by history. After any run, the same request returns the
  // original conversation, turn, item ids and range if and only if the conversation was not deleted
  // and no truncation cut at or below the original end; otherwise the result is reported deleted,
  // also when new items reuse the same numbers. Either way the retry changes nothing.
  lemma RetryDecidedByHistory(s: State, auth: Session, request: StartRequest, events: seq<Event>)
    requires Inv(s)
    requires StartTurn(s, auth, request).result.Success? && !StartTurn(s, auth, request).result.value.replayed
    ensures var first := StartTurn(s, auth, request);
            var reply := first.result.value;
            var after := Run(first.state, events);
            StartTurn(after, auth, request) ==
              Outcome(after, if CutSince(first.state, events, reply.conv, reply.last) then Failure(ResultDeleted)
                             else Success(reply.(replayed := true)))
  {
    hide Inv, Run, CutSince, NormalStart, StartOn, OrdinalTest;
    var first := StartTurn(s, auth, request);
    var r := NormalStart(request).value;
    var k := KeyOf(auth, r);
    FirstStart(s, auth, request);
    StartTurnKeeps(s, auth, request);
    var record := first.state.starts[k];
    IntactIffUncut(first.state, events, k);
    var after := Run(first.state, events);
    if record.conv in after.convs {
      CompletenessTestsAgree(after, k);
      assert Owned(after, auth.actor, record.conv);
    }
  }

  // One start a key: after the first, no request of the session under the key writes anything again.
  lemma StartOnlyOnce(s: State, auth: Session, request: StartRequest, events: seq<Event>, again: StartRequest)
    requires Inv(s)
    requires StartTurn(s, auth, request).result.Success? && !StartTurn(s, auth, request).result.value.replayed
    requires NormalStart(again).Some? && NormalStart(again).value.key == NormalStart(request).value.key
    ensures var after := Run(StartTurn(s, auth, request).state, events);
            var out := StartTurn(after, auth, again);
            out.state == after && (out.result.Success? ==> out.result.value.replayed)
  {
    hide Inv, Run, NormalStart, StartOn, OrdinalTest;
    FirstStart(s, auth, request);
    StartsPersist(StartTurn(s, auth, request).state, events, KeyOf(auth, NormalStart(request).value));
  }

  // In every reachable state a conversation has at most one pending or streaming turn, although
  // update_turn neither locks nor checks, and its turns have unique idempotency keys.
  lemma OneActiveTurn(events: seq<Event>, c: Id)
    requires c in Run(EMPTY, events).convs
    ensures var turns := Run(EMPTY, events).convs[c].turns;
            && (forall i, j :: 0 <= i < j < |turns| ==> !(turns[i].status.Active() && turns[j].status.Active()))
            && (forall i, j :: 0 <= i < j < |turns| && turns[i].key.Some? ==> turns[i].key != turns[j].key)
  {
    hide Run;
    EmptyInv();
    RunKeeps(EMPTY, events);
    InvConv(Run(EMPTY, events), c);
  }

  // ---- Agent replay ----

  // A turn has one start record, so the record found by a replay is the one.
  lemma ReplayFindsRecord(s: State, a: Actor, c: Id, t: Id, agent: string, config: AgentProjection.Config, k: StartKey)
    requires Inv(s) && StartsTurn(s, k, c, t)
    ensures AgentReplay(s, a, c, t, agent, config) ==
              if Owned(s, a, c) && TurnRuns(s.convs[c], t, agent) then ReplayRecord(s.convs[c].items, s.starts[k], config)
              else Failure(NotFound)
  {
    forall l | StartsTurn(s, l, c, t) ensures l == k {
      assert StartsApart(s, k, l);
    }
  }

  // Agent replay is immutable: whatever happens in between, two successful replays of one turn
  // under one configuration return the same boundary and the same input.
  lemma ReplayImmutable(s: State, events: seq<Event>, c: Id, t: Id, config: AgentProjection.Config,
                        a: Actor, agent: string, a': Actor, agent': string)
    requires Inv(s)
    ensures var earlier, later := AgentReplay(s, a, c, t, agent, config), AgentReplay(Run(s, events), a', c, t, agent', config);
            earlier.Success? && later.Success? ==> earlier == later
  {
    hide Inv, Run, CutSince, ReplayRecord, RemovedSince;
    if AgentReplay(s, a, c, t, agent, config).Success? && AgentReplay(Run(s, events), a', c, t, agent', config).Success? {
      var k :| StartsTurn(s, k, c, t);
      var r := s.starts[k];
      var after := Run(s, events);
      ReplayFindsRecord(s, a, c, t, agent, config, k);
      CompletenessTestsAgree(s, k);
      assert CountTest(s.convs[c].items, r) by { ReplayCounts(s.convs[c].items, r, config); }
      IntactIffUncut(s, events, k);
      ReplayFindsRecord(after, a', c, t, agent', config, k);
      CompletenessTestsAgree(after, k);
      assert CountTest(after.convs[c].items, r) by { ReplayCounts(after.convs[c].items, r, config); }
      StartNotRemoved(s, Creating(a), k);
      IntactPersists(s, events, k);
      RunBelow(s, events, c, r.last);
      RowsAgree(s.convs[c].items, after.convs[c].items, 1, r.last);
      ReplayByRows(s.convs[c].items, after.convs[c].items, r, config);
    }
  }

  lemma ReplayCounts(items: map<int, Item>, r: TurnStart, config: AgentProjection.Config)
    requires ReplayRecord(items, r, config).Success?
    ensures CountTest(items, r)
  {
  }

  lemma ReplayByRows(items: map<int, Item>, other: map<int, Item>, r: TurnStart, config: AgentProjection.Config)
    requires CountTest(items, r) && CountTest(other, r) && Rows(items, 1, r.last) == Rows(other, 1, r.last)
    ensures ReplayRecord(items, r, config) == ReplayRecord(other, r, config)
  {
  }

  // A complete start's payloads are the last rows of the transcript up to its end.
  lemma OwnRowsLast(conv: Conversation, r: TurnStart, bound: Id, i: int)
    requires RecordOk(r, bound) && Complete(conv, r) && 0 <= i < |r.body.items|
    ensures var rows := Rows(conv.items, 1, r.last);
            var own := |r.body.items|;
            own <= |rows| && rows[|rows| - own + i].item.payload == r.body.items[i]
  {
    hide Rows;
    var items := conv.items;
    RowsSplit(items, 1, r.first - 1, r.last);
    forall n | r.first <= n <= r.last ensures n in items {
      assert ChildFound(items, r.turn, r.items[n - r.first]);
    }
    var n := r.first + i;
    assert ChildFound(items, r.turn, r.items[i]);
    RowAt(items, r.first, r.last, n);
    assert Rows(items, r.first, r.last)[n - r.first] == Rows(items, r.first, r.last)[i];
  }

  // A successful replay ends with the turn's own items, in order, with only the configured
  // top-level fields removed.
  lemma ReplayEndsWithTurn(s: State, a: Actor, c: Id, t: Id, agent: string, config: AgentProjection.Config, k: StartKey)
    requires Inv(s) && StartsTurn(s, k, c, t)
    requires AgentReplay(s, a, c, t, agent, config).Success?
    ensures var r := s.starts[k];
            var reply := AgentReplay(s, a, c, t, agent, config).value;
            var own := |r.body.items|;
            && reply.through == r.last
            && own <= |reply.input|
            && reply.input[|reply.input| - own..] == AgentProjection.StripAll(r.body.items, config.strip)
  {
    hide Inv, Rows, Complete, CountTest, Intact, OlderBefore, AgentProjection.Project, HasTurn;
    var r := s.starts[k];
    var conv := s.convs[c];
    ReplayFindsRecord(s, a, c, t, agent, config, k);
    ReplayCounts(conv.items, r, config);
    CompletenessTestsAgree(s, k);
    StartOkOf(s, k);
    ReplayTail(conv, r, s.nextId, config);
  }

  lemma ReplayTail(conv: Conversation, r: TurnStart, bound: Id, config: AgentProjection.Config)
    requires RecordOk(r, bound) && Complete(conv, r)
    requires AgentProjection.Project(Payloads(Rows(conv.items, 1, r.last)), config).Success?
    ensures var input := AgentProjection.Project(Payloads(Rows(conv.items, 1, r.last)), config).value;
            var own := |r.body.items|;
            && own <= |input| && input[|input| - own..] == AgentProjection.StripAll(r.body.items, config.strip)
  {
    hide Rows, Complete, RecordOk, Payloads, AgentProjection.Replayable, AgentProjection.Strip, AgentProjection.StripAll;
    var rows := Rows(conv.items, 1, r.last);
    var input := AgentProjection.StripAll(Payloads(rows), config.strip);
    var own := |r.body.items|;
    if own > 0 { OwnRowsLast(conv, r, bound, 0); }
    forall i | 0 <= i < own ensures input[|input| - own + i] == AgentProjection.Strip(r.body.items[i], config.strip) {
      OwnRowsLast(conv, r, bound, i);
    }
  }

  // No item that a successful replay returned has a file-reference row.
  lemma ReplayReferencesNothing(s: State, a: Actor, c: Id, t: Id, agent: string, config: AgentProjection.Config, n: int)
    requires Inv(s) && AgentReplay(s, a, c, t, agent, config).Success?
    requires n in s.convs[c].items && n <= AgentReplay(s, a, c, t, agent, config).value.through
    ensures s.convs[c].items[n].files == {}
  {
    hide Inv, AgentProjection.Replayable, Rows, CountTest, FileUri.References, TurnsOk, BatchesOk;
    var k :| StartsTurn(s, k, c, t);
    ReplayFindsRecord(s, a, c, t, agent, config, k);
    var r := s.starts[k];
    AgentProjection.ProjectionIsExact(Payloads(Rows(s.convs[c].items, 1, r.last)), config);
    InvConv(s, c);
    RowPresent(s.convs[c].items, 1, r.last, n);
  }

  lemma {:induction false} RowPresent(items: map<int, Item>, lo: int, hi: int, n: int)
    requires lo <= n <= hi && n in items
    ensures exists i :: 0 <= i < |Rows(items, lo, hi)| && Rows(items, lo, hi)[i] == Row(n, items[n])
    decreases hi - lo
  {
    var rows := Rows(items, lo, hi);
    if lo == n {
      assert rows[0] == Row(n, items[n]);
    } else {
      RowPresent(items, lo + 1, hi, n);
      var i :| 0 <= i < |Rows(items, lo + 1, hi)| && Rows(items, lo + 1, hi)[i] == Row(n, items[n]);
      assert rows[|rows| - |Rows(items, lo + 1, hi)| + i] == Row(n, items[n]);
    }
  }
}
