/** What an agent replay returns, and when. */
module LedgerReplay {
  import opened Wrappers
  import opened LedgerState
  import opened LedgerInvariant
  import opened LedgerTheorems
  import AgentProjection
  import Json

  // The item numbers from lo to hi.
  function Numbers(items: map<int, Item>, lo: int, hi: int): set<int> {
    set n | n in items && lo <= n <= hi
  }

  lemma NumbersFirst(items: map<int, Item>, lo: int, hi: int)
    requires lo <= hi
    ensures Numbers(items, lo, hi) == (if lo in items then {lo} else {}) + Numbers(items, lo + 1, hi)
    ensures lo !in Numbers(items, lo + 1, hi)
  {
  }

  // One row for every item of the range.
  lemma {:induction false} RowsCount(items: map<int, Item>, lo: int, hi: int)
    ensures |Rows(items, lo, hi)| == |Numbers(items, lo, hi)|
    decreases hi - lo
  {
    if lo <= hi {
      NumbersFirst(items, lo, hi);
      RowsCount(items, lo + 1, hi);
    } else {
      assert Numbers(items, lo, hi) == {};
    }
  }

  // A row stands behind as many rows as there are items before it.
  lemma RowPlace(items: map<int, Item>, lo: int, hi: int, n: int)
    requires lo <= n <= hi && n in items
    ensures var i := |Numbers(items, lo, n - 1)|;
            i < |Rows(items, lo, hi)| && Rows(items, lo, hi)[i] == Row(n, items[n])
  {
    RowsSplit(items, lo, n - 1, hi);
    RowsCount(items, lo, n - 1);
  }

  // A replay returns the transcript up to its boundary, the items before the turn included: one element
  // for every item numbered from 1 to `through` and no other, each at the place that is the number of
  // items below it, without the configured top-level fields.
  lemma ReplayIsTranscript(s: State, a: Actor, c: Id, t: Id, agent: string, config: AgentProjection.Config, n: int)
    requires Inv(s)
    ensures var reply := AgentReplay(s, a, c, t, agent, config);
            reply.Success? ==>
              && c in s.convs
              && var items, out := s.convs[c].items, reply.value;
              && |out.input| == |Numbers(items, 1, out.through)|
              && (n in items && 1 <= n <= out.through ==>
                    var i := |Numbers(items, 1, n - 1)|;
                    i < |out.input| && out.input[i] == AgentProjection.Strip(items[n].payload, config.strip))
  {
    hide Inv, Rows, AgentReplay, CountTest;
    if AgentReplay(s, a, c, t, agent, config).Success? {
      var k := ReplayedFrom(s, a, c, t, agent, config);
      ReplayFindsRecord(s, a, c, t, agent, config, k);
      var items, last := s.convs[c].items, s.starts[k].last;
      RowsCount(items, 1, last);
      if n in items && 1 <= n <= last { RowPlace(items, 1, last, n); }
    }
  }

  lemma ReplayedFrom(s: State, a: Actor, c: Id, t: Id, agent: string, config: AgentProjection.Config) returns (k: StartKey)
    requires AgentReplay(s, a, c, t, agent, config) != Failure(NotFound)
    ensures Owned(s, a, c) && StartsTurn(s, k, c, t)
  {
    hide ReplayRecord, TurnRuns;
    k :| StartsTurn(s, k, c, t);
  }

  // Nothing up to the boundary is anything but a plain text message.
  predicate AllPlain(items: map<int, Item>, last: int) {
    forall n :: n in items && 1 <= n <= last ==> AgentProjection.Replayable(items[n].payload)
  }

  predicate Runs(turns: seq<Turn>, t: Id, agent: string) {
    exists i :: 0 <= i < |turns| && turns[i].id == t && turns[i].agent == agent
  }

  // When a replay succeeds, and which error says why it does not.
  lemma ReplayOutcome(s: State, a: Actor, c: Id, t: Id, agent: string, config: AgentProjection.Config, k: StartKey)
    requires Inv(s) && StartsTurn(s, k, c, t)
    ensures var reply := AgentReplay(s, a, c, t, agent, config);
            var last := s.starts[k].last;
            if !(Owned(s, a, c) && Runs(s.convs[c].turns, t, agent)) then reply == Failure(NotFound)
            else if !Intact(s.convs[c], s.starts[k]) then reply == Failure(SnapshotUnavailable)
            else
              var items := s.convs[c].items;
              if |Numbers(items, 1, last)| > config.maxItems then reply == Failure(Projection(AgentProjection.ContextLimit))
              else if !AllPlain(items, last) then reply == Failure(Projection(AgentProjection.UnsupportedItem))
              else
                var stripped := AgentProjection.StripAll(Payloads(Rows(items, 1, last)), config.strip);
                reply == if config.bytes(stripped) > config.maxBytes then Failure(Projection(AgentProjection.ContextLimit))
                         else Success(AgentReply(last, stripped))
  {
    hide Inv, Rows, AgentReplay, CountTest, AgentProjection.Replayable, Intact;
    ReplayFindsRecord(s, a, c, t, agent, config, k);
    if Owned(s, a, c) {
      CompletenessTestsAgree(s, k);
      var items, last := s.convs[c].items, s.starts[k].last;
      RowsCount(items, 1, last);
      PlainRows(items, last);
    }
  }

  // Without a record of the turn's start there is nothing to replay.
  lemma ReplayNeedsStart(s: State, a: Actor, c: Id, t: Id, agent: string, config: AgentProjection.Config)
    requires forall k :: !StartsTurn(s, k, c, t)
    ensures AgentReplay(s, a, c, t, agent, config) == Failure(NotFound)
  {
  }

  lemma PlainRows(items: map<int, Item>, last: int)
    ensures var payloads := Payloads(Rows(items, 1, last));
            (exists i :: 0 <= i < |payloads| && !AgentProjection.Replayable(payloads[i])) <==> !AllPlain(items, last)
  {
    hide AgentProjection.Replayable;
    var rows := Rows(items, 1, last);
    RowsAreItems(items, 1, last);
    if n :| n in items && 1 <= n <= last && !AgentProjection.Replayable(items[n].payload) {
      RowPlace(items, 1, last, n);
      assert Payloads(rows)[|Numbers(items, 1, n - 1)|] == items[n].payload;
    }
  }

  lemma {:induction false} RowsAreItems(items: map<int, Item>, lo: int, hi: int)
    ensures forall i :: 0 <= i < |Rows(items, lo, hi)| ==>
              var row := Rows(items, lo, hi)[i];
              lo <= row.number <= hi && row.number in items && row.item == items[row.number]
    decreases hi - lo
  {
    if lo <= hi { RowsAreItems(items, lo + 1, hi); }
  }
}
