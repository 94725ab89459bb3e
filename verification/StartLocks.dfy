/** Concurrent turn starts: every lock, check and insert is a step of its own.

  Any number of requests run at once. `start_turn` takes an advisory lock on its key, looks the key up,
  locks the conversation row, looks for an active turn and inserts; `create_turn` does the same without
  a key. `update_turn` changes a status without any lock. The unique indexes refuse an insert or update. */
module StartLocks {
  import opened Wrappers

  type Proc = nat
  type Key = nat
  type Conv = nat
  type TurnId = nat

  // `key` is None for create_turn.
  datatype Request = Request(key: Option<Key>, conv: Conv)

  datatype Pc =
    | Waiting            // wants the advisory lock
    | Holding            // has the advisory lock
    | Fresh              // found no earlier start under its key
    | RowLocked          // has the conversation row
    | Clear              // saw no active turn
    | Replayed           // found an earlier start
    | Started            // inserted the turn and, with a key, the start record
    | Refused            // active_turn_exists, or gave up
    | KeyViolation       // the unique index on turn_starts refused the insert

  // `lockOf` is the 64-bit lock key; different start keys may share one. `wins` lists the keys of
  // all non-replayed starts; `revived` holds the requests on whose conversation update_turn made a
  // turn active after they looked.
  datatype State = State(
    requests: map<Proc, Request>, pcs: map<Proc, Pc>,
    advisory: map<int, Proc>, rows: map<Conv, Proc>,
    starts: set<Key>, active: map<Conv, set<TurnId>>,
    wins: seq<Key>, revived: set<Proc>)

  datatype Action =
    | Arrive(p: Proc, request: Request)
    | TakeAdvisory(p: Proc)
    | LookUpKey(p: Proc)
    | TakeRow(p: Proc)
    | LookForActive(p: Proc)
    | Insert(p: Proc, turn: TurnId)
    | GiveUp(p: Proc)
    | Revive(c: Conv, turn: TurnId)
    | Settle(c: Conv, turn: TurnId)

  const EMPTY := State(map[], map[], map[], map[], {}, map[], [], {})

  function ActiveIn(s: State, c: Conv): set<TurnId> {
    if c in s.active then s.active[c] else {}
  }

  predicate At(s: State, p: Proc, pc: Pc) {
    p in s.requests && p in s.pcs && s.pcs[p] == pc
  }

  function To(s: State, p: Proc, pc: Pc): State {
    s.(pcs := s.pcs[p := pc])
  }

  // The end of a transaction frees both of its locks.
  function Release(s: State, p: Proc): State {
    s.(advisory := map l | l in s.advisory && s.advisory[l] != p :: s.advisory[l],
       rows := map c | c in s.rows && s.rows[c] != p :: s.rows[c])
  }

  function Next(s: State, a: Action, lockOf: Key -> int): State {
    match a
    case Arrive(p, r) =>
      if p in s.pcs || p in s.requests then s
      else s.(requests := s.requests[p := r], pcs := s.pcs[p := if r.key.Some? then Waiting else Fresh])
    case TakeAdvisory(p) =>
      if !At(s, p, Waiting) || s.requests[p].key.None? || lockOf(s.requests[p].key.value) in s.advisory then s
      else To(s, p, Holding).(advisory := s.advisory[lockOf(s.requests[p].key.value) := p])
    case LookUpKey(p) =>
      if !At(s, p, Holding) || s.requests[p].key.None? then s
      else if s.requests[p].key.value in s.starts then Release(To(s, p, Replayed), p)
      else To(s, p, Fresh)
    case TakeRow(p) =>
      if !At(s, p, Fresh) || s.requests[p].conv in s.rows then s
      else To(s, p, RowLocked).(rows := s.rows[s.requests[p].conv := p])
    case LookForActive(p) =>
      if !At(s, p, RowLocked) then s
      else if ActiveIn(s, s.requests[p].conv) != {} then Release(To(s, p, Refused), p)
      else To(s, p, Clear).(revived := s.revived - {p})
    case Insert(p, turn) =>
      if !At(s, p, Clear) then s
      else
        var r := s.requests[p];
        if ActiveIn(s, r.conv) != {} then Release(To(s, p, Refused), p)
        else if r.key.Some? && r.key.value in s.starts then Release(To(s, p, KeyViolation), p)
        else
          Release(To(s, p, Started), p).(
            starts := if r.key.Some? then s.starts + {r.key.value} else s.starts,
            wins := if r.key.Some? then s.wins + [r.key.value] else s.wins,
            active := s.active[r.conv := {turn}])
    case GiveUp(p) =>
      if p !in s.pcs || s.pcs[p].Replayed? || s.pcs[p].Started? || s.pcs[p].KeyViolation? then s
      else Release(To(s, p, Refused), p)
    case Revive(c, turn) =>
      if ActiveIn(s, c) != {} && ActiveIn(s, c) != {turn} then s
      else s.(active := s.active[c := {turn}],
              revived := s.revived + set p | p in s.requests && s.requests[p].conv == c)
    case Settle(c, turn) => s.(active := s.active[c := ActiveIn(s, c) - {turn}])
  }

  function Run(s: State, actions: seq<Action>, lockOf: Key -> int): State
    decreases |actions|
  {
    if actions == [] then s else Run(Next(s, actions[0], lockOf), actions[1..], lockOf)
  }

  predicate HoldsAdvisory(pc: Pc) {
    pc.Holding? || pc.Fresh? || pc.RowLocked? || pc.Clear?
  }

  predicate PastLookUp(pc: Pc) {
    pc.Fresh? || pc.RowLocked? || pc.Clear?
  }

  predicate HoldsRow(pc: Pc) {
    pc.RowLocked? || pc.Clear?
  }

  // What one request relies on: its locks are its own, and a key it found absent stays absent.
  predicate ProcOk(s: State, p: Proc, lockOf: Key -> int) {
    p in s.pcs ==>
      && p in s.requests
      && !s.pcs[p].KeyViolation?
      && var r := s.requests[p];
         && (r.key.Some? && HoldsAdvisory(s.pcs[p]) ==>
               lockOf(r.key.value) in s.advisory && s.advisory[lockOf(r.key.value)] == p)
         && (r.key.Some? && PastLookUp(s.pcs[p]) ==> r.key.value !in s.starts)
         && (HoldsRow(s.pcs[p]) ==> r.conv in s.rows && s.rows[r.conv] == p)
         && (s.pcs[p].Clear? && ActiveIn(s, r.conv) != {} ==> p in s.revived)
  }

  predicate AtMostOne(turns: set<TurnId>) {
    turns == {} || exists t :: t in turns && turns == {t}
  }

  ghost predicate Inv(s: State, lockOf: Key -> int) {
    && (forall p :: ProcOk(s, p, lockOf))
    && (forall c :: AtMostOne(ActiveIn(s, c)))
    && (forall k :: k in s.wins <==> k in s.starts)
    && (forall i, j :: 0 <= i < j < |s.wins| ==> s.wins[i] != s.wins[j])
  }

  lemma ReleaseKeeps(s: State, p: Proc, q: Proc, pc: Pc, lockOf: Key -> int)
    requires ProcOk(s, q, lockOf) && p in s.pcs && p in s.requests && !HoldsAdvisory(pc) && !pc.KeyViolation?
    ensures ProcOk(Release(To(s, p, pc), p), q, lockOf)
  {
  }

  lemma TakeProc(s: State, p: Proc, q: Proc, lockOf: Key -> int)
    requires ProcOk(s, p, lockOf) && ProcOk(s, q, lockOf)
    ensures ProcOk(Next(s, TakeAdvisory(p), lockOf), q, lockOf) && ProcOk(Next(s, TakeRow(p), lockOf), q, lockOf)
  {
  }

  lemma LookProc(s: State, p: Proc, q: Proc, lockOf: Key -> int)
    requires ProcOk(s, p, lockOf) && ProcOk(s, q, lockOf)
    ensures ProcOk(Next(s, LookUpKey(p), lockOf), q, lockOf) && ProcOk(Next(s, LookForActive(p), lockOf), q, lockOf)
  {
    if p in s.pcs {
      ReleaseKeeps(s, p, q, Replayed, lockOf);
      ReleaseKeeps(s, p, q, Refused, lockOf);
    }
  }

  lemma EndProc(s: State, p: Proc, turn: TurnId, q: Proc, lockOf: Key -> int)
    requires ProcOk(s, p, lockOf) && ProcOk(s, q, lockOf)
    ensures ProcOk(Next(s, GiveUp(p), lockOf), q, lockOf) && ProcOk(Next(s, Insert(p, turn), lockOf), q, lockOf)
  {
    if p in s.pcs {
      ReleaseKeeps(s, p, q, Refused, lockOf);
      ReleaseKeeps(s, p, q, Started, lockOf);
    }
  }

  lemma NextProc(s: State, a: Action, q: Proc, lockOf: Key -> int)
    requires Inv(s, lockOf)
    ensures ProcOk(Next(s, a, lockOf), q, lockOf)
  {
    hide AtMostOne, ActiveIn, At, Release;
    assert ProcOk(s, q, lockOf);
    match a
    case TakeAdvisory(p) => TakeProc(s, p, q, lockOf);
    case LookUpKey(p) => LookProc(s, p, q, lockOf);
    case TakeRow(p) => TakeProc(s, p, q, lockOf);
    case LookForActive(p) => LookProc(s, p, q, lockOf);
    case Insert(p, turn) => EndProc(s, p, turn, q, lockOf);
    case GiveUp(p) => EndProc(s, p, 0, q, lockOf);
    case Arrive(p, r) => OtherProc(s, p, r, 0, 0, q, lockOf);
    case Revive(c, turn) => OtherProc(s, 0, Request(None, 0), c, turn, q, lockOf);
    case Settle(c, turn) => OtherProc(s, 0, Request(None, 0), c, turn, q, lockOf);
  }

  lemma OtherProc(s: State, p: Proc, r: Request, c: Conv, turn: TurnId, q: Proc, lockOf: Key -> int)
    requires ProcOk(s, q, lockOf)
    ensures ProcOk(Next(s, Arrive(p, r), lockOf), q, lockOf)
    ensures ProcOk(Next(s, Revive(c, turn), lockOf), q, lockOf) && ProcOk(Next(s, Settle(c, turn), lockOf), q, lockOf)
  {
  }

  lemma NextActive(s: State, a: Action, c: Conv, lockOf: Key -> int)
    requires Inv(s, lockOf)
    ensures AtMostOne(ActiveIn(Next(s, a, lockOf), c))
  {
    var after := Next(s, a, lockOf);
    assert AtMostOne(ActiveIn(s, c));
    if ActiveIn(after, c) != ActiveIn(s, c) {
      match a
      case Insert(p, turn) => assert ActiveIn(after, c) == {turn} && turn in {turn};
      case Revive(d, turn) => assert ActiveIn(after, c) == {turn} && turn in {turn};
      case _ =>
    }
  }

  lemma NextKeeps(s: State, a: Action, lockOf: Key -> int)
    requires Inv(s, lockOf)
    ensures Inv(Next(s, a, lockOf), lockOf)
  {
    hide AtMostOne;
    forall q ensures ProcOk(Next(s, a, lockOf), q, lockOf) { NextProc(s, a, q, lockOf); }
    forall c ensures AtMostOne(ActiveIn(Next(s, a, lockOf), c)) { NextActive(s, a, c, lockOf); }
  }

  lemma {:induction false} RunKeeps(s: State, actions: seq<Action>, lockOf: Key -> int)
    requires Inv(s, lockOf)
    ensures Inv(Run(s, actions, lockOf), lockOf)
    decreases |actions|
  {
    hide Inv, Next;
    if actions != [] {
      NextKeeps(s, actions[0], lockOf);
      RunKeeps(Next(s, actions[0], lockOf), actions[1..], lockOf);
    }
  }

  // For every interleaving and every lock-key function: a key wins at most once ever, no request
  // runs into the unique index on turn_starts, a conversation never has two active turns, and a
  // request that saw no active turn meets one only if update_turn revived it in between.
  lemma StartsAreUnique(actions: seq<Action>, lockOf: Key -> int)
    ensures var s := Run(EMPTY, actions, lockOf);
            && (forall i, j :: 0 <= i < j < |s.wins| ==> s.wins[i] != s.wins[j])
            && (forall p :: p in s.pcs ==> !s.pcs[p].KeyViolation?)
            && (forall c :: |ActiveIn(s, c)| <= 1)
            && (forall p :: p in s.pcs && s.pcs[p].Clear? ==>
                  p in s.requests && (ActiveIn(s, s.requests[p].conv) != {} ==> p in s.revived))
  {
    RunKeeps(EMPTY, actions, lockOf);
    var s := Run(EMPTY, actions, lockOf);
    forall c ensures |ActiveIn(s, c)| <= 1 { assert AtMostOne(ActiveIn(s, c)); }
    forall p | p in s.pcs
      ensures !s.pcs[p].KeyViolation?
      ensures s.pcs[p].Clear? ==> p in s.requests && (ActiveIn(s, s.requests[p].conv) != {} ==> p in s.revived)
    {
      assert ProcOk(s, p, lockOf);
    }
  }

  // The look-up alone would not do: update_turn can slip in after it, and then only the partial
  // unique index refuses the insert.
  lemma LookUpIsNotEnough(lockOf: Key -> int) returns (actions: seq<Action>)
    ensures var s := Run(EMPTY, actions, lockOf);
            && At(s, 0, Clear) && ActiveIn(s, 7) == {1}
            && At(Next(s, Insert(0, 2), lockOf), 0, Refused)
  {
    var a1, a2, a3, a4 := Arrive(0, Request(None, 7)), TakeRow(0), LookForActive(0), Revive(7, 1);
    actions := [a1, a2, a3, a4];
    RunFour(EMPTY, a1, a2, a3, a4, lockOf);
    var s1 := Next(EMPTY, a1, lockOf);
    assert At(s1, 0, Fresh);
    var s2 := Next(s1, a2, lockOf);
    assert At(s2, 0, RowLocked) && ActiveIn(s2, 7) == {};
    var s3 := Next(s2, a3, lockOf);
    assert At(s3, 0, Clear) && s3.requests[0].conv == 7;
  }

  lemma RunFour(s: State, a1: Action, a2: Action, a3: Action, a4: Action, lockOf: Key -> int)
    ensures Run(s, [a1, a2, a3, a4], lockOf) == Next(Next(Next(Next(s, a1, lockOf), a2, lockOf), a3, lockOf), a4, lockOf)
  {
    hide Next;
    var s1 := Next(s, a1, lockOf);
    var s2 := Next(s1, a2, lockOf);
    var s3 := Next(s2, a3, lockOf);
    assert [a1, a2, a3, a4][1..] == [a2, a3, a4] && [a2, a3, a4][1..] == [a3, a4] && [a3, a4][1..] == [a4] && [a4][1..] == [];
    assert Run(s3, [a4], lockOf) == Next(s3, a4, lockOf);
    assert Run(s2, [a3, a4], lockOf) == Run(s3, [a4], lockOf);
    assert Run(s1, [a2, a3, a4], lockOf) == Run(s2, [a3, a4], lockOf);
  }

  predicate Finished(pc: Pc) {
    pc.Replayed? || pc.Started? || pc.Refused? || pc.KeyViolation?
  }

  // Every lock belongs to a request that is past taking it and not at its end.
  ghost predicate Owned(s: State) {
    && (forall p :: p in s.pcs <==> p in s.requests)
    && (forall p :: p in s.pcs && (s.pcs[p].Waiting? || s.pcs[p].Holding?) ==> s.requests[p].key.Some?)
    && (forall l :: l in s.advisory ==> s.advisory[l] in s.pcs && HoldsAdvisory(s.pcs[s.advisory[l]]))
    && (forall c :: c in s.rows ==> s.rows[c] in s.pcs && HoldsRow(s.pcs[s.rows[c]]))
  }

  lemma {:induction false} RunOwned(s: State, actions: seq<Action>, lockOf: Key -> int)
    requires Owned(s)
    ensures Owned(Run(s, actions, lockOf))
    decreases |actions|
  {
    if actions != [] {
      NextOwned(s, actions[0], lockOf);
      hide Next, Owned;
      RunOwned(Next(s, actions[0], lockOf), actions[1..], lockOf);
    }
  }

  lemma NextOwned(s: State, a: Action, lockOf: Key -> int)
    requires Owned(s)
    ensures Owned(Next(s, a, lockOf))
  {
    if a.LookUpKey? || a.LookForActive? || a.Insert? || a.GiveUp? {
      EndingOwned(s, a, lockOf);
    }
  }

  lemma EndingOwned(s: State, a: Action, lockOf: Key -> int)
    requires Owned(s) && (a.LookUpKey? || a.LookForActive? || a.Insert? || a.GiveUp?)
    ensures Owned(Next(s, a, lockOf))
  {
    hide HoldsAdvisory, HoldsRow;
    match a
    case LookUpKey(p) => MovedOwned(s, p);
    case LookForActive(p) => MovedOwned(s, p);
    case Insert(p, turn) => MovedOwned(s, p);
    case GiveUp(p) => MovedOwned(s, p);
  }

  // A request may end if it gives its locks back, and go on if it keeps them.
  lemma MovedOwned(s: State, p: Proc)
    requires Owned(s)
    ensures p in s.requests ==> forall pc :: Finished(pc) ==> Owned(Release(To(s, p, pc), p))
    ensures p in s.pcs && s.pcs[p].Holding? ==> Owned(To(s, p, Fresh))
    ensures p in s.pcs && s.pcs[p].RowLocked? ==> Owned(To(s, p, Clear))
  {
  }

  // The step that a request makes next.
  function StepOf(s: State, p: Proc, turn: TurnId): Action
    requires p in s.pcs
  {
    match s.pcs[p]
    case Waiting => TakeAdvisory(p)
    case Holding => LookUpKey(p)
    case Fresh => TakeRow(p)
    case RowLocked => LookForActive(p)
    case _ => Insert(p, turn)
  }

  // In every interleaving a request that has come to its end, whatever its answer, holds no lock; and
  // there is no deadlock: while a request is under way, some request can make its next step.
  lemma LocksGivenBack(actions: seq<Action>, p: Proc, turn: TurnId, lockOf: Key -> int) returns (q: Proc)
    ensures var s := Run(EMPTY, actions, lockOf);
            p in s.pcs ==>
              if Finished(s.pcs[p]) then
                (forall l :: l in s.advisory ==> s.advisory[l] != p) && (forall c :: c in s.rows ==> s.rows[c] != p)
              else
                q in s.pcs && !Finished(s.pcs[q]) && var t := Next(s, StepOf(s, q, turn), lockOf);
                q in t.pcs && t.pcs[q] != s.pcs[q]
  {
    RunOwned(EMPTY, actions, lockOf);
    q := Unstuck(Run(EMPTY, actions, lockOf), p, turn, lockOf);
  }

  lemma Unstuck(s: State, p: Proc, turn: TurnId, lockOf: Key -> int) returns (q: Proc)
    requires Owned(s)
    ensures p in s.pcs && !Finished(s.pcs[p]) ==>
              q in s.pcs && !Finished(s.pcs[q]) && var t := Next(s, StepOf(s, q, turn), lockOf);
              q in t.pcs && t.pcs[q] != s.pcs[q]
  {
    q := p;
    if p in s.pcs {
      var r := s.requests[p];
      if s.pcs[p].Waiting? && lockOf(r.key.value) in s.advisory {
        HolderHolds(s, lockOf(r.key.value));
        q := s.advisory[lockOf(r.key.value)];
      }
      if s.pcs[q].Fresh? && s.requests[q].conv in s.rows {
        q := s.rows[s.requests[q].conv];
        assert HoldsRow(s.pcs[q]);
      }
      if !Finished(s.pcs[p]) { StepMoves(s, q, turn, lockOf); }
    }
  }

  lemma HolderHolds(s: State, l: int)
    requires Owned(s) && l in s.advisory
    ensures s.advisory[l] in s.pcs && HoldsAdvisory(s.pcs[s.advisory[l]])
  {
  }

  // What a request waits for is free, so its step succeeds.
  lemma StepMoves(s: State, q: Proc, turn: TurnId, lockOf: Key -> int)
    requires q in s.pcs && q in s.requests && !Finished(s.pcs[q])
    requires s.pcs[q].Waiting? || s.pcs[q].Holding? ==> s.requests[q].key.Some?
    requires s.pcs[q].Waiting? ==> lockOf(s.requests[q].key.value) !in s.advisory
    requires s.pcs[q].Fresh? ==> s.requests[q].conv !in s.rows
    ensures var t := Next(s, StepOf(s, q, turn), lockOf); q in t.pcs && t.pcs[q] != s.pcs[q]
  {
    match s.pcs[q]
    case Waiting =>
    case Holding =>
    case Fresh =>
    case RowLocked =>
    case _ =>
  }

  // Locks and turns leave the request alone: nobody holds what it wants and no turn is active.
  predicate Alone(s: State, p: Proc, r: Request, lockOf: Key -> int) {
    && p !in s.pcs && p !in s.requests && r.conv !in s.rows && ActiveIn(s, r.conv) == {}
    && (r.key.Some? ==> lockOf(r.key.value) !in s.advisory)
  }

  // A request left alone succeeds: under an unused key, or without one, it starts its turn ...
  lemma LoneStartWins(s: State, p: Proc, r: Request, turn: TurnId, lockOf: Key -> int)
    requires Alone(s, p, r, lockOf) && (r.key.Some? ==> r.key.value !in s.starts)
    ensures var s1 := Next(s, Arrive(p, r), lockOf);
            var s2 := if r.key.Some? then Next(Next(s1, TakeAdvisory(p), lockOf), LookUpKey(p), lockOf) else s1;
            var t := Next(Next(Next(s2, TakeRow(p), lockOf), LookForActive(p), lockOf), Insert(p, turn), lockOf);
            && At(t, p, Started) && ActiveIn(t, r.conv) == {turn}
            && (r.key.Some? ==> t.wins == s.wins + [r.key.value] && r.key.value in t.starts)
            && t.advisory.Values !! {p} && t.rows.Values !! {p}
  {
    var s1 := Next(s, Arrive(p, r), lockOf);
    assert At(s1, p, if r.key.Some? then Waiting else Fresh);
    var s2 := if r.key.Some? then Next(Next(s1, TakeAdvisory(p), lockOf), LookUpKey(p), lockOf) else s1;
    assert At(s2, p, Fresh) && s2.rows == s.rows && s2.active == s.active && s2.starts == s.starts && s2.wins == s.wins;
    LoneEnd(s2, p, turn, lockOf);
  }

  lemma LoneEnd(s: State, p: Proc, turn: TurnId, lockOf: Key -> int)
    requires At(s, p, Fresh) && s.requests[p].conv !in s.rows && ActiveIn(s, s.requests[p].conv) == {}
    requires s.requests[p].key.Some? ==> s.requests[p].key.value !in s.starts
    ensures var r := s.requests[p];
            var t := Next(Next(Next(s, TakeRow(p), lockOf), LookForActive(p), lockOf), Insert(p, turn), lockOf);
            && At(t, p, Started) && ActiveIn(t, r.conv) == {turn}
            && (r.key.Some? ==> t.wins == s.wins + [r.key.value] && r.key.value in t.starts)
            && t.advisory.Values !! {p} && t.rows.Values !! {p}
  {
    var s1 := Next(s, TakeRow(p), lockOf);
    assert At(s1, p, RowLocked) && ActiveIn(s1, s.requests[p].conv) == {};
    var s2 := Next(s1, LookForActive(p), lockOf);
    assert At(s2, p, Clear) && s2.active == s.active && s2.starts == s.starts && s2.wins == s.wins;
  }

  // ... under a used key it is answered from the record, without starting anything; and it is refused
  // when it sees an active turn.
  lemma LoneRetryReplays(s: State, p: Proc, r: Request, lockOf: Key -> int)
    requires Alone(s, p, r, lockOf) && r.key.Some? && r.key.value in s.starts
    ensures var t := Next(Next(Next(s, Arrive(p, r), lockOf), TakeAdvisory(p), lockOf), LookUpKey(p), lockOf);
            At(t, p, Replayed) && t.wins == s.wins && t.active == s.active && t.starts == s.starts
  {
    var s1 := Next(s, Arrive(p, r), lockOf);
    assert At(s1, p, Waiting);
    var s2 := Next(s1, TakeAdvisory(p), lockOf);
    assert At(s2, p, Holding);
  }

  lemma ActiveTurnRefuses(s: State, p: Proc, lockOf: Key -> int)
    requires At(s, p, RowLocked)
    ensures var t := Next(s, LookForActive(p), lockOf);
            At(t, p, if ActiveIn(s, s.requests[p].conv) == {} then Clear else Refused)
  {
  }
}
