/** Concurrent `initiate` calls: look-up, insert and the recursive retry, as separate steps.

  Rows of file_uploads are never deleted and their request hash never changes, so only the columns
  that `initiate` reads are kept. The hash stands for the request it is computed from: the digest is
  taken to be injective. A new upload's id is named after the call that drew it. */
module InitiateRace {
  import opened Wrappers
  import opened Text
  import opened UploadNames

  type CallId = nat

  datatype Request = Request(client: nat, key: string, filename: string, mime: string, size: int)

  datatype Digest = Digest(filename: string, mime: string, size: int)

  datatype Slot = Slot(client: nat, key: string)

  datatype Session = Session(id: CallId, digest: Digest)

  const KEY_MAX := 200

  // The checks at the top of `initiate`, in order; what it recurses with is the normalised request.
  function Normalize(r: Request, maxBytes: nat): Option<Request> {
    var key, filename, mime := BoundedTrimmed(r.key, KEY_MAX), NormalizedFilename(r.filename), NormalizedMimeType(r.mime);
    if key.None? || filename.None? || mime.None? || !(0 <= r.size <= maxBytes) then None
    else Some(Request(r.client, key.value, filename.value, mime.value, r.size))
  }

  function SlotOf(r: Request): Slot {
    Slot(r.client, r.key)
  }

  function DigestOf(r: Request): Digest {
    Digest(r.filename, r.mime, r.size)
  }

  // Normalising a normalised request changes nothing, so the retry computes the same hash.
  lemma NormalizeTwice(r: Request, maxBytes: nat)
    ensures Normalize(r, maxBytes).Some? ==>
              Normalize(Normalize(r, maxBytes).value, maxBytes) == Normalize(r, maxBytes)
  {
    hide NormalizedFilename, NormalizedMimeType;
    if Normalize(r, maxBytes).Some? {
      FilenameNormal(r.filename);
      MimeTypeNormal(r.mime);
      TrimmedFixed(BoundedTrimmed(r.key, KEY_MAX).value);
    }
  }

  datatype Pc =
    | Entering(request: Request)
    | Looking(normal: Request)
    | Adding(normal: Request)
    | Named(id: CallId, created: bool)
    | Mismatch
    | Invalid          // the request does not normalise
    | Unavailable      // direct uploads are off, or versioning is

  // `origin` is what the caller sent, `retries` how often the call has called itself.
  datatype Call = Call(origin: Request, pc: Pc, retries: nat)

  datatype State = State(sessions: map<Slot, Session>, calls: map<CallId, Call>)

  datatype Action =
    | Send(w: CallId, request: Request)
    | Enter(w: CallId, available: bool)
    | LookUp(w: CallId)
    | Insert(w: CallId)

  const EMPTY := State(map[], map[])

  function To(s: State, w: CallId, pc: Pc): State
    requires w in s.calls
  {
    s.(calls := s.calls[w := s.calls[w].(pc := pc)])
  }

  function Next(s: State, a: Action, maxBytes: nat): State {
    match a
    case Send(w, r) => if w in s.calls then s else s.(calls := s.calls[w := Call(r, Entering(r), 0)])
    case Enter(w, available) =>
      if w !in s.calls || !s.calls[w].pc.Entering? then s
      else
        var normal := Normalize(s.calls[w].pc.request, maxBytes);
        if !available then To(s, w, Unavailable)
        else if normal.None? then To(s, w, Invalid)
        else To(s, w, Looking(normal.value))
    case LookUp(w) =>
      if w !in s.calls || !s.calls[w].pc.Looking? then s
      else
        var normal := s.calls[w].pc.normal;
        if SlotOf(normal) !in s.sessions then To(s, w, Adding(normal))
        else if s.sessions[SlotOf(normal)].digest != DigestOf(normal) then To(s, w, Mismatch)
        else To(s, w, Named(s.sessions[SlotOf(normal)].id, false))
    case Insert(w) =>
      if w !in s.calls || !s.calls[w].pc.Adding? then s
      else
        var normal := s.calls[w].pc.normal;
        if SlotOf(normal) in s.sessions then
          s.(calls := s.calls[w := Call(s.calls[w].origin, Entering(normal), s.calls[w].retries + 1)])
        else
          To(s, w, Named(w, true)).(sessions := s.sessions[SlotOf(normal) := Session(w, DigestOf(normal))])
  }

  function Run(s: State, actions: seq<Action>, maxBytes: nat): State
    decreases |actions|
  {
    if actions == [] then s else Run(Next(s, actions[0], maxBytes), actions[1..], maxBytes)
  }

  // Call `w` is about the normalised form of what was sent.
  predicate CallOk(s: State, w: CallId, maxBytes: nat) {
    w in s.calls ==>
      var c := s.calls[w];
      var normal := Normalize(c.origin, maxBytes);
      && c.retries <= 1
      && (c.pc.Entering? ==>
            if c.retries == 0 then c.pc.request == c.origin
            else normal == Some(c.pc.request) && SlotOf(c.pc.request) in s.sessions)
      && (c.pc.Looking? || c.pc.Adding? ==> normal == Some(c.pc.normal))
      && (c.pc.Looking? && c.retries == 1 ==> SlotOf(c.pc.normal) in s.sessions)
      && (c.pc.Adding? ==> c.retries == 0)
      && (c.pc.Named? ==>
            && normal.Some? && SlotOf(normal.value) in s.sessions
            && s.sessions[SlotOf(normal.value)] == Session(c.pc.id, DigestOf(normal.value))
            && (c.pc.created ==> c.pc.id == w))
      && (c.pc.Mismatch? ==>
            && normal.Some? && SlotOf(normal.value) in s.sessions
            && s.sessions[SlotOf(normal.value)].digest != DigestOf(normal.value))
      && (c.pc.Invalid? ==> normal.None?)
  }

  // A session was created by the call it is named after, which was told so.
  predicate SessionOk(s: State, slot: Slot, maxBytes: nat) {
    slot in s.sessions ==>
      var w := s.sessions[slot].id;
      && w in s.calls && s.calls[w].pc == Named(w, true)
      && var normal := Normalize(s.calls[w].origin, maxBytes);
         normal.Some? && SlotOf(normal.value) == slot && DigestOf(normal.value) == s.sessions[slot].digest
  }

  ghost predicate Inv(s: State, maxBytes: nat) {
    && (forall w :: CallOk(s, w, maxBytes))
    && (forall slot :: SessionOk(s, slot, maxBytes))
  }

  lemma NextKeeps(s: State, a: Action, maxBytes: nat)
    requires Inv(s, maxBytes)
    ensures Inv(Next(s, a, maxBytes), maxBytes)
  {
    hide Normalize;
    forall w ensures CallOk(Next(s, a, maxBytes), w, maxBytes) {
      assert CallOk(s, w, maxBytes);
      if w in s.calls { NormalizeTwice(s.calls[w].origin, maxBytes); }
    }
    forall slot ensures SessionOk(Next(s, a, maxBytes), slot, maxBytes) { SessionKept(s, a, slot, maxBytes); }
  }

  lemma SessionKept(s: State, a: Action, slot: Slot, maxBytes: nat)
    requires Inv(s, maxBytes)
    ensures SessionOk(Next(s, a, maxBytes), slot, maxBytes)
  {
    hide Normalize;
    assert SessionOk(s, slot, maxBytes);
    if a.Insert? { assert CallOk(s, a.w, maxBytes); }
  }

  lemma {:induction false} RunKeeps(s: State, actions: seq<Action>, maxBytes: nat)
    requires Inv(s, maxBytes)
    ensures Inv(Run(s, actions, maxBytes), maxBytes)
    decreases |actions|
  {
    hide Inv, Next;
    if actions != [] {
      NextKeeps(s, actions[0], maxBytes);
      RunKeeps(Next(s, actions[0], maxBytes), actions[1..], maxBytes);
    }
  }

  // All calls of one client with one key that get a session get the same one, and they asked for the
  // same file; nobody else gets it; whoever is told of a mismatch did ask for something else; one call at most created it.
  lemma SameSession(actions: seq<Action>, maxBytes: nat, v: CallId, w: CallId)
    requires var s := Run(EMPTY, actions, maxBytes);
             && v in s.calls && w in s.calls
             && s.calls[v].pc.Named? && (s.calls[w].pc.Named? || s.calls[w].pc.Mismatch?)
    ensures var s := Run(EMPTY, actions, maxBytes);
            var n, m := Normalize(s.calls[v].origin, maxBytes), Normalize(s.calls[w].origin, maxBytes);
            && n.Some? && m.Some?
            && (s.calls[w].pc.Named? && s.calls[w].pc.id == s.calls[v].pc.id ==> n == m)
            && (n.value.client == m.value.client && n.value.key == m.value.key ==>
                  && (s.calls[w].pc.Named? <==> n == m)
                  && (s.calls[w].pc.Named? ==> s.calls[w].pc.id == s.calls[v].pc.id)
                  && (s.calls[w].pc.Named? && s.calls[v].pc.created && s.calls[w].pc.created ==> v == w))
  {
    hide Normalize, Run;
    assert Inv(EMPTY, maxBytes);
    RunKeeps(EMPTY, actions, maxBytes);
    var s := Run(EMPTY, actions, maxBytes);
    assert CallOk(s, v, maxBytes) && CallOk(s, w, maxBytes);
    assert SessionOk(s, SlotOf(Normalize(s.calls[v].origin, maxBytes).value), maxBytes);
    assert s.calls[w].pc.Named? ==> SessionOk(s, SlotOf(Normalize(s.calls[w].origin, maxBytes).value), maxBytes);
  }

  // Every session was created by exactly one call, which asked for that file under that key and was told
  // that it created it; a call is refused as invalid only if its request does not normalise.
  lemma CreatedOnce(actions: seq<Action>, maxBytes: nat, slot: Slot, v: CallId)
    ensures var s := Run(EMPTY, actions, maxBytes);
            && (slot in s.sessions ==>
                  var w := s.sessions[slot].id;
                  && w in s.calls && s.calls[w].pc == Named(w, true)
                  && var normal := Normalize(s.calls[w].origin, maxBytes);
                     && normal.Some? && normal.value.client == slot.client && normal.value.key == slot.key
                     && s.sessions[slot].digest == Digest(normal.value.filename, normal.value.mime, normal.value.size))
            && (v in s.calls && s.calls[v].pc.Named? && s.calls[v].pc.created ==> s.calls[v].pc.id == v)
            && (v in s.calls && s.calls[v].pc.Invalid? ==> Normalize(s.calls[v].origin, maxBytes) == None)
  {
    hide Normalize, Run;
    assert Inv(EMPTY, maxBytes);
    RunKeeps(EMPTY, actions, maxBytes);
    var s := Run(EMPTY, actions, maxBytes);
    assert SessionOk(s, slot, maxBytes) && CallOk(s, v, maxBytes);
  }

  predicate Idle(pc: Pc) {
    pc.Entering? || pc.Unavailable?
  }

  // While direct uploads are unavailable no call gets past the first check and no session is created.
  lemma {:induction false} UnavailableCreatesNothing(s: State, actions: seq<Action>, maxBytes: nat)
    requires s.sessions == map[] && forall w :: w in s.calls ==> Idle(s.calls[w].pc)
    requires forall i :: 0 <= i < |actions| && actions[i].Enter? ==> !actions[i].available
    ensures var t := Run(s, actions, maxBytes);
            t.sessions == map[] && forall w :: w in t.calls ==> Idle(t.calls[w].pc)
    decreases |actions|
  {
    hide Normalize;
    if actions != [] {
      assert actions[0].Enter? ==> !actions[0].available;
      UnavailableCreatesNothing(Next(s, actions[0], maxBytes), actions[1..], maxBytes);
    }
  }

  // While they are available nobody is told that they are not.
  lemma {:induction false} AvailableAnswers(s: State, actions: seq<Action>, maxBytes: nat)
    requires forall w :: w in s.calls ==> !s.calls[w].pc.Unavailable?
    requires forall i :: 0 <= i < |actions| && actions[i].Enter? ==> actions[i].available
    ensures forall w :: w in Run(s, actions, maxBytes).calls ==> !Run(s, actions, maxBytes).calls[w].pc.Unavailable?
    decreases |actions|
  {
    hide Normalize;
    if actions != [] {
      assert actions[0].Enter? ==> actions[0].available;
      AvailableAnswers(Next(s, actions[0], maxBytes), actions[1..], maxBytes);
    }
  }

  // A request normalises exactly when key, filename and media type do and the size is within the limit.
  lemma NormalizeExactly(r: Request, maxBytes: nat, normal: Request)
    ensures Normalize(r, maxBytes) == Some(normal) <==>
              && IsCore(r.key, normal.key) && |normal.key| <= 200 && '\0' !in normal.key
              && NormalizedFilename(r.filename) == Some(normal.filename)
              && NormalizedMimeType(r.mime) == Some(normal.mime)
              && normal.client == r.client && normal.size == r.size && 0 <= r.size <= maxBytes
  {
    hide NormalizedFilename, NormalizedMimeType, IsCore, BoundedTrimmed;
    BoundedTrimmedExactly(r.key, KEY_MAX, normal.key);
  }

  // An upper bound on the steps a call still has to make.
  function Rank(s: State, w: CallId, maxBytes: nat): nat {
    if w !in s.calls then 6
    else
      match s.calls[w].pc
      case Entering(r) =>
        var normal := Normalize(r, maxBytes);
        if normal.Some? && SlotOf(normal.value) in s.sessions then 2 else 5
      case Looking(normal) => if SlotOf(normal) in s.sessions then 1 else 4
      case Adding(_) => 3
      case _ => 0
  }

  function Mine(s: State, a: Action, w: CallId, maxBytes: nat): nat {
    if a.w == w && Next(s, a, maxBytes) != s then 1 else 0
  }

  // How many of the steps are steps of call `w`.
  function Steps(s: State, actions: seq<Action>, w: CallId, maxBytes: nat): nat
    decreases |actions|
  {
    if actions == [] then 0
    else Mine(s, actions[0], w, maxBytes) + Steps(Next(s, actions[0], maxBytes), actions[1..], w, maxBytes)
  }

  lemma RankFalls(s: State, a: Action, w: CallId, maxBytes: nat)
    requires Inv(s, maxBytes)
    ensures Rank(Next(s, a, maxBytes), w, maxBytes) + Mine(s, a, w, maxBytes) <= Rank(s, w, maxBytes)
  {
    hide Normalize;
    assert CallOk(s, w, maxBytes);
    if w in s.calls { NormalizeTwice(s.calls[w].origin, maxBytes); }
  }

  lemma {:induction false} StepsBounded(s: State, actions: seq<Action>, w: CallId, maxBytes: nat)
    requires Inv(s, maxBytes)
    ensures Rank(Run(s, actions, maxBytes), w, maxBytes) + Steps(s, actions, w, maxBytes) <= Rank(s, w, maxBytes)
    decreases |actions|
  {
    hide Inv, Next, Rank, Mine;
    if actions != [] {
      NextKeeps(s, actions[0], maxBytes);
      RankFalls(s, actions[0], w, maxBytes);
      StepsBounded(Next(s, actions[0], maxBytes), actions[1..], w, maxBytes);
    }
  }

  // The recursion ends: whatever the others do, a call retries at most once and makes at most six steps,
  // and while it is not finished its next step does something.
  lemma RetryEnds(actions: seq<Action>, w: CallId, maxBytes: nat)
    ensures Steps(EMPTY, actions, w, maxBytes) <= 6
    ensures var s := Run(EMPTY, actions, maxBytes);
            w in s.calls ==>
              && s.calls[w].retries <= 1
              && (s.calls[w].pc.Entering? ==>
                    && Next(s, Enter(w, true), maxBytes) != s
                    && (Normalize(s.calls[w].pc.request, maxBytes).Some? ==> Next(s, Enter(w, true), maxBytes).calls[w].pc.Looking?))
              && (s.calls[w].pc.Looking? ==> Next(s, LookUp(w), maxBytes) != s)
              && (s.calls[w].pc.Adding? ==> Next(s, Insert(w), maxBytes) != s)
  {
    hide Normalize, Run, Steps;
    assert Inv(EMPTY, maxBytes);
    RunKeeps(EMPTY, actions, maxBytes);
    StepsBounded(EMPTY, actions, w, maxBytes);
    var s := Run(EMPTY, actions, maxBytes);
    assert CallOk(s, w, maxBytes);
    if w in s.calls {
      assert s.calls[w].pc.Entering? ==> !Next(s, Enter(w, true), maxBytes).calls[w].pc.Entering?;
      assert s.calls[w].pc.Looking? ==> !Next(s, LookUp(w), maxBytes).calls[w].pc.Looking?;
      assert s.calls[w].pc.Adding? ==> !Next(s, Insert(w), maxBytes).calls[w].pc.Adding?;
    }
  }
}
