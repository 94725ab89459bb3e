/** The conversation ledger: its tables, and what each transaction does to them.

  Rows that the schema deletes together with a conversation (items, append batches, turns and
  their file snapshots) are grouped under it; turn starts, continuations and files are tables of
  their own. Ids come from one counter, so a new id differs from every earlier one. */
module LedgerState {
  import opened Wrappers
  import AgentProjection
  import FileUri
  import Json
  import Text

  // Largest `bigint`.
  const MAX_SEQ := 0x7fff_ffff_ffff_ffff

  type Id = nat

  datatype Actor = Actor(tenant: string, principal: string)

  datatype Session = Session(actor: Actor, client: string)

  datatype Source = User | Agent | System

  datatype Status = Pending | Streaming | Completed | Incomplete | Failed | Cancelled {
    predicate Active() { Pending? || Streaming? }
  }

  // `files` holds the item's rows of conversation_item_files.
  datatype Item = Item(id: Id, turn: Option<Id>, source: Source, payload: Json.Value, files: set<string>)

  datatype Row = Row(number: int, item: Item)

  datatype Batch = Batch(first: int, last: int)

  datatype Turn = Turn(id: Id, agent: string, key: Option<string>, status: Status, snapshot: set<string>)

  // Items are indexed by UNIQUE (conversation_id, seq); turns stand in commit order.
  datatype Conversation = Conversation(
    tenant: string, owner: string, next: int,
    items: map<int, Item>, batches: map<string, Batch>, turns: seq<Turn>)

  datatype StartKey = StartKey(tenant: string, owner: string, client: string, key: string)

  datatype NewConversation = NewConversation(title: Option<string>, metadata: Json.Value)

  // What the request digest covers.
  datatype StartBody = StartBody(
    conv: Option<Id>, create: Option<NewConversation>, agent: string, items: seq<Json.Value>)

  datatype StartItem = StartItem(ordinal: int, item: Id, number: int)

  datatype TurnStart = TurnStart(
    body: StartBody, conv: Id, turn: Id, first: int, last: int, items: seq<StartItem>)

  datatype ContinuationKey = ContinuationKey(tenant: string, agent: string, response: string)

  datatype Continuation = Continuation(id: Id, conv: Id, through: int)

  datatype File = File(tenant: string, owner: string)

  datatype State = State(
    nextId: Id,
    convs: map<Id, Conversation>,
    starts: map<StartKey, TurnStart>,
    continuations: map<ContinuationKey, Continuation>,
    files: map<string, File>)

  datatype Error =
    | BadRequest | NotFound | Conflict | KeyReused | ResultDeleted | ActiveTurnExists
    | SequenceSpaceExhausted | SequenceOverflow | SnapshotUnavailable | UniqueViolation
    | Projection(reason: AgentProjection.Error)

  datatype Outcome<+T> = Outcome(state: State, result: Result<T, Error>)

  const EMPTY := State(1, map[], map[], map[], map[])

  // ---- Reading rows ----

  predicate Owned(s: State, a: Actor, c: Id) {
    c in s.convs && s.convs[c].tenant == a.tenant && s.convs[c].owner == a.principal
  }

  // The rows with lo <= seq <= hi in ascending order.
  function Rows(items: map<int, Item>, lo: int, hi: int): seq<Row>
    decreases hi - lo
  {
    if lo > hi then []
    else (if lo in items then [Row(lo, items[lo])] else []) + Rows(items, lo + 1, hi)
  }

  function Payloads(rows: seq<Row>): (p: seq<Json.Value>)
    ensures |p| == |rows| && forall i :: 0 <= i < |rows| ==> p[i] == rows[i].item.payload
  {
    seq(|rows|, i requires 0 <= i < |rows| => rows[i].item.payload)
  }

  predicate HasTurn(turns: seq<Turn>, t: Id) {
    exists i :: 0 <= i < |turns| && turns[i].id == t
  }

  predicate ActiveExists(turns: seq<Turn>) {
    exists i :: 0 <= i < |turns| && turns[i].status.Active()
  }

  // The partial unique index turns_one_active_per_conversation_idx.
  predicate OneActive(turns: seq<Turn>) {
    forall i, j :: 0 <= i < j < |turns| ==> !(turns[i].status.Active() && turns[j].status.Active())
  }

  function ConvFiles(conv: Conversation): set<string> {
    set n, f | n in conv.items && f in conv.items[n].files :: f
  }

  predicate FilesOwned(s: State, a: Actor, files: set<string>) {
    forall f :: f in files ==> f in s.files && s.files[f] == File(a.tenant, a.principal)
  }

  ghost function FindItem(items: map<int, Item>, id: Id): Option<int> {
    if exists n :: n in items && items[n].id == id
    then (var n :| n in items && items[n].id == id; Some(n))
    else None
  }

  // ---- Changing one conversation ----

  function NewItems(payloads: seq<Json.Value>, turn: Option<Id>, source: Source, base: Id): (r: seq<Item>)
    ensures |r| == |payloads|
    ensures forall i :: 0 <= i < |r| ==>
      r[i] == Item(base + i, turn, source, payloads[i], FileUri.References(payloads[i]))
  {
    seq(|payloads|, i requires 0 <= i < |payloads| =>
      Item(base + i, turn, source, payloads[i], FileUri.References(payloads[i])))
  }

  function Slot(added: seq<Item>, first: int, n: int): Item
    requires first <= n < first + |added|
  {
    added[n - first]
  }

  function Place(items: map<int, Item>, first: int, added: seq<Item>): map<int, Item> {
    items + map n | first <= n < first + |added| :: Slot(added, first, n)
  }

  // Takes the next numbers for new items.
  function Extend(conv: Conversation, added: seq<Item>): Conversation {
    conv.(items := Place(conv.items, conv.next, added), next := conv.next + |added|)
  }

  // Cuts the transcript at number n and hands the numbers from n on out again.
  function Cut(conv: Conversation, n: int): Conversation {
    conv.(items := map m | m in conv.items && m < n :: conv.items[m],
          batches := map k | k in conv.batches && conv.batches[k].last < n :: conv.batches[k],
          next := n)
  }

  // Numbers of the items that regenerating would remove: the agent's items of the latest turn.
  function Regenerable(conv: Conversation): set<int> {
    if conv.turns == [] then {}
    else set n | n in conv.items && conv.items[n].turn == Some(conv.turns[|conv.turns| - 1].id)
                 && conv.items[n].source.Agent?
  }

  function Regenerated(conv: Conversation): Conversation {
    conv.(items := conv.items - Regenerable(conv))
  }

  function WithStatus(turns: seq<Turn>, t: Id, status: Status): (r: seq<Turn>)
    ensures |r| == |turns|
  {
    seq(|turns|, i requires 0 <= i < |turns| =>
      if turns[i].id == t then turns[i].(status := status) else turns[i])
  }

  function Put(s: State, c: Id, conv: Conversation): State {
    s.(convs := s.convs[c := conv])
  }

  // ---- append_items ----

  datatype AppendRequest = AppendRequest(key: string, turn: Option<Id>, source: Source, items: seq<Json.Value>)

  datatype AppendReply = AppendReply(items: seq<Row>, replayed: bool)

  function Utf8Width(c: char): nat {
    if c <= '\U{7F}' then 1 else if c <= '\U{7FF}' then 2 else if c <= '\U{FFFF}' then 3 else 4
  }

  function Utf8Length(s: string): nat {
    if s == [] then 0 else Utf8Width(s[0]) + Utf8Length(s[1..])
  }

  predicate PayloadsOk(items: seq<Json.Value>) {
    1 <= |items| <= 100 && forall i :: 0 <= i < |items| ==> items[i].Object?
  }

  predicate AppendOk(r: AppendRequest) {
    Text.Trim(r.key) != "" && Utf8Length(r.key) <= 200 && PayloadsOk(r.items)
  }

  function AppendItems(s: State, a: Actor, c: Id, r: AppendRequest): Outcome<AppendReply> {
    if !AppendOk(r) then Outcome(s, Failure(BadRequest))
    else if !Owned(s, a, c) then Outcome(s, Failure(NotFound))
    else
      var conv := s.convs[c];
      if r.key in conv.batches then
        var b := conv.batches[r.key];
        Outcome(s, Success(AppendReply(Rows(conv.items, b.first, b.last), true)))
      else if r.turn.Some? && !HasTurn(conv.turns, r.turn.value) then Outcome(s, Failure(BadRequest))
      else if !FilesOwned(s, a, FileUri.BatchReferences(r.items)) then Outcome(s, Failure(NotFound))
      else if conv.next + |r.items| > MAX_SEQ then Outcome(s, Failure(SequenceOverflow))
      else
        var added := NewItems(r.items, r.turn, r.source, s.nextId);
        var last := conv.next + |added| - 1;
        var conv' := Extend(conv, added).(batches := conv.batches[r.key := Batch(conv.next, last)]);
        Outcome(Put(s, c, conv').(nextId := s.nextId + |added|),
                Success(AppendReply(Rows(conv'.items, conv.next, last), false)))
  }

  // ---- start_turn ----

  datatype StartRequest = StartRequest(
    key: string, conv: Option<Id>, create: Option<NewConversation>, agent: string, items: seq<Json.Value>)

  datatype StartReply = StartReply(
    conv: Id, turn: Id, items: seq<Id>, first: int, last: int, replayed: bool)

  predicate NameOk(s: string) {
    1 <= |s| <= 200
  }

  function NormalTitle(title: Option<string>): Option<string> {
    var text := Text.Trim(if title.Some? then title.value else "New conversation");
    if NameOk(text) then Some(text) else None
  }

  // Trims and validates; None is a bad request.
  function NormalStart(r: StartRequest): Option<StartRequest> {
    var n := r.(key := Text.Trim(r.key), agent := Text.Trim(r.agent));
    if !NameOk(n.key) || !NameOk(n.agent) || n.conv.Some? == n.create.Some? || !PayloadsOk(n.items) then None
    else if n.create.None? then Some(n)
    else if !n.create.value.metadata.Object? then None
    else
      var title := NormalTitle(n.create.value.title);
      if title.None? then None else Some(n.(create := Some(n.create.value.(title := title))))
  }

  function KeyOf(auth: Session, r: StartRequest): StartKey {
    StartKey(auth.actor.tenant, auth.actor.principal, auth.client, r.key)
  }

  function BodyOf(r: StartRequest): StartBody {
    StartBody(r.conv, r.create, r.agent, r.items)
  }

  // The outer join of a recorded child with the transcript finds its row.
  predicate ChildFound(items: map<int, Item>, turn: Id, child: StartItem) {
    && child.number in items
    && items[child.number].id == child.item
    && items[child.number].turn == Some(turn)
  }

  // start_turn's completeness test: child by child, by ordinal.
  predicate OrdinalTest(items: map<int, Item>, r: TurnStart) {
    var expected := r.last - r.first + 1;
    && expected > 0
    && |r.items| == expected
    && forall i :: 0 <= i < |r.items| ==>
         && r.items[i].ordinal == i
         && r.items[i].number == r.first + i
         && ChildFound(items, r.turn, r.items[i])
  }

  function ItemIds(items: seq<StartItem>): (ids: seq<Id>)
    ensures |ids| == |items|
  {
    seq(|items|, i requires 0 <= i < |items| => items[i].item)
  }

  function StartRetry(s: State, auth: Session, r: StartRequest, stored: TurnStart): Result<StartReply, Error> {
    if stored.body != BodyOf(r) then
      Failure(if r.conv.Some? && !Owned(s, auth.actor, r.conv.value) then NotFound else KeyReused)
    else if !Owned(s, auth.actor, stored.conv) || !OrdinalTest(s.convs[stored.conv].items, stored) then
      Failure(ResultDeleted)
    else
      Success(StartReply(stored.conv, stored.turn, ItemIds(stored.items), stored.first, stored.last, true))
  }

  function StartItems(first: int, base: Id, count: nat): (r: seq<StartItem>)
    ensures |r| == count
    ensures forall i :: 0 <= i < count ==> r[i] == StartItem(i, base + i, first + i)
  {
    seq(count, i requires 0 <= i < count => StartItem(i, base + i, first + i))
  }

  function NewConv(a: Actor): Conversation {
    Conversation(a.tenant, a.principal, 1, map[], map[], [])
  }

  // The inserts of a start on conversation c, which was locked or just created as `conv`; t is the next id.
  function StartOn(s: State, auth: Session, r: StartRequest, c: Id, conv: Conversation, t: Id): Outcome<StartReply> {
    if ActiveExists(conv.turns) then Outcome(s, Failure(ActiveTurnExists))
    else if !FilesOwned(s, auth.actor, ConvFiles(conv) + FileUri.BatchReferences(r.items)) then
      Outcome(s, Failure(NotFound))
    else if conv.next + |r.items| > MAX_SEQ then Outcome(s, Failure(SequenceSpaceExhausted))
    else
      var count := |r.items|;
      var first, last := conv.next, conv.next + count - 1;
      var turn := Turn(t, r.agent, None, Pending, ConvFiles(conv));
      var added := NewItems(r.items, Some(t), User, t + 1);
      var conv' := Extend(conv, added).(turns := conv.turns + [turn]);
      var children := StartItems(first, t + 1, count);
      var record := TurnStart(BodyOf(r), c, t, first, last, children);
      Outcome(Put(s, c, conv').(nextId := t + 1 + count, starts := s.starts[KeyOf(auth, r) := record]),
              Success(StartReply(c, t, ItemIds(children), first, last, false)))
  }

  function StartTurn(s: State, auth: Session, request: StartRequest): Outcome<StartReply> {
    var normal := NormalStart(request);
    if normal.None? then Outcome(s, Failure(BadRequest))
    else
      var r := normal.value;
      var k := KeyOf(auth, r);
      if k in s.starts then Outcome(s, StartRetry(s, auth, r, s.starts[k]))
      else if r.conv.None? then StartOn(s, auth, r, s.nextId, NewConv(auth.actor), s.nextId + 1)
      else if !Owned(s, auth.actor, r.conv.value) then Outcome(s, Failure(NotFound))
      else StartOn(s, auth, r, r.conv.value, s.convs[r.conv.value], s.nextId)
  }

  // ---- create_turn and update_turn ----

  datatype TurnRequest = TurnRequest(key: string, agent: string)

  function TurnByKey(turns: seq<Turn>, key: string): Option<Turn> {
    if turns == [] then None
    else if turns[0].key == Some(key) then Some(turns[0])
    else TurnByKey(turns[1..], key)
  }

  function CreateTurn(s: State, a: Actor, c: Id, r: TurnRequest): Outcome<Turn> {
    if !Owned(s, a, c) then Outcome(s, Failure(NotFound))
    else
      var conv := s.convs[c];
      var agent := Text.Trim(r.agent);
      var existing := TurnByKey(conv.turns, r.key);
      if existing.Some? then
        Outcome(s, if existing.value.agent != r.agent && existing.value.agent != agent then Failure(KeyReused)
                   else Success(existing.value))
      else if !NameOk(agent) || Text.Trim(r.key) == "" || |r.key| > 200 then Outcome(s, Failure(BadRequest))
      else if ActiveExists(conv.turns) then Outcome(s, Failure(ActiveTurnExists))
      else if !FilesOwned(s, a, ConvFiles(conv)) then Outcome(s, Failure(NotFound))
      else
        var turn := Turn(s.nextId, agent, Some(r.key), Pending, ConvFiles(conv));
        Outcome(Put(s, c, conv.(turns := conv.turns + [turn])).(nextId := s.nextId + 1), Success(turn))
  }

  ghost function ConvOfTurn(s: State, a: Actor, t: Id): Option<Id> {
    if exists c :: c in s.convs && Owned(s, a, c) && HasTurn(s.convs[c].turns, t)
    then (var c :| c in s.convs && Owned(s, a, c) && HasTurn(s.convs[c].turns, t); Some(c))
    else None
  }

  // No row lock and no check: only the partial unique index stands in the way.
  ghost function UpdateTurn(s: State, a: Actor, t: Id, status: Status): Outcome<()> {
    var found := ConvOfTurn(s, a, t);
    if found.None? then Outcome(s, Failure(NotFound))
    else
      var conv := s.convs[found.value];
      var turns := WithStatus(conv.turns, t, status);
      if !OneActive(turns) then Outcome(s, Failure(UniqueViolation))
      else Outcome(Put(s, found.value, conv.(turns := turns)), Success(()))
  }

  // ---- truncate, regenerate, delete ----

  ghost function Truncate(s: State, a: Actor, c: Id, item: Id): Outcome<()> {
    if !Owned(s, a, c) then Outcome(s, Failure(NotFound))
    else
      var n := FindItem(s.convs[c].items, item);
      if n.None? then Outcome(s, Failure(NotFound))
      else
        Outcome(Put(s, c, Cut(s.convs[c], n.value))
                .(continuations := map k | k in s.continuations
                    && !(s.continuations[k].conv == c && s.continuations[k].through >= n.value)
                    :: s.continuations[k]),
                Success(()))
  }

  function WithoutConv(continuations: map<ContinuationKey, Continuation>, c: Id): map<ContinuationKey, Continuation> {
    map k | k in continuations && continuations[k].conv != c :: continuations[k]
  }

  function Regenerate(s: State, a: Actor, c: Id): Outcome<Option<Id>> {
    if !Owned(s, a, c) then Outcome(s, Failure(NotFound))
    else if s.convs[c].turns == [] then Outcome(s, Success(None))
    else
      Outcome(Put(s, c, Regenerated(s.convs[c])).(continuations := WithoutConv(s.continuations, c)),
              Success(Some(s.convs[c].turns[|s.convs[c].turns| - 1].id)))
  }

  function DeleteConversation(s: State, a: Actor, c: Id): Outcome<()> {
    if !Owned(s, a, c) then Outcome(s, Failure(NotFound))
    else Outcome(s.(convs := s.convs - {c}, continuations := WithoutConv(s.continuations, c)), Success(()))
  }

  function CreateConversation(s: State, a: Actor): Outcome<Id> {
    Outcome(Put(s, s.nextId, NewConv(a)).(nextId := s.nextId + 1), Success(s.nextId))
  }

  // ---- create_continuation ----

  datatype ContinuationRequest = ContinuationRequest(agent: string, response: string, through: Option<int>)

  function CreateContinuation(s: State, a: Actor, c: Id, r: ContinuationRequest): Outcome<Continuation> {
    if !Owned(s, a, c) then Outcome(s, Failure(NotFound))
    else if Text.Trim(r.agent) == "" || Text.Trim(r.response) == "" then Outcome(s, Failure(BadRequest))
    else
      var next := s.convs[c].next;
      var through := if r.through.Some? then r.through.value else next - 1;
      var k := ContinuationKey(a.tenant, r.agent, r.response);
      if through < 0 || through >= next then Outcome(s, Failure(BadRequest))
      else if k in s.continuations then Outcome(s, Failure(Conflict))
      else
        var made := Continuation(s.nextId, c, through);
        Outcome(s.(nextId := s.nextId + 1, continuations := s.continuations[k := made]), Success(made))
  }

  // ---- files ----

  // A file row appears (by direct save or by a completed upload).
  function SaveFile(s: State, a: Actor, id: string): Outcome<()> {
    if id in s.files then Outcome(s, Failure(UniqueViolation))
    else Outcome(s.(files := s.files[id := File(a.tenant, a.principal)]), Success(()))
  }

  // Some item row or some turn snapshot references the file.
  predicate Referenced(s: State, f: string) {
    exists c :: c in s.convs && ReferencedIn(s.convs[c], f)
  }

  predicate ReferencedIn(conv: Conversation, f: string) {
    || (exists n :: n in conv.items && f in conv.items[n].files)
    || (exists i :: 0 <= i < |conv.turns| && f in conv.turns[i].snapshot)
  }

  function RemoveFile(s: State, a: Actor, f: string): Outcome<()> {
    if f !in s.files || s.files[f] != File(a.tenant, a.principal) then Outcome(s, Failure(NotFound))
    else if Referenced(s, f) then Outcome(s, Failure(Conflict))
    else Outcome(s.(files := s.files - {f}), Success(()))
  }

  // ---- agent_replay ----

  // turn_starts joined on the turn and its conversation.
  predicate StartsTurn(s: State, k: StartKey, c: Id, t: Id) {
    k in s.starts && s.starts[k].turn == t && s.starts[k].conv == c
  }

  predicate TurnRuns(conv: Conversation, t: Id, agent: string) {
    exists i :: 0 <= i < |conv.turns| && conv.turns[i].id == t && conv.turns[i].agent == agent
  }

  // agent_replay's completeness test: the boundary row, the child count and no child without a row.
  predicate CountTest(items: map<int, Item>, r: TurnStart) {
    && r.last in items
    && |r.items| == r.last - r.first + 1
    && !(exists i :: 0 <= i < |r.items| && !ChildFound(items, r.turn, r.items[i]))
  }

  datatype AgentReply = AgentReply(through: int, input: seq<Json.Value>)

  function ReplayRecord(items: map<int, Item>, r: TurnStart, config: AgentProjection.Config): Result<AgentReply, Error> {
    if !CountTest(items, r) then Failure(SnapshotUnavailable)
    else
      var rows := Rows(items, 1, r.last);
      if |rows| > config.maxItems then Failure(Projection(AgentProjection.ContextLimit))
      else
        match AgentProjection.Project(Payloads(rows), config)
        case Failure(error) => Failure(Projection(error))
        case Success(input) => Success(AgentReply(r.last, input))
  }

  ghost function AgentReplay(s: State, a: Actor, c: Id, t: Id, agent: string, config: AgentProjection.Config)
    : Result<AgentReply, Error>
  {
    if Owned(s, a, c) && TurnRuns(s.convs[c], t, agent) && exists k :: StartsTurn(s, k, c, t) then
      var k :| StartsTurn(s, k, c, t);
      ReplayRecord(s.convs[c].items, s.starts[k], config)
    else Failure(NotFound)
  }

  // ---- Runs ----

  datatype Event =
    | Creating(actor: Actor)
    | Appending(actor: Actor, conv: Id, append: AppendRequest)
    | Starting(session: Session, start: StartRequest)
    | CreatingTurn(actor: Actor, conv: Id, turn: TurnRequest)
    | Updating(actor: Actor, turnId: Id, status: Status)
    | Truncating(actor: Actor, conv: Id, item: Id)
    | Regenerating(actor: Actor, conv: Id)
    | Continuing(actor: Actor, conv: Id, continuation: ContinuationRequest)
    | Deleting(actor: Actor, conv: Id)
    | Saving(actor: Actor, file: string)
    | Removing(actor: Actor, file: string)

  ghost function Apply(s: State, e: Event): State {
    match e
    case Creating(a) => CreateConversation(s, a).state
    case Appending(a, c, r) => AppendItems(s, a, c, r).state
    case Starting(auth, r) => StartTurn(s, auth, r).state
    case CreatingTurn(a, c, r) => CreateTurn(s, a, c, r).state
    case Updating(a, t, status) => UpdateTurn(s, a, t, status).state
    case Truncating(a, c, item) => Truncate(s, a, c, item).state
    case Regenerating(a, c) => Regenerate(s, a, c).state
    case Continuing(a, c, r) => CreateContinuation(s, a, c, r).state
    case Deleting(a, c) => DeleteConversation(s, a, c).state
    case Saving(a, f) => SaveFile(s, a, f).state
    case Removing(a, f) => RemoveFile(s, a, f).state
  }

  ghost function Run(s: State, events: seq<Event>): State
    decreases |events|
  {
    if events == [] then s else Run(Apply(s, events[0]), events[1..])
  }
}
