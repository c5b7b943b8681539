/**
 The tables of the standalone (SQLite) store, and what each transaction of its two adapters does
 to them. An error means that the transaction was rolled back.
 */
module StandaloneDb {
  import opened Common
  import opened Text
  import opened MessageEvents
  import opened Transcript

  datatype Row = Row(
    id: string, sessionId: string, sessionSeq: int, actorType: ActorType, actorId: string,
    text: string, json: Option<seq<Part>>, state: State, version: int)

  datatype SessionRow = SessionRow(parentSessionId: Option<string>, forkPoint: Option<int>)

  datatype ProviderState = ProviderState(basis: int, opaqueJson: string)

  datatype SoulSession = SoulSession(
    soulId: string, sessionId: string, memory: string, providerState: Option<ProviderState>,
    nextSeq: int, lastSeen: int, parent: Option<string>, forkPoint: Option<int>)

  /** `trigger_type` and `trigger_ref`. */
  datatype Trigger = SessionSend(messageId: string) | SystemSeed(messageId: string) | SessionCompact(reason: string)

  datatype TurnStatus = Running | Completed | Failed(error: string)

  datatype Turn = Turn(soul: string, trigger: Trigger, through: int, base: int, end: Option<int>, status: TurnStatus)

  datatype Target = MessageRef(id: string) | ToolCallRef(id: string) | ToolResultRef(id: string) | CompactRef(id: string)

  /** The primary key of an item: soul session and sequence number. */
  datatype Pos = Pos(soul: string, seqNo: int)

  datatype CompactRow = CompactRow(sessionId: string, compact: Compact)

  /**
   `messages` is in order of insertion; `bySession` is the unique index on the session id of soul
   sessions; `calls` maps a tool call to its turn, `results` a tool result to its call.
   */
  datatype Db = Db(
    sessions: map<string, SessionRow>, messages: seq<Row>,
    souls: map<string, SoulSession>, bySession: map<string, string>,
    items: map<Pos, Target>, turns: map<string, Turn>,
    calls: map<string, string>, results: map<string, string>, compacts: map<string, CompactRow>)

  const EMPTY := Db(map[], [], map[], map[], map[], map[], map[], map[], map[])

  // ---------------------------------------------------------------------------------------
  // Soul sessions, turns and items

  function StandaloneSoulSessionId(sessionId: string): string {
    "ss_standalone_" + sessionId
  }

  function SoulEnsured(db: Db, soulId: string, sessionId: string): Result<Db> {
    var id := StandaloneSoulSessionId(sessionId);
    if sessionId in db.bySession then Ok(db)
    else if id in db.souls then Err(Internal("ensure standalone soul_session failed"))
    else Ok(db.(souls := db.souls[id := SoulSession(soulId, sessionId, "", None, 1, 0, None, None)],
                bySession := db.bySession[sessionId := id]))
  }

  function MemoryWritten(db: Db, soul: string, text: string): Option<Db> {
    if soul !in db.souls then None
    else Some(db.(souls := db.souls[soul := db.souls[soul].(memory := text)]))
  }

  function TurnStarted(db: Db, id: string, soul: string, trigger: Trigger, through: int): Result<Db> {
    if soul !in db.souls then Err(NotFound("standalone_soul_session"))
    else if id in db.turns then Err(Internal("standalone turn start failed"))
    else Ok(db.(turns := db.turns[id := Turn(soul, trigger, through, db.souls[soul].nextSeq - 1, None, Running)]))
  }

  /** Advancing `next_seq` and inserting the item under the number it had. */
  function Allocated(db: Db, soul: string, target: Target): Result<Db> {
    if soul !in db.souls then Err(NotFound("standalone_soul_session")) else
      var seqNo := db.souls[soul].nextSeq;
      if Pos(soul, seqNo) in db.items then Err(Internal("standalone item insert failed"))
      else Ok(db.(souls := db.souls[soul := db.souls[soul].(nextSeq := seqNo + 1)],
                  items := db.items[Pos(soul, seqNo) := target]))
  }

  predicate HasMessage(messages: seq<Row>, id: string) {
    exists i :: 0 <= i < |messages| && messages[i].id == id
  }

  function MessageRefAppended(db: Db, soul: string, messageId: string): Result<Db> {
    var tx :- Allocated(db, soul, MessageRef(messageId));
    if HasMessage(db.messages, messageId) then Ok(tx) else Err(NotFound("session_message"))
  }

  function ToolCallAppended(db: Db, callId: string, turnId: string): Result<Db> {
    if callId in db.calls then Err(Internal("standalone insert tool call failed"))
    else if turnId !in db.turns then Err(NotFound("standalone_turn"))
    else Allocated(db.(calls := db.calls[callId := turnId]), db.turns[turnId].soul, ToolCallRef(callId))
  }

  ghost predicate IsCallItem(items: map<Pos, Target>, callId: string, p: Pos) {
    p in items && items[p] == ToolCallRef(callId)
  }

  ghost function ToolResultAppended(db: Db, resultId: string, callId: string): Result<Db> {
    if resultId in db.results || callId in db.results.Values then Err(Internal("standalone insert tool result failed"))
    else if !exists p :: IsCallItem(db.items, callId, p) then Err(NotFound("tool_call"))
    else
      var p :| IsCallItem(db.items, callId, p);
      Allocated(db.(results := db.results[resultId := callId]), p.soul, ToolResultRef(resultId))
  }

  function CompactAppended(db: Db, id: string, turnId: string, summary: string, start: int, end: int): Result<Db> {
    if turnId !in db.turns || db.turns[turnId].soul !in db.souls then Err(NotFound("standalone_turn"))
    else if id in db.compacts then Err(Internal("insert standalone compact failed"))
    else
      var soul := db.turns[turnId].soul;
      var row := CompactRow(db.souls[soul].sessionId, Compact(id, turnId, summary, start, end));
      Allocated(db.(compacts := db.compacts[id := row]), soul, CompactRef(id))
  }

  /** The row of a turn once it has ended, whatever its status was before. */
  function Ended(db: Db, turn: Turn, status: TurnStatus): Turn {
    turn.(status := status, end := if turn.soul in db.souls then Some(db.souls[turn.soul].nextSeq - 1) else None)
  }

  function TurnCompleted(db: Db, id: string, lastSeen: int, providerState: Option<ProviderState>): Result<Db> {
    if id !in db.turns then Err(NotFound("standalone_turn")) else
      var tx := db.(turns := db.turns[id := Ended(db, db.turns[id], Completed)]);
      var soul := db.turns[id].soul;
      if soul !in db.souls then Ok(tx)
      else Ok(tx.(souls := db.souls[soul := db.souls[soul].(lastSeen := lastSeen, providerState := providerState)]))
  }

  function TurnFailed(db: Db, id: string, error: string): Result<Db> {
    if id !in db.turns then Err(NotFound("standalone_turn"))
    else Ok(db.(turns := db.turns[id := Ended(db, db.turns[id], Failed(error))]))
  }

  // ---------------------------------------------------------------------------------------
  // Sessions and messages

  /** The messages of a session, in order of insertion. */
  function SessionRows(messages: seq<Row>, sessionId: string): seq<Row> {
    if messages == [] then [] else
      var before := SessionRows(messages[..|messages| - 1], sessionId);
      var row := messages[|messages| - 1];
      if row.sessionId == sessionId then before + [row] else before
  }

  function MaxSeq(messages: seq<Row>, sessionId: string): int {
    if messages == [] then 0 else
      var before := MaxSeq(messages[..|messages| - 1], sessionId);
      var row := messages[|messages| - 1];
      if row.sessionId == sessionId && row.sessionSeq > before then row.sessionSeq else before
  }

  /** A stored message of this session and of this kind of actor. */
  predicate HasMessageBy(messages: seq<Row>, id: string, sessionId: string, actor: ActorType) {
    exists i :: 0 <= i < |messages| && messages[i].id == id && messages[i].sessionId == sessionId && messages[i].actorType == actor
  }

  predicate Conflicts(messages: seq<Row>, row: Row) {
    exists i :: 0 <= i < |messages| &&
      (messages[i].id == row.id || (messages[i].sessionId == row.sessionId && messages[i].sessionSeq == row.sessionSeq))
  }

  function SessionCreated(db: Db, id: string): Result<Db> {
    if id in db.sessions then Err(Internal("session create failed"))
    else Ok(db.(sessions := db.sessions[id := SessionRow(None, None)]))
  }

  datatype NewMessage = NewMessage(sessionId: string, id: string, actorType: ActorType, actorId: string,
      parts: seq<Part>, state: State)

  predicate AllText(parts: seq<Part>) {
    forall i :: 0 <= i < |parts| ==> parts[i].TextPart?
  }

  /** Only text parts can be stored. */
  function ContentToText(parts: seq<Part>): Result<string> {
    if AllText(parts) then Ok(ContentOf(parts))
    else Err(InvalidInput("standalone stim message lifecycle supports text parts only"))
  }

  /** An append flattens the content to one text part. */
  function MessageAppended(db: Db, m: NewMessage): Result<Db> {
    var text :- ContentToText(m.parts);
    if m.sessionId !in db.sessions then Err(NotFound("session")) else
      var row := Row(m.id, m.sessionId, MaxSeq(db.messages, m.sessionId) + 1, m.actorType, m.actorId,
                     text, Some([TextPart(text)]), m.state, 1);
      if Conflicts(db.messages, row) then Err(Internal("session message append failed"))
      else Ok(db.(messages := db.messages + [row]))
  }

  function RowIndex(messages: seq<Row>, id: string): (k: nat)
    requires HasMessage(messages, id)
    ensures k < |messages| && messages[k].id == id
  {
    if messages[0].id == id then 0 else 1 + RowIndex(messages[1..], id)
  }

  /** The parts of a row; without stored parts they are the text. */
  function ContentFromRow(row: Row): seq<Part> {
    row.json.GetOr([TextPart(row.text)])
  }

  function MessageOf(row: Row): Message {
    Message(row.id, row.actorType, row.actorId, ContentFromRow(row), row.state, row.version, None)
  }

  function SessionMessageOf(row: Row): SessionMessage {
    SessionMessage(MessageOf(row), row.sessionSeq)
  }

  datatype MessageChange = MessageChange(
    sessionId: string, messageId: string, actorType: ActorType, actorId: string, baseVersion: int, payload: Payload)

  function RowChanged(row: Row, c: MessageChange): Result<Row> {
    var updated :- Apply(MessageOf(row), c.actorType, c.actorId, c.baseVersion, c.payload);
    var text :- ContentToText(updated.parts);
    Ok(row.(text := text, json := Some(updated.parts), state := updated.state, version := updated.version))
  }

  function MessageChanged(db: Db, c: MessageChange): Result<Db> {
    if !HasMessage(db.messages, c.messageId) then Err(NotFound("message")) else
      var k := RowIndex(db.messages, c.messageId);
      if db.messages[k].sessionId != c.sessionId then Err(NotFound("message")) else
        var row :- RowChanged(db.messages[k], c);
        Ok(db.(messages := db.messages[k := row]))
  }

  // ---------------------------------------------------------------------------------------
  // Fork

  /** The rows of a session up to a fork point. */
  function RowsUpTo(rows: seq<Row>, forkPoint: int): seq<Row> {
    if rows == [] then [] else
      var before := RowsUpTo(rows[..|rows| - 1], forkPoint);
      var row := rows[|rows| - 1];
      if row.sessionSeq <= forkPoint then before + [row] else before
  }

  /** A copy keeps the number, the actor, the text and the state; it has no parts of its own. */
  function Copied(row: Row, id: string, sessionId: string): Row {
    Row(id, sessionId, row.sessionSeq, row.actorType, row.actorId, row.text, None, row.state, 1)
  }

  function CopyAll(messages: seq<Row>, rows: seq<Row>, ids: nat -> string, sessionId: string): Result<seq<Row>> {
    if rows == [] then Ok(messages) else
      var before :- CopyAll(messages, rows[..|rows| - 1], ids, sessionId);
      var copy := Copied(rows[|rows| - 1], ids(|rows| - 1), sessionId);
      if Conflicts(before, copy) then Err(Internal("copy standalone forked session message failed"))
      else Ok(before + [copy])
  }

  /** The provider state survives a fork when its basis is at most the fork point. */
  function ForkedProviderState(state: Option<ProviderState>, forkPoint: int): Option<ProviderState> {
    if state.Some? && state.value.basis <= forkPoint then state else None
  }

  function ForkedSoul(parentId: string, parent: SoulSession, forkPoint: int, sessionId: string): SoulSession {
    SoulSession(parent.soulId, sessionId, parent.memory, ForkedProviderState(parent.providerState, forkPoint),
                forkPoint + 1, if parent.lastSeen < forkPoint then parent.lastSeen else forkPoint,
                Some(parentId), Some(forkPoint))
  }

  function SoulForked(db: Db, parentId: string, forkPoint: int, newSoul: string, newSession: string,
      ids: nat -> string): Result<Db> {
    if parentId !in db.souls then Err(NotFound("soul_session")) else
      var parent := db.souls[parentId];
      var sessions := if newSession in db.sessions then db.sessions
                      else db.sessions[newSession := SessionRow(Some(parent.sessionId), Some(forkPoint))];
      var messages :- CopyAll(db.messages, RowsUpTo(SessionRows(db.messages, parent.sessionId), forkPoint), ids, newSession);
      var tx := db.(sessions := sessions, messages := messages);
      if newSoul in db.souls then Ok(tx)
      else if newSession in db.bySession then Err(Internal("insert standalone forked soul session failed"))
      else Ok(tx.(souls := db.souls[newSoul := ForkedSoul(parentId, parent, forkPoint, newSession)],
                  bySession := db.bySession[newSession := newSoul]))
  }

  // ---------------------------------------------------------------------------------------
  // All the transactions

  datatype Op =
    | EnsureSoul(soulId: string, sessionId: string)
    | WriteMemory(soul: string, text: string)
    | StartTurn(turnId: string, soul: string, trigger: Trigger, through: int)
    | AppendMessageRef(soul: string, messageId: string)
    | AppendToolCall(callId: string, turnId: string)
    | AppendToolResult(resultId: string, callId: string)
    | AppendCompact(compactId: string, turnId: string, summary: string, start: int, end: int)
    | CompleteTurn(turnId: string, lastSeen: int, providerState: Option<ProviderState>)
    | FailTurn(turnId: string, error: string)
    | CreateSession(sessionId: string)
    | AppendMessage(message: NewMessage)
    | ChangeMessage(change: MessageChange)
    | ForkSoul(parent: string, forkPoint: int, newSoul: string, newSession: string, ids: nat -> string)

  ghost function Executed(db: Db, op: Op): Result<Db> {
    match op
    case EnsureSoul(soulId, sessionId) => SoulEnsured(db, soulId, sessionId)
    case WriteMemory(soul, text) =>
      (match MemoryWritten(db, soul, text) case Some(tx) => Ok(tx) case None => Err(NotFound("soul_session")))
    case StartTurn(id, soul, trigger, through) => TurnStarted(db, id, soul, trigger, through)
    case AppendMessageRef(soul, messageId) => MessageRefAppended(db, soul, messageId)
    case AppendToolCall(callId, turnId) => ToolCallAppended(db, callId, turnId)
    case AppendToolResult(resultId, callId) => ToolResultAppended(db, resultId, callId)
    case AppendCompact(id, turnId, summary, start, end) => CompactAppended(db, id, turnId, summary, start, end)
    case CompleteTurn(id, lastSeen, providerState) => TurnCompleted(db, id, lastSeen, providerState)
    case FailTurn(id, error) => TurnFailed(db, id, error)
    case CreateSession(id) => SessionCreated(db, id)
    case AppendMessage(m) => MessageAppended(db, m)
    case ChangeMessage(c) => MessageChanged(db, c)
    case ForkSoul(parent, forkPoint, newSoul, newSession, ids) => SoulForked(db, parent, forkPoint, newSoul, newSession, ids)
  }

  /** The tables after a list of transactions, those that fail leaving no trace. */
  ghost function After(db: Db, ops: seq<Op>): Db {
    if ops == [] then db else
      var before := After(db, ops[..|ops| - 1]);
      match Executed(before, ops[|ops| - 1])
      case Ok(tx) => tx
      case Err(_) => before
  }

  // ---------------------------------------------------------------------------------------
  // What every transaction keeps

  /** The first number that a soul session can allocate. */
  function First(s: SoulSession): int {
    s.forkPoint.GetOr(0) + 1
  }

  /** The unique index is the inverse of the session ids. */
  ghost predicate Indexed(souls: map<string, SoulSession>, bySession: map<string, string>) {
    && (forall id :: id in souls ==> souls[id].sessionId in bySession && bySession[souls[id].sessionId] == id)
    && (forall s :: s in bySession ==> bySession[s] in souls && souls[bySession[s]].sessionId == s)
  }

  /** Items are numbered densely: exactly the numbers from the first to the one before `next_seq`. */
  ghost predicate Dense(souls: map<string, SoulSession>, items: map<Pos, Target>) {
    && (forall id :: id in souls ==> First(souls[id]) <= souls[id].nextSeq)
    && (forall p :: p in items <==> p.soul in souls && First(souls[p.soul]) <= p.seqNo < souls[p.soul].nextSeq)
  }

  /** A tool call has a row, and one item. */
  ghost predicate CallsOnce(items: map<Pos, Target>, calls: map<string, string>) {
    && (forall p :: p in items && items[p].ToolCallRef? ==> items[p].id in calls)
    && (forall p, q :: p in items && q in items && items[p].ToolCallRef? && items[p] == items[q] ==> p == q)
  }

  ghost predicate Consistent(db: Db) {
    Indexed(db.souls, db.bySession) && Dense(db.souls, db.items) && CallsOnce(db.items, db.calls)
  }

  ghost predicate SoulsKept(a: map<string, SoulSession>, b: map<string, SoulSession>) {
    forall id :: id in a ==> id in b && SameIdentity(a[id], b[id])
  }

  ghost predicate Extends<K(!new), V>(a: map<K, V>, b: map<K, V>) {
    forall k :: k in a ==> k in b && b[k] == a[k]
  }

  predicate SameMessage(a: Row, b: Row) {
    a.id == b.id && a.sessionId == b.sessionId && a.sessionSeq == b.sessionSeq && a.actorType == b.actorType && a.actorId == b.actorId
  }

  /** Messages are only added; a change leaves id, place and actor alone. */
  ghost predicate MessagesKept(a: seq<Row>, b: seq<Row>) {
    |a| <= |b| && forall i :: 0 <= i < |a| ==> SameMessage(a[i], b[i])
  }

  /** What a later state may not change: souls keep their identity, and entries stay. */
  ghost predicate Grows(a: Db, b: Db) {
    && SoulsKept(a.souls, b.souls)
    && Extends(a.items, b.items)
    && Extends(a.results, b.results)
    && Extends(a.calls, b.calls)
    && MessagesKept(a.messages, b.messages)
  }

  predicate SameIdentity(a: SoulSession, b: SoulSession) {
    && a.soulId == b.soulId && a.sessionId == b.sessionId
    && a.parent == b.parent && a.forkPoint == b.forkPoint && a.nextSeq <= b.nextSeq
  }

  lemma GrowsTransitive(a: Db, b: Db, c: Db)
    requires Grows(a, b) && Grows(b, c)
    ensures Grows(a, c)
  {
  }

  /** The one connection that both adapters share; a transaction replaces its tables as a whole. */
  class SqlitePool {
    var db: Db

    constructor ()
      ensures db == EMPTY && Consistent(db)
    {
      db := EMPTY;
    }
  }
}
