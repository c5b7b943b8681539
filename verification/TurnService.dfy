/**
 The code of one worker: the startup, the body and the end of a turn, and a compaction, over the
 store, the lock and the chat client. Each call it makes is recorded as an event of the turn
 protocol, so what the protocol guarantees holds of what this code writes.
 */
module TurnService {
  import opened Common
  import opened Text
  import opened MessageEvents
  import opened Transcript
  import opened StandaloneDb
  import opened SoulRuntime
  import opened SessionStore
  import opened StandaloneLock
  import Compaction
  import P = TurnProtocol
  import C = ChatClient
  import L = ToolLoop

  datatype SendError = SendBusy | SendNotFound | SendInternal(message: string)

  datatype SendResult<+T> = Sent(value: T) | NotSent(error: SendError)

  function MapCoreError(e: Error): SendError {
    match e
    case NotFound(resource) => if resource == "session" then SendNotFound else SendInternal(resource + " not found")
    case Busy => SendBusy
    case InvalidInput(m) => SendInternal(m)
    case Upstream(m) => SendInternal(m)
    case Internal(m) => SendInternal(m)
  }

  function RenderSendError(e: SendError): string {
    match e
    case SendBusy => "session send already in progress"
    case SendNotFound => "session not found"
    case SendInternal(m) => m
  }

  datatype TurnInput = UserText(text: string) | SystemSeed(actorId: string,
      text: string) | ExistingMessage(messageId: string)

  datatype Request = Request(sessionId: string, input: TurnInput)

  /** The ids that the code of one turn generates. */
  datatype Ids = Ids(turn: string, trigger: string, reply: string, toolResult: nat -> string)

  datatype Startup = Startup(sessionId: string, soul: string, input: seq<InputMessage>, instructions: Option<string>,
      trigger: Trigger, through: int)

  /** One response of the provider, and what other turns stored in the client's cache before it. */
  datatype Response = Response(script: C.Script, outside: C.Outside, others: C.Cache)

  /** The message that a request for text appends, if it does, and the id of the trigger message. */
  function TriggerMessage(r: Request, id: string): Option<NewMessage> {
    match r.input
    case UserText(text) => Some(NewMessage(r.sessionId, id, Account, "account_local", TextContent(text), Fixed))
    case SystemSeed(actorId, text) => Some(NewMessage(r.sessionId, id, System, actorId, TextContent(text), Fixed))
    case ExistingMessage(_) => None
  }

  /** What a send is triggered by: the user's text, the seed's text under its actor, or a fixed message. */
  ghost predicate IsTriggerFor(input: TurnInput, m: SessionMessage) {
    && m.message.state == Fixed
    && match input
       case UserText(text) => m.message.actorType.Account? && m.message.parts == [TextPart(text)]
       case SystemSeed(actorId, text) =>
         m.message.actorType.System? && m.message.actorId == actorId && m.message.parts == [TextPart(text)]
       case ExistingMessage(id) => m.message.id == id
  }

  function TriggerId(r: Request, id: string): string {
    if r.input.ExistingMessage? then r.input.messageId else id
  }

  /** An existing message is accepted when it is stored in this session and fixed. */
  function ExistingTrigger(messages: seq<Row>, r: Request): SendResult<SessionMessage>
    requires r.input.ExistingMessage?
  {
    if !HasMessage(messages, r.input.messageId) then NotSent(SendNotFound) else
      var row := messages[RowIndex(messages, r.input.messageId)];
      if row.sessionId != r.sessionId then NotSent(SendNotFound)
      else if row.state != Fixed then NotSent(SendInternal("existing trigger message must be fixed before reply generation"))
      else Sent(SessionMessageOf(row))
  }

  function TriggerEvents(r: Request, id: string): seq<P.Event> {
    if TriggerMessage(r, id).Some? then [P.Others(AppendMessage(TriggerMessage(r, id).value))] else []
  }

  function TriggerOf(r: Request, id: string): Trigger {
    if r.input.SystemSeed? then StandaloneDb.SystemSeed(TriggerId(r, id)) else SessionSend(TriggerId(r, id))
  }

  /** A call's item and then its result's, for each call; result ids are numbered from `first`. */
  function CallEvents(w: int, turnId: string, ids: nat -> string, first: nat, calls: seq<C.Call>): seq<P.Event> {
    if calls == [] then [] else
      var k := |calls| - 1;
      CallEvents(w, turnId, ids, first, calls[..k])
      + [P.Act(w, AppendToolCall(calls[k].callId, turnId))]
      + [P.Act(w, AppendToolResult(ids(first + k), calls[k].callId))]
  }

  lemma {:induction false} CallEventsAppend(w: int, turnId: string, ids: nat -> string, first: nat, a: seq<C.Call>,
      b: seq<C.Call>)
    ensures CallEvents(w, turnId, ids, first, a + b) ==
            CallEvents(w, turnId, ids, first, a) + CallEvents(w, turnId, ids, first + |a|, b)
  {
    if b == [] {
      assert a + b == a;
    } else {
      InitOfConcat(a, b);
      var k := |b| - 1;
      CallEventsAppend(w, turnId, ids, first, a, b[..k]);
      var before, more := CallEvents(w, turnId, ids, first, a), CallEvents(w, turnId, ids, first + |a|, b[..k]);
      Assoc(before, more, [P.Act(w, AppendToolCall(b[k].callId, turnId))]);
      Assoc(before, more + [P.Act(w, AppendToolCall(b[k].callId, turnId))],
            [P.Act(w, AppendToolResult(ids(first + |a| + k), b[k].callId))]);
    }
  }

  lemma CallsRecorded(trace: seq<P.Event>, w: int, turnId: string, ids: nat -> string, a: seq<C.Call>, b: seq<C.Call>)
    ensures trace + CallEvents(w, turnId, ids, 0, a) + CallEvents(w, turnId, ids, |a|, b) ==
            trace + CallEvents(w, turnId, ids, 0, a + b)
  {
    hide CallEvents;
    CallEventsAppend(w, turnId, ids, 0, a, b);
    Assoc(trace, CallEvents(w, turnId, ids, 0, a), CallEvents(w, turnId, ids, |a|, b));
  }

  /** The message of a reply, and the provider state that its turn stores. */
  function ReplyMessage(session: string, soulId: string, id: string, text: string): NewMessage {
    NewMessage(session, id, Soul, soulId, TextContent(text), Fixed)
  }

  function StateOf(responseId: Option<string>, basis: int): Option<ProviderState> {
    if responseId.Some? then Some(ProviderState(basis, responseId.value)) else None
  }

  datatype CompactRequest = CompactRequest(sessionId: string, summary: string, start: Option<int>, end: Option<int>,
      reason: string)

  datatype CompactError = CompactBusy | CompactNotFound | CompactInvalid(message: string) | CompactInternal(message: string)

  datatype CompactResult = Compacted(compact: Compact) | NotCompacted(error: CompactError)

  function RenderError(e: Error): CompactError {
    match e
    case NotFound(_) => CompactNotFound
    case Busy => CompactInternal("busy")
    case InvalidInput(m) => CompactInvalid(m)
    case Upstream(m) => CompactInternal(m)
    case Internal(m) => CompactInternal(m)
  }

  /** The round had this response, and other turns stored these responses before it. */
  ghost predicate IsFrom(round: L.Round, response: Response) {
    round.script == response.script && round.outside == response.outside && round.others == response.others
  }

  ghost predicate AreFrom(rounds: seq<L.Round>, responses: seq<Response>) {
    |rounds| <= |responses| && forall i :: 0 <= i < |rounds| ==> IsFrom(rounds[i], responses[i])
  }

  function TextContent(text: string): seq<Part> {
    [TextPart(text)]
  }

  // ---------------------------------------------------------------------------------------
  // Events

  lemma Took(trace: seq<P.Event>, w: int, op: Op, phase: P.Phase)
    requires var s := P.Run(trace);
             w in s.workers && Executed(s.db, op).Ok? && P.Program(s.workers[w], op, Executed(s.db, op).value) == Some(phase)
    ensures var s, s' := P.Run(trace), P.Run(trace + [P.Act(w, op)]);
            s'.db == Executed(s.db, op).value && s'.held == s.held && s'.workers == s.workers[w := s.workers[w].(phase := phase)]
  {
    hide Executed, P.Program;
    assert (trace + [P.Act(w, op)])[..|trace|] == trace;
  }

  lemma TookFree(trace: seq<P.Event>, op: Op)
    requires P.Free(op) && Executed(P.Run(trace).db, op).Ok?
    ensures var s, s' := P.Run(trace), P.Run(trace + [P.Others(op)]);
            s'.db == Executed(s.db, op).value && s'.held == s.held && s'.workers == s.workers
  {
    hide Executed;
    assert (trace + [P.Others(op)])[..|trace|] == trace;
  }

  lemma TookLock(trace: seq<P.Event>, e: P.Event)
    ensures P.Run(trace + [e]) == P.Next(P.Run(trace), e)
  {
    assert (trace + [e])[..|trace|] == trace;
  }

  /** An event of worker `w`, or a free transaction. */
  predicate By(e: P.Event, w: int) {
    match e
    case Acquire(v, _, _) => v == w
    case Act(v, _) => v == w
    case LoseFailure(v) => v == w
    case Release(v) => v == w
    case Abandon(v) => v == w
    case Others(_) => true
  }

  ghost predicate ExtendsBy(a: seq<P.Event>, b: seq<P.Event>, w: int) {
    a <= b && forall i :: |a| <= i < |b| ==> By(b[i], w)
  }

  lemma ToolCallStep(db: Db, session: string, soul: string, turnId: string, callId: string, tx: Db)
    requires ToolCallAppended(db, callId, turnId) == Ok(tx)
    ensures var op := AppendToolCall(callId, turnId);
            Executed(db, op) == Ok(tx)
            && P.Program(P.Worker(P.Send, session, P.InTurn(soul, turnId, P.Idle)), op, tx) == Some(P.InTurn(soul, turnId, P.Calling(callId)))
  {
    hide ToolCallAppended;
  }

  lemma ToolResultStep(db: Db, session: string, soul: string, turnId: string, resultId: string, callId: string, tx: Db)
    requires ToolResultAppended(db, resultId, callId) == Ok(tx)
    ensures var op := AppendToolResult(resultId, callId);
            Executed(db, op) == Ok(tx)
            && P.Program(P.Worker(P.Send, session, P.InTurn(soul, turnId, P.Calling(callId))), op, tx) == Some(P.InTurn(soul, turnId, P.Idle))
  {
    hide ToolResultAppended;
  }

  /** The worker gave up before its turn began, dropping the guard. */
  ghost predicate NeverStarted(before: seq<P.Event>, after: seq<P.Event>, w: int) {
    after == before + [P.Abandon(w)]
  }

  /** The last two events: the turn was failed, or that was lost, and then the key was released. */
  ghost predicate FailedTurn(trace: seq<P.Event>, w: int, turnId: string, error: string, lost: bool, db: Db) {
    && |trace| >= 2 && trace[|trace| - 1] == P.Release(w)
    && trace[|trace| - 2] == (if lost then P.LoseFailure(w) else P.Act(w, FailTurn(turnId, error)))
    && (!lost ==> turnId in db.turns && db.turns[turnId].status == TurnStatus.Failed(error))
  }

  lemma EndsFailed(before: seq<P.Event>, w: int, turnId: string, error: string, lost: bool, db: Db)
    requires !lost ==> turnId in db.turns && db.turns[turnId].status == TurnStatus.Failed(error)
    ensures FailedTurn(before + [if lost then P.LoseFailure(w) else P.Act(w, FailTurn(turnId, error))] + [P.Release(w)],
                       w, turnId, error, lost, db)
  {
  }

  /** The turn of a worker in a turn is stored. */
  lemma WorkerHasTurn(trace: seq<P.Event>, w: int, soul: string, turnId: string, tail: P.Tail)
    requires w in P.Run(trace).workers && P.Run(trace).workers[w].phase == P.InTurn(soul, turnId, tail)
    ensures turnId in P.Run(trace).db.turns && P.Run(trace).db.turns[turnId].soul == soul && soul in P.Run(trace).db.souls
  {
    P.RunKeepsInv(trace);
    var s := P.Run(trace);
    hide P.Run, P.TurnsOk, P.WritersOk, P.Exclusive, Consistent, P.Owns, P.Spells;
    assert P.WorkerOk(s.workers[w], s.db, s.writers);
  }

  lemma TriggerStep(db: Db, session: string, soul: string, messageId: string, tx: Db)
    requires MessageRefAppended(db, soul, messageId) == Ok(tx)
    ensures var op := AppendMessageRef(soul, messageId);
            Executed(db, op) == Ok(tx) && P.Program(P.Worker(P.Send, session, P.Ready(soul)), op, tx) == Some(P.Triggered(soul))
  {
    hide MessageRefAppended;
  }

  lemma ReplyStep(db: Db, session: string, soul: string, turnId: string, messageId: string, tx: Db)
    requires MessageRefAppended(db, soul, messageId) == Ok(tx) && HasMessageBy(db.messages, messageId, session, Soul)
    ensures var op := AppendMessageRef(soul, messageId);
            Executed(db, op) == Ok(tx)
            && P.Program(P.Worker(P.Send, session, P.InTurn(soul, turnId, P.Idle)), op, tx) == Some(P.InTurn(soul, turnId, P.Replied))
  {
    assert tx.messages == db.messages;
    hide MessageRefAppended;
  }

  lemma EnsureStep(db: Db, kind: P.Kind, soulId: string, session: string, tx: Db)
    requires SoulEnsured(db, soulId, session) == Ok(tx) && session in tx.bySession && !kind.Fork?
    ensures var op := EnsureSoul(soulId, session);
            Executed(db, op) == Ok(tx) && P.Program(P.Worker(kind, session, P.Locked), op, tx) == Some(P.Ready(tx.bySession[session]))
  {
    hide SoulEnsured;
  }

  lemma StartStep(db: Db, session: string, soul: string, turnId: string, trigger: Trigger, through: int, tx: Db)
    requires TurnStarted(db, turnId, soul, trigger, through) == Ok(tx)
    ensures var op := StartTurn(turnId, soul, trigger, through);
            && Executed(db, op) == Ok(tx)
            && (!trigger.SessionCompact? ==>
                  P.Program(P.Worker(P.Send, session, P.Triggered(soul)), op, tx) == Some(P.InTurn(soul, turnId, P.Idle)))
            && (trigger.SessionCompact? ==>
                  P.Program(P.Worker(P.Compaction, session, P.Ready(soul)), op, tx) == Some(P.InTurn(soul, turnId, P.Idle)))
  {
    hide TurnStarted;
  }

  lemma CompactStep(db: Db, session: string, soul: string, turnId: string, compactId: string, summary: string,
      start: int, end: int, tx: Db)
    requires CompactAppended(db, compactId, turnId, summary, start, end) == Ok(tx)
    ensures var op := AppendCompact(compactId, turnId, summary, start, end);
            Executed(db, op) == Ok(tx)
            && P.Program(P.Worker(P.Compaction, session, P.InTurn(soul, turnId, P.Idle)), op, tx) == Some(P.InTurn(soul, turnId, P.Replied))
  {
    hide CompactAppended;
  }

  lemma CompleteStep(db: Db, kind: P.Kind, session: string, soul: string, turnId: string, lastSeen: int,
      state: Option<ProviderState>, tx: Db)
    requires TurnCompleted(db, turnId, lastSeen, state) == Ok(tx) && !kind.Fork?
    ensures var op := CompleteTurn(turnId, lastSeen, state);
            && Executed(db, op) == Ok(tx)
            && P.Program(P.Worker(kind, session, P.InTurn(soul, turnId, P.Replied)), op, tx) == Some(P.Closed(soul, turnId))
            && turnId in tx.turns && tx.turns[turnId].status.Completed?
  {
  }

  lemma FailStep(db: Db, session: string, soul: string, turnId: string, tail: P.Tail, error: string, tx: Db)
    requires TurnFailed(db, turnId, error) == Ok(tx)
    ensures var op := FailTurn(turnId, error);
            Executed(db, op) == Ok(tx)
            && P.Program(P.Worker(P.Send, session, P.InTurn(soul, turnId, tail)), op, tx) == Some(P.Closed(soul, turnId))
  {
    hide TurnFailed;
  }

  lemma AppendStep(db: Db, m: NewMessage, tx: Db)
    requires MessageAppended(db, m) == Ok(tx)
    ensures P.Free(AppendMessage(m)) && Executed(db, AppendMessage(m)) == Ok(tx)
  {
    hide MessageAppended;
  }

  lemma ExtendsNot(a: seq<P.Event>, w: int)
    ensures ExtendsBy(a, a, w)
  {
  }

  lemma ExtendsOn(a: seq<P.Event>, b: seq<P.Event>, c: seq<P.Event>, w: int)
    requires ExtendsBy(a, b, w) && ExtendsBy(b, c, w)
    ensures ExtendsBy(a, c, w)
  {
  }

  // ---------------------------------------------------------------------------------------

  class SessionTurnService {
    const soulId: string
    const pool: SqlitePool
    const lock: InProcessLock
    const soulRuntime: StandaloneSoulRuntime
    const ledger: StandaloneSessionLedger
    const client: C.ChatCompletionsClient
    /** Everything that happened, as events of the turn protocol. */
    ghost var trace: seq<P.Event>

    ghost predicate Valid()
      reads this, pool, lock
    {
      && soulRuntime.pool == pool && ledger.pool == pool
      && P.Run(trace).db == pool.db
      && forall s: string :: LockKey(s) in lock.held <==> s in P.Run(trace).held
    }

    constructor (soulId: string, pool: SqlitePool, lock: InProcessLock, soulRuntime: StandaloneSoulRuntime,
        ledger: StandaloneSessionLedger, client: C.ChatCompletionsClient)
      requires soulRuntime.pool == pool && ledger.pool == pool && pool.db == EMPTY && lock.held == {}
      ensures Valid() && trace == []
    {
      this.soulId, this.pool, this.lock, this.soulRuntime, this.ledger, this.client := soulId, pool, lock, soulRuntime, ledger, client;
      trace := [];
    }

    ghost predicate IsWorker(w: int, kind: P.Kind, session: string, phase: P.Phase)
      reads this
    {
      w in P.Run(trace).workers && P.Run(trace).workers[w] == P.Worker(kind, session, phase)
    }

    /** All but the tables: they are compared after a transaction, which the trace does not have yet. */
    ghost predicate HeldMatches()
      reads this, lock
    {
      && soulRuntime.pool == pool && ledger.pool == pool
      && forall s: string :: LockKey(s) in lock.held <==> s in P.Run(trace).held
    }

    /** The worker's program takes it from one phase to the next by a transaction that has just committed. */
    ghost method Record(w: int, kind: P.Kind, session: string, from: P.Phase, op: Op, to: P.Phase)
      requires HeldMatches() && IsWorker(w, kind, session, from)
      requires Executed(P.Run(trace).db, op) == Ok(pool.db)
      requires P.Program(P.Worker(kind, session, from), op, pool.db) == Some(to)
      modifies this`trace
      ensures trace == old(trace) + [P.Act(w, op)]
      ensures Valid() && ExtendsBy(old(trace), trace, w) && IsWorker(w, kind, session, to)
    {
      hide P.Run, Executed, P.Program, LockKey;
      Took(trace, w, op, to);
      trace := trace + [P.Act(w, op)];
    }

    ghost method RecordFree(w: int, op: Op)
      requires HeldMatches() && P.Free(op) && Executed(P.Run(trace).db, op) == Ok(pool.db)
      modifies this`trace
      ensures trace == old(trace) + [P.Others(op)]
      ensures Valid() && ExtendsBy(old(trace), trace, w) && P.Run(trace).workers == P.Run(old(trace)).workers
    {
      hide P.Run, Executed, LockKey;
      TookFree(trace, op);
      trace := trace + [P.Others(op)];
    }

    /** One tool call: its item, the tool, and the item of its result. */
    method HandleToolCall(w: int, session: string, soul: string, turnId: string, resultId: string,
        call: C.Call, dispatch: C.Call -> Result<string>) returns (r: SendResult<C.FunctionCallOutput>)
      requires Valid() && IsWorker(w, P.Send, session, P.InTurn(soul, turnId, P.Idle))
      modifies this, pool
      ensures Valid() && ExtendsBy(old(trace), trace, w)
      ensures r.Sent? ==> IsWorker(w, P.Send, session, P.InTurn(soul, turnId, P.Idle))
      ensures r.Sent? ==> dispatch(call).Ok? && r.value == C.FunctionCallOutput(call.callId, dispatch(call).value)
      ensures r.Sent? ==> trace == old(trace) + [P.Act(w, AppendToolCall(call.callId, turnId))]
                                              + [P.Act(w, AppendToolResult(resultId, call.callId))]
      ensures r.NotSent? ==> exists tail :: IsWorker(w, P.Send, session, P.InTurn(soul, turnId, tail))
    {
      hide P.Run, LockKey, ToolCallAppended, ToolResultAppended, Consistent, P.Program, Executed;
      var item := soulRuntime.AppendToolCall(call.callId, turnId);
      if item.Err? {
        return NotSent(MapCoreError(item.error));
      }
      ToolCallStep(P.Run(trace).db, session, soul, turnId, call.callId, pool.db);
      Record(w, P.Send, session, P.InTurn(soul, turnId, P.Idle), AppendToolCall(call.callId, turnId), P.InTurn(soul, turnId, P.Calling(call.callId)));
      var output := dispatch(call);
      if output.Err? {
        assert IsWorker(w, P.Send, session, P.InTurn(soul, turnId, P.Calling(call.callId)));
        return NotSent(MapCoreError(output.error));
      }
      P.RunKeepsInv(trace);
      ghost var before := trace;
      var answered := soulRuntime.AppendToolResult(resultId, call.callId);
      if answered.Err? {
        assert IsWorker(w, P.Send, session, P.InTurn(soul, turnId, P.Calling(call.callId)));
        return NotSent(MapCoreError(answered.error));
      }
      ToolResultStep(P.Run(trace).db, session, soul, turnId, resultId, call.callId, pool.db);
      Record(w, P.Send, session, P.InTurn(soul, turnId, P.Calling(call.callId)), AppendToolResult(resultId, call.callId), P.InTurn(soul, turnId, P.Idle));
      ExtendsOn(old(trace), before, trace, w);
      return Sent(C.FunctionCallOutput(call.callId, output.value));
    }

    /** The calls of one round, one after the other; the first failure ends the turn. */
    method HandleToolCalls(w: int, session: string, soul: string, turnId: string, ids: nat -> string, first: nat,
        calls: seq<C.Call>, dispatch: C.Call -> Result<string>) returns (r: SendResult<seq<C.FunctionCallOutput>>)
      requires Valid() && IsWorker(w, P.Send, session, P.InTurn(soul, turnId, P.Idle))
      modifies this, pool
      ensures Valid() && ExtendsBy(old(trace), trace, w)
      ensures r.Sent? ==> IsWorker(w, P.Send, session, P.InTurn(soul, turnId, P.Idle)) && L.Answers(r.value, calls)
      ensures r.Sent? ==> trace == old(trace) + CallEvents(w, turnId, ids, first, calls)
      ensures r.NotSent? ==> exists tail :: IsWorker(w, P.Send, session, P.InTurn(soul, turnId, tail))
    {
      hide P.Run, LockKey;
      var outputs: seq<C.FunctionCallOutput> := [];
      for k := 0 to |calls|
        invariant Valid() && ExtendsBy(old(trace), trace, w)
        invariant IsWorker(w, P.Send, session, P.InTurn(soul, turnId, P.Idle))
        invariant |outputs| == k && forall i :: 0 <= i < k ==> outputs[i].callId == calls[i].callId
        invariant trace == old(trace) + CallEvents(w, turnId, ids, first, calls[..k])
      {
        assert calls[..k + 1][..k] == calls[..k];
        ghost var events := CallEvents(w, turnId, ids, first, calls[..k]);
        Assoc(old(trace), events, [P.Act(w, AppendToolCall(calls[k].callId, turnId))]);
        Assoc(old(trace), events + [P.Act(w, AppendToolCall(calls[k].callId, turnId))],
              [P.Act(w, AppendToolResult(ids(first + k), calls[k].callId))]);
        ghost var before := trace;
        var output := HandleToolCall(w, session, soul, turnId, ids(first + k), calls[k], dispatch);
        ExtendsOn(old(trace), before, trace, w);
        if output.NotSent? {
          return NotSent(output.error);
        }
        outputs := outputs + [output.value];
      }
      assert calls[..|calls|] == calls;
      return Sent(outputs);
    }

    /** One request and what the turn body takes from its response. */
    method Ask(start: Startup, previous: Option<string>, given: Option<seq<C.FunctionCallOutput>>, response: Response,
        ghost done: seq<L.Round>) returns (taken: SendResult<Taken>, ghost round: L.Round)
      requires L.IsTrace(done, start.instructions, start.input) && L.Expects(done, previous, given, client.responseCache)
      modifies client
      ensures L.IsTrace(done + [round], start.instructions, start.input)
      ensures IsFrom(round, response)
      ensures round.previous == previous && client.responseCache == L.Response(round).cache
      ensures taken.Sent? ==> L.Completes(L.Response(round).events) && taken.value == TakenFrom(L.Response(round).events)
    {
      hide C.Streamed, C.Mapped, L.CallsTaken, L.FirstCompletion, L.IsTrace, L.Called;
      L.NextRequest(done, previous, given, client.responseCache, response.others, start.instructions, start.input, response.script,
                    response.outside);
      client.responseCache := client.responseCache + response.others;
      ghost var cache := client.responseCache;
      var request := client.MapMessages(start.instructions, if previous.Some? then [] else start.input, previous, given);
      assert request.Ok?;
      round := L.Round(previous, given, response.others, cache, request.value, response.script, response.outside, []);
      var events, error := client.StreamVerbose(request.value, response.script, response.outside);
      if error.None? { CompletesWhenOk(round); }
      taken := TakeEvents(events, error);
    }

    /** The rounds of a turn: requests, responses and tool calls, until a response makes no call. */
    method RunRounds(w: int, start: Startup, turnId: string, responses: seq<Response>,
        dispatch: C.Call -> Result<string>,
        ids: nat -> string)
      returns (r: SendResult<(string, Option<string>)>, ghost rounds: seq<L.Round>)
      requires Valid() && IsWorker(w, P.Send, start.sessionId, P.InTurn(start.soul, turnId, P.Idle))
      modifies this, pool, client
      ensures Valid() && ExtendsBy(old(trace), trace, w)
      ensures r.Sent? ==> IsWorker(w, P.Send, start.sessionId, P.InTurn(start.soul, turnId, P.Idle))
      ensures r.NotSent? ==> exists tail :: IsWorker(w, P.Send, start.sessionId, P.InTurn(start.soul, turnId, tail))
      ensures L.IsTrace(rounds, start.instructions, start.input) && AreFrom(rounds, responses)
      ensures r.Sent? ==> rounds != [] && r.value == (L.SpokenText(rounds), L.StoredResponseId(rounds))
      ensures r.Sent? ==> trace == old(trace) + CallEvents(w, turnId, ids, 0, L.AllCalls(rounds))
    {
      hide P.Run, LockKey, C.Streamed, L.CallsTaken, L.FirstCompletion, L.IsTrace, L.Called, L.SpokenText, L.AllCalls,
        CallEvents, ExtendsBy;
      StartOfTrace(start, trace, w, turnId, ids);
      var text := "";
      var toolCount: nat := 0;
      var previous: Option<string> := None;
      var given: Option<seq<C.FunctionCallOutput>> := None;
      ghost var done: seq<L.Round> := [];
      rounds := [];
      var k := 0;
      while k < |responses|
        invariant 0 <= k <= |responses|
        invariant Valid() && ExtendsBy(old(trace), trace, w)
        invariant IsWorker(w, P.Send, start.sessionId, P.InTurn(start.soul, turnId, P.Idle))
        invariant rounds == done && L.IsTrace(done, start.instructions, start.input) && text == L.SpokenText(done)
        invariant |done| == k && AreFrom(done, responses)
        invariant L.Expects(done, previous, given, client.responseCache)
        invariant toolCount == |L.AllCalls(done)| && trace == old(trace) + CallEvents(w, turnId, ids, 0, L.AllCalls(done))
      {
        var taken;
        ghost var round;
        taken, round := Ask(start, previous, given, responses[k], done);
        k := k + 1;
        rounds := done + [round];
        if taken.NotSent? {
          return NotSent(taken.error), rounds;
        }
        L.SpokenOneMore(done, round);
        text := text + taken.value.text;
        if taken.value.calls == [] {
          assert L.AllCalls(done) + [] == L.AllCalls(done);
          return Sent((text, if previous.None? then taken.value.completedId else previous)), rounds;
        }
        ghost var before := trace;
        var outputs := HandleToolCalls(w, start.sessionId, start.soul, turnId, ids, toolCount, taken.value.calls, dispatch);
        ExtendsOn(old(trace), before, trace, w);
        if outputs.NotSent? {
          return NotSent(outputs.error), rounds;
        }
        CallsRecorded(old(trace), w, turnId, ids, L.AllCalls(done), taken.value.calls);
        AnsweredIsCalled(round, outputs.value);
        L.RoundDone(done, round, outputs.value, start.instructions, start.input);
        toolCount := toolCount + |taken.value.calls|;
        previous := Some(taken.value.calls[|taken.value.calls| - 1].responseId);
        given := Some(outputs.value);
        done := done + [round.(outputs := outputs.value)];
        rounds := done;
      }
      return NotSent(SendInternal("provider request failed")), rounds;
    }

    /** The reply: its message, its item, and the completion of the turn. */
    method WriteReply(w: int, session: string, soul: string, turnId: string, text: string, responseId: Option<string>,
        reply: string)
      returns (r: SendResult<SessionMessage>, ghost basis: int)
      requires Valid() && IsWorker(w, P.Send, session, P.InTurn(soul, turnId, P.Idle))
      modifies this, pool
      ensures Valid() && ExtendsBy(old(trace), trace, w)
      ensures r.Sent? ==> IsWorker(w, P.Send, session, P.Closed(soul, turnId)) && r.value.message.parts == TextContent(text)
      ensures r.Sent? ==> trace == old(trace) + [P.Others(AppendMessage(ReplyMessage(session, soulId, reply, text)))]
                                              + [P.Act(w, AppendMessageRef(soul, reply))]
                                              + [P.Act(w, CompleteTurn(turnId, r.value.sessionSeq, StateOf(responseId, basis)))]
      ensures r.Sent? ==> Pos(soul, basis) in pool.db.items && pool.db.items[Pos(soul, basis)] == MessageRef(reply)
      ensures r.Sent? ==> turnId in pool.db.turns && pool.db.turns[turnId].status.Completed?
      ensures r.Sent? ==> IsStored(pool.db.messages, reply, session, r.value) && LeavesBehind(pool.db, soul, responseId, basis, r.value)
      ensures r.NotSent? ==> exists tail :: IsWorker(w, P.Send, session, P.InTurn(soul, turnId, tail))
    {
      ExtendsNot(trace, w);
      hide P.Run, LockKey, ExtendsBy, Executed, P.Program, MessageRefAppended, MessageAppended, TurnCompleted;
      basis := 0;
      var m := ReplyMessage(session, soulId, reply, text);
      var stored := ledger.AppendMessage(m);
      if stored.Err? {
        return NotSent(MapCoreError(stored.error)), basis;
      }
      StoredParts(P.Run(trace).db, m, text);
      AppendStep(P.Run(trace).db, m, pool.db);
      RecordFree(w, AppendMessage(m));
      ghost var t1 := trace;
      var entry := soulRuntime.AppendMessageRef(soul, reply);
      if entry.Err? {
        assert IsWorker(w, P.Send, session, P.InTurn(soul, turnId, P.Idle));
        return NotSent(MapCoreError(entry.error)), basis;
      }
      AppendedItem(P.Run(trace).db, soul, reply, pool.db);
      ReplyStep(P.Run(trace).db, session, soul, turnId, reply, pool.db);
      Record(w, P.Send, session, P.InTurn(soul, turnId, P.Idle), AppendMessageRef(soul, reply), P.InTurn(soul, turnId, P.Replied));
      ExtendsOn(old(trace), t1, trace, w);
      ghost var t2 := trace;
      basis := entry.value.seqNo;
      assert Pos(soul, basis) in pool.db.items && pool.db.items[Pos(soul, basis)] == MessageRef(reply);
      ghost var items := pool.db.items;
      var state := StateOf(responseId, entry.value.seqNo);
      var completed := soulRuntime.CompleteTurn(turnId, stored.value.sessionSeq, state);
      if completed.Err? {
        assert IsWorker(w, P.Send, session, P.InTurn(soul, turnId, P.Replied));
        return NotSent(MapCoreError(completed.error)), basis;
      }
      CompletionKeepsItems(P.Run(trace).db, turnId, stored.value.sessionSeq, state, pool.db);
      WorkerHasTurn(trace, w, soul, turnId, P.Replied);
      CompletionLeaves(P.Run(trace).db, turnId, soul, responseId, basis, stored.value, pool.db);
      CompleteStep(P.Run(trace).db, P.Send, session, soul, turnId, stored.value.sessionSeq, state, pool.db);
      Record(w, P.Send, session, P.InTurn(soul, turnId, P.Replied), CompleteTurn(turnId, stored.value.sessionSeq, state), P.Closed(soul, turnId));
      ExtendsOn(old(trace), t2, trace, w);
      return Sent(stored.value), basis;
    }

    /** The body of a turn: the rounds, and then the reply. */
    method RunTurnBody(w: int, start: Startup, turnId: string, responses: seq<Response>,
        dispatch: C.Call -> Result<string>, ids: Ids)
      returns (r: SendResult<SessionMessage>, ghost rounds: seq<L.Round>, ghost basis: int)
      requires Valid() && IsWorker(w, P.Send, start.sessionId, P.InTurn(start.soul, turnId, P.Idle))
      modifies this, pool, client
      ensures r.Sent? ==>
                rounds != [] && trace == old(trace)
                + CallEvents(w, turnId, ids.toolResult, 0, L.AllCalls(rounds))
                + [P.Others(AppendMessage(ReplyMessage(start.sessionId, soulId, ids.reply, L.SpokenText(rounds))))]
                + [P.Act(w, AppendMessageRef(start.soul, ids.reply))]
                + [P.Act(w, CompleteTurn(turnId, r.value.sessionSeq, StateOf(L.StoredResponseId(rounds), basis)))]
      ensures r.Sent? ==> Pos(start.soul, basis) in pool.db.items && pool.db.items[Pos(start.soul, basis)] == MessageRef(ids.reply)
      ensures Valid() && ExtendsBy(old(trace), trace, w)
      ensures L.IsTrace(rounds, start.instructions, start.input) && AreFrom(rounds, responses)
      ensures r.Sent? ==> IsWorker(w, P.Send, start.sessionId, P.Closed(start.soul, turnId))
      ensures r.Sent? ==> turnId in pool.db.turns && pool.db.turns[turnId].status.Completed?
      ensures r.Sent? ==>
                && IsStored(pool.db.messages, ids.reply, start.sessionId, r.value)
                && LeavesBehind(pool.db, start.soul, L.StoredResponseId(rounds), basis, r.value)
      ensures r.Sent? ==> !Blank(L.SpokenText(rounds)) && r.value.message.parts == TextContent(L.SpokenText(rounds))
      ensures r.NotSent? ==> exists tail :: IsWorker(w, P.Send, start.sessionId, P.InTurn(start.soul, turnId, tail))
    {
      hide P.Run, LockKey, ExtendsBy, L.IsTrace, L.SpokenText, L.AllCalls, L.StoredResponseId, CallEvents, Blank;
      basis := 0;
      var spoken;
      spoken, rounds := RunRounds(w, start, turnId, responses, dispatch, ids.toolResult);
      if spoken.NotSent? {
        return NotSent(spoken.error), rounds, basis;
      }
      var (text, responseId) := spoken.value;
      if Blank(text) {
        return NotSent(SendInternal("provider completed without assistant output")), rounds, basis;
      }
      ghost var before := trace;
      r, basis := WriteReply(w, start.sessionId, start.soul, turnId, text, responseId, ids.reply);
      ExtendsOn(old(trace), before, trace, w);
    }

    method Acquire(w: int, kind: P.Kind, session: string) returns (busy: bool)
      requires Valid() && w !in P.Run(trace).workers
      modifies this, lock
      ensures Valid() && ExtendsBy(old(trace), trace, w)
      ensures busy <==> LockKey(session) in old(lock.held)
      ensures busy ==> lock.held == old(lock.held) && trace == old(trace)
      ensures !busy ==> IsWorker(w, kind, session, P.Locked) && lock.held == old(lock.held) + {LockKey(session)}
      ensures !busy ==> trace == old(trace) + [P.Acquire(w, kind, session)]
    {
      hide P.Run, LockKey;
      busy := lock.Acquire(LockKey(session));
      if busy {
        return;
      }
      TookLock(trace, P.Acquire(w, kind, session));
      trace := trace + [P.Acquire(w, kind, session)];
      forall s: string ensures LockKey(s) in lock.held <==> s in P.Run(trace).held {
        if LockKey(s) == LockKey(session) { LockKeyInjective(s, session); }
      }
    }

    /** A worker outside a turn gives its key back. */
    method Release(w: int, kind: P.Kind, session: string, ghost phase: P.Phase)
      requires Valid() && IsWorker(w, kind, session, phase) && !phase.InTurn? && !phase.Gone?
      modifies this, lock
      ensures Valid() && ExtendsBy(old(trace), trace, w) && IsWorker(w, kind, session, P.Gone)
      ensures lock.held == old(lock.held) - {LockKey(session)} && trace == old(trace) + [P.Release(w)]
    {
      hide P.Run, LockKey;
      lock.Release(LockKey(session));
      TookLock(trace, P.Release(w));
      trace := trace + [P.Release(w)];
      forall s: string ensures LockKey(s) in lock.held <==> s in P.Run(trace).held {
        if LockKey(s) == LockKey(session) { LockKeyInjective(s, session); }
      }
    }

    /** An error exit that drops the guard without releasing it: the key stays held. */
    ghost method Drop(w: int, kind: P.Kind, session: string, phase: P.Phase)
      requires Valid() && IsWorker(w, kind, session, phase)
      modifies this`trace
      ensures Valid() && ExtendsBy(old(trace), trace, w) && IsWorker(w, kind, session, P.Gone)
      ensures trace == old(trace) + [P.Abandon(w)]
    {
      hide P.Run, LockKey;
      TookLock(trace, P.Abandon(w));
      trace := trace + [P.Abandon(w)];
    }

    /** `fail_turn_on_error`: its own failure, which is `lost`, is ignored. */
    method FailTurnOnError(w: int, session: string, soul: string, turnId: string, error: string, lost: bool,
        ghost tail: P.Tail)
      requires Valid() && IsWorker(w, P.Send, session, P.InTurn(soul, turnId, tail))
      modifies this, pool
      ensures Valid() && ExtendsBy(old(trace), trace, w) && IsWorker(w, P.Send, session, P.Closed(soul, turnId))
      ensures lost ==> trace == old(trace) + [P.LoseFailure(w)] && pool.db == old(pool.db)
      ensures !lost ==>
                trace == old(trace) + [P.Act(w, FailTurn(turnId, error))]
                && turnId in pool.db.turns && pool.db.turns[turnId].status == TurnStatus.Failed(error)
    {
      WorkerHasTurn(trace, w, soul, turnId, tail);
      hide P.Run, LockKey, Executed, P.Program;
      if lost {
        TookLock(trace, P.LoseFailure(w));
        trace := trace + [P.LoseFailure(w)];
        return;
      }
      var failed := soulRuntime.FailTurn(turnId, error);
      hide TurnFailed;
      FailStep(P.Run(trace).db, session, soul, turnId, tail, error, pool.db);
      Record(w, P.Send, session, P.InTurn(soul, turnId, tail), FailTurn(turnId, error), P.Closed(soul, turnId));
    }

    /** The turn itself, from its row to the release of the lock. */
    method RunTurnWorker(w: int, start: Startup, responses: seq<Response>, dispatch: C.Call -> Result<string>, ids: Ids,
        failureLost: bool)
      returns (r: SendResult<SessionMessage>, ghost rounds: seq<L.Round>, ghost basis: int)
      requires Valid() && IsWorker(w, P.Send, start.sessionId, P.Triggered(start.soul)) && !start.trigger.SessionCompact?
      modifies this, pool, client, lock
      ensures Valid() && ExtendsBy(old(trace), trace, w) && IsWorker(w, P.Send, start.sessionId, P.Gone)
      ensures L.IsTrace(rounds, start.instructions, start.input) && AreFrom(rounds, responses)
      ensures r.Sent? ==>
                rounds != [] && trace == old(trace)
                + [P.Act(w, StartTurn(ids.turn, start.soul, start.trigger, start.through))]
                + CallEvents(w, ids.turn, ids.toolResult, 0, L.AllCalls(rounds))
                + [P.Others(AppendMessage(ReplyMessage(start.sessionId, soulId, ids.reply, L.SpokenText(rounds))))]
                + [P.Act(w, AppendMessageRef(start.soul, ids.reply))]
                + [P.Act(w, CompleteTurn(ids.turn, r.value.sessionSeq, StateOf(L.StoredResponseId(rounds), basis)))]
                + [P.Release(w)]
      ensures r.Sent? ==> Pos(start.soul, basis) in pool.db.items && pool.db.items[Pos(start.soul, basis)] == MessageRef(ids.reply)
      ensures r.Sent? ==> LockKey(start.sessionId) !in lock.held
      ensures r.Sent? ==> ids.turn in pool.db.turns && pool.db.turns[ids.turn].status.Completed? && P.Spelled(pool.db, pool.db.turns[ids.turn])
      ensures r.Sent? ==>
                && IsStored(pool.db.messages, ids.reply, start.sessionId, r.value)
                && LeavesBehind(pool.db, start.soul, L.StoredResponseId(rounds), basis, r.value)
      ensures r.Sent? ==> !Blank(L.SpokenText(rounds)) && r.value.message.parts == TextContent(L.SpokenText(rounds))
      ensures r.NotSent? ==>
                || (NeverStarted(old(trace), trace, w) && pool.db == old(pool.db) && lock.held == old(lock.held))
                || (FailedTurn(trace, w, ids.turn, RenderSendError(r.error), failureLost, pool.db)
                    && LockKey(start.sessionId) !in lock.held)
    {
      StartOfTrace(start, trace, w, ids.turn, ids.toolResult);
      hide P.Run, LockKey, ExtendsBy, Executed, P.Program, L.IsTrace, L.SpokenText, L.AllCalls, L.StoredResponseId,
        CallEvents, Blank, TurnStarted, P.Spelled;
      rounds, basis := [], 0;
      var started := soulRuntime.StartTurn(ids.turn, start.soul, start.trigger, start.through);
      if started.Err? {
        Drop(w, P.Send, start.sessionId, P.Triggered(start.soul));
        return NotSent(MapCoreError(started.error)), rounds, basis;
      }
      StartStep(P.Run(trace).db, start.sessionId, start.soul, ids.turn, start.trigger, start.through, pool.db);
      Record(w, P.Send, start.sessionId, P.Triggered(start.soul), StartTurn(ids.turn, start.soul, start.trigger, start.through),
             P.InTurn(start.soul, ids.turn, P.Idle));
      ghost var t1 := trace;
      r, rounds, basis := RunTurnBody(w, start, ids.turn, responses, dispatch, ids);
      ExtendsOn(old(trace), t1, trace, w);
      ghost var t2 := trace;
      if r.NotSent? {
        ghost var tail :| IsWorker(w, P.Send, start.sessionId, P.InTurn(start.soul, ids.turn, tail));
        FailTurnOnError(w, start.sessionId, start.soul, ids.turn, RenderSendError(r.error), failureLost, tail);
        ExtendsOn(old(trace), t2, trace, w);
        EndsFailed(t2, w, ids.turn, RenderSendError(r.error), failureLost, pool.db);
      } else {
        P.CompletedTurnsSpell(trace, ids.turn);
      }
      ghost var t3 := trace;
      Release(w, P.Send, start.sessionId, P.Closed(start.soul, ids.turn));
      ExtendsOn(old(trace), t3, trace, w);
    }

    /** The trigger message: appended for text, looked up and checked for a message that exists. */
    method Trigger(w: int, request: Request, ids: Ids) returns (r: SendResult<SessionMessage>)
      requires Valid()
      modifies this, pool
      ensures Valid() && ExtendsBy(old(trace), trace, w) && P.Run(trace).workers == P.Run(old(trace)).workers
      ensures P.Run(trace).db.souls == P.Run(old(trace)).db.souls
      ensures r.Sent? ==> r.value.message.id == TriggerId(request, ids.trigger) && trace == old(trace) + TriggerEvents(request, ids.trigger)
      ensures request.input.ExistingMessage? ==>
                trace == old(trace) && pool.db == old(pool.db) && r == ExistingTrigger(pool.db.messages, request)
      ensures r.Sent? ==>
                && IsStored(pool.db.messages, TriggerId(request, ids.trigger), request.sessionId, r.value)
                && IsTriggerFor(request.input, r.value)
    {
      ExtendsNot(trace, w);
      hide P.Run, LockKey, ExtendsBy, Executed, MessageAppended, RowIndex;
      match request.input {
        case UserText(text) =>
          r := AppendTriggerMessage(w, NewMessage(request.sessionId, ids.trigger, Account, "account_local", TextContent(text), Fixed), text);
        case SystemSeed(actorId, text) =>
          r := AppendTriggerMessage(w, NewMessage(request.sessionId, ids.trigger, System, actorId, TextContent(text), Fixed), text);
        case ExistingMessage(id) =>
          var row := ledger.GetMessage(id);
          if row.None? || row.value.sessionId != request.sessionId {
            return NotSent(SendNotFound);
          }
          if row.value.state != Fixed {
            return NotSent(SendInternal("existing trigger message must be fixed before reply generation"));
          }
          assert trace + [] == trace;
          return Sent(SessionMessageOf(row.value));
      }
    }

    method AppendTriggerMessage(w: int, m: NewMessage, ghost text: string) returns (r: SendResult<SessionMessage>)
      requires Valid() && m.parts == TextContent(text)
      modifies this, pool
      ensures Valid() && ExtendsBy(old(trace), trace, w) && P.Run(trace).workers == P.Run(old(trace)).workers
      ensures P.Run(trace).db.souls == P.Run(old(trace)).db.souls
      ensures r.Sent? ==> r.value.message.id == m.id && trace == old(trace) + [P.Others(AppendMessage(m))]
      ensures r.Sent? ==> IsStored(pool.db.messages, m.id, m.sessionId, r.value)
      ensures r.Sent? ==>
                && r.value.message.actorType == m.actorType && r.value.message.actorId == m.actorId
                && r.value.message.parts == m.parts && r.value.message.state == m.state
    {
      ExtendsNot(trace, w);
      hide P.Run, LockKey, ExtendsBy, Executed;
      var stored := ledger.AppendMessage(m);
      if stored.Err? {
        return NotSent(MapCoreError(stored.error));
      }
      AppendLeavesSouls(P.Run(trace).db, m, pool.db);
      StoredId(P.Run(trace).db, m);
      StoredParts(P.Run(trace).db, m, text);
      hide MessageAppended;
      AppendStep(P.Run(trace).db, m, pool.db);
      RecordFree(w, AppendMessage(m));
      return Sent(stored.value);
    }

    /** The soul session, the trigger message and its item, and the provider input made of the ledger. */
    method RunTurnStartup(w: int, request: Request, instructions: Option<string>,
        ids: Ids) returns (r: SendResult<Startup>)
      requires Valid() && IsWorker(w, P.Send, request.sessionId, P.Locked)
      modifies this, pool
      ensures Valid() && ExtendsBy(old(trace), trace, w)
      ensures r.Sent? ==> r.value.sessionId == request.sessionId && r.value.trigger == TriggerOf(request, ids.trigger)
      ensures r.Sent? ==>
                r.value.instructions == instructions
                && r.value.input == Compaction.AssemblyToProviderInput(Items(Listed(pool.db.messages, request.sessionId)))
      ensures r.Sent? ==>
                trace == old(trace)
                + [P.Act(w, EnsureSoul(soulId, request.sessionId))]
                + TriggerEvents(request, ids.trigger)
                + [P.Act(w, AppendMessageRef(r.value.soul, TriggerId(request, ids.trigger)))]
      ensures r.Sent? ==> IsWorker(w, P.Send, request.sessionId, P.Triggered(r.value.soul))
      ensures r.NotSent? ==> exists phase :: IsWorker(w, P.Send, request.sessionId, phase) && !phase.InTurn? && !phase.Gone?
    {
      P.RunKeepsInv(trace);
      ExtendsNot(trace, w);
      hide P.Run, LockKey, ExtendsBy, Executed, P.Program, Consistent, SoulEnsured, MessageRefAppended, Listed, TriggerEvents,
        Compaction.AssemblyToProviderInput;
      var acquired := soulRuntime.AcquireSoulSession(soulId, request.sessionId);
      if acquired.Err? {
        assert IsWorker(w, P.Send, request.sessionId, P.Locked);
        return NotSent(MapCoreError(acquired.error));
      }
      var soul := acquired.value;
      SoulEnsuredHere(P.Run(trace).db, soulId, request.sessionId);
      EnsureStep(P.Run(trace).db, P.Send, soulId, request.sessionId, pool.db);
      Record(w, P.Send, request.sessionId, P.Locked, EnsureSoul(soulId, request.sessionId), P.Ready(soul));
      ghost var t1 := trace;
      if request.sessionId !in pool.db.sessions {
        return NotSent(SendNotFound);
      }
      var trigger := Trigger(w, request, ids);
      ExtendsOn(old(trace), t1, trace, w);
      assert IsWorker(w, P.Send, request.sessionId, P.Ready(soul));
      if trigger.NotSent? {
        return NotSent(trigger.error);
      }
      ghost var t2 := trace;
      var id := trigger.value.message.id;
      var entry := soulRuntime.AppendMessageRef(soul, id);
      if entry.Err? {
        assert IsWorker(w, P.Send, request.sessionId, P.Ready(soul));
        return NotSent(MapCoreError(entry.error));
      }
      TriggerStep(P.Run(trace).db, request.sessionId, soul, id, pool.db);
      Record(w, P.Send, request.sessionId, P.Ready(soul), AppendMessageRef(soul, id), P.Triggered(soul));
      ExtendsOn(old(trace), t2, trace, w);
      var messages := ledger.ListMessages(request.sessionId);
      var items := Compaction.BuildAssemblyItems(messages);
      var input := Compaction.AssemblyToProviderInput(items);
      assert items == Items(messages);
      return Sent(Startup(request.sessionId, soul, input, instructions, TriggerOf(request, ids.trigger), trigger.value.sessionSeq));
    }

    /**
     A send from the lock to its release. When it succeeds, its turn is completed and spells calls,
     results and reply, the reply is the text of all its responses, and the session's key is free.
     */
    method Execute(w: int, request: Request, instructions: Option<string>, responses: seq<Response>,
        dispatch: C.Call -> Result<string>, ids: Ids,
        failureLost: bool)
      returns (r: SendResult<SessionMessage>, ghost start: Option<Startup>, ghost rounds: seq<L.Round>, ghost basis: int)
      requires Valid() && w !in P.Run(trace).workers
      modifies this, pool, client, lock
      ensures Valid() && ExtendsBy(old(trace), trace, w)
      ensures LockKey(request.sessionId) in old(lock.held) ==> r == NotSent(SendBusy) && trace == old(trace) && pool.db == old(pool.db)
      ensures r.Sent? ==>
                start.Some? && rounds != [] && trace == old(trace)
                + [P.Acquire(w, P.Send, request.sessionId)]
                + [P.Act(w, EnsureSoul(soulId, request.sessionId))]
                + TriggerEvents(request, ids.trigger)
                + [P.Act(w, AppendMessageRef(start.value.soul, TriggerId(request, ids.trigger)))]
                + [P.Act(w, StartTurn(ids.turn, start.value.soul, TriggerOf(request, ids.trigger), start.value.through))]
                + CallEvents(w, ids.turn, ids.toolResult, 0, L.AllCalls(rounds))
                + [P.Others(AppendMessage(ReplyMessage(request.sessionId, soulId, ids.reply, L.SpokenText(rounds))))]
                + [P.Act(w, AppendMessageRef(start.value.soul, ids.reply))]
                + [P.Act(w, CompleteTurn(ids.turn, r.value.sessionSeq, StateOf(L.StoredResponseId(rounds), basis)))]
                + [P.Release(w)]
      ensures r.Sent? ==> L.IsTrace(rounds, instructions, start.value.input) && AreFrom(rounds, responses)
      ensures r.Sent? ==> Pos(start.value.soul, basis) in pool.db.items && pool.db.items[Pos(start.value.soul, basis)] == MessageRef(ids.reply)
      ensures r.Sent? ==> LockKey(request.sessionId) !in lock.held
      ensures r.Sent? ==> ids.turn in pool.db.turns && pool.db.turns[ids.turn].status.Completed? && P.Spelled(pool.db, pool.db.turns[ids.turn])
      ensures r.Sent? ==>
                && IsStored(pool.db.messages, ids.reply, request.sessionId, r.value)
                && LeavesBehind(pool.db, start.value.soul, L.StoredResponseId(rounds), basis, r.value)
      ensures r.Sent? ==> !Blank(L.SpokenText(rounds)) && r.value.message.parts == TextContent(L.SpokenText(rounds))
    {
      hide P.Run, LockKey, ExtendsBy, L.SpokenText, L.IsTrace, L.AllCalls, L.StoredResponseId, CallEvents, TriggerEvents,
        Blank, P.Spelled, Listed;
      start, rounds, basis := None, [], 0;
      var busy := Acquire(w, P.Send, request.sessionId);
      if busy {
        return NotSent(SendBusy), start, rounds, basis;
      }
      ghost var t1 := trace;
      var startup := RunTurnStartup(w, request, instructions, ids);
      ExtendsOn(old(trace), t1, trace, w);
      ghost var t2 := trace;
      if startup.NotSent? {
        ghost var phase :| IsWorker(w, P.Send, request.sessionId, phase) && !phase.InTurn? && !phase.Gone?;
        Release(w, P.Send, request.sessionId, phase);
        ExtendsOn(old(trace), t2, trace, w);
        return NotSent(startup.error), start, rounds, basis;
      }
      start := Some(startup.value);
      r, rounds, basis := RunTurnWorker(w, startup.value, responses, dispatch, ids, failureLost);
      ExtendsOn(old(trace), t2, trace, w);
    }

    /**
     `execute_compact`: a turn of one item under the same lock. Only the two checks of the request
     release the key on failure; every other error exit drops the guard and leaves it held.
     */
    method ExecuteCompact(w: int, request: CompactRequest, turnId: string,
        compactId: string) returns (r: CompactResult, ghost soul: string)
      requires Valid() && w !in P.Run(trace).workers
      modifies this, pool, lock
      ensures Valid() && ExtendsBy(old(trace), trace, w)
      ensures LockKey(request.sessionId) in old(lock.held) ==> r == NotCompacted(CompactBusy) && pool.db == old(pool.db)
      ensures r.Compacted? ==> LockKey(request.sessionId) !in lock.held
      ensures r.Compacted? ==> turnId in pool.db.turns && pool.db.turns[turnId].status.Completed? && P.Spelled(pool.db, pool.db.turns[turnId])
      ensures r.Compacted? ==>
                trace == old(trace)
                + [P.Acquire(w, P.Compaction, request.sessionId)]
                + [P.Act(w, EnsureSoul(soulId, request.sessionId))]
                + [P.Act(w, StartTurn(turnId, soul, SessionCompact(request.reason), r.compact.end))]
                + [P.Act(w, AppendCompact(compactId, turnId, Trim(request.summary), r.compact.start, r.compact.end))]
                + [P.Act(w, CompleteTurn(turnId, r.compact.end, None))]
                + [P.Release(w)]
      ensures r.Compacted? ==>
                var messages := Listed(old(pool.db).messages, request.sessionId);
                messages != [] && r.compact.start == request.start.GetOr(1)
                && r.compact.end == request.end.GetOr(messages[|messages| - 1].sessionSeq)
      ensures r.Compacted? ==> r.compact.summary == Trim(request.summary) && r.compact.start <= r.compact.end && r.compact.turnId == turnId
      ensures Blank(request.summary) && LockKey(request.sessionId) !in old(lock.held) ==>
                r.NotCompacted? && r.error.CompactInvalid? && lock.held == old(lock.held) && pool.db == old(pool.db)
    {
      hide P.Run, LockKey, ExtendsBy, P.Spelled, Executed, P.Program, Consistent, SoulEnsured, TurnStarted, CompactAppended, TurnCompleted, Listed, Trim;
      var session := request.sessionId;
      soul := "";
      var busy := Acquire(w, P.Compaction, session);
      if busy {
        return NotCompacted(CompactBusy), soul;
      }
      ghost var t0 := trace;
      if Blank(request.summary) {
        Release(w, P.Compaction, session, P.Locked);
        ExtendsOn(old(trace), t0, trace, w);
        assert lock.held == old(lock.held);
        return NotCompacted(CompactInvalid("expected non-empty compact summary")), soul;
      }
      if session !in pool.db.sessions {
        Drop(w, P.Compaction, session, P.Locked);
        ExtendsOn(old(trace), t0, trace, w);
        return NotCompacted(CompactNotFound), soul;
      }
      var messages := ledger.ListMessages(session);
      if messages == [] {
        Drop(w, P.Compaction, session, P.Locked);
        ExtendsOn(old(trace), t0, trace, w);
        return NotCompacted(CompactInvalid("cannot compact empty session")), soul;
      }
      var computedEnd := messages[|messages| - 1].sessionSeq;
      P.RunKeepsInv(trace);
      var acquired := soulRuntime.AcquireSoulSession(soulId, session);
      if acquired.Err? {
        Drop(w, P.Compaction, session, P.Locked);
        ExtendsOn(old(trace), t0, trace, w);
        return NotCompacted(RenderError(acquired.error)), soul;
      }
      var acquiredSoul := acquired.value;
      soul := acquiredSoul;
      SoulEnsuredHere(P.Run(trace).db, soulId, session);
      EnsureStep(P.Run(trace).db, P.Compaction, soulId, session, pool.db);
      Record(w, P.Compaction, session, P.Locked, EnsureSoul(soulId, session), P.Ready(acquiredSoul));
      ExtendsOn(old(trace), t0, trace, w);
      ghost var t1 := trace;
      var start := request.start.GetOr(1);
      var end := request.end.GetOr(computedEnd);
      if start > end {
        Release(w, P.Compaction, session, P.Ready(acquiredSoul));
        ExtendsOn(old(trace), t1, trace, w);
        return NotCompacted(CompactInvalid("no uncompacted session range")), soul;
      }
      r := CompactTurn(w, session, acquiredSoul, turnId, compactId, Trim(request.summary), start, end, request.reason);
      ExtendsOn(old(trace), t1, trace, w);
    }

    /** The turn of a compaction, ended and released, or dropped at its first error. */
    method CompactTurn(w: int, session: string, soul: string, turnId: string, compactId: string, summary: string,
        start: int, end: int, reason: string)
      returns (r: CompactResult)
      requires Valid() && IsWorker(w, P.Compaction, session, P.Ready(soul))
      modifies this, pool, lock
      ensures Valid() && ExtendsBy(old(trace), trace, w)
      ensures r.Compacted? ==> LockKey(session) !in lock.held && r.compact == Compact(compactId, turnId, summary, start, end)
      ensures r.Compacted? ==>
                trace == old(trace)
                + [P.Act(w, StartTurn(turnId, soul, SessionCompact(reason), end))]
                + [P.Act(w, AppendCompact(compactId, turnId, summary, start, end))]
                + [P.Act(w, CompleteTurn(turnId, end, None))]
                + [P.Release(w)]
      ensures r.Compacted? ==> turnId in pool.db.turns && pool.db.turns[turnId].status.Completed? && P.Spelled(pool.db, pool.db.turns[turnId])
    {
      hide P.Run, LockKey, ExtendsBy, P.Spelled, Executed, P.Program, TurnStarted, CompactAppended, TurnCompleted;
      var trigger := SessionCompact(reason);
      var started := soulRuntime.StartTurn(turnId, soul, trigger, end);
      if started.Err? {
        Drop(w, P.Compaction, session, P.Ready(soul));
        return NotCompacted(RenderError(started.error));
      }
      StartStep(P.Run(trace).db, session, soul, turnId, trigger, end, pool.db);
      Record(w, P.Compaction, session, P.Ready(soul), StartTurn(turnId, soul, trigger, end), P.InTurn(soul, turnId, P.Idle));
      ghost var t1 := trace;
      var item := soulRuntime.AppendCompact(compactId, turnId, summary, start, end);
      if item.Err? {
        Drop(w, P.Compaction, session, P.InTurn(soul, turnId, P.Idle));
        ExtendsOn(old(trace), t1, trace, w);
        return NotCompacted(RenderError(item.error));
      }
      CompactStep(P.Run(trace).db, session, soul, turnId, compactId, summary, start, end, pool.db);
      Record(w, P.Compaction, session, P.InTurn(soul, turnId, P.Idle), AppendCompact(compactId, turnId, summary, start, end), P.InTurn(soul, turnId, P.Replied));
      ExtendsOn(old(trace), t1, trace, w);
      ghost var t2 := trace;
      var completed := soulRuntime.CompleteTurn(turnId, end, None);
      if completed.Err? {
        Drop(w, P.Compaction, session, P.InTurn(soul, turnId, P.Replied));
        ExtendsOn(old(trace), t2, trace, w);
        return NotCompacted(RenderError(completed.error));
      }
      CompleteStep(P.Run(trace).db, P.Compaction, session, soul, turnId, end, None, pool.db);
      Record(w, P.Compaction, session, P.InTurn(soul, turnId, P.Replied), CompleteTurn(turnId, end, None), P.Closed(soul, turnId));
      ExtendsOn(old(trace), t2, trace, w);
      P.CompletedTurnsSpell(trace, turnId);
      ghost var t3 := trace;
      Release(w, P.Compaction, session, P.Closed(soul, turnId));
      ExtendsOn(old(trace), t3, trace, w);
      return Compacted(Compact(compactId, turnId, summary, start, end));
    }
  }

  lemma SoulEnsuredHere(db: Db, soulId: string, session: string)
    requires Consistent(db) && SoulEnsured(db, soulId, session).Ok?
    ensures session in SoulEnsured(db, soulId, session).value.bySession
  {
    SoulEnsuredKeeps(db, soulId, session);
  }

  lemma StoredId(db: Db, m: NewMessage)
    requires MessageAppended(db, m).Ok?
    ensures var messages := MessageAppended(db, m).value.messages;
            messages != [] && SessionMessageOf(messages[|messages| - 1]).message.id == m.id
  {
    hide MaxSeq, Conflicts, ContentOf;
  }

  lemma AppendedItem(db: Db, soul: string, messageId: string, tx: Db)
    requires MessageRefAppended(db, soul, messageId) == Ok(tx)
    ensures soul in db.souls
    ensures var p := Pos(soul, db.souls[soul].nextSeq); p in tx.items && tx.items[p] == MessageRef(messageId)
    ensures tx.messages == db.messages
  {
  }

  lemma CompletionKeepsItems(db: Db, turnId: string, lastSeen: int, state: Option<ProviderState>, tx: Db)
    requires TurnCompleted(db, turnId, lastSeen, state) == Ok(tx)
    ensures tx.items == db.items && tx.messages == db.messages
  {
  }

  /** The message is stored under this id, in this session. */
  ghost predicate IsStored(messages: seq<Row>, id: string, session: string, m: SessionMessage) {
    exists i :: 0 <= i < |messages| && messages[i].id == id && messages[i].sessionId == session && SessionMessageOf(messages[i]) == m
  }

  /**
   How a send leaves the soul session: it has seen the reply, and its provider state is the response
   id on the number of the reply's item, or none without an id.
   */
  ghost predicate LeavesBehind(db: Db, soul: string, responseId: Option<string>, basis: int, reply: SessionMessage) {
    && soul in db.souls && db.souls[soul].lastSeen == reply.sessionSeq
    && (responseId.None? ==> db.souls[soul].providerState.None?)
    && (responseId.Some? ==>
          && db.souls[soul].providerState.Some?
          && db.souls[soul].providerState.value.basis == basis
          && db.souls[soul].providerState.value.opaqueJson == responseId.value)
  }

  lemma CompletionLeaves(db: Db, turnId: string, soul: string, responseId: Option<string>, basis: int,
      reply: SessionMessage,
      tx: Db)
    requires TurnCompleted(db, turnId, reply.sessionSeq, StateOf(responseId, basis)) == Ok(tx)
    requires turnId in db.turns && db.turns[turnId].soul == soul && soul in db.souls
    ensures LeavesBehind(tx, soul, responseId, basis, reply)
  {
  }

  lemma AppendLeavesSouls(db: Db, m: NewMessage, tx: Db)
    requires MessageAppended(db, m) == Ok(tx)
    ensures tx.souls == db.souls
  {
  }

  datatype Taken = Taken(text: string, calls: seq<C.Call>, completedId: Option<string>)

  /** What a response that completes gives: text, calls and the id of its completion. */
  function TakenFrom(events: seq<C.ProviderEvent>): Taken
    requires L.Completes(events)
  {
    var k := L.FirstCompletion(events);
    Taken(L.Said(events), L.CallsTaken(events), events[k].responseId)
  }

  /** The events of one response up to its first completion. */
  method TakeEvents(events: seq<C.ProviderEvent>, error: Option<Error>) returns (r: SendResult<Taken>)
    ensures L.Completes(events) ==> r == Sent(TakenFrom(events))
    ensures !L.Completes(events) && error.Some? ==> r == NotSent(MapCoreError(error.value))
    ensures !L.Completes(events) && error.None? ==> r == Sent(Taken(L.TextOfEvents(events), L.CallsOfEvents(events), None))
  {
    var text := "";
    var calls: seq<C.Call> := [];
    var k := 0;
    while k < |events|
      invariant 0 <= k <= L.FirstCompletion(events)
      invariant text == L.TextOfEvents(events[..k]) && calls == L.CallsOfEvents(events[..k])
    {
      assert events[..k + 1][..k] == events[..k];
      match events[k] {
        case OutputTextDelta(delta) => text := text + delta;
        case FunctionCallRequested(call) => calls := calls + [call];
        case Completed(id) => return Sent(Taken(text, calls, id));
      }
      k := k + 1;
    }
    assert events[..|events|] == events;
    if error.Some? {
      return NotSent(MapCoreError(error.value));
    }
    return Sent(Taken(text, calls, None));
  }

  lemma StartOfTrace(start: Startup, trace: seq<P.Event>, w: int, turnId: string, ids: nat -> string)
    ensures L.IsTrace([], start.instructions, start.input) && L.SpokenText([]) == "" && ExtendsBy(trace, trace, w)
    ensures L.AllCalls([]) == [] && trace == trace + CallEvents(w, turnId, ids, 0, [])
  {
  }

  lemma CompletesWhenOk(r: L.Round)
    requires L.Response(r).error.None?
    ensures L.Completes(L.Response(r).events)
  {
    C.OneCompletionInEveryStream(r.request, r.cache, r.script, r.outside);
    hide C.Streamed;
    var events := L.Response(r).events;
    var k :| 0 <= k < |events| && C.CompletesAt(events, k);
  }

  lemma AnsweredIsCalled(r: L.Round, outputs: seq<C.FunctionCallOutput>)
    requires L.Completes(L.Response(r).events) && L.Calls(r) != [] && L.Answers(outputs, L.Calls(r))
    ensures L.Called(r.(outputs := outputs))
  {
  }

  /** The stored reply has the text as its one part. */
  lemma StoredParts(db: Db, m: NewMessage, text: string)
    requires m.parts == TextContent(text) && MessageAppended(db, m).Ok?
    ensures var messages := MessageAppended(db, m).value.messages;
            messages != [] && SessionMessageOf(messages[|messages| - 1]).message.parts == TextContent(text)
            && HasMessageBy(messages, m.id, m.sessionId, m.actorType)
            && IsStored(messages, m.id, m.sessionId, SessionMessageOf(messages[|messages| - 1]))
  {
    hide MaxSeq, Conflicts;
    var messages := MessageAppended(db, m).value.messages;
    assert messages[|messages| - 1].id == m.id;
    assert Texts(m.parts) == [text] by { assert m.parts[1..] == []; assert Texts(m.parts[1..]) == []; }
  }
}
