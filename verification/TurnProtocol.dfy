/**
 Many workers on one store under the in-process session lock: sends, compactions and forks, in
 every interleaving of their transactions with each other and with the rest of the service.

 The lock holds one key a session, `lock:session_send:<id>`; the set below holds the session ids.
 `writers` is history that the code does not store: for each item the turn that appended it, if any.
 */
module TurnProtocol {
  import opened Common
  import MessageEvents
  import opened StandaloneDb
  import opened SoulRuntime
  import Transcript

  datatype Kind = Send | Compaction | Fork

  /** Where a worker is between the first and the last append of its turn. */
  datatype Tail = Idle | Calling(callId: string) | Replied

  datatype Phase =
    | Locked
    | Ready(soul: string)
    | Triggered(soul: string)
    | InTurn(soul: string, turn: string, tail: Tail)
    | Closed(soul: string, turn: string)
    | Gone

  datatype Worker = Worker(kind: Kind, session: string, phase: Phase)

  datatype System = System(db: Db, held: set<string>, workers: map<int, Worker>, writers: map<Pos, Option<string>>)

  datatype Event =
    | Acquire(w: int, kind: Kind, session: string)
    | Act(w: int, op: Op)
    | LoseFailure(w: int)
    | Release(w: int)
    | Abandon(w: int)
    | Others(op: Op)

  /** The next phase of a worker whose transaction `op` gave `tx`, if its program makes that call there. */
  function Program(k: Worker, op: Op, tx: Db): Option<Phase> {
    match k.phase
    case Locked =>
      if k.kind.Fork? then
        (if op.ForkSoul? && k.session in tx.bySession && op.parent == tx.bySession[k.session] then Some(Locked) else None)
      else if op.EnsureSoul? && op.sessionId == k.session && k.session in tx.bySession then Some(Ready(tx.bySession[k.session]))
      else None
    case Ready(soul) =>
      if k.kind.Send? && op.AppendMessageRef? && op.soul == soul then Some(Triggered(soul))
      else if k.kind.Compaction? && op.StartTurn? && op.soul == soul && op.trigger.SessionCompact? then Some(InTurn(soul, op.turnId, Idle))
      else None
    case Triggered(soul) =>
      if k.kind.Send? && op.StartTurn? && op.soul == soul && !op.trigger.SessionCompact? then Some(InTurn(soul, op.turnId, Idle))
      else None
    case InTurn(soul, turn, tail) =>
      if op.FailTurn? && op.turnId == turn && k.kind.Send? then Some(Closed(soul, turn))
      else if k.kind.Send? then
        (match tail
         case Idle =>
           if op.AppendToolCall? && op.turnId == turn then Some(InTurn(soul, turn, Calling(op.callId)))
           else if op.AppendMessageRef? && op.soul == soul && HasMessageBy(tx.messages, op.messageId, k.session, MessageEvents.Soul) then
             Some(InTurn(soul, turn, Replied))
           else None
         case Calling(callId) =>
           if op.AppendToolResult? && op.callId == callId then Some(InTurn(soul, turn, Idle)) else None
         case Replied =>
           if op.CompleteTurn? && op.turnId == turn then Some(Closed(soul, turn)) else None)
      else if tail.Idle? && op.AppendCompact? && op.turnId == turn then Some(InTurn(soul, turn, Replied))
      else if tail.Replied? && op.CompleteTurn? && op.turnId == turn then Some(Closed(soul, turn))
      else None
    case Closed(soul, turn) =>
      if op.FailTurn? && op.turnId == turn && k.kind.Send? then Some(Closed(soul, turn)) else None
    case Gone => None
  }

  /** The turn to which an append of a worker belongs; the trigger message comes before its turn. */
  function Author(k: Worker): Option<string> {
    if k.phase.InTurn? then Some(k.phase.turn) else None
  }

  function SoulIn(k: Worker): Option<string> {
    match k.phase
    case Ready(soul) => Some(soul)
    case Triggered(soul) => Some(soul)
    case InTurn(soul, _, _) => Some(soul)
    case Closed(soul, _) => Some(soul)
    case Locked => None
    case Gone => None
  }

  predicate Appends(op: Op) {
    op.AppendMessageRef? || op.AppendToolCall? || op.AppendToolResult? || op.AppendCompact?
  }

  /** The history after an append: every item that is new was written by `author`. */
  ghost function Attributed(writers: map<Pos, Option<string>>, items: map<Pos, Target>,
      author: Option<string>): map<Pos, Option<string>> {
    map p | p in items :: if p in writers then writers[p] else author
  }

  /** What the rest of the service may run at any time: nothing that appends items or touches turns. */
  predicate Free(op: Op) {
    op.EnsureSoul? || op.WriteMemory? || op.CreateSession? || op.AppendMessage? || op.ChangeMessage?
  }

  ghost function Acted(s: System, w: int, tx: Db, phase: Phase): System
    requires w in s.workers
  {
    System(tx, s.held, s.workers[w := s.workers[w].(phase := phase)],
           Attributed(s.writers, tx.items, Author(s.workers[w])))
  }

  ghost function Next(s: System, e: Event): System {
    match e
    case Acquire(w, kind, session) =>
      if w in s.workers || session in s.held then s
      else s.(held := s.held + {session}, workers := s.workers[w := Worker(kind, session, Locked)])
    case Act(w, op) =>
      if w !in s.workers then s else
        (match Executed(s.db, op)
         case Err(_) => s
         case Ok(tx) =>
           match Program(s.workers[w], op, tx)
           case None => s
           case Some(phase) => Acted(s, w, tx, phase))
    case LoseFailure(w) =>
      if w in s.workers && s.workers[w].phase.InTurn? && s.workers[w].kind.Send? then
        s.(workers := s.workers[w := s.workers[w].(phase := Closed(s.workers[w].phase.soul, s.workers[w].phase.turn))])
      else s
    case Release(w) =>
      if w in s.workers && !s.workers[w].phase.InTurn? && !s.workers[w].phase.Gone? then
        s.(held := s.held - {s.workers[w].session}, workers := s.workers[w := s.workers[w].(phase := Gone)])
      else s
    case Abandon(w) =>
      if w in s.workers then s.(workers := s.workers[w := s.workers[w].(phase := Gone)]) else s
    case Others(op) =>
      if !Free(op) then s else
        match Executed(s.db, op)
        case Err(_) => s
        case Ok(tx) => s.(db := tx)
  }

  ghost function Run(events: seq<Event>): System {
    if events == [] then System(EMPTY, {}, map[], map[])
    else Next(Run(events[..|events| - 1]), events[|events| - 1])
  }

  // ---------------------------------------------------------------------------------------
  // The invariant

  ghost predicate Rivals(workers: map<int, Worker>, v: int, w: int) {
    && v in workers && w in workers && !workers[v].phase.Gone? && !workers[w].phase.Gone?
    && workers[v].session == workers[w].session
  }

  /** A live worker holds its session's key, and no other live worker has the same session. */
  ghost predicate Exclusive(held: set<string>, workers: map<int, Worker>) {
    && (forall w :: w in workers && !workers[w].phase.Gone? ==> workers[w].session in held)
    && (forall v, w :: Rivals(workers, v, w) ==> v == w)
  }

  ghost predicate Owns(writers: map<Pos, Option<string>>, soul: string, lo: int, hi: int, turn: string) {
    forall q :: lo < q <= hi ==> Pos(soul, q) in writers && writers[Pos(soul, q)] == Some(turn)
  }

  /** The items after `lo` up to `hi` spell tool calls, each directly followed by its own result. */
  ghost predicate Pairs(items: map<Pos, Target>, results: map<string, string>, soul: string, lo: int, hi: int)
    decreases hi - lo
  {
    if hi <= lo then hi == lo
    else
      && hi - 2 >= lo && Pos(soul, hi) in items && Pos(soul, hi - 1) in items
      && items[Pos(soul, hi)].ToolResultRef? && items[Pos(soul, hi)].id in results
      && items[Pos(soul, hi - 1)] == ToolCallRef(results[items[Pos(soul, hi)].id])
      && Pairs(items, results, soul, lo, hi - 2)
  }

  /** What a turn has appended so far, where its worker is at `tail`. */
  ghost predicate Spells(items: map<Pos, Target>, results: map<string, string>, soul: string, kind: Kind, tail: Tail,
      lo: int, hi: int) {
    match kind
    case Send =>
      (match tail
       case Idle => Pairs(items, results, soul, lo, hi)
       case Calling(callId) =>
         Pos(soul, hi) in items && items[Pos(soul, hi)] == ToolCallRef(callId) && Pairs(items, results, soul, lo, hi - 1)
       case Replied =>
         Pos(soul, hi) in items && items[Pos(soul, hi)].MessageRef? && Pairs(items, results, soul, lo, hi - 1))
    case Compaction =>
      if tail.Idle? then hi == lo
      else tail.Replied? && hi == lo + 1 && Pos(soul, hi) in items && items[Pos(soul, hi)].CompactRef?
    case Fork => false
  }

  /** The item is a reply: it refers to a stored message of the soul in its own session. */
  ghost predicate IsReply(db: Db, soul: string, q: int) {
    && soul in db.souls && Pos(soul, q) in db.items && db.items[Pos(soul, q)].MessageRef?
    && HasMessageBy(db.messages, db.items[Pos(soul, q)].id, db.souls[soul].sessionId, MessageEvents.Soul)
  }

  lemma ReplyStays(a: Db, b: Db, soul: string, q: int)
    requires IsReply(a, soul, q) && Grows(a, b)
    ensures IsReply(b, soul, q)
  {
    var id, session := a.items[Pos(soul, q)].id, a.souls[soul].sessionId;
    var i :| 0 <= i < |a.messages| && a.messages[i].id == id && a.messages[i].sessionId == session && a.messages[i].actorType == MessageEvents.Soul;
    assert SameMessage(a.messages[i], b.messages[i]);
  }

  function KindOf(t: Trigger): Kind {
    if t.SessionCompact? then Compaction else Send
  }

  /** A stored turn: its interval lies in the soul session's numbers, and once it has ended is all its own. */
  ghost predicate TurnOk(id: string, t: Turn, db: Db, writers: map<Pos, Option<string>>) {
    && t.soul in db.souls && First(db.souls[t.soul]) - 1 <= t.base < db.souls[t.soul].nextSeq
    && (t.status.Running? <==> t.end.None?)
    && (t.end.Some? ==> t.base <= t.end.value < db.souls[t.soul].nextSeq && Owns(writers, t.soul, t.base, t.end.value, id))
    && (t.status.Completed? ==> Spells(db.items, db.results, t.soul, KindOf(t.trigger), Replied, t.base, t.end.value))
    && (t.status.Completed? && KindOf(t.trigger).Send? ==> IsReply(db, t.soul, t.end.value))
  }

  ghost predicate TurnsOk(db: Db, writers: map<Pos, Option<string>>) {
    forall id :: id in db.turns ==> TurnOk(id, db.turns[id], db, writers)
  }

  /** Every item was written once, and a turn's items lie in its interval. */
  ghost predicate WritersOk(turns: map<string, Turn>, items: map<Pos, Target>, writers: map<Pos, Option<string>>) {
    && writers.Keys == items.Keys
    && forall p :: p in writers && writers[p].Some? ==> WrittenIn(turns, p, writers[p].value)
  }

  predicate WrittenIn(turns: map<string, Turn>, p: Pos, turn: string) {
    && turn in turns && turns[turn].soul == p.soul && turns[turn].base < p.seqNo
    && (turns[turn].end.Some? ==> p.seqNo <= turns[turn].end.value)
  }

  ghost predicate OnSoul(db: Db, soul: string, session: string) {
    soul in db.souls && db.souls[soul].sessionId == session
  }

  /** A worker in a turn is alone on its soul session: all items after the turn's base are its own. */
  ghost predicate WorkerOk(k: Worker, db: Db, writers: map<Pos, Option<string>>) {
    match k.phase
    case Locked => true
    case Gone => true
    case Ready(soul) => OnSoul(db, soul, k.session)
    case Triggered(soul) => OnSoul(db, soul, k.session)
    case InTurn(soul, turn, tail) =>
      && OnSoul(db, soul, k.session) && turn in db.turns && db.turns[turn].soul == soul && db.turns[turn].status.Running?
      && k.kind == KindOf(db.turns[turn].trigger)
      && Owns(writers, soul, db.turns[turn].base, db.souls[soul].nextSeq - 1, turn)
      && Spells(db.items, db.results, soul, k.kind, tail, db.turns[turn].base, db.souls[soul].nextSeq - 1)
      && (k.kind.Send? && tail.Replied? ==> IsReply(db, soul, db.souls[soul].nextSeq - 1))
    case Closed(soul, turn) =>
      && OnSoul(db, soul, k.session) && turn in db.turns && db.turns[turn].soul == soul
      && Owns(writers, soul, db.turns[turn].base, db.souls[soul].nextSeq - 1, turn)
  }

  ghost predicate WorkersOk(workers: map<int, Worker>, db: Db, writers: map<Pos, Option<string>>) {
    forall w :: w in workers ==> WorkerOk(workers[w], db, writers)
  }

  ghost predicate Inv(s: System) {
    && Consistent(s.db)
    && Exclusive(s.held, s.workers)
    && TurnsOk(s.db, s.writers)
    && WritersOk(s.db.turns, s.db.items, s.writers)
    && WorkersOk(s.workers, s.db, s.writers)
  }

  // ---------------------------------------------------------------------------------------
  // What growth leaves alone

  lemma {:induction false} PairsStable(a: map<Pos, Target>, b: map<Pos, Target>, r: map<string, string>,
      r': map<string, string>, soul: string, lo: int, hi: int)
    requires Extends(a, b) && Extends(r, r') && Pairs(a, r, soul, lo, hi)
    ensures Pairs(b, r', soul, lo, hi)
    decreases hi - lo
  {
    if hi > lo { PairsStable(a, b, r, r', soul, lo, hi - 2); }
  }

  lemma SpellsStable(a: Db, b: Db, soul: string, kind: Kind, tail: Tail, lo: int, hi: int)
    requires Extends(a.items, b.items) && Extends(a.results, b.results) && Spells(a.items, a.results, soul, kind, tail, lo, hi)
    ensures Spells(b.items, b.results, soul, kind, tail, lo, hi)
  {
    if kind.Send? {
      PairsStable(a.items, b.items, a.results, b.results, soul, lo, if tail.Idle? then hi else hi - 1);
    }
  }

  lemma OwnsStable(a: map<Pos, Option<string>>, b: map<Pos, Option<string>>, soul: string, lo: int, hi: int,
      turn: string)
    requires Extends(a, b) && Owns(a, soul, lo, hi, turn)
    ensures Owns(b, soul, lo, hi, turn)
  {
  }

  lemma TurnStable(id: string, t: Turn, a: Db, b: Db, w: map<Pos, Option<string>>, w': map<Pos, Option<string>>)
    requires TurnOk(id, t, a, w) && Grows(a, b) && Extends(w, w')
    ensures TurnOk(id, t, b, w')
  {
    hide Spells, Extends, Owns, IsReply;
    if t.status.Completed? && KindOf(t.trigger).Send? { ReplyStays(a, b, t.soul, t.end.value); }
    hide MessagesKept;
    if t.end.Some? { OwnsStable(w, w', t.soul, t.base, t.end.value, id); }
    if t.status.Completed? { SpellsStable(a, b, t.soul, KindOf(t.trigger), Replied, t.base, t.end.value); }
  }

  /** The soul session on which a worker stands has not moved, nor has its turn. */
  ghost predicate Untouched(k: Worker, a: Db, b: Db) {
    && (SoulIn(k).Some? && SoulIn(k).value in a.souls ==>
          SoulIn(k).value in b.souls && b.souls[SoulIn(k).value].nextSeq == a.souls[SoulIn(k).value].nextSeq)
    && ((k.phase.InTurn? || k.phase.Closed?) && k.phase.turn in a.turns ==>
          k.phase.turn in b.turns && SameTurn(a.turns[k.phase.turn], b.turns[k.phase.turn]))
  }

  predicate SameTurn(a: Turn, b: Turn) {
    a == b
  }

  lemma WorkerStable(k: Worker, a: Db, b: Db, w: map<Pos, Option<string>>, w': map<Pos, Option<string>>)
    requires WorkerOk(k, a, w) && Grows(a, b) && Extends(w, w') && Untouched(k, a, b)
    ensures WorkerOk(k, b, w')
  {
    hide Spells, Extends, Owns, IsReply, MessagesKept;
    match k.phase {
      case InTurn(soul, turn, tail) =>
        if k.kind.Send? && tail.Replied? { ReplyStays(a, b, soul, a.souls[soul].nextSeq - 1); }
        OwnsStable(w, w', soul, a.turns[turn].base, a.souls[soul].nextSeq - 1, turn);
        SpellsStable(a, b, soul, k.kind, tail, a.turns[turn].base, a.souls[soul].nextSeq - 1);
      case Closed(soul, turn) =>
        OwnsStable(w, w', soul, a.turns[turn].base, a.souls[soul].nextSeq - 1, turn);
      case _ =>
    }
  }

  // ---------------------------------------------------------------------------------------
  // What each kind of transaction does to items, turns and frontiers

  /** No item, no turn, no frontier is touched; soul sessions may be added. */
  ghost predicate Quiet(a: Db, b: Db) {
    && b.turns == a.turns && b.items == a.items && b.results == a.results
    && forall id :: id in a.souls ==> id in b.souls && b.souls[id].nextSeq == a.souls[id].nextSeq
  }

  lemma QuietEnsure(db: Db, soulId: string, sessionId: string)
    requires SoulEnsured(db, soulId, sessionId).Ok?
    ensures Quiet(db, SoulEnsured(db, soulId, sessionId).value)
  {
    hide StandaloneSoulSessionId;
  }

  lemma QuietMemory(db: Db, soul: string, text: string)
    requires MemoryWritten(db, soul, text).Some?
    ensures Quiet(db, MemoryWritten(db, soul, text).value)
  {
  }

  lemma QuietFork(db: Db, parent: string, forkPoint: int, newSoul: string, newSession: string, ids: nat -> string)
    requires SoulForked(db, parent, forkPoint, newSoul, newSession, ids).Ok?
    ensures Quiet(db, SoulForked(db, parent, forkPoint, newSoul, newSession, ids).value)
  {
    hide CopyAll, RowsUpTo, SessionRows, ForkedSoul;
  }

  lemma QuietOps(db: Db, op: Op)
    requires Executed(db, op).Ok? && (Free(op) || op.ForkSoul?)
    ensures Quiet(db, Executed(db, op).value)
  {
    hide Quiet, SoulEnsured, MemoryWritten, SoulForked;
    if op.EnsureSoul? {
      QuietEnsure(db, op.soulId, op.sessionId);
    } else if op.WriteMemory? {
      QuietMemory(db, op.soul, op.text);
    } else if op.ForkSoul? {
      QuietFork(db, op.parent, op.forkPoint, op.newSoul, op.newSession, op.ids);
    } else {
      var tx := Executed(db, op).value;
      QuietLedger(db, tx);
    }
  }

  lemma QuietLedger(db: Db, tx: Db)
    requires tx == db.(sessions := tx.sessions, messages := tx.messages)
    ensures Quiet(db, tx)
  {
  }

  /** One item is appended at the frontier of `soul`, and only that frontier moves. */
  ghost predicate AppendedAt(a: Db, b: Db, soul: string, target: Target) {
    && soul in a.souls && b.turns == a.turns && b.bySession == a.bySession
    && Pos(soul, a.souls[soul].nextSeq) !in a.items
    && b.items == a.items[Pos(soul, a.souls[soul].nextSeq) := target]
    && b.souls == a.souls[soul := a.souls[soul].(nextSeq := a.souls[soul].nextSeq + 1)]
  }

  /** The soul session and the target of an append. */
  ghost predicate AppendIs(db: Db, op: Op, soul: string, target: Target) {
    match op
    case AppendMessageRef(x, messageId) => x == soul && target == MessageRef(messageId)
    case AppendToolCall(callId, turnId) => turnId in db.turns && db.turns[turnId].soul == soul && target == ToolCallRef(callId)
    case AppendToolResult(resultId, callId) =>
      (exists q :: IsCallItem(db.items, callId, Pos(soul, q))) && target == ToolResultRef(resultId)
    case AppendCompact(id, turnId, _, _, _) => turnId in db.turns && db.turns[turnId].soul == soul && target == CompactRef(id)
    case _ => false
  }

  lemma AllocatedAt(a: Db, b: Db, soul: string, target: Target)
    requires Allocated(a, soul, target).Ok? && b.souls == a.souls && b.turns == a.turns
    requires b.items == a.items && b.bySession == a.bySession
    ensures AppendedAt(b, Allocated(a, soul, target).value, soul, target)
    ensures Allocated(a, soul, target).value.results == a.results
  {
  }

  lemma ResultAppended(db: Db, resultId: string, callId: string) returns (p: Pos)
    requires Consistent(db) && ToolResultAppended(db, resultId, callId).Ok?
    ensures IsCallItem(db.items, callId, p)
    ensures AppendedAt(db, ToolResultAppended(db, resultId, callId).value, p.soul, ToolResultRef(resultId))
    ensures ToolResultAppended(db, resultId, callId).value.results == db.results[resultId := callId]
  {
    ToolResultAppendedKeeps(db, resultId, callId);
    var with := db.(results := db.results[resultId := callId]);
    hide Consistent, ToolResultAppended, Allocated, AppendedAt;
    p :| IsCallItem(db.items, callId, p) && ToolResultAppended(db, resultId, callId) == Allocated(with, p.soul, ToolResultRef(resultId));
    AllocatedAt(with, db, p.soul, ToolResultRef(resultId));
  }

  lemma AppendOps(db: Db, op: Op) returns (soul: string, target: Target)
    requires Executed(db, op).Ok? && Appends(op) && Consistent(db)
    ensures AppendIs(db, op, soul, target) && AppendedAt(db, Executed(db, op).value, soul, target)
    ensures Executed(db, op).value.results == if op.AppendToolResult? then db.results[op.resultId := op.callId] else db.results
  {
    hide Consistent, ToolResultAppended, Allocated, AppendedAt;
    if op.AppendMessageRef? {
      soul, target := op.soul, MessageRef(op.messageId);
      AllocatedAt(db, db, soul, target);
    } else if op.AppendToolCall? {
      soul, target := db.turns[op.turnId].soul, ToolCallRef(op.callId);
      AllocatedAt(db.(calls := db.calls[op.callId := op.turnId]), db, soul, target);
    } else if op.AppendToolResult? {
      var p := ResultAppended(db, op.resultId, op.callId);
      soul, target := p.soul, ToolResultRef(op.resultId);
      assert IsCallItem(db.items, op.callId, Pos(p.soul, p.seqNo));
    } else {
      soul, target := db.turns[op.turnId].soul, CompactRef(op.compactId);
      var row := CompactRow(db.souls[soul].sessionId, Transcript.Compact(op.compactId, op.turnId, op.summary, op.start, op.end));
      AllocatedAt(db.(compacts := db.compacts[op.compactId := row]), db, soul, target);
    }
  }

  // ---------------------------------------------------------------------------------------
  // Each event keeps the invariant

  /** Two live workers never stand on one soul session. */
  lemma Apart(s: System, v: int, w: int)
    requires Inv(s) && v in s.workers && w in s.workers && v != w
    requires SoulIn(s.workers[v]).Some? && SoulIn(s.workers[w]).Some?
    ensures SoulIn(s.workers[v]) != SoulIn(s.workers[w])
  {
    hide Consistent, TurnsOk, WritersOk, Spells, Owns;
    assert WorkerOk(s.workers[v], s.db, s.writers) && WorkerOk(s.workers[w], s.db, s.writers);
    assert !Rivals(s.workers, v, w);
  }

  lemma SameWriters(writers: map<Pos, Option<string>>, items: map<Pos, Target>, author: Option<string>)
    requires writers.Keys == items.Keys
    ensures Attributed(writers, items, author) == writers
  {
  }

  lemma OneMoreWriter(writers: map<Pos, Option<string>>, items: map<Pos, Target>, p: Pos, t: Target,
      author: Option<string>)
    requires writers.Keys == items.Keys && p !in items
    ensures Attributed(writers, items[p := t], author) == writers[p := author]
    ensures Extends(writers, writers[p := author])
  {
  }

  lemma TurnsStable(a: Db, b: Db, w: map<Pos, Option<string>>, w': map<Pos, Option<string>>)
    requires TurnsOk(a, w) && Grows(a, b) && Extends(w, w') && b.turns == a.turns
    ensures TurnsOk(b, w')
  {
    hide TurnOk, Grows, Extends;
    forall id | id in b.turns ensures TurnOk(id, b.turns[id], b, w') {
      TurnStable(id, a.turns[id], a, b, w, w');
    }
  }

  lemma ExclusiveAfter(held: set<string>, workers: map<int, Worker>, w: int, phase: Phase)
    requires Exclusive(held, workers) && w in workers && !workers[w].phase.Gone?
    ensures Exclusive(held, workers[w := workers[w].(phase := phase)])
  {
    var workers' := workers[w := workers[w].(phase := phase)];
    forall u, v | Rivals(workers', u, v) ensures u == v {
      assert Rivals(workers, u, v);
    }
  }

  lemma {:induction false} WorkersAfter(s: System, w: int, phase: Phase, tx: Db, writers: map<Pos, Option<string>>)
    requires Inv(s) && w in s.workers && Grows(s.db, tx) && Extends(s.writers, writers)
    requires forall v :: v in s.workers && v != w ==> Untouched(s.workers[v], s.db, tx)
    requires WorkerOk(s.workers[w].(phase := phase), tx, writers)
    ensures WorkersOk(s.workers[w := s.workers[w].(phase := phase)], tx, writers)
  {
    hide WorkerOk, Grows, Extends, Consistent, TurnsOk, WritersOk, Exclusive, Untouched;
    var workers' := s.workers[w := s.workers[w].(phase := phase)];
    forall v | v in workers' ensures WorkerOk(workers'[v], tx, writers) {
      if v != w { WorkerStable(s.workers[v], s.db, tx, s.writers, writers); }
    }
  }

  lemma AcquireKeeps(s: System, w: int, kind: Kind, session: string)
    requires Inv(s)
    ensures Inv(Next(s, Acquire(w, kind, session)))
  {
    hide Consistent, TurnsOk, WritersOk;
    var s' := Next(s, Acquire(w, kind, session));
    if s' != s {
      forall u, v | Rivals(s'.workers, u, v) ensures u == v {
        if u != w && v != w { assert Rivals(s.workers, u, v); }
      }
      forall v | v in s'.workers ensures WorkerOk(s'.workers[v], s'.db, s'.writers) {
        assert v != w ==> WorkerOk(s.workers[v], s.db, s.writers);
      }
    }
  }

  lemma ReleaseKeeps(s: System, w: int)
    requires Inv(s)
    ensures Inv(Next(s, Release(w)))
  {
    hide Consistent, TurnsOk, WritersOk;
    var s' := Next(s, Release(w));
    if s' != s {
      forall u, v | Rivals(s'.workers, u, v) ensures u == v { assert Rivals(s.workers, u, v); }
      forall v | v in s'.workers && !s'.workers[v].phase.Gone? ensures s'.workers[v].session in s'.held {
        assert !Rivals(s.workers, v, w);
      }
      forall v | v in s'.workers ensures WorkerOk(s'.workers[v], s'.db, s'.writers) {
        assert v != w ==> WorkerOk(s.workers[v], s.db, s.writers);
      }
    }
  }

  lemma AbandonKeeps(s: System, w: int)
    requires Inv(s)
    ensures Inv(Next(s, Abandon(w)))
  {
    hide Consistent, TurnsOk, WritersOk;
    var s' := Next(s, Abandon(w));
    if w in s.workers {
      forall u, v | Rivals(s'.workers, u, v) ensures u == v { assert Rivals(s.workers, u, v); }
      forall v | v in s'.workers ensures WorkerOk(s'.workers[v], s'.db, s'.writers) {
        assert v != w ==> WorkerOk(s.workers[v], s.db, s.writers);
      }
    }
  }

  lemma LoseFailureKeeps(s: System, w: int)
    requires Inv(s)
    ensures Inv(Next(s, LoseFailure(w)))
  {
    hide Consistent, TurnsOk, WritersOk, Spells, Owns, Exclusive;
    var s' := Next(s, LoseFailure(w));
    if s' != s {
      ExclusiveAfter(s.held, s.workers, w, s'.workers[w].phase);
      forall v | v in s'.workers ensures WorkerOk(s'.workers[v], s'.db, s'.writers) {
        assert WorkerOk(s.workers[v], s.db, s.writers);
      }
    }
  }

  lemma {:induction false} OthersKeep(s: System, op: Op)
    requires Inv(s)
    ensures Inv(Next(s, Others(op)))
  {
    if Free(op) && Executed(s.db, op).Ok? {
      var tx := Executed(s.db, op).value;
      ExecutedKeeps(s.db, op);
      QuietOps(s.db, op);
      hide Executed, Consistent, Exclusive, TurnsOk, WorkerOk, Grows;
      assert Extends(s.writers, s.writers);
      hide Extends;
      TurnsStable(s.db, tx, s.writers, s.writers);
      forall v | v in s.workers ensures WorkerOk(s.workers[v], tx, s.writers) {
        WorkerStable(s.workers[v], s.db, tx, s.writers, s.writers);
      }
    }
  }

  /** An append lands on the soul session on which the worker stands. */
  lemma AppendsOnOwnSoul(k: Worker, db: Db, tx: Db, writers: map<Pos, Option<string>>, op: Op, soul: string,
      target: Target)
    requires WorkerOk(k, db, writers) && CallsOnce(db.items, db.calls)
    requires Appends(op) && Program(k, op, tx).Some? && AppendIs(db, op, soul, target)
    ensures SoulIn(k) == Some(soul)
  {
    hide Owns, Pairs;
    if op.AppendToolResult? {
      var q :| IsCallItem(db.items, op.callId, Pos(soul, q));
      var here := Pos(k.phase.soul, db.souls[k.phase.soul].nextSeq - 1);
      assert db.items[here] == db.items[Pos(soul, q)];
    }
  }

  lemma OwnsOneMore(writers: map<Pos, Option<string>>, soul: string, lo: int, hi: int, turn: string)
    requires Owns(writers, soul, lo, hi, turn)
    ensures Owns(writers[Pos(soul, hi + 1) := Some(turn)], soul, lo, hi + 1, turn)
  {
  }

  /** One more append takes the spelling of a turn to its next tail. */
  lemma SpellsOneMore(k: Worker, db: Db, tx: Db, op: Op, soul: string, target: Target, lo: int, hi: int, phase: Phase)
    requires k.phase.InTurn? && phase.InTurn? && Appends(op) && Program(k, op, tx) == Some(phase)
    requires AppendIs(db, op, soul, target)
    requires Spells(db.items, db.results, soul, k.kind, k.phase.tail, lo, hi)
    requires tx.items == db.items[Pos(soul, hi + 1) := target] && Pos(soul, hi + 1) !in db.items
    requires Extends(db.results, tx.results)
    requires op.AppendToolResult? ==> op.resultId in tx.results && tx.results[op.resultId] == op.callId
    ensures Spells(tx.items, tx.results, soul, k.kind, phase.tail, lo, hi + 1)
  {
    EntrySet(db.items, Pos(soul, hi + 1), target);
    hide Pairs, Extends;
    if k.kind.Send? {
      if op.AppendToolResult? {
        PairsStable(db.items, tx.items, db.results, tx.results, soul, lo, hi - 1);
        PairsOneMore(tx.items, tx.results, soul, lo, hi + 1);
      } else {
        PairsStable(db.items, tx.items, db.results, tx.results, soul, lo, hi);
      }
    }
  }

  lemma PairsOneMore(items: map<Pos, Target>, results: map<string, string>, soul: string, lo: int, hi: int)
    requires Pairs(items, results, soul, lo, hi - 2)
    requires Pos(soul, hi) in items && Pos(soul, hi - 1) in items
    requires items[Pos(soul, hi)].ToolResultRef? && items[Pos(soul, hi)].id in results
    requires items[Pos(soul, hi - 1)] == ToolCallRef(results[items[Pos(soul, hi)].id])
    ensures Pairs(items, results, soul, lo, hi)
  {
    PairsBounds(items, results, soul, lo, hi - 2);
  }

  lemma {:induction false} PairsBounds(items: map<Pos, Target>, results: map<string, string>, soul: string, lo: int,
      hi: int)
    requires Pairs(items, results, soul, lo, hi)
    ensures lo <= hi && (hi - lo) % 2 == 0
    decreases hi - lo
  {
    if hi > lo { PairsBounds(items, results, soul, lo, hi - 2); }
  }

  lemma ActorAppends(k: Worker, db: Db, tx: Db, writers: map<Pos, Option<string>>, op: Op, soul: string,
      target: Target, phase: Phase)
    requires WorkerOk(k, db, writers) && SoulIn(k) == Some(soul)
    requires Appends(op) && Program(k, op, tx) == Some(phase)
    requires AppendIs(db, op, soul, target) && AppendedAt(db, tx, soul, target)
    requires tx.results == if op.AppendToolResult? then db.results[op.resultId := op.callId] else db.results
    requires Extends(db.results, tx.results)
    ensures WorkerOk(k.(phase := phase), tx, writers[Pos(soul, db.souls[soul].nextSeq) := Author(k)])
  {
    hide Spells, Owns, Extends;
    var hi := db.souls[soul].nextSeq - 1;
    if k.phase.InTurn? {
      var lo := db.turns[k.phase.turn].base;
      OwnsOneMore(writers, soul, lo, hi, k.phase.turn);
      SpellsOneMore(k, db, tx, op, soul, target, lo, hi, phase);
    }
  }

  lemma WritersAfterAppend(k: Worker, db: Db, tx: Db, writers: map<Pos, Option<string>>, soul: string, target: Target)
    requires WritersOk(db.turns, db.items, writers) && TurnsOk(db, writers) && WorkerOk(k, db, writers)
    requires SoulIn(k) == Some(soul) && AppendedAt(db, tx, soul, target)
    ensures WritersOk(tx.turns, tx.items, writers[Pos(soul, db.souls[soul].nextSeq) := Author(k)])
  {
    hide Spells, Owns;
    if k.phase.InTurn? { assert TurnOk(k.phase.turn, db.turns[k.phase.turn], db, writers); }
    hide TurnOk, TurnsOk;
  }

  /** The worker's program makes this call now, and its transaction commits. */
  ghost predicate Enabled(s: System, w: int, op: Op, tx: Db, phase: Phase) {
    w in s.workers && Executed(s.db, op) == Ok(tx) && Program(s.workers[w], op, tx) == Some(phase)
  }

  lemma AppendUntouched(s: System, w: int, tx: Db, soul: string, target: Target)
    requires Inv(s) && w in s.workers && SoulIn(s.workers[w]) == Some(soul) && AppendedAt(s.db, tx, soul, target)
    ensures forall v :: v in s.workers && v != w ==> Untouched(s.workers[v], s.db, tx)
  {
    hide Inv;
    forall v | v in s.workers && v != w ensures Untouched(s.workers[v], s.db, tx) {
      if SoulIn(s.workers[v]).Some? { Apart(s, v, w); }
    }
  }

  lemma {:induction false} AppendedInv(s: System, w: int, op: Op, tx: Db, soul: string, target: Target, phase: Phase)
    requires Inv(s) && w in s.workers && Appends(op) && Program(s.workers[w], op, tx) == Some(phase)
    requires AppendIs(s.db, op, soul, target) && AppendedAt(s.db, tx, soul, target)
    requires tx.results == if op.AppendToolResult? then s.db.results[op.resultId := op.callId] else s.db.results
    requires Consistent(tx) && Grows(s.db, tx)
    ensures Inv(Acted(s, w, tx, phase))
  {
    hide Program, AppendIs, Consistent, WorkerOk, TurnsOk, Exclusive, Attributed, Untouched, Extends, Acted, SoulIn;
    var k := s.workers[w];
    CallsOnceIn(s.db);
    AppendsOnOwnSoul(k, s.db, tx, s.writers, op, soul, target);
    ActorAppends(k, s.db, tx, s.writers, op, soul, target, phase);
    OnSoulIsLive(k, soul);
    var p := Pos(soul, s.db.souls[soul].nextSeq);
    var writers := s.writers[p := Author(k)];
    OneMoreWriter(s.writers, s.db.items, p, target, Author(k));
    WritersAfterAppend(k, s.db, tx, s.writers, soul, target);
    hide Author, WritersOk;
    TurnsStable(s.db, tx, s.writers, writers);
    AppendUntouched(s, w, tx, soul, target);
    hide Inv, AppendedAt;
    Together(s, w, tx, phase, writers);
  }

  lemma OnSoulIsLive(k: Worker, soul: string)
    requires SoulIn(k) == Some(soul)
    ensures !k.phase.Gone?
  {
  }

  lemma {:induction false} AppendKeeps(s: System, w: int, op: Op, tx: Db, phase: Phase)
    requires Inv(s) && Enabled(s, w, op, tx, phase) && Appends(op)
    ensures Inv(Acted(s, w, tx, phase))
  {
    var soul, target := AppendOps(s.db, op);
    ExecutedKeeps(s.db, op);
    hide Executed, Program, AppendIs, Consistent, WorkersOk, TurnsOk, Exclusive, AppendedAt, Grows, Acted;
    AppendedInv(s, w, op, tx, soul, target, phase);
  }

  lemma CallsOnceIn(db: Db)
    requires Consistent(db)
    ensures CallsOnce(db.items, db.calls)
  {
  }

  lemma EnsuredSoul(db: Db, session: string)
    requires Consistent(db) && session in db.bySession
    ensures OnSoul(db, db.bySession[session], session)
  {
  }

  /** The pieces of the invariant, put together again after a transaction of worker `w`. */
  lemma Together(s: System, w: int, tx: Db, phase: Phase, writers: map<Pos, Option<string>>)
    requires Inv(s) && w in s.workers && !s.workers[w].phase.Gone?
    requires Consistent(tx) && Grows(s.db, tx) && Extends(s.writers, writers)
    requires Attributed(s.writers, tx.items, Author(s.workers[w])) == writers
    requires TurnsOk(tx, writers) && WritersOk(tx.turns, tx.items, writers)
    requires forall v :: v in s.workers && v != w ==> Untouched(s.workers[v], s.db, tx)
    requires WorkerOk(s.workers[w].(phase := phase), tx, writers)
    ensures Inv(Acted(s, w, tx, phase))
  {
    hide Consistent, Grows, Extends, Attributed, Author, TurnsOk, WritersOk, WorkerOk, Untouched, Exclusive, WorkersOk;
    WorkersAfter(s, w, phase, tx, writers);
    ExclusiveAfter(s.held, s.workers, w, phase);
  }

  lemma QuietPhase(k: Worker, op: Op, tx: Db, phase: Phase, writers: map<Pos, Option<string>>)
    requires Program(k, op, tx) == Some(phase) && (op.EnsureSoul? || op.ForkSoul?) && Consistent(tx)
    ensures !k.phase.Gone? && WorkerOk(k.(phase := phase), tx, writers)
  {
    hide Consistent;
    if phase.Ready? { EnsuredSoul(tx, k.session); }
  }

  lemma KeptWriters(s: System, author: Option<string>)
    requires Inv(s)
    ensures Attributed(s.writers, s.db.items, author) == s.writers && Extends(s.writers, s.writers)
  {
    hide Consistent, TurnsOk, Exclusive, WorkersOk;
    SameWriters(s.writers, s.db.items, author);
  }

  lemma QuietUntouched(s: System, tx: Db)
    requires Quiet(s.db, tx)
    ensures forall v :: v in s.workers ==> Untouched(s.workers[v], s.db, tx)
  {
  }

  lemma {:induction false} QuietKeeps(s: System, w: int, op: Op, tx: Db, phase: Phase)
    requires Inv(s) && Enabled(s, w, op, tx, phase) && (op.EnsureSoul? || op.ForkSoul?)
    ensures Inv(Acted(s, w, tx, phase))
  {
    hide Executed, Program, Consistent, TurnsOk, Exclusive, Grows, Extends, WritersOk, WorkersOk, Untouched, Attributed, Acted;
    QuietOps(s.db, op);
    ExecutedKeeps(s.db, op);
    QuietPhase(s.workers[w], op, tx, phase, s.writers);
    KeptWriters(s, Author(s.workers[w]));
    QuietUntouched(s, tx);
    TurnsStable(s.db, tx, s.writers, s.writers);
    hide Inv;
    Together(s, w, tx, phase, s.writers);
  }

  /** A turn row is inserted or rewritten; items and frontiers stay. */
  ghost predicate TurnSet(a: Db, b: Db, id: string, t: Turn) {
    && b.turns == a.turns[id := t] && b.items == a.items && b.results == a.results
    && b.souls.Keys == a.souls.Keys
    && forall x :: x in a.souls ==> b.souls[x].nextSeq == a.souls[x].nextSeq
  }

  lemma TurnSetTurns(a: Db, b: Db, id: string, t: Turn, writers: map<Pos, Option<string>>)
    requires TurnsOk(a, writers) && Grows(a, b) && TurnSet(a, b, id, t) && TurnOk(id, t, b, writers)
    ensures TurnsOk(b, writers)
  {
    assert Extends(writers, writers);
    hide TurnOk, Grows, Extends;
    forall x | x in b.turns ensures TurnOk(x, b.turns[x], b, writers) {
      if x != id { TurnStable(x, a.turns[x], a, b, writers, writers); }
    }
  }

  lemma StartedTurn(db: Db, tx: Db, op: Op, writers: map<Pos, Option<string>>)
    requires Consistent(db) && op.StartTurn? && Executed(db, op) == Ok(tx)
    ensures op.turnId !in db.turns && op.soul in db.souls && op.turnId in tx.turns
    ensures tx.turns[op.turnId].soul == op.soul && tx.turns[op.turnId].trigger == op.trigger
    ensures tx.turns[op.turnId].base == tx.souls[op.soul].nextSeq - 1 && tx.turns[op.turnId].status.Running?
    ensures tx.souls == db.souls && TurnSet(db, tx, op.turnId, tx.turns[op.turnId])
    ensures TurnOk(op.turnId, tx.turns[op.turnId], tx, writers)
  {
  }

  lemma StartPhase(k: Worker, db: Db, op: Op, tx: Db, phase: Phase, writers: map<Pos, Option<string>>)
    requires WorkerOk(k, db, writers) && Program(k, op, tx) == Some(phase) && op.StartTurn? && tx.souls == db.souls
    requires op.turnId in tx.turns && tx.turns[op.turnId].soul == op.soul && tx.turns[op.turnId].trigger == op.trigger
    requires op.soul in tx.souls && tx.turns[op.turnId].base == tx.souls[op.soul].nextSeq - 1 && tx.turns[op.turnId].status.Running?
    ensures !k.phase.Gone? && WorkerOk(k.(phase := phase), tx, writers)
  {
  }

  lemma StartUntouched(s: System, tx: Db, id: string)
    requires id !in s.db.turns && id in tx.turns && TurnSet(s.db, tx, id, tx.turns[id])
    ensures forall v :: v in s.workers ==> Untouched(s.workers[v], s.db, tx)
  {
  }

  lemma StartWriters(db: Db, tx: Db, id: string, writers: map<Pos, Option<string>>)
    requires WritersOk(db.turns, db.items, writers) && id !in db.turns && id in tx.turns && TurnSet(db, tx, id, tx.turns[id])
    ensures WritersOk(tx.turns, tx.items, writers)
  {
  }

  lemma {:induction false} StartKeeps(s: System, w: int, op: Op, tx: Db, phase: Phase)
    requires Inv(s) && Enabled(s, w, op, tx, phase) && op.StartTurn?
    ensures Inv(Acted(s, w, tx, phase))
  {
    hide Executed, Program, Consistent, TurnsOk, TurnOk, Exclusive, Grows, Extends, WritersOk, Untouched, Attributed, Acted, WorkerOk;
    StartedTurn(s.db, tx, op, s.writers);
    ExecutedKeeps(s.db, op);
    StartPhase(s.workers[w], s.db, op, tx, phase, s.writers);
    StartWriters(s.db, tx, op.turnId, s.writers);
    StartUntouched(s, tx, op.turnId);
    KeptWriters(s, Author(s.workers[w]));
    TurnSetTurns(s.db, tx, op.turnId, tx.turns[op.turnId], s.writers);
    hide Inv;
    Together(s, w, tx, phase, s.writers);
  }

  /** A worker ends the turn it is in, a completion after its last append. */
  lemma EndPhase(k: Worker, op: Op, tx: Db, phase: Phase)
    requires Program(k, op, tx) == Some(phase) && (op.CompleteTurn? || op.FailTurn?)
    ensures (k.phase.InTurn? || k.phase.Closed?) && k.phase.turn == op.turnId && phase == Closed(k.phase.soul, op.turnId)
    ensures op.CompleteTurn? ==> k.phase.InTurn? && k.phase.tail.Replied?
  {
  }

  lemma EndedRow(db: Db, op: Op, tx: Db)
    requires Executed(db, op) == Ok(tx) && (op.CompleteTurn? || op.FailTurn?)
    requires op.turnId in db.turns && db.turns[op.turnId].soul in db.souls
    ensures op.turnId in tx.turns && TurnSet(db, tx, op.turnId, tx.turns[op.turnId])
    ensures tx.turns[op.turnId] == Ended(db, db.turns[op.turnId], if op.CompleteTurn? then Completed else Failed(op.error))
    ensures forall id :: id in db.souls ==> SameIdentity(db.souls[id], tx.souls[id])
  {
  }

  lemma EndedTurn(k: Worker, db: Db, tx: Db, op: Op, phase: Phase, writers: map<Pos, Option<string>>)
    requires WorkerOk(k, db, writers) && TurnsOk(db, writers) && (op.CompleteTurn? || op.FailTurn?)
    requires Executed(db, op) == Ok(tx) && Program(k, op, tx) == Some(phase) && Grows(db, tx)
    ensures SoulIn(k).Some? && op.turnId in db.turns && op.turnId in tx.turns && db.turns[op.turnId].soul == SoulIn(k).value
    ensures SoulIn(k).value in db.souls && TurnSet(db, tx, op.turnId, tx.turns[op.turnId])
    ensures tx.turns[op.turnId].end == Some(db.souls[SoulIn(k).value].nextSeq - 1)
    ensures tx.turns[op.turnId].soul == db.turns[op.turnId].soul && tx.turns[op.turnId].base == db.turns[op.turnId].base
    ensures TurnOk(op.turnId, tx.turns[op.turnId], tx, writers)
    ensures WorkerOk(k.(phase := phase), tx, writers)
  {
    hide Owns, Spells, Executed, Program, IsReply, Grows;
    EndPhase(k, op, tx, phase);
    assert TurnOk(op.turnId, db.turns[op.turnId], db, writers);
    EndedRow(db, op, tx);
    if op.CompleteTurn? && k.kind.Send? { ReplyStays(db, tx, k.phase.soul, db.souls[k.phase.soul].nextSeq - 1); }
  }

  lemma WritersAfterEnd(db: Db, tx: Db, id: string, writers: map<Pos, Option<string>>)
    requires Dense(db.souls, db.items) && WritersOk(db.turns, db.items, writers)
    requires id in db.turns && id in tx.turns && TurnSet(db, tx, id, tx.turns[id])
    requires tx.turns[id].soul == db.turns[id].soul && tx.turns[id].base == db.turns[id].base
    requires db.turns[id].soul in db.souls && tx.turns[id].end == Some(db.souls[db.turns[id].soul].nextSeq - 1)
    ensures WritersOk(tx.turns, tx.items, writers)
  {
  }

  lemma DenseIn(db: Db)
    requires Consistent(db)
    ensures Dense(db.souls, db.items)
  {
  }

  lemma EndUntouched(s: System, w: int, tx: Db, id: string)
    requires Inv(s) && w in s.workers && SoulIn(s.workers[w]).Some? && id in s.db.turns && id in tx.turns
    requires s.db.turns[id].soul == SoulIn(s.workers[w]).value && TurnSet(s.db, tx, id, tx.turns[id])
    ensures forall v :: v in s.workers && v != w ==> Untouched(s.workers[v], s.db, tx)
  {
    hide Consistent, TurnsOk, WritersOk, Exclusive, Owns, Spells;
    forall v | v in s.workers && v != w ensures Untouched(s.workers[v], s.db, tx) {
      assert WorkerOk(s.workers[v], s.db, s.writers);
      if SoulIn(s.workers[v]).Some? { Apart(s, v, w); }
    }
  }

  lemma {:induction false} EndKeeps(s: System, w: int, op: Op, tx: Db, phase: Phase)
    requires Inv(s) && Enabled(s, w, op, tx, phase) && (op.CompleteTurn? || op.FailTurn?)
    ensures Inv(Acted(s, w, tx, phase))
  {
    hide Executed, Program, Consistent, TurnsOk, TurnOk, Exclusive, Grows, Extends, WritersOk, Untouched, Attributed, Acted, WorkerOk;
    ExecutedKeeps(s.db, op);
    DenseIn(s.db);
    EndedTurn(s.workers[w], s.db, tx, op, phase, s.writers);
    WritersAfterEnd(s.db, tx, op.turnId, s.writers);
    EndUntouched(s, w, tx, op.turnId);
    KeptWriters(s, Author(s.workers[w]));
    TurnSetTurns(s.db, tx, op.turnId, tx.turns[op.turnId], s.writers);
    hide Inv;
    Together(s, w, tx, phase, s.writers);
  }

  lemma {:induction false} ActKeeps(s: System, w: int, op: Op)
    requires Inv(s)
    ensures Inv(Next(s, Act(w, op)))
  {
    hide Inv, Acted, Executed;
    if w in s.workers && Executed(s.db, op).Ok? {
      var tx := Executed(s.db, op).value;
      var phase := Program(s.workers[w], op, tx);
      if phase.Some? {
        assert Enabled(s, w, op, tx, phase.value);
        if Appends(op) {
          AppendKeeps(s, w, op, tx, phase.value);
        } else if op.StartTurn? {
          StartKeeps(s, w, op, tx, phase.value);
        } else if op.CompleteTurn? || op.FailTurn? {
          EndKeeps(s, w, op, tx, phase.value);
        } else {
          QuietKeeps(s, w, op, tx, phase.value);
        }
      }
    }
  }

  lemma {:induction false} NextKeeps(s: System, e: Event)
    requires Inv(s)
    ensures Inv(Next(s, e))
  {
    hide Inv, Next;
    match e {
      case Acquire(w, kind, session) => AcquireKeeps(s, w, kind, session);
      case Act(w, op) => ActKeeps(s, w, op);
      case LoseFailure(w) => LoseFailureKeeps(s, w);
      case Release(w) => ReleaseKeeps(s, w);
      case Abandon(w) => AbandonKeeps(s, w);
      case Others(op) => OthersKeep(s, op);
    }
  }

  lemma {:induction false} RunKeepsInv(events: seq<Event>)
    ensures Inv(Run(events))
  {
    hide Next;
    if events != [] {
      RunKeepsInv(events[..|events| - 1]);
      hide Inv;
      NextKeeps(Run(events[..|events| - 1]), events[|events| - 1]);
    }
  }

  // ---------------------------------------------------------------------------------------
  // What holds in every run

  /** Two live workers of one session are one worker, and it holds the session's key. */
  lemma LockExcludes(events: seq<Event>, v: int, w: int)
    requires Rivals(Run(events).workers, v, w)
    ensures v == w && Run(events).workers[w].session in Run(events).held
  {
    RunKeepsInv(events);
  }

  /** The numbers of a soul session's items are exactly those from its first to `next_seq - 1`. */
  lemma {:induction false} NumberingIsDense(events: seq<Event>, soul: string, q: int)
    requires soul in Run(events).db.souls
    ensures var s := Run(events).db.souls[soul];
            Pos(soul, q) in Run(events).db.items <==> s.forkPoint.GetOr(0) + 1 <= q < s.nextSeq
  {
    RunKeepsInv(events);
    hide Run;
    var p := Pos(soul, q);
    assert p.soul == soul;
  }

  predicate InInterval(t: Turn, p: Pos) {
    t.end.Some? && p.soul == t.soul && t.base < p.seqNo <= t.end.value
  }

  /** An item lies in the interval of an ended turn exactly when that turn appended it. */
  lemma {:induction false} IntervalIsWhatTheTurnWrote(events: seq<Event>, id: string, p: Pos)
    requires id in Run(events).db.turns && Run(events).db.turns[id].end.Some?
    ensures var s := Run(events);
            InInterval(s.db.turns[id], p) <==> p in s.db.items && p in s.writers && s.writers[p] == Some(id)
  {
    RunKeepsInv(events);
    var s := Run(events);
    hide Run, Consistent, Spells;
    assert TurnOk(id, s.db.turns[id], s.db, s.writers);
    if InInterval(s.db.turns[id], p) {
      assert Pos(p.soul, p.seqNo) in s.writers;
    }
  }

  /** The intervals of ended turns never overlap. */
  lemma {:induction false} IntervalsAreDisjoint(events: seq<Event>, a: string, b: string, p: Pos)
    requires a in Run(events).db.turns && b in Run(events).db.turns
    requires InInterval(Run(events).db.turns[a], p) && InInterval(Run(events).db.turns[b], p)
    ensures a == b
  {
    IntervalIsWhatTheTurnWrote(events, a, p);
    IntervalIsWhatTheTurnWrote(events, b, p);
  }

  /** A tool call at `q`, and its own result right after it. */
  ghost predicate CallThenResult(db: Db, soul: string, q: int) {
    && Pos(soul, q) in db.items && Pos(soul, q + 1) in db.items
    && db.items[Pos(soul, q)].ToolCallRef? && db.items[Pos(soul, q + 1)].ToolResultRef?
    && db.items[Pos(soul, q + 1)].id in db.results
    && db.results[db.items[Pos(soul, q + 1)].id] == db.items[Pos(soul, q)].id
  }

  lemma {:induction false} PairsPointwise(db: Db, soul: string, lo: int, hi: int, k: nat)
    requires Pairs(db.items, db.results, soul, lo, hi) && lo + 2 * k + 1 < hi
    ensures CallThenResult(db, soul, lo + 2 * k + 1)
    decreases hi - lo
  {
    PairsBounds(db.items, db.results, soul, lo, hi);
    if lo + 2 * k + 2 != hi {
      PairsPointwise(db, soul, lo, hi - 2, k);
    }
  }

  /**
   The interval of a completed send is 2n + 1 long: n tool calls, each directly followed by its own
   result, and then the reference to a stored message of the soul in that session. A completed compaction is its compact alone.
   */
  ghost predicate Spelled(db: Db, t: Turn) {
    && t.end.Some? && Pos(t.soul, t.end.value) in db.items
    && if t.trigger.SessionCompact? then
         t.end.value == t.base + 1 && db.items[Pos(t.soul, t.end.value)].CompactRef?
       else
         && t.end.value > t.base && (t.end.value - t.base) % 2 == 1
         && IsReply(db, t.soul, t.end.value)
         && forall k: nat :: t.base + 2 * k + 1 < t.end.value ==> CallThenResult(db, t.soul, t.base + 2 * k + 1)
  }

  lemma SpelledFrom(id: string, t: Turn, db: Db, writers: map<Pos, Option<string>>)
    requires TurnOk(id, t, db, writers) && t.status.Completed?
    ensures Spelled(db, t)
  {
    hide Owns, Pairs;
    if !t.trigger.SessionCompact? {
      PairsBounds(db.items, db.results, t.soul, t.base, t.end.value - 1);
      hide CallThenResult;
      forall k: nat | t.base + 2 * k + 1 < t.end.value ensures CallThenResult(db, t.soul, t.base + 2 * k + 1) {
        PairsPointwise(db, t.soul, t.base, t.end.value - 1, k);
      }
    }
  }

  lemma {:induction false} CompletedTurnsSpell(events: seq<Event>, id: string)
    requires id in Run(events).db.turns && Run(events).db.turns[id].status.Completed?
    ensures Spelled(Run(events).db, Run(events).db.turns[id])
  {
    RunKeepsInv(events);
    var s := Run(events);
    hide Run, Spelled, TurnOk, Consistent, Exclusive, WritersOk, WorkersOk;
    SpelledFrom(id, s.db.turns[id], s.db, s.writers);
  }

  lemma {:induction false} NextGrows(s: System, e: Event)
    requires Inv(s)
    ensures Grows(s.db, Next(s, e).db) && Extends(s.writers, Next(s, e).writers)
  {
    hide Executed, Consistent, TurnsOk, Exclusive, WorkersOk, Program, Grows;
    GrowsReflexive(s.db);
    match e {
      case Act(w, op) =>
        if Executed(s.db, op).Ok? {
          ExecutedKeeps(s.db, op);
          GrownWriters(s, op);
        }
      case Others(op) => if Executed(s.db, op).Ok? { ExecutedKeeps(s.db, op); }
      case _ =>
    }
  }

  lemma GrownWriters(s: System, op: Op)
    requires WritersOk(s.db.turns, s.db.items, s.writers) && Executed(s.db, op).Ok? && Grows(s.db, Executed(s.db, op).value)
    ensures forall author :: Extends(s.writers, Attributed(s.writers, Executed(s.db, op).value.items, author))
  {
    hide Executed;
  }

  /** Whatever happens later, no item, result, call or authorship recorded before is changed. */
  lemma {:induction false} EntriesNeverChange(events: seq<Event>, n: nat)
    requires n <= |events|
    ensures Grows(Run(events[..n]).db, Run(events).db) && Extends(Run(events[..n]).writers, Run(events).writers)
  {
    hide Next, Grows;
    if n == |events| {
      assert events[..n] == events;
      GrowsReflexive(Run(events).db);
    } else {
      var init := events[..|events| - 1];
      assert init[..n] == events[..n];
      EntriesNeverChange(init, n);
      RunKeepsInv(init);
      hide Inv;
      NextGrows(Run(init), events[|events| - 1]);
      GrowsTransitive(Run(events[..n]).db, Run(init).db, Run(events).db);
    }
  }
}
