/** The soul-runtime adapter of the standalone store, one method a port call. */
module SoulRuntime {
  import opened Common
  import opened MessageEvents
  import opened Transcript
  import opened StandaloneDb

  // ---------------------------------------------------------------------------------------
  // Every transaction keeps the tables consistent and only extends them

  /** A change of a soul session that leaves its identity and its numbering alone. */
  predicate Retouched(a: SoulSession, b: SoulSession) {
    SameIdentity(a, b) && a.nextSeq == b.nextSeq
  }

  lemma RetouchKeeps(db: Db, id: string, soul: SoulSession, tx: Db)
    requires Consistent(db) && id in db.souls && Retouched(db.souls[id], soul)
    requires tx.souls == db.souls[id := soul] && tx.bySession == db.bySession && tx.items == db.items
    requires tx.calls == db.calls && tx.results == db.results && tx.messages == db.messages
    ensures Consistent(tx) && Grows(db, tx)
  {
    hide CallsOnce;
    RetouchDense(db.souls, db.items, id, soul);
    RetouchIndexed(db.souls, db.bySession, id, soul);
    SoulSet(db.souls, id, soul);
    NothingLost(db);
    hide Dense, Indexed, SoulsKept, Extends, MessagesKept;
  }

  lemma RetouchDense(souls: map<string, SoulSession>, items: map<Pos, Target>, id: string, soul: SoulSession)
    requires Dense(souls, items) && id in souls && Retouched(souls[id], soul)
    ensures Dense(souls[id := soul], items)
  {
    forall p ensures p in items <==> p.soul in souls[id := soul] && First(souls[id := soul][p.soul]) <= p.seqNo < souls[id := soul][p.soul].nextSeq {
      assert p in items <==> p.soul in souls && First(souls[p.soul]) <= p.seqNo < souls[p.soul].nextSeq;
    }
  }

  /** A change that keeps the session id keeps the index. */
  lemma RetouchIndexed(souls: map<string, SoulSession>, bySession: map<string, string>, id: string, soul: SoulSession)
    requires Indexed(souls, bySession) && id in souls && souls[id].sessionId == soul.sessionId
    ensures Indexed(souls[id := soul], bySession)
  {
  }

  lemma InsertIndexed(souls: map<string, SoulSession>, bySession: map<string, string>, id: string, soul: SoulSession)
    requires Indexed(souls, bySession) && id !in souls && soul.sessionId !in bySession
    ensures Indexed(souls[id := soul], bySession[soul.sessionId := id])
  {
  }

  lemma InsertDense(souls: map<string, SoulSession>, items: map<Pos, Target>, id: string, soul: SoulSession)
    requires Dense(souls, items) && id !in souls && soul.nextSeq == First(soul)
    ensures Dense(souls[id := soul], items)
  {
    forall p ensures p in items <==> p.soul in souls[id := soul] && First(souls[id := soul][p.soul]) <= p.seqNo < souls[id := soul][p.soul].nextSeq {
      assert p in items <==> p.soul in souls && First(souls[p.soul]) <= p.seqNo < souls[p.soul].nextSeq;
    }
  }

  lemma AllocateDense(souls: map<string, SoulSession>, items: map<Pos, Target>, id: string, target: Target)
    requires Dense(souls, items) && id in souls
    ensures Dense(souls[id := souls[id].(nextSeq := souls[id].nextSeq + 1)], items[Pos(id, souls[id].nextSeq) := target])
    ensures Pos(id, souls[id].nextSeq) !in items
  {
    var n := souls[id].nextSeq;
    var souls', items' := souls[id := souls[id].(nextSeq := n + 1)], items[Pos(id, n) := target];
    forall p ensures p in items' <==> p.soul in souls' && First(souls'[p.soul]) <= p.seqNo < souls'[p.soul].nextSeq {
      assert p in items <==> p.soul in souls && First(souls[p.soul]) <= p.seqNo < souls[p.soul].nextSeq;
    }
  }

  lemma SoulSet(souls: map<string, SoulSession>, id: string, soul: SoulSession)
    requires id in souls ==> SameIdentity(souls[id], soul)
    ensures SoulsKept(souls, souls[id := soul])
  {
  }

  lemma EntrySet<K(!new), V>(m: map<K, V>, k: K, v: V)
    requires k !in m
    ensures Extends(m, m[k := v])
  {
  }

  /** With dense numbering an allocation succeeds for every stored soul session. */
  lemma AllocatedIs(db: Db, soul: string, target: Target)
    requires Dense(db.souls, db.items) && soul in db.souls
    ensures Pos(soul, db.souls[soul].nextSeq) !in db.items
    ensures Allocated(db, soul, target) ==
            Ok(db.(souls := db.souls[soul := db.souls[soul].(nextSeq := db.souls[soul].nextSeq + 1)],
                   items := db.items[Pos(soul, db.souls[soul].nextSeq) := target]))
  {
    AllocateDense(db.souls, db.items, soul, target);
  }

  lemma {:induction false} AllocatedKeeps(db: Db, soul: string, target: Target)
    requires Indexed(db.souls, db.bySession) && Dense(db.souls, db.items) && soul in db.souls
    ensures Allocated(db, soul, target).Ok?
    ensures var tx := Allocated(db, soul, target).value;
            && Indexed(tx.souls, tx.bySession) && Dense(tx.souls, tx.items)
            && SoulsKept(db.souls, tx.souls) && Extends(db.items, tx.items)
  {
    hide Indexed, Dense, SoulsKept, Extends, MessagesKept, Allocated;
    var touched := db.souls[soul].(nextSeq := db.souls[soul].nextSeq + 1);
    AllocatedIs(db, soul, target);
    AllocateDense(db.souls, db.items, soul, target);
    RetouchIndexed(db.souls, db.bySession, soul, touched);
    SoulSet(db.souls, soul, touched);
    EntrySet(db.items, Pos(soul, db.souls[soul].nextSeq), target);
  }

  lemma AllocatedCalls(items: map<Pos, Target>, calls: map<string, string>, p: Pos, target: Target, turn: string)
    requires CallsOnce(items, calls) && p !in items
    requires target.ToolCallRef? ==> target.id !in calls
    ensures CallsOnce(items[p := target], if target.ToolCallRef? then calls[target.id := turn] else calls)
  {
  }

  lemma {:induction false} SoulEnsuredKeeps(db: Db, soulId: string, sessionId: string)
    requires Consistent(db) && SoulEnsured(db, soulId, sessionId).Ok?
    ensures var tx := SoulEnsured(db, soulId, sessionId).value;
            Consistent(tx) && Grows(db, tx) && sessionId in tx.bySession
  {
    hide CallsOnce, StandaloneSoulSessionId;
    if sessionId !in db.bySession {
      var id, soul := StandaloneSoulSessionId(sessionId), SoulSession(soulId, sessionId, "", None, 1, 0, None, None);
      InsertDense(db.souls, db.items, id, soul);
      InsertIndexed(db.souls, db.bySession, id, soul);
      SoulSet(db.souls, id, soul);
    }
    NothingLost(db);
    hide Dense, Indexed, SoulsKept, Extends, MessagesKept;
  }

  lemma MemoryWrittenKeeps(db: Db, soul: string, text: string)
    requires Consistent(db) && soul in db.souls
    ensures var tx := MemoryWritten(db, soul, text).value;
            Consistent(tx) && Grows(db, tx)
  {
    RetouchKeeps(db, soul, db.souls[soul].(memory := text), MemoryWritten(db, soul, text).value);
  }

  lemma TurnStartedKeeps(db: Db, id: string, soul: string, trigger: Trigger, through: int)
    requires Consistent(db) && TurnStarted(db, id, soul, trigger, through).Ok?
    ensures var tx := TurnStarted(db, id, soul, trigger, through).value;
            Consistent(tx) && Grows(db, tx)
  {
    hide Indexed, Dense, CallsOnce;
  }

  lemma {:induction false} MessageRefAppendedKeeps(db: Db, soul: string, messageId: string)
    requires Consistent(db) && MessageRefAppended(db, soul, messageId).Ok?
    ensures var tx := MessageRefAppended(db, soul, messageId).value;
            Consistent(tx) && Grows(db, tx) && Allocated(db, soul, MessageRef(messageId)) == Ok(tx)
  {
    AllocatedKeeps(db, soul, MessageRef(messageId));
    AllocatedCalls(db.items, db.calls, Pos(soul, db.souls[soul].nextSeq), MessageRef(messageId), "");
    NothingLost(db);
    hide Indexed, Dense, CallsOnce, SoulsKept, Extends, MessagesKept;
  }

  lemma {:induction false} ToolCallAppendedKeeps(db: Db, callId: string, turnId: string)
    requires Consistent(db) && ToolCallAppended(db, callId, turnId).Ok?
    ensures var tx := ToolCallAppended(db, callId, turnId).value;
            Consistent(tx) && Grows(db, tx)
  {
    var with := db.(calls := db.calls[callId := turnId]);
    var soul := db.turns[turnId].soul;
    EntrySet(db.calls, callId, turnId);
    AllocatedKeeps(with, soul, ToolCallRef(callId));
    AllocateDense(db.souls, db.items, soul, ToolCallRef(callId));
    AllocatedCalls(db.items, db.calls, Pos(soul, db.souls[soul].nextSeq), ToolCallRef(callId), turnId);
    NothingLost(db);
    hide CallsOnce, Dense, Indexed, SoulsKept, Extends, MessagesKept;
  }

  /** The soul session of a tool call, as its item says. */
  ghost function SoulOfCall(db: Db, callId: string): string
    requires exists p :: IsCallItem(db.items, callId, p)
  {
    var p :| IsCallItem(db.items, callId, p);
    p.soul
  }

  lemma SoulOfCallIs(db: Db, resultId: string, callId: string, p: Pos)
    requires CallsOnce(db.items, db.calls) && IsCallItem(db.items, callId, p)
    ensures SoulOfCall(db, callId) == p.soul
    ensures resultId !in db.results && callId !in db.results.Values ==>
              ToolResultAppended(db, resultId, callId) ==
              Allocated(db.(results := db.results[resultId := callId]), p.soul, ToolResultRef(resultId))
  {
    hide Allocated;
    forall q | IsCallItem(db.items, callId, q) ensures q == p {}
  }

  lemma {:induction false} ToolResultAppendedKeeps(db: Db, resultId: string, callId: string)
    requires Consistent(db) && ToolResultAppended(db, resultId, callId).Ok?
    ensures var tx := ToolResultAppended(db, resultId, callId).value;
            Consistent(tx) && Grows(db, tx)
    ensures exists p :: IsCallItem(db.items, callId, p) &&
              ToolResultAppended(db, resultId, callId) == Allocated(db.(results := db.results[resultId := callId]), p.soul, ToolResultRef(resultId))
  {
    var with := db.(results := db.results[resultId := callId]);
    var p :| IsCallItem(db.items, callId, p) &&
             ToolResultAppended(db, resultId, callId) == Allocated(with, p.soul, ToolResultRef(resultId));
    EntrySet(db.results, resultId, callId);
    AllocatedKeeps(with, p.soul, ToolResultRef(resultId));
    AllocateDense(db.souls, db.items, p.soul, ToolResultRef(resultId));
    AllocatedCalls(db.items, db.calls, Pos(p.soul, db.souls[p.soul].nextSeq), ToolResultRef(resultId), "");
    NothingLost(db);
    hide CallsOnce, Dense, Indexed, ToolResultAppended, SoulsKept, Extends, MessagesKept;
  }

  lemma {:induction false} CompactAppendedKeeps(db: Db, id: string, turnId: string, summary: string, start: int,
      end: int)
    requires Consistent(db) && CompactAppended(db, id, turnId, summary, start, end).Ok?
    ensures var tx := CompactAppended(db, id, turnId, summary, start, end).value;
            Consistent(tx) && Grows(db, tx)
  {
    var soul := db.turns[turnId].soul;
    var row := CompactRow(db.souls[soul].sessionId, Compact(id, turnId, summary, start, end));
    var with := db.(compacts := db.compacts[id := row]);
    AllocatedKeeps(with, soul, CompactRef(id));
    AllocatedCalls(db.items, db.calls, Pos(soul, db.souls[soul].nextSeq), CompactRef(id), "");
    NothingLost(db);
    hide CallsOnce, Dense, Indexed, SoulsKept, Extends, MessagesKept;
  }

  lemma {:induction false} TurnCompletedKeeps(db: Db, id: string, lastSeen: int, providerState: Option<ProviderState>)
    requires Consistent(db) && TurnCompleted(db, id, lastSeen, providerState).Ok?
    ensures var tx := TurnCompleted(db, id, lastSeen, providerState).value;
            Consistent(tx) && Grows(db, tx)
  {
    var soul := db.turns[id].soul;
    if soul in db.souls {
      RetouchKeeps(db, soul, db.souls[soul].(lastSeen := lastSeen, providerState := providerState),
                   TurnCompleted(db, id, lastSeen, providerState).value);
    } else {
      hide Indexed, Dense, CallsOnce;
    }
  }

  lemma TurnFailedKeeps(db: Db, id: string, error: string)
    requires Consistent(db) && TurnFailed(db, id, error).Ok?
    ensures var tx := TurnFailed(db, id, error).value;
            Consistent(tx) && Grows(db, tx)
  {
    hide Indexed, Dense, CallsOnce;
  }

  lemma NothingLost(db: Db)
    ensures SoulsKept(db.souls, db.souls) && Extends(db.items, db.items)
    ensures Extends(db.calls, db.calls) && Extends(db.results, db.results) && MessagesKept(db.messages, db.messages)
  {
  }

  lemma {:induction false} CopyAllKeeps(messages: seq<Row>, rows: seq<Row>, ids: nat -> string, sessionId: string)
    requires CopyAll(messages, rows, ids, sessionId).Ok?
    ensures MessagesKept(messages, CopyAll(messages, rows, ids, sessionId).value)
  {
    if rows != [] { CopyAllKeeps(messages, rows[..|rows| - 1], ids, sessionId); }
  }

  lemma {:induction false} SoulForkedKeeps(db: Db, parentId: string, forkPoint: int, newSoul: string,
      newSession: string, ids: nat -> string)
    requires Consistent(db) && SoulForked(db, parentId, forkPoint, newSoul, newSession, ids).Ok?
    ensures var tx := SoulForked(db, parentId, forkPoint, newSoul, newSession, ids).value;
            Consistent(tx) && Grows(db, tx)
  {
    hide CallsOnce, CopyAll, RowsUpTo, SessionRows, ForkedProviderState, Dense, Indexed, SoulsKept, Extends, MessagesKept;
    var tx := SoulForked(db, parentId, forkPoint, newSoul, newSession, ids).value;
    NothingLost(db);
    CopyAllKeeps(db.messages, RowsUpTo(SessionRows(db.messages, db.souls[parentId].sessionId), forkPoint), ids, newSession);
    if newSoul !in db.souls {
      var soul := ForkedSoul(parentId, db.souls[parentId], forkPoint, newSession);
      InsertDense(db.souls, db.items, newSoul, soul);
      InsertIndexed(db.souls, db.bySession, newSoul, soul);
      SoulSet(db.souls, newSoul, soul);
    }
  }

  /**
   The child of a fork starts with an empty provider state exactly when the parent has none or its
   basis lies past the fork point; otherwise it starts with the parent's.
   */
  lemma ChildStartsWithStateIffBasisIsCopied(db: Db, parentId: string, forkPoint: int, newSoul: string,
      newSession: string,
      ids: nat -> string)
    requires SoulForked(db, parentId, forkPoint, newSoul, newSession, ids).Ok? && newSoul !in db.souls
    ensures parentId in db.souls && newSoul in SoulForked(db, parentId, forkPoint, newSoul, newSession, ids).value.souls
    ensures var parent, child := db.souls[parentId], SoulForked(db, parentId, forkPoint, newSoul, newSession, ids).value.souls[newSoul];
            && (child.providerState.None? <==> parent.providerState.None? || parent.providerState.value.basis > forkPoint)
            && (child.providerState.Some? ==> child.providerState == parent.providerState)
            && child.nextSeq == forkPoint + 1 && child.lastSeen <= forkPoint && child.lastSeen <= parent.lastSeen
            && child.parent == Some(parentId) && child.forkPoint == Some(forkPoint)
  {
    hide CopyAll, RowsUpTo, SessionRows;
  }

  lemma LedgerKeeps(db: Db, tx: Db)
    requires Consistent(db) && tx == db.(sessions := tx.sessions, messages := tx.messages) && MessagesKept(db.messages, tx.messages)
    ensures Consistent(tx) && Grows(db, tx)
  {
    NothingLost(db);
    hide Dense, Indexed, CallsOnce, SoulsKept, Extends, MessagesKept;
  }

  lemma AppendKeepsMessages(db: Db, m: NewMessage)
    requires MessageAppended(db, m).Ok?
    ensures var tx := MessageAppended(db, m).value; MessagesKept(db.messages, tx.messages) && tx == db.(messages := tx.messages)
  {
    hide MaxSeq, ContentOf;
  }

  lemma ChangeKeepsMessages(db: Db, c: MessageChange)
    requires MessageChanged(db, c).Ok?
    ensures var tx := MessageChanged(db, c).value; MessagesKept(db.messages, tx.messages) && tx == db.(messages := tx.messages)
  {
    hide Apply, ContentOf;
  }

  /** Every transaction keeps the tables consistent, and only extends what it may not change. */
  lemma {:induction false} ExecutedKeeps(db: Db, op: Op)
    requires Consistent(db) && Executed(db, op).Ok?
    ensures Consistent(Executed(db, op).value) && Grows(db, Executed(db, op).value)
  {
    hide Consistent, Grows, SoulEnsured, TurnStarted, MessageRefAppended, ToolCallAppended, ToolResultAppended,
      CompactAppended, TurnCompleted, TurnFailed, SoulForked, MessagesKept, MessageAppended, MessageChanged;
    match op {
      case EnsureSoul(soulId, sessionId) => SoulEnsuredKeeps(db, soulId, sessionId);
      case WriteMemory(soul, text) => MemoryWrittenKeeps(db, soul, text);
      case StartTurn(id, soul, trigger, through) => TurnStartedKeeps(db, id, soul, trigger, through);
      case AppendMessageRef(soul, messageId) => MessageRefAppendedKeeps(db, soul, messageId);
      case AppendToolCall(callId, turnId) => ToolCallAppendedKeeps(db, callId, turnId);
      case AppendToolResult(resultId, callId) => ToolResultAppendedKeeps(db, resultId, callId);
      case AppendCompact(id, turnId, summary, start, end) => CompactAppendedKeeps(db, id, turnId, summary, start, end);
      case CompleteTurn(id, lastSeen, providerState) => TurnCompletedKeeps(db, id, lastSeen, providerState);
      case FailTurn(id, error) => TurnFailedKeeps(db, id, error);
      case CreateSession(id) => NothingLost(db); LedgerKeeps(db, SessionCreated(db, id).value);
      case AppendMessage(m) => AppendKeepsMessages(db, m); LedgerKeeps(db, MessageAppended(db, m).value);
      case ChangeMessage(c) => ChangeKeepsMessages(db, c); LedgerKeeps(db, MessageChanged(db, c).value);
      case ForkSoul(parent, forkPoint, newSoul, newSession, ids) =>
        SoulForkedKeeps(db, parent, forkPoint, newSoul, newSession, ids);
    }
  }

  /**
   In every reachable store, each soul session's items are numbered exactly from 1 (from one past
   the fork point in a forked one) to `next_seq - 1`, and nothing stored before is changed.
   */
  lemma {:induction false} AfterKeeps(db: Db, ops: seq<Op>)
    requires Consistent(db)
    ensures Consistent(After(db, ops)) && Grows(db, After(db, ops))
  {
    hide Consistent, Grows, Executed;
    if ops == [] {
      NothingLost(db);
      GrowsReflexive(db);
    } else {
      AfterKeeps(db, ops[..|ops| - 1]);
      var before := After(db, ops[..|ops| - 1]);
      GrowsReflexive(before);
      if Executed(before, ops[|ops| - 1]).Ok? {
        ExecutedKeeps(before, ops[|ops| - 1]);
      }
      GrowsTransitive(db, before, After(db, ops));
    }
  }

  lemma GrowsReflexive(db: Db)
    ensures Grows(db, db)
  {
  }

  // ---------------------------------------------------------------------------------------
  // The port

  datatype AssemblyEntry = AssemblyEntry(soul: string, target: Target, seqNo: int)

  class StandaloneSoulRuntime {
    const pool: SqlitePool

    constructor (pool: SqlitePool)
      ensures this.pool == pool
    {
      this.pool := pool;
    }

    method AcquireSoulSession(soulId: string, sessionId: string) returns (r: Result<string>)
      requires Consistent(pool.db)
      modifies pool
      ensures Consistent(pool.db) && Grows(old(pool.db), pool.db)
      ensures match SoulEnsured(old(pool.db), soulId, sessionId)
              case Ok(db) => pool.db == db && r == Ok(db.bySession[sessionId])
              case Err(e) => pool.db == old(pool.db) && r == Err(e)
    {
      ghost var before := pool.db;
      GrowsReflexive(before);
      if sessionId !in pool.db.bySession {
        var id := StandaloneSoulSessionId(sessionId);
        if id in pool.db.souls {
          return Err(Internal("ensure standalone soul_session failed"));
        }
        SoulEnsuredKeeps(before, soulId, sessionId);
        pool.db := pool.db.(souls := pool.db.souls[id := SoulSession(soulId, sessionId, "", None, 1, 0, None, None)],
                            bySession := pool.db.bySession[sessionId := id]);
      }
      return Ok(pool.db.bySession[sessionId]);
    }

    method WriteSessionMemory(soul: string, text: string) returns (r: Option<SoulSession>)
      modifies pool
      ensures match MemoryWritten(old(pool.db), soul, text)
              case Some(db) => pool.db == db && r == Some(db.souls[soul])
              case None => pool.db == old(pool.db) && r == None
    {
      if soul !in pool.db.souls {
        return None;
      }
      var row := pool.db.souls[soul].(memory := text);
      pool.db := pool.db.(souls := pool.db.souls[soul := row]);
      return Some(row);
    }

    method StartTurn(id: string, soul: string, trigger: Trigger, through: int) returns (r: Result<Turn>)
      modifies pool
      ensures match TurnStarted(old(pool.db), id, soul, trigger, through)
              case Ok(db) => pool.db == db && r == Ok(db.turns[id])
              case Err(e) => pool.db == old(pool.db) && r == Err(e)
    {
      if soul !in pool.db.souls {
        return Err(NotFound("standalone_soul_session"));
      }
      if id in pool.db.turns {
        return Err(Internal("standalone turn start failed"));
      }
      var row := Turn(soul, trigger, through, pool.db.souls[soul].nextSeq - 1, None, Running);
      pool.db := pool.db.(turns := pool.db.turns[id := row]);
      return Ok(row);
    }

    /** The statements shared by every append: advance `next_seq`, insert the item. */
    method Allocate(tx: Db, soul: string, target: Target) returns (r: Result<Db>, seqNo: int)
      ensures r == Allocated(tx, soul, target)
      ensures r.Ok? ==> soul in tx.souls && seqNo == tx.souls[soul].nextSeq
    {
      seqNo := 0;
      if soul !in tx.souls {
        return Err(NotFound("standalone_soul_session")), seqNo;
      }
      seqNo := tx.souls[soul].nextSeq;
      var next := tx.(souls := tx.souls[soul := tx.souls[soul].(nextSeq := seqNo + 1)]);
      if Pos(soul, seqNo) in next.items {
        return Err(Internal("standalone item insert failed")), seqNo;
      }
      return Ok(next.(items := next.items[Pos(soul, seqNo) := target])), seqNo;
    }

    method AppendMessageRef(soul: string, messageId: string) returns (r: Result<AssemblyEntry>)
      modifies pool
      ensures match MessageRefAppended(old(pool.db), soul, messageId)
              case Ok(db) => pool.db == db && r == Ok(AssemblyEntry(soul, MessageRef(messageId), old(pool.db).souls[soul].nextSeq))
              case Err(e) => pool.db == old(pool.db) && r == Err(e)
    {
      var tx, seqNo := Allocate(pool.db, soul, MessageRef(messageId));
      if tx.Err? {
        return Err(tx.error);
      }
      if !HasMessage(tx.value.messages, messageId) {
        return Err(NotFound("session_message"));
      }
      pool.db := tx.value;
      return Ok(AssemblyEntry(soul, MessageRef(messageId), seqNo));
    }

    method AppendToolCall(callId: string, turnId: string) returns (r: Result<AssemblyEntry>)
      modifies pool
      ensures match ToolCallAppended(old(pool.db), callId, turnId)
              case Ok(db) =>
                var soul := db.turns[turnId].soul;
                pool.db == db && r == Ok(AssemblyEntry(soul, ToolCallRef(callId), old(pool.db).souls[soul].nextSeq))
              case Err(e) => pool.db == old(pool.db) && r == Err(e)
    {
      if callId in pool.db.calls {
        return Err(Internal("standalone insert tool call failed"));
      }
      var tx := pool.db.(calls := pool.db.calls[callId := turnId]);
      if turnId !in tx.turns {
        return Err(NotFound("standalone_turn"));
      }
      var soul := tx.turns[turnId].soul;
      var done, seqNo := Allocate(tx, soul, ToolCallRef(callId));
      if done.Err? {
        return Err(done.error);
      }
      pool.db := done.value;
      return Ok(AssemblyEntry(soul, ToolCallRef(callId), seqNo));
    }

    method AppendToolResult(resultId: string, callId: string) returns (r: Result<AssemblyEntry>)
      requires Consistent(pool.db)
      modifies pool
      ensures match ToolResultAppended(old(pool.db), resultId, callId)
              case Ok(db) =>
                var soul := SoulOfCall(old(pool.db), callId);
                pool.db == db && r == Ok(AssemblyEntry(soul, ToolResultRef(resultId), old(pool.db).souls[soul].nextSeq))
              case Err(e) => pool.db == old(pool.db) && r == Err(e)
    {
      hide Dense, Indexed, CallsOnce;
      if resultId in pool.db.results || callId in pool.db.results.Values {
        return Err(Internal("standalone insert tool result failed"));
      }
      var tx := pool.db.(results := pool.db.results[resultId := callId]);
      if !exists p :: p in tx.items && tx.items[p] == ToolCallRef(callId) {
        assert forall p :: !IsCallItem(tx.items, callId, p);
        return Err(NotFound("tool_call"));
      }
      var p :| p in tx.items && tx.items[p] == ToolCallRef(callId);
      assert IsCallItem(tx.items, callId, p);
      SoulOfCallIs(pool.db, resultId, callId, p);
      var done, seqNo := Allocate(tx, p.soul, ToolResultRef(resultId));
      if done.Err? {
        return Err(done.error);
      }
      pool.db := done.value;
      return Ok(AssemblyEntry(p.soul, ToolResultRef(resultId), seqNo));
    }

    method AppendCompact(id: string, turnId: string, summary: string, start: int,
        end: int) returns (r: Result<AssemblyEntry>)
      modifies pool
      ensures match CompactAppended(old(pool.db), id, turnId, summary, start, end)
              case Ok(db) =>
                var soul := db.turns[turnId].soul;
                pool.db == db && r == Ok(AssemblyEntry(soul, CompactRef(id), old(pool.db).souls[soul].nextSeq))
              case Err(e) => pool.db == old(pool.db) && r == Err(e)
    {
      if turnId !in pool.db.turns || pool.db.turns[turnId].soul !in pool.db.souls {
        return Err(NotFound("standalone_turn"));
      }
      var soul := pool.db.turns[turnId].soul;
      if id in pool.db.compacts {
        return Err(Internal("insert standalone compact failed"));
      }
      var row := CompactRow(pool.db.souls[soul].sessionId, Compact(id, turnId, summary, start, end));
      var tx, seqNo := Allocate(pool.db.(compacts := pool.db.compacts[id := row]), soul, CompactRef(id));
      if tx.Err? {
        return Err(tx.error);
      }
      pool.db := tx.value;
      return Ok(AssemblyEntry(soul, CompactRef(id), seqNo));
    }

    method CompleteTurn(id: string, lastSeen: int, providerState: Option<ProviderState>) returns (r: Result<Turn>)
      modifies pool
      ensures match TurnCompleted(old(pool.db), id, lastSeen, providerState)
              case Ok(db) => pool.db == db && r == Ok(db.turns[id])
              case Err(e) => pool.db == old(pool.db) && r == Err(e)
    {
      if id !in pool.db.turns {
        return Err(NotFound("standalone_turn"));
      }
      var row := Ended(pool.db, pool.db.turns[id], Completed);
      var tx := pool.db.(turns := pool.db.turns[id := row]);
      if row.soul in tx.souls {
        tx := tx.(souls := tx.souls[row.soul := tx.souls[row.soul].(lastSeen := lastSeen, providerState := providerState)]);
      }
      pool.db := tx;
      return Ok(row);
    }

    method FailTurn(id: string, error: string) returns (r: Result<Turn>)
      modifies pool
      ensures match TurnFailed(old(pool.db), id, error)
              case Ok(db) => pool.db == db && r == Ok(db.turns[id])
              case Err(e) => pool.db == old(pool.db) && r == Err(e)
    {
      if id !in pool.db.turns {
        return Err(NotFound("standalone_turn"));
      }
      var row := Ended(pool.db, pool.db.turns[id], Failed(error));
      pool.db := pool.db.(turns := pool.db.turns[id := row]);
      return Ok(row);
    }

    /** The list query of a fork. */
    method MessagesUpTo(rows: seq<Row>, sessionId: string, forkPoint: int) returns (r: seq<Row>)
      ensures r == RowsUpTo(SessionRows(rows, sessionId), forkPoint)
    {
      r := [];
      ghost var mine: seq<Row> := [];
      for k := 0 to |rows|
        invariant mine == SessionRows(rows[..k], sessionId) && r == RowsUpTo(mine, forkPoint)
      {
        assert rows[..k + 1][..k] == rows[..k];
        if rows[k].sessionId == sessionId {
          assert (mine + [rows[k]])[..|mine|] == mine;
          mine := mine + [rows[k]];
          if rows[k].sessionSeq <= forkPoint {
            r := r + [rows[k]];
          }
        }
      }
      assert rows[..|rows|] == rows;
    }

    method ForkSoulSession(parentId: string, forkPoint: int, newSoul: string, newSession: string, ids: nat -> string)
      returns (r: Result<SoulSession>)
      modifies pool
      ensures match SoulForked(old(pool.db), parentId, forkPoint, newSoul, newSession, ids)
              case Ok(db) => pool.db == db && newSoul in db.souls && r == Ok(db.souls[newSoul])
              case Err(e) => pool.db == old(pool.db) && r == Err(e)
    {
      hide RowsUpTo, SessionRows;
      var tx := pool.db;
      if parentId !in tx.souls {
        return Err(NotFound("soul_session"));
      }
      var parent := tx.souls[parentId];
      if newSession !in tx.sessions {
        tx := tx.(sessions := tx.sessions[newSession := SessionRow(Some(parent.sessionId), Some(forkPoint))]);
      }
      var rows := MessagesUpTo(tx.messages, parent.sessionId, forkPoint);
      var copies := CopyLoop(tx.messages, rows, ids, newSession);
      if copies.Err? {
        return Err(copies.error);
      }
      tx := tx.(messages := copies.value);
      if newSoul in tx.souls {
        pool.db := tx;
        return Ok(tx.souls[newSoul]);
      }
      if newSession in tx.bySession {
        return Err(Internal("insert standalone forked soul session failed"));
      }
      var row := ForkedSoul(parentId, parent, forkPoint, newSession);
      pool.db := tx.(souls := tx.souls[newSoul := row], bySession := tx.bySession[newSession := newSoul]);
      return Ok(row);
    }

    method CopyLoop(messages: seq<Row>, rows: seq<Row>, ids: nat -> string,
        sessionId: string) returns (r: Result<seq<Row>>)
      ensures r == CopyAll(messages, rows, ids, sessionId)
    {
      var copied := messages;
      var k: nat := 0;
      while k < |rows|
        invariant k <= |rows|
        invariant CopyAll(messages, rows[..k], ids, sessionId) == Ok(copied)
      {
        assert rows[..k + 1][..k] == rows[..k];
        var copy := Copied(rows[k], ids(k), sessionId);
        if Conflicts(copied, copy) {
          CopyErrStops(messages, rows, ids, sessionId, k + 1);
          return Err(Internal("copy standalone forked session message failed"));
        }
        copied := copied + [copy];
        k := k + 1;
      }
      assert rows[..|rows|] == rows;
      return Ok(copied);
    }
  }

  lemma {:induction false} CopyErrStops(messages: seq<Row>, rows: seq<Row>, ids: nat -> string, sessionId: string,
      k: nat)
    requires k <= |rows| && CopyAll(messages, rows[..k], ids, sessionId).Err?
    ensures CopyAll(messages, rows, ids, sessionId) == CopyAll(messages, rows[..k], ids, sessionId)
  {
    if k == |rows| {
      assert rows[..k] == rows;
    } else {
      assert rows[..|rows| - 1][..k] == rows[..k];
      CopyErrStops(messages, rows[..|rows| - 1], ids, sessionId, k);
    }
  }
}
