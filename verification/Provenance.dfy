/**
 Where the values of the standalone store come from: over every list of transactions, the one that
 gave a soul session, a turn, a call, a result or a compact what it has now.
 */
module Provenance {
  import opened Common
  import opened MessageEvents
  import opened Transcript
  import opened StandaloneDb
  import SoulRuntime

  /** What a transaction leaves, if it fails too. */
  ghost function Then(db: Db, op: Op): Db {
    match Executed(db, op)
    case Ok(tx) => tx
    case Err(_) => db
  }

  lemma AfterInit(ops: seq<Op>)
    requires ops != []
    ensures After(EMPTY, ops) == Then(After(EMPTY, ops[..|ops| - 1]), ops[|ops| - 1])
  {
    hide Executed;
  }

  /** The store before the k-th transaction. */
  ghost function Before(ops: seq<Op>, k: nat): Db
    requires k <= |ops|
  {
    After(EMPTY, ops[..k])
  }

  /** From the k-th on, no transaction of this kind. */
  ghost predicate NoneSince(ops: seq<Op>, k: nat, kind: (Db, Op) -> bool) {
    forall i :: k <= i < |ops| ==> !kind(Before(ops, i), ops[i])
  }

  lemma NoneSinceLast(ops: seq<Op>, k: nat, kind: (Db, Op) -> bool)
    requires k < |ops| && NoneSince(ops[..|ops| - 1], k, kind) && !kind(Before(ops, |ops| - 1), ops[|ops| - 1])
    ensures NoneSince(ops, k, kind)
  {
    var init := ops[..|ops| - 1];
    forall i | k <= i < |ops| ensures !kind(Before(ops, i), ops[i]) {
      if i < |init| { assert init[..i] == ops[..i] && !kind(Before(init, i), init[i]); }
    }
  }

  // ---------------------------------------------------------------------------------------
  // Soul sessions

  /** A completion of a turn on this soul session. */
  predicate Completes(db: Db, op: Op, soul: string) {
    op.CompleteTurn? && op.turnId in db.turns && db.turns[op.turnId].soul == soul
  }

  predicate Writes(op: Op, soul: string) {
    op.WriteMemory? && op.soul == soul
  }

  /** What a soul session starts with: nothing, or what a fork takes from the parent. */
  ghost predicate BornWith(db: Db, op: Op, id: string, s: SoulSession) {
    match op
    case EnsureSoul(soulId, sessionId) =>
      s.soulId == soulId && s.sessionId == sessionId && s.lastSeen == 0 && s.providerState.None? && s.memory == ""
    case ForkSoul(parent, forkPoint, newSoul, newSession, _) =>
      && newSoul == id && parent in db.souls && s.sessionId == newSession
      && var p := db.souls[parent];
         && s.soulId == p.soulId && s.memory == p.memory
         && s.lastSeen <= p.lastSeen && s.lastSeen <= forkPoint && (s.lastSeen == p.lastSeen || s.lastSeen == forkPoint)
         && (s.providerState.Some? ==> s.providerState == p.providerState && s.providerState.value.basis <= forkPoint)
         && (s.providerState.None? ==> p.providerState.None? || p.providerState.value.basis > forkPoint)
    case _ => false
  }

  /** One transaction, on a soul session that is there. */
  ghost predicate KeepsSoul(db: Db, op: Op, tx: Db, soul: string)
    requires soul in db.souls
  {
    && soul in tx.souls
    && (Completes(db, op, soul) ==>
          tx.souls[soul].lastSeen == op.lastSeen && tx.souls[soul].providerState == op.providerState)
    && (!Completes(db, op, soul) ==>
          tx.souls[soul].lastSeen == db.souls[soul].lastSeen && tx.souls[soul].providerState == db.souls[soul].providerState)
    && tx.souls[soul].memory == if Writes(op, soul) then op.text else db.souls[soul].memory
  }

  /** The ledger's transactions leave everything but sessions and messages alone. */
  lemma LedgerStep(db: Db, op: Op)
    requires OfLedger(op)
    ensures Then(db, op) == db.(sessions := Then(db, op).sessions, messages := Then(db, op).messages)
  {
    hide MaxSeq, ContentToText, Conflicts, RowChanged, RowIndex, HasMessage;
  }

  predicate OfLedger(op: Op) {
    op.CreateSession? || op.AppendMessage? || op.ChangeMessage?
  }

  predicate Appends(op: Op) {
    op.AppendMessageRef? || op.AppendToolCall? || op.AppendToolResult? || op.AppendCompact?
  }

  /** Souls keep all but `next_seq`, none is made, and turns stay. */
  ghost predicate Appended(db: Db, tx: Db) {
    && tx.turns == db.turns && tx.souls.Keys == db.souls.Keys
    && forall soul :: soul in db.souls ==> tx.souls[soul] == db.souls[soul].(nextSeq := tx.souls[soul].nextSeq)
  }

  lemma AllocatedStep(db: Db, soul: string, target: Target)
    requires Allocated(db, soul, target).Ok?
    ensures Appended(db, Allocated(db, soul, target).value)
  {
  }

  lemma AppendStep(db: Db, op: Op)
    requires Appends(op)
    ensures Appended(db, Then(db, op))
  {
    hide HasMessage, Allocated;
    match op {
      case AppendMessageRef(soul, id) => if Executed(db, op).Ok? { AllocatedStep(db, soul, MessageRef(id)); }
      case AppendToolCall(id, turn) =>
        if Executed(db, op).Ok? { AllocatedStep(db.(calls := db.calls[id := turn]), db.turns[turn].soul, ToolCallRef(id)); }
      case AppendToolResult(id, call) =>
        var db1 := db.(results := db.results[id := call]);
        forall p | IsCallItem(db.items, call, p) && Allocated(db1, p.soul, ToolResultRef(id)).Ok?
          ensures Appended(db1, Allocated(db1, p.soul, ToolResultRef(id)).value)
        {
          AllocatedStep(db1, p.soul, ToolResultRef(id));
        }
      case AppendCompact(id, turn, summary, start, end) =>
        if Executed(db, op).Ok? {
          var soul := db.turns[turn].soul;
          var row := CompactRow(db.souls[soul].sessionId, Compact(id, turn, summary, start, end));
          AllocatedStep(db.(compacts := db.compacts[id := row]), soul, CompactRef(id));
        }
    }
  }

  lemma ForkStep(db: Db, op: Op)
    requires op.ForkSoul?
    ensures Then(db, op).turns == db.turns
    ensures forall soul :: soul in db.souls ==> soul in Then(db, op).souls && Then(db, op).souls[soul] == db.souls[soul]
    ensures forall soul :: soul in Then(db, op).souls && soul !in db.souls ==>
              BornWith(db, op, soul, Then(db, op).souls[soul])
  {
    hide CopyAll, RowsUpTo, SessionRows;
  }

  function Or(db: Db, r: Result<Db>): Db {
    if r.Ok? then r.value else db
  }

  lemma ThenIs(db: Db, op: Op)
    ensures match op
            case EnsureSoul(soulId, sessionId) => Then(db, op) == Or(db, SoulEnsured(db, soulId, sessionId))
            case WriteMemory(soul, text) => Then(db, op) == MemoryWritten(db, soul, text).GetOr(db)
            case StartTurn(id, soul, trigger, through) => Then(db, op) == Or(db, TurnStarted(db, id, soul, trigger, through))
            case CompleteTurn(id, lastSeen, state) => Then(db, op) == Or(db, TurnCompleted(db, id, lastSeen, state))
            case FailTurn(id, error) => Then(db, op) == Or(db, TurnFailed(db, id, error))
            case _ => true
  {
    hide SoulEnsured, MemoryWritten, TurnStarted, TurnCompleted, TurnFailed, MessageAppended, MessageChanged, SoulForked,
      MessageRefAppended, ToolCallAppended, ToolResultAppended, CompactAppended;
  }

  /** What one transaction may do to a soul session: keep it, or make it. */
  ghost predicate SoulEffect(db: Db, op: Op, tx: Db, soul: string) {
    && (soul in db.souls ==> KeepsSoul(db, op, tx, soul))
    && (soul !in db.souls && soul in tx.souls ==> BornWith(db, op, soul, tx.souls[soul]))
  }

  lemma EnsureOnSoul(db: Db, soulId: string, sessionId: string, soul: string)
    ensures SoulEffect(db, EnsureSoul(soulId, sessionId), Or(db, SoulEnsured(db, soulId, sessionId)), soul)
  {
  }

  lemma WriteOnSoul(db: Db, target: string, text: string, soul: string)
    ensures SoulEffect(db, WriteMemory(target, text), MemoryWritten(db, target, text).GetOr(db), soul)
  {
  }

  lemma StartOnSoul(db: Db, turn: string, target: string, trigger: Trigger, through: int, soul: string)
    ensures SoulEffect(db, StartTurn(turn, target, trigger, through), Or(db, TurnStarted(db, turn, target, trigger, through)), soul)
  {
  }

  lemma CompleteOnSoul(db: Db, turn: string, lastSeen: int, state: Option<ProviderState>, soul: string)
    ensures SoulEffect(db, CompleteTurn(turn, lastSeen, state), Or(db, TurnCompleted(db, turn, lastSeen, state)), soul)
  {
  }

  lemma FailOnSoul(db: Db, turn: string, error: string, soul: string)
    ensures SoulEffect(db, FailTurn(turn, error), Or(db, TurnFailed(db, turn, error)), soul)
  {
  }

  lemma PlainStep(db: Db, op: Op, soul: string)
    requires !OfLedger(op) && !Appends(op) && !op.ForkSoul?
    ensures SoulEffect(db, op, Then(db, op), soul)
  {
    ThenIs(db, op);
    hide Then, SoulEffect, SoulEnsured, MemoryWritten, TurnStarted, TurnCompleted, TurnFailed;
    match op {
      case EnsureSoul(soulId, sessionId) => EnsureOnSoul(db, soulId, sessionId, soul);
      case WriteMemory(target, text) => WriteOnSoul(db, target, text, soul);
      case StartTurn(turn, target, trigger, through) => StartOnSoul(db, turn, target, trigger, through, soul);
      case CompleteTurn(turn, lastSeen, state) => CompleteOnSoul(db, turn, lastSeen, state, soul);
      case FailTurn(turn, error) => FailOnSoul(db, turn, error, soul);
    }
  }

  lemma {:induction false} SoulStep(db: Db, op: Op, soul: string)
    ensures SoulEffect(db, op, Then(db, op), soul)
  {
    hide Then, BornWith;
    if OfLedger(op) {
      LedgerStep(db, op);
    } else if Appends(op) {
      AppendStep(db, op);
    } else if op.ForkSoul? {
      ForkStep(db, op);
    } else {
      hide SoulEffect;
      PlainStep(db, op, soul);
    }
  }

  /** The k-th transaction made this soul session. */
  ghost predicate Makes(ops: seq<Op>, k: nat, soul: string)
    requires k < |ops|
  {
    soul !in Before(ops, k).souls && soul in Before(ops, k + 1).souls
  }

  /** The last completion of a turn on the soul session, or its birth if there was none since, gave it these marks. */
  ghost predicate MarksFrom(ops: seq<Op>, k: nat, soul: string, s: SoulSession) {
    && k < |ops| && NoneSince(ops, k + 1, (db, op) => Completes(db, op, soul))
    && if Completes(Before(ops, k), ops[k], soul)
       then s.lastSeen == ops[k].lastSeen && s.providerState == ops[k].providerState
       else Makes(ops, k, soul) && s.lastSeen == Before(ops, k + 1).souls[soul].lastSeen
            && s.providerState == Before(ops, k + 1).souls[soul].providerState
            && BornWith(Before(ops, k), ops[k], soul, Before(ops, k + 1).souls[soul])
  }

  /** Likewise for its memory. */
  ghost predicate MemoryFrom(ops: seq<Op>, k: nat, soul: string, s: SoulSession) {
    && k < |ops| && NoneSince(ops, k + 1, (db, op) => Writes(op, soul))
    && if Writes(ops[k], soul) then s.memory == ops[k].text
       else Makes(ops, k, soul) && s.memory == Before(ops, k + 1).souls[soul].memory
            && BornWith(Before(ops, k), ops[k], soul, Before(ops, k + 1).souls[soul])
  }

  lemma BeforeInit(ops: seq<Op>, k: nat)
    requires ops != [] && k < |ops|
    ensures Before(ops, k) == Before(ops[..|ops| - 1], k)
    ensures Before(ops, |ops|) == After(EMPTY, ops)
  {
    assert ops[..|ops| - 1][..k] == ops[..k];
    assert ops[..|ops|] == ops;
  }

  /**
   In every reachable store the last-seen number and the provider state of a soul session are those
   given to the last completion of a turn on it, or, if none was completed, those it was created with
   (none) or forked with (the parent's, cut to the fork point). No other transaction changes them.
   */
  lemma {:induction false} MarksAreTheLastCompletions(ops: seq<Op>, soul: string) returns (k: nat)
    requires soul in After(EMPTY, ops).souls
    ensures MarksFrom(ops, k, soul, After(EMPTY, ops).souls[soul])
  {
    hide Then, BornWith;
    if ops == [] { NoSouls(); }
    var init, n := ops[..|ops| - 1], |ops| - 1;
    AfterInit(ops);
    hide After;
    var db, op := After(EMPTY, init), ops[n];
    BeforeInit(ops, n);
    if soul !in db.souls {
      k := n;
      SoulStep(db, op, soul);
    } else {
      SoulStep(db, op, soul);
      if Completes(db, op, soul) {
        k := n;
      } else {
        k := MarksAreTheLastCompletions(init, soul);
        NoneSinceLast(ops, k + 1, (d, o) => Completes(d, o, soul));
        BeforeInit(ops, k);
        BeforeInit(ops, k + 1);
      }
    }
  }

  /** And its memory is the text last written, or the one that it was created or forked with. */
  lemma {:induction false} MemoryIsTheLastWritten(ops: seq<Op>, soul: string) returns (k: nat)
    requires soul in After(EMPTY, ops).souls
    ensures MemoryFrom(ops, k, soul, After(EMPTY, ops).souls[soul])
  {
    hide Then, BornWith;
    if ops == [] { NoSouls(); }
    var init, n := ops[..|ops| - 1], |ops| - 1;
    AfterInit(ops);
    hide After;
    var db, op := After(EMPTY, init), ops[n];
    BeforeInit(ops, n);
    if soul !in db.souls {
      k := n;
      SoulStep(db, op, soul);
    } else {
      SoulStep(db, op, soul);
      if Writes(op, soul) {
        k := n;
      } else {
        k := MemoryIsTheLastWritten(init, soul);
        NoneSinceLast(ops, k + 1, (d, o) => Writes(o, soul));
        BeforeInit(ops, k);
        BeforeInit(ops, k + 1);
      }
    }
  }

  lemma NoSouls()
    ensures After(EMPTY, []).souls == map[]
  {
  }

  // ---------------------------------------------------------------------------------------
  // Turns

  /** A transaction that ends this turn. */
  predicate EndsTurn(op: Op, id: string) {
    (op.CompleteTurn? || op.FailTurn?) && op.turnId == id
  }

  /** The k-th transaction started the turn, with what its row says. */
  ghost predicate StartedBy(ops: seq<Op>, k: nat, id: string, t: Turn) {
    && k < |ops| && ops[k] == StartTurn(id, t.soul, t.trigger, t.through)
    && t.soul in Before(ops, k).souls && t.base == Before(ops, k).souls[t.soul].nextSeq - 1
  }

  /** Its status and end are those of the last transaction that ended it. */
  ghost predicate EndedBy(ops: seq<Op>, k: nat, id: string, t: Turn) {
    && k < |ops| && EndsTurn(ops[k], id) && NoneSince(ops, k + 1, (db, op) => EndsTurn(op, id))
    && t.status == (if ops[k].CompleteTurn? then Completed else TurnStatus.Failed(ops[k].error))
    && t.end == if t.soul in Before(ops, k).souls then Some(Before(ops, k).souls[t.soul].nextSeq - 1) else None
  }

  /** One transaction, on a turn. */
  ghost predicate KeepsTurn(db: Db, op: Op, tx: Db, id: string)
    requires id in db.turns
  {
    && id in tx.turns
    && var t, t' := db.turns[id], tx.turns[id];
       && t'.soul == t.soul && t'.trigger == t.trigger && t'.through == t.through && t'.base == t.base
       && (!EndsTurn(op, id) ==> t' == t)
       && (EndsTurn(op, id) ==>
             && t'.status == (if op.CompleteTurn? then Completed else TurnStatus.Failed(op.error))
             && t'.end == if t.soul in db.souls then Some(db.souls[t.soul].nextSeq - 1) else None)
  }

  ghost predicate Starts(db: Db, op: Op, id: string, t: Turn) {
    && op == StartTurn(id, t.soul, t.trigger, t.through) && t.status.Running? && t.end.None?
    && t.soul in db.souls && t.base == db.souls[t.soul].nextSeq - 1
  }

  /** What one transaction may do to a turn: keep it, or start it. */
  ghost predicate TurnEffect(db: Db, op: Op, tx: Db, id: string) {
    && (id in db.turns ==> KeepsTurn(db, op, tx, id))
    && (id !in db.turns && id in tx.turns ==> Starts(db, op, id, tx.turns[id]))
  }

  lemma EnsureOnTurn(db: Db, soulId: string, sessionId: string, id: string)
    ensures TurnEffect(db, EnsureSoul(soulId, sessionId), Or(db, SoulEnsured(db, soulId, sessionId)), id)
  {
  }

  lemma WriteOnTurn(db: Db, target: string, text: string, id: string)
    ensures TurnEffect(db, WriteMemory(target, text), MemoryWritten(db, target, text).GetOr(db), id)
  {
  }

  lemma StartOnTurn(db: Db, turn: string, target: string, trigger: Trigger, through: int, id: string)
    ensures TurnEffect(db, StartTurn(turn, target, trigger, through), Or(db, TurnStarted(db, turn, target, trigger, through)), id)
  {
  }

  lemma CompleteOnTurn(db: Db, turn: string, lastSeen: int, state: Option<ProviderState>, id: string)
    ensures TurnEffect(db, CompleteTurn(turn, lastSeen, state), Or(db, TurnCompleted(db, turn, lastSeen, state)), id)
  {
  }

  lemma FailOnTurn(db: Db, turn: string, error: string, id: string)
    ensures TurnEffect(db, FailTurn(turn, error), Or(db, TurnFailed(db, turn, error)), id)
  {
  }

  lemma PlainTurnStep(db: Db, op: Op, id: string)
    requires !OfLedger(op) && !Appends(op) && !op.ForkSoul?
    ensures TurnEffect(db, op, Then(db, op), id)
  {
    ThenIs(db, op);
    hide Then, TurnEffect, SoulEnsured, MemoryWritten, TurnStarted, TurnCompleted, TurnFailed;
    match op {
      case EnsureSoul(soulId, sessionId) => EnsureOnTurn(db, soulId, sessionId, id);
      case WriteMemory(target, text) => WriteOnTurn(db, target, text, id);
      case StartTurn(turn, target, trigger, through) => StartOnTurn(db, turn, target, trigger, through, id);
      case CompleteTurn(turn, lastSeen, state) => CompleteOnTurn(db, turn, lastSeen, state, id);
      case FailTurn(turn, error) => FailOnTurn(db, turn, error, id);
    }
  }

  lemma {:induction false} TurnStep(db: Db, op: Op, id: string)
    ensures TurnEffect(db, op, Then(db, op), id)
  {
    hide Then;
    if OfLedger(op) {
      LedgerStep(db, op);
    } else if Appends(op) {
      AppendStep(db, op);
    } else if op.ForkSoul? {
      ForkStep(db, op);
    } else {
      hide TurnEffect;
      PlainTurnStep(db, op, id);
    }
  }

  /**
   In every reachable store a turn has the soul session, the trigger and the last message that it was
   started with; it is running exactly while nothing has ended it, and otherwise as the last
   transaction that ended it says.
   */
  lemma {:induction false} TurnsAreAsGiven(ops: seq<Op>, id: string) returns (k: nat, e: nat)
    requires id in After(EMPTY, ops).turns
    ensures StartedBy(ops, k, id, After(EMPTY, ops).turns[id])
    ensures EndsAsGiven(ops, k, e, id, After(EMPTY, ops).turns[id])
  {
    hide After, Before, StartedBy, EndsAsGiven, EndedBy, Starts;
    if ops == [] { NoTurns(); }
    var init, n := ops[..|ops| - 1], |ops| - 1;
    var db, op, t := After(EMPTY, init), ops[n], After(EMPTY, ops).turns[id];
    LastTurnStep(ops, id);
    if id !in db.turns {
      k, e := n, 0;
      JustStarted(ops, id, t);
    } else {
      k, e := TurnsAreAsGiven(init, id);
      StillStarted(ops, k, id, db.turns[id], t);
      if EndsTurn(op, id) {
        e := n;
        JustEnded(ops, k, id, t);
      } else {
        StillEnds(ops, k, e, id, t);
      }
    }
  }

  lemma LastTurnStep(ops: seq<Op>, id: string)
    requires ops != []
    ensures TurnEffect(Before(ops, |ops| - 1), ops[|ops| - 1], After(EMPTY, ops), id)
    ensures Before(ops, |ops| - 1) == After(EMPTY, ops[..|ops| - 1])
  {
    AfterInit(ops);
    TurnStep(After(EMPTY, ops[..|ops| - 1]), ops[|ops| - 1], id);
    hide After, Then, TurnEffect;
  }

  lemma JustStarted(ops: seq<Op>, id: string, t: Turn)
    requires ops != [] && Starts(Before(ops, |ops| - 1), ops[|ops| - 1], id, t)
    ensures StartedBy(ops, |ops| - 1, id, t) && EndsAsGiven(ops, |ops| - 1, 0, id, t)
  {
    hide Before;
  }

  ghost predicate EndsAsGiven(ops: seq<Op>, k: nat, e: nat, id: string, t: Turn) {
    if t.status.Running? then t.end.None? && NoneSince(ops, k + 1, (db, op) => EndsTurn(op, id))
    else k < e && EndedBy(ops, e, id, t)
  }

  lemma StillStarted(ops: seq<Op>, k: nat, id: string, t: Turn, t': Turn)
    requires ops != [] && StartedBy(ops[..|ops| - 1], k, id, t)
    requires t'.soul == t.soul && t'.trigger == t.trigger && t'.through == t.through && t'.base == t.base
    ensures StartedBy(ops, k, id, t') && k < |ops| - 1
  {
    hide After;
    BeforeInit(ops, k);
  }

  lemma JustEnded(ops: seq<Op>, k: nat, id: string, t: Turn)
    requires ops != [] && k < |ops| - 1 && EndsTurn(ops[|ops| - 1], id) && !t.status.Running?
    requires var op, db := ops[|ops| - 1], Before(ops, |ops| - 1);
             && t.status == (if op.CompleteTurn? then Completed else TurnStatus.Failed(op.error))
             && t.end == if t.soul in db.souls then Some(db.souls[t.soul].nextSeq - 1) else None
    ensures EndsAsGiven(ops, k, |ops| - 1, id, t)
  {
  }

  lemma StillEnds(ops: seq<Op>, k: nat, e: nat, id: string, t: Turn)
    requires ops != [] && k < |ops| - 1 && EndsAsGiven(ops[..|ops| - 1], k, e, id, t) && !EndsTurn(ops[|ops| - 1], id)
    ensures EndsAsGiven(ops, k, e, id, t)
  {
    hide Before, StartedBy;
    if t.status.Running? {
      NoneSinceLast(ops, k + 1, (d, o) => EndsTurn(o, id));
    } else {
      NoneSinceLast(ops, e + 1, (d, o) => EndsTurn(o, id));
      BeforeInit(ops, e);
    }
  }

  lemma NoTurns()
    ensures After(EMPTY, []).turns == map[]
  {
  }

  // ---------------------------------------------------------------------------------------
  // Calls, results and compacts

  /** What the k-th transaction put into these tables, if it is the one that added the entry. */
  ghost predicate Adds(db: Db, op: Op, tx: Db) {
    && (forall id :: id in tx.calls && id !in db.calls ==> op == AppendToolCall(id, tx.calls[id]) && tx.calls[id] in db.turns)
    && (forall id :: id in tx.results && id !in db.results ==> op == AppendToolResult(id, tx.results[id]))
    && (forall id :: id in tx.compacts && id !in db.compacts ==> AddsCompact(db, op, id, tx.compacts[id]))
  }

  ghost predicate AddsCompact(db: Db, op: Op, id: string, row: CompactRow) {
    var c := row.compact;
    && op == AppendCompact(id, c.turnId, c.summary, c.start, c.end) && c.id == id
    && c.turnId in db.turns && db.turns[c.turnId].soul in db.souls && row.sessionId == db.souls[db.turns[c.turnId].soul].sessionId
  }

  /** Entries that are there stay. */
  ghost predicate Keeps(db: Db, tx: Db) {
    Extends(db.calls, tx.calls) && Extends(db.results, tx.results) && Extends(db.compacts, tx.compacts)
  }

  lemma AllocatedEntries(db: Db, soul: string, target: Target)
    requires Allocated(db, soul, target).Ok?
    ensures var tx := Allocated(db, soul, target).value;
            tx.calls == db.calls && tx.results == db.results && tx.compacts == db.compacts
  {
  }

  lemma AppendEntries(db: Db, op: Op)
    requires Appends(op)
    ensures Adds(db, op, Then(db, op)) && Keeps(db, Then(db, op))
  {
    hide HasMessage, Allocated;
    match op {
      case AppendMessageRef(soul, id) => if Executed(db, op).Ok? { AllocatedEntries(db, soul, MessageRef(id)); }
      case AppendToolCall(id, turn) =>
        if Executed(db, op).Ok? { AllocatedEntries(db.(calls := db.calls[id := turn]), db.turns[turn].soul, ToolCallRef(id)); }
      case AppendToolResult(id, call) =>
        var db1 := db.(results := db.results[id := call]);
        forall p | IsCallItem(db.items, call, p) && Allocated(db1, p.soul, ToolResultRef(id)).Ok?
          ensures var tx := Allocated(db1, p.soul, ToolResultRef(id)).value;
                  tx.calls == db1.calls && tx.results == db1.results && tx.compacts == db1.compacts
        {
          AllocatedEntries(db1, p.soul, ToolResultRef(id));
        }
      case AppendCompact(id, turn, summary, start, end) =>
        if Executed(db, op).Ok? {
          var soul := db.turns[turn].soul;
          var row := CompactRow(db.souls[soul].sessionId, Compact(id, turn, summary, start, end));
          AllocatedEntries(db.(compacts := db.compacts[id := row]), soul, CompactRef(id));
        }
    }
  }

  lemma ForkEntries(db: Db, op: Op)
    requires op.ForkSoul?
    ensures var tx := Then(db, op);
            tx.calls == db.calls && tx.results == db.results && tx.compacts == db.compacts
  {
    hide CopyAll, RowsUpTo, SessionRows, ForkedSoul;
  }

  lemma OtherEntries(db: Db, op: Op)
    requires !Appends(op)
    ensures var tx := Then(db, op);
            tx.calls == db.calls && tx.results == db.results && tx.compacts == db.compacts
  {
    hide Then, Ended;
    if OfLedger(op) {
      LedgerStep(db, op);
    } else if op.ForkSoul? {
      ForkEntries(db, op);
    } else {
      ThenIs(db, op);
    }
  }

  lemma EntryStep(db: Db, op: Op)
    ensures Adds(db, op, Then(db, op)) && Keeps(db, Then(db, op))
  {
    hide Then;
    if Appends(op) {
      hide Adds, Keeps;
      AppendEntries(db, op);
    } else {
      OtherEntries(db, op);
    }
  }

  ghost predicate CallGiven(ops: seq<Op>, id: string, turnId: string) {
    exists k :: 0 <= k < |ops| && ops[k] == AppendToolCall(id, turnId) && turnId in Before(ops, k).turns
  }

  ghost predicate ResultGiven(ops: seq<Op>, id: string, callId: string) {
    exists k :: 0 <= k < |ops| && ops[k] == AppendToolResult(id, callId)
  }

  ghost predicate CompactGiven(ops: seq<Op>, id: string, row: CompactRow) {
    exists k :: 0 <= k < |ops| && AddsCompact(Before(ops, k), ops[k], id, row)
  }

  lemma GivenStill(ops: seq<Op>, op: Op)
    ensures forall id, turnId :: CallGiven(ops, id, turnId) ==> CallGiven(ops + [op], id, turnId)
    ensures forall id, callId :: ResultGiven(ops, id, callId) ==> ResultGiven(ops + [op], id, callId)
    ensures forall id, row :: CompactGiven(ops, id, row) ==> CompactGiven(ops + [op], id, row)
  {
    hide AddsCompact, After;
    assert forall k :: 0 <= k < |ops| ==> (ops + [op])[k] == ops[k] && (ops + [op])[..k] == ops[..k];
  }

  lemma GivenNow(ops: seq<Op>, op: Op, id: string)
    ensures var db, tx := After(EMPTY, ops), After(EMPTY, ops + [op]);
            && (id in tx.calls && id !in db.calls ==> CallGiven(ops + [op], id, tx.calls[id]))
            && (id in tx.results && id !in db.results ==> ResultGiven(ops + [op], id, tx.results[id]))
            && (id in tx.compacts && id !in db.compacts ==> CompactGiven(ops + [op], id, tx.compacts[id]))
  {
    hide AddsCompact, Then, After;
    var all, k := ops + [op], |ops|;
    assert all[..k] == ops && all[k] == op && all[..|all| - 1] == ops;
    assert Before(all, k) == After(EMPTY, ops);
    AfterInit(all);
    EntryStep(After(EMPTY, ops), op);
  }

  /**
   In every reachable store each call, result and compact is as the transaction that added it gave it:
   the call its turn, the result its call, the compact its turn, text and range, under the session of
   that turn's soul session.
   */
  lemma {:induction false} EntriesAreAsGiven(ops: seq<Op>, id: string)
    ensures var db := After(EMPTY, ops);
            && (id in db.calls ==> CallGiven(ops, id, db.calls[id]))
            && (id in db.results ==> ResultGiven(ops, id, db.results[id]))
            && (id in db.compacts ==> CompactGiven(ops, id, db.compacts[id]))
  {
    hide After, Then, CallGiven, ResultGiven, CompactGiven;
    if ops == [] {
      NoEntries();
    } else {
      var init, op := ops[..|ops| - 1], ops[|ops| - 1];
      assert ops == init + [op];
      EntriesAreAsGiven(init, id);
      GivenStill(init, op);
      GivenNow(init, op, id);
      AfterInit(ops);
      EntryStep(After(EMPTY, init), op);
      hide Adds;
    }
  }

  lemma NoEntries()
    ensures After(EMPTY, []) == EMPTY
  {
  }

  // ---------------------------------------------------------------------------------------
  // Sessions

  /** The transaction makes this session: without lineage, or as the child of a session at a fork point. */
  ghost predicate MakesSession(db: Db, op: Op, id: string, row: SessionRow) {
    && id !in db.sessions
    && match op
       case CreateSession(sessionId) => sessionId == id && row.parentSessionId.None? && row.forkPoint.None?
       case ForkSoul(parent, forkPoint, _, newSession, _) =>
         newSession == id && parent in db.souls && row.parentSessionId == Some(db.souls[parent].sessionId) && row.forkPoint == Some(forkPoint)
       case _ => false
  }

  ghost predicate SessionEffect(db: Db, op: Op, tx: Db) {
    && Extends(db.sessions, tx.sessions)
    && forall id :: id in tx.sessions && id !in db.sessions ==> MakesSession(db, op, id, tx.sessions[id])
  }

  lemma AppendLeavesSessions(db: Db, op: Op)
    requires Appends(op)
    ensures Then(db, op).sessions == db.sessions
  {
    hide HasMessage;
  }

  lemma ForkMakesSession(db: Db, parent: string, forkPoint: int, newSoul: string, newSession: string,
      ids: nat -> string)
    ensures SessionEffect(db, ForkSoul(parent, forkPoint, newSoul, newSession, ids),
                          Or(db, SoulForked(db, parent, forkPoint, newSoul, newSession, ids)))
  {
    hide CopyAll, RowsUpTo, SessionRows, ForkedSoul;
  }

  lemma CreateMakesSession(db: Db, id: string)
    ensures SessionEffect(db, CreateSession(id), Or(db, SessionCreated(db, id)))
  {
  }

  lemma MessagesLeaveSessions(db: Db, op: Op)
    requires op.AppendMessage? || op.ChangeMessage?
    ensures Then(db, op).sessions == db.sessions
  {
    hide MaxSeq, ContentToText, Conflicts, RowChanged, RowIndex, HasMessage;
  }

  lemma LedgerIs(db: Db, op: Op)
    ensures match op
            case CreateSession(id) => Then(db, op) == Or(db, SessionCreated(db, id))
            case ForkSoul(parent, forkPoint, newSoul, newSession, ids) =>
              Then(db, op) == Or(db, SoulForked(db, parent, forkPoint, newSoul, newSession, ids))
            case _ => true
  {
    hide SoulEnsured, MemoryWritten, TurnStarted, TurnCompleted, TurnFailed, MessageAppended, MessageChanged, SoulForked,
      MessageRefAppended, ToolCallAppended, ToolResultAppended, CompactAppended, SessionCreated;
  }

  lemma SessionStep(db: Db, op: Op)
    ensures SessionEffect(db, op, Then(db, op))
  {
    LedgerIs(db, op);
    hide Then, SessionEffect, Ended, SoulForked, SessionCreated;
    match op {
      case CreateSession(id) => CreateMakesSession(db, id);
      case ForkSoul(parent, forkPoint, newSoul, newSession, ids) => ForkMakesSession(db, parent, forkPoint, newSoul, newSession, ids);
      case _ =>
        if OfLedger(op) {
          MessagesLeaveSessions(db, op);
        } else if Appends(op) {
          AppendLeavesSessions(db, op);
        } else {
          ThenIs(db, op);
        }
        SameSessions(db, op, Then(db, op));
    }
  }

  lemma SameSessions(db: Db, op: Op, tx: Db)
    requires tx.sessions == db.sessions
    ensures SessionEffect(db, op, tx)
  {
  }

  /** In every reachable store a session has the lineage with which one transaction made it. */
  lemma {:induction false} SessionsAreAsMade(ops: seq<Op>, id: string) returns (k: nat)
    requires id in After(EMPTY, ops).sessions
    ensures k < |ops| && MakesSession(Before(ops, k), ops[k], id, After(EMPTY, ops).sessions[id])
  {
    hide Then, MakesSession;
    if ops == [] { NoEntries(); }
    var init, n := ops[..|ops| - 1], |ops| - 1;
    AfterInit(ops);
    hide After;
    var db := After(EMPTY, init);
    BeforeInit(ops, n);
    SessionStep(db, ops[n]);
    if id in db.sessions {
      k := SessionsAreAsMade(init, id);
      BeforeInit(ops, k);
    } else {
      k := n;
    }
  }
}
