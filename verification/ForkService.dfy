/**
 Forking a session: the child's id is derived from the request, an existing child is accepted only
 with the caller's lineage, and the lineage is checked before the range of the fork point.

 The name-based UUID of the child (version 5, section 5.5 of RFC 9562) is a parameter of which
 nothing is assumed, not even that it is injective.
 */
module ForkService {
  import opened Common
  import opened Text
  import opened StandaloneDb
  import opened SoulRuntime
  import opened StandaloneLock
  import SessionStore

  datatype ForkRequest = ForkRequest(parentSession: string, forkPoint: int, requestId: string)

  datatype ForkResult = ForkResult(newSession: string, parentSession: string, forkPoint: int)

  datatype ForkError = ForkBusy | ParentNotFound | InvalidForkPoint(message: string) | ForkInternal(message: string)

  datatype ForkOutcome = Forked(result: ForkResult) | ForkFailed(error: ForkError)

  /** The ids that one call generates. */
  datatype Generated = Generated(soul: string, messages: nat -> string)

  function HashInput(r: ForkRequest): string {
    "santi_fork:" + r.parentSession + ":" + Decimal(r.forkPoint) + ":" + r.requestId
  }

  function ChildSession(uuid5: string -> string, r: ForkRequest): string {
    "sess_" + uuid5(HashInput(r))
  }

  function MapCoreError(e: Error): ForkError {
    match e
    case NotFound(_) => ParentNotFound
    case Busy => ForkInternal("busy")
    case InvalidInput(m) => InvalidForkPoint(m)
    case Upstream(m) => ForkInternal(m)
    case Internal(m) => ForkInternal(m)
  }

  predicate HasLineage(s: SoulSession, parentSoul: string, forkPoint: int) {
    s.parent == Some(parentSoul) && s.forkPoint == Some(forkPoint)
  }

  /**
   One call of `fork_session`: the tables and the held keys after it, and its outcome. Two of its
   error exits leave the parent's key held.
   */
  function ForkSession(db: Db, held: set<string>, uuid5: string -> string, r: ForkRequest, generated: Generated): (Db,
      set<string>, ForkOutcome)
    requires Indexed(db.souls, db.bySession)
  {
    var key := LockKey(r.parentSession);
    if key in held then (db, held, ForkFailed(ForkBusy))
    else if r.parentSession !in db.bySession then (db, held + {key}, ForkFailed(ParentNotFound))
    else
      var parentSoul := db.bySession[r.parentSession];
      var child := ChildSession(uuid5, r);
      if child in db.bySession then
        if HasLineage(db.souls[db.bySession[child]], parentSoul, r.forkPoint) then
          (db, held, Forked(ForkResult(child, r.parentSession, r.forkPoint)))
        else
          (db, held, ForkFailed(ForkInternal("existing fork session id collided with incompatible lineage")))
      else if r.forkPoint < 1 || r.forkPoint >= db.souls[parentSoul].nextSeq then
        (db, held, ForkFailed(InvalidForkPoint("illegal fork_point " + Decimal(r.forkPoint) + ": must be 1 <= fp < "
                                               + Decimal(db.souls[parentSoul].nextSeq))))
      else
        match SoulForked(db, parentSoul, r.forkPoint, generated.soul, child, generated.messages)
        case Err(e) => (db, held + {key}, ForkFailed(MapCoreError(e)))
        case Ok(tx) => (tx, held, Forked(ForkResult(child, r.parentSession, r.forkPoint)))
  }

  class SessionForkService {
    const pool: SqlitePool
    const lock: InProcessLock
    const soulRuntime: StandaloneSoulRuntime

    constructor (pool: SqlitePool, lock: InProcessLock, soulRuntime: StandaloneSoulRuntime)
      requires soulRuntime.pool == pool
      ensures this.pool == pool && this.lock == lock && this.soulRuntime == soulRuntime
    {
      this.pool, this.lock, this.soulRuntime := pool, lock, soulRuntime;
    }

    method Fork(uuid5: string -> string, r: ForkRequest, generated: Generated) returns (outcome: ForkOutcome)
      requires soulRuntime.pool == pool && Consistent(pool.db)
      modifies pool, lock
      ensures (pool.db, lock.held, outcome) == ForkSession(old(pool.db), old(lock.held), uuid5, r, generated)
    {
      hide Dense, CallsOnce, SoulForked, Decimal;
      ghost var held := lock.held;
      var key := LockKey(r.parentSession);
      hide LockKey;
      var busy := lock.Acquire(key);
      if busy {
        assert lock.held == held;
        return ForkFailed(ForkBusy);
      }
      if r.parentSession !in pool.db.bySession {
        return ForkFailed(ParentNotFound);
      }
      var parentSoul := pool.db.bySession[r.parentSession];
      var newSession := ChildSession(uuid5, r);
      hide ChildSession;
      if newSession in pool.db.bySession {
        var existing := pool.db.souls[pool.db.bySession[newSession]];
        lock.Release(key);
        assert lock.held == held;
        if HasLineage(existing, parentSoul, r.forkPoint) {
          return Forked(ForkResult(newSession, r.parentSession, r.forkPoint));
        }
        return ForkFailed(ForkInternal("existing fork session id collided with incompatible lineage"));
      }
      var nextSeq := pool.db.souls[parentSoul].nextSeq;
      if r.forkPoint < 1 || r.forkPoint >= nextSeq {
        lock.Release(key);
        assert lock.held == held;
        return ForkFailed(InvalidForkPoint("illegal fork_point " + Decimal(r.forkPoint) + ": must be 1 <= fp < " + Decimal(nextSeq)));
      }
      var stored := soulRuntime.ForkSoulSession(parentSoul, r.forkPoint, generated.soul, newSession, generated.messages);
      if stored.Err? {
        return ForkFailed(MapCoreError(stored.error));
      }
      lock.Release(key);
      assert lock.held == held;
      return Forked(ForkResult(newSession, r.parentSession, r.forkPoint));
    }
  }

  // ---------------------------------------------------------------------------------------
  // What a fork promises

  lemma {:induction false} ForkKeeps(db: Db, held: set<string>, uuid5: string -> string, r: ForkRequest,
      generated: Generated)
    requires Consistent(db)
    ensures var (db', held', outcome) := ForkSession(db, held, uuid5, r, generated);
            Consistent(db') && Grows(db, db')
  {
    hide Dense, CallsOnce, SoulForked, Grows, Decimal, LockKey, ChildSession;
    GrowsReflexive(db);
    if r.parentSession in db.bySession {
      var parentSoul := db.bySession[r.parentSession];
      if SoulForked(db, parentSoul, r.forkPoint, generated.soul, ChildSession(uuid5, r), generated.messages).Ok? {
        SoulForkedKeeps(db, parentSoul, r.forkPoint, generated.soul, ChildSession(uuid5, r), generated.messages);
      }
    }
  }

  /** The request's child exists and is the request's: its lineage is the caller's. */
  ghost predicate ChildOf(db: Db, uuid5: string -> string, r: ForkRequest) {
    var child := ChildSession(uuid5, r);
    && r.parentSession in db.bySession && child in db.bySession && db.bySession[child] in db.souls
    && HasLineage(db.souls[db.bySession[child]], db.bySession[r.parentSession], r.forkPoint)
  }

  /**
   Whatever the hash does, an Ok fork names a stored child whose lineage is the caller's. The
   generated soul-session id must be new, as a random UUID is.
   */
  lemma OkForkHasTheCallersLineage(db: Db, held: set<string>, uuid5: string -> string, r: ForkRequest,
      generated: Generated)
    requires Consistent(db) && generated.soul !in db.souls
    ensures var (db', held', outcome) := ForkSession(db, held, uuid5, r, generated);
            outcome.Forked? ==> outcome.result == ForkResult(ChildSession(uuid5, r), r.parentSession, r.forkPoint) && ChildOf(db', uuid5, r)
  {
    hide Dense, CallsOnce, CopyAll, RowsUpTo, SessionRows, Decimal, LockKey, ForkedProviderState;
    var child := ChildSession(uuid5, r);
    hide ChildSession;
  }

  /** A child stays its request's child, whatever transactions follow. */
  lemma ChildStays(db: Db, later: Db, uuid5: string -> string, r: ForkRequest)
    requires Consistent(db) && ChildOf(db, uuid5, r) && Consistent(later) && Grows(db, later)
    ensures ChildOf(later, uuid5, r)
  {
    hide Dense, CallsOnce, ChildSession;
    IndexStays(db, later, r.parentSession);
    IndexStays(db, later, ChildSession(uuid5, r));
  }

  lemma IndexStays(db: Db, later: Db, session: string)
    requires Consistent(db) && session in db.bySession && Consistent(later) && Grows(db, later)
    ensures session in later.bySession && later.bySession[session] == db.bySession[session]
    ensures db.bySession[session] in db.souls && db.bySession[session] in later.souls
    ensures SameIdentity(db.souls[db.bySession[session]], later.souls[db.bySession[session]])
  {
    hide Dense, CallsOnce;
  }

  /** When the child exists, the request succeeds and changes nothing; only a held lock stops it. */
  lemma ExistingChildIsReturned(db: Db, held: set<string>, uuid5: string -> string, r: ForkRequest,
      generated: Generated)
    requires Consistent(db) && ChildOf(db, uuid5, r)
    ensures ForkSession(db, held, uuid5, r, generated) ==
            if LockKey(r.parentSession) in held then (db, held, ForkFailed(ForkBusy))
            else (db, held, Forked(ForkResult(ChildSession(uuid5, r), r.parentSession, r.forkPoint)))
  {
    hide Dense, CallsOnce, SoulForked, Decimal, LockKey, ChildSession;
  }

  /**
   Repeating a request that succeeded gives the same result and changes nothing, also after any
   list of transactions in between, such as those that made the parent grow.
   */
  lemma {:induction false} RepeatedForkIsStable(db: Db, held: set<string>, uuid5: string -> string, r: ForkRequest,
      generated: Generated,
      ops: seq<Op>, held': set<string>, generated': Generated)
    requires Consistent(db) && generated.soul !in db.souls && LockKey(r.parentSession) !in held'
    requires ForkSession(db, held, uuid5, r, generated).2.Forked?
    ensures var (db1, _, first) := ForkSession(db, held, uuid5, r, generated);
            var later := After(db1, ops);
            Consistent(later) && ForkSession(later, held', uuid5, r, generated') == (later, held', first)
  {
    hide Indexed, Dense, CallsOnce, After, ForkSession, ChildOf, Grows;
    OkForkHasTheCallersLineage(db, held, uuid5, r, generated);
    ForkKeeps(db, held, uuid5, r, generated);
    var db1 := ForkSession(db, held, uuid5, r, generated).0;
    AfterKeeps(db1, ops);
    ChildStays(db1, After(db1, ops), uuid5, r);
    ExistingChildIsReturned(After(db1, ops), held', uuid5, r, generated');
  }

  /** No message of a session other than the target is touched by copying. */
  lemma {:induction false} CopyLeavesOthers(messages: seq<Row>, rows: seq<Row>, ids: nat -> string, sessionId: string,
      other: string)
    requires CopyAll(messages, rows, ids, sessionId).Ok? && other != sessionId
    ensures SessionRows(CopyAll(messages, rows, ids, sessionId).value, other) == SessionRows(messages, other)
  {
    if rows != [] {
      CopyLeavesOthers(messages, rows[..|rows| - 1], ids, sessionId, other);
      SessionStore.RowsGrow(CopyAll(messages, rows[..|rows| - 1], ids, sessionId).value,
                            Copied(rows[|rows| - 1], ids(|rows| - 1), sessionId), other);
    }
  }

  /** Soul sessions and messages of others are as they were, everything else is untouched. */
  ghost predicate OnlyAdds(db: Db, db': Db, session: string) {
    && Extends(db.souls, db'.souls) && db'.items == db.items && db'.turns == db.turns
    && db'.calls == db.calls && db'.results == db.results && db'.compacts == db.compacts
    && (session in db.bySession ==> SessionRows(db'.messages, session) == SessionRows(db.messages, session))
  }

  lemma SoulForkedOnlyAdds(db: Db, parent: string, forkPoint: int, newSoul: string, newSession: string,
      ids: nat -> string, session: string)
    requires SoulForked(db, parent, forkPoint, newSoul, newSession, ids).Ok? && newSession !in db.bySession
    ensures OnlyAdds(db, SoulForked(db, parent, forkPoint, newSoul, newSession, ids).value, session)
  {
    hide CopyAll, RowsUpTo, SessionRows, ForkedSoul;
    if session != newSession {
      CopyLeavesOthers(db.messages, RowsUpTo(SessionRows(db.messages, db.souls[parent].sessionId), forkPoint), ids, newSession, session);
    }
  }

  /**
   No fork alters its parent or an existing child: every soul session, item, turn, call and result
   is as before, and so are the messages of every session that has a soul session.
   */
  lemma {:induction false} ForkAltersNothing(db: Db, held: set<string>, uuid5: string -> string, r: ForkRequest,
      generated: Generated, session: string)
    requires Consistent(db)
    ensures OnlyAdds(db, ForkSession(db, held, uuid5, r, generated).0, session)
  {
    hide Dense, CallsOnce, SoulForked, Decimal, LockKey, ChildSession, OnlyAdds;
    NothingAdded(db, session);
    if r.parentSession in db.bySession {
      var parent, child := db.bySession[r.parentSession], ChildSession(uuid5, r);
      if child !in db.bySession && SoulForked(db, parent, r.forkPoint, generated.soul, child, generated.messages).Ok? {
        SoulForkedOnlyAdds(db, parent, r.forkPoint, generated.soul, child, generated.messages, session);
      }
    }
  }

  lemma NothingAdded(db: Db, session: string)
    ensures OnlyAdds(db, db, session)
  {
  }

  /**
   The hash input is not injective either: these two requests derive one child under every hash,
   and the lineage check keeps the second from taking the first one's child.
   */
  lemma HashInputsCollide(uuid5: string -> string)
    ensures var a, b := ForkRequest("a:1", 2, "x"), ForkRequest("a", 1, "2:x");
            a != b && ChildSession(uuid5, a) == ChildSession(uuid5, b)
  {
    assert Decimal(1) == "1" && Decimal(2) == "2";
    assert HashInput(ForkRequest("a:1", 2, "x")) == "santi_fork:a:1:2:x";
    assert HashInput(ForkRequest("a", 1, "2:x")) == "santi_fork:a:1:2:x";
  }

  /** Two requests with one child id cannot both succeed unless parent and fork point agree. */
  lemma OneLineageForEachChild(db: Db, uuid5: string -> string, a: ForkRequest, b: ForkRequest)
    requires Consistent(db) && ChildOf(db, uuid5, a) && ChildOf(db, uuid5, b)
    requires ChildSession(uuid5, a) == ChildSession(uuid5, b)
    ensures a.parentSession == b.parentSession && a.forkPoint == b.forkPoint
  {
    hide Dense, CallsOnce, ChildSession;
  }

  /**
   While the request has no child and the lineage is free, a fork point outside the parent's own numbers
   is refused: nothing changes and the key is given back. So a fork that makes a child was in range.
   */
  lemma {:induction false} OutOfRangeIsRefused(db: Db, held: set<string>, uuid5: string -> string, r: ForkRequest,
      generated: Generated)
    requires Consistent(db) && LockKey(r.parentSession) !in held && r.parentSession in db.bySession
    requires ChildSession(uuid5, r) !in db.bySession
    ensures var nextSeq := db.souls[db.bySession[r.parentSession]].nextSeq;
            var (db', held', outcome) := ForkSession(db, held, uuid5, r, generated);
            && (!(1 <= r.forkPoint < nextSeq) ==> db' == db && held' == held && outcome.ForkFailed? && outcome.error.InvalidForkPoint?)
            && (outcome.Forked? ==> 1 <= r.forkPoint < nextSeq)
  {
    hide Dense, CallsOnce, SoulForked, Decimal, LockKey, ChildSession;
  }

  /** Only a missing parent and a copy that fails leave the parent's key held; no other key is touched. */
  lemma {:induction false} KeyIsGivenBackUnless(db: Db, held: set<string>, uuid5: string -> string, r: ForkRequest,
      generated: Generated)
    requires Consistent(db)
    ensures var (db', held', outcome) := ForkSession(db, held, uuid5, r, generated);
            var key := LockKey(r.parentSession);
            && (held' == held || held' == held + {key})
            && (outcome.Forked? ==> held' == held)
            && (key in held ==> held' == held && db' == db && outcome == ForkFailed(ForkBusy))
            && (key !in held && key in held' ==>
                  && db' == db && outcome.ForkFailed?
                  && (r.parentSession !in db.bySession
                      || SoulForked(db, db.bySession[r.parentSession], r.forkPoint, generated.soul, ChildSession(uuid5, r), generated.messages).Err?))
  {
    hide Dense, CallsOnce, SoulForked, Decimal, LockKey, ChildSession;
  }
}
