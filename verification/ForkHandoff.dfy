/**
 The fork handoff of a hook as a retryable effect: one row for each idempotency key, a fork whose
 request id is that key, and a seeded send into the child.
 */
module ForkHandoff {
  import opened Common
  import opened Text
  import opened StandaloneDb
  import opened SoulRuntime
  import opened StandaloneLock
  import opened ForkService
  import ForkIds

  // ---------------------------------------------------------------------------------------
  // The effect ledger

  const EFFECT_TYPE := "hook_fork_handoff"

  /** The unique columns of an effect row; the table is indexed by them. */
  datatype EffectKey = EffectKey(session: string, effectType: string, idempotencyKey: string)

  datatype Effect = Effect(id: string, status: string, hookId: string, turnId: string, resultRef: Option<string>,
      error: Option<string>)

  predicate IdTaken(effects: map<EffectKey, Effect>, id: string) {
    exists k :: k in effects && effects[k].id == id
  }

  /** Create or return: an existing row of the same key is left as it is. */
  function EffectCreated(effects: map<EffectKey, Effect>, key: EffectKey, e: Effect): Result<map<EffectKey, Effect>> {
    if key in effects then Ok(effects)
    else if IdTaken(effects, e.id) then Err(Internal("standalone effect create failed"))
    else Ok(effects[key := e])
  }

  function EffectUpdated(effects: map<EffectKey, Effect>, id: string, status: string, resultRef: Option<string>,
      error: Option<string>):
    map<EffectKey, Effect>
  {
    map k | k in effects ::
      if effects[k].id == id then effects[k].(status := status, resultRef := resultRef, error := error) else effects[k]
  }

  class StandaloneEffectLedger {
    var effects: map<EffectKey, Effect>

    constructor ()
      ensures effects == map[]
    {
      effects := map[];
    }

    method GetEffect(key: EffectKey) returns (r: Option<Effect>)
      ensures r == if key in effects then Some(effects[key]) else None
    {
      r := if key in effects then Some(effects[key]) else None;
    }

    method CreateEffect(key: EffectKey, e: Effect) returns (r: Result<Effect>)
      modifies this
      ensures match EffectCreated(old(effects), key, e)
              case Ok(new_) => effects == new_ && r == Ok(new_[key])
              case Err(error) => effects == old(effects) && r == Err(error)
    {
      if key in effects {
        return Ok(effects[key]);
      }
      if IdTaken(effects, e.id) {
        return Err(Internal("standalone effect create failed"));
      }
      effects := effects[key := e];
      return Ok(e);
    }

    method UpdateEffect(id: string, status: string, resultRef: Option<string>,
        error: Option<string>) returns (r: Option<Effect>)
      modifies this
      ensures effects == EffectUpdated(old(effects), id, status, resultRef, error)
      ensures r.Some? <==> IdTaken(old(effects), id)
      ensures r.Some? ==> r.value.id == id && r.value.status == status && r.value.resultRef == resultRef && r.value.error == error
    {
      var before := effects;
      effects := EffectUpdated(before, id, status, resultRef, error);
      if k :| k in before && before[k].id == id {
        return Some(effects[k]);
      }
      return None;
    }
  }

  // ---------------------------------------------------------------------------------------
  // One attempt

  datatype Handoff = Handoff(parentSession: string, hookId: string, turnId: string, forkPoint: int, seedText: string)

  function Suffix(h: Handoff): string {
    h.hookId + ":" + h.turnId + ":" + Decimal(h.forkPoint)
  }

  function KeyOf(h: Handoff): EffectKey {
    EffectKey(h.parentSession, EFFECT_TYPE, EFFECT_TYPE + ":" + Suffix(h))
  }

  function RequestOf(h: Handoff): ForkRequest {
    ForkRequest(h.parentSession, h.forkPoint, "hook_fork_handoff:" + Suffix(h))
  }

  /** One key, one fork request: handoffs share a row exactly if they share the child. */
  lemma {:induction false} SameKeySameRequest(a: Handoff, b: Handoff)
    ensures KeyOf(a) == KeyOf(b) <==> RequestOf(a) == RequestOf(b)
  {
    hide Decimal;
    var x, y := Suffix(a), Suffix(b);
    var p, q := EFFECT_TYPE + ":", "hook_fork_handoff:";
    if p + x == p + y { ForkIds.Heads(p, x, p, y); }
    if q + x == q + y { ForkIds.Heads(q, x, q, y); }
    if x == y { SameSuffixSamePoint(a, b); }
  }

  lemma SameSuffixSamePoint(a: Handoff, b: Handoff)
    requires Suffix(a) == Suffix(b)
    ensures a.forkPoint == b.forkPoint && a.hookId + ":" + a.turnId == b.hookId + ":" + b.turnId
  {
    var x, y := a.hookId + ":" + a.turnId, b.hookId + ":" + b.turnId;
    var c, d := Decimal(a.forkPoint), Decimal(b.forkPoint);
    ForkIds.NoColon(a.forkPoint);
    ForkIds.NoColon(b.forkPoint);
    hide Decimal;
    ForkIds.LastColon(x, c, y, d);
    DecimalInjective(a.forkPoint, b.forkPoint);
  }

  /** Handoffs whose hook and turn ids have no colon share a row exactly if they agree in all but the seed. */
  lemma {:induction false} KeysTellHandoffsApart(a: Handoff, b: Handoff)
    requires ':' !in a.hookId && ':' !in b.hookId
    ensures KeyOf(a) == KeyOf(b) <==>
            a.parentSession == b.parentSession && a.hookId == b.hookId && a.turnId == b.turnId && a.forkPoint == b.forkPoint
  {
    SameKeySameRequest(a, b);
    hide Decimal;
    var p := EFFECT_TYPE + ":";
    if KeyOf(a) == KeyOf(b) {
      ForkIds.Heads(p, Suffix(a), p, Suffix(b));
      SameSuffixSamePoint(a, b);
      Assoc(a.hookId, ":", a.turnId);
      Assoc(b.hookId, ":", b.turnId);
      ForkIds.FirstColon(a.hookId, a.turnId, b.hookId, b.turnId);
    }
  }

  /** What the seeded send, and everything else that runs meanwhile, does to the tables; and whether it succeeds. */
  type SeededSend = (Db, string, string) -> (Db, Option<string>)

  /** What one attempt meets: the ids it generates, the keys others hold, and its seeded send. */
  datatype Attempt = Attempt(effectId: string, generated: Generated, held: set<string>, seededSend: SeededSend)

  /** `sent` lists the sessions into which a seeded send succeeded, `children` the soul sessions that forks made. */
  datatype State = State(db: Db, effects: map<EffectKey, Effect>, sent: seq<string>, children: seq<string>)

  function RenderForkError(e: ForkError): string {
    match e
    case ForkBusy => "fork busy"
    case ParentNotFound => "parent session not found"
    case InvalidForkPoint(m) => m
    case ForkInternal(m) => m
  }

  datatype RunResult = Done(session: string) | NotDone(child: Option<string>, error: string)

  function HandoffRun(s: State, uuid5: string -> string, h: Handoff, a: Attempt): (State, RunResult)
    requires Indexed(s.db.souls, s.db.bySession)
  {
    var (db, _, outcome) := ForkSession(s.db, a.held, uuid5, RequestOf(h), a.generated);
    var children := if db.souls == s.db.souls then s.children else s.children + [a.generated.soul];
    match outcome
    case ForkFailed(e) => (s.(db := db, children := children), NotDone(None, RenderForkError(e)))
    case Forked(result) =>
      var (db', error) := a.seededSend(db, result.newSession, h.seedText);
      if error.Some? then
        (s.(db := db', children := children), NotDone(Some(result.newSession), error.value))
      else
        (s.(db := db', children := children, sent := s.sent + [result.newSession]), Done(result.newSession))
  }

  function Finished(s: State, effectId: string, prior: Option<string>, run: RunResult): State {
    match run
    case Done(session) => s.(effects := EffectUpdated(s.effects, effectId, "completed", Some(session), None))
    case NotDone(child, error) =>
      s.(effects := EffectUpdated(s.effects, effectId, "failed", child.OrElse(prior), Some(error)))
  }

  /** `execute_fork_handoff`, with ledger writes that succeed. */
  function Attempted(s: State, uuid5: string -> string, h: Handoff, a: Attempt): State
    requires Indexed(s.db.souls, s.db.bySession)
  {
    var key := KeyOf(h);
    if key in s.effects then
      var existing := s.effects[key];
      if existing.status == "completed" then s
      else
        var (s', run) := HandoffRun(s, uuid5, h, a);
        Finished(s', existing.id, existing.resultRef, run)
    else
      match EffectCreated(s.effects, key, Effect(a.effectId, "started", h.hookId, h.turnId, None, None))
      case Err(_) => s
      case Ok(effects) =>
        var (s', run) := HandoffRun(s.(effects := effects), uuid5, h, a);
        Finished(s', a.effectId, None, run)
  }

  // ---------------------------------------------------------------------------------------
  // Attempts for one key, one after the other

  datatype Round =
    | Try(seedText: string, attempt: Attempt)
    | Meanwhile(ops: seq<Op>, effects: map<EffectKey, Effect>)

  /** The generated soul-session id is new, and the seeded send only extends the tables. */
  ghost predicate Runs(db: Db, uuid5: string -> string, h: Handoff, a: Attempt) {
    && Consistent(db) && a.generated.soul !in db.souls
    && var forked := ForkSession(db, a.held, uuid5, RequestOf(h), a.generated).0;
       var after := a.seededSend(forked, ChildSession(uuid5, RequestOf(h)), h.seedText).0;
       Consistent(after) && Grows(forked, after)
  }

  ghost predicate Enabled(s: State, uuid5: string -> string, h: Handoff, a: Attempt) {
    Runs(s.db, uuid5, h, a) && !IdTaken(s.effects, a.effectId)
  }

  /** Effects of other keys may change as they like; the row of this key stays, with its own id. */
  ghost predicate KeepsRow(a: map<EffectKey, Effect>, b: map<EffectKey, Effect>, key: EffectKey) {
    && (key in a <==> key in b)
    && (key in b ==> b[key] == a[key] && Alone(b, key))
  }

  ghost predicate Alone(effects: map<EffectKey, Effect>, key: EffectKey)
    requires key in effects
  {
    forall k :: k in effects && k != key ==> effects[k].id != effects[key].id
  }

  ghost function Next(s: State, uuid5: string -> string, h: Handoff, round: Round): State {
    match round
    case Try(seed, a) =>
      if Enabled(s, uuid5, h.(seedText := seed), a) then Attempted(s, uuid5, h.(seedText := seed), a) else s
    case Meanwhile(ops, effects) =>
      if KeepsRow(s.effects, effects, KeyOf(h)) then s.(db := After(s.db, ops), effects := effects) else s
  }

  ghost function Run(uuid5: string -> string, h: Handoff, rounds: seq<Round>): State {
    if rounds == [] then State(EMPTY, map[], [], [])
    else Next(Run(uuid5, h, rounds[..|rounds| - 1]), uuid5, h, rounds[|rounds| - 1])
  }

  /** The row of the key, as the attempts leave it. */
  ghost predicate RowOk(e: Effect, db: Db, uuid5: string -> string, r: ForkRequest, sent: seq<string>) {
    && (e.resultRef.Some? ==> e.resultRef.value == ChildSession(uuid5, r) && ChildOf(db, uuid5, r))
    && (e.status == "completed" ==> e.resultRef.Some?)
    && sent == if e.status == "completed" then [ChildSession(uuid5, r)] else []
  }

  ghost predicate Inv(s: State, uuid5: string -> string, h: Handoff) {
    && Consistent(s.db)
    && (KeyOf(h) in s.effects ==> Alone(s.effects, KeyOf(h)) && RowOk(s.effects[KeyOf(h)], s.db, uuid5, RequestOf(h), s.sent))
    && (KeyOf(h) !in s.effects ==> s.sent == [])
    && |s.children| <= 1 && (s.children != [] ==> ChildOf(s.db, uuid5, RequestOf(h)))
  }

  lemma RowStays(e: Effect, db: Db, later: Db, uuid5: string -> string, r: ForkRequest, sent: seq<string>)
    requires RowOk(e, db, uuid5, r, sent) && Consistent(db) && Consistent(later) && Grows(db, later)
    ensures RowOk(e, later, uuid5, r, sent)
  {
    hide Consistent, ChildOf, ChildSession;
    if e.resultRef.Some? { ChildStays(db, later, uuid5, r); }
  }

  /** The row that a run leaves, given the row before it. */
  lemma UpdatedRow(effects: map<EffectKey, Effect>, key: EffectKey, status: string, ref: Option<string>,
      error: Option<string>)
    requires key in effects && Alone(effects, key)
    ensures var effects' := EffectUpdated(effects, effects[key].id, status, ref, error);
            && key in effects' && Alone(effects', key)
            && effects'[key] == effects[key].(status := status, resultRef := ref, error := error)
            && forall k :: k in effects && k != key ==> k in effects' && effects'[k] == effects[k]
  {
  }

  /** The tables and the children after the fork and the send of one run. */
  lemma {:induction false} RunDb(s: State, uuid5: string -> string, h: Handoff, a: Attempt)
    requires Runs(s.db, uuid5, h, a)
    requires |s.children| <= 1 && (s.children != [] ==> ChildOf(s.db, uuid5, RequestOf(h)))
    ensures var (s', run) := HandoffRun(s, uuid5, h, a);
            && Consistent(s'.db) && Grows(s.db, s'.db) && s'.effects == s.effects
            && |s'.children| <= 1 && (s'.children != [] ==> ChildOf(s'.db, uuid5, RequestOf(h)))
            && (run.Done? ==> run.session == ChildSession(uuid5, RequestOf(h)) && ChildOf(s'.db, uuid5, RequestOf(h))
                              && s'.sent == s.sent + [run.session])
            && (run.NotDone? ==> s'.sent == s.sent)
            && (run.NotDone? && run.child.Some? ==> run.child.value == ChildSession(uuid5, RequestOf(h)) && ChildOf(s'.db, uuid5, RequestOf(h)))
  {
    hide ChildOf, ChildSession, Dense, CallsOnce, Indexed, Grows, ForkSession;
    var r := RequestOf(h);
    OkForkHasTheCallersLineage(s.db, a.held, uuid5, r, a.generated);
    ForkKeeps(s.db, a.held, uuid5, r, a.generated);
    ForkMakesAtMostOne(s.db, a.held, uuid5, r, a.generated);
    var (db, held, outcome) := ForkSession(s.db, a.held, uuid5, r, a.generated);
    var db' := a.seededSend(db, ChildSession(uuid5, r), h.seedText).0;
    GrowsTransitive(s.db, db, db');
    if ChildOf(s.db, uuid5, r) { ChildStays(s.db, db, uuid5, r); }
    if ChildOf(db, uuid5, r) { ChildStays(db, db', uuid5, r); }
  }

  /** A fork adds a soul session only when it succeeds in making the child, which was not there. */
  lemma ForkMakesAtMostOne(db: Db, held: set<string>, uuid5: string -> string, r: ForkRequest, generated: Generated)
    requires Consistent(db) && generated.soul !in db.souls
    ensures var (db', _, outcome) := ForkSession(db, held, uuid5, r, generated);
            db'.souls != db.souls ==> outcome.Forked? && !ChildOf(db, uuid5, r)
  {
    hide Dense, CallsOnce, ChildSession, CopyAll, RowsUpTo, SessionRows, ForkedSoul, LockKey;
  }

  lemma UpdateKeepsInv(s: State, uuid5: string -> string, h: Handoff, status: string, ref: Option<string>,
      error: Option<string>)
    requires Consistent(s.db) && KeyOf(h) in s.effects && Alone(s.effects, KeyOf(h))
    requires |s.children| <= 1 && (s.children != [] ==> ChildOf(s.db, uuid5, RequestOf(h)))
    requires RowOk(s.effects[KeyOf(h)].(status := status, resultRef := ref, error := error), s.db, uuid5, RequestOf(h), s.sent)
    ensures Inv(s.(effects := EffectUpdated(s.effects, s.effects[KeyOf(h)].id, status, ref, error)), uuid5, h)
  {
    hide KeyOf, RequestOf, ChildOf, Consistent, EffectUpdated, Alone, RowOk;
    UpdatedRow(s.effects, KeyOf(h), status, ref, error);
  }

  /** A run from a row that is not completed leaves a sound row. */
  lemma {:induction false} FinishedKeeps(s: State, uuid5: string -> string, h: Handoff, a: Attempt)
    requires Inv(s, uuid5, h) && KeyOf(h) in s.effects && s.effects[KeyOf(h)].status != "completed" && Runs(s.db, uuid5, h, a)
    ensures var (s', run) := HandoffRun(s, uuid5, h, a);
            Inv(Finished(s', s.effects[KeyOf(h)].id, s.effects[KeyOf(h)].resultRef, run), uuid5, h)
  {
    var row := s.effects[KeyOf(h)];
    hide KeyOf, RequestOf, ChildOf, ChildSession, Indexed, Dense, CallsOnce, EffectUpdated, Grows, Alone, HandoffRun, Runs;
    RunDb(s, uuid5, h, a);
    RunsHere(s.db, uuid5, h, a);
    var (s', run) := HandoffRun(s, uuid5, h, a);
    RowStays(row, s.db, s'.db, uuid5, RequestOf(h), s.sent);
    hide Inv, Consistent;
    if run.Done? {
      UpdateKeepsInv(s', uuid5, h, "completed", Some(run.session), None);
    } else {
      UpdateKeepsInv(s', uuid5, h, "failed", run.child.OrElse(row.resultRef), Some(run.error));
    }
  }

  lemma RunsHere(db: Db, uuid5: string -> string, h: Handoff, a: Attempt)
    requires Runs(db, uuid5, h, a)
    ensures Consistent(db)
  {
  }

  lemma CreatedRow(s: State, uuid5: string -> string, h: Handoff, a: Attempt)
    requires Inv(s, uuid5, h) && KeyOf(h) !in s.effects && !IdTaken(s.effects, a.effectId)
    ensures Inv(s.(effects := s.effects[KeyOf(h) := Effect(a.effectId, "started", h.hookId, h.turnId, None, None)]), uuid5, h)
  {
    hide KeyOf, RequestOf, ChildOf, ChildSession, Consistent;
  }

  lemma {:induction false} ExecutedKeepsInv(s: State, uuid5: string -> string, h: Handoff, a: Attempt)
    requires Inv(s, uuid5, h) && Enabled(s, uuid5, h, a)
    ensures Inv(Attempted(s, uuid5, h, a), uuid5, h)
  {
    hide KeyOf, RequestOf, ChildOf, ChildSession, Indexed, Dense, CallsOnce, EffectUpdated, Grows, Alone, HandoffRun, Finished, Inv;
    if KeyOf(h) in s.effects {
      if s.effects[KeyOf(h)].status != "completed" { FinishedKeeps(s, uuid5, h, a); }
    } else {
      CreatedRow(s, uuid5, h, a);
      FinishedCreated(s, uuid5, h, a);
    }
  }

  lemma {:induction false} FinishedCreated(s: State, uuid5: string -> string, h: Handoff, a: Attempt)
    requires Inv(s, uuid5, h) && Enabled(s, uuid5, h, a) && KeyOf(h) !in s.effects
    ensures var effects := s.effects[KeyOf(h) := Effect(a.effectId, "started", h.hookId, h.turnId, None, None)];
            var (s', run) := HandoffRun(s.(effects := effects), uuid5, h, a);
            Inv(Finished(s', a.effectId, None, run), uuid5, h)
  {
    hide KeyOf, RequestOf, ChildOf, ChildSession, Indexed, Dense, CallsOnce, EffectUpdated, Grows, Alone, Finished;
    CreatedRow(s, uuid5, h, a);
    hide Inv;
    var created := s.(effects := s.effects[KeyOf(h) := Effect(a.effectId, "started", h.hookId, h.turnId, None, None)]);
    FinishedKeeps(created, uuid5, h, a);
  }

  lemma {:induction false} RunKeepsInv(uuid5: string -> string, h: Handoff, rounds: seq<Round>)
    ensures Inv(Run(uuid5, h, rounds), uuid5, h)
  {
    hide Attempted, ChildOf, ChildSession, Grows, KeyOf, After;
    if rounds != [] {
      var s := Run(uuid5, h, rounds[..|rounds| - 1]);
      RunKeepsInv(uuid5, h, rounds[..|rounds| - 1]);
      NextKeepsInv(s, uuid5, h, rounds[|rounds| - 1]);
    }
  }

  lemma SeedDoesNotMatter(h: Handoff, seed: string)
    ensures KeyOf(h.(seedText := seed)) == KeyOf(h) && RequestOf(h.(seedText := seed)) == RequestOf(h)
  {
  }

  lemma {:induction false} NextKeepsInv(s: State, uuid5: string -> string, h: Handoff, round: Round)
    requires Inv(s, uuid5, h)
    ensures Inv(Next(s, uuid5, h, round), uuid5, h)
  {
    match round {
      case Try(seed, a) =>
        SeedDoesNotMatter(h, seed);
        hide KeyOf, RequestOf, ChildOf, ChildSession, Attempted, Consistent, RowOk;
        if Enabled(s, uuid5, h.(seedText := seed), a) { ExecutedKeepsInv(s, uuid5, h.(seedText := seed), a); }
      case Meanwhile(ops, effects) =>
        hide KeyOf, RequestOf, ChildOf, ChildSession, Consistent, Grows, After, RowOk;
        AfterKeeps(s.db, ops);
        if ChildOf(s.db, uuid5, RequestOf(h)) { ChildStays(s.db, After(s.db, ops), uuid5, RequestOf(h)); }
        if KeyOf(h) in s.effects { RowStays(s.effects[KeyOf(h)], s.db, After(s.db, ops), uuid5, RequestOf(h), s.sent); }
    }
  }

  /**
   Over any number of attempts for one key, one after the other, with other work in between: at most
   one child is made and at most one seeded send succeeds, into that child, and exactly when the
   row says so is it completed.
   */
  lemma {:induction false} HandoffHappensOnce(uuid5: string -> string, h: Handoff, rounds: seq<Round>)
    ensures var s := Run(uuid5, h, rounds);
            && |s.children| <= 1 && |s.sent| <= 1
            && (s.sent != [] ==> s.sent == [ChildSession(uuid5, RequestOf(h))] && ChildOf(s.db, uuid5, RequestOf(h)))
            && (s.sent != [] <==> KeyOf(h) in s.effects && s.effects[KeyOf(h)].status == "completed")
            && (KeyOf(h) in s.effects && s.effects[KeyOf(h)].resultRef.Some? ==>
                  s.effects[KeyOf(h)].resultRef.value == ChildSession(uuid5, RequestOf(h)) && ChildOf(s.db, uuid5, RequestOf(h)))
  {
    RunKeepsInv(uuid5, h, rounds);
    hide Run, KeyOf, RequestOf, ChildOf, ChildSession, Consistent;
  }

  /** What a later round may not undo: a completed row, and a result reference once it is set. */
  ghost predicate Settles(a: State, b: State, key: EffectKey) {
    && (key in a.effects ==> key in b.effects)
    && (key in a.effects && a.effects[key].resultRef.Some? ==> b.effects[key].resultRef == a.effects[key].resultRef)
    && (key in a.effects && a.effects[key].status == "completed" ==>
          b.effects[key] == a.effects[key] && b.sent == a.sent && b.children == a.children)
  }

  lemma {:induction false} NextSettles(s: State, uuid5: string -> string, h: Handoff, round: Round)
    requires Inv(s, uuid5, h) && Inv(Next(s, uuid5, h, round), uuid5, h)
    ensures Settles(s, Next(s, uuid5, h, round), KeyOf(h))
  {
    hide RequestOf, ChildOf, ChildSession, Consistent, After;
    if round.Try? {
      var h' := h.(seedText := round.seedText);
      SeedDoesNotMatter(h, round.seedText);
      hide KeyOf;
      if Enabled(s, uuid5, h', round.attempt) && KeyOf(h) in s.effects && s.effects[KeyOf(h)].status != "completed" {
        ExecutedKeepsRow(s, uuid5, h', round.attempt);
      }
    }
  }

  lemma {:induction false} ExecutedKeepsRow(s: State, uuid5: string -> string, h: Handoff, a: Attempt)
    requires Inv(s, uuid5, h) && Enabled(s, uuid5, h, a) && KeyOf(h) in s.effects && s.effects[KeyOf(h)].status != "completed"
    ensures KeyOf(h) in Attempted(s, uuid5, h, a).effects
    ensures s.effects[KeyOf(h)].resultRef.Some? ==> Attempted(s, uuid5, h, a).effects[KeyOf(h)].resultRef == s.effects[KeyOf(h)].resultRef
  {
    var row := s.effects[KeyOf(h)];
    hide KeyOf, RequestOf, ChildOf, ChildSession, Indexed, Dense, CallsOnce, EffectUpdated, Grows, Alone, HandoffRun, Runs;
    RunDb(s, uuid5, h, a);
    var (s', run) := HandoffRun(s, uuid5, h, a);
    if run.Done? {
      UpdatedRow(s.effects, KeyOf(h), "completed", Some(run.session), None);
    } else {
      UpdatedRow(s.effects, KeyOf(h), "failed", run.child.OrElse(row.resultRef), Some(run.error));
    }
  }

  /** A completed effect stays as it is, and a result reference once set never changes or clears. */
  lemma {:induction false} OutcomeIsFinal(uuid5: string -> string, h: Handoff, rounds: seq<Round>, n: nat)
    requires n <= |rounds|
    ensures Settles(Run(uuid5, h, rounds[..n]), Run(uuid5, h, rounds), KeyOf(h))
  {
    hide Next, KeyOf;
    if n == |rounds| {
      assert rounds[..n] == rounds;
    } else {
      var init := rounds[..|rounds| - 1];
      assert init[..n] == rounds[..n];
      OutcomeIsFinal(uuid5, h, init, n);
      RunKeepsInv(uuid5, h, init);
      RunKeepsInv(uuid5, h, rounds);
      hide Inv;
      NextSettles(Run(uuid5, h, init), uuid5, h, rounds[|rounds| - 1]);
    }
  }

  /**
   A retry after a failed send reuses the child: with the parent's key free and a send that succeeds,
   it completes with the reference that the failed row had, and makes no soul session of its own.
   */
  lemma {:induction false} RetryReusesTheChild(s: State, uuid5: string -> string, h: Handoff, a: Attempt)
    requires Inv(s, uuid5, h) && KeyOf(h) in s.effects
    requires s.effects[KeyOf(h)].status != "completed" && s.effects[KeyOf(h)].resultRef.Some?
    requires LockKey(h.parentSession) !in a.held
    requires a.seededSend(s.db, s.effects[KeyOf(h)].resultRef.value, h.seedText).1.None?
    ensures var s' := Attempted(s, uuid5, h, a);
            && KeyOf(h) in s'.effects && s'.effects[KeyOf(h)].status == "completed"
            && s'.effects[KeyOf(h)].resultRef == s.effects[KeyOf(h)].resultRef
            && s'.children == s.children && s'.sent == [s.effects[KeyOf(h)].resultRef.value]
  {
    hide ChildOf, ChildSession, Indexed, Dense, CallsOnce, EffectUpdated, Grows, Alone, ForkSession, LockKey;
    ExistingChildIsReturned(s.db, a.held, uuid5, RequestOf(h), a.generated);
    UpdatedRow(s.effects, KeyOf(h), "completed", s.effects[KeyOf(h)].resultRef, None);
  }

  /** A run into a child that is there already makes none, and seeds it if the parent's key is free. */
  lemma {:induction false} RunIntoTheChild(s: State, uuid5: string -> string, h: Handoff, a: Attempt)
    requires Consistent(s.db) && ChildOf(s.db, uuid5, RequestOf(h))
    ensures var child := ChildSession(uuid5, RequestOf(h));
            var sends, (after, error) := LockKey(h.parentSession) !in a.held, a.seededSend(s.db, child, h.seedText);
            HandoffRun(s, uuid5, h, a) ==
            if !sends then (s, NotDone(None, "fork busy"))
            else (s.(db := after, sent := if error.None? then s.sent + [child] else s.sent),
                  if error.None? then Done(child) else NotDone(Some(child), error.value))
  {
    ExistingChildIsReturned(s.db, a.held, uuid5, RequestOf(h), a.generated);
    hide ForkSession, ChildSession, ChildOf, Dense, CallsOnce, LockKey;
    if LockKey(h.parentSession) !in a.held {
      var (after, error) := a.seededSend(s.db, ChildSession(uuid5, RequestOf(h)), h.seedText);
      assert error.Some? ==> s.(db := after) == s.(db := after, sent := s.sent);
    }
  }

  /**
   The service updates by the id it generated, not by that of the row `create_effect` returned: an
   attempt that finds no row, and whose row another attempt creates first, can finish nothing. It is
   told that the effect disappeared, and the row of the key is left to the other attempt. But it does
   run: with the child there and the parent's key free it seeds the child, once more if the other
   attempt did.
   */
  lemma {:induction false} LateAttemptFinishesNothing(s: State, uuid5: string -> string, h: Handoff, a: Attempt,
      prior: Option<string>)
    requires Consistent(s.db) && KeyOf(h) in s.effects && !IdTaken(s.effects, a.effectId)
    ensures EffectCreated(s.effects, KeyOf(h), Effect(a.effectId, "started", h.hookId, h.turnId, None, None)) == Ok(s.effects)
    ensures var (ran, run) := HandoffRun(s, uuid5, h, a);
            Finished(ran, a.effectId, prior, run) == ran && ran.effects == s.effects
    ensures ChildOf(s.db, uuid5, RequestOf(h)) && LockKey(h.parentSession) !in a.held ==>
              var child := ChildSession(uuid5, RequestOf(h));
              var ran, (after, error) := HandoffRun(s, uuid5, h, a).0, a.seededSend(s.db, child, h.seedText);
              ran == s.(db := after, sent := if error.None? then s.sent + [child] else s.sent)
  {
    assert forall k :: k in s.effects ==> s.effects[k].id != a.effectId;
    assert HandoffRun(s, uuid5, h, a).0.effects == s.effects by { hide ForkSession; }
    hide HandoffRun, ForkSession, ChildSession, ChildOf, Consistent, LockKey, KeyOf;
    assert RequestOf(h).parentSession == h.parentSession;
    if ChildOf(s.db, uuid5, RequestOf(h)) && LockKey(h.parentSession) !in a.held {
      RunIntoTheChild(s, uuid5, h, a);
    }
  }

  // ---------------------------------------------------------------------------------------
  // The service

  datatype Report = Recorded(effect: Effect) | Failure(message: string)

  class SessionEffectService {
    const ledger: StandaloneEffectLedger
    const fork: SessionForkService

    constructor (ledger: StandaloneEffectLedger, fork: SessionForkService)
      ensures this.ledger == ledger && this.fork == fork
    {
      this.ledger, this.fork := ledger, fork;
    }

    ghost predicate Wired()
      reads this, fork, fork.pool, fork.soulRuntime
    {
      fork.soulRuntime.pool == fork.pool && Consistent(fork.pool.db)
    }

    /** The tables as one state; what was sent and made is not stored. */
    ghost function Now(): State
      reads this, ledger, fork, fork.pool
    {
      State(fork.pool.db, ledger.effects, [], [])
    }

    /** A call gets to the fork unless the row is completed or cannot be created. */
    ghost predicate Attempts(effects: map<EffectKey, Effect>, h: Handoff, a: Attempt) {
      if KeyOf(h) in effects then effects[KeyOf(h)].status != "completed" else !IdTaken(effects, a.effectId)
    }

    ghost function RowId(effects: map<EffectKey, Effect>, h: Handoff, a: Attempt): string {
      if KeyOf(h) in effects then effects[KeyOf(h)].id else a.effectId
    }

    ghost function HeldAfter(s: State, uuid5: string -> string, h: Handoff, a: Attempt): set<string>
      requires Indexed(s.db.souls, s.db.bySession)
    {
      ForkSession(s.db, a.held, uuid5, RequestOf(h), a.generated).1
    }

    method ExecuteForkHandoff(uuid5: string -> string, h: Handoff, a: Attempt) returns (r: Report)
      requires Wired() && fork.lock.held == a.held
      modifies ledger, fork.pool, fork.lock
      ensures var s := Attempted(old(Now()), uuid5, h, a);
              fork.pool.db == s.db && ledger.effects == s.effects
      ensures fork.lock.held == if Attempts(old(ledger.effects), h, a) then HeldAfter(old(Now()), uuid5, h, a) else a.held
      ensures KeyOf(h) in old(ledger.effects) && old(ledger.effects)[KeyOf(h)].status == "completed" ==>
                r == Recorded(old(ledger.effects)[KeyOf(h)])
      ensures Attempts(old(ledger.effects), h, a) ==>
                r.Recorded? && r.effect.id == RowId(old(ledger.effects), h, a) && r.effect.status != "started"
      ensures Attempts(old(ledger.effects), h, a) ==>
                (r.effect.status == "completed" <==> HandoffRun(old(Now()), uuid5, h, a).1.Done?)
      ensures KeyOf(h) !in old(ledger.effects) && IdTaken(old(ledger.effects), a.effectId) ==> r.Failure?
    {
      hide KeyOf, RequestOf, Indexed, Dense, CallsOnce, ForkSession, EffectUpdated;
      var key := KeyOf(h);
      var existing := ledger.GetEffect(key);
      if existing.Some? {
        if existing.value.status == "completed" {
          return Recorded(existing.value);
        }
        var rerun := RunForkHandoff(uuid5, h, a);
        r := FinishEffect(existing.value.id, existing.value.resultRef, rerun);
        return;
      }
      var created := ledger.CreateEffect(key, Effect(a.effectId, "started", h.hookId, h.turnId, None, None));
      if created.Err? {
        return Failure("effect not created");
      }
      var run := RunForkHandoff(uuid5, h, a);
      r := FinishEffect(a.effectId, created.value.resultRef, run);
    }

    method RunForkHandoff(uuid5: string -> string, h: Handoff, a: Attempt) returns (run: RunResult)
      requires Wired() && fork.lock.held == a.held
      modifies fork.pool, fork.lock
      ensures var (s, expected) := HandoffRun(old(Now()), uuid5, h, a);
              fork.pool.db == s.db && run == expected
      ensures fork.lock.held == HeldAfter(old(Now()), uuid5, h, a)
    {
      hide RequestOf, Indexed, Dense, CallsOnce, ForkSession;
      var forked := fork.Fork(uuid5, RequestOf(h), a.generated);
      if forked.ForkFailed? {
        return NotDone(None, RenderForkError(forked.error));
      }
      var (after, error) := a.seededSend(fork.pool.db, forked.result.newSession, h.seedText);
      fork.pool.db := after;
      if error.Some? {
        return NotDone(Some(forked.result.newSession), error.value);
      }
      return Done(forked.result.newSession);
    }

    method FinishEffect(effectId: string, prior: Option<string>, run: RunResult) returns (r: Report)
      modifies ledger
      ensures ledger.effects == Finished(old(Now()), effectId, prior, run).effects
      ensures !IdTaken(old(ledger.effects), effectId) ==>
                r == Failure(if run.Done? then "effect disappeared before completion" else run.error)
      ensures IdTaken(old(ledger.effects), effectId) ==>
                r.Recorded? && r.effect.id == effectId && r.effect.status == if run.Done? then "completed" else "failed"
      ensures IdTaken(old(ledger.effects), effectId) ==>
                && r.effect.resultRef == (if run.Done? then Some(run.session) else run.child.OrElse(prior))
                && r.effect.error == if run.Done? then None else Some(run.error)
    {
      var row: Option<Effect>;
      match run {
        case Done(session) =>
          row := ledger.UpdateEffect(effectId, "completed", Some(session), None);
          return if row.Some? then Recorded(row.value) else Failure("effect disappeared before completion");
        case NotDone(child, error) =>
          row := ledger.UpdateEffect(effectId, "failed", child.OrElse(prior), Some(error));
          return if row.Some? then Recorded(row.value) else Failure(error);
      }
    }
  }
}
