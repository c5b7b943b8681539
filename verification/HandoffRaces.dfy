/**
 Attempts of one fork handoff that overlap: each is a sequence of steps which interleaves with the
 steps of the others and may be cut off anywhere.
 */
module HandoffRaces {
  import opened Common
  import opened StandaloneDb
  import opened SoulRuntime
  import opened StandaloneLock
  import opened ForkService
  import opened ForkHandoff

  /**
   Where an attempt is: it found no row and has generated the id for one; it is about to fork; to
   send; to write the outcome; it has ended or was cut off. `prior` is the reference that it read.
   */
  datatype Phase =
    | Missing(id: string)
    | Looked(id: string, prior: Option<string>)
    | HasChild(id: string, prior: Option<string>)
    | Ran(id: string, prior: Option<string>, run: RunResult)
    | Over

  /**
   The rows, the attempts and what they did: `issued` are the generated effect ids, `senders` the
   attempts whose seeded send succeeded, `children` the soul sessions that forks made.
   */
  datatype Book = Book(effects: map<EffectKey, Effect>, attempts: map<nat, Phase>, issued: set<string>,
      senders: seq<nat>, children: seq<string>)

  datatype World = World(db: Db, book: Book)

  const START := World(EMPTY, Book(map[], map[], {}, [], []))

  datatype Step =
    | Look(w: nat, effectId: string)
    | Create(w: nat)
    | Fork(w: nat, held: set<string>, generated: Generated)
    | Send(w: nat, ops: seq<Op>, error: Option<string>)
    | Finish(w: nat)
    | CutOff(w: nat)
    | Others(ops: seq<Op>, effects: map<EffectKey, Effect>)

  /** Others leave the row of this key alone. */
  ghost predicate SameRow(a: map<EffectKey, Effect>, b: map<EffectKey, Effect>, key: EffectKey) {
    (key in a <==> key in b) && (key in a ==> b[key] == a[key])
  }

  /** What a lookup finds. */
  function Found(effects: map<EffectKey, Effect>, key: EffectKey, effectId: string): Phase {
    if key !in effects then Missing(effectId)
    else if effects[key].status == "completed" then Over
    else Looked(effects[key].id, effects[key].resultRef)
  }

  function LookedUp(b: Book, key: EffectKey, w: nat, effectId: string): Book {
    if w in b.attempts || effectId in b.issued then b
    else b.(attempts := b.attempts[w := Found(b.effects, key, effectId)], issued := b.issued + {effectId})
  }

  function Created(b: Book, key: EffectKey, h: Handoff, w: nat): Book {
    if w !in b.attempts || !b.attempts[w].Missing? then b else
      var id := b.attempts[w].id;
      match EffectCreated(b.effects, key, Effect(id, "started", h.hookId, h.turnId, None, None))
      case Err(_) => b.(attempts := b.attempts[w := Over])
      case Ok(effects) => b.(effects := effects, attempts := b.attempts[w := Looked(id, effects[key].resultRef)])
  }

  /** The soul-session id is generated past the lock; the index holds in every reachable store. */
  ghost predicate MayFork(s: World, h: Handoff, w: nat, held: set<string>, generated: Generated) {
    && w in s.book.attempts && s.book.attempts[w].Looked? && Indexed(s.db.souls, s.db.bySession)
    && (LockKey(h.parentSession) in held || generated.soul !in s.db.souls)
  }

  /** A fork that made soul session `made`, found its child there, or failed. */
  function Forked(b: Book, w: nat, made: Option<string>, outcome: ForkOutcome): Book
    requires w in b.attempts && b.attempts[w].Looked?
  {
    var p := b.attempts[w];
    var phase := match outcome
      case ForkFailed(e) => Ran(p.id, p.prior, NotDone(None, RenderForkError(e)))
      case Forked(_) => HasChild(p.id, p.prior);
    b.(attempts := b.attempts[w := phase], children := if made.Some? then b.children + [made.value] else b.children)
  }

  function Sent(b: Book, child: string, w: nat, error: Option<string>): Book
    requires w in b.attempts && b.attempts[w].HasChild?
  {
    var p := b.attempts[w];
    var run := if error.Some? then NotDone(Some(child), error.value) else Done(child);
    b.(attempts := b.attempts[w := Ran(p.id, p.prior, run)],
       senders := if error.Some? then b.senders else b.senders + [w])
  }

  function Recorded(effects: map<EffectKey, Effect>, id: string, prior: Option<string>,
      run: RunResult): map<EffectKey, Effect> {
    match run
    case Done(session) => EffectUpdated(effects, id, "completed", Some(session), None)
    case NotDone(child, error) => EffectUpdated(effects, id, "failed", child.OrElse(prior), Some(error))
  }

  function Ended(b: Book, w: nat): Book {
    if w !in b.attempts || !b.attempts[w].Ran? then b else
      var p := b.attempts[w];
      b.(effects := Recorded(b.effects, p.id, p.prior, p.run), attempts := b.attempts[w := Over])
  }

  function Stopped(b: Book, w: nat): Book {
    if w in b.attempts then b.(attempts := b.attempts[w := Over]) else b
  }

  /** A step that is not possible leaves everything as it is. Generated ids are new. */
  ghost function Next(s: World, uuid5: string -> string, h: Handoff, step: Step): World {
    match step
    case Look(w, effectId) => s.(book := LookedUp(s.book, KeyOf(h), w, effectId))
    case Create(w) => s.(book := Created(s.book, KeyOf(h), h, w))
    case Fork(w, held, generated) =>
      if !MayFork(s, h, w, held, generated) then s else
        var (db, _, outcome) := ForkSession(s.db, held, uuid5, RequestOf(h), generated);
        World(db, Forked(s.book, w, if db.souls == s.db.souls then None else Some(generated.soul), outcome))
    case Send(w, ops, error) =>
      if w in s.book.attempts && s.book.attempts[w].HasChild?
      then World(After(s.db, ops), Sent(s.book, ChildSession(uuid5, RequestOf(h)), w, error)) else s
    case Finish(w) => s.(book := Ended(s.book, w))
    case CutOff(w) => s.(book := Stopped(s.book, w))
    case Others(ops, effects) =>
      if SameRow(s.book.effects, effects, KeyOf(h)) then World(After(s.db, ops), s.book.(effects := effects)) else s
  }

  ghost function Continued(s: World, uuid5: string -> string, h: Handoff, steps: seq<Step>): World {
    if steps == [] then s
    else Next(Continued(s, uuid5, h, steps[..|steps| - 1]), uuid5, h, steps[|steps| - 1])
  }

  // ---------------------------------------------------------------------------------------
  // What every interleaving keeps

  /** A reference, where there is one, is to the child, which has been made. */
  predicate IsChild(ref: Option<string>, child: string, made: bool) {
    ref.Some? ==> ref.value == child && made
  }

  ghost predicate RowSound(e: Effect, b: Book, child: string, made: bool) {
    && IsChild(e.resultRef, child, made) && e.id in b.issued
    && (e.status == "completed" ==> e.resultRef.Some? && e.error.None? && b.senders != [])
  }

  ghost predicate PhaseSound(p: Phase, b: Book, child: string, made: bool) {
    match p
    case Missing(id) => id in b.issued
    case Looked(_, prior) => IsChild(prior, child, made)
    case HasChild(_, prior) => IsChild(prior, child, made) && made
    case Ran(_, prior, Done(session)) => IsChild(Some(session), child, made) && b.senders != []
    case Ran(_, prior, NotDone(ref, _)) => IsChild(prior, child, made) && IsChild(ref, child, made)
    case Over => true
  }

  /** Generated ids of rows still to be made are not that of the row, nor shared. */
  ghost predicate IdsApart(b: Book, key: EffectKey) {
    && (forall w :: w in b.attempts && b.attempts[w].Missing? && key in b.effects ==> b.attempts[w].id != b.effects[key].id)
    && (forall v, w :: v in b.attempts && w in b.attempts && b.attempts[v].Missing? && b.attempts[w].Missing? && v != w ==>
          b.attempts[v].id != b.attempts[w].id)
  }

  /** An attempt that has sent does not send again. */
  ghost predicate SendersOnce(b: Book) {
    && (forall i, j :: 0 <= i < j < |b.senders| ==> b.senders[i] != b.senders[j])
    && (forall w :: w in b.senders ==> w in b.attempts && (b.attempts[w].Ran? || b.attempts[w].Over?))
  }

  ghost predicate Sound(b: Book, key: EffectKey, child: string, made: bool) {
    && |b.children| <= 1 && (b.children != [] || b.senders != [] ==> made)
    && (key in b.effects ==> RowSound(b.effects[key], b, child, made))
    && (forall w :: w in b.attempts ==> PhaseSound(b.attempts[w], b, child, made))
    && IdsApart(b, key) && SendersOnce(b)
  }

  ghost predicate Inv(s: World, uuid5: string -> string, h: Handoff) {
    Consistent(s.db) && Sound(s.book, KeyOf(h), ChildSession(uuid5, RequestOf(h)), ChildOf(s.db, uuid5, RequestOf(h)))
  }

  lemma LookKeeps(b: Book, key: EffectKey, child: string, made: bool, w: nat, effectId: string)
    requires Sound(b, key, child, made)
    ensures Sound(LookedUp(b, key, w, effectId), key, child, made)
  {
  }

  lemma CreateKeeps(b: Book, key: EffectKey, child: string, made: bool, h: Handoff, w: nat)
    requires Sound(b, key, child, made)
    ensures Sound(Created(b, key, h, w), key, child, made)
  {
  }

  lemma ForkKeepsBook(b: Book, key: EffectKey, child: string, made: bool, w: nat, soul: Option<string>,
      outcome: ForkOutcome,
      made': bool)
    requires Sound(b, key, child, made) && w in b.attempts && b.attempts[w].Looked?
    requires made ==> made'
    requires outcome.Forked? ==> made'
    requires soul.Some? ==> made' && !made
    ensures Sound(Forked(b, w, soul, outcome), key, child, made')
  {
  }

  lemma SendKeeps(b: Book, key: EffectKey, child: string, made: bool, w: nat, error: Option<string>)
    requires Sound(b, key, child, made) && w in b.attempts && b.attempts[w].HasChild?
    ensures Sound(Sent(b, child, w, error), key, child, made)
  {
  }

  lemma FinishKeeps(b: Book, key: EffectKey, child: string, made: bool, w: nat)
    requires Sound(b, key, child, made)
    ensures Sound(Ended(b, w), key, child, made)
  {
  }

  lemma CutKeeps(b: Book, key: EffectKey, child: string, made: bool, w: nat)
    requires Sound(b, key, child, made)
    ensures Sound(Stopped(b, w), key, child, made)
  {
  }

  lemma OthersKeep(b: Book, key: EffectKey, child: string, made: bool, effects: map<EffectKey, Effect>)
    requires Sound(b, key, child, made) && SameRow(b.effects, effects, key)
    ensures Sound(b.(effects := effects), key, child, made)
  {
  }

  lemma MadeStays(b: Book, key: EffectKey, child: string, made: bool, made': bool)
    requires Sound(b, key, child, made) && (made ==> made')
    ensures Sound(b, key, child, made')
  {
  }

  lemma {:induction false} ForkAddsTheChild(db: Db, held: set<string>, uuid5: string -> string, r: ForkRequest,
      generated: Generated)
    requires Consistent(db) && (LockKey(r.parentSession) in held || generated.soul !in db.souls)
    ensures var (db', _, outcome) := ForkSession(db, held, uuid5, r, generated);
            && Consistent(db') && (ChildOf(db, uuid5, r) || outcome.Forked? ==> ChildOf(db', uuid5, r))
            && (db'.souls != db.souls ==> ChildOf(db', uuid5, r) && !ChildOf(db, uuid5, r))
  {
    ForkKeeps(db, held, uuid5, r, generated);
    var db' := ForkSession(db, held, uuid5, r, generated).0;
    hide ChildOf, Consistent, Grows;
    if ChildOf(db, uuid5, r) { ChildStays(db, db', uuid5, r); }
    if generated.soul !in db.souls {
      hide ForkSession;
      OkForkHasTheCallersLineage(db, held, uuid5, r, generated);
      ForkMakesAtMostOne(db, held, uuid5, r, generated);
    }
  }

  /** Other work grows the tables and leaves the child where it is. */
  lemma AfterKeepsChild(db: Db, ops: seq<Op>, uuid5: string -> string, r: ForkRequest)
    requires Consistent(db)
    ensures Consistent(After(db, ops)) && (ChildOf(db, uuid5, r) ==> ChildOf(After(db, ops), uuid5, r))
  {
    hide ChildOf, Consistent, Grows, After;
    AfterKeeps(db, ops);
    if ChildOf(db, uuid5, r) { ChildStays(db, After(db, ops), uuid5, r); }
  }

  lemma {:induction false} NextKeeps(s: World, uuid5: string -> string, h: Handoff, step: Step)
    requires Inv(s, uuid5, h)
    ensures Inv(Next(s, uuid5, h, step), uuid5, h)
  {
    var key, r := KeyOf(h), RequestOf(h);
    var child, made := ChildSession(uuid5, r), ChildOf(s.db, uuid5, r);
    assert r.parentSession == h.parentSession;
    hide Sound, KeyOf, RequestOf, ChildSession, ChildOf, Dense, CallsOnce, ForkSession, After, LookedUp, Created, Forked, Sent, Ended, Stopped, LockKey;
    match step {
      case Look(w, effectId) => LookKeeps(s.book, key, child, made, w, effectId);
      case Create(w) => CreateKeeps(s.book, key, child, made, h, w);
      case Fork(w, held, generated) =>
        if MayFork(s, h, w, held, generated) {
          ForkAddsTheChild(s.db, held, uuid5, r, generated);
          var (db, _, outcome) := ForkSession(s.db, held, uuid5, r, generated);
          ForkKeepsBook(s.book, key, child, made, w, if db.souls == s.db.souls then None else Some(generated.soul), outcome,
            ChildOf(db, uuid5, r));
        }
      case Send(w, ops, error) =>
        AfterKeepsChild(s.db, ops, uuid5, r);
        if w in s.book.attempts && s.book.attempts[w].HasChild? {
          SendKeeps(s.book, key, child, made, w, error);
          MadeStays(Sent(s.book, child, w, error), key, child, made, ChildOf(After(s.db, ops), uuid5, r));
        }
      case Finish(w) => FinishKeeps(s.book, key, child, made, w);
      case CutOff(w) => CutKeeps(s.book, key, child, made, w);
      case Others(ops, effects) =>
        AfterKeepsChild(s.db, ops, uuid5, r);
        if SameRow(s.book.effects, effects, key) {
          OthersKeep(s.book, key, child, made, effects);
          MadeStays(s.book.(effects := effects), key, child, made, ChildOf(After(s.db, ops), uuid5, r));
        }
    }
  }

  lemma {:induction false} RunKeeps(s: World, uuid5: string -> string, h: Handoff, steps: seq<Step>)
    requires Inv(s, uuid5, h)
    ensures Inv(Continued(s, uuid5, h, steps), uuid5, h)
  {
    hide Inv, Next;
    if steps != [] {
      RunKeeps(s, uuid5, h, steps[..|steps| - 1]);
      NextKeeps(Continued(s, uuid5, h, steps[..|steps| - 1]), uuid5, h, steps[|steps| - 1]);
    }
  }

  lemma StartIsSound(uuid5: string -> string, h: Handoff)
    ensures Inv(START, uuid5, h)
  {
  }

  /**
   However attempts of one handoff overlap and wherever they are cut off: one child at most is made;
   no attempt seeds it twice; the row refers to nothing else; and completed means that a send succeeded.
   */
  lemma {:induction false} OneChildHoweverAttemptsOverlap(uuid5: string -> string, h: Handoff, steps: seq<Step>)
    ensures var s := Continued(START, uuid5, h, steps);
            var b, child := s.book, ChildSession(uuid5, RequestOf(h));
            && |b.children| <= 1 && (b.children != [] || b.senders != [] ==> ChildOf(s.db, uuid5, RequestOf(h)))
            && (forall i, j :: 0 <= i < j < |b.senders| ==> b.senders[i] != b.senders[j])
            && (KeyOf(h) in b.effects && b.effects[KeyOf(h)].resultRef.Some? ==>
                  b.effects[KeyOf(h)].resultRef.value == child && ChildOf(s.db, uuid5, RequestOf(h)))
            && (KeyOf(h) in b.effects && b.effects[KeyOf(h)].status == "completed" ==>
                  b.effects[KeyOf(h)].resultRef == Some(child) && b.senders != [])
  {
    StartIsSound(uuid5, h);
    RunKeeps(START, uuid5, h, steps);
    hide Continued, KeyOf, RequestOf, ChildOf, ChildSession, Consistent;
  }

  // ---------------------------------------------------------------------------------------
  // When a completed row is final

  /** An attempt that holds the id of a row and can still record a failure on it. */
  predicate MayFail(p: Phase, id: string) {
    match p
    case Looked(own, _) => own == id
    case HasChild(own, _) => own == id
    case Ran(own, _, run) => own == id && run.NotDone?
    case _ => false
  }

  ghost predicate Completed(b: Book, key: EffectKey) {
    key in b.effects && b.effects[key].status == "completed"
  }

  ghost predicate Quiet(b: Book, key: EffectKey)
    requires key in b.effects
  {
    forall w :: w in b.attempts ==> !MayFail(b.attempts[w], b.effects[key].id)
  }

  /** A completed row without such attempts stays, and there are no such attempts later. */
  ghost predicate Settled(b: Book, key: EffectKey, row: Effect) {
    key in b.effects && b.effects[key] == row && row.status == "completed" && Quiet(b, key)
  }

  lemma CreateSettled(b: Book, key: EffectKey, child: string, made: bool, row: Effect, h: Handoff, w: nat)
    requires Sound(b, key, child, made) && Settled(b, key, row)
    ensures Settled(Created(b, key, h, w), key, row)
  {
  }

  lemma LookSettled(b: Book, key: EffectKey, row: Effect, w: nat, effectId: string)
    requires Settled(b, key, row)
    ensures Settled(LookedUp(b, key, w, effectId), key, row)
  {
  }

  lemma FinishSettled(b: Book, key: EffectKey, child: string, made: bool, row: Effect, w: nat)
    requires Sound(b, key, child, made) && Settled(b, key, row)
    ensures Settled(Ended(b, w), key, row)
  {
    hide IdsApart, SendersOnce;
  }

  lemma {:induction false} NextSettled(s: World, uuid5: string -> string, h: Handoff, step: Step, row: Effect)
    requires Inv(s, uuid5, h) && Settled(s.book, KeyOf(h), row)
    ensures Settled(Next(s, uuid5, h, step).book, KeyOf(h), row)
  {
    var key, r := KeyOf(h), RequestOf(h);
    var child, made := ChildSession(uuid5, r), ChildOf(s.db, uuid5, r);
    hide Sound, KeyOf, RequestOf, ChildSession, ChildOf, Consistent, ForkSession, After, LookedUp, Created, Ended, LockKey;
    match step {
      case Look(w, effectId) => LookSettled(s.book, key, row, w, effectId);
      case Create(w) => CreateSettled(s.book, key, child, made, row, h, w);
      case Finish(w) => FinishSettled(s.book, key, child, made, row, w);
      case _ =>
    }
  }

  lemma {:induction false} RunSettled(s: World, uuid5: string -> string, h: Handoff, steps: seq<Step>, row: Effect)
    requires Inv(s, uuid5, h) && Settled(s.book, KeyOf(h), row)
    ensures Settled(Continued(s, uuid5, h, steps).book, KeyOf(h), row)
  {
    hide Inv, Next, Settled, KeyOf;
    if steps != [] {
      var init := steps[..|steps| - 1];
      RunKeeps(s, uuid5, h, init);
      RunSettled(s, uuid5, h, init, row);
      NextSettled(Continued(s, uuid5, h, init), uuid5, h, steps[|steps| - 1], row);
    }
  }

  /** The rest of an attempt that fails: the lock is held, or the send fails. */
  function Failing(p: Phase, w: nat, h: Handoff): seq<Step> {
    match p
    case Looked(_, _) => [Fork(w, {LockKey(h.parentSession)}, Generated("", (i: nat) => "")), Finish(w)]
    case HasChild(_, _) => [Send(w, [], Some("")), Finish(w)]
    case _ => [Finish(w)]
  }

  lemma TwoSteps(s: World, uuid5: string -> string, h: Handoff, a: Step, b: Step)
    ensures Continued(s, uuid5, h, [a]) == Next(s, uuid5, h, a)
    ensures Continued(s, uuid5, h, [a, b]) == Next(Next(s, uuid5, h, a), uuid5, h, b)
  {
    hide Next;
    assert [a, b][..1] == [a] && [a][..0] == [];
    assert Continued(s, uuid5, h, []) == s;
  }

  lemma FailsOnTheRow(s: World, uuid5: string -> string, h: Handoff, w: nat)
    requires Inv(s, uuid5, h) && KeyOf(h) in s.book.effects
    requires w in s.book.attempts && MayFail(s.book.attempts[w], s.book.effects[KeyOf(h)].id)
    ensures KeyOf(h) in Continued(s, uuid5, h, Failing(s.book.attempts[w], w, h)).book.effects
    ensures Continued(s, uuid5, h, Failing(s.book.attempts[w], w, h)).book.effects[KeyOf(h)].status == "failed"
  {
    hide Sound, KeyOf, ChildSession, ChildOf, Dense, CallsOnce, LockKey;
    var p := s.book.attempts[w];
    match p {
      case Looked(_, _) =>
        TwoSteps(s, uuid5, h, Fork(w, {LockKey(h.parentSession)}, Generated("", (i: nat) => "")), Finish(w));
      case HasChild(_, _) => TwoSteps(s, uuid5, h, Send(w, [], Some("")), Finish(w));
      case _ => TwoSteps(s, uuid5, h, Finish(w), Finish(w));
    }
  }

  ghost predicate IsFinal(s: World, uuid5: string -> string, h: Handoff)
    requires KeyOf(h) in s.book.effects
  {
    forall steps: seq<Step> ::
      var later := Continued(s, uuid5, h, steps).book;
      KeyOf(h) in later.effects && later.effects[KeyOf(h)] == s.book.effects[KeyOf(h)]
  }

  /**
   A completed row is final, whatever follows, exactly when no attempt that read the row's id is still
   about to fork, about to send, or about to record a failure. Otherwise such an attempt can
   still turn it into a failed one: the update has no guard on the status.
   */
  lemma {:induction false} CompletedIsFinalIff(uuid5: string -> string, h: Handoff, steps: seq<Step>)
    requires Completed(Continued(START, uuid5, h, steps).book, KeyOf(h))
    ensures IsFinal(Continued(START, uuid5, h, steps), uuid5, h) <==> Quiet(Continued(START, uuid5, h, steps).book, KeyOf(h))
  {
    StartIsSound(uuid5, h);
    RunKeeps(START, uuid5, h, steps);
    var s := Continued(START, uuid5, h, steps);
    hide Inv, Continued, KeyOf, MayFail;
    if Quiet(s.book, KeyOf(h)) {
      forall more: seq<Step>
        ensures var later := Continued(s, uuid5, h, more).book;
                KeyOf(h) in later.effects && later.effects[KeyOf(h)] == s.book.effects[KeyOf(h)]
      {
        RunSettled(s, uuid5, h, more, s.book.effects[KeyOf(h)]);
      }
    } else {
      var w :| w in s.book.attempts && MayFail(s.book.attempts[w], s.book.effects[KeyOf(h)].id);
      FailsOnTheRow(s, uuid5, h, w);
    }
  }
}
