/**
 The Postgres session ledger: messages, their place in a session, and the log of events that
 changed them. Every method is one transaction.
 */
module PostgresLedger {
  import opened Common
  import opened MessageEvents

  /** A row of `message_events`. */
  datatype EventRow = EventRow(
    id: string, messageId: string, actorType: ActorType, actorId: string, baseVersion: int, payload: Payload)

  /** The tables; `events` in the order of insertion, `relations` keyed by session and message. */
  datatype Db = Db(
    sessions: set<string>,
    messages: map<string, Message>,
    relations: map<(string, string), int>,
    events: seq<EventRow>)

  datatype NewMessage = NewMessage(
    sessionId: string, messageId: string, actorType: ActorType, actorId: string, parts: seq<Part>, state: State)

  datatype Change = Change(
    sessionId: string, eventId: string, messageId: string, actorType: ActorType, actorId: string, baseVersion: int, payload: Payload)

  function Inserted(m: NewMessage): Message {
    Message(m.messageId, m.actorType, m.actorId, m.parts, m.state, 1, None)
  }

  function RowOf(c: Change): EventRow {
    EventRow(c.eventId, c.messageId, c.actorType, c.actorId, c.baseVersion, c.payload)
  }

  ghost predicate IsMaxSeq(relations: map<(string, string), int>, sessionId: string, m: int) {
    && m >= 0
    && (forall k :: k in relations && k.0 == sessionId ==> relations[k] <= m)
    && (m == 0 || exists k :: k in relations && k.0 == sessionId && relations[k] == m)
  }

  /** `COALESCE(MAX(session_seq), 0)` over the rows of a session; sequence numbers are positive. */
  ghost function MaxSeq(relations: map<(string, string), int>, sessionId: string): (m: int)
    requires forall k :: k in relations ==> relations[k] > 0
    ensures IsMaxSeq(relations, sessionId, m)
    decreases relations
  {
    if relations == map[] then 0 else
      var k :| k in relations;
      var rest := relations - {k};
      assert forall j :: j in relations ==> j == k || j in rest;
      var m := MaxSeq(rest, sessionId);
      var r := if k.0 == sessionId && relations[k] > m then relations[k] else m;
      assert IsMaxSeq(relations, sessionId, r) by {
        if m > 0 {
          var j :| j in rest && j.0 == sessionId && rest[j] == m;
          assert j in relations;
        }
      }
      r
  }

  ghost predicate PositiveSeqs(db: Db) {
    forall k :: k in db.relations ==> db.relations[k] > 0
  }

  ghost predicate SeqTaken(db: Db, sessionId: string, n: int) {
    exists k :: k in db.relations && k.0 == sessionId && db.relations[k] == n
  }

  ghost function Appended(db: Db, m: NewMessage): Result<Db>
    requires PositiveSeqs(db)
  {
    if m.sessionId !in db.sessions then Err(NotFound("session"))
    else if m.messageId in db.messages then Err(Internal("message insert failed"))
    else
      var n := MaxSeq(db.relations, m.sessionId) + 1;
      if (m.sessionId, m.messageId) in db.relations || SeqTaken(db, m.sessionId, n) then
        Err(Internal("session relation insert failed"))
      else
        Ok(db.(messages := db.messages[m.messageId := Inserted(m)],
               relations := db.relations[(m.sessionId, m.messageId) := n]))
  }

  ghost predicate EventIdTaken(db: Db, id: string) {
    exists i :: 0 <= i < |db.events| && db.events[i].id == id
  }

  /** The stored row takes content, state and version of the new message, and NOW() on a delete. */
  function Stored(old_: Message, updated: Message, payload: Payload, now: string): Message {
    old_.(parts := updated.parts, state := updated.state, version := updated.version,
          deletedAt := if payload.Delete? then Some(now) else old_.deletedAt)
  }

  ghost function Changed(db: Db, c: Change, now: string): Result<Db> {
    if (c.sessionId, c.messageId) !in db.relations || c.messageId !in db.messages then Err(NotFound("message"))
    else
      var row := db.messages[c.messageId];
      var updated :- Apply(row, c.actorType, c.actorId, c.baseVersion, c.payload);
      if EventIdTaken(db, c.eventId) then Err(Internal("message event insert failed"))
      else Ok(db.(events := db.events + [RowOf(c)],
                  messages := db.messages[c.messageId := Stored(row, updated, c.payload, now)]))
  }

  class DbSessionLedger {
    var sessions: set<string>
    var messages: map<string, Message>
    var relations: map<(string, string), int>
    var events: seq<EventRow>

    ghost function Tables(): Db
      reads this
    {
      Db(sessions, messages, relations, events)
    }

    constructor ()
      ensures Tables() == Db({}, map[], map[], [])
    {
      sessions, messages, relations, events := {}, map[], map[], [];
    }

    method CreateSession(sessionId: string) returns (r: Result<string>)
      modifies this
      ensures sessionId in old(sessions) ==> r.Err? && Tables() == old(Tables())
      ensures sessionId !in old(sessions) ==> r == Ok(sessionId) && Tables() == old(Tables()).(sessions := old(sessions) + {sessionId})
    {
      if sessionId in sessions {
        return Err(Internal("session create failed"));
      }
      sessions := sessions + {sessionId};
      return Ok(sessionId);
    }

    method HighestSeq(sessionId: string) returns (m: int)
      requires PositiveSeqs(Tables())
      ensures m == MaxSeq(relations, sessionId)
    {
      m := 0;
      var left := relations.Keys;
      while left != {}
        invariant left <= relations.Keys
        invariant m >= 0
        invariant forall k :: k in relations && k.0 == sessionId && k !in left ==> relations[k] <= m
        invariant m == 0 || exists k :: k in relations && k.0 == sessionId && relations[k] == m
        decreases |left|
      {
        var k :| k in left;
        left := left - {k};
        if k.0 == sessionId && relations[k] > m {
          m := relations[k];
        }
      }
    }

    method AppendMessage(m: NewMessage) returns (r: Result<int>)
      requires PositiveSeqs(Tables())
      modifies this
      ensures match Appended(old(Tables()), m)
              case Ok(db) => Tables() == db && r == Ok(db.relations[(m.sessionId, m.messageId)])
              case Err(e) => Tables() == old(Tables()) && r == Err(e)
    {
      if m.sessionId !in sessions {
        return Err(NotFound("session"));
      }
      if m.messageId in messages {
        return Err(Internal("message insert failed"));
      }
      var seqNo := HighestSeq(m.sessionId);
      seqNo := seqNo + 1;
      if (m.sessionId, m.messageId) in relations || exists k :: k in relations && k.0 == m.sessionId && relations[k] == seqNo {
        return Err(Internal("session relation insert failed"));
      }
      messages := messages[m.messageId := Inserted(m)];
      relations := relations[(m.sessionId, m.messageId) := seqNo];
      return Ok(seqNo);
    }

    method ApplyMessageEvent(c: Change, now: string) returns (r: Result<Message>)
      modifies this
      ensures match Changed(old(Tables()), c, now)
              case Ok(db) => Tables() == db && r == Ok(db.messages[c.messageId])
              case Err(e) => Tables() == old(Tables()) && r == Err(e)
    {
      if (c.sessionId, c.messageId) !in relations || c.messageId !in messages {
        return Err(NotFound("message"));
      }
      var row := messages[c.messageId];
      var updated := MessageEvents.ApplyMessageEvent(row, c.actorType, c.actorId, c.baseVersion, c.payload);
      if updated.Err? {
        return Err(updated.error);
      }
      if exists i :: 0 <= i < |events| && events[i].id == c.eventId {
        return Err(Internal("message event insert failed"));
      }
      events := events + [RowOf(c)];
      messages := messages[c.messageId := Stored(row, updated.value, c.payload, now)];
      return Ok(messages[c.messageId]);
    }
  }

  // ---------------------------------------------------------------------------------------
  // Runs

  datatype Step =
    | Create(sessionId: string)
    | Append(message: NewMessage)
    | Mutate(change: Change, now: string)

  /** The tables, and each message as it was first inserted. */
  datatype World = World(db: Db, origin: map<string, Message>)

  ghost function Next(w: World, step: Step): World
    requires PositiveSeqs(w.db)
  {
    match step
    case Create(s) => w.(db := w.db.(sessions := w.db.sessions + {s}))
    case Append(m) =>
      (match Appended(w.db, m)
       case Ok(db) => World(db, w.origin[m.messageId := Inserted(m)])
       case Err(_) => w)
    case Mutate(c, now) =>
      (match Changed(w.db, c, now)
       case Ok(db) => w.(db := db)
       case Err(_) => w)
  }

  ghost function Run(steps: seq<Step>): (w: World)
    ensures PositiveSeqs(w.db)
  {
    if steps == [] then World(Db({}, map[], map[], []), map[])
    else
      var w := Run(steps[..|steps| - 1]);
      assert forall s :: IsMaxSeq(w.db.relations, s, MaxSeq(w.db.relations, s));
      Next(w, steps[|steps| - 1])
  }

  /** The events of one message, in the order of the log. */
  function EventsOf(events: seq<EventRow>, id: string): seq<EventRow> {
    if events == [] then [] else
      var before := EventsOf(events[..|events| - 1], id);
      if events[|events| - 1].messageId == id then before + [events[|events| - 1]] else before
  }

  /** Folding `Apply` over event rows. */
  function Replay(m: Message, rows: seq<EventRow>): Result<Message> {
    if rows == [] then Ok(m) else
      var before :- Replay(m, rows[..|rows| - 1]);
      var row := rows[|rows| - 1];
      Apply(before, row.actorType, row.actorId, row.baseVersion, row.payload)
  }

  /** Equal but for the time of deletion, which the database fills in. */
  predicate SameMessage(a: Message, b: Message) {
    a.(deletedAt := None) == b.(deletedAt := None) && (a.deletedAt.Some? <==> b.deletedAt.Some?)
  }

  /** `m` is what the event rows make of the message as inserted. */
  predicate SourcedBy(origin: Message, rows: seq<EventRow>, m: Message) {
    && Replay(origin, rows).Ok?
    && SameMessage(Replay(origin, rows).value, m)
    && origin.version == 1 && m.version == 1 + |rows|
    && (forall i :: 0 <= i < |rows| ==> rows[i].baseVersion == 1 + i)
    && (forall i :: 0 <= i < |rows| - 1 ==> !rows[i].payload.Fix? && !rows[i].payload.Delete?)
    && (rows != [] ==> (Closed(m) <==> rows[|rows| - 1].payload.Fix? || rows[|rows| - 1].payload.Delete?))
  }

  ghost predicate Sourced(w: World, id: string)
    requires id in w.db.messages && id in w.origin
  {
    SourcedBy(w.origin[id], EventsOf(w.db.events, id), w.db.messages[id])
  }

  ghost predicate Inv(w: World) {
    && w.origin.Keys == w.db.messages.Keys
    && (forall i :: 0 <= i < |w.db.events| ==> w.db.events[i].messageId in w.db.messages)
    && forall id :: id in w.db.messages ==> Sourced(w, id)
  }

  lemma {:induction false} NoEventsYet(events: seq<EventRow>, id: string)
    requires forall i :: 0 <= i < |events| ==> events[i].messageId != id
    ensures EventsOf(events, id) == []
  {
    if events != [] { NoEventsYet(events[..|events| - 1], id); }
  }

  lemma ApplyIgnoresDeletionTime(a: Message, b: Message, row: EventRow)
    requires SameMessage(a, b)
    ensures var x, y := Apply(a, row.actorType, row.actorId, row.baseVersion, row.payload),
                        Apply(b, row.actorType, row.actorId, row.baseVersion, row.payload);
            (x.Ok? <==> y.Ok?) && (x.Ok? ==> SameMessage(x.value, y.value))
  {
    hide NewParts;
  }

  /** An accepted change adds one row to its own message's log, and touches no other message. */
  lemma ChangedEffect(db: Db, c: Change, now: string)
    requires Changed(db, c, now).Ok?
    ensures var db' := Changed(db, c, now).value;
            && c.messageId in db.messages && db'.messages.Keys == db.messages.Keys
            && db'.events == db.events + [RowOf(c)] && db'.relations == db.relations && db'.sessions == db.sessions
            && (forall id :: id in db.messages && id != c.messageId ==> db'.messages[id] == db.messages[id])
            && Apply(db.messages[c.messageId], c.actorType, c.actorId, c.baseVersion, c.payload).Ok?
            && db'.messages[c.messageId] ==
               Stored(db.messages[c.messageId], Apply(db.messages[c.messageId], c.actorType, c.actorId, c.baseVersion, c.payload).value, c.payload, now)
  {
    hide Apply;
  }

  lemma LogGrows(events: seq<EventRow>, row: EventRow, id: string)
    ensures EventsOf(events + [row], id) == EventsOf(events, id) + if row.messageId == id then [row] else []
  {
    InitOfConcat(events, [row]);
    assert events + [] == events;
  }

  lemma ReplayOneMore(m: Message, rows: seq<EventRow>, row: EventRow)
    requires Replay(m, rows).Ok?
    ensures Replay(m, rows + [row]) ==
            Apply(Replay(m, rows).value, row.actorType, row.actorId, row.baseVersion, row.payload)
  {
    hide Apply;
    InitOfConcat(rows, [row]);
    assert rows + [] == rows;
  }

  /** One more accepted event keeps a message the fold of its rows. */
  lemma StillSourced(origin: Message, rows: seq<EventRow>, m: Message, row: EventRow, now: string)
    requires SourcedBy(origin, rows, m)
    requires Apply(m, row.actorType, row.actorId, row.baseVersion, row.payload).Ok?
    ensures SourcedBy(origin, rows + [row],
                      Stored(m, Apply(m, row.actorType, row.actorId, row.baseVersion, row.payload).value, row.payload, now))
  {
    hide Apply, Replay;
    ReplayOneMore(origin, rows, row);
    ApplyIgnoresDeletionTime(Replay(origin, rows).value, m, row);
    ClosedRejects(m, row.actorType, row.actorId, row.baseVersion, row.payload);
    ApplyParts(m, row);
    assert forall i :: 0 <= i < |rows| ==> (rows + [row])[i] == rows[i];
  }

  /** An accepted event is made by the message's actor at its version, and keeps its identity. */
  lemma ApplyParts(m: Message, row: EventRow)
    ensures var r := Apply(m, row.actorType, row.actorId, row.baseVersion, row.payload);
            r.Ok? ==> && row.baseVersion == m.version
                      && r.value.id == m.id && r.value.actorType == m.actorType && r.value.actorId == m.actorId
                      && (r.value.deletedAt.Some? <==> row.payload.Delete?) && m.deletedAt.None?
                      && (r.value.state == Fixed <==> row.payload.Fix?)
  {
    hide NewParts;
  }

  lemma {:induction false} MutatePreserves(w: World, c: Change, now: string)
    requires Inv(w) && Changed(w.db, c, now).Ok?
    ensures Inv(w.(db := Changed(w.db, c, now).value))
  {
    hide Apply, SourcedBy;
    ChangedEffect(w.db, c, now);
    var db' := Changed(w.db, c, now).value;
    hide Changed;
    var w' := w.(db := db');
    forall id | id in db'.messages ensures Sourced(w', id) {
      assert Sourced(w, id);
      LogGrows(w.db.events, RowOf(c), id);
      if id == c.messageId {
        StillSourced(w.origin[id], EventsOf(w.db.events, id), w.db.messages[id], RowOf(c), now);
      } else {
        assert EventsOf(db'.events, id) == EventsOf(w.db.events, id);
      }
    }
  }

  lemma {:induction false} AppendPreserves(w: World, m: NewMessage)
    requires PositiveSeqs(w.db) && Inv(w) && Appended(w.db, m).Ok?
    ensures Inv(Next(w, Append(m)))
  {
    hide Apply, EventsOf, MaxSeq;
    var w' := Next(w, Append(m));
    forall id | id in w'.db.messages ensures Sourced(w', id) {
      if id == m.messageId {
        NoEventsYet(w.db.events, id);
      } else {
        assert Sourced(w, id);
      }
    }
  }

  lemma {:induction false} RunKeepsInv(steps: seq<Step>)
    ensures Inv(Run(steps))
  {
    if steps != [] {
      var w, step := Run(steps[..|steps| - 1]), steps[|steps| - 1];
      RunKeepsInv(steps[..|steps| - 1]);
      match step
      case Create(s) =>
        var w' := Next(w, step);
        forall id | id in w'.db.messages ensures Sourced(w', id) { assert Sourced(w, id); }
      case Append(m) => if Appended(w.db, m).Ok? { AppendPreserves(w, m); }
      case Mutate(c, now) => if Changed(w.db, c, now).Ok? { MutatePreserves(w, c, now); }
    }
  }

  /**
   After every run, each stored message is the fold of its event rows over the message as
   inserted; the rows' base versions are 1, 2, 3, ..., the version is one more than their number,
   and no row follows a fix or a delete.
   */
  lemma {:induction false} LedgerIsEventSourced(steps: seq<Step>, id: string)
    requires id in Run(steps).db.messages
    ensures id in Run(steps).origin && Sourced(Run(steps), id)
  {
    RunKeepsInv(steps);
  }

  lemma FinalRowCloses(origin: Message, rows: seq<EventRow>, m: Message, i: nat)
    requires SourcedBy(origin, rows, m) && i < |rows| && (rows[i].payload.Fix? || rows[i].payload.Delete?)
    ensures Closed(m)
  {
    hide Replay;
  }

  /** Once a fix or a delete is in the log, every further event for the message is rejected. */
  lemma NothingAfterFixOrDelete(steps: seq<Step>, i: nat, c: Change, now: string)
    requires i < |EventsOf(Run(steps).db.events, c.messageId)|
    requires var row := EventsOf(Run(steps).db.events, c.messageId)[i]; row.payload.Fix? || row.payload.Delete?
    ensures Changed(Run(steps).db, c, now).Err?
  {
    RunKeepsInv(steps);
    var w := Run(steps);
    hide Run, Apply, SourcedBy, EventsOf;
    if c.messageId in w.db.messages {
      assert Sourced(w, c.messageId);
      FinalRowCloses(w.origin[c.messageId], EventsOf(w.db.events, c.messageId), w.db.messages[c.messageId], i);
      ClosedRejects(w.db.messages[c.messageId], c.actorType, c.actorId, c.baseVersion, c.payload);
    }
  }

  // ---------------------------------------------------------------------------------------
  // The numbers of a session

  /** Some message has this number in the session. */
  ghost predicate HasNumber(relations: map<(string, string), int>, sessionId: string, q: int) {
    exists k :: k in relations && k.0 == sessionId && relations[k] == q
  }

  /** The messages of each session are numbered 1 to n, each number once. */
  ghost predicate NumberedTo(relations: map<(string, string), int>, sessionId: string, n: nat) {
    && (forall q :: HasNumber(relations, sessionId, q) <==> 1 <= q <= n)
    && (forall j, k :: j in relations && k in relations && j.0 == sessionId && k.0 == sessionId && relations[j] == relations[k] ==> j == k)
  }

  lemma MaxIsCount(relations: map<(string, string), int>, sessionId: string, n: nat)
    requires (forall k :: k in relations ==> relations[k] > 0) && NumberedTo(relations, sessionId, n)
    ensures MaxSeq(relations, sessionId) == n
  {
    var m := MaxSeq(relations, sessionId);
    assert IsMaxSeq(relations, sessionId, m);
    if m > 0 { assert HasNumber(relations, sessionId, m); }
    if n > 0 {
      assert HasNumber(relations, sessionId, n);
    }
  }

  lemma OneMoreNumber(relations: map<(string, string), int>, sessionId: string, n: nat, key: (string, string))
    requires NumberedTo(relations, sessionId, n) && key !in relations && key.0 == sessionId
    ensures NumberedTo(relations[key := n + 1], sessionId, n + 1)
  {
    var after := relations[key := n + 1];
    forall q ensures HasNumber(after, sessionId, q) <==> HasNumber(relations, sessionId, q) || q == n + 1 {
      if HasNumber(relations, sessionId, q) {
        var k :| k in relations && k.0 == sessionId && relations[k] == q;
        assert k in after && after[k] == q;
      }
      if q == n + 1 { assert key in after && after[key] == q; }
    }
    forall k | k in relations && k.0 == sessionId ensures relations[k] <= n {
      assert HasNumber(relations, sessionId, relations[k]);
    }
  }

  lemma OtherNumbers(relations: map<(string, string), int>, sessionId: string, n: nat, key: (string, string), q: int)
    requires NumberedTo(relations, sessionId, n) && key !in relations && key.0 != sessionId
    ensures NumberedTo(relations[key := q], sessionId, n)
  {
    var after := relations[key := q];
    forall x ensures HasNumber(after, sessionId, x) <==> HasNumber(relations, sessionId, x) {
      if HasNumber(relations, sessionId, x) {
        var k :| k in relations && k.0 == sessionId && relations[k] == x;
        assert k in after;
      }
    }
  }

  /** After every run the messages of each session are numbered 1, 2, 3, ... without gap or repetition. */
  lemma {:induction false} NumbersAreDense(steps: seq<Step>, sessionId: string) returns (n: nat)
    ensures NumberedTo(Run(steps).db.relations, sessionId, n)
  {
    hide NumberedTo, MaxSeq, Apply;
    if steps == [] {
      n := 0;
      NoNumbers(sessionId);
    } else {
      var w, step := Run(steps[..|steps| - 1]), steps[|steps| - 1];
      n := NumbersAreDense(steps[..|steps| - 1], sessionId);
      if step.Append? && Appended(w.db, step.message).Ok? {
        var m := step.message;
        if m.sessionId == sessionId {
          MaxIsCount(w.db.relations, sessionId, n);
          OneMoreNumber(w.db.relations, sessionId, n, (m.sessionId, m.messageId));
          n := n + 1;
        } else {
          OtherNumbers(w.db.relations, sessionId, n, (m.sessionId, m.messageId), MaxSeq(w.db.relations, m.sessionId) + 1);
        }
      }
    }
  }

  lemma NoNumbers(sessionId: string)
    ensures NumberedTo(map[], sessionId, 0)
  {
  }

  ghost predicate IdsDiffer(events: seq<EventRow>) {
    forall i, j :: 0 <= i < j < |events| ==> events[i].id != events[j].id
  }

  lemma OneMoreEvent(events: seq<EventRow>, row: EventRow)
    requires IdsDiffer(events) && forall i :: 0 <= i < |events| ==> events[i].id != row.id
    ensures IdsDiffer(events + [row])
  {
  }

  lemma ChangedIdIsNew(db: Db, c: Change, now: string)
    requires Changed(db, c, now).Ok?
    ensures forall i :: 0 <= i < |db.events| ==> db.events[i].id != c.eventId
  {
    hide Apply;
    assert !EventIdTaken(db, c.eventId);
  }

  /** After every run no two rows of the log have one id. */
  lemma {:induction false} EventIdsAreUnique(steps: seq<Step>)
    ensures IdsDiffer(Run(steps).db.events)
  {
    hide IdsDiffer, Apply, MaxSeq, Changed;
    if steps == [] {
      NoIds();
    } else {
      var w, step := Run(steps[..|steps| - 1]), steps[|steps| - 1];
      EventIdsAreUnique(steps[..|steps| - 1]);
      if step.Mutate? && Changed(w.db, step.change, step.now).Ok? {
        ChangedEffect(w.db, step.change, step.now);
        ChangedIdIsNew(w.db, step.change, step.now);
        OneMoreEvent(w.db.events, RowOf(step.change));
      }
    }
  }

  lemma NoIds()
    ensures IdsDiffer([])
  {
  }
}
