/**
 A fork point is a number of the parent's soul session when its range is checked and a number of the
 parent's session when messages are copied. This is when the two cuts are of the same messages.
 */
module ForkPoint {
  import opened Common
  import opened StandaloneDb
  import SessionStore
  import SoulRuntime
  import MessageEvents

  // ---------------------------------------------------------------------------------------
  // Message ids

  ghost predicate IdsUnique(messages: seq<Row>) {
    forall i, j :: 0 <= i < j < |messages| ==> messages[i].id != messages[j].id
  }

  lemma AppendKeepsUnique(messages: seq<Row>, row: Row)
    requires IdsUnique(messages) && !Conflicts(messages, row)
    ensures IdsUnique(messages + [row])
  {
  }

  lemma {:induction false} CopyKeepsUnique(messages: seq<Row>, rows: seq<Row>, ids: nat -> string, sessionId: string)
    requires IdsUnique(messages) && CopyAll(messages, rows, ids, sessionId).Ok?
    ensures IdsUnique(CopyAll(messages, rows, ids, sessionId).value)
  {
    hide IdsUnique, Conflicts;
    if rows != [] {
      var n := |rows| - 1;
      CopyKeepsUnique(messages, rows[..n], ids, sessionId);
      AppendKeepsUnique(CopyAll(messages, rows[..n], ids, sessionId).value, Copied(rows[n], ids(n), sessionId));
    }
  }

  lemma ExecutedKeepsUnique(db: Db, op: Op)
    requires IdsUnique(db.messages) && Executed(db, op).Ok?
    ensures IdsUnique(Executed(db, op).value.messages)
  {
    hide MessageAppended, MessageChanged, SoulForked, ToolResultAppended, IdsUnique;
    match op {
      case AppendMessage(m) => AppendedKeepsUnique(db, m);
      case ChangeMessage(c) => ChangedKeepsUnique(db, c);
      case ForkSoul(parent, forkPoint, newSoul, newSession, ids) =>
        ForkedKeepsUnique(db, parent, forkPoint, newSoul, newSession, ids);
      case AppendToolResult(resultId, callId) => SessionStore.ToolResultLeavesMessages(db, resultId, callId);
      case _ =>
    }
  }

  lemma ForkedKeepsUnique(db: Db, parent: string, forkPoint: int, newSoul: string, newSession: string,
      ids: nat -> string)
    requires IdsUnique(db.messages) && SoulForked(db, parent, forkPoint, newSoul, newSession, ids).Ok?
    ensures IdsUnique(SoulForked(db, parent, forkPoint, newSoul, newSession, ids).value.messages)
  {
    hide IdsUnique, CopyAll, RowsUpTo, SessionRows, ForkedSoul;
    CopyKeepsUnique(db.messages, RowsUpTo(SessionRows(db.messages, db.souls[parent].sessionId), forkPoint), ids, newSession);
  }

  lemma AppendedKeepsUnique(db: Db, m: NewMessage)
    requires IdsUnique(db.messages) && MessageAppended(db, m).Ok?
    ensures IdsUnique(MessageAppended(db, m).value.messages)
  {
    hide MaxSeq, ContentToText;
  }

  lemma ChangedKeepsUnique(db: Db, c: MessageChange)
    requires IdsUnique(db.messages) && MessageChanged(db, c).Ok?
    ensures IdsUnique(MessageChanged(db, c).value.messages)
  {
    hide ContentToText, MessageEvents.Apply;
  }

  lemma NoIds()
    ensures IdsUnique([])
  {
  }

  lemma {:induction false} StoreKeepsUnique(ops: seq<Op>)
    ensures IdsUnique(After(EMPTY, ops).messages)
  {
    hide Executed, IdsUnique;
    if ops == [] {
      NoIds();
    } else {
      StoreKeepsUnique(ops[..|ops| - 1]);
      var before := After(EMPTY, ops[..|ops| - 1]);
      if Executed(before, ops[|ops| - 1]).Ok? { ExecutedKeepsUnique(before, ops[|ops| - 1]); }
    }
  }

  lemma {:induction false} RowsUnique(messages: seq<Row>, sessionId: string)
    requires IdsUnique(messages)
    ensures IdsUnique(SessionRows(messages, sessionId))
    ensures forall row :: row in SessionRows(messages, sessionId) ==> row in messages && row.sessionId == sessionId
  {
    if messages != [] {
      var n := |messages| - 1;
      RowsUnique(messages[..n], sessionId);
      var before := SessionRows(messages[..n], sessionId);
      forall row | row in before ensures row in messages && row.id != messages[n].id {
        assert row in messages[..n];
      }
    }
  }

  // ---------------------------------------------------------------------------------------
  // The two cuts

  function IdsOf(rows: seq<Row>): set<string> {
    set i | 0 <= i < |rows| :: rows[i].id
  }

  /** The messages that a fork copies: those numbered at most `forkPoint` in the parent's session. */
  function CopiedIds(db: Db, parent: string, forkPoint: int): set<string>
    requires parent in db.souls
  {
    IdsOf(RowsUpTo(SessionRows(db.messages, db.souls[parent].sessionId), forkPoint))
  }

  predicate IsMessageRef(items: map<Pos, Target>, soul: string, seqNo: int) {
    Pos(soul, seqNo) in items && items[Pos(soul, seqNo)].MessageRef?
  }

  /** The messages that the items numbered from `first` to `last` reference. */
  function Referenced(items: map<Pos, Target>, soul: string, first: int, last: int): set<string>
    decreases last - first
  {
    if last < first then {}
    else Referenced(items, soul, first, last - 1) +
         if IsMessageRef(items, soul, last) then {items[Pos(soul, last)].id} else {}
  }

  /** The messages that the parent's items numbered at most `forkPoint` reference. */
  function ReferencedIds(db: Db, parent: string, forkPoint: int): set<string>
    requires parent in db.souls
  {
    Referenced(db.items, parent, First(db.souls[parent]), forkPoint)
  }

  /** An item that brings no message: a tool call, a tool result, a compact or a second reference. */
  predicate IsIdle(items: map<Pos, Target>, soul: string, first: int, k: int) {
    !IsMessageRef(items, soul, k) || items[Pos(soul, k)].id in Referenced(items, soul, first, k - 1)
  }

  function IdleItems(items: map<Pos, Target>, soul: string, first: int, last: int): nat
    decreases last - first
  {
    if last < first then 0
    else IdleItems(items, soul, first, last - 1) + if IsIdle(items, soul, first, last) then 1 else 0
  }

  lemma {:induction false} ReferencedIs(items: map<Pos, Target>, soul: string, first: int, last: int)
    ensures |Referenced(items, soul, first, last)| + IdleItems(items, soul, first, last) == if last < first then 0 else last - first + 1
    ensures forall id :: id in Referenced(items, soul, first, last) <==>
      exists k :: first <= k <= last && IsMessageRef(items, soul, k) && items[Pos(soul, k)].id == id
    decreases last - first
  {
    if first <= last { ReferencedIs(items, soul, first, last - 1); }
  }

  lemma {:induction false} IdleMonotone(items: map<Pos, Target>, soul: string, first: int, k: int, last: int)
    requires first <= k <= last && IsIdle(items, soul, first, k)
    ensures IdleItems(items, soul, first, last) >= 1
    decreases last - k
  {
    if k < last { IdleMonotone(items, soul, first, k, last - 1); }
  }

  lemma {:induction false} SomeIdle(items: map<Pos, Target>, soul: string, first: int, last: int)
    requires IdleItems(items, soul, first, last) >= 1
    ensures exists k :: first <= k <= last && IsIdle(items, soul, first, k)
    decreases last - first
  {
    if !IsIdle(items, soul, first, last) { SomeIdle(items, soul, first, last - 1); }
  }

  lemma {:induction false} CountIds(rows: seq<Row>)
    requires IdsUnique(rows)
    ensures |IdsOf(rows)| == |rows|
  {
    if rows != [] {
      var n := |rows| - 1;
      CountIds(rows[..n]);
      assert IdsOf(rows) == IdsOf(rows[..n]) + {rows[n].id};
      assert rows[n].id !in IdsOf(rows[..n]);
    }
  }

  function Min(a: int, b: int): int {
    if a < b then a else b
  }

  /** The fork copies the first messages of the session, as many as there are up to the fork point. */
  lemma CopiedCount(db: Db, parent: string, forkPoint: int)
    requires SessionStore.TableOk(db.messages) && IdsUnique(db.messages) && parent in db.souls && forkPoint >= 0
    ensures |CopiedIds(db, parent, forkPoint)| == Min(forkPoint, |SessionRows(db.messages, db.souls[parent].sessionId)|)
  {
    var session := db.souls[parent].sessionId;
    var rows := SessionRows(db.messages, session);
    assert SessionStore.Numbered(db.messages, session);
    SessionStore.UpToIsPrefix(rows, forkPoint);
    hide SessionRows, SessionStore.TableOk;
    RowsUnique(db.messages, session);
    var cut := RowsUpTo(rows, forkPoint);
    assert forall i :: 0 <= i < |cut| ==> cut[i] == rows[i];
    CountIds(cut);
  }

  /** No item up to the fork point references a message that the fork does not copy. */
  ghost predicate NothingElse(db: Db, parent: string, forkPoint: int)
    requires parent in db.souls
  {
    forall k :: First(db.souls[parent]) <= k <= forkPoint && IsMessageRef(db.items, parent, k) ==>
      db.items[Pos(parent, k)].id in CopiedIds(db, parent, forkPoint)
  }

  /**
   In every reachable store, and for every fork point that the service lets through: the messages
   copied are the messages referenced by the parent's items up to the fork point exactly when those
   items reference nothing else and as many of them bring no message as they outnumber the copies.
   */
  lemma {:induction false} CutsAgreeIff(ops: seq<Op>, parent: string, forkPoint: int)
    requires parent in After(EMPTY, ops).souls && 1 <= forkPoint < After(EMPTY, ops).souls[parent].nextSeq
    ensures var db := After(EMPTY, ops);
            var first, n := First(db.souls[parent]), |SessionRows(db.messages, db.souls[parent].sessionId)|;
            CopiedIds(db, parent, forkPoint) == ReferencedIds(db, parent, forkPoint) <==>
              && NothingElse(db, parent, forkPoint)
              && (if forkPoint < first then 0 else forkPoint - first + 1) ==
                 Min(forkPoint, n) + IdleItems(db.items, parent, first, forkPoint)
  {
    var db := After(EMPTY, ops);
    SessionStore.StoreKeepsTable(ops);
    StoreKeepsUnique(ops);
    CutsAgree(db, parent, forkPoint);
  }

  lemma {:induction false} CutsAgree(db: Db, parent: string, forkPoint: int)
    requires SessionStore.TableOk(db.messages) && IdsUnique(db.messages) && parent in db.souls && forkPoint >= 1
    ensures var first, n := First(db.souls[parent]), |SessionRows(db.messages, db.souls[parent].sessionId)|;
            CopiedIds(db, parent, forkPoint) == ReferencedIds(db, parent, forkPoint) <==>
              && NothingElse(db, parent, forkPoint)
              && (if forkPoint < first then 0 else forkPoint - first + 1) ==
                 Min(forkPoint, n) + IdleItems(db.items, parent, first, forkPoint)
  {
    var copied, referenced := CopiedIds(db, parent, forkPoint), ReferencedIds(db, parent, forkPoint);
    CopiedCount(db, parent, forkPoint);
    ReferencedIs(db.items, parent, First(db.souls[parent]), forkPoint);
    assert NothingElse(db, parent, forkPoint) <==> referenced <= copied;
    if referenced <= copied && |referenced| == |copied| { SubsetOfSameSize(referenced, copied); }
  }

  lemma SubsetOfSameSize(a: set<string>, b: set<string>)
    requires a <= b && |a| == |b|
    ensures a == b
  {
    if !(b <= a) {
      var x :| x in b && x !in a;
      SubsetSize(a, b - {x});
    }
  }

  lemma {:induction false} SubsetSize(a: set<string>, b: set<string>)
    requires a <= b
    ensures |a| <= |b|
  {
    if a != {} {
      var x :| x in a;
      SubsetSize(a - {x}, b - {x});
    }
  }

  /** Item `k` is the first reference to one of the first `forkPoint` messages of the parent's session. */
  ghost predicate BringsItsOwn(db: Db, parent: string, forkPoint: int, k: int)
    requires parent in db.souls
  {
    && IsMessageRef(db.items, parent, k) && db.items[Pos(parent, k)].id in CopiedIds(db, parent, forkPoint)
    && db.items[Pos(parent, k)].id !in Referenced(db.items, parent, First(db.souls[parent]), k - 1)
  }

  /**
   While the session has at least `forkPoint` messages, the cuts agree exactly when the parent is not
   itself a child (its items start at 1) and every item up to the fork point is the first reference
   to one of the copied messages. So no tool call, tool result or compact may come before the cut.
   Items start at 1 or later, as the service forks at no fork point below 1.
   */
  lemma {:induction false} NoRoomBeforeTheCut(ops: seq<Op>, parent: string, forkPoint: int)
    requires parent in After(EMPTY, ops).souls && First(After(EMPTY, ops).souls[parent]) >= 1
    requires 1 <= forkPoint < After(EMPTY, ops).souls[parent].nextSeq
    requires forkPoint <= |SessionRows(After(EMPTY, ops).messages, After(EMPTY, ops).souls[parent].sessionId)|
    ensures var db := After(EMPTY, ops);
            CopiedIds(db, parent, forkPoint) == ReferencedIds(db, parent, forkPoint) <==>
              && First(db.souls[parent]) == 1
              && forall k :: 1 <= k <= forkPoint ==> BringsItsOwn(db, parent, forkPoint, k)
  {
    CutsAgreeIff(ops, parent, forkPoint);
    var db := After(EMPTY, ops);
    hide After, CopiedIds, ReferencedIds, SessionRows;
    var first := First(db.souls[parent]);
    var idle := IdleItems(db.items, parent, first, forkPoint);
    if idle >= 1 { SomeIdle(db.items, parent, first, forkPoint); }
    forall k | first <= k <= forkPoint && IsIdle(db.items, parent, first, k) ensures idle >= 1 {
      IdleMonotone(db.items, parent, first, k, forkPoint);
    }
    if first == 1 && idle == 0 && NothingElse(db, parent, forkPoint) {
      forall k | 1 <= k <= forkPoint ensures BringsItsOwn(db, parent, forkPoint, k) {
        assert !IsIdle(db.items, parent, first, k);
      }
    }
    if first == 1 && forall k :: 1 <= k <= forkPoint ==> BringsItsOwn(db, parent, forkPoint, k) {
      forall k | 1 <= k <= forkPoint ensures !IsIdle(db.items, parent, first, k) {
        assert BringsItsOwn(db, parent, forkPoint, k);
      }
      forall k | first <= k <= forkPoint && IsMessageRef(db.items, parent, k)
        ensures db.items[Pos(parent, k)].id in CopiedIds(db, parent, forkPoint)
      {
        assert BringsItsOwn(db, parent, forkPoint, k);
      }
    }
  }

  /**
   While the session has at least `forkPoint` messages, one item up to the fork point that is no
   message reference is enough: the fork copies a message that no item up to the fork point names.
   */
  lemma {:induction false} OneToolItemShiftsTheCut(ops: seq<Op>, parent: string, forkPoint: int,
      k: int) returns (id: string)
    requires parent in After(EMPTY, ops).souls && 1 <= First(After(EMPTY, ops).souls[parent]) <= k <= forkPoint
    requires forkPoint <= |SessionRows(After(EMPTY, ops).messages, After(EMPTY, ops).souls[parent].sessionId)|
    requires !IsMessageRef(After(EMPTY, ops).items, parent, k)
    ensures id in CopiedIds(After(EMPTY, ops), parent, forkPoint) && id !in ReferencedIds(After(EMPTY, ops), parent, forkPoint)
  {
    SessionStore.StoreKeepsTable(ops);
    StoreKeepsUnique(ops);
    var db := After(EMPTY, ops);
    hide After;
    var first := First(db.souls[parent]);
    CopiedCount(db, parent, forkPoint);
    ReferencedIs(db.items, parent, first, forkPoint);
    IdleMonotone(db.items, parent, first, k, forkPoint);
    var copied, referenced := CopiedIds(db, parent, forkPoint), ReferencedIds(db, parent, forkPoint);
    if copied <= referenced { SubsetSize(copied, referenced); }
    id :| id in copied && id !in referenced;
  }

  // ---------------------------------------------------------------------------------------
  // A send with one tool call

  const SOUL := StandaloneSoulSessionId("s")

  function Said(id: string, actor: MessageEvents.ActorType): NewMessage {
    NewMessage("s", id, actor, "", [MessageEvents.TextPart(id)], MessageEvents.Fixed)
  }

  /** One send: the user's message, a tool call with its result, the reply. */
  const SEND := [
    CreateSession("s"), AppendMessage(Said("question", MessageEvents.Account)), EnsureSoul("soul", "s"),
    StartTurn("turn", SOUL, SessionSend("question"), 1), AppendMessageRef(SOUL, "question"),
    AppendToolCall("call", "turn"), AppendToolResult("result", "call"),
    AppendMessage(Said("answer", MessageEvents.Soul)), AppendMessageRef(SOUL, "answer"), CompleteTurn("turn", 2, None)]

  lemma AfterOneMore(ops: seq<Op>, op: Op)
    requires Executed(After(EMPTY, ops), op).Ok?
    ensures After(EMPTY, ops + [op]) == Executed(After(EMPTY, ops), op).value
  {
    assert (ops + [op])[..|ops + [op]| - 1] == ops;
  }

  function StoredAs(id: string, actor: MessageEvents.ActorType, seqNo: int): Row {
    Row(id, "s", seqNo, actor, "", id, Some([MessageEvents.TextPart(id)]), MessageEvents.Fixed, 1)
  }

  lemma OneText(text: string)
    ensures ContentToText([MessageEvents.TextPart(text)]) == Ok(text)
  {
    SessionStore.TextRowOk(StoredAs(text, MessageEvents.Soul, 1));
  }

  lemma Appends(db: Db, id: string, actor: MessageEvents.ActorType, seqNo: int)
    requires "s" in db.sessions && MaxSeq(db.messages, "s") + 1 == seqNo
    requires !Conflicts(db.messages, StoredAs(id, actor, seqNo))
    ensures MessageAppended(db, Said(id, actor)) == Ok(db.(messages := db.messages + [StoredAs(id, actor, seqNo)]))
  {
    OneText(id);
    hide ContentToText, MaxSeq, Conflicts;
  }

  function SoulAt(nextSeq: int): SoulSession {
    SoulSession("soul", "s", "", None, nextSeq, 0, None, None)
  }

  const QUESTION := [StoredAs("question", MessageEvents.Account, 1)]

  const BOTH := QUESTION + [StoredAs("answer", MessageEvents.Soul, 2)]

  lemma Asked()
    ensures After(EMPTY, SEND[..2]) == EMPTY.(sessions := map["s" := SessionRow(None, None)], messages := QUESTION)
  {
    assert SEND[..0] == [] && After(EMPTY, []) == EMPTY;
    hide MessageAppended, After;
    assert SEND[..1] == SEND[..0] + [SEND[0]];
    AfterOneMore(SEND[..0], SEND[0]);
    assert SEND[..2] == SEND[..1] + [SEND[1]];
    Appends(After(EMPTY, SEND[..1]), "question", MessageEvents.Account, 1);
    AfterOneMore(SEND[..1], SEND[1]);
  }

  lemma Begun()
    ensures var db := After(EMPTY, SEND[..4]);
            && db.messages == QUESTION && "s" in db.sessions
            && db.souls == map[SOUL := SoulAt(1)] && db.items == map[] && db.calls == map[] && db.results == map[]
            && "turn" in db.turns && db.turns["turn"].soul == SOUL && db.compacts == map[]
  {
    Asked();
    hide After;
    assert SEND[..3] == SEND[..2] + [SEND[2]];
    AfterOneMore(SEND[..2], SEND[2]);
    assert SEND[..4] == SEND[..3] + [SEND[3]];
    AfterOneMore(SEND[..3], SEND[3]);
  }

  /** Where the send stands: item 2 is the call, and `next_seq` is as given. */
  ghost predicate At(db: Db, messages: seq<Row>, nextSeq: int) {
    && db.messages == messages && "s" in db.sessions && db.compacts == map[] && "turn" in db.turns && db.turns["turn"].soul == SOUL
    && SOUL in db.souls && db.souls[SOUL].sessionId == "s" && First(db.souls[SOUL]) == 1 && db.souls[SOUL].nextSeq == nextSeq
    && (forall p :: p in db.items ==> p.seqNo < nextSeq)
    && Pos(SOUL, 2) in db.items && db.items[Pos(SOUL, 2)] == ToolCallRef("call")
  }

  lemma Called()
    ensures At(After(EMPTY, SEND[..6]), QUESTION, 3) && After(EMPTY, SEND[..6]).results == map[]
    ensures forall p :: IsCallItem(After(EMPTY, SEND[..6]).items, "call", p) ==> p == Pos(SOUL, 2)
  {
    hide After;
    Begun();
    assert SEND[..5] == SEND[..4] + [SEND[4]];
    assert After(EMPTY, SEND[..4]).messages[0].id == "question";
    AfterOneMore(SEND[..4], SEND[4]);
    assert SEND[..6] == SEND[..5] + [SEND[5]];
    AfterOneMore(SEND[..5], SEND[5]);
  }

  lemma Allocates(db: Db, messages: seq<Row>, nextSeq: int, target: Target)
    requires At(db.(compacts := map[]), messages, nextSeq) && nextSeq >= 3
    ensures Allocated(db, SOUL, target).Ok?
    ensures db.compacts == map[] ==>
              At(Allocated(db, SOUL, target).value, messages, nextSeq + 1)
  {
  }

  lemma Resulted()
    ensures At(After(EMPTY, SEND[..7]), QUESTION, 4)
  {
    Called();
    var db := After(EMPTY, SEND[..6]);
    hide After, Allocated;
    assert SEND[..7] == SEND[..6] + [SEND[6]];
    assert IsCallItem(db.items, "call", Pos(SOUL, 2));
    Allocates(db.(results := map["result" := "call"]), QUESTION, 3, ToolResultRef("result"));
    hide At;
    AfterOneMore(SEND[..6], SEND[6]);
  }

  lemma Replied()
    ensures At(After(EMPTY, SEND[..8]), BOTH, 4)
  {
    Resulted();
    hide MessageAppended, After;
    var db := After(EMPTY, SEND[..7]);
    assert db.messages[..0] == [] && MaxSeq(db.messages[..0], "s") == 0 && MaxSeq(db.messages, "s") == 1;
    Appends(db, "answer", MessageEvents.Soul, 2);
    assert SEND[..8] == SEND[..7] + [SEND[7]];
    AfterOneMore(SEND[..7], SEND[7]);
  }

  lemma Answered()
    ensures At(After(EMPTY, SEND), BOTH, 5)
  {
    Replied();
    hide After, Allocated;
    assert SEND[..9] == SEND[..8] + [SEND[8]];
    assert After(EMPTY, SEND[..8]).messages[1].id == "answer";
    Allocates(After(EMPTY, SEND[..8]), BOTH, 4, MessageRef("answer"));
    AfterOneMore(SEND[..8], SEND[8]);
    assert SEND == SEND[..9] + [SEND[9]];
    AfterOneMore(SEND[..9], SEND[9]);
  }

  lemma TwoMessages(db: Db)
    requires db.messages == BOTH
    ensures |SessionRows(db.messages, "s")| == 2
  {
    var messages := db.messages;
    assert messages[..1][..0] == [] && messages[..1] == [messages[0]];
    assert |SessionRows(messages[..1], "s")| == 1;
  }

  /**
   After one send with one tool call the fork point 2 is let through. The fork copies the reply,
   while the item numbered 2 is the tool call: the cuts differ.
   */
  lemma {:induction false} OneToolCallShowsIt()
    ensures var db := After(EMPTY, SEND);
            && SOUL in db.souls && 1 <= 2 < db.souls[SOUL].nextSeq
            && CopiedIds(db, SOUL, 2) != ReferencedIds(db, SOUL, 2)
  {
    Answered();
    TwoMessages(After(EMPTY, SEND));
    hide After;
    var id := OneToolItemShiftsTheCut(SEND, SOUL, 2, 2);
  }
}
