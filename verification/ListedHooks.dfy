/**
 The threshold hooks on what `build_assembly_items` gives them: the messages of the session and
 nothing else. A stored compaction is therefore never seen, by the hooks or by the provider.
 */
module ListedHooks {
  import opened Common
  import Text
  import opened MessageEvents
  import opened Transcript
  import opened Compaction
  import opened StandaloneDb
  import opened SessionStore
  import SoulRuntime
  import ForkPoint

  /** The completed turn that the hooks are given for a session. */
  function Seen(db: Db, sessionId: string, turnId: string, trigger: TriggerType,
      assistantSeq: Option<int>): TurnCompleted
  {
    TurnCompleted(turnId, trigger, assistantSeq, Items(Listed(db.messages, sessionId)))
  }

  lemma NoCompactEnds(messages: seq<SessionMessage>)
    ensures LastCompactEnd(Items(messages)) == 0
  {
    LastCompactEndIsMax(Items(messages));
  }

  ghost predicate FromOne(messages: seq<SessionMessage>) {
    forall i :: 0 <= i < |messages| ==> messages[i].sessionSeq == i + 1
  }

  lemma {:induction false} AllCounted(messages: seq<SessionMessage>)
    requires forall i :: 0 <= i < |messages| ==> messages[i].sessionSeq > 0
    ensures CountSince(Items(messages), 0) == |messages|
  {
    if messages != [] {
      assert Items(messages)[1..] == Items(messages[1..]);
      AllCounted(messages[1..]);
    }
  }

  lemma ListedAreNumbered(ops: seq<Op>, sessionId: string)
    ensures FromOne(Listed(After(EMPTY, ops).messages, sessionId))
  {
    StoreKeepsTable(ops);
    hide After, SessionRows;
    var messages := After(EMPTY, ops).messages;
    assert Numbered(messages, sessionId);
    forall i | 0 <= i < |Listed(messages, sessionId)| ensures Listed(messages, sessionId)[i].sessionSeq == i + 1 {
      NumberedAt(messages, sessionId, i);
      SeqOfMessage(SessionRows(messages, sessionId)[i]);
    }
  }

  lemma CountOfNumbered(messages: seq<SessionMessage>)
    requires FromOne(messages)
    ensures CountSince(Items(messages), LastCompactEnd(Items(messages))) == |messages|
  {
    NoCompactEnds(messages);
    AllCounted(messages);
  }

  /**
   In every reachable store, whatever compacts it holds: the compact hook fires exactly when the
   session has reached its threshold in messages, all counted from the first, and its range starts at
   1; the handoff hook fires exactly then on a user's turn.
   */
  lemma {:induction false} HooksCountFromTheStart(ops: seq<Op>, sessionId: string, turnId: string, trigger: TriggerType,
      assistantSeq: Option<int>, hook: CompactThresholdHook, fork: ForkHandoffHook)
    ensures var db := After(EMPTY, ops);
            var input := Seen(db, sessionId, turnId, trigger, assistantSeq);
            var count, a := |Listed(db.messages, sessionId)|, EvaluateCompact(hook, input);
            && (a.Some? <==> assistantSeq.Some? && count >= hook.minMessages)
            && (a.Some? ==> a.value.start == 1 && a.value.end == assistantSeq.value)
            && (EvaluateForkHandoff(fork, input).Some? <==>
                  trigger == TriggerType.SessionSend && assistantSeq.Some? && count >= fork.minMessages)
  {
    ListedAreNumbered(ops, sessionId);
    hide FromOne, SessionRows, Executed, CountSince, LastCompactEnd;
    CountOfNumbered(Listed(After(EMPTY, ops).messages, sessionId));
    NoCompactEnds(Listed(After(EMPTY, ops).messages, sessionId));
  }

  // ---------------------------------------------------------------------------------------
  // Once fired, fired after every later turn

  lemma {:induction false} RowsAreKept(a: seq<Row>, b: seq<Row>, sessionId: string)
    requires MessagesKept(a, b)
    ensures |SessionRows(a, sessionId)| <= |SessionRows(b, sessionId)|
    decreases |b|
  {
    if b != [] {
      var init := b[..|b| - 1];
      if |a| == |b| {
        assert SameMessage(a[|a| - 1], b[|b| - 1]);
        assert forall i :: 0 <= i < |init| ==> init[i] == b[i];
        RowsAreKept(a[..|a| - 1], init, sessionId);
      } else {
        RowsAreKept(a, init, sessionId);
      }
    }
  }

  /** No transaction silences a hook: if it fires for a session, it fires after every later turn of it. */
  lemma {:induction false} NeverSilentAgain(ops: seq<Op>, more: seq<Op>, sessionId: string, hook: CompactThresholdHook,
      turnId: string, later: string, trigger: TriggerType, assistantSeq: Option<int>, lastSeq: int)
    requires EvaluateCompact(hook, Seen(After(EMPTY, ops), sessionId, turnId, trigger, assistantSeq)).Some?
    ensures EvaluateCompact(hook, Seen(After(EMPTY, ops + more), sessionId, later, trigger, Some(lastSeq))).Some?
  {
    hide Executed, EvaluateCompact;
    var fork := ForkHandoffHook("", 0);
    HooksCountFromTheStart(ops, sessionId, turnId, trigger, assistantSeq, hook, fork);
    HooksCountFromTheStart(ops + more, sessionId, later, trigger, Some(lastSeq), hook, fork);
    ListGrows(ops, more, sessionId);
  }

  lemma ListGrows(ops: seq<Op>, more: seq<Op>, sessionId: string)
    ensures |Listed(After(EMPTY, ops).messages, sessionId)| <= |Listed(After(EMPTY, ops + more).messages, sessionId)|
  {
    var db := After(EMPTY, ops);
    SoulRuntime.AfterKeeps(EMPTY, ops);
    SoulRuntime.AfterKeeps(db, more);
    AfterBoth(EMPTY, ops, more);
    hide After, SessionRows;
    RowsAreKept(db.messages, After(EMPTY, ops + more).messages, sessionId);
  }

  lemma {:induction false} AfterBoth(db: Db, ops: seq<Op>, more: seq<Op>)
    ensures After(db, ops + more) == After(After(db, ops), more)
  {
    hide Executed;
    if more == [] {
      assert ops + more == ops;
    } else {
      InitOfConcat(ops, more);
      AfterBoth(db, ops, more[..|more| - 1]);
    }
  }

  /**
   Storing the compact that the hook emitted changes nothing of what it sees: the next evaluation
   emits the same action again. Given the stored compact it would be silent (unless its threshold is 0).
   */
  lemma {:induction false} StoredCompactIsNotSeen(ops: seq<Op>, sessionId: string, hook: CompactThresholdHook,
      turnId: string,
      trigger: TriggerType, assistantSeq: Option<int>, a: CompactAction, id: string, storing: string)
    requires EvaluateCompact(hook, Seen(After(EMPTY, ops), sessionId, turnId, trigger, assistantSeq)) == Some(a)
    requires assistantSeq.value >= |Listed(After(EMPTY, ops).messages, sessionId)|
    requires CompactAppended(After(EMPTY, ops), id, storing, Text.Trim(a.summary), a.start, a.end).Ok?
    ensures var db' := After(EMPTY, ops + [AppendCompact(id, storing, Text.Trim(a.summary), a.start, a.end)]);
            var input, c := Seen(db', sessionId, turnId, trigger, assistantSeq), StoredCompact(a, id, storing);
            && id in db'.compacts && db'.compacts[id].compact == c
            && EvaluateCompact(hook, input) == Some(a)
            && (EvaluateCompact(hook, input.(tail := input.tail + [CompactItem(c)])).None? <==> hook.minMessages >= 1)
  {
    var db := After(EMPTY, ops);
    ListedAreNumbered(ops, sessionId);
    hide SessionRows, EvaluateCompact, CompactAppended, Text.Trim;
    AfterCompact(ops, id, storing, Text.Trim(a.summary), a.start, a.end);
    HookFiresOnce(hook, Seen(db, sessionId, turnId, trigger, assistantSeq), a, id, storing);
  }

  lemma AfterCompact(ops: seq<Op>, id: string, turnId: string, summary: string, start: int, end: int)
    requires CompactAppended(After(EMPTY, ops), id, turnId, summary, start, end).Ok?
    ensures var tx := After(EMPTY, ops + [AppendCompact(id, turnId, summary, start, end)]);
            && tx.messages == After(EMPTY, ops).messages
            && id in tx.compacts && tx.compacts[id].compact == Compact(id, turnId, summary, start, end)
  {
    hide CompactAppended;
    ForkPoint.AfterOneMore(ops, AppendCompact(id, turnId, summary, start, end));
    CompactKeepsMessages(After(EMPTY, ops), id, turnId, summary, start, end);
  }

  lemma CompactKeepsMessages(db: Db, id: string, turnId: string, summary: string, start: int, end: int)
    requires CompactAppended(db, id, turnId, summary, start, end).Ok?
    ensures var tx := CompactAppended(db, id, turnId, summary, start, end).value;
            tx.messages == db.messages && id in tx.compacts && tx.compacts[id].compact == Compact(id, turnId, summary, start, end)
  {
  }

  // ---------------------------------------------------------------------------------------
  // The provider input

  /** All the messages that are not blank, in order. */
  function EveryMessage(messages: seq<SessionMessage>): seq<InputMessage> {
    if messages == [] then []
    else EveryMessage(messages[..|messages| - 1]) + AsSeq(ToInputMessage(messages[|messages| - 1]))
  }

  lemma {:induction false} NothingHidden(messages: seq<SessionMessage>, n: nat)
    requires n <= |messages|
    ensures InputUpTo(Items(messages), n) == EveryMessage(messages[..n])
  {
    hide ToInputMessage;
    if n > 0 {
      NothingHidden(messages, n - 1);
      assert messages[..n][..n - 1] == messages[..n - 1];
      assert forall i :: 0 <= i < |messages| ==> !Covers(Items(messages)[i], messages[n - 1].sessionSeq);
    }
  }

  /** The provider is given every message of the session that is not blank, whatever compacts are stored. */
  lemma {:induction false} ProviderSeesEveryMessage(db: Db, sessionId: string)
    ensures AssemblyToProviderInput(Items(Listed(db.messages, sessionId))) == EveryMessage(Listed(db.messages, sessionId))
  {
    var messages := Listed(db.messages, sessionId);
    NothingHidden(messages, |messages|);
    assert messages[..|messages|] == messages;
  }

  /** The message that the provider gets for a row: the stored text, under the role of its author. */
  predicate Says(m: InputMessage, row: Row) {
    && m.content == row.text
    && (row.actorType.Account? ==> m.role == "user")
    && (row.actorType.Soul? ==> m.role == "assistant")
    && (row.actorType.System? ==> m.role == "system")
  }

  function NotBlankRows(rows: seq<Row>): seq<Row> {
    if rows == [] then [] else
      NotBlankRows(rows[..|rows| - 1]) + if Text.Blank(rows[|rows| - 1].text) then [] else [rows[|rows| - 1]]
  }

  ghost predicate SaysAll(messages: seq<InputMessage>, rows: seq<Row>) {
    |messages| == |rows| && forall i :: 0 <= i < |rows| ==> Says(messages[i], rows[i])
  }

  lemma RowInput(row: Row)
    requires RowOk(row)
    ensures var m := ToInputMessage(SessionMessageOf(row));
            if Text.Blank(row.text) then m.None? else m.Some? && Says(m.value, row)
  {
    hide ContentOf, Text.Blank;
  }

  lemma SaysOneMore(messages: seq<InputMessage>, rows: seq<Row>, m: InputMessage, row: Row)
    requires SaysAll(messages, rows) && Says(m, row)
    ensures SaysAll(messages + [m], rows + [row])
  {
    hide Says;
  }

  lemma EveryOneMore(rows: seq<Row>)
    requires rows != []
    ensures EveryMessage(MessagesOf(rows)) ==
            EveryMessage(MessagesOf(rows[..|rows| - 1])) + AsSeq(ToInputMessage(SessionMessageOf(rows[|rows| - 1])))
  {
    hide ToInputMessage, SessionMessageOf;
    assert MessagesOf(rows)[..|rows| - 1] == MessagesOf(rows[..|rows| - 1]);
  }

  lemma {:induction false} EveryRowSays(rows: seq<Row>)
    requires forall i :: 0 <= i < |rows| ==> RowOk(rows[i])
    ensures SaysAll(EveryMessage(MessagesOf(rows)), NotBlankRows(rows))
  {
    hide RowOk, ToInputMessage, SessionMessageOf, Text.Blank, Says, SaysAll, EveryMessage, MessagesOf;
    if rows == [] {
      NoRowsSayNothing();
    } else {
      var init, last := rows[..|rows| - 1], rows[|rows| - 1];
      EveryRowSays(init);
      EveryOneMore(rows);
      RowInput(last);
      var before := EveryMessage(MessagesOf(init));
      assert before + [] == before && NotBlankRows(init) + [] == NotBlankRows(init);
      if !Text.Blank(last.text) {
        SaysOneMore(before, NotBlankRows(init), ToInputMessage(SessionMessageOf(last)).value, last);
      }
    }
  }

  lemma NoRowsSayNothing()
    ensures SaysAll(EveryMessage(MessagesOf([])), [])
  {
  }

  lemma RowsAreOk(ops: seq<Op>, sessionId: string)
    ensures forall i :: 0 <= i < |SessionRows(After(EMPTY, ops).messages, sessionId)| ==>
              RowOk(SessionRows(After(EMPTY, ops).messages, sessionId)[i])
  {
    StoreKeepsTable(ops);
    var messages := After(EMPTY, ops).messages;
    hide After, RowOk, SessionRows;
    forall i | 0 <= i < |SessionRows(messages, sessionId)| ensures RowOk(SessionRows(messages, sessionId)[i]) {
      var k := HasRow(messages, sessionId, i);
    }
  }

  /**
   In every reachable store the provider is given, for a session, the stored text of each of its
   messages that is not blank, in order and each under the role of its author.
   */
  lemma {:induction false} ProviderGetsTheStoredText(ops: seq<Op>, sessionId: string)
    ensures var messages := After(EMPTY, ops).messages;
            SaysAll(AssemblyToProviderInput(Items(Listed(messages, sessionId))), NotBlankRows(SessionRows(messages, sessionId)))
  {
    var db := After(EMPTY, ops);
    RowsAreOk(ops, sessionId);
    hide After, SessionRows, RowOk, SaysAll;
    ProviderSeesEveryMessage(db, sessionId);
    EveryRowSays(SessionRows(db.messages, sessionId));
  }

  // ---------------------------------------------------------------------------------------
  // A session whose compaction is stored

  const HOOK := CompactThresholdHook("hook", 2, Some("so far"))

  const STORED := AppendCompact("compact", "turn", Text.Trim("so far"), 1, 2)

  /**
   After one send its two messages reach a threshold of 2. The compact of both is stored, and the
   hook asks for it again.
   */
  lemma {:induction false} StoredCompactionShowsIt()
    ensures var db := After(EMPTY, ForkPoint.SEND + [STORED]);
            && "compact" in db.compacts && db.compacts["compact"].compact.start == 1 && db.compacts["compact"].compact.end == 2
            && EvaluateCompact(HOOK, Seen(db, "s", "turn", TriggerType.SessionSend, Some(2))) ==
               Some(CompactAction(1, 2, "so far", "hook", "turn"))
  {
    ForkPoint.Answered();
    var db := After(EMPTY, ForkPoint.SEND);
    ForkPoint.TwoMessages(db);
    HooksCountFromTheStart(ForkPoint.SEND, "s", "turn", TriggerType.SessionSend, Some(2), HOOK, ForkHandoffHook("", 0));
    hide After, SessionRows;
    var a := EvaluateCompact(HOOK, Seen(db, "s", "turn", TriggerType.SessionSend, Some(2))).value;
    assert a == CompactAction(1, 2, "so far", "hook", "turn");
    ForkPoint.Allocates(db.(compacts := map["compact" := CompactRow("s", Compact("compact", "turn", Text.Trim("so far"), 1, 2))]),
      ForkPoint.BOTH, 5, CompactRef("compact"));
    hide Allocated, EvaluateCompact;
    StoredCompactIsNotSeen(ForkPoint.SEND, "s", HOOK, "turn", TriggerType.SessionSend, Some(2), a, "compact", "turn");
  }
}
