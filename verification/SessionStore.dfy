/**
 The session-ledger adapter of the standalone store, and what its message table keeps: stored text
 is the text of the stored parts, so that a forked child, which copies text only, reads the same.
 */
module SessionStore {
  import opened Common
  import opened Text
  import opened MessageEvents
  import opened Transcript
  import opened StandaloneDb
  import SoulRuntime
  import Compaction

  class StandaloneSessionLedger {
    const pool: SqlitePool

    constructor (pool: SqlitePool)
      ensures this.pool == pool
    {
      this.pool := pool;
    }

    method CreateSession(id: string) returns (r: Result<SessionRow>)
      modifies pool
      ensures match SessionCreated(old(pool.db), id)
              case Ok(db) => pool.db == db && r == Ok(db.sessions[id])
              case Err(e) => pool.db == old(pool.db) && r == Err(e)
    {
      if id in pool.db.sessions {
        return Err(Internal("session create failed"));
      }
      pool.db := pool.db.(sessions := pool.db.sessions[id := SessionRow(None, None)]);
      return Ok(pool.db.sessions[id]);
    }

    method GetMessage(id: string) returns (r: Option<Row>)
      ensures r.Some? <==> HasMessage(pool.db.messages, id)
      ensures r.Some? ==> r.value == pool.db.messages[RowIndex(pool.db.messages, id)]
    {
      if HasMessage(pool.db.messages, id) {
        r := Some(pool.db.messages[RowIndex(pool.db.messages, id)]);
      } else {
        r := None;
      }
    }

    method ListMessages(sessionId: string) returns (r: seq<SessionMessage>)
      ensures r == Listed(pool.db.messages, sessionId)
    {
      var rows: seq<Row> := [];
      r := [];
      for k := 0 to |pool.db.messages|
        invariant rows == SessionRows(pool.db.messages[..k], sessionId)
        invariant |r| == |rows| && forall i :: 0 <= i < |r| ==> r[i] == SessionMessageOf(rows[i])
      {
        assert pool.db.messages[..k + 1][..k] == pool.db.messages[..k];
        var row := pool.db.messages[k];
        if row.sessionId == sessionId {
          rows := rows + [row];
          r := r + [SessionMessageOf(row)];
        }
      }
      assert pool.db.messages[..|pool.db.messages|] == pool.db.messages;
    }

    method AppendMessage(m: NewMessage) returns (r: Result<SessionMessage>)
      modifies pool
      ensures match MessageAppended(old(pool.db), m)
              case Ok(db) => pool.db == db && r == Ok(SessionMessageOf(db.messages[|db.messages| - 1]))
              case Err(e) => pool.db == old(pool.db) && r == Err(e)
    {
      hide MaxSeq, ContentOf;
      var text := ContentToText(m.parts);
      if text.Err? {
        return Err(text.error);
      }
      if m.sessionId !in pool.db.sessions {
        return Err(NotFound("session"));
      }
      var next := MaxSeq(pool.db.messages, m.sessionId) + 1;
      var row := Row(m.id, m.sessionId, next, m.actorType, m.actorId, text.value, Some([TextPart(text.value)]), m.state, 1);
      if Conflicts(pool.db.messages, row) {
        return Err(Internal("session message append failed"));
      }
      pool.db := pool.db.(messages := pool.db.messages + [row]);
      return Ok(SessionMessageOf(row));
    }

    method ApplyMessageEvent(c: MessageChange) returns (r: Result<SessionMessage>)
      modifies pool
      ensures match MessageChanged(old(pool.db), c)
              case Ok(db) =>
                pool.db == db && HasMessage(old(pool.db).messages, c.messageId)
                && r == Ok(SessionMessageOf(db.messages[RowIndex(old(pool.db).messages, c.messageId)]))
              case Err(e) => pool.db == old(pool.db) && r == Err(e)
    {
      hide Apply, ContentToText, RowIndex;
      var messages := pool.db.messages;
      if !HasMessage(messages, c.messageId) {
        return Err(NotFound("message"));
      }
      var k := RowIndex(messages, c.messageId);
      if messages[k].sessionId != c.sessionId {
        return Err(NotFound("message"));
      }
      var updated := MessageEvents.ApplyMessageEvent(MessageOf(messages[k]), c.actorType, c.actorId, c.baseVersion, c.payload);
      if updated.Err? {
        return Err(updated.error);
      }
      var text := ContentToText(updated.value.parts);
      if text.Err? {
        return Err(text.error);
      }
      var row := messages[k].(text := text.value, json := Some(updated.value.parts),
                              state := updated.value.state, version := updated.value.version);
      pool.db := pool.db.(messages := messages[k := row]);
      return Ok(SessionMessageOf(row));
    }
  }

  function Listed(messages: seq<Row>, sessionId: string): seq<SessionMessage> {
    MessagesOf(SessionRows(messages, sessionId))
  }

  function MessagesOf(rows: seq<Row>): (r: seq<SessionMessage>)
    ensures |r| == |rows| && forall i :: 0 <= i < |r| ==> r[i] == SessionMessageOf(rows[i])
  {
    if rows == [] then [] else MessagesOf(rows[..|rows| - 1]) + [SessionMessageOf(rows[|rows| - 1])]
  }

  // ---------------------------------------------------------------------------------------
  // What the message table keeps

  /** The stored text is what the stored parts say, and they are all text. */
  predicate RowOk(row: Row) {
    AllText(ContentFromRow(row)) && ContentOf(ContentFromRow(row)) == row.text
  }

  /** Rows are sound, and each session's messages are numbered 1, 2, 3, ... in order of insertion. */
  ghost predicate TableOk(messages: seq<Row>) {
    && (forall i :: 0 <= i < |messages| ==> RowOk(messages[i]))
    && (forall s: string :: Numbered(messages, s))
  }

  predicate Numbered(messages: seq<Row>, sessionId: string) {
    forall i :: 0 <= i < |SessionRows(messages, sessionId)| ==> SessionRows(messages, sessionId)[i].sessionSeq == i + 1
  }

  lemma TextRowOk(row: Row)
    requires row.json == None || row.json == Some([TextPart(row.text)])
    ensures RowOk(row)
  {
    var parts := [TextPart(row.text)];
    assert Texts(parts) == [row.text] by { assert parts[1..] == []; assert Texts(parts[1..]) == []; }
  }

  /** The highest number of a session is the count of its messages. */
  lemma {:induction false} MaxSeqIsCount(messages: seq<Row>, sessionId: string)
    requires Numbered(messages, sessionId)
    ensures MaxSeq(messages, sessionId) == |SessionRows(messages, sessionId)|
  {
    if messages != [] {
      NumberedInit(messages, sessionId);
      MaxSeqIsCount(messages[..|messages| - 1], sessionId);
      var rows := SessionRows(messages, sessionId);
      assert rows != [] ==> rows[|rows| - 1].sessionSeq == |rows|;
    }
  }

  lemma NumberedInit(messages: seq<Row>, sessionId: string)
    requires messages != [] && Numbered(messages, sessionId)
    ensures Numbered(messages[..|messages| - 1], sessionId)
  {
    var before := SessionRows(messages[..|messages| - 1], sessionId);
    assert forall i :: 0 <= i < |before| ==> before[i] == SessionRows(messages, sessionId)[i];
  }

  lemma RowsGrow(messages: seq<Row>, row: Row, sessionId: string)
    ensures SessionRows(messages + [row], sessionId) ==
            SessionRows(messages, sessionId) + if row.sessionId == sessionId then [row] else []
  {
    InitOfConcat(messages, [row]);
    assert messages + [] == messages;
  }

  /** Appending a sound row under the session's next number keeps the table. */
  lemma AppendKeepsTable(messages: seq<Row>, row: Row)
    requires TableOk(messages) && RowOk(row)
    requires row.sessionSeq == |SessionRows(messages, row.sessionId)| + 1
    ensures TableOk(messages + [row])
  {
    hide RowOk, SessionRows;
    forall s: string ensures Numbered(messages + [row], s) {
      assert Numbered(messages, s);
      RowsGrow(messages, row, s);
    }
  }

  lemma {:induction false} RowsOfUpdate(messages: seq<Row>, k: nat, row: Row, sessionId: string)
    requires k < |messages| && row.sessionId == messages[k].sessionId && row.sessionSeq == messages[k].sessionSeq
    ensures var a, b := SessionRows(messages, sessionId), SessionRows(messages[k := row], sessionId);
            |a| == |b| && forall i :: 0 <= i < |a| ==> a[i].sessionSeq == b[i].sessionSeq
  {
    var n := |messages| - 1;
    if k < n {
      RowsOfUpdate(messages[..n], k, row, sessionId);
      assert messages[k := row][..n] == messages[..n][k := row];
    } else {
      assert messages[k := row][..n] == messages[..n];
    }
  }

  lemma UpdateKeepsTable(messages: seq<Row>, k: nat, row: Row)
    requires TableOk(messages) && RowOk(row) && k < |messages|
    requires row.sessionId == messages[k].sessionId && row.sessionSeq == messages[k].sessionSeq
    ensures TableOk(messages[k := row])
  {
    hide RowOk, SessionRows;
    var updated := messages[k := row];
    forall s: string ensures Numbered(updated, s) {
      assert Numbered(messages, s);
      RowsOfUpdate(messages, k, row, s);
    }
  }

  // ---------------------------------------------------------------------------------------
  // Forking a session's messages

  /** In a numbered session the messages up to a fork point are its first ones. */
  lemma {:induction false} UpToIsPrefix(rows: seq<Row>, forkPoint: int)
    requires forall i :: 0 <= i < |rows| ==> rows[i].sessionSeq == i + 1
    ensures RowsUpTo(rows, forkPoint) <= rows
    ensures |RowsUpTo(rows, forkPoint)| == if forkPoint < 0 then 0 else if forkPoint < |rows| then forkPoint else |rows|
  {
    if rows != [] {
      UpToIsPrefix(rows[..|rows| - 1], forkPoint);
      assert rows == rows[..|rows| - 1] + [rows[|rows| - 1]];
    }
  }

  /** A copy of one message. */
  ghost predicate IsCopy(copy: Row, row: Row, sessionId: string) {
    exists id :: copy == Copied(row, id, sessionId)
  }

  lemma HasRow(messages: seq<Row>, sessionId: string, i: int) returns (k: nat)
    requires 0 <= i < |SessionRows(messages, sessionId)|
    ensures k < |messages| && messages[k] == SessionRows(messages, sessionId)[i] && messages[k].sessionId == sessionId
  {
    var n := |messages| - 1;
    var before := SessionRows(messages[..n], sessionId);
    if i < |before| {
      k := HasRow(messages[..n], sessionId, i);
    } else {
      k := n;
    }
  }

  /** What copying does: nothing, or the session was empty and has exactly the copies now. */
  ghost predicate CopiedInto(a: seq<Row>, b: seq<Row>, rows: seq<Row>, sessionId: string) {
    && TableOk(b)
    && (rows == [] ==> b == a)
    && (rows != [] ==> SessionRows(a, sessionId) == [])
    && (rows != [] ==> |SessionRows(b, sessionId)| == |rows|)
    && (rows != [] ==> forall i :: 0 <= i < |rows| ==> IsCopy(SessionRows(b, sessionId)[i], rows[i], sessionId))
    && (forall s: string :: s != sessionId ==> SessionRows(b, s) == SessionRows(a, s))
  }

  lemma {:induction false} CopyAllCopies(messages: seq<Row>, rows: seq<Row>, ids: nat -> string, sessionId: string)
    requires TableOk(messages) && CopyAll(messages, rows, ids, sessionId).Ok?
    requires forall i :: 0 <= i < |rows| ==> rows[i].sessionSeq == i + 1
    ensures CopiedInto(messages, CopyAll(messages, rows, ids, sessionId).value, rows, sessionId)
  {
    if rows != [] {
      var n := |rows| - 1;
      CopyAllCopies(messages, rows[..n], ids, sessionId);
      var before := CopyAll(messages, rows[..n], ids, sessionId).value;
      var copy := Copied(rows[n], ids(n), sessionId);
      CopyStep(messages, before, rows, copy, sessionId);
    }
  }

  lemma CopyStep(messages: seq<Row>, before: seq<Row>, rows: seq<Row>, copy: Row, sessionId: string)
    requires rows != [] && TableOk(messages)
    requires CopiedInto(messages, before, rows[..|rows| - 1], sessionId)
    requires rows[|rows| - 1].sessionSeq == |rows| && IsCopy(copy, rows[|rows| - 1], sessionId)
    requires !Conflicts(before, copy)
    ensures CopiedInto(messages, before + [copy], rows, sessionId)
  {
    hide RowOk, SessionRows, Numbered;
    var n := |rows| - 1;
    var mine := SessionRows(before, sessionId);
    if n == 0 && |mine| > 0 {
      assert Numbered(before, sessionId);
      NumberedAt(before, sessionId, 0);
      var k := HasRow(before, sessionId, 0);
      assert false;
    }
    assert |mine| == n;
    TextRowOk(copy);
    AppendKeepsTable(before, copy);
    RowsGrow(before, copy, sessionId);
    forall s: string | s != sessionId ensures SessionRows(before + [copy], s) == SessionRows(messages, s) {
      RowsGrow(before, copy, s);
    }
    forall i | 0 <= i < |rows| ensures IsCopy((mine + [copy])[i], rows[i], sessionId) {
      if i < n { assert rows[..n][i] == rows[i]; }
    }
  }

  lemma NumberedAt(messages: seq<Row>, sessionId: string, i: int)
    requires Numbered(messages, sessionId) && 0 <= i < |SessionRows(messages, sessionId)|
    ensures SessionRows(messages, sessionId)[i].sessionSeq == i + 1
  {
  }

  // ---------------------------------------------------------------------------------------
  // Every reachable store

  lemma MessageAppendedKeepsTable(db: Db, m: NewMessage)
    requires TableOk(db.messages) && MessageAppended(db, m).Ok?
    ensures TableOk(MessageAppended(db, m).value.messages)
  {
    var text := ContentToText(m.parts).value;
    assert Numbered(db.messages, m.sessionId);
    MaxSeqIsCount(db.messages, m.sessionId);
    var row := Row(m.id, m.sessionId, MaxSeq(db.messages, m.sessionId) + 1, m.actorType, m.actorId,
                   text, Some([TextPart(text)]), m.state, 1);
    TextRowOk(row);
    hide TableOk, RowOk, MaxSeq, SessionRows;
    AppendKeepsTable(db.messages, row);
  }

  lemma MessageChangedKeepsTable(db: Db, c: MessageChange)
    requires TableOk(db.messages) && MessageChanged(db, c).Ok?
    ensures TableOk(MessageChanged(db, c).value.messages)
  {
    hide Apply, TableOk, ContentOf, RowIndex;
    var k := RowIndex(db.messages, c.messageId);
    UpdateKeepsTable(db.messages, k, RowChanged(db.messages[k], c).value);
  }

  lemma SoulForkedKeepsTable(db: Db, parentId: string, forkPoint: int, newSoul: string, newSession: string,
      ids: nat -> string)
    requires TableOk(db.messages) && SoulForked(db, parentId, forkPoint, newSoul, newSession, ids).Ok?
    ensures parentId in db.souls
    ensures var rows := RowsUpTo(SessionRows(db.messages, db.souls[parentId].sessionId), forkPoint);
            CopiedInto(db.messages, SoulForked(db, parentId, forkPoint, newSoul, newSession, ids).value.messages, rows, newSession)
  {
    hide RowOk, CopiedInto, CopyAll, ForkedSoul;
    var all := SessionRows(db.messages, db.souls[parentId].sessionId);
    assert Numbered(db.messages, db.souls[parentId].sessionId);
    hide Numbered, SessionRows, TableOk;
    NumberedRows(db.messages, db.souls[parentId].sessionId);
    UpToIsPrefix(all, forkPoint);
    var rows := RowsUpTo(all, forkPoint);
    assert forall i :: 0 <= i < |rows| ==> rows[i] == all[i];
    CopyAllCopies(db.messages, rows, ids, newSession);
  }

  lemma NumberedRows(messages: seq<Row>, sessionId: string)
    requires Numbered(messages, sessionId)
    ensures forall i :: 0 <= i < |SessionRows(messages, sessionId)| ==> SessionRows(messages, sessionId)[i].sessionSeq == i + 1
  {
  }

  lemma ExecutedKeepsTable(db: Db, op: Op)
    requires TableOk(db.messages) && Executed(db, op).Ok?
    ensures TableOk(Executed(db, op).value.messages)
  {
    hide TableOk, SoulForked, MessageAppended, MessageChanged, ToolResultAppended;
    match op {
      case AppendMessage(m) => MessageAppendedKeepsTable(db, m);
      case ChangeMessage(c) => MessageChangedKeepsTable(db, c);
      case ForkSoul(parent, forkPoint, newSoul, newSession, ids) =>
        SoulForkedKeepsTable(db, parent, forkPoint, newSoul, newSession, ids);
      case AppendToolResult(resultId, callId) => ToolResultLeavesMessages(db, resultId, callId);
      case _ =>
    }
  }

  lemma ToolResultLeavesMessages(db: Db, resultId: string, callId: string)
    requires ToolResultAppended(db, resultId, callId).Ok?
    ensures ToolResultAppended(db, resultId, callId).value.messages == db.messages
  {
  }

  lemma {:induction false} StoreKeepsTable(ops: seq<Op>)
    ensures TableOk(After(EMPTY, ops).messages)
  {
    hide Executed, TableOk;
    if ops == [] {
      EmptyTable();
    } else {
      StoreKeepsTable(ops[..|ops| - 1]);
      var before := After(EMPTY, ops[..|ops| - 1]);
      if Executed(before, ops[|ops| - 1]).Ok? { ExecutedKeepsTable(before, ops[|ops| - 1]); }
    }
  }

  lemma EmptyTable()
    ensures TableOk([])
  {
  }

  /** In every reachable store the text of each message is the joined text of its parts, all of them text. */
  lemma {:induction false} StoredTextIsTheParts(ops: seq<Op>, i: nat)
    requires i < |After(EMPTY, ops).messages|
    ensures RowOk(After(EMPTY, ops).messages[i])
  {
    StoreKeepsTable(ops);
    hide After, RowOk;
  }

  /**
   A change that is accepted stores what the event makes of the message, except for a deletion mark,
   in the one row of the message, and leaves all other rows.
   */
  lemma {:induction false} AcceptedChangeIsApplied(db: Db, c: MessageChange) returns (q: nat)
    requires MessageChanged(db, c).Ok?
    ensures var messages := MessageChanged(db, c).value.messages;
            && q < |db.messages| == |messages| && db.messages[q].id == c.messageId && db.messages[q].sessionId == c.sessionId
            && messages[..q] == db.messages[..q] && messages[q + 1..] == db.messages[q + 1..]
            && SameMessage(db.messages[q], messages[q])
            && var r := Apply(MessageOf(db.messages[q]), c.actorType, c.actorId, c.baseVersion, c.payload);
               r.Ok? && MessageOf(messages[q]) == r.value.(deletedAt := None)
  {
    q := RowIndex(db.messages, c.messageId);
    var row := db.messages[q];
    ApplyKeepsIdentity(MessageOf(row), c);
    hide Apply, ContentToText, RowIndex, HasMessage;
  }

  lemma ApplyKeepsIdentity(m: Message, c: MessageChange)
    ensures var r := Apply(m, c.actorType, c.actorId, c.baseVersion, c.payload);
            r.Ok? ==> r.value.id == m.id && r.value.actorType == m.actorType && r.value.actorId == m.actorId
  {
    hide NewParts;
  }

  // ---------------------------------------------------------------------------------------
  // The text of parts

  lemma {:induction false} TextsAppend(a: seq<Part>, b: seq<Part>)
    ensures Texts(a + b) == Texts(a) + Texts(b)
  {
    if a == [] {
      assert a + b == b;
    } else {
      assert (a + b)[1..] == a[1..] + b;
      TextsAppend(a[1..], b);
    }
  }

  lemma {:induction false} JoinAppend(a: seq<string>, b: seq<string>, sep: string)
    requires a != [] && b != []
    ensures Join(a + b, sep) == Join(a, sep) + sep + Join(b, sep)
  {
    assert (a + b)[1..] == a[1..] + b;
    if |a| == 1 {
      assert (a + b)[1..] == b;
    } else {
      JoinAppend(a[1..], b, sep);
      Assoc(a[0] + sep, Join(a[1..], sep) + sep, Join(b, sep));
      Assoc(a[0] + sep, Join(a[1..], sep), sep);
    }
  }

  /** The content of parts: a text part says its text, an image nothing, and a blank line stands between texts. */
  lemma {:induction false} ContentJoins(a: seq<Part>, b: seq<Part>)
    ensures forall t :: ContentOf([TextPart(t)]) == t
    ensures Texts(a) != [] && Texts(b) != [] ==> ContentOf(a + b) == ContentOf(a) + "\n\n" + ContentOf(b)
    ensures Texts(a) == [] ==> ContentOf(a + b) == ContentOf(b)
    ensures Texts(b) == [] ==> ContentOf(a + b) == ContentOf(a)
    ensures Texts(a) == [] <==> forall i :: 0 <= i < |a| ==> a[i].ImagePart?
  {
    forall t ensures ContentOf([TextPart(t)]) == t {
      assert [TextPart(t)][1..] == [] && Texts([]) == [];
      assert Texts([TextPart(t)]) == [t];
    }
    TextsAppend(a, b);
    if Texts(a) != [] && Texts(b) != [] { JoinAppend(Texts(a), Texts(b), "\n\n"); }
    assert [] + Texts(b) == Texts(b) && Texts(a) + [] == Texts(a);
    OnlyImages(a);
  }

  lemma {:induction false} OnlyImages(a: seq<Part>)
    ensures Texts(a) == [] <==> forall i :: 0 <= i < |a| ==> a[i].ImagePart?
  {
    if a != [] {
      OnlyImages(a[1..]);
      assert forall i :: 1 <= i < |a| ==> a[i] == a[1..][i - 1];
      assert forall i :: 0 <= i < |a[1..]| ==> a[1..][i] == a[i + 1];
    }
  }

  // ---------------------------------------------------------------------------------------
  // Deletion, which this store does not record

  /**
   A delete that is accepted leaves content and state as they were and only raises the version:
   the table has no column for it.
   */
  lemma DeleteOnlyRaisesTheVersion(row: Row, c: MessageChange)
    requires RowOk(row) && c.payload.Delete? && RowChanged(row, c).Ok?
    ensures RowChanged(row, c).value == row.(json := Some(ContentFromRow(row)), version := row.version + 1)
  {
    hide ContentOf;
  }

  /** So a stored message is closed to all changes exactly when it is fixed; a deleted one is not. */
  lemma ClosedIffFixed(row: Row)
    requires RowOk(row)
    ensures row.state.Fixed? <==> forall c: MessageChange :: RowChanged(row, c).Err?
  {
    hide ContentOf;
    if row.state.Fixed? {
      forall c: MessageChange ensures RowChanged(row, c).Err? {
        ClosedRejects(MessageOf(row), c.actorType, c.actorId, c.baseVersion, c.payload);
      }
    } else {
      var c := MessageChange(row.sessionId, row.id, row.actorType, row.actorId, row.version, Payload.Fix);
      assert RowChanged(row, c).Ok?;
    }
  }

  // ---------------------------------------------------------------------------------------
  // The child of a fork reads as its parent did

  lemma CopyReadsTheSame(row: Row, copy: Row, sessionId: string)
    requires RowOk(row) && IsCopy(copy, row, sessionId)
    ensures copy.sessionSeq == row.sessionSeq && ToInputMessage(SessionMessageOf(copy)) == ToInputMessage(SessionMessageOf(row))
  {
    TextRowOk(copy);
    hide ContentOf, AllText;
  }

  function Items(messages: seq<SessionMessage>): (r: seq<Compaction.Item>)
    ensures |r| == |messages| && forall i :: 0 <= i < |r| ==> r[i] == Compaction.MessageItem(messages[i])
  {
    seq(|messages|, i requires 0 <= i < |messages| => Compaction.MessageItem(messages[i]))
  }

  predicate ReadSame(a: seq<SessionMessage>, b: seq<SessionMessage>) {
    |a| == |b| && forall i :: 0 <= i < |a| ==> a[i].sessionSeq == b[i].sessionSeq && ToInputMessage(a[i]) == ToInputMessage(b[i])
  }

  lemma {:induction false} SameInput(a: seq<SessionMessage>, b: seq<SessionMessage>, n: nat)
    requires ReadSame(a, b) && n <= |a|
    ensures Compaction.InputUpTo(Items(a), n) == Compaction.InputUpTo(Items(b), n)
  {
    hide ToInputMessage;
    if n > 0 {
      SameInput(a, b, n - 1);
      assert Compaction.InputOf(Items(a), n - 1) == Compaction.InputOf(Items(b), n - 1);
    }
  }

  lemma {:induction false} CopiesReadTheSame(copies: seq<Row>, rows: seq<Row>, sessionId: string)
    requires |copies| == |rows| && forall i :: 0 <= i < |rows| ==> RowOk(rows[i]) && IsCopy(copies[i], rows[i], sessionId)
    ensures ReadSame(MessagesOf(copies), MessagesOf(rows))
  {
    hide RowOk, IsCopy, ToInputMessage, SessionMessageOf;
    forall i | 0 <= i < |rows|
      ensures MessagesOf(copies)[i].sessionSeq == MessagesOf(rows)[i].sessionSeq
      ensures ToInputMessage(MessagesOf(copies)[i]) == ToInputMessage(MessagesOf(rows)[i])
    {
      CopyReadsTheSame(rows[i], copies[i], sessionId);
      SeqOfMessage(rows[i]);
      SeqOfMessage(copies[i]);
    }
  }

  lemma SeqOfMessage(row: Row)
    ensures SessionMessageOf(row).sessionSeq == row.sessionSeq
  {
  }

  /** The parent's messages numbered at most `forkPoint`: a prefix of its list. */
  function ParentPart(db: Db, parentId: string, forkPoint: int): seq<SessionMessage>
    requires parentId in db.souls
  {
    MessagesOf(RowsUpTo(SessionRows(db.messages, db.souls[parentId].sessionId), forkPoint))
  }

  /**
   In every reachable store, a fork into a session without messages gives the child, message by
   message, the numbers and the provider input of the parent's messages up to the fork point, and
   changes no other session. Parts are not copied, and are not missed.
   */
  lemma ForkKeepsTheTranscript(ops: seq<Op>, parentId: string, forkPoint: int, newSoul: string, newSession: string,
      ids: nat -> string)
    requires SoulForked(After(EMPTY, ops), parentId, forkPoint, newSoul, newSession, ids).Ok?
    requires SessionRows(After(EMPTY, ops).messages, newSession) == []
    ensures var db := After(EMPTY, ops);
            var tx := SoulForked(db, parentId, forkPoint, newSoul, newSession, ids).value;
            && parentId in db.souls
            && ReadSame(Listed(tx.messages, newSession), ParentPart(db, parentId, forkPoint))
            && Compaction.AssemblyToProviderInput(Items(Listed(tx.messages, newSession))) ==
               Compaction.AssemblyToProviderInput(Items(ParentPart(db, parentId, forkPoint)))
            && forall s: string :: s != newSession ==> Listed(tx.messages, s) == Listed(db.messages, s)
  {
    StoreKeepsTable(ops);
    var db := After(EMPTY, ops);
    hide After, RowOk, IsCopy, ToInputMessage;
    SoulForkedKeepsTable(db, parentId, forkPoint, newSoul, newSession, ids);
    var tx := SoulForked(db, parentId, forkPoint, newSoul, newSession, ids).value;
    hide SoulForked;
    var all := SessionRows(db.messages, db.souls[parentId].sessionId);
    var rows := RowsUpTo(all, forkPoint);
    assert Numbered(db.messages, db.souls[parentId].sessionId);
    UpToIsPrefix(all, forkPoint);
    forall i | 0 <= i < |rows| ensures RowOk(rows[i]) {
      assert rows[i] == all[i];
      var k := HasRow(db.messages, db.souls[parentId].sessionId, i);
    }
    hide TableOk, Numbered, SessionRows;
    if rows == [] {
      assert MessagesOf(rows) == [];
    } else {
      CopiesReadTheSame(SessionRows(tx.messages, newSession), rows, newSession);
    }
    SameInput(Listed(tx.messages, newSession), MessagesOf(rows), |rows|);
  }
}
