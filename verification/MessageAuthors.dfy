/**
 Who may change a message, and when: the exact condition for an event to be accepted, and over every
 run of either ledger that each accepted event is by the author recorded at insertion.
 */
module MessageAuthors {
  import opened Common
  import opened Text
  import opened MessageEvents
  import opened Transcript
  import PG = PostgresLedger
  import S = StandaloneDb
  import SessionStore
  import Provenance
  import SoulRuntime

  // ---------------------------------------------------------------------------------------
  // When a payload fits the parts

  /** The patches of one part, in order. */
  function PatchesOf(patches: seq<PartPatch>, index: int): seq<Json> {
    if patches == [] then []
    else if patches[0].index == index then [patches[0].merge] + PatchesOf(patches[1..], index)
    else PatchesOf(patches[1..], index)
  }

  function MergedAll(part: Part, merges: seq<Json>): Result<Part>
    decreases |merges|
  {
    if merges == [] then Ok(part) else
      var p :- MergePart(part, merges[0]);
      MergedAll(p, merges[1..])
  }

  predicate IndexesIn(patches: seq<PartPatch>, n: nat) {
    forall k :: 0 <= k < |patches| ==> 0 <= patches[k].index < n
  }

  lemma {:induction false} PatchesOfMore(patches: seq<PartPatch>, patch: PartPatch, index: int)
    ensures PatchesOf(patches + [patch], index) == PatchesOf(patches, index) + if patch.index == index then [patch.merge] else []
  {
    if patches == [] {
      assert (patches + [patch])[1..] == [];
      assert PatchesOf([], index) == [];
    } else {
      assert (patches + [patch])[1..] == patches[1..] + [patch];
      PatchesOfMore(patches[1..], patch, index);
    }
  }

  lemma {:induction false} MergedAllMore(part: Part, merges: seq<Json>, merge: Json)
    ensures MergedAll(part, merges + [merge]) ==
            if MergedAll(part, merges).Err? then MergedAll(part, merges) else MergePart(MergedAll(part, merges).value, merge)
    decreases |merges|
  {
    hide MergePart;
    if merges == [] {
      assert (merges + [merge])[1..] == [];
      assert forall p :: MergedAll(p, []) == Ok(p);
    } else {
      assert (merges + [merge])[1..] == merges[1..] + [merge];
      if MergePart(part, merges[0]).Ok? { MergedAllMore(MergePart(part, merges[0]).value, merges[1..], merge); }
    }
  }

  /** Every part can take the patches made to it. */
  ghost predicate PatchesFit(parts: seq<Part>, patches: seq<PartPatch>) {
    IndexesIn(patches, |parts|) && forall i :: 0 <= i < |parts| ==> MergedAll(parts[i], PatchesOf(patches, i)).Ok?
  }

  /** The outcome, part by part. */
  ghost predicate PatchedInto(parts: seq<Part>, patches: seq<PartPatch>, r: seq<Part>) {
    |r| == |parts| && forall i :: 0 <= i < |parts| ==> MergedAll(parts[i], PatchesOf(patches, i)) == Ok(r[i])
  }

  /** Patches act on each part alone: they are accepted exactly when all indexes exist and each part takes its own. */
  lemma {:induction false} PatchesActAlone(parts: seq<Part>, patches: seq<PartPatch>)
    ensures PatchAll(parts, patches).Ok? <==> PatchesFit(parts, patches)
    ensures PatchAll(parts, patches).Ok? ==> PatchedInto(parts, patches, PatchAll(parts, patches).value)
  {
    hide MergePart, MergedAll, PatchesOf;
    if patches == [] {
      NothingPatched(parts);
    } else {
      var init, last := patches[..|patches| - 1], patches[|patches| - 1];
      assert patches == init + [last];
      PatchesActAlone(parts, init);
      forall i | 0 <= i < |parts|
        ensures MergedAll(parts[i], PatchesOf(patches, i)) ==
                if i != last.index || MergedAll(parts[i], PatchesOf(init, i)).Err? then MergedAll(parts[i], PatchesOf(init, i))
                else MergePart(MergedAll(parts[i], PatchesOf(init, i)).value, last.merge)
      {
        PatchesOfMore(init, last, i);
        MergedAllMore(parts[i], PatchesOf(init, i), last.merge);
        assert PatchesOf(init, i) + [] == PatchesOf(init, i);
      }
      assert IndexesIn(patches, |parts|) ==> IndexesIn(init, |parts|);
    }
  }

  lemma NothingPatched(parts: seq<Part>)
    ensures forall i :: 0 <= i < |parts| ==> MergedAll(parts[i], PatchesOf([], i)) == Ok(parts[i])
  {
  }

  /** The i-th smallest index lies within the parts and the i items put in before. */
  ghost predicate InsertsFit(n: nat, items: seq<InsertItem>) {
    SpacedIn(n, SortItems(items))
  }

  ghost predicate SpacedIn(n: nat, items: seq<InsertItem>) {
    forall i :: 0 <= i < |items| ==> 0 <= items[i].index <= n + i
  }

  lemma {:induction false} InsertAllFits(parts: seq<Part>, items: seq<InsertItem>)
    ensures InsertAll(parts, items).Ok? <==> SpacedIn(|parts|, items)
    ensures InsertAll(parts, items).Ok? ==> |InsertAll(parts, items).value| == |parts| + |items|
  {
    if items != [] { InsertAllFits(parts, items[..|items| - 1]); }
  }

  /** What the payload asks for can be done to these parts. */
  ghost predicate Fits(parts: seq<Part>, payload: Payload) {
    match payload
    case Patch(patches) => PatchesFit(parts, patches)
    case Insert(items) => InsertsFit(|parts|, items)
    case Remove(indexes) => InBounds(indexes, |parts|)
    case Fix => true
    case Delete(_) => true
  }

  lemma {:induction false} NewPartsIff(parts: seq<Part>, payload: Payload)
    ensures NewParts(parts, payload).Ok? <==> Fits(parts, payload)
  {
    match payload {
      case Patch(patches) => PatchesActAlone(parts, patches);
      case Insert(items) => InsertAllFits(parts, SortItems(items));
      case Remove(indexes) =>
        SortDistinctSpec(indexes);
        SameBounds(indexes, SortDistinct(indexes), |parts|);
      case _ =>
    }
  }

  lemma SameBounds(a: seq<int>, b: seq<int>, n: nat)
    requires forall k :: k in a <==> k in b
    ensures InBounds(a, n) <==> InBounds(b, n)
  {
    AllIn(a, n);
    AllIn(b, n);
  }

  lemma AllIn(a: seq<int>, n: nat)
    ensures InBounds(a, n) <==> forall x :: x in a ==> 0 <= x < n
  {
    assert forall k :: 0 <= k < |a| ==> a[k] in a;
  }

  /** The value of a key: the merge's where it has one, else the part's. */
  function Field(p: Part, merge: map<string, Json>, key: string): Option<Json> {
    if key in merge then Some(merge[key]) else
      match p
      case TextPart(t) => if key == "type" then Some(Str("text")) else if key == "text" then Some(Str(t)) else None
      case ImagePart(m, d) =>
        if key == "type" then Some(Str("image")) else if key == "mime_type" then Some(Str(m))
        else if key == "data_base64" then Some(Str(d)) else None
  }

  /**
   A patch is accepted exactly when it is an object and the fields that then hold make a text or an
   image part, which is the new part. Fields of the merge win, and others stay.
   */
  lemma {:induction false} PatchedPart(p: Part, merge: Json, q: Part)
    ensures MergePart(p, merge) == Ok(q) <==>
            merge.Object? &&
            match q
            case TextPart(t) => Field(p, merge.fields, "type") == Some(Str("text")) && Field(p, merge.fields, "text") == Some(Str(t))
            case ImagePart(m, d) =>
              && Field(p, merge.fields, "type") == Some(Str("image"))
              && Field(p, merge.fields, "mime_type") == Some(Str(m)) && Field(p, merge.fields, "data_base64") == Some(Str(d))
  {
  }

  // ---------------------------------------------------------------------------------------
  // When an event is accepted, and which error it meets first

  predicate ByItsAuthor(m: Message, actorType: ActorType, actorId: string) {
    m.actorType == actorType && m.actorId == actorId
  }

  /**
   An event is accepted exactly when it is by the message's author, at its version, the message is
   neither deleted nor fixed, and the payload fits its parts. Then identity and author stay, the version
   is one higher, and only a fix or a delete closes the message.
   */
  lemma {:induction false} AcceptedIff(m: Message, actorType: ActorType, actorId: string, baseVersion: int,
      payload: Payload)
    ensures var r := Apply(m, actorType, actorId, baseVersion, payload);
            && (r.Ok? <==>
                  && ByItsAuthor(m, actorType, actorId) && baseVersion == m.version
                  && m.deletedAt.None? && m.state.Pending? && Fits(m.parts, payload))
            && (r.Ok? ==>
                  && r.value.id == m.id && ByItsAuthor(r.value, actorType, actorId) && r.value.version == m.version + 1
                  && (r.value.state.Fixed? <==> payload.Fix?) && (r.value.deletedAt.Some? <==> payload.Delete?)
                  && (payload.Fix? || payload.Delete? ==> r.value.parts == m.parts))
  {
    NewPartsIff(m.parts, payload);
    hide NewParts, Fits, Decimal;
    assert (payload.Fix? || payload.Delete?) ==> NewParts(m.parts, payload) == Ok(m.parts) by { ClosingKeepsParts(m.parts, payload); }
  }

  lemma ClosingKeepsParts(parts: seq<Part>, payload: Payload)
    ensures payload.Fix? || payload.Delete? ==> NewParts(parts, payload) == Ok(parts)
  {
  }

  /** Of several reasons to refuse an event the first of these is told: author, version, deleted, fixed. */
  lemma {:induction false} FirstReasonIsTold(m: Message, actorType: ActorType, actorId: string, baseVersion: int,
      payload: Payload)
    ensures var r, author := Apply(m, actorType, actorId, baseVersion, payload), ByItsAuthor(m, actorType, actorId);
            && (!author ==> r == Err(InvalidInput("only the original actor may mutate a message")))
            && (author && baseVersion != m.version ==>
                  r == Err(InvalidInput("message version mismatch: expected " + Decimal(m.version) + ", got " + Decimal(baseVersion))))
            && (author && baseVersion == m.version && m.deletedAt.Some? ==>
                  r == Err(InvalidInput("deleted messages cannot be mutated")))
            && (author && baseVersion == m.version && m.deletedAt.None? && m.state.Fixed? ==>
                  r == Err(InvalidInput("fixed messages cannot be mutated")))
  {
    hide NewParts, Decimal;
  }

  // ---------------------------------------------------------------------------------------
  // The Postgres ledger

  /** The message was inserted like this, by one of the steps: as given, at version 1 and not deleted. */
  ghost predicate InsertedBy(steps: seq<PG.Step>, m: Message) {
    exists k :: 0 <= k < |steps| && steps[k].Append? && steps[k].message.messageId == m.id
                && ByItsAuthor(m, steps[k].message.actorType, steps[k].message.actorId)
                && m.parts == steps[k].message.parts && m.state == steps[k].message.state
                && m.version == 1 && m.deletedAt.None?
  }

  ghost predicate AuthorsKept(w: PG.World, steps: seq<PG.Step>) {
    && w.origin.Keys == w.db.messages.Keys
    && (forall id :: id in w.origin ==>
          && w.origin[id].id == id && InsertedBy(steps, w.origin[id])
          && ByItsAuthor(w.db.messages[id], w.origin[id].actorType, w.origin[id].actorId))
    && (forall i :: 0 <= i < |w.db.events| ==>
          && w.db.events[i].messageId in w.origin
          && ByItsAuthor(w.origin[w.db.events[i].messageId], w.db.events[i].actorType, w.db.events[i].actorId))
  }

  lemma StillInserted(steps: seq<PG.Step>, m: Message)
    requires steps != [] && InsertedBy(steps[..|steps| - 1], m)
    ensures InsertedBy(steps, m)
  {
    var init := steps[..|steps| - 1];
    var k :| 0 <= k < |init| && init[k].Append? && init[k].message.messageId == m.id
             && ByItsAuthor(m, init[k].message.actorType, init[k].message.actorId)
             && m.parts == init[k].message.parts && m.state == init[k].message.state && m.version == 1 && m.deletedAt.None?;
    assert steps[k] == init[k];
  }

  lemma MutateKeepsAuthors(w: PG.World, c: PG.Change, now: string, steps: seq<PG.Step>)
    requires AuthorsKept(w, steps) && PG.Changed(w.db, c, now).Ok?
    ensures AuthorsKept(w.(db := PG.Changed(w.db, c, now).value), steps)
  {
    PG.ChangedEffect(w.db, c, now);
    AcceptedIff(w.db.messages[c.messageId], c.actorType, c.actorId, c.baseVersion, c.payload);
    hide PG.Changed, Apply, InsertedBy, Fits;
  }

  lemma AppendKeepsAuthors(w: PG.World, m: PG.NewMessage, steps: seq<PG.Step>)
    requires PG.PositiveSeqs(w.db) && AuthorsKept(w, steps) && PG.Appended(w.db, m).Ok? && InsertedBy(steps, PG.Inserted(m))
    ensures AuthorsKept(PG.Next(w, PG.Append(m)), steps)
  {
    hide InsertedBy, PG.MaxSeq;
  }

  lemma {:induction false} RunKeepsAuthors(steps: seq<PG.Step>)
    ensures AuthorsKept(PG.Run(steps), steps)
  {
    hide InsertedBy, PG.Changed, PG.Appended;
    if steps != [] {
      var init, step := steps[..|steps| - 1], steps[|steps| - 1];
      RunKeepsAuthors(init);
      var w := PG.Run(init);
      forall id | id in w.origin ensures InsertedBy(steps, w.origin[id]) { StillInserted(steps, w.origin[id]); }
      match step
      case Create(s) =>
      case Append(m) =>
        if PG.Appended(w.db, m).Ok? {
          assert InsertedBy(steps, PG.Inserted(m)) by { JustInserted(steps, m); }
          AppendKeepsAuthors(w, m, steps);
        }
      case Mutate(c, now) => if PG.Changed(w.db, c, now).Ok? { MutateKeepsAuthors(w, c, now, steps); }
    }
  }

  lemma JustInserted(steps: seq<PG.Step>, m: PG.NewMessage)
    requires steps != [] && steps[|steps| - 1] == PG.Append(m)
    ensures InsertedBy(steps, PG.Inserted(m))
  {
    assert steps[|steps| - 1].message == m;
  }

  /** After every run of the Postgres ledger each event row is by the author with which its message was inserted. */
  lemma {:induction false} EveryEventIsByTheAuthor(steps: seq<PG.Step>, i: nat)
    requires i < |PG.Run(steps).db.events|
    ensures var w := PG.Run(steps);
            var row := w.db.events[i];
            && row.messageId in w.origin && w.origin[row.messageId].id == row.messageId
            && InsertedBy(steps, w.origin[row.messageId]) && ByItsAuthor(w.origin[row.messageId], row.actorType, row.actorId)
  {
    RunKeepsAuthors(steps);
    hide InsertedBy, PG.Run;
  }

  // ---------------------------------------------------------------------------------------
  // The standalone ledger

  /** A copy has the author, the text, the state and the number of the row it was made from, in the new session. */
  predicate CopyOf(row: S.Row, p: S.Row, sessionId: string) {
    && row.actorType == p.actorType && row.actorId == p.actorId && row.text == p.text && row.state == p.state
    && row.sessionSeq == p.sessionSeq && row.sessionId == sessionId && row.version == 1 && row.json.None?
  }

  /** What the transaction that inserts a row says: the message appended, or a message of the forked parent. */
  ghost predicate InsertedWith(db: S.Db, op: S.Op, row: S.Row) {
    match op
    case AppendMessage(m) =>
      && row.id == m.id && row.sessionId == m.sessionId && row.actorType == m.actorType && row.actorId == m.actorId
      && row.state == m.state && row.version == 1 && row.text == ContentOf(m.parts)
    case ForkSoul(parent, forkPoint, _, newSession, _) =>
      && parent in db.souls
      && exists p :: p in db.messages && p.sessionId == db.souls[parent].sessionId && p.sessionSeq <= forkPoint && CopyOf(row, p, newSession)
    case _ => false
  }

  lemma {:induction false} CopiedRows(messages: seq<S.Row>, rows: seq<S.Row>, ids: nat -> string, sessionId: string)
    requires S.CopyAll(messages, rows, ids, sessionId).Ok?
    ensures var r := S.CopyAll(messages, rows, ids, sessionId).value;
            && |r| == |messages| + |rows|
            && forall i :: 0 <= i < |rows| ==> CopyOf(r[|messages| + i], rows[i], sessionId)
  {
    if rows != [] { CopiedRows(messages, rows[..|rows| - 1], ids, sessionId); }
  }

  lemma {:induction false} CutRows(messages: seq<S.Row>, sessionId: string)
    ensures forall row :: row in S.SessionRows(messages, sessionId) ==> row in messages && row.sessionId == sessionId
  {
    if messages != [] {
      CutRows(messages[..|messages| - 1], sessionId);
      assert forall row :: row in messages[..|messages| - 1] ==> row in messages;
    }
  }

  lemma {:induction false} CutUpTo(rows: seq<S.Row>, forkPoint: int)
    ensures forall row :: row in S.RowsUpTo(rows, forkPoint) ==> row in rows && row.sessionSeq <= forkPoint
  {
    if rows != [] {
      CutUpTo(rows[..|rows| - 1], forkPoint);
      assert forall row :: row in rows[..|rows| - 1] ==> row in rows;
    }
  }

  /** A transaction inserts rows at the end only, as it says. */
  ghost predicate InsertsRows(db: S.Db, op: S.Op, tx: S.Db) {
    && S.MessagesKept(db.messages, tx.messages)
    && forall q :: |db.messages| <= q < |tx.messages| ==> InsertedWith(db, op, tx.messages[q])
  }

  lemma ForkInserts(db: S.Db, parent: string, forkPoint: int, newSoul: string, newSession: string, ids: nat -> string)
    requires S.SoulForked(db, parent, forkPoint, newSoul, newSession, ids).Ok?
    ensures InsertsRows(db, S.ForkSoul(parent, forkPoint, newSoul, newSession, ids),
                        S.SoulForked(db, parent, forkPoint, newSoul, newSession, ids).value)
  {
    hide S.CopyAll, S.RowsUpTo, S.SessionRows, S.ForkedSoul, CopyOf;
    var tx := S.SoulForked(db, parent, forkPoint, newSoul, newSession, ids).value;
    var all := S.SessionRows(db.messages, db.souls[parent].sessionId);
    var rows := S.RowsUpTo(all, forkPoint);
    SoulRuntime.CopyAllKeeps(db.messages, rows, ids, newSession);
    CopiedRows(db.messages, rows, ids, newSession);
    CutRows(db.messages, db.souls[parent].sessionId);
    CutUpTo(all, forkPoint);
    forall q | |db.messages| <= q < |tx.messages|
      ensures exists p :: p in db.messages && p.sessionId == db.souls[parent].sessionId && p.sessionSeq <= forkPoint
                          && CopyOf(tx.messages[q], p, newSession)
    {
      var i := q - |db.messages|;
      assert CopyOf(tx.messages[|db.messages| + i], rows[i], newSession) && rows[i] in rows;
    }
  }

  lemma AppendInserts(db: S.Db, m: S.NewMessage)
    requires S.MessageAppended(db, m).Ok?
    ensures InsertsRows(db, S.AppendMessage(m), S.MessageAppended(db, m).value)
  {
    hide S.MaxSeq, S.Conflicts, ContentOf;
  }

  lemma ChangeInserts(db: S.Db, c: S.MessageChange)
    requires S.MessageChanged(db, c).Ok?
    ensures InsertsRows(db, S.ChangeMessage(c), S.MessageChanged(db, c).value)
    ensures |S.MessageChanged(db, c).value.messages| == |db.messages|
  {
    hide S.ContentToText, Apply, S.RowIndex;
  }

  lemma StepInserts(db: S.Db, op: S.Op)
    requires S.Executed(db, op).Ok?
    ensures InsertsRows(db, op, S.Executed(db, op).value)
  {
    hide S.MessageAppended, S.MessageChanged, S.SoulForked, S.ToolResultAppended, InsertsRows;
    match op {
      case AppendMessage(m) => AppendInserts(db, m);
      case ChangeMessage(c) => ChangeInserts(db, c);
      case ForkSoul(parent, forkPoint, newSoul, newSession, ids) => ForkInserts(db, parent, forkPoint, newSoul, newSession, ids);
      case AppendToolResult(resultId, callId) =>
        SessionStore.ToolResultLeavesMessages(db, resultId, callId);
        SameRows(db, op, S.Executed(db, op).value);
      case _ => SameRows(db, op, S.Executed(db, op).value);
    }
  }

  lemma SameRows(db: S.Db, op: S.Op, tx: S.Db)
    requires tx.messages == db.messages
    ensures InsertsRows(db, op, tx)
  {
  }

  /** This row was inserted by the m-th transaction, with the author that it has. */
  ghost predicate RowInsertedBy(ops: seq<S.Op>, m: nat, q: nat, row: S.Row) {
    && m < |ops| && |Provenance.Before(ops, m).messages| <= q < |Provenance.Before(ops, m + 1).messages|
    && S.SameMessage(Provenance.Before(ops, m + 1).messages[q], row)
    && InsertedWith(Provenance.Before(ops, m), ops[m], Provenance.Before(ops, m + 1).messages[q])
  }

  lemma {:induction false} RowsAreInserted(ops: seq<S.Op>, q: nat) returns (m: nat)
    requires q < |S.After(S.EMPTY, ops).messages|
    ensures RowInsertedBy(ops, m, q, S.After(S.EMPTY, ops).messages[q])
  {
    hide InsertedWith, S.Executed;
    if ops == [] { NoRows(); }
    var init, n := ops[..|ops| - 1], |ops| - 1;
    var db := S.After(S.EMPTY, init);
    Provenance.BeforeInit(ops, n);
    if S.Executed(db, ops[n]).Ok? { StepInserts(db, ops[n]); }
    if q < |db.messages| {
      m := RowsAreInserted(init, q);
      Provenance.BeforeInit(ops, m);
      Provenance.BeforeInit(ops, m + 1);
    } else {
      m := n;
    }
  }

  lemma NoRows()
    ensures S.After(S.EMPTY, []).messages == []
  {
  }

  /**
   In every run of the standalone store, a change that is accepted is by the author of the row, and that
   is the author with which an earlier transaction inserted it: the appended message's, or that of the
   parent's message that a fork copied.
   */
  lemma {:induction false} EveryChangeIsByTheAuthor(ops: seq<S.Op>, c: S.MessageChange) returns (q: nat, m: nat)
    requires S.MessageChanged(S.After(S.EMPTY, ops), c).Ok?
    ensures var messages := S.After(S.EMPTY, ops).messages;
            && q < |messages| && messages[q].id == c.messageId && messages[q].sessionId == c.sessionId
            && messages[q].actorType == c.actorType && messages[q].actorId == c.actorId
            && RowInsertedBy(ops, m, q, messages[q])
  {
    var db := S.After(S.EMPTY, ops);
    q := S.RowIndex(db.messages, c.messageId);
    ChangedByAuthor(db, c, q);
    m := RowsAreInserted(ops, q);
  }

  lemma ChangedByAuthor(db: S.Db, c: S.MessageChange, q: nat)
    requires S.MessageChanged(db, c).Ok? && S.HasMessage(db.messages, c.messageId) && q == S.RowIndex(db.messages, c.messageId)
    ensures q < |db.messages| && db.messages[q].sessionId == c.sessionId
    ensures db.messages[q].actorType == c.actorType && db.messages[q].actorId == c.actorId
  {
    AcceptedIff(S.MessageOf(db.messages[q]), c.actorType, c.actorId, c.baseVersion, c.payload);
    hide Apply, S.ContentToText, Fits;
  }
}
