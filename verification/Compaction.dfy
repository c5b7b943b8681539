/**
 Which messages and compacts reach the provider, and how the threshold hook extends the
 compacts. The projection is stated over arbitrary item sequences.
 */
module Compaction {
  import opened Common
  import opened Text
  import opened MessageEvents
  import opened Transcript

  datatype Item =
    | MessageItem(message: SessionMessage)
    | CompactItem(compact: Compact)
    | ToolCallItem(callId: string)
    | ToolResultItem(resultId: string)

  function AsSeq<T>(o: Option<T>): seq<T> {
    if o.Some? then [o.value] else []
  }

  // ---------------------------------------------------------------------------------------
  // The projection, by index as the program computes it

  predicate Within(inner: Compact, outer: Compact) {
    outer.start <= inner.start && inner.end <= outer.end
  }

  predicate Supersedes(items: seq<Item>, later: int, i: int)
    requires 0 <= i < |items| && items[i].CompactItem?
  {
    i < later < |items| && items[later].CompactItem? && Within(items[i].compact, items[later].compact)
  }

  /** A compact is effective unless a later compact covers its whole range. */
  predicate Effective(items: seq<Item>, i: int) {
    && 0 <= i < |items| && items[i].CompactItem?
    && !exists later :: 0 <= later < |items| && Supersedes(items, later, i)
  }

  function EffectiveCompactIndexes(items: seq<Item>): set<int> {
    set i | 0 <= i < |items| && Effective(items, i)
  }

  predicate Covers(item: Item, sessionSeq: int) {
    item.CompactItem? && item.compact.start <= sessionSeq <= item.compact.end
  }

  predicate MessageIsCompacted(sessionSeq: int, items: seq<Item>, effective: set<int>) {
    exists i :: 0 <= i < |items| && i in effective && Covers(items[i], sessionSeq)
  }

  function InputOf(items: seq<Item>, i: int): seq<InputMessage>
    requires 0 <= i < |items|
  {
    var effective := EffectiveCompactIndexes(items);
    match items[i]
    case MessageItem(m) => if MessageIsCompacted(m.sessionSeq, items, effective) then [] else AsSeq(ToInputMessage(m))
    case CompactItem(c) => if i in effective then AsSeq(CompactToInputMessage(c)) else []
    case _ => []
  }

  function InputUpTo(items: seq<Item>, n: nat): seq<InputMessage>
    requires n <= |items|
  {
    if n == 0 then [] else InputUpTo(items, n - 1) + InputOf(items, n - 1)
  }

  function AssemblyToProviderInput(items: seq<Item>): seq<InputMessage> {
    InputUpTo(items, |items|)
  }

  /** `build_assembly_items`: one item for each message of the session, in ledger order. */
  method BuildAssemblyItems(messages: seq<SessionMessage>) returns (items: seq<Item>)
    ensures |items| == |messages| && forall i :: 0 <= i < |items| ==> items[i] == MessageItem(messages[i])
  {
    items := [];
    for i := 0 to |messages|
      invariant |items| == i && forall j :: 0 <= j < i ==> items[j] == MessageItem(messages[j])
    {
      items := items + [MessageItem(messages[i])];
    }
  }

  // ---------------------------------------------------------------------------------------
  // No coverage is lost

  /** Every compact's range lies inside an effective compact at or after it. */
  lemma {:induction false} InsideAnEffectiveOne(items: seq<Item>, i: int) returns (e: int)
    requires 0 <= i < |items| && items[i].CompactItem?
    ensures i <= e && Effective(items, e) && Within(items[i].compact, items[e].compact)
    decreases |items| - i
  {
    if Effective(items, i) {
      e := i;
    } else {
      var later :| 0 <= later < |items| && Supersedes(items, later, i);
      e := InsideAnEffectiveOne(items, later);
    }
  }

  /** A message is hidden by the effective compacts exactly when some compact covers it. */
  lemma HiddenIffCovered(items: seq<Item>, sessionSeq: int)
    ensures MessageIsCompacted(sessionSeq, items, EffectiveCompactIndexes(items)) <==>
            exists i :: 0 <= i < |items| && Covers(items[i], sessionSeq)
  {
    if i :| 0 <= i < |items| && Covers(items[i], sessionSeq) {
      var e := InsideAnEffectiveOne(items, i);
      assert Covers(items[e], sessionSeq);
    }
  }

  // ---------------------------------------------------------------------------------------
  // The projection, from the front of the sequence, and its independence of superseded compacts

  predicate Covered(items: seq<Item>, sessionSeq: int) {
    exists i :: 0 <= i < |items| && Covers(items[i], sessionSeq)
  }

  predicate SupersededBy(c: Compact, later: seq<Item>) {
    exists i :: 0 <= i < |later| && later[i].CompactItem? && Within(c, later[i].compact)
  }

  function Visible(item: Item, later: seq<Item>, all: seq<Item>): seq<InputMessage> {
    match item
    case MessageItem(m) => if Covered(all, m.sessionSeq) then [] else AsSeq(ToInputMessage(m))
    case CompactItem(c) => if SupersededBy(c, later) then [] else AsSeq(CompactToInputMessage(c))
    case _ => []
  }

  function Projection(items: seq<Item>, all: seq<Item>): seq<InputMessage> {
    if items == [] then [] else Visible(items[0], items[1..], all) + Projection(items[1..], all)
  }

  lemma EffectiveIsNotSuperseded(items: seq<Item>, i: int)
    requires 0 <= i < |items| && items[i].CompactItem?
    ensures i in EffectiveCompactIndexes(items) <==> !SupersededBy(items[i].compact, items[i + 1..])
  {
    var c, later := items[i].compact, items[i + 1..];
    if SupersededBy(c, later) {
      var j :| 0 <= j < |later| && later[j].CompactItem? && Within(c, later[j].compact);
      assert Supersedes(items, i + 1 + j, i);
    } else {
      assert forall j :: i < j < |items| ==> items[j] == later[j - i - 1];
    }
  }

  lemma InputIsVisible(items: seq<Item>, n: nat)
    requires n < |items|
    ensures InputOf(items, n) == Visible(items[n], items[n + 1..], items)
  {
    match items[n]
    case MessageItem(m) => HiddenIffCovered(items, m.sessionSeq);
    case CompactItem(c) => EffectiveIsNotSuperseded(items, n);
    case _ =>
  }

  lemma {:induction false} ProjectionFrom(items: seq<Item>, n: nat)
    requires n <= |items|
    ensures AssemblyToProviderInput(items) == InputUpTo(items, n) + Projection(items[n..], items)
    decreases |items| - n
  {
    hide InputOf, Visible;
    if n < |items| {
      ProjectionFrom(items, n + 1);
      assert items[n..][0] == items[n] && items[n..][1..] == items[n + 1..];
      InputIsVisible(items, n);
      Assoc(InputUpTo(items, n), InputOf(items, n), Projection(items[n + 1..], items));
    }
  }

  /** The index computation and the front-to-back reading agree; the output keeps the items' order. */
  lemma ProjectionIsTheInput(items: seq<Item>)
    ensures AssemblyToProviderInput(items) == Projection(items, items)
  {
    ProjectionFrom(items, 0);
  }

  /** Dropping every superseded compact. */
  function Pruned(items: seq<Item>): seq<Item> {
    if items == [] then []
    else if items[0].CompactItem? && SupersededBy(items[0].compact, items[1..]) then Pruned(items[1..])
    else [items[0]] + Pruned(items[1..])
  }

  lemma SupersededStep(c: Compact, head: Item, tail: seq<Item>)
    ensures SupersededBy(c, [head] + tail) <==> (head.CompactItem? && Within(c, head.compact)) || SupersededBy(c, tail)
  {
    if SupersededBy(c, tail) {
      var i :| 0 <= i < |tail| && tail[i].CompactItem? && Within(c, tail[i].compact);
      assert ([head] + tail)[i + 1] == tail[i];
    }
    if head.CompactItem? && Within(c, head.compact) {
      assert ([head] + tail)[0] == head;
    }
  }

  lemma CoveredStep(s: int, head: Item, tail: seq<Item>)
    ensures Covered([head] + tail, s) <==> Covers(head, s) || Covered(tail, s)
  {
    if Covered(tail, s) {
      var i :| 0 <= i < |tail| && Covers(tail[i], s);
      assert ([head] + tail)[i + 1] == tail[i];
    }
    if Covers(head, s) {
      assert ([head] + tail)[0] == head;
    }
  }

  lemma SupersededMonotone(c: Compact, d: Compact, later: seq<Item>)
    requires Within(c, d) && SupersededBy(d, later)
    ensures SupersededBy(c, later)
  {
  }

  lemma SupersededCovers(c: Compact, later: seq<Item>, s: int)
    requires SupersededBy(c, later) && c.start <= s <= c.end
    ensures Covered(later, s)
  {
    var i :| 0 <= i < |later| && later[i].CompactItem? && Within(c, later[i].compact);
    assert Covers(later[i], s);
  }

  /** Pruning changes neither which ranges are superseded nor which messages are covered. */
  lemma {:induction false} PruningKeepsCoverage(items: seq<Item>, c: Compact, s: int)
    ensures SupersededBy(c, Pruned(items)) <==> SupersededBy(c, items)
    ensures Covered(Pruned(items), s) <==> Covered(items, s)
  {
    if items != [] {
      var head, tail := items[0], items[1..];
      assert items == [head] + tail;
      PruningKeepsCoverage(tail, c, s);
      SupersededStep(c, head, tail);
      CoveredStep(s, head, tail);
      if head.CompactItem? && SupersededBy(head.compact, tail) {
        if Within(c, head.compact) { SupersededMonotone(c, head.compact, tail); }
        if Covers(head, s) { SupersededCovers(head.compact, tail, s); }
      } else {
        SupersededStep(c, head, Pruned(tail));
        CoveredStep(s, head, Pruned(tail));
      }
    }
  }

  lemma {:induction false} PrunedProjection(items: seq<Item>, all: seq<Item>)
    ensures Projection(Pruned(items), Pruned(all)) == Projection(items, all)
  {
    if items != [] {
      var head, tail := items[0], items[1..];
      PrunedProjection(tail, all);
      if head.MessageItem? {
        PruningKeepsCoverage(all, Compact("", "", "", 0, 0), head.message.sessionSeq);
      }
      if head.CompactItem? {
        PruningKeepsCoverage(tail, head.compact, 0);
      }
      if !(head.CompactItem? && SupersededBy(head.compact, tail)) {
        var p := [head] + Pruned(tail);
        assert Pruned(items) == p && p[0] == head && p[1..] == Pruned(tail);
      }
    }
  }

  /**
   Superseded compacts can be dropped: what reaches the provider is the same, and selecting the
   effective compacts a second time drops nothing more.
   */
  lemma PruningIsInvisible(items: seq<Item>)
    ensures AssemblyToProviderInput(Pruned(items)) == AssemblyToProviderInput(items)
    ensures Pruned(Pruned(items)) == Pruned(items)
  {
    ProjectionIsTheInput(items);
    ProjectionIsTheInput(Pruned(items));
    PrunedProjection(items, items);
    PrunedTwice(items);
  }

  lemma {:induction false} PrunedTwice(items: seq<Item>)
    ensures Pruned(Pruned(items)) == Pruned(items)
  {
    if items != [] {
      var head, tail := items[0], items[1..];
      PrunedTwice(tail);
      if head.CompactItem? { PruningKeepsCoverage(tail, head.compact, 0); }
      if !(head.CompactItem? && SupersededBy(head.compact, tail)) {
        var p := [head] + Pruned(tail);
        assert Pruned(items) == p && p[0] == head && p[1..] == Pruned(tail);
      }
    }
  }

  // ---------------------------------------------------------------------------------------
  // The threshold hooks

  datatype TriggerType = SessionSend | SystemTrigger

  datatype CompactThresholdHook = CompactThresholdHook(id: string, minMessages: nat, summaryTemplate: Option<string>)

  datatype TurnCompleted = TurnCompleted(turnId: string, trigger: TriggerType, assistantSeq: Option<int>,
      tail: seq<Item>)

  datatype CompactAction = CompactAction(start: int, end: int, summary: string, hookId: string, turnId: string)

  function CompactEnds(items: seq<Item>): seq<int> {
    if items == [] then []
    else (if items[0].CompactItem? then [items[0].compact.end] else []) + CompactEnds(items[1..])
  }

  function MaxOf(s: seq<int>): Option<int> {
    if s == [] then None
    else
      match MaxOf(s[1..])
      case None => Some(s[0])
      case Some(m) => Some(if s[0] > m then s[0] else m)
  }

  function LastCompactEnd(items: seq<Item>): int {
    MaxOf(CompactEnds(items)).GetOr(0)
  }

  predicate Counted(item: Item, last: int) {
    item.MessageItem? && item.message.sessionSeq > last
  }

  function CountSince(items: seq<Item>, last: int): nat {
    if items == [] then 0 else (if Counted(items[0], last) then 1 else 0) + CountSince(items[1..], last)
  }

  function Summary(hook: CompactThresholdHook, start: int, end: int, turnId: string): string {
    hook.summaryTemplate.GetOr(
      "Auto compact for session range " + Decimal(start) + "-" + Decimal(end) + " after turn " + turnId)
  }

  function EvaluateCompact(hook: CompactThresholdHook, input: TurnCompleted): Option<CompactAction> {
    var last := LastCompactEnd(input.tail);
    if input.assistantSeq.None? then None
    else if CountSince(input.tail, last) < hook.minMessages then None
    else
      var start, end := last + 1, input.assistantSeq.value;
      Some(CompactAction(start, end, Summary(hook, start, end, input.turnId), hook.id, input.turnId))
  }

  datatype ForkHandoffHook = ForkHandoffHook(id: string, minMessages: nat)

  /** The fork point of the handoff that the hook asks for. */
  function EvaluateForkHandoff(hook: ForkHandoffHook, input: TurnCompleted): Option<int> {
    if input.trigger != SessionSend then None
    else if input.assistantSeq.None? then None
    else if CountSince(input.tail, LastCompactEnd(input.tail)) < hook.minMessages then None
    else input.assistantSeq
  }

  /**
   A handoff is asked for exactly when a user's turn would trip a compact hook with the same
   threshold; a seeded turn, which has the system trigger, never asks for another handoff.
   */
  lemma HandoffFiresWithCompact(fork: ForkHandoffHook, hook: CompactThresholdHook, input: TurnCompleted)
    requires fork.minMessages == hook.minMessages
    ensures EvaluateForkHandoff(fork, input).Some? <==> input.trigger == SessionSend && EvaluateCompact(hook, input).Some?
    ensures EvaluateForkHandoff(fork, input).Some? ==>
              EvaluateForkHandoff(fork, input).value == EvaluateCompact(hook, input).value.end
  {
  }

  /** The compact that `execute_compact` stores for an action: the summary is trimmed. */
  function StoredCompact(a: CompactAction, id: string, turnId: string): Compact {
    Compact(id, turnId, Trim(a.summary), a.start, a.end)
  }

  ghost predicate WellFormed(items: seq<Item>) {
    forall i :: 0 <= i < |items| && items[i].CompactItem? ==> items[i].compact.start <= items[i].compact.end
  }

  ghost predicate AssistantIsLast(items: seq<Item>, assistantSeq: int) {
    forall i :: 0 <= i < |items| && items[i].MessageItem? ==> items[i].message.sessionSeq <= assistantSeq
  }

  lemma {:induction false} LastCompactEndIsMax(items: seq<Item>)
    ensures MaxOf(CompactEnds(items)).None? <==> forall i :: 0 <= i < |items| ==> !items[i].CompactItem?
    ensures MaxOf(CompactEnds(items)).Some? ==>
              forall i :: 0 <= i < |items| && items[i].CompactItem? ==> items[i].compact.end <= MaxOf(CompactEnds(items)).value
  {
    if items != [] {
      var ends := CompactEnds(items);
      LastCompactEndIsMax(items[1..]);
      assert forall i :: 1 <= i < |items| ==> items[i] == items[1..][i - 1];
      if items[0].CompactItem? {
        assert ends[0] == items[0].compact.end && ends[1..] == CompactEnds(items[1..]);
      } else {
        assert ends == CompactEnds(items[1..]);
      }
    }
  }

  lemma {:induction false} EndsAfterAppend(items: seq<Item>, c: Compact)
    requires MaxOf(CompactEnds(items)).Some? ==> MaxOf(CompactEnds(items)).value <= c.end
    ensures MaxOf(CompactEnds(items + [CompactItem(c)])) == Some(c.end)
  {
    var longer := items + [CompactItem(c)];
    if items == [] {
      assert longer[1..] == [];
    } else {
      var ends, tailEnds := CompactEnds(items), CompactEnds(items[1..]);
      assert longer[1..] == items[1..] + [CompactItem(c)];
      if items[0].CompactItem? {
        assert ends[0] == items[0].compact.end && ends[1..] == tailEnds;
        assert CompactEnds(longer)[0] == ends[0] && CompactEnds(longer)[1..] == CompactEnds(longer[1..]);
      } else {
        assert ends == tailEnds && CompactEnds(longer) == CompactEnds(longer[1..]);
      }
      EndsAfterAppend(items[1..], c);
    }
  }

  lemma {:induction false} CountPositive(items: seq<Item>, last: int)
    requires CountSince(items, last) > 0
    ensures exists i :: 0 <= i < |items| && Counted(items[i], last)
  {
    if !Counted(items[0], last) {
      CountPositive(items[1..], last);
      var i :| 0 <= i < |items[1..]| && Counted(items[1..][i], last);
      assert Counted(items[i + 1], last);
    }
  }

  lemma {:induction false} CountNone(items: seq<Item>, last: int)
    requires forall i :: 0 <= i < |items| ==> !Counted(items[i], last)
    ensures CountSince(items, last) == 0
  {
    if items != [] { CountNone(items[1..], last); }
  }

  /** The items without the messages that the hook counted. */
  function WithoutCounted(items: seq<Item>, last: int): seq<Item> {
    if items == [] then []
    else (if Counted(items[0], last) then [] else [items[0]]) + WithoutCounted(items[1..], last)
  }

  lemma {:induction false} WithoutCountedSpec(items: seq<Item>, last: int, c: Compact, s: int)
    ensures |WithoutCounted(items, last)| == |items| - CountSince(items, last)
    ensures SupersededBy(c, WithoutCounted(items, last)) <==> SupersededBy(c, items)
    ensures Covered(WithoutCounted(items, last), s) <==> Covered(items, s)
  {
    if items != [] {
      var head, tail := items[0], items[1..];
      assert items == [head] + tail;
      WithoutCountedSpec(tail, last, c, s);
      SupersededStep(c, head, tail);
      CoveredStep(s, head, tail);
      SupersededStep(c, head, WithoutCounted(tail, last));
      CoveredStep(s, head, WithoutCounted(tail, last));
      if Counted(head, last) {
        assert [] + WithoutCounted(tail, last) == WithoutCounted(tail, last);
      }
    }
  }

  lemma AppendOne(items: seq<Item>, c: Compact, d: Compact, s: int)
    ensures SupersededBy(d, items + [CompactItem(c)]) <==> SupersededBy(d, items) || Within(d, c)
    ensures Covered(items + [CompactItem(c)], s) <==> Covered(items, s) || c.start <= s <= c.end
  {
    var longer := items + [CompactItem(c)];
    assert longer[|items|] == CompactItem(c);
    assert forall i :: 0 <= i < |items| ==> longer[i] == items[i];
  }

  /** What the new compact must be with respect to the items for the exchange below. */
  ghost predicate Extends(c: Compact, items: seq<Item>, all: seq<Item>, last: int) {
    && c.start == last + 1
    && (forall i :: 0 <= i < |items| && items[i].CompactItem? ==> !Within(items[i].compact, c))
    && (forall i :: 0 <= i < |items| && items[i].MessageItem? ==>
          items[i].message.sessionSeq <= c.end
          && (Counted(items[i], last) ==> !Covered(all, items[i].message.sessionSeq)))
  }

  lemma {:induction false} ProjectionAfterAppend(items: seq<Item>, all: seq<Item>, c: Compact, last: int)
    requires Extends(c, items, all, last)
    ensures Projection(items + [CompactItem(c)], all + [CompactItem(c)]) ==
            Projection(WithoutCounted(items, last), WithoutCounted(all, last)) + AsSeq(CompactToInputMessage(c))
  {
    var new_ := CompactItem(c);
    if items == [] {
      assert items + [new_] == [new_];
      assert Projection([], all + [new_]) == [];
      assert [new_][1..] == [];
    } else {
      var head, tail := items[0], items[1..];
      var kept := WithoutCounted(tail, last);
      SliceLeft(items, [new_], 1);
      assert (items + [new_])[0] == head;
      assert forall i :: 0 <= i < |tail| ==> tail[i] == items[i + 1];
      ProjectionAfterAppend(tail, all, c, last);
      HeadAfterAppend(items, all, c, last);
      var rest, out := Projection(kept, WithoutCounted(all, last)), AsSeq(CompactToInputMessage(c));
      if Counted(head, last) {
        assert WithoutCounted(items, last) == kept by { assert [] + kept == kept; }
        assert [] + (rest + out) == rest + out;
      } else {
        assert ([head] + kept)[0] == head && ([head] + kept)[1..] == kept;
        Assoc(Visible(head, kept, WithoutCounted(all, last)), rest, out);
      }
    }
  }

  /** One item: a counted message disappears, everything else stays as visible as it was. */
  lemma HeadAfterAppend(items: seq<Item>, all: seq<Item>, c: Compact, last: int)
    requires items != [] && Extends(c, items, all, last)
    ensures Visible(items[0], items[1..] + [CompactItem(c)], all + [CompactItem(c)]) ==
            if Counted(items[0], last) then [] else Visible(items[0], WithoutCounted(items[1..], last), WithoutCounted(all, last))
  {
    var head, tail := items[0], items[1..];
    if head.MessageItem? {
      AppendOne(all, c, c, head.message.sessionSeq);
      WithoutCountedSpec(all, last, c, head.message.sessionSeq);
    } else if head.CompactItem? {
      AppendOne(tail, c, head.compact, 0);
      WithoutCountedSpec(tail, last, head.compact, 0);
    }
  }

  lemma DefaultSummaryIsNotBlank(hook: CompactThresholdHook, start: int, end: int, turnId: string)
    requires hook.summaryTemplate.Some? ==> !Blank(hook.summaryTemplate.value)
    ensures !Blank(Summary(hook, start, end, turnId))
  {
    if hook.summaryTemplate.None? {
      NotBlank(Summary(hook, start, end, turnId));
    }
  }

  /** The range of an emitted compact: it is not empty and reaches past every earlier compact. */
  lemma EmittedRange(hook: CompactThresholdHook, input: TurnCompleted, a: CompactAction)
    requires EvaluateCompact(hook, input) == Some(a) && hook.minMessages >= 1
    requires AssistantIsLast(input.tail, input.assistantSeq.value)
    ensures a.start == LastCompactEnd(input.tail) + 1 <= a.end
    ensures forall i :: 0 <= i < |input.tail| && input.tail[i].CompactItem? ==> input.tail[i].compact.end < a.start
  {
    LastCompactEndIsMax(input.tail);
    CountPositive(input.tail, LastCompactEnd(input.tail));
  }

  lemma EmittedExtends(hook: CompactThresholdHook, input: TurnCompleted, a: CompactAction, c: Compact)
    requires EvaluateCompact(hook, input) == Some(a) && hook.minMessages >= 1
    requires c.start == a.start && c.end == a.end
    requires WellFormed(input.tail) && AssistantIsLast(input.tail, input.assistantSeq.value)
    ensures Extends(c, input.tail, input.tail, LastCompactEnd(input.tail))
  {
    EmittedRange(hook, input, a);
  }

  /** The one message that stands for a compacted range: the hook's text, trimmed, under its range. */
  function Standing(hook: CompactThresholdHook, start: int, end: int, turnId: string): InputMessage {
    var from, to := Decimal(start), Decimal(end);
    var text := if hook.summaryTemplate.Some? then hook.summaryTemplate.value
                else "Auto compact for session range " + from + "-" + to + " after turn " + turnId;
    InputMessage("system", "[compact " + from + "-" + to + "]\n" + Trim(text))
  }

  /**
   Appending the compact that the hook emits removes exactly the messages it counted, at least
   `minMessages` of them, adds one message with the summary at the end, and supersedes no earlier compact.
   */
  lemma HookReplacesWhatItCounted(hook: CompactThresholdHook, input: TurnCompleted, a: CompactAction, id: string,
      turnId: string)
    requires EvaluateCompact(hook, input) == Some(a) && hook.minMessages >= 1
    requires hook.summaryTemplate.Some? ==> !Blank(hook.summaryTemplate.value)
    requires WellFormed(input.tail) && AssistantIsLast(input.tail, input.assistantSeq.value)
    ensures var tail, c, last := input.tail, StoredCompact(a, id, turnId), LastCompactEnd(input.tail);
            && |tail| - |WithoutCounted(tail, last)| >= hook.minMessages
            && AssemblyToProviderInput(tail + [CompactItem(c)]) ==
               AssemblyToProviderInput(WithoutCounted(tail, last)) + [Standing(hook, last + 1, input.assistantSeq.value, input.turnId)]
            && forall i :: Effective(tail, i) ==> Effective(tail + [CompactItem(c)], i)
  {
    var tail, c, last := input.tail, StoredCompact(a, id, turnId), LastCompactEnd(input.tail);
    EmittedRange(hook, input, a);
    DefaultSummaryIsNotBlank(hook, a.start, a.end, input.turnId);
    TrimIdempotent(a.summary);
    WithoutCountedSpec(tail, last, c, 0);
    EmittedExtends(hook, input, a, c);
    hide Covered, Counted, EvaluateCompact;
    ProjectionAfterAppend(tail, tail, c, last);
    ProjectionIsTheInput(tail + [CompactItem(c)]);
    ProjectionIsTheInput(WithoutCounted(tail, last));
    NothingSuperseded(tail, c);
  }

  lemma NothingSuperseded(tail: seq<Item>, c: Compact)
    requires forall i :: 0 <= i < |tail| && tail[i].CompactItem? ==> !Within(tail[i].compact, c)
    ensures forall i :: Effective(tail, i) ==> Effective(tail + [CompactItem(c)], i)
  {
    var longer := tail + [CompactItem(c)];
    forall i | Effective(tail, i) ensures Effective(longer, i) {
      forall later | 0 <= later < |longer| ensures !Supersedes(longer, later, i) {
        assert longer[i] == tail[i];
        if later < |tail| {
          assert longer[later] == tail[later] && !Supersedes(tail, later, i);
        }
      }
    }
  }

  /** After that the hook is silent on the same tail; with a threshold of zero it would fire again. */
  lemma HookFiresOnce(hook: CompactThresholdHook, input: TurnCompleted, a: CompactAction, id: string, turnId: string)
    requires EvaluateCompact(hook, input) == Some(a)
    requires AssistantIsLast(input.tail, input.assistantSeq.value)
    ensures EvaluateCompact(hook, input.(tail := input.tail + [CompactItem(StoredCompact(a, id, turnId))])).None?
            <==> hook.minMessages >= 1
  {
    var c := StoredCompact(a, id, turnId);
    if hook.minMessages >= 1 {
      EmittedRange(hook, input, a);
      EndsAfterAppend(input.tail, c);
      CountNone(input.tail + [CompactItem(c)], c.end);
    }
  }
}
