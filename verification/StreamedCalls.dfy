/**
 What a streamed response amounts to: its tool calls, read off the deltas that were sent, and the
 messages in which later requests repeat them.
 */
module StreamedCalls {
  import opened Common
  import opened Text
  import opened Transcript
  import opened ChatClient
  import opened ToolLoop

  // ---------------------------------------------------------------------------------------
  // The deltas of one call

  function FirstId(ts: seq<ToolDelta>): Option<string> {
    if ts == [] then None else if ts[0].id.Some? then ts[0].id else FirstId(ts[1..])
  }

  function FirstName(ts: seq<ToolDelta>): Option<string> {
    if ts == [] then None else if ts[0].name.Some? then ts[0].name else FirstName(ts[1..])
  }

  /** All the fragments of the arguments, one after the other. */
  function Fragments(ts: seq<ToolDelta>): string {
    if ts == [] then ""
    else if ts[0].arguments.Some? then ts[0].arguments.value + Fragments(ts[1..]) else Fragments(ts[1..])
  }

  lemma {:induction false} OneMoreDelta(ts: seq<ToolDelta>, t: ToolDelta)
    ensures FirstId(ts + [t]) == if FirstId(ts).Some? then FirstId(ts) else t.id
    ensures FirstName(ts + [t]) == if FirstName(ts).Some? then FirstName(ts) else t.name
    ensures Fragments(ts + [t]) == Fragments(ts) + if t.arguments.Some? then t.arguments.value else ""
  {
    if ts == [] {
      assert (ts + [t])[1..] == [];
    } else {
      assert (ts + [t])[1..] == ts[1..] + [t];
      OneMoreDelta(ts[1..], t);
    }
  }

  lemma {:induction false} DraftOfDeltas(ts: seq<ToolDelta>)
    ensures DraftOf(NO_DRAFT, ts) == Draft(FirstId(ts), FirstName(ts), Fragments(ts))
  {
    if ts != [] {
      var init, last := ts[..|ts| - 1], ts[|ts| - 1];
      assert ts == init + [last];
      DraftOfDeltas(init);
      OneMoreDelta(init, last);
    }
  }

  /**
   For every list of deltas the draft of an index has the first id and the first name sent for it, and
   as arguments all the fragments sent for it, in order. There is one exactly if something was sent.
   */
  lemma {:induction false} DraftIsItsDeltas(deltas: seq<ToolDelta>, index: nat)
    ensures var drafts, ts := MergeAll(map[], deltas), OfIndex(deltas, index);
            && (index in drafts <==> ts != [])
            && (index in drafts ==> drafts[index] == Draft(FirstId(ts), FirstName(ts), Fragments(ts)))
  {
    MergeAllAt(map[], deltas, index);
    DraftOfDeltas(OfIndex(deltas, index));
  }

  // ---------------------------------------------------------------------------------------
  // From the payloads of a response to the calls that it makes

  function AllChoices(payloads: seq<Payload>): seq<Choice> {
    if payloads == [] then [] else AllChoices(payloads[..|payloads| - 1]) + payloads[|payloads| - 1].choices
  }

  predicate Finishes(choices: seq<Choice>) {
    exists i :: 0 <= i < |choices| && choices[i].finished
  }

  /** The choices up to and including the first that finishes. */
  function UpToFinish(choices: seq<Choice>): seq<Choice> {
    if choices == [] then []
    else if choices[0].finished then [choices[0]] else [choices[0]] + UpToFinish(choices[1..])
  }

  lemma {:induction false} UpToFinishMore(a: seq<Choice>, b: seq<Choice>)
    ensures Finishes(a) ==> UpToFinish(a + b) == UpToFinish(a) && Finishes(a + b)
    ensures !Finishes(a) ==> UpToFinish(a + b) == a + UpToFinish(b) && (Finishes(a + b) <==> Finishes(b))
  {
    if a == [] {
      assert a + b == b;
    } else {
      UpToFinishMore(a[1..], b);
      assert (a + b)[1..] == a[1..] + b;
      assert a == [a[0]] + a[1..];
      if !a[0].finished {
        assert Finishes(a) <==> Finishes(a[1..]) by { FinishesTail(a); }
        FinishesTail(a + b);
      } else {
        assert (a + b)[0].finished;
      }
    }
  }

  lemma FinishesTail(a: seq<Choice>)
    requires a != [] && !a[0].finished
    ensures Finishes(a) <==> Finishes(a[1..])
  {
    if Finishes(a) {
      var i :| 0 <= i < |a| && a[i].finished;
      assert a[1..][i - 1].finished;
    }
    if Finishes(a[1..]) {
      var i :| 0 <= i < |a[1..]| && a[1..][i].finished;
      assert a[i + 1].finished;
    }
  }

  /** The tool deltas of these choices, in order. */
  function DeltasOf(choices: seq<Choice>): seq<ToolDelta> {
    if choices == [] then [] else
      (if choices[0].delta.Some? then choices[0].delta.value.toolCalls else []) + DeltasOf(choices[1..])
  }

  lemma {:induction false} DeltasOfMore(a: seq<Choice>, b: seq<Choice>)
    ensures DeltasOf(a + b) == DeltasOf(a) + DeltasOf(b)
  {
    if a == [] {
      assert a + b == b;
    } else {
      assert (a + b)[1..] == a[1..] + b;
      DeltasOfMore(a[1..], b);
    }
  }

  /** Where a response stands after these choices, having made these calls. */
  ghost predicate Stands(s: Stream, calls: seq<Call>, choices: seq<Choice>, outside: Outside) {
    && (s.completed <==> Finishes(choices))
    && (!s.completed ==> calls == [] && s.drafts == MergeAll(map[], DeltasOf(choices)))
    && (s.completed ==>
          && s.responseId.Some?
          && CallsOf(MergeAll(map[], DeltasOf(UpToFinish(choices))), s.responseId.value, outside) == Ok(calls))
  }

  lemma ChoiceStands(p: Progress, c: Choice, outside: Outside, before: seq<Call>, choices: seq<Choice>)
    requires p.error.None? && Stands(p.s, before + CallsOfEvents(p.events), choices, outside)
    requires ChoiceHandled(p, c, outside).error.None?
    ensures var q := ChoiceHandled(p, c, outside);
            Stands(q.s, before + CallsOfEvents(q.events), choices + [c], outside)
  {
    hide MergeAll, CallsOf, Stands;
    var q := if c.delta.Some? then p.(s := DeltaHandled(p.s, c.delta.value), events := p.events + DeltaEvents(c.delta.value)) else p;
    DeltaStands(p, c, outside, before, choices);
    UpToFinishMore(choices, [c]);
    if c.finished { CompletionStands(q, c, outside, before, choices); }
  }

  /** The tables of a delta: before completion it goes into the drafts, afterwards it changes nothing. */
  lemma DeltaStands(p: Progress, c: Choice, outside: Outside, before: seq<Call>, choices: seq<Choice>)
    requires Stands(p.s, before + CallsOfEvents(p.events), choices, outside)
    ensures var q := if c.delta.Some? then p.(s := DeltaHandled(p.s, c.delta.value), events := p.events + DeltaEvents(c.delta.value)) else p;
            Stands(q.s, before + CallsOfEvents(q.events), choices + [c.(finished := false)], outside)
  {
    hide CallsOf, MergeAll, DeltaEvents, CallsOfEvents;
    var d := c.(finished := false);
    UpToFinishMore(choices, [d]);
    DeltasOfMore(choices, [d]);
    assert DeltasOf([d]) == (if c.delta.Some? then c.delta.value.toolCalls else []) by { assert [d][1..] == []; NoDeltas(); }
    MergeAllAppend(map[], DeltasOf(choices), DeltasOf([d]));
    if c.delta.Some? {
      DeltaSays(c.delta.value);
      TextHasNoCalls(DeltaEvents(c.delta.value));
      CallsOfAppend(p.events, DeltaEvents(c.delta.value));
      assert CallsOfEvents(p.events) + [] == CallsOfEvents(p.events);
    } else {
      NothingMerged(MergeAll(map[], DeltasOf(choices)));
    }
  }

  lemma CompletionStands(p: Progress, c: Choice, outside: Outside, before: seq<Call>, choices: seq<Choice>)
    requires p.error.None? && c.finished && ChoiceCompleted(p, outside).error.None?
    requires Stands(p.s, before + CallsOfEvents(p.events), choices + [c.(finished := false)], outside)
    ensures var q := ChoiceCompleted(p, outside);
            Stands(q.s, before + CallsOfEvents(q.events), choices + [c], outside)
  {
    hide CallsOf, MergeAll, CallsOfEvents, Requested;
    var d := c.(finished := false);
    UpToFinishMore(choices, [d]);
    UpToFinishMore(choices, [c]);
    assert [c][0].finished && !Finishes([d]);
    if !p.s.completed {
      DeltasOfMore(choices, [d]);
      DeltasOfMore(choices, [c]);
      assert DeltasOf([d]) == DeltasOf([c]);
      var id := p.s.responseId.GetOr(outside.responseId);
      if p.s.drafts == map[] {
        NoCallsOf(id, outside);
        CompletionAlone(Some(id));
        CallsOfAppend(p.events, [Completed(Some(id))]);
      } else {
        var calls := CallsOf(p.s.drafts, id, outside).value;
        CallsOfRequested(calls);
        CompletionAlone(Some(id));
        CallsOfAppend(p.events, Requested(calls));
        CallsOfAppend(p.events + Requested(calls), [Completed(Some(id))]);
        assert |before + CallsOfEvents(p.events)| == 0;
        assert before + (CallsOfEvents(p.events) + calls + []) == calls;
      }
    }
  }

  lemma NoCallsOf(id: string, outside: Outside)
    ensures CallsOf(map[], id, outside) == Ok([])
  {
  }

  lemma NoDeltas()
    ensures DeltasOf([]) == []
  {
  }

  lemma NothingMerged(drafts: map<nat, Draft>)
    ensures MergeAll(drafts, []) == drafts
  {
  }

  lemma {:induction false} ChoicesStand(p: Progress, choices: seq<Choice>, outside: Outside, before: seq<Call>,
      earlier: seq<Choice>)
    requires p.error.None? && Stands(p.s, before + CallsOfEvents(p.events), earlier, outside)
    requires ChoicesHandled(p, choices, outside).error.None?
    ensures var q := ChoicesHandled(p, choices, outside);
            Stands(q.s, before + CallsOfEvents(q.events), earlier + choices, outside)
  {
    hide ChoiceHandled, Stands, CallsOfEvents;
    if choices == [] {
      assert earlier + choices == earlier;
    } else {
      var init, c := choices[..|choices| - 1], choices[|choices| - 1];
      var q := ChoicesHandled(p, init, outside);
      if q.error.Some? { ErrorStays(q, c, outside); }
      ChoicesStand(p, init, outside, before, earlier);
      ChoiceStands(q, c, outside, before, earlier + init);
      assert earlier + choices == earlier + init + [c];
    }
  }

  lemma {:induction false} PayloadsStand(request: seq<ChatMessage>, cache: Cache, payloads: seq<Payload>,
      outside: Outside)
    requires PayloadsHandled(Progress(NewStream(request), cache, [], None), payloads, outside).error.None?
    ensures var p := PayloadsHandled(Progress(NewStream(request), cache, [], None), payloads, outside);
            Stands(p.s, CallsOfEvents(p.events), AllChoices(payloads), outside)
  {
    hide ChoicesHandled, CallsOf;
    var p0 := Progress(NewStream(request), cache, [], None);
    if payloads != [] {
      var init, payload := payloads[..|payloads| - 1], payloads[|payloads| - 1];
      PayloadsStand(request, cache, init, outside);
      var p := PayloadsHandled(p0, init, outside);
      var q := Progress(p.s.(responseId := p.s.responseId.OrElse(payload.id)), p.cache, [], None);
      var calls := CallsOfEvents(p.events);
      assert CallsOfEvents([]) == [] && calls + [] == calls;
      ChoicesStand(q, payload.choices, outside, calls, AllChoices(init));
      CallsOfAppend(p.events, ChoicesHandled(q, payload.choices, outside).events);
    }
  }

  // ---------------------------------------------------------------------------------------
  // The calls, read off the deltas

  /** The indexes to which something was sent, in ascending order. */
  ghost function Indexes(deltas: seq<ToolDelta>): seq<nat> {
    Ascending(set t | t in deltas :: t.index)
  }

  /** The call of an index: the generated id stands in for one never sent, "{}" for blank arguments. */
  ghost predicate IsCallOf(call: Call, deltas: seq<ToolDelta>, index: nat, outside: Outside) {
    var ts := OfIndex(deltas, index);
    && call.callId == (if FirstId(ts).Some? then FirstId(ts).value else outside.callId(index))
    && Some(call.name) == FirstName(ts)
    && call.argumentsRaw == (if Blank(Fragments(ts)) then "{}" else Fragments(ts))
  }

  ghost predicate AreCallsOf(calls: seq<Call>, deltas: seq<ToolDelta>, outside: Outside) {
    |calls| == |Indexes(deltas)| && forall i :: 0 <= i < |calls| ==> IsCallOf(calls[i], deltas, Indexes(deltas)[i], outside)
  }

  lemma {:induction false} OfIndexEmpty(ts: seq<ToolDelta>, index: nat)
    ensures OfIndex(ts, index) != [] <==> exists t :: t in ts && t.index == index
  {
    if ts != [] {
      var init, last := ts[..|ts| - 1], ts[|ts| - 1];
      OfIndexEmpty(init, index);
      assert forall t :: t in ts <==> t in init || t == last;
    }
  }

  lemma {:induction false} MergedCalls(deltas: seq<ToolDelta>, id: string, outside: Outside)
    requires CallsOf(MergeAll(map[], deltas), id, outside).Ok?
    ensures AreCallsOf(CallsOf(MergeAll(map[], deltas), id, outside).value, deltas, outside)
  {
    var drafts := MergeAll(map[], deltas);
    DraftKeys(deltas);
    hide MergeAll, Blank, OfIndex, ToCall, Decimal;
    var calls, keys := CallsOf(drafts, id, outside).value, Ascending(drafts.Keys);
    CallsInLength(drafts, keys, id, outside);
    forall i | 0 <= i < |calls| ensures IsCallOf(calls[i], deltas, keys[i], outside) {
      CallsInAt(drafts, keys, id, outside, i);
      CallOfDraft(deltas, keys[i], calls[i], id, outside);
    }
  }

  lemma DraftKeys(deltas: seq<ToolDelta>)
    ensures MergeAll(map[], deltas).Keys == set t | t in deltas :: t.index
  {
    hide MergeAll, OfIndex;
    forall index: nat ensures index in MergeAll(map[], deltas) <==> exists t :: t in deltas && t.index == index {
      DraftIsItsDeltas(deltas, index);
      OfIndexEmpty(deltas, index);
    }
  }

  lemma CallOfDraft(deltas: seq<ToolDelta>, index: nat, call: Call, id: string, outside: Outside)
    requires index in MergeAll(map[], deltas)
    requires ToCall(MergeAll(map[], deltas)[index], id, index, outside) == Ok(call)
    ensures IsCallOf(call, deltas, index, outside)
  {
    hide MergeAll, Blank, OfIndex, Decimal;
    DraftIsItsDeltas(deltas, index);
  }

  /**
   Whatever the payloads of a response are, as long as they are handled without error: once a choice
   has finished, the calls made are those of the deltas up to that choice, one for each index in
   ascending order; and before that there are none.
   */
  lemma {:induction false} CallsAreTheDeltas(request: seq<ChatMessage>, cache: Cache, payloads: seq<Payload>,
      outside: Outside)
    requires PayloadsHandled(Progress(NewStream(request), cache, [], None), payloads, outside).error.None?
    ensures var calls := CallsOfEvents(PayloadsHandled(Progress(NewStream(request), cache, [], None), payloads, outside).events);
            var choices := AllChoices(payloads);
            if Finishes(choices) then AreCallsOf(calls, DeltasOf(UpToFinish(choices)), outside) else calls == []
  {
    hide PayloadsHandled, CallsOfEvents, CallsOf, MergeAll, AreCallsOf, UpToFinish, AllChoices;
    PayloadsStand(request, cache, payloads, outside);
    var p := PayloadsHandled(Progress(NewStream(request), cache, [], None), payloads, outside);
    if p.s.completed { MergedCalls(DeltasOf(UpToFinish(AllChoices(payloads))), p.s.responseId.value, outside); }
  }

  // ---------------------------------------------------------------------------------------
  // The id of a response

  function FirstPayloadId(payloads: seq<Payload>): Option<string> {
    if payloads == [] then None else if payloads[0].id.Some? then payloads[0].id else FirstPayloadId(payloads[1..])
  }

  /** The payloads up to and including the first with a choice that finishes. */
  function UpToFinishing(payloads: seq<Payload>): seq<Payload> {
    if payloads == [] then []
    else if Finishes(payloads[0].choices) then [payloads[0]] else [payloads[0]] + UpToFinishing(payloads[1..])
  }

  predicate SomeFinishes(payloads: seq<Payload>) {
    exists i :: 0 <= i < |payloads| && Finishes(payloads[i].choices)
  }

  lemma {:induction false} OneMorePayload(payloads: seq<Payload>, x: Payload)
    ensures FirstPayloadId(payloads + [x]) == if FirstPayloadId(payloads).Some? then FirstPayloadId(payloads) else x.id
    ensures UpToFinishing(payloads + [x]) == if SomeFinishes(payloads) then UpToFinishing(payloads) else payloads + [x]
    ensures SomeFinishes(payloads + [x]) <==> SomeFinishes(payloads) || Finishes(x.choices)
  {
    hide Finishes;
    var all := payloads + [x];
    assert all[|payloads|] == x && forall i :: 0 <= i < |payloads| ==> all[i] == payloads[i];
    if payloads == [] {
      assert all[1..] == [];
    } else {
      assert all[1..] == payloads[1..] + [x];
      OneMorePayload(payloads[1..], x);
      assert payloads == [payloads[0]] + payloads[1..];
      assert SomeFinishes(payloads) <==> Finishes(payloads[0].choices) || SomeFinishes(payloads[1..]) by { SomeTail(payloads); }
    }
  }

  lemma SomeTail(payloads: seq<Payload>)
    requires payloads != []
    ensures SomeFinishes(payloads) <==> Finishes(payloads[0].choices) || SomeFinishes(payloads[1..])
  {
    hide Finishes;
    assert forall i :: 1 <= i < |payloads| ==> payloads[i] == payloads[1..][i - 1];
    assert forall i :: 0 <= i < |payloads[1..]| ==> payloads[1..][i] == payloads[i + 1];
  }

  /** Completions among these events name this id. */
  predicate CompletionsName(events: seq<ProviderEvent>, id: Option<string>) {
    forall i :: 0 <= i < |events| && events[i].Completed? ==> events[i].responseId == id
  }

  lemma ChoiceId(p: Progress, c: Choice, outside: Outside)
    requires p.error.None? && ChoiceHandled(p, c, outside).error.None?
    ensures var q := ChoiceHandled(p, c, outside);
            && (q.s.completed <==> p.s.completed || c.finished)
            && q.s.responseId == (if !p.s.completed && c.finished then Some(p.s.responseId.GetOr(outside.responseId)) else p.s.responseId)
            && (CompletionsName(p.events, q.s.responseId) ==> CompletionsName(q.events, q.s.responseId))
  {
    hide CallsOf, MergeAll, Requested;
    var id := p.s.responseId.GetOr(outside.responseId);
    var q := if c.delta.Some? then p.(s := DeltaHandled(p.s, c.delta.value), events := p.events + DeltaEvents(c.delta.value)) else p;
    if c.finished && !p.s.completed && q.s.drafts != map[] { RequestedAreCalls(CallsOf(q.s.drafts, id, outside).value); }
  }

  lemma {:induction false} ChoicesId(p: Progress, choices: seq<Choice>, outside: Outside)
    requires p.error.None? && ChoicesHandled(p, choices, outside).error.None?
    requires if p.s.completed then CompletionsName(p.events, p.s.responseId) else forall i :: 0 <= i < |p.events| ==> !p.events[i].Completed?
    ensures var q := ChoicesHandled(p, choices, outside);
            && (q.s.completed <==> p.s.completed || Finishes(choices))
            && q.s.responseId ==
               (if !p.s.completed && Finishes(choices) then Some(p.s.responseId.GetOr(outside.responseId)) else p.s.responseId)
            && CompletionsName(q.events, q.s.responseId)
            && (!q.s.completed ==> forall i :: 0 <= i < |q.events| ==> !q.events[i].Completed?)
  {
    hide ChoiceHandled;
    if choices != [] {
      var init, c := choices[..|choices| - 1], choices[|choices| - 1];
      var q := ChoicesHandled(p, init, outside);
      if q.error.Some? { ErrorStays(q, c, outside); }
      ChoicesId(p, init, outside);
      ChoiceId(q, c, outside);
      if !q.s.completed && !c.finished { ChoiceKeepsOpen(q, c, outside); }
      FinishesMore(init, c);
      assert choices == init + [c];
    }
  }

  lemma ChoiceKeepsOpen(p: Progress, c: Choice, outside: Outside)
    requires p.error.None? && !p.s.completed && !c.finished
    requires forall i :: 0 <= i < |p.events| ==> !p.events[i].Completed?
    ensures forall i :: 0 <= i < |ChoiceHandled(p, c, outside).events| ==> !ChoiceHandled(p, c, outside).events[i].Completed?
  {
  }

  lemma FinishesMore(a: seq<Choice>, c: Choice)
    ensures Finishes(a + [c]) <==> Finishes(a) || c.finished
  {
    assert (a + [c])[|a|] == c;
    assert forall i :: 0 <= i < |a| ==> (a + [c])[i] == a[i];
  }

  /**
   The id of a response is the first that a payload carries, up to the one that finishes it, or a
   generated one if none does; ids that come later change nothing. The completion names this id.
   */
  lemma {:induction false} IdIsTheFirst(request: seq<ChatMessage>, cache: Cache, payloads: seq<Payload>,
      outside: Outside)
    requires PayloadsHandled(Progress(NewStream(request), cache, [], None), payloads, outside).error.None?
    ensures var p := PayloadsHandled(Progress(NewStream(request), cache, [], None), payloads, outside);
            && (p.s.completed <==> SomeFinishes(payloads))
            && p.s.responseId ==
               (if SomeFinishes(payloads) then Some(FirstPayloadId(UpToFinishing(payloads)).GetOr(outside.responseId)) else FirstPayloadId(payloads))
            && CompletionsName(p.events, p.s.responseId)
            && (!p.s.completed ==> forall i :: 0 <= i < |p.events| ==> !p.events[i].Completed?)
  {
    hide ChoicesHandled, Finishes, SomeFinishes;
    var p0 := Progress(NewStream(request), cache, [], None);
    if payloads == [] {
      NoneFinishes();
    } else {
      var init, x := payloads[..|payloads| - 1], payloads[|payloads| - 1];
      assert payloads == init + [x];
      IdIsTheFirst(request, cache, init, outside);
      OneMorePayload(init, x);
      var p := PayloadsHandled(p0, init, outside);
      var q := Progress(p.s.(responseId := p.s.responseId.OrElse(x.id)), p.cache, [], None);
      ChoicesId(q, x.choices, outside);
    }
  }

  /** All calls and the one completion of a response carry that id, also when the stream just ends. */
  lemma {:induction false} CallsAndCompletionShareTheId(request: seq<ChatMessage>, cache: Cache, payloads: seq<Payload>,
      outside: Outside)
    requires Streamed(request, cache, Script(payloads, None), outside).error.None?
    ensures var events := Streamed(request, cache, Script(payloads, None), outside).events;
            var id := if SomeFinishes(payloads) then Some(FirstPayloadId(UpToFinishing(payloads)).GetOr(outside.responseId))
                      else FirstPayloadId(payloads);
            && CompletionsName(events, id)
            && forall i :: 0 <= i < |CallsOfEvents(events)| ==> Some(CallsOfEvents(events)[i].responseId) == id
  {
    IdIsTheFirst(request, cache, payloads, outside);
    PayloadsStand(request, cache, payloads, outside);
    hide PayloadsHandled, CallsOfEvents, MergeAll, Finishes, SomeFinishes, CallsIn;
    var p := PayloadsHandled(Progress(NewStream(request), cache, [], None), payloads, outside);
    if p.s.completed {
      var drafts := MergeAll(map[], DeltasOf(UpToFinish(AllChoices(payloads))));
      CallsInLength(drafts, Ascending(drafts.Keys), p.s.responseId.value, outside);
    } else {
      CompletionAlone(p.s.responseId);
      CallsOfAppend(p.events, [Completed(p.s.responseId)]);
    }
  }

  lemma NoneFinishes()
    ensures !SomeFinishes([]) && FirstPayloadId([]).None?
  {
  }

  // ---------------------------------------------------------------------------------------
  // What is said

  /** The text of these choices, in order. */
  function TextOf(choices: seq<Choice>): string {
    if choices == [] then ""
    else if choices[0].delta.Some? && choices[0].delta.value.content.Some?
    then choices[0].delta.value.content.value + TextOf(choices[1..])
    else TextOf(choices[1..])
  }

  lemma {:induction false} TextOfMore(a: seq<Choice>, b: seq<Choice>)
    ensures TextOf(a + b) == TextOf(a) + TextOf(b)
  {
    if a == [] {
      assert a + b == b;
    } else {
      assert (a + b)[1..] == a[1..] + b;
      TextOfMore(a[1..], b);
    }
  }

  lemma ChoiceSays(p: Progress, c: Choice, outside: Outside)
    requires p.error.None? && ChoiceHandled(p, c, outside).error.None?
    ensures TextOfEvents(ChoiceHandled(p, c, outside).events) == TextOfEvents(p.events) + TextOf([c])
  {
    hide MergeAll, CallsOf, DeltaEvents, TextOfEvents, Requested, Fragments;
    var text := if c.delta.Some? then DeltaEvents(c.delta.value) else [];
    assert [c][1..] == [] && TextOf([]) == "" && TextOfEvents([]) == "" by { NothingSaid(); }
    if c.delta.Some? { DeltaSays(c.delta.value); }
    assert TextOf([c]) == TextOfEvents(text) by { assert [c][0] == c; }
    TextOfAppend(p.events, text);
    assert p.events + [] == p.events && TextOfEvents(p.events) + "" == TextOfEvents(p.events);
    var q := if c.delta.Some? then p.(s := DeltaHandled(p.s, c.delta.value), events := p.events + text) else p;
    assert q.events == p.events + text;
    if c.finished { CompletionSays(q, outside); }
  }

  lemma NothingSaid()
    ensures TextOf([]) == "" && TextOfEvents([]) == ""
  {
  }

  lemma CompletionSays(p: Progress, outside: Outside)
    requires p.error.None? && ChoiceCompleted(p, outside).error.None?
    ensures TextOfEvents(ChoiceCompleted(p, outside).events) == TextOfEvents(p.events)
  {
    hide CallsOf, Requested, TextOfEvents;
    var id := p.s.responseId.GetOr(outside.responseId);
    EndSaysNothing(id);
    if !p.s.completed {
      if p.s.drafts == map[] {
        TextOfAppend(p.events, [Completed(Some(id))]);
      } else {
        var calls := CallsOf(p.s.drafts, id, outside).value;
        RequestedSaysNothing(calls);
        TextOfAppend(p.events, Requested(calls));
        TextOfAppend(p.events + Requested(calls), [Completed(Some(id))]);
      }
    }
  }

  lemma EndSaysNothing(id: string)
    ensures TextOfEvents([Completed(Some(id))]) == ""
  {
    assert [Completed(Some(id))][..0] == [];
  }

  lemma {:induction false} ChoicesSay(p: Progress, choices: seq<Choice>, outside: Outside)
    requires p.error.None? && ChoicesHandled(p, choices, outside).error.None?
    ensures TextOfEvents(ChoicesHandled(p, choices, outside).events) == TextOfEvents(p.events) + TextOf(choices)
  {
    hide ChoiceHandled, TextOfEvents;
    if choices != [] {
      var init, c := choices[..|choices| - 1], choices[|choices| - 1];
      var q := ChoicesHandled(p, init, outside);
      if q.error.Some? { ErrorStays(q, c, outside); }
      ChoicesSay(p, init, outside);
      ChoiceSays(q, c, outside);
      assert choices == init + [c];
      TextOfMore(init, [c]);
    }
  }

  /** The text emitted for a response is the content of all its deltas, in order. */
  lemma {:induction false} TextIsTheDeltas(request: seq<ChatMessage>, cache: Cache, payloads: seq<Payload>,
      outside: Outside)
    requires PayloadsHandled(Progress(NewStream(request), cache, [], None), payloads, outside).error.None?
    ensures var p := PayloadsHandled(Progress(NewStream(request), cache, [], None), payloads, outside);
            TextOfEvents(p.events) == TextOf(AllChoices(payloads))
  {
    hide ChoicesHandled;
    var p0 := Progress(NewStream(request), cache, [], None);
    if payloads != [] {
      var init, payload := payloads[..|payloads| - 1], payloads[|payloads| - 1];
      TextIsTheDeltas(request, cache, init, outside);
      var p := PayloadsHandled(p0, init, outside);
      var q := Progress(p.s.(responseId := p.s.responseId.OrElse(payload.id)), p.cache, [], None);
      NothingSaid();
      ChoicesSay(q, payload.choices, outside);
      assert "" + TextOf(payload.choices) == TextOf(payload.choices);
      TextOfAppend(p.events, ChoicesHandled(q, payload.choices, outside).events);
      TextOfMore(AllChoices(init), payload.choices);
    }
  }

  // ---------------------------------------------------------------------------------------
  // The messages of the requests

  /** The assistant's message: no text if nothing was said, and its calls, each under its own fields. */
  ghost predicate IsAnswer(m: ChatMessage, text: string, calls: seq<Call>) {
    && m.Assistant? && (m.text == if text == "" then None else Some(text)) && |m.calls| == |calls|
    && forall i :: 0 <= i < |calls| ==>
      m.calls[i].id == calls[i].callId && m.calls[i].name == calls[i].name && m.calls[i].arguments == calls[i].argumentsRaw
  }

  lemma {:induction false} RefsOfCalls(calls: seq<Call>)
    ensures |CallRefs(calls)| == |calls|
    ensures forall i :: 0 <= i < |calls| ==>
      && CallRefs(calls)[i].id == calls[i].callId && CallRefs(calls)[i].name == calls[i].name
      && CallRefs(calls)[i].arguments == calls[i].argumentsRaw
  {
    if calls != [] { RefsOfCalls(calls[..|calls| - 1]); }
  }

  /**
   In the loop of a turn each request repeats the one before it, and then the response to it: one
   message with its text and all its calls, and the output of each call under that call's id.
   */
  lemma {:induction false} RoundIsReplayed(rounds: seq<Round>, instructions: Option<string>, input: seq<InputMessage>,
      i: nat)
    requires IsTrace(rounds, instructions, input) && DistinctIds(rounds) && 0 < i < |rounds|
    ensures var a, b := rounds[i - 1], rounds[i];
            var n := |a.request|;
            && |b.request| == n + 1 + |Calls(a)| && a.request <= b.request && |a.outputs| == |Calls(a)|
            && IsAnswer(b.request[n], SaidIn(a), Calls(a))
            && forall j :: 0 <= j < |Calls(a)| ==> b.request[n + 1 + j] == Tool(Calls(a)[j].callId, a.outputs[j].output)
  {
    hide Streamed, CallsTaken, Said, CallRefs;
    assert Follows(rounds[i - 1], rounds[i]);
    RequestGrows(rounds[i - 1], rounds[i]);
    RefsOfCalls(Calls(rounds[i - 1]));
  }

  lemma MappedFirst(cache: Cache, instructions: Option<string>, input: seq<InputMessage>)
    ensures Mapped(cache, instructions, input, None, None) == Ok(System(instructions) + InputMessages(input))
  {
    hide Blank, InputMessages;
    assert ToolMessages([]) == [];
    assert System(instructions) + InputMessages(input) + [] == System(instructions) + InputMessages(input);
  }

  /** The input, message by message. */
  ghost predicate AreInputs(messages: seq<ChatMessage>, input: seq<InputMessage>) {
    |messages| == |input| && forall j :: 0 <= j < |input| ==> messages[j] == Plain(input[j].role, input[j].content)
  }

  /** The instructions as system message, unless they are blank. */
  function System(instructions: Option<string>): seq<ChatMessage> {
    if instructions.Some? && !Blank(instructions.value) then [Plain("system", instructions.value)] else []
  }

  /** The first request: the instructions as system message unless blank, then the input in order. */
  lemma {:induction false} FirstRequestIsTheInput(rounds: seq<Round>, instructions: Option<string>,
      input: seq<InputMessage>)
    requires IsTrace(rounds, instructions, input) && rounds != []
    ensures var request, k := rounds[0].request, |System(instructions)|;
            k <= |request| && request[..k] == System(instructions) && AreInputs(request[k..], input)
  {
    assert FirstRound(rounds[0], instructions, input);
    hide IsTrace, Mapped, System;
    MappedFirst(rounds[0].cache, instructions, input);
    InputsAre(input);
    hide InputMessages, AreInputs;
    assert (System(instructions) + InputMessages(input))[|System(instructions)|..] == InputMessages(input);
  }

  lemma InputsAre(input: seq<InputMessage>)
    ensures AreInputs(InputMessages(input), input)
  {
  }

  /**
   The response id that a turn stores: that of its last call, whose response is the one that the cache
   can replay; without any call, that of the completion of its only response.
   */
  lemma {:induction false} StoredIdIsTheLastCalls(rounds: seq<Round>, instructions: Option<string>,
      input: seq<InputMessage>)
    requires IsTrace(rounds, instructions, input) && rounds != [] && Calls(rounds[|rounds| - 1]) == []
    ensures var calls, stored := AllCalls(rounds), StoredResponseId(rounds);
            && (calls != [] ==> stored == Some(calls[|calls| - 1].responseId))
            && (calls == [] ==> |rounds| == 1)
            && (calls == [] && Completes(Response(rounds[0]).events) ==>
                  stored == Response(rounds[0]).events[FirstCompletion(Response(rounds[0]).events)].responseId)
  {
    hide Streamed, CallsTaken, FirstCompletion;
    var n := |rounds| - 1;
    if n > 0 {
      assert Follows(rounds[n - 1], rounds[n]);
      assert rounds[..n][n - 1] == rounds[n - 1];
    } else {
      assert rounds[..0] == [] && AllCalls([]) == [];
      assert FirstRound(rounds[0], instructions, input);
    }
  }
}
