/**
 The chat-completions client: merging the deltas of streamed tool calls, the events of one
 response, and the cache from which follow-up requests replay the message list.

 Payloads are decoded values; JSON validity of arguments and generated ids are parameters.
 */
module ChatClient {
  import opened Common
  import opened Text
  import opened Transcript

  /** An absent index has been read as 0, a field that is not a string as absent. */
  datatype ToolDelta = ToolDelta(index: nat, id: Option<string>, name: Option<string>, arguments: Option<string>)

  datatype Delta = Delta(content: Option<string>, toolCalls: seq<ToolDelta>)

  datatype Choice = Choice(delta: Option<Delta>, finished: bool)

  datatype Payload = Payload(id: Option<string>, choices: seq<Choice>)

  datatype Call = Call(responseId: string, callId: string, name: string, argumentsRaw: string)

  datatype ProviderEvent =
    | OutputTextDelta(delta: string)
    | FunctionCallRequested(call: Call)
    | Completed(responseId: Option<string>)

  datatype CallRef = CallRef(id: string, name: string, arguments: string)

  datatype ChatMessage =
    | Plain(role: string, content: string)
    | Assistant(text: Option<string>, calls: seq<CallRef>)
    | Tool(callId: string, output: string)

  type Cache = map<string, seq<ChatMessage>>

  /** What a response takes from outside: which strings parse as JSON, and the ids it may generate. */
  datatype Outside = Outside(validJson: string -> bool, callId: nat -> string, responseId: string)

  // ---------------------------------------------------------------------------------------
  // Drafts of tool calls

  datatype Draft = Draft(id: Option<string>, name: Option<string>, arguments: string)

  const NO_DRAFT := Draft(None, None, "")

  /** The first id and the first name are kept; arguments are concatenated. */
  function MergeDraft(d: Draft, t: ToolDelta): Draft {
    Draft(d.id.OrElse(t.id), d.name.OrElse(t.name), d.arguments + t.arguments.GetOr(""))
  }

  function DraftAt(drafts: map<nat, Draft>, index: nat): Draft {
    if index in drafts then drafts[index] else NO_DRAFT
  }

  function Merged(drafts: map<nat, Draft>, t: ToolDelta): map<nat, Draft> {
    drafts[t.index := MergeDraft(DraftAt(drafts, t.index), t)]
  }

  function MergeAll(drafts: map<nat, Draft>, ts: seq<ToolDelta>): map<nat, Draft> {
    if ts == [] then drafts else Merged(MergeAll(drafts, ts[..|ts| - 1]), ts[|ts| - 1])
  }

  /** The deltas of one index, in their order. */
  function OfIndex(ts: seq<ToolDelta>, index: nat): seq<ToolDelta> {
    if ts == [] then [] else
      var before := OfIndex(ts[..|ts| - 1], index);
      if ts[|ts| - 1].index == index then before + [ts[|ts| - 1]] else before
  }

  function DraftOf(d: Draft, ts: seq<ToolDelta>): Draft {
    if ts == [] then d else MergeDraft(DraftOf(d, ts[..|ts| - 1]), ts[|ts| - 1])
  }

  /** The draft of an index depends on the deltas of that index alone. */
  lemma {:induction false} MergeAllAt(drafts: map<nat, Draft>, ts: seq<ToolDelta>, index: nat)
    ensures index in MergeAll(drafts, ts) <==> index in drafts || OfIndex(ts, index) != []
    ensures DraftAt(MergeAll(drafts, ts), index) == DraftOf(DraftAt(drafts, index), OfIndex(ts, index))
  {
    hide MergeDraft;
    if ts != [] {
      MergeAllAt(drafts, ts[..|ts| - 1], index);
      var before := OfIndex(ts[..|ts| - 1], index);
      assert (before + [ts[|ts| - 1]])[..|before|] == before;
    }
  }

  /** Any interleaving with the same deltas for each index, in the same order, gives the same drafts. */
  lemma MergingIsConfluent(drafts: map<nat, Draft>, a: seq<ToolDelta>, b: seq<ToolDelta>)
    requires forall index: nat :: OfIndex(a, index) == OfIndex(b, index)
    ensures MergeAll(drafts, a) == MergeAll(drafts, b)
  {
    var x, y := MergeAll(drafts, a), MergeAll(drafts, b);
    forall index: nat ensures index in x <==> index in y {
      MergeAllAt(drafts, a, index);
      MergeAllAt(drafts, b, index);
    }
    forall index: nat | index in x ensures x[index] == y[index] {
      MergeAllAt(drafts, a, index);
      MergeAllAt(drafts, b, index);
      assert DraftAt(x, index) == x[index] && DraftAt(y, index) == y[index];
    }
  }

  // ---------------------------------------------------------------------------------------
  // From drafts to calls

  function ToCall(d: Draft, responseId: string, index: nat, outside: Outside): Result<Call> {
    var callId := d.id.GetOr(outside.callId(index));
    if d.name.None? then Err(Upstream("missing chat completion tool call name at index " + Decimal(index))) else
      var raw := if Blank(d.arguments) then "{}" else d.arguments;
      if !outside.validJson(raw) then Err(Upstream("invalid chat completion tool call arguments"))
      else Ok(Call(responseId, callId, d.name.value, raw))
  }

  function CallsIn(drafts: map<nat, Draft>, keys: seq<nat>, responseId: string, outside: Outside): Result<seq<Call>>
    requires forall k :: k in keys ==> k in drafts
  {
    if keys == [] then Ok([]) else
      var before :- CallsIn(drafts, keys[..|keys| - 1], responseId, outside);
      var last := keys[|keys| - 1];
      var call :- ToCall(drafts[last], responseId, last, outside);
      Ok(before + [call])
  }

  /** One call for each draft, in ascending order of index; the first bad draft is the error. */
  ghost function CallsOf(drafts: map<nat, Draft>, responseId: string, outside: Outside): Result<seq<Call>> {
    CallsIn(drafts, Ascending(drafts.Keys), responseId, outside)
  }

  lemma {:induction false} CallsInAt(drafts: map<nat, Draft>, keys: seq<nat>, responseId: string, outside: Outside,
      i: nat)
    requires forall k :: k in keys ==> k in drafts
    requires CallsIn(drafts, keys, responseId, outside).Ok? && i < |keys|
    ensures var calls := CallsIn(drafts, keys, responseId, outside).value;
            |calls| == |keys| && ToCall(drafts[keys[i]], responseId, keys[i], outside) == Ok(calls[i])
  {
    hide ToCall;
    if i < |keys| - 1 {
      CallsInAt(drafts, keys[..|keys| - 1], responseId, outside, i);
    } else {
      CallsInLength(drafts, keys[..|keys| - 1], responseId, outside);
    }
  }

  lemma {:induction false} CallsInLength(drafts: map<nat, Draft>, keys: seq<nat>, responseId: string, outside: Outside)
    requires forall k :: k in keys ==> k in drafts
    ensures var calls := CallsIn(drafts, keys, responseId, outside);
            calls.Ok? ==> |calls.value| == |keys| && forall i :: 0 <= i < |keys| ==> calls.value[i].responseId == responseId
  {
    hide Decimal, Blank;
    if keys != [] { CallsInLength(drafts, keys[..|keys| - 1], responseId, outside); }
  }

  /** Every draft comes out as one call, the i-th call being that of the i-th smallest index. */
  lemma {:induction false} CallsComeOutInOrder(drafts: map<nat, Draft>, responseId: string, outside: Outside, i: nat)
    requires CallsOf(drafts, responseId, outside).Ok? && i < |drafts|
    ensures var calls, keys := CallsOf(drafts, responseId, outside).value, Ascending(drafts.Keys);
            && |calls| == |keys| == |drafts| && StrictlyAscending(keys) && (forall k :: k in keys <==> k in drafts)
            && ToCall(drafts[keys[i]], responseId, keys[i], outside) == Ok(calls[i])
  {
    CallsInAt(drafts, Ascending(drafts.Keys), responseId, outside, i);
  }

  lemma {:induction false} CallsErrStops(drafts: map<nat, Draft>, keys: seq<nat>, responseId: string,
      outside: Outside, n: nat)
    requires forall k :: k in keys ==> k in drafts
    requires n <= |keys| && CallsIn(drafts, keys[..n], responseId, outside).Err?
    ensures CallsIn(drafts, keys, responseId, outside) == CallsIn(drafts, keys[..n], responseId, outside)
  {
    hide ToCall;
    if n == |keys| {
      assert keys[..n] == keys;
    } else {
      assert keys[..|keys| - 1][..n] == keys[..n];
      CallsErrStops(drafts, keys[..|keys| - 1], responseId, outside, n);
    }
  }

  // ---------------------------------------------------------------------------------------
  // One response

  datatype Stream = Stream(responseId: Option<string>, request: seq<ChatMessage>, text: string, drafts: map<nat,
      Draft>, completed: bool)

  /** The response so far, the cache, the events to yield; an error ends it. */
  datatype Progress = Progress(s: Stream, cache: Cache, events: seq<ProviderEvent>, error: Option<Error>)

  function NewStream(request: seq<ChatMessage>): Stream {
    Stream(None, request, "", map[], false)
  }

  function DeltaHandled(s: Stream, d: Delta): Stream {
    s.(text := s.text + d.content.GetOr(""), drafts := MergeAll(s.drafts, d.toolCalls))
  }

  function DeltaEvents(d: Delta): seq<ProviderEvent> {
    if d.content.Some? && d.content.value != "" then [OutputTextDelta(d.content.value)] else []
  }

  function CallRefs(calls: seq<Call>): seq<CallRef> {
    if calls == [] then [] else
      var last := calls[|calls| - 1];
      CallRefs(calls[..|calls| - 1]) + [CallRef(last.callId, last.name, last.argumentsRaw)]
  }

  function Requested(calls: seq<Call>): seq<ProviderEvent> {
    if calls == [] then [] else Requested(calls[..|calls| - 1]) + [FunctionCallRequested(calls[|calls| - 1])]
  }

  function AssistantMessage(text: string, calls: seq<Call>): ChatMessage {
    Assistant(if text == "" then None else Some(text), CallRefs(calls))
  }

  /** `complete_choice`: once, the calls and then the completion; a list with calls is cached. */
  ghost function ChoiceCompleted(p: Progress, outside: Outside): Progress {
    if p.s.completed then p else
      var id := p.s.responseId.GetOr(outside.responseId);
      var s := p.s.(completed := true, responseId := Some(id));
      if s.drafts == map[] then p.(s := s, events := p.events + [Completed(Some(id))])
      else
        match CallsOf(s.drafts, id, outside)
        case Err(e) => p.(s := s, error := Some(e))
        case Ok(calls) =>
          Progress(s, p.cache[id := s.request + [AssistantMessage(s.text, calls)]],
                   p.events + Requested(calls) + [Completed(Some(id))], None)
  }

  ghost function ChoiceHandled(p: Progress, c: Choice, outside: Outside): Progress {
    if p.error.Some? then p else
      var q := if c.delta.Some? then p.(s := DeltaHandled(p.s, c.delta.value), events := p.events + DeltaEvents(c.delta.value)) else p;
      if c.finished then ChoiceCompleted(q, outside) else q
  }

  ghost function ChoicesHandled(p: Progress, choices: seq<Choice>, outside: Outside): Progress {
    if choices == [] then p
    else ChoiceHandled(ChoicesHandled(p, choices[..|choices| - 1], outside), choices[|choices| - 1], outside)
  }

  /** One payload; its events are yielded only if all of it is handled. */
  ghost function PayloadHandled(p: Progress, payload: Payload, outside: Outside): Progress {
    if p.error.Some? then p else
      var s := p.s.(responseId := p.s.responseId.OrElse(payload.id));
      var q := ChoicesHandled(Progress(s, p.cache, [], None), payload.choices, outside);
      q.(events := if q.error.Some? then p.events else p.events + q.events)
  }

  ghost function PayloadsHandled(p: Progress, payloads: seq<Payload>, outside: Outside): Progress {
    if payloads == [] then p
    else PayloadHandled(PayloadsHandled(p, payloads[..|payloads| - 1], outside), payloads[|payloads| - 1], outside)
  }

  /** What the connection delivers: decoded payloads, and then its end or a failure. */
  datatype Script = Script(payloads: seq<Payload>, failure: Option<Error>)

  /** The whole response; a stream that ends without a finish reason is completed here. */
  ghost function Streamed(request: seq<ChatMessage>, cache: Cache, script: Script, outside: Outside): Progress {
    var p := PayloadsHandled(Progress(NewStream(request), cache, [], None), script.payloads, outside);
    if p.error.Some? then p
    else if script.failure.Some? then p.(error := script.failure)
    else if p.s.completed then p
    else p.(events := p.events + [Completed(p.s.responseId)])
  }

  // ---------------------------------------------------------------------------------------
  // Exactly one completion, after every call

  predicate AllText(events: seq<ProviderEvent>) {
    forall i :: 0 <= i < |events| ==> events[i].OutputTextDelta?
  }

  /** The one completion is at `k`, and only text follows it, so that every call comes before. */
  predicate CompletesAt(events: seq<ProviderEvent>, k: int) {
    && 0 <= k < |events| && events[k].Completed?
    && (forall i :: 0 <= i < k ==> !events[i].Completed?)
    && (forall i :: k < i < |events| ==> events[i].OutputTextDelta?)
  }

  predicate OneCompletion(events: seq<ProviderEvent>) {
    exists k :: 0 <= k < |events| && CompletesAt(events, k)
  }

  /** The events of a stretch that begins and ends with the given `completed` flag. */
  predicate Shaped(events: seq<ProviderEvent>, before: bool, after: bool) {
    if before == after then AllText(events) else !before && OneCompletion(events)
  }

  lemma TextBefore(a: seq<ProviderEvent>, b: seq<ProviderEvent>, k: int)
    requires AllText(a) && CompletesAt(b, k)
    ensures CompletesAt(a + b, |a| + k)
  {
    assert forall i :: 0 <= i < |a| ==> (a + b)[i] == a[i];
    assert forall i :: |a| <= i < |a + b| ==> (a + b)[i] == b[i - |a|];
  }

  lemma TextAfter(a: seq<ProviderEvent>, b: seq<ProviderEvent>, k: int)
    requires CompletesAt(a, k) && AllText(b)
    ensures CompletesAt(a + b, k)
  {
    assert forall i :: 0 <= i < |a| ==> (a + b)[i] == a[i];
    assert forall i :: |a| <= i < |a + b| ==> (a + b)[i] == b[i - |a|];
  }

  lemma ShapesJoin(a: seq<ProviderEvent>, b: seq<ProviderEvent>, f: bool, g: bool, h: bool)
    requires Shaped(a, f, g) && Shaped(b, g, h)
    ensures Shaped(a + b, f, h)
  {
    if f != g {
      var k :| 0 <= k < |a| && CompletesAt(a, k);
      TextAfter(a, b, k);
    } else if g != h {
      var k :| 0 <= k < |b| && CompletesAt(b, k);
      TextBefore(a, b, k);
    }
  }

  lemma {:induction false} RequestedAreCalls(calls: seq<Call>)
    ensures |Requested(calls)| == |calls|
    ensures forall i :: 0 <= i < |calls| ==> Requested(calls)[i] == FunctionCallRequested(calls[i])
  {
    if calls != [] { RequestedAreCalls(calls[..|calls| - 1]); }
  }

  lemma {:induction false} CallsThenCompletion(calls: seq<Call>, id: string)
    ensures CompletesAt(Requested(calls) + [Completed(Some(id))], |calls|)
  {
    hide Requested;
    RequestedAreCalls(calls);
    assert forall i :: 0 <= i < |calls| ==> (Requested(calls) + [Completed(Some(id))])[i] == Requested(calls)[i];
  }

  lemma CompletionShape(p: Progress, outside: Outside)
    requires p.error.None? && ChoiceCompleted(p, outside).error.None?
    ensures var q := ChoiceCompleted(p, outside);
            q.s.completed && p.events <= q.events && Shaped(q.events[|p.events|..], p.s.completed, true)
  {
    hide CallsOf, AssistantMessage, Requested;
    var q := ChoiceCompleted(p, outside);
    if !p.s.completed {
      var id := p.s.responseId.GetOr(outside.responseId);
      if p.s.drafts == map[] {
        assert q.events[|p.events|..] == [Completed(Some(id))];
        assert CompletesAt(q.events[|p.events|..], 0);
      } else {
        var calls := CallsOf(p.s.drafts, id, outside).value;
        hide ChoiceCompleted;
        Assoc(p.events, Requested(calls), [Completed(Some(id))]);
        SliceRight(p.events, Requested(calls) + [Completed(Some(id))], |p.events|, 0);
        CallsThenCompletion(calls, id);
      }
    }
  }

  lemma ChoiceShape(p: Progress, c: Choice, outside: Outside)
    requires p.error.None? && ChoiceHandled(p, c, outside).error.None?
    ensures var q := ChoiceHandled(p, c, outside);
            p.events <= q.events && Shaped(q.events[|p.events|..], p.s.completed, q.s.completed)
  {
    hide ChoiceCompleted, OneCompletion, MergeAll;
    var q := if c.delta.Some? then p.(s := DeltaHandled(p.s, c.delta.value), events := p.events + DeltaEvents(c.delta.value)) else p;
    assert AllText(q.events[|p.events|..]);
    if c.finished {
      CompletionShape(q, outside);
      var r := ChoiceCompleted(q, outside);
      assert r.events[|p.events|..] == q.events[|p.events|..] + r.events[|q.events|..];
      ShapesJoin(q.events[|p.events|..], r.events[|q.events|..], p.s.completed, q.s.completed, r.s.completed);
    }
  }

  lemma {:induction false} ChoicesShape(p: Progress, choices: seq<Choice>, outside: Outside)
    requires p.error.None? && p.events == []
    ensures var q := ChoicesHandled(p, choices, outside);
            q.error.None? ==> Shaped(q.events, p.s.completed, q.s.completed)
  {
    hide ChoiceHandled, Shaped;
    if choices == [] {
      AllTextShape(p.s.completed);
    } else {
      var q := ChoicesHandled(p, choices[..|choices| - 1], outside);
      ChoicesShape(p, choices[..|choices| - 1], outside);
      if q.error.Some? { ErrorStays(q, choices[|choices| - 1], outside); }
      var r := ChoiceHandled(q, choices[|choices| - 1], outside);
      if r.error.None? {
        ChoiceShape(q, choices[|choices| - 1], outside);
        ShapesJoin(q.events, r.events[|q.events|..], p.s.completed, q.s.completed, r.s.completed);
        assert r.events == q.events + r.events[|q.events|..];
      }
    }
  }

  lemma AllTextShape(completed: bool)
    ensures Shaped([], completed, completed)
  {
  }

  lemma ErrorStays(p: Progress, c: Choice, outside: Outside)
    requires p.error.Some?
    ensures ChoiceHandled(p, c, outside) == p
  {
  }

  lemma {:induction false} PayloadsShape(request: seq<ChatMessage>, cache: Cache, payloads: seq<Payload>,
      outside: Outside)
    ensures var p := PayloadsHandled(Progress(NewStream(request), cache, [], None), payloads, outside);
            p.error.None? ==> Shaped(p.events, false, p.s.completed)
  {
    hide ChoicesHandled, Shaped;
    var p0 := Progress(NewStream(request), cache, [], None);
    if payloads == [] {
      AllTextShape(false);
    } else {
      PayloadsShape(request, cache, payloads[..|payloads| - 1], outside);
      var p := PayloadsHandled(p0, payloads[..|payloads| - 1], outside);
      var payload := payloads[|payloads| - 1];
      if p.error.None? {
        var s := p.s.(responseId := p.s.responseId.OrElse(payload.id));
        ChoicesShape(Progress(s, p.cache, [], None), payload.choices, outside);
        var q := ChoicesHandled(Progress(s, p.cache, [], None), payload.choices, outside);
        if q.error.None? { ShapesJoin(p.events, q.events, false, p.s.completed, q.s.completed); }
      }
    }
  }

  /** Every error-free response yields exactly one completion, and all its calls before it. */
  lemma OneCompletionInEveryStream(request: seq<ChatMessage>, cache: Cache, script: Script, outside: Outside)
    requires Streamed(request, cache, script, outside).error.None?
    ensures OneCompletion(Streamed(request, cache, script, outside).events)
  {
    hide PayloadsHandled, OneCompletion;
    PayloadsShape(request, cache, script.payloads, outside);
    var p := PayloadsHandled(Progress(NewStream(request), cache, [], None), script.payloads, outside);
    if !p.s.completed { LastCompletes(p.events, p.s.responseId); }
  }

  lemma LastCompletes(events: seq<ProviderEvent>, id: Option<string>)
    requires AllText(events)
    ensures OneCompletion(events + [Completed(id)])
  {
    assert CompletesAt(events + [Completed(id)], |events|);
  }

  // ---------------------------------------------------------------------------------------
  // From the deltas of a whole response to its calls

  function ChoiceDeltas(choices: seq<Choice>): seq<ToolDelta> {
    if choices == [] then [] else
      var c := choices[|choices| - 1];
      ChoiceDeltas(choices[..|choices| - 1]) + if c.delta.Some? then c.delta.value.toolCalls else []
  }

  function PayloadDeltas(payloads: seq<Payload>): seq<ToolDelta> {
    if payloads == [] then []
    else PayloadDeltas(payloads[..|payloads| - 1]) + ChoiceDeltas(payloads[|payloads| - 1].choices)
  }

  lemma {:induction false} MergeAllAppend(drafts: map<nat, Draft>, a: seq<ToolDelta>, b: seq<ToolDelta>)
    ensures MergeAll(drafts, a + b) == MergeAll(MergeAll(drafts, a), b)
  {
    hide Merged;
    if b == [] {
      assert a + b == a;
    } else {
      InitOfConcat(a, b);
      MergeAllAppend(drafts, a, b[..|b| - 1]);
    }
  }

  lemma ChoiceDrafts(p: Progress, c: Choice, outside: Outside)
    requires p.error.None? && ChoiceHandled(p, c, outside).error.None?
    ensures ChoiceHandled(p, c, outside).s.drafts == MergeAll(p.s.drafts, if c.delta.Some? then c.delta.value.toolCalls else [])
  {
    hide CallsOf, Merged;
  }

  lemma {:induction false} ChoicesDrafts(p: Progress, choices: seq<Choice>, outside: Outside)
    requires p.error.None? && ChoicesHandled(p, choices, outside).error.None?
    ensures ChoicesHandled(p, choices, outside).s.drafts == MergeAll(p.s.drafts, ChoiceDeltas(choices))
  {
    hide ChoiceHandled, Merged;
    if choices != [] {
      var init, c := choices[..|choices| - 1], choices[|choices| - 1];
      var q := ChoicesHandled(p, init, outside);
      if q.error.Some? { ErrorStays(q, c, outside); }
      ChoicesDrafts(p, init, outside);
      ChoiceDrafts(q, c, outside);
      MergeAllAppend(p.s.drafts, ChoiceDeltas(init), if c.delta.Some? then c.delta.value.toolCalls else []);
    }
  }

  lemma {:induction false} PayloadsDrafts(request: seq<ChatMessage>, cache: Cache, payloads: seq<Payload>,
      outside: Outside)
    ensures var p := PayloadsHandled(Progress(NewStream(request), cache, [], None), payloads, outside);
            p.error.None? ==> p.s.drafts == MergeAll(map[], PayloadDeltas(payloads))
  {
    hide ChoicesHandled, Merged;
    var p0 := Progress(NewStream(request), cache, [], None);
    if payloads != [] {
      var init, payload := payloads[..|payloads| - 1], payloads[|payloads| - 1];
      PayloadsDrafts(request, cache, init, outside);
      var p := PayloadsHandled(p0, init, outside);
      var q := Progress(p.s.(responseId := p.s.responseId.OrElse(payload.id)), p.cache, [], None);
      if p.error.None? && ChoicesHandled(q, payload.choices, outside).error.None? {
        ChoicesDrafts(q, payload.choices, outside);
        MergeAllAppend(map[], PayloadDeltas(init), ChoiceDeltas(payload.choices));
      }
    }
  }

  /** A payload with a finish reason, and perhaps a last delta. */
  function Ending(id: Option<string>, delta: Option<Delta>): Payload {
    Payload(id, [Choice(delta, true)])
  }

  /** The text that the ending payload emits before the calls. */
  function LastText(delta: Option<Delta>): seq<ProviderEvent> {
    if delta.Some? then DeltaEvents(delta.value) else []
  }

  /** Both fail alike, or what follows `before` and `before'` is the same: the calls and the completion. */
  predicate EndAlike(p: Progress, before: seq<ProviderEvent>, q: Progress, before': seq<ProviderEvent>) {
    && p.error == q.error
    && (p.error.None? ==>
          before <= p.events && before' <= q.events && p.events[|before|..] == q.events[|before'|..])
  }

  /**
   Two responses whose deltas agree index by index make the same calls when they finish, whatever
   the interleaving of indexes and the division into payloads.
   */
  lemma {:induction false} CallsDependOnEachIndexAlone(request: seq<ChatMessage>, cache: Cache, outside: Outside,
      a: seq<Payload>, idA: Option<string>, lastA: Option<Delta>, b: seq<Payload>, idB: Option<string>, lastB: Option<Delta>)
    requires forall index: nat ::
               OfIndex(PayloadDeltas(a + [Ending(idA, lastA)]), index) == OfIndex(PayloadDeltas(b + [Ending(idB, lastB)]), index)
    requires var p0 := Progress(NewStream(request), cache, [], None);
             var p, q := PayloadsHandled(p0, a, outside), PayloadsHandled(p0, b, outside);
             && p.error.None? && q.error.None? && !p.s.completed && !q.s.completed
             && p.s.responseId.OrElse(idA) == q.s.responseId.OrElse(idB)
    ensures var p0 := Progress(NewStream(request), cache, [], None);
            var p, q := PayloadsHandled(p0, a, outside), PayloadsHandled(p0, b, outside);
            EndAlike(PayloadHandled(p, Ending(idA, lastA), outside), p.events + LastText(lastA),
                     PayloadHandled(q, Ending(idB, lastB), outside), q.events + LastText(lastB))
  {
    hide CallsOf, MergeAll, PayloadsHandled, PayloadHandled, PayloadDeltas, Ending;
    var p0 := Progress(NewStream(request), cache, [], None);
    var p, q := PayloadsHandled(p0, a, outside), PayloadsHandled(p0, b, outside);
    DraftsAtTheEnd(request, cache, a, idA, lastA, outside);
    DraftsAtTheEnd(request, cache, b, idB, lastB, outside);
    MergingIsConfluent(map[], PayloadDeltas(a + [Ending(idA, lastA)]), PayloadDeltas(b + [Ending(idB, lastB)]));
    EndHandled(p, idA, lastA, outside);
    EndHandled(q, idB, lastB, outside);
  }

  function AtTheEnd(s: Stream, id: Option<string>, delta: Option<Delta>): Stream {
    var t := s.(responseId := s.responseId.OrElse(id));
    if delta.Some? then DeltaHandled(t, delta.value) else t
  }

  lemma {:induction false} DraftsAtTheEnd(request: seq<ChatMessage>, cache: Cache, payloads: seq<Payload>,
      id: Option<string>,
      delta: Option<Delta>, outside: Outside)
    ensures var p := PayloadsHandled(Progress(NewStream(request), cache, [], None), payloads, outside);
            p.error.None? ==>
              AtTheEnd(p.s, id, delta).drafts == MergeAll(map[], PayloadDeltas(payloads + [Ending(id, delta)]))
  {
    hide Merged, PayloadsHandled;
    PayloadsDrafts(request, cache, payloads, outside);
    var last := if delta.Some? then delta.value.toolCalls else [];
    InitOfConcat(payloads, [Ending(id, delta)]);
    assert payloads + [] == payloads;
    assert ChoiceDeltas([]) == [];
    assert ChoiceDeltas(Ending(id, delta).choices) == [] + last == last by { assert Ending(id, delta).choices[..0] == []; }
    MergeAllAppend(map[], PayloadDeltas(payloads), last);
  }

  /** What the finishing payload adds to the events of a response. */
  ghost function FinishEvents(s: Stream, outside: Outside): Result<seq<ProviderEvent>> {
    var id := s.responseId.GetOr(outside.responseId);
    if s.drafts == map[] then Ok([Completed(Some(id))]) else
      var calls :- CallsOf(s.drafts, id, outside);
      Ok(Requested(calls) + [Completed(Some(id))])
  }

  lemma {:induction false} EndHandled(p: Progress, id: Option<string>, delta: Option<Delta>, outside: Outside)
    requires p.error.None? && !p.s.completed
    ensures var q, events := PayloadHandled(p, Ending(id, delta), outside), FinishEvents(AtTheEnd(p.s, id, delta), outside);
            match events
            case Ok(e) => q.error.None? && q.events == p.events + LastText(delta) + e
            case Err(e) => q.error == Some(e)
  {
    hide CallsOf, MergeAll;
    var q := Progress(p.s.(responseId := p.s.responseId.OrElse(id)), p.cache, [], None);
    var choices := Ending(id, delta).choices;
    assert ChoicesHandled(q, choices, outside) == ChoiceHandled(q, choices[0], outside) by { assert choices[..0] == []; }
    hide ChoicesHandled;
    var s := AtTheEnd(p.s, id, delta);
    assert [] + LastText(delta) == LastText(delta);
    if FinishEvents(s, outside).Ok? {
      var e := FinishEvents(s, outside).value;
      assert ChoiceHandled(q, choices[0], outside).events == LastText(delta) + e;
      Assoc(p.events, LastText(delta), e);
    }
  }

  // ---------------------------------------------------------------------------------------
  // The message list of a request

  datatype FunctionCallOutput = FunctionCallOutput(callId: string, output: string)

  function ToolMessages(outputs: seq<FunctionCallOutput>): (r: seq<ChatMessage>)
    ensures |r| == |outputs| && forall i :: 0 <= i < |r| ==> r[i] == Tool(outputs[i].callId, outputs[i].output)
  {
    seq(|outputs|, i requires 0 <= i < |outputs| => Tool(outputs[i].callId, outputs[i].output))
  }

  function InputMessages(input: seq<InputMessage>): (r: seq<ChatMessage>)
    ensures |r| == |input| && forall i :: 0 <= i < |r| ==> r[i] == Plain(input[i].role, input[i].content)
  {
    seq(|input|, i requires 0 <= i < |input| => Plain(input[i].role, input[i].content))
  }

  /** A follow-up replays the cached list of the response before it, then the tool outputs. */
  function Mapped(cache: Cache, instructions: Option<string>, input: seq<InputMessage>,
      previous: Option<string>, outputs: Option<seq<FunctionCallOutput>>): Result<seq<ChatMessage>>
  {
    if previous.Some? then
      if previous.value in cache then Ok(cache[previous.value] + ToolMessages(outputs.GetOr([])))
      else Err(Upstream("missing cached chat completion response for " + previous.value))
    else
      var system := if instructions.Some? && !Blank(instructions.value) then [Plain("system", instructions.value)] else [];
      Ok(system + InputMessages(input) + ToolMessages(outputs.GetOr([])))
  }

  // ---------------------------------------------------------------------------------------
  // The client and the state of one stream

  lemma {:induction false} ChoicesErrStop(p: Progress, choices: seq<Choice>, outside: Outside, n: nat)
    requires n <= |choices| && ChoicesHandled(p, choices[..n], outside).error.Some?
    ensures ChoicesHandled(p, choices, outside) == ChoicesHandled(p, choices[..n], outside)
  {
    hide ChoiceCompleted;
    if n == |choices| {
      assert choices[..n] == choices;
    } else {
      assert choices[..|choices| - 1][..n] == choices[..n];
      ChoicesErrStop(p, choices[..|choices| - 1], outside, n);
    }
  }

  lemma {:induction false} PayloadsErrStop(p: Progress, payloads: seq<Payload>, outside: Outside, n: nat)
    requires n <= |payloads| && PayloadsHandled(p, payloads[..n], outside).error.Some?
    ensures PayloadsHandled(p, payloads, outside) == PayloadsHandled(p, payloads[..n], outside)
  {
    hide ChoicesHandled;
    if n == |payloads| {
      assert payloads[..n] == payloads;
    } else {
      assert payloads[..|payloads| - 1][..n] == payloads[..n];
      PayloadsErrStop(p, payloads[..|payloads| - 1], outside, n);
    }
  }

  /** The keys of an ordered map, smallest first. */
  method SortedKeys(keys: set<nat>) returns (r: seq<nat>)
    ensures r == Ascending(keys)
  {
    r := [];
    var rest := keys;
    while rest != {}
      invariant rest <= keys && StrictlyAscending(r)
      invariant forall k :: k in r <==> k in keys - rest
      invariant forall j, k :: 0 <= j < |r| && k in rest ==> r[j] < k
      decreases |rest|
    {
      LeastExists(rest);
      ghost var m: nat :| IsLeast(rest, m);
      var least: nat :| least in rest && forall k :: k in rest ==> least <= k;
      r := r + [least];
      rest := rest - {least};
    }
    AscendingUnique(r, Ascending(keys));
  }

  method CallsLoop(drafts: map<nat, Draft>, keys: seq<nat>, id: string, outside: Outside) returns (r: Result<seq<Call>>)
    requires forall k :: k in keys ==> k in drafts
    ensures r == CallsIn(drafts, keys, id, outside)
  {
    hide ToCall;
    var calls: seq<Call> := [];
    for k := 0 to |keys|
      invariant CallsIn(drafts, keys[..k], id, outside) == Ok(calls)
    {
      assert keys[..k + 1][..k] == keys[..k];
      var call := ToCall(drafts[keys[k]], id, keys[k], outside);
      if call.Err? {
        CallsErrStops(drafts, keys, id, outside, k + 1);
        return Err(call.error);
      }
      calls := calls + [call.value];
    }
    assert keys[..|keys|] == keys;
    return Ok(calls);
  }

  class ChatCompletionsClient {
    var responseCache: Cache

    constructor ()
      ensures responseCache == map[]
    {
      responseCache := map[];
    }

    method MapMessages(instructions: Option<string>, input: seq<InputMessage>,
        previous: Option<string>, outputs: Option<seq<FunctionCallOutput>>) returns (r: Result<seq<ChatMessage>>)
      ensures r == Mapped(responseCache, instructions, input, previous, outputs)
    {
      if previous.Some? {
        if previous.value !in responseCache {
          return Err(Upstream("missing cached chat completion response for " + previous.value));
        }
        var messages := responseCache[previous.value];
        messages := messages + ToolMessages(outputs.GetOr([]));
        return Ok(messages);
      }
      var messages: seq<ChatMessage> := [];
      if instructions.Some? && !Blank(instructions.value) {
        messages := messages + [Plain("system", instructions.value)];
        assert messages == [Plain("system", instructions.value)];
      }
      messages := messages + InputMessages(input);
      assert messages + ToolMessages([]) == messages;
      if outputs.Some? {
        messages := messages + ToolMessages(outputs.value);
      }
      return Ok(messages);
    }

    /** The events of one response in the order they are yielded, and the error that ended it, if any. */
    method StreamVerbose(request: seq<ChatMessage>, script: Script, outside: Outside)
      returns (events: seq<ProviderEvent>, error: Option<Error>)
      modifies this
      ensures var p := Streamed(request, old(responseCache), script, outside);
              responseCache == p.cache && events == p.events && error == p.error
    {
      hide ChoicesHandled;
      ghost var p0 := Progress(NewStream(request), responseCache, [], None);
      var state := new ChatStreamState(request);
      events, error := [], None;
      for k := 0 to |script.payloads|
        invariant fresh(state)
        invariant PayloadsHandled(p0, script.payloads[..k], outside) == Progress(state.View(), responseCache, events, None)
      {
        assert script.payloads[..k + 1][..k] == script.payloads[..k];
        ghost var p := Progress(state.View(), responseCache, events, None);
        assert PayloadsHandled(p0, script.payloads[..k + 1], outside) == PayloadHandled(p, script.payloads[k], outside);
        var handled := state.HandlePayload(this, script.payloads[k], outside);
        if handled.Err? {
          PayloadsErrStop(p0, script.payloads, outside, k + 1);
          return events, Some(handled.error);
        }
        events := events + handled.value;
      }
      assert script.payloads[..|script.payloads|] == script.payloads;
      if script.failure.Some? {
        return events, script.failure;
      }
      if !state.completed {
        events := events + [Completed(state.responseId)];
      }
    }
  }

  class ChatStreamState {
    var responseId: Option<string>
    var requestMessages: seq<ChatMessage>
    var assistantText: string
    var toolCalls: map<nat, Draft>
    var completed: bool

    ghost function View(): Stream
      reads this
    {
      Stream(responseId, requestMessages, assistantText, toolCalls, completed)
    }

    constructor (request: seq<ChatMessage>)
      ensures View() == NewStream(request)
    {
      responseId, completed := None, false;
      requestMessages := request;
      assistantText, toolCalls := "", map[];
    }

    method MergeToolCallDelta(t: ToolDelta)
      modifies this`toolCalls
      ensures toolCalls == Merged(old(toolCalls), t)
    {
      var draft := if t.index in toolCalls then toolCalls[t.index] else NO_DRAFT;
      if t.id.Some? && draft.id.None? {
        draft := draft.(id := t.id);
      }
      if t.name.Some? && draft.name.None? {
        draft := draft.(name := t.name);
      }
      if t.arguments.Some? {
        draft := draft.(arguments := draft.arguments + t.arguments.value);
      }
      assert draft.arguments + "" == draft.arguments;
      toolCalls := toolCalls[t.index := draft];
    }

    method HandleDelta(d: Delta) returns (events: seq<ProviderEvent>)
      modifies this
      ensures View() == DeltaHandled(old(View()), d) && events == DeltaEvents(d)
    {
      events := [];
      if d.content.Some? && d.content.value != "" {
        assistantText := assistantText + d.content.value;
        events := events + [OutputTextDelta(d.content.value)];
      }
      for k := 0 to |d.toolCalls|
        invariant toolCalls == MergeAll(old(toolCalls), d.toolCalls[..k])
        modifies this`toolCalls
      {
        assert d.toolCalls[..k + 1][..k] == d.toolCalls[..k];
        MergeToolCallDelta(d.toolCalls[k]);
      }
      assert d.toolCalls[..|d.toolCalls|] == d.toolCalls;
    }

    method ProviderToolCalls(id: string, outside: Outside) returns (r: Result<seq<Call>>)
      ensures r == CallsOf(toolCalls, id, outside)
    {
      var keys := SortedKeys(toolCalls.Keys);
      r := CallsLoop(toolCalls, keys, id, outside);
    }

    /** What `CompleteChoice` and `HandlePayload` return for the progress that they made. */
    ghost predicate Made(q: Progress, provider: ChatCompletionsClient, r: Result<seq<ProviderEvent>>)
      reads this, provider
    {
      && View() == q.s && provider.responseCache == q.cache
      && r == if q.error.Some? then Err(q.error.value) else Ok(q.events)
    }

    method CompleteChoice(provider: ChatCompletionsClient, outside: Outside) returns (r: Result<seq<ProviderEvent>>)
      modifies this, provider
      ensures Made(ChoiceCompleted(Progress(old(View()), old(provider.responseCache), [], None), outside), provider, r)
    {
      hide CallsOf;
      if completed {
        return Ok([]);
      }
      completed := true;
      var id := responseId.GetOr(outside.responseId);
      responseId := Some(id);
      var events: seq<ProviderEvent> := [];
      if toolCalls != map[] {
        var calls := ProviderToolCalls(id, outside);
        if calls.Err? {
          return Err(calls.error);
        }
        provider.responseCache := provider.responseCache[id := requestMessages + [AssistantMessage(assistantText, calls.value)]];
        events := events + Requested(calls.value);
      }
      return Ok(events + [Completed(Some(id))]);
    }

    method HandlePayload(provider: ChatCompletionsClient, payload: Payload,
        outside: Outside) returns (r: Result<seq<ProviderEvent>>)
      modifies this, provider
      ensures var s := old(View()).(responseId := old(responseId).OrElse(payload.id));
              Made(ChoicesHandled(Progress(s, old(provider.responseCache), [], None), payload.choices, outside), provider, r)
    {
      hide ChoiceCompleted, DeltaHandled, DeltaEvents;
      if payload.id.Some? && responseId.None? {
        responseId := payload.id;
      }
      ghost var p0 := Progress(View(), provider.responseCache, [], None);
      var events: seq<ProviderEvent> := [];
      for k := 0 to |payload.choices|
        invariant ChoicesHandled(p0, payload.choices[..k], outside) == Progress(View(), provider.responseCache, events, None)
      {
        assert payload.choices[..k + 1][..k] == payload.choices[..k];
        var choice := payload.choices[k];
        ghost var before := Progress(View(), provider.responseCache, events, None);
        assert ChoicesHandled(p0, payload.choices[..k + 1], outside) == ChoiceHandled(before, choice, outside);
        hide ChoicesHandled;
        if choice.delta.Some? {
          var more := HandleDelta(choice.delta.value);
          events := events + more;
        }
        if choice.finished {
          ghost var p := Progress(View(), provider.responseCache, events, None);
          EventsInFront(p, outside);
          var more := CompleteChoice(provider, outside);
          if more.Err? {
            ChoicesErrStop(p0, payload.choices, outside, k + 1);
            return Err(more.error);
          }
          events := events + more.value;
        }
      }
      assert payload.choices[..|payload.choices|] == payload.choices;
      return Ok(events);
    }
  }

  /** A completion only appends to the events before it. */
  lemma {:induction false} EventsInFront(p: Progress, outside: Outside)
    requires p.error.None?
    ensures var q := ChoiceCompleted(p.(events := []), outside);
            ChoiceCompleted(p, outside) == q.(events := p.events + q.events)
  {
    hide CallsOf, Requested;
    var id := p.s.responseId.GetOr(outside.responseId);
    if !p.s.completed && p.s.drafts != map[] && CallsOf(p.s.drafts, id, outside).Ok? {
      Assoc(p.events, Requested(CallsOf(p.s.drafts, id, outside).value), [Completed(Some(id))]);
    }
  }
}
