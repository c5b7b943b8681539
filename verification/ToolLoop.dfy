/**
 The transcript over the rounds of one turn: what the turn body takes from each response, and what
 the chat client therefore sends in the next request.
 */
module ToolLoop {
  import opened Common
  import opened Text
  import opened Transcript
  import opened ChatClient

  // ---------------------------------------------------------------------------------------
  // What the turn body takes from a response: everything before the first completion

  function FirstCompletion(events: seq<ProviderEvent>): (k: nat)
    ensures k <= |events| && (k < |events| ==> events[k].Completed?)
    ensures forall i :: 0 <= i < k ==> !events[i].Completed?
  {
    if events == [] || events[0].Completed? then 0 else
      var k := 1 + FirstCompletion(events[1..]);
      assert forall i :: 1 <= i < k ==> events[i] == events[1..][i - 1];
      k
  }

  function CallsOfEvents(events: seq<ProviderEvent>): seq<Call> {
    if events == [] then [] else
      var before, last := CallsOfEvents(events[..|events| - 1]), events[|events| - 1];
      if last.FunctionCallRequested? then before + [last.call] else before
  }

  function TextOfEvents(events: seq<ProviderEvent>): string {
    if events == [] then "" else
      var before, last := TextOfEvents(events[..|events| - 1]), events[|events| - 1];
      if last.OutputTextDelta? then before + last.delta else before
  }

  function CallsTaken(events: seq<ProviderEvent>): seq<Call> {
    CallsOfEvents(events[..FirstCompletion(events)])
  }

  lemma {:induction false} CallsOfAppend(a: seq<ProviderEvent>, b: seq<ProviderEvent>)
    ensures CallsOfEvents(a + b) == CallsOfEvents(a) + CallsOfEvents(b)
  {
    if b == [] {
      assert a + b == a;
    } else {
      InitOfConcat(a, b);
      CallsOfAppend(a, b[..|b| - 1]);
    }
  }

  lemma {:induction false} CallsOfRequested(calls: seq<Call>)
    ensures CallsOfEvents(Requested(calls)) == calls
  {
    if calls != [] { CallsOfRequested(calls[..|calls| - 1]); }
  }

  lemma {:induction false} TextHasNoCalls(events: seq<ProviderEvent>)
    requires AllText(events)
    ensures CallsOfEvents(events) == []
  {
    if events != [] { TextHasNoCalls(events[..|events| - 1]); }
  }

  /** Nothing is lost by stopping at the completion: all calls come before it. */
  lemma StoppingLosesNoCall(events: seq<ProviderEvent>)
    requires Shaped(events, false, true)
    ensures CallsTaken(events) == CallsOfEvents(events)
  {
    var k :| 0 <= k < |events| && CompletesAt(events, k);
    var f := FirstCompletion(events);
    assert f == k;
    assert events == events[..k] + events[k..];
    assert events[k..] == [events[k]] + events[k + 1..];
    TextHasNoCalls(events[k + 1..]);
    CallsOfAppend([events[k]], events[k + 1..]);
    CallsOfAppend(events[..k], events[k..]);
    assert CallsOfEvents([events[k]]) == [] by { assert [events[k]][..0] == []; }
  }

  /** The text before the first completion. */
  function Said(events: seq<ProviderEvent>): string {
    TextOfEvents(events[..FirstCompletion(events)])
  }

  lemma {:induction false} TextOfAppend(a: seq<ProviderEvent>, b: seq<ProviderEvent>)
    ensures TextOfEvents(a + b) == TextOfEvents(a) + TextOfEvents(b)
  {
    if b == [] {
      assert a + b == a;
    } else {
      InitOfConcat(a, b);
      TextOfAppend(a, b[..|b| - 1]);
      var last := b[|b| - 1];
      Assoc(TextOfEvents(a), TextOfEvents(b[..|b| - 1]), if last.OutputTextDelta? then last.delta else "");
    }
  }

  lemma {:induction false} RequestedSaysNothing(calls: seq<Call>)
    ensures TextOfEvents(Requested(calls)) == ""
  {
    if calls != [] { RequestedSaysNothing(calls[..|calls| - 1]); }
  }

  /** Events after the first completion change nothing that was said. */
  lemma SaidBefore(a: seq<ProviderEvent>, b: seq<ProviderEvent>)
    requires FirstCompletion(a) < |a|
    ensures FirstCompletion(a + b) == FirstCompletion(a) && Said(a + b) == Said(a)
  {
    var k := FirstCompletion(a);
    assert forall i :: 0 <= i < |a| ==> (a + b)[i] == a[i];
    hide TextOfEvents;
    SliceLeft(a, b, k);
  }

  /** Without a completion so far, what is said goes on. */
  lemma SaidAfter(a: seq<ProviderEvent>, b: seq<ProviderEvent>)
    requires FirstCompletion(a) == |a|
    ensures FirstCompletion(a + b) == |a| + FirstCompletion(b) && Said(a + b) == TextOfEvents(a) + Said(b)
  {
    var k, f := FirstCompletion(b), FirstCompletion(a + b);
    assert forall i :: 0 <= i < |a| ==> (a + b)[i] == a[i];
    assert forall i :: |a| <= i < |a + b| ==> (a + b)[i] == b[i - |a|];
    assert forall i :: 0 <= i < |a| + k ==> !(a + b)[i].Completed?;
    hide TextOfEvents;
    SliceRight(a, b, |a| + k, k);
    TextOfAppend(a, b[..k]);
  }

  // ---------------------------------------------------------------------------------------
  // A response that made calls is in the cache, with exactly those calls

  /** The calls carry one response id, under which the cache has the request, the text and the calls. */
  ghost predicate Replayable(cache: Cache, request: seq<ChatMessage>, calls: seq<Call>, text: string) {
    calls != [] ==>
      && (forall i :: 0 <= i < |calls| ==> calls[i].responseId == calls[0].responseId)
      && calls[0].responseId in cache
      && cache[calls[0].responseId] == request + [AssistantMessage(text, calls)]
  }

  /** What these events called, after the text `before`, can be replayed. */
  ghost predicate Recorded(cache: Cache, request: seq<ChatMessage>, events: seq<ProviderEvent>, before: string) {
    var calls := CallsOfEvents(events);
    calls != [] ==> FirstCompletion(events) < |events| && Replayable(cache, request, calls, before + Said(events))
  }

  ghost predicate Unfinished(events: seq<ProviderEvent>) {
    CallsOfEvents(events) == [] && FirstCompletion(events) == |events|
  }

  lemma RecordedThenText(cache: Cache, request: seq<ChatMessage>, a: seq<ProviderEvent>, b: seq<ProviderEvent>,
      before: string)
    requires Recorded(cache, request, a, before) && CallsOfEvents(b) == []
    ensures Recorded(cache, request, a + b, before)
  {
    hide Replayable, CallsOfEvents, Said;
    CallsOfAppend(a, b);
    assert CallsOfEvents(a) + [] == CallsOfEvents(a);
    if CallsOfEvents(a) != [] { SaidBefore(a, b); }
  }

  lemma UnfinishedThenRecorded(cache: Cache, request: seq<ChatMessage>, a: seq<ProviderEvent>, b: seq<ProviderEvent>,
      before: string)
    requires Unfinished(a) && Recorded(cache, request, b, before + TextOfEvents(a))
    ensures Recorded(cache, request, a + b, before)
  {
    hide Replayable, CallsOfEvents, Said, TextOfEvents;
    CallsOfAppend(a, b);
    assert [] + CallsOfEvents(b) == CallsOfEvents(b);
    SaidAfter(a, b);
    Assoc(before, TextOfEvents(a), Said(b));
  }

  /** The part of a response handled so far, `before` having been said before these events. */
  ghost predicate Kept(p: Progress, request: seq<ChatMessage>, before: string) {
    && p.s.request == request
    && (!p.s.completed && p.error.None? ==> Unfinished(p.events) && p.s.text == before + TextOfEvents(p.events))
    && (p.error.None? ==> Recorded(p.cache, request, p.events, before))
  }

  lemma {:induction false} CallsAreRecorded(cache: Cache, request: seq<ChatMessage>, calls: seq<Call>, id: string,
      text: string)
    requires forall i :: 0 <= i < |calls| ==> calls[i].responseId == id
    requires calls != [] ==> id in cache && cache[id] == request + [AssistantMessage(text, calls)]
    ensures Recorded(cache, request, Requested(calls) + [Completed(Some(id))], text)
  {
    var b := [Completed(Some(id))];
    hide Requested, AssistantMessage;
    CallsOfRequested(calls);
    CallsOfAppend(Requested(calls), b);
    CompletionAlone(Some(id));
    assert calls + [] == calls;
    RequestedAreCalls(calls);
    RequestedSaysNothing(calls);
    SaidAfter(Requested(calls), b);
    assert b[..FirstCompletion(b)] == [];
    assert text + ("" + "") == text;
  }

  lemma CompletionKeeps(p: Progress, outside: Outside, request: seq<ChatMessage>, before: string)
    requires p.error.None? && Kept(p, request, before)
    ensures Kept(ChoiceCompleted(p, outside), request, before)
    ensures p.s.completed ==> ChoiceCompleted(p, outside) == p
  {
    hide Ascending, CallsIn, CallsOfEvents, Requested, AssistantMessage, Recorded;
    var q := ChoiceCompleted(p, outside);
    if !p.s.completed && q.error.None? {
      var id := p.s.responseId.GetOr(outside.responseId);
      var keys := Ascending(p.s.drafts.Keys);
      if p.s.drafts == map[] {
        CallsAreRecorded(q.cache, request, [], id, p.s.text);
        assert Requested([]) + [Completed(Some(id))] == [Completed(Some(id))] by { NothingRequested(); }
        UnfinishedThenRecorded(q.cache, request, p.events, [Completed(Some(id))], before);
      } else {
        var calls := CallsIn(p.s.drafts, keys, id, outside).value;
        CallsInLength(p.s.drafts, keys, id, outside);
        CallsAreRecorded(q.cache, request, calls, id, p.s.text);
        UnfinishedThenRecorded(q.cache, request, p.events, Requested(calls) + [Completed(Some(id))], before);
        Assoc(p.events, Requested(calls), [Completed(Some(id))]);
      }
    }
  }

  lemma NothingRequested()
    ensures Requested([]) == []
  {
  }

  lemma TextIsUnfinished(events: seq<ProviderEvent>)
    requires AllText(events)
    ensures Unfinished(events)
  {
    TextHasNoCalls(events);
  }

  lemma DeltaSays(d: Delta)
    ensures TextOfEvents(DeltaEvents(d)) == d.content.GetOr("") && AllText(DeltaEvents(d))
  {
    if d.content.Some? && d.content.value != "" {
      assert DeltaEvents(d)[..0] == [];
    }
  }

  lemma DeltaKeeps(p: Progress, d: Delta, request: seq<ChatMessage>, before: string)
    requires p.error.None? && Kept(p, request, before)
    ensures Kept(p.(s := DeltaHandled(p.s, d), events := p.events + DeltaEvents(d)), request, before)
  {
    hide MergeAll, CallsOfEvents, TextOfEvents, Recorded, DeltaEvents, FirstCompletion;
    DeltaSays(d);
    TextIsUnfinished(DeltaEvents(d));
    RecordedThenText(p.cache, request, p.events, DeltaEvents(d), before);
    CallsOfAppend(p.events, DeltaEvents(d));
    if !p.s.completed {
      SaidAfter(p.events, DeltaEvents(d));
      TextOfAppend(p.events, DeltaEvents(d));
      Assoc(before, TextOfEvents(p.events), d.content.GetOr(""));
    }
  }

  lemma ChoiceKeeps(p: Progress, c: Choice, outside: Outside, request: seq<ChatMessage>, before: string)
    requires Kept(p, request, before)
    ensures Kept(ChoiceHandled(p, c, outside), request, before)
    ensures p.s.completed ==> ChoiceHandled(p, c, outside).cache == p.cache && ChoiceHandled(p, c, outside).s.completed
  {
    hide Recorded, Unfinished, ChoiceCompleted, MergeAll, DeltaEvents;
    if p.error.None? {
      if c.delta.Some? { DeltaKeeps(p, c.delta.value, request, before); }
      var q := if c.delta.Some? then p.(s := DeltaHandled(p.s, c.delta.value), events := p.events + DeltaEvents(c.delta.value)) else p;
      CompletionKeeps(q, outside, request, before);
    }
  }

  lemma {:induction false} ChoicesKeep(p: Progress, choices: seq<Choice>, outside: Outside, request: seq<ChatMessage>,
      before: string)
    requires Kept(p, request, before)
    ensures Kept(ChoicesHandled(p, choices, outside), request, before)
    ensures p.s.completed ==> ChoicesHandled(p, choices, outside).cache == p.cache && ChoicesHandled(p, choices, outside).s.completed
  {
    hide Kept, ChoiceHandled;
    if choices != [] {
      ChoicesKeep(p, choices[..|choices| - 1], outside, request, before);
      ChoiceKeeps(ChoicesHandled(p, choices[..|choices| - 1], outside), choices[|choices| - 1], outside, request, before);
    }
  }

  /** The events yielded so far, also when an error has ended the response. */
  ghost predicate Yielded(p: Progress, request: seq<ChatMessage>) {
    AllText(p.events) || (OneCompletion(p.events) && Recorded(p.cache, request, p.events, ""))
  }

  lemma NothingKept(p: Progress, request: seq<ChatMessage>)
    requires p.s.request == request && p.events == []
    ensures Kept(p, request, p.s.text) && AllText([]) && Recorded(p.cache, request, [], "")
  {
    assert p.s.text + "" == p.s.text;
  }

  lemma PayloadKeeps(p: Progress, payload: Payload, outside: Outside, request: seq<ChatMessage>)
    requires p.error.None? && Kept(p, request, "") && Yielded(p, request) && Shaped(p.events, false, p.s.completed)
    ensures var q := PayloadHandled(p, payload, outside);
            Yielded(q, request) && (q.error.None? ==> Kept(q, request, "") && Shaped(q.events, false, q.s.completed))
  {
    hide Recorded, ChoicesHandled, CallsOfEvents, OneCompletion, TextOfEvents, FirstCompletion;
    var start := Progress(p.s.(responseId := p.s.responseId.OrElse(payload.id)), p.cache, [], None);
    NothingKept(start, request);
    ChoicesKeep(start, payload.choices, outside, request, p.s.text);
    ChoicesShape(start, payload.choices, outside);
    var q := ChoicesHandled(start, payload.choices, outside);
    if q.error.None? {
      ShapesJoin(p.events, q.events, false, p.s.completed, q.s.completed);
      if p.s.completed {
        TextHasNoCalls(q.events);
        RecordedThenText(p.cache, request, p.events, q.events, "");
      } else {
        assert p.s.text == TextOfEvents(p.events);
        UnfinishedThenRecorded(q.cache, request, p.events, q.events, "");
        assert "" + TextOfEvents(p.events) == TextOfEvents(p.events);
        CallsOfAppend(p.events, q.events);
        SaidAfter(p.events, q.events);
        TextOfAppend(p.events, q.events);
        assert "" + (TextOfEvents(p.events) + TextOfEvents(q.events)) == TextOfEvents(p.events) + TextOfEvents(q.events);
      }
    }
  }

  lemma {:induction false} PayloadsKeep(request: seq<ChatMessage>, cache: Cache, payloads: seq<Payload>,
      outside: Outside)
    ensures var p := PayloadsHandled(Progress(NewStream(request), cache, [], None), payloads, outside);
            Yielded(p, request) && (p.error.None? ==> Kept(p, request, "") && Shaped(p.events, false, p.s.completed))
  {
    hide PayloadHandled, Yielded, Kept, Shaped;
    if payloads == [] {
      StartKept(request, cache);
    } else {
      var p := PayloadsHandled(Progress(NewStream(request), cache, [], None), payloads[..|payloads| - 1], outside);
      PayloadsKeep(request, cache, payloads[..|payloads| - 1], outside);
      if p.error.None? {
        PayloadKeeps(p, payloads[|payloads| - 1], outside, request);
      } else {
        PayloadErrorStays(p, payloads[|payloads| - 1], outside);
      }
    }
  }

  lemma StartKept(request: seq<ChatMessage>, cache: Cache)
    ensures var p := Progress(NewStream(request), cache, [], None);
            Yielded(p, request) && Kept(p, request, "") && Shaped(p.events, false, p.s.completed)
  {
    NothingKept(Progress(NewStream(request), cache, [], None), request);
  }

  lemma PayloadErrorStays(p: Progress, payload: Payload, outside: Outside)
    requires p.error.Some?
    ensures PayloadHandled(p, payload, outside) == p
  {
  }

  /** The body of a turn completed this response: it saw a completion before any error. */
  predicate Completes(events: seq<ProviderEvent>) {
    FirstCompletion(events) < |events|
  }

  /**
   When the turn body sees a response complete, it has all of its calls, they carry one response id,
   and under that id the cache holds the request's list and the assistant message with the text said
   and these calls.
   */
  lemma ResponseIsReplayable(request: seq<ChatMessage>, cache: Cache, script: Script, outside: Outside)
    requires Completes(Streamed(request, cache, script, outside).events)
    ensures var p := Streamed(request, cache, script, outside);
            CallsTaken(p.events) == CallsOfEvents(p.events) && Replayable(p.cache, request, CallsTaken(p.events), Said(p.events))
  {
    hide PayloadsHandled, Replayable, CallsOfEvents, Said;
    PayloadsKeep(request, cache, script.payloads, outside);
    var p := PayloadsHandled(Progress(NewStream(request), cache, [], None), script.payloads, outside);
    var q := Streamed(request, cache, script, outside);
    if q.events != p.events {
      LastCompletes(p.events, p.s.responseId);
      TextHasNoCalls(p.events);
      CallsOfAppend(p.events, [Completed(p.s.responseId)]);
      CompletionAlone(p.s.responseId);
    }
    StoppingLosesNoCall(q.events);
    assert "" + Said(q.events) == Said(q.events);
    if CallsOfEvents(q.events) == [] { NoCalls(q.cache, request, Said(q.events)); }
  }

  lemma NoCalls(cache: Cache, request: seq<ChatMessage>, text: string)
    ensures Replayable(cache, request, [], text)
  {
  }

  lemma CompletionAlone(id: Option<string>)
    ensures CallsOfEvents([Completed(id)]) == []
  {
    assert [Completed(id)][..0] == [];
  }

  // ---------------------------------------------------------------------------------------
  // The rounds of one turn

  /**
   One round: what it was given, the responses that other turns stored just before it, the cache as
   it then was, the request and its response, and the outputs of the tools.
   */
  datatype Round = Round(
    previous: Option<string>, given: Option<seq<FunctionCallOutput>>, others: Cache, cache: Cache,
    request: seq<ChatMessage>, script: Script, outside: Outside, outputs: seq<FunctionCallOutput>)

  ghost function Response(r: Round): Progress {
    Streamed(r.request, r.cache, r.script, r.outside)
  }

  ghost function Calls(r: Round): seq<Call> {
    CallsTaken(Response(r).events)
  }

  /** One output for each call, with its id, in order. */
  ghost predicate Answers(outputs: seq<FunctionCallOutput>, calls: seq<Call>) {
    |outputs| == |calls| && forall i :: 0 <= i < |calls| ==> outputs[i].callId == calls[i].callId
  }

  /** A round that called tools, all of which answered. */
  ghost predicate Called(r: Round) {
    Completes(Response(r).events) && Calls(r) != [] && Answers(r.outputs, Calls(r))
  }

  /** The response id that a round hands to the next one: that of the last call. */
  ghost function HandedOn(r: Round): string
    requires Calls(r) != []
  {
    Calls(r)[|Calls(r)| - 1].responseId
  }

  /** The text that the turn body took from a response. */
  ghost function SaidIn(r: Round): string {
    Said(Response(r).events)
  }

  /** The next round follows up on this one. Other turns may have put their responses into the cache. */
  ghost predicate Follows(a: Round, b: Round) {
    && Called(a) && b.previous == Some(HandedOn(a)) && b.given == Some(a.outputs)
    && b.cache == Response(a).cache + b.others
    && Mapped(b.cache, None, [], b.previous, b.given) == Ok(b.request)
  }

  ghost predicate FirstRound(r: Round, instructions: Option<string>, input: seq<InputMessage>) {
    r.previous == None && r.given == None && Mapped(r.cache, instructions, input, None, None) == Ok(r.request)
  }

  ghost predicate IsTrace(rounds: seq<Round>, instructions: Option<string>, input: seq<InputMessage>) {
    && (rounds != [] ==> FirstRound(rounds[0], instructions, input))
    && forall i :: 0 < i < |rounds| ==> Follows(rounds[i - 1], rounds[i])
  }

  /** No other turn stored a response under the id that a round of this turn hands on. */
  ghost predicate DistinctIds(rounds: seq<Round>) {
    forall i :: 0 < i < |rounds| && Calls(rounds[i - 1]) != [] ==> HandedOn(rounds[i - 1]) !in rounds[i].others
  }

  lemma HandedOnIsCached(a: Round)
    requires Called(a)
    ensures HandedOn(a) in Response(a).cache
    ensures Response(a).cache[HandedOn(a)] == a.request + [AssistantMessage(SaidIn(a), Calls(a))]
  {
    ResponseIsReplayable(a.request, a.cache, a.script, a.outside);
    hide Streamed, CallsTaken, Said;
  }

  /** A follow-up request never misses the cache, whatever other turns do: entries are only added. */
  lemma FollowUpNeverMisses(a: Round, others: Cache)
    requires Called(a)
    ensures Mapped(Response(a).cache + others, None, [], Some(HandedOn(a)), Some(a.outputs)).Ok?
  {
    HandedOnIsCached(a);
  }

  /** What one round adds to the list: the assistant's message with its calls, and one message for each output. */
  ghost function Exchange(r: Round): seq<ChatMessage> {
    [AssistantMessage(SaidIn(r), Calls(r))] + ToolMessages(r.outputs)
  }

  ghost function Exchanges(rounds: seq<Round>): seq<ChatMessage> {
    if rounds == [] then [] else Exchanges(rounds[..|rounds| - 1]) + Exchange(rounds[|rounds| - 1])
  }

  lemma RequestGrows(a: Round, b: Round)
    requires Follows(a, b) && HandedOn(a) !in b.others
    ensures b.request == a.request + Exchange(a) && Answers(a.outputs, Calls(a))
  {
    HandedOnIsCached(a);
    hide Streamed, CallsTaken, Said, AssistantMessage;
    Assoc(a.request, [AssistantMessage(SaidIn(a), Calls(a))], ToolMessages(a.outputs));
  }

  /**
   For every script of the provider: while response ids are distinct, each request is the first one
   and then, for every round before it, one assistant message with the text said and the calls made,
   and one tool message for each call, with its id, in order.
   */
  lemma {:induction false} RequestsGrowByTheirAnswers(rounds: seq<Round>, instructions: Option<string>,
      input: seq<InputMessage>, i: nat)
    requires IsTrace(rounds, instructions, input) && DistinctIds(rounds) && i < |rounds|
    ensures rounds[i].request == rounds[0].request + Exchanges(rounds[..i])
    ensures forall j :: 0 <= j < i ==> Calls(rounds[j]) != [] && Answers(rounds[j].outputs, Calls(rounds[j]))
  {
    hide Streamed, CallsTaken, Said, Exchange;
    if i == 0 {
      assert rounds[0].request + [] == rounds[0].request;
    } else {
      RequestsGrowByTheirAnswers(rounds, instructions, input, i - 1);
      assert Follows(rounds[i - 1], rounds[i]);
      RequestGrows(rounds[i - 1], rounds[i]);
      assert rounds[..i][..i - 1] == rounds[..i - 1];
      Assoc(rounds[0].request, Exchanges(rounds[..i - 1]), Exchange(rounds[i - 1]));
    }
  }

  // ---------------------------------------------------------------------------------------
  // For the loop that makes the requests

  /** The text of all responses of a turn. */
  ghost function SpokenText(rounds: seq<Round>): string {
    if rounds == [] then "" else
      SpokenText(rounds[..|rounds| - 1]) + SaidIn(rounds[|rounds| - 1])
  }

  /** The calls of all responses of a turn. */
  ghost function AllCalls(rounds: seq<Round>): seq<Call> {
    if rounds == [] then [] else AllCalls(rounds[..|rounds| - 1]) + Calls(rounds[|rounds| - 1])
  }

  /** The response id that a turn stores: that of the last call, or of the completion if no call was made. */
  ghost function StoredResponseId(rounds: seq<Round>): Option<string>
    requires rounds != []
  {
    var last := rounds[|rounds| - 1];
    var events := Response(last).events;
    if last.previous.Some? then last.previous
    else if Completes(events) then events[FirstCompletion(events)].responseId
    else None
  }

  /** What the loop carries from the finished rounds into the next one. */
  ghost predicate Expects(done: seq<Round>, previous: Option<string>, given: Option<seq<FunctionCallOutput>>,
      cache: Cache) {
    if done == [] then previous == None && given == None
    else
      var last := done[|done| - 1];
      && Called(last) && previous == Some(HandedOn(last)) && given == Some(last.outputs)
      && cache == Response(last).cache
  }

  /** The next request can be made, and continues the trace. */
  lemma NextRequest(done: seq<Round>, previous: Option<string>, given: Option<seq<FunctionCallOutput>>, cache: Cache,
      others: Cache, instructions: Option<string>, input: seq<InputMessage>, script: Script, outside: Outside)
    requires IsTrace(done, instructions, input) && Expects(done, previous, given, cache)
    ensures var request := Mapped(cache + others, instructions, if previous.Some? then [] else input, previous, given);
            request.Ok? &&
            IsTrace(done + [Round(previous, given, others, cache + others, request.value, script, outside, [])], instructions, input)
  {
    hide Called, Calls, Response;
    if done != [] {
      FollowUpNeverMisses(done[|done| - 1], others);
      hide HandedOn;
    }
  }

  /** When the calls of the last round have been answered, it is done. */
  lemma RoundDone(done: seq<Round>, r: Round, outputs: seq<FunctionCallOutput>, instructions: Option<string>,
      input: seq<InputMessage>)
    requires IsTrace(done + [r], instructions, input) && Called(r.(outputs := outputs))
    ensures IsTrace(done + [r.(outputs := outputs)], instructions, input)
    ensures Expects(done + [r.(outputs := outputs)], Some(HandedOn(r)), Some(outputs), Response(r).cache)
    ensures SpokenText(done + [r.(outputs := outputs)]) == SpokenText(done + [r])
    ensures AllCalls(done + [r.(outputs := outputs)]) == AllCalls(done + [r])
  {
    hide Streamed, CallsTaken, Mapped;
    var next := r.(outputs := outputs);
    assert (done + [r])[..|done|] == done && (done + [next])[..|done|] == done;
    assert Response(next) == Response(r);
    if done != [] {
      assert Follows((done + [r])[|done| - 1], (done + [r])[|done|]);
      forall i | 0 < i < |done| ensures Follows(done[i - 1], done[i]) {
        assert Follows((done + [r])[i - 1], (done + [r])[i]);
      }
    }
  }

  lemma SpokenOneMore(done: seq<Round>, r: Round)
    ensures SpokenText(done + [r]) ==
            SpokenText(done) + SaidIn(r)
    ensures AllCalls(done + [r]) == AllCalls(done) + Calls(r)
  {
    assert (done + [r])[..|done|] == done;
  }
}
