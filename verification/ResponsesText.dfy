/**
 The Responses client: gateway events become provider events, and the text of a part is emitted
 once although it arrives as deltas and again in "done" events.
 */
module ResponsesText {
  import opened Common
  import opened Text

  /** A part of the output, by its output index and content index; the gateway may omit either. */
  type PartKey = (Option<nat>, Option<nat>)

  datatype Item = Item(id: Option<string>, type_: Option<string>, callId: Option<string>, name: Option<string>,
      arguments: Option<string>)

  datatype GatewayEvent =
    | ResponseCreated(responseId: string)
    | ResponseInProgress(responseId: string)
    | OutputTextDelta(key: PartKey, delta: string)
    | OutputTextDone(key: PartKey, text: string)
    | OutputItemDone(outputIndex: nat, item: Option<Item>)
    | CompletedEvent(completedId: Option<string>)
    | OtherEvent

  datatype ProviderEvent =
    | TextDelta(text: string)
    | FunctionCall(responseId: string, itemId: Option<string>, callId: string, name: string, arguments: string)
    | Completed(id: Option<string>)

  /** `current_response_id`, `completed_items`, `streamed_text_parts`, and the client's response cache. */
  datatype Stream = Stream(
    responseId: Option<string>, items: map<nat, Item>, streamed: set<PartKey>, cache: map<string, map<nat, Item>>)

  datatype Handled = Handled(state: Stream, events: seq<ProviderEvent>)

  function CallOf(responseId: Option<string>, item: Option<Item>, validJson: string -> bool): Result<ProviderEvent> {
    if responseId.None? then Err(Upstream("missing response_id for function_call event"))
    else if item.None? then Err(Upstream("missing function_call item payload"))
    else if item.value.callId.None? then Err(Upstream("missing function_call call_id"))
    else if item.value.name.None? then Err(Upstream("missing function_call name"))
    else
      var arguments := item.value.arguments.GetOr("{}");
      if !validJson(arguments) then Err(Upstream("invalid function_call arguments"))
      else Ok(FunctionCall(responseId.value, item.value.id, item.value.callId.value, item.value.name.value, arguments))
  }

  /** A finished item is recorded before anything is made of it. */
  function AfterItem(s: Stream, index: nat, item: Option<Item>): Stream {
    if item.Some? then s.(items := s.items[index := item.value]) else s
  }

  function Handle(s: Stream, e: GatewayEvent, validJson: string -> bool): Result<Handled> {
    match e
    case ResponseCreated(id) => Ok(Handled(s.(responseId := Some(id)), []))
    case ResponseInProgress(id) => Ok(Handled(s.(responseId := Some(id)), []))
    case OutputTextDelta(key, delta) => Ok(Handled(s.(streamed := s.streamed + {key}), [TextDelta(delta)]))
    case OutputTextDone(key, text) =>
      if text == "" then Ok(Handled(s, []))
      else if key in s.streamed then Ok(Handled(s, []))
      else Ok(Handled(s.(streamed := s.streamed + {key}), [TextDelta(text)]))
    case OutputItemDone(index, item) =>
      var s' := AfterItem(s, index, item);
      if item.None? || item.value.type_ != Some("function_call") then Ok(Handled(s', []))
      else
        var call :- CallOf(s.responseId, item, validJson);
        Ok(Handled(s', [call]))
    case CompletedEvent(id) =>
      var s' := if id.None? then s
                else s.(responseId := id, cache := if s.items == map[] then s.cache else s.cache[id.value := s.items]);
      Ok(Handled(s', [Completed(id)]))
    case OtherEvent => Ok(Handled(s, []))
  }

  class StreamState {
    var currentResponseId: Option<string>
    var completedItems: map<nat, Item>
    var streamedTextParts: set<PartKey>
    var cache: map<string, map<nat, Item>>

    ghost function State(): Stream
      reads this
    {
      Stream(currentResponseId, completedItems, streamedTextParts, cache)
    }

    constructor (cache: map<string, map<nat, Item>>)
      ensures State() == Stream(None, map[], {}, cache)
    {
      currentResponseId, completedItems, streamedTextParts, this.cache := None, map[], {}, cache;
    }

    method HandleVerboseGatewayEvent(e: GatewayEvent, validJson: string -> bool) returns (r: Result<seq<ProviderEvent>>)
      modifies this
      ensures match Handle(old(State()), e, validJson)
              case Ok(h) => r == Ok(h.events) && State() == h.state
              case Err(error) => r == Err(error) && e.OutputItemDone? && State() == AfterItem(old(State()), e.outputIndex, e.item)
    {
      match e {
        case ResponseCreated(id) =>
          currentResponseId := Some(id);
          return Ok([]);
        case ResponseInProgress(id) =>
          currentResponseId := Some(id);
          return Ok([]);
        case OutputTextDelta(key, delta) =>
          streamedTextParts := streamedTextParts + {key};
          return Ok([TextDelta(delta)]);
        case OutputTextDone(key, text) =>
          r := MaybeEmitTextDone(key, text);
        case OutputItemDone(index, item) =>
          r := HandleOutputItemDone(index, item, validJson);
        case CompletedEvent(id) =>
          if id.Some? {
            if completedItems != map[] {
              cache := cache[id.value := completedItems];
            }
            currentResponseId := id;
          }
          return Ok([Completed(id)]);
        case OtherEvent =>
          return Ok([]);
      }
    }

    method MaybeEmitTextDone(key: PartKey, text: string) returns (r: Result<seq<ProviderEvent>>)
      modifies this`streamedTextParts
      ensures Ok(Handled(State(), if r.Ok? then r.value else [])) == Handle(old(State()), OutputTextDone(key, text), _ => true) && r.Ok?
    {
      if text == "" {
        return Ok([]);
      }
      if key !in streamedTextParts {
        streamedTextParts := streamedTextParts + {key};
        return Ok([TextDelta(text)]);
      }
      return Ok([]);
    }

    method HandleOutputItemDone(index: nat, item: Option<Item>,
        validJson: string -> bool) returns (r: Result<seq<ProviderEvent>>)
      modifies this`completedItems
      ensures match Handle(old(State()), OutputItemDone(index, item), validJson)
              case Ok(h) => r == Ok(h.events) && State() == h.state
              case Err(error) => r == Err(error)
      ensures State() == AfterItem(old(State()), index, item)
    {
      if item.Some? {
        completedItems := completedItems[index := item.value];
      }
      if item.None? || item.value.type_ != Some("function_call") {
        return Ok([]);
      }
      var call := CallOf(currentResponseId, item, validJson);
      if call.Err? {
        return Err(call.error);
      }
      return Ok([call.value]);
    }
  }

  // ---------------------------------------------------------------------------------------
  // The text emitted for a part

  /** A whole stream, up to the first event that fails, with what each event emitted. */
  datatype History = History(state: Stream, emitted: seq<seq<ProviderEvent>>, failed: bool)

  function HandleAll(start: Stream, events: seq<GatewayEvent>, validJson: string -> bool): (h: History)
    ensures |h.emitted| <= |events| && (!h.failed ==> |h.emitted| == |events|)
  {
    if events == [] then History(start, [], false) else
      var h := HandleAll(start, events[..|events| - 1], validJson);
      if h.failed then h else
        match Handle(h.state, events[|events| - 1], validJson)
        case Err(_) => h.(failed := true)
        case Ok(r) => History(r.state, h.emitted + [r.events], false)
  }

  predicate IsFor(e: GatewayEvent, key: PartKey) {
    (e.OutputTextDelta? || e.OutputTextDone?) && e.key == key
  }

  function TextOf(events: seq<ProviderEvent>): string {
    if events == [] then ""
    else (if events[0].TextDelta? then events[0].text else "") + TextOf(events[1..])
  }

  /** All text emitted while events of the part were handled. */
  function EmittedFor(events: seq<GatewayEvent>, emitted: seq<seq<ProviderEvent>>, key: PartKey): string
    requires |emitted| <= |events|
  {
    if emitted == [] then "" else
      var n := |emitted| - 1;
      EmittedFor(events, emitted[..n], key) + if IsFor(events[n], key) then TextOf(emitted[n]) else ""
  }

  function DeltasOf(events: seq<GatewayEvent>, key: PartKey): string {
    if events == [] then "" else
      var e := events[|events| - 1];
      DeltasOf(events[..|events| - 1], key) + if IsFor(e, key) && e.OutputTextDelta? then e.delta else ""
  }

  /** The text of a done event that comes, non-empty, before any other text of its part. */
  function LeadingDone(events: seq<GatewayEvent>, key: PartKey): string {
    if events == [] then ""
    else if IsFor(events[0], key) then
      (match events[0]
       case OutputTextDelta(_, _) => ""
       case OutputTextDone(_, text) => if text == "" then LeadingDone(events[1..], key) else text
       case _ => "")
    else LeadingDone(events[1..], key)
  }

  predicate Touches(e: GatewayEvent, key: PartKey) {
    IsFor(e, key) && (e.OutputTextDone? ==> e.text != "")
  }

  predicate Touched(events: seq<GatewayEvent>, key: PartKey) {
    exists i :: 0 <= i < |events| && Touches(events[i], key)
  }

  lemma {:induction false} LeadingDoneAppend(events: seq<GatewayEvent>, e: GatewayEvent, key: PartKey)
    ensures Touched(events, key) ==> LeadingDone(events + [e], key) == LeadingDone(events, key)
    ensures !Touched(events, key) ==> LeadingDone(events, key) == "" &&
                                      LeadingDone(events + [e], key) == if Touches(e, key) && e.OutputTextDone? then e.text else ""
  {
    if events == [] {
      assert (events + [e])[0] == e && (events + [e])[1..] == [];
    } else {
      var tail := events[1..];
      assert (events + [e])[0] == events[0] && (events + [e])[1..] == tail + [e];
      LeadingDoneAppend(tail, e, key);
      assert Touched(events, key) <==> Touches(events[0], key) || Touched(tail, key) by {
        assert forall i :: 1 <= i < |events| ==> events[i] == tail[i - 1];
        assert forall i :: 0 <= i < |tail| ==> tail[i] == events[i + 1];
      }
    }
  }

  lemma TouchedAppend(events: seq<GatewayEvent>, e: GatewayEvent, key: PartKey)
    ensures Touched(events + [e], key) <==> Touched(events, key) || Touches(e, key)
  {
    assert (events + [e])[|events|] == e;
    assert forall i :: 0 <= i < |events| ==> (events + [e])[i] == events[i];
  }

  /**
   What is emitted for a part, for every stream without error: the leading done text, if there
   is one, and then all deltas. Every other done event of the part is silent.
   */
  lemma {:induction false} EmittedText(cache: map<string, map<nat, Item>>, events: seq<GatewayEvent>, key: PartKey,
      validJson: string -> bool)
    requires !HandleAll(Stream(None, map[], {}, cache), events, validJson).failed
    ensures var h := HandleAll(Stream(None, map[], {}, cache), events, validJson);
            && (key in h.state.streamed <==> Touched(events, key))
            && EmittedFor(events, h.emitted, key) == LeadingDone(events, key) + DeltasOf(events, key)
  {
    var start := Stream(None, map[], {}, cache);
    if events != [] {
      var init, e := events[..|events| - 1], events[|events| - 1];
      assert events == init + [e];
      EmittedText(cache, init, key, validJson);
      var before, h := HandleAll(start, init, validJson), HandleAll(start, events, validJson);
      LeadingDoneAppend(init, e, key);
      TouchedAppend(init, e, key);
      EmittedForPrefix(init, [e], before.emitted, key);
      assert h.emitted[..|h.emitted| - 1] == before.emitted;
      OneEvent(before.state, e, key, validJson);
      if !Touched(init, key) { DeltasBeforeTouch(init, key); }
      assert forall x: string :: x + "" == x && "" + x == x;
      Assoc(LeadingDone(init, key), DeltasOf(init, key), if IsFor(e, key) && e.OutputTextDelta? then e.delta else "");
    }
  }

  lemma {:induction false} EmittedForPrefix(a: seq<GatewayEvent>, b: seq<GatewayEvent>,
      emitted: seq<seq<ProviderEvent>>, key: PartKey)
    requires |emitted| <= |a|
    ensures EmittedFor(a + b, emitted, key) == EmittedFor(a, emitted, key)
  {
    if emitted != [] {
      EmittedForPrefix(a, b, emitted[..|emitted| - 1], key);
    }
  }

  lemma {:induction false} DeltasBeforeTouch(events: seq<GatewayEvent>, key: PartKey)
    requires !Touched(events, key)
    ensures DeltasOf(events, key) == ""
  {
    if events != [] {
      var init := events[..|events| - 1];
      assert forall i :: 0 <= i < |init| ==> init[i] == events[i];
      DeltasBeforeTouch(init, key);
    }
  }

  lemma OneEvent(s: Stream, e: GatewayEvent, key: PartKey, validJson: string -> bool)
    requires Handle(s, e, validJson).Ok?
    ensures var h := Handle(s, e, validJson).value;
            && (key in h.state.streamed <==> key in s.streamed || Touches(e, key))
            && (IsFor(e, key) ==> TextOf(h.events) ==
                                  if e.OutputTextDelta? then e.delta else if key in s.streamed then "" else e.text)
  {
    assert forall t :: TextOf([TextDelta(t)]) == t + TextOf([]);
  }

  // ---------------------------------------------------------------------------------------
  // The text of a part, once

  predicate HasDelta(events: seq<GatewayEvent>, key: PartKey) {
    exists i :: 0 <= i < |events| && IsFor(events[i], key) && events[i].OutputTextDelta?
  }

  predicate IsDone(e: GatewayEvent, key: PartKey) {
    IsFor(e, key) && e.OutputTextDone?
  }

  /** The part's deltas come before its done events, and every done event carries the same text. */
  predicate DoneWith(events: seq<GatewayEvent>, key: PartKey, text: string) {
    && (exists i :: 0 <= i < |events| && IsDone(events[i], key))
    && (forall i :: 0 <= i < |events| && IsDone(events[i], key) ==> events[i].text == text)
    && (forall i, j :: 0 <= i < j < |events| && IsDone(events[i], key) ==> !(IsFor(events[j], key) && events[j].OutputTextDelta?))
  }

  lemma {:induction false} NoDeltaNoText(events: seq<GatewayEvent>, key: PartKey)
    requires !HasDelta(events, key)
    ensures DeltasOf(events, key) == ""
  {
    if events != [] {
      var init := events[..|events| - 1];
      assert forall i :: 0 <= i < |init| ==> init[i] == events[i];
      NoDeltaNoText(init, key);
    }
  }

  lemma {:induction false} LeadingDoneValue(events: seq<GatewayEvent>, key: PartKey, text: string)
    requires DoneWith(events, key, text)
    ensures LeadingDone(events, key) == if HasDelta(events, key) then "" else text
  {
    var head, tail := events[0], events[1..];
    assert forall i :: 0 <= i < |tail| ==> tail[i] == events[i + 1];
    assert forall i :: 1 <= i < |events| ==> events[i] == tail[i - 1];
    if !IsFor(head, key) {
      LeadingDoneValue(tail, key, text);
      assert HasDelta(events, key) <==> HasDelta(tail, key);
    } else if IsDone(head, key) {
      assert !HasDelta(events, key);
      if text == "" { NoDoneText(tail, key); }
    } else {
      assert head.OutputTextDelta? && HasDelta(events, key);
    }
  }

  lemma {:induction false} NoDoneText(events: seq<GatewayEvent>, key: PartKey)
    requires forall i :: 0 <= i < |events| && IsDone(events[i], key) ==> events[i].text == ""
    ensures LeadingDone(events, key) == ""
  {
    if events != [] { NoDoneText(events[1..], key); }
  }

  /**
   However many done events repeat a part's text, the part's emitted text is that text once,
   exactly when no deltas were sent for it or they concatenate to it.
   */
  lemma PartTextOnce(cache: map<string, map<nat, Item>>, events: seq<GatewayEvent>, key: PartKey, text: string,
      validJson: string -> bool)
    requires !HandleAll(Stream(None, map[], {}, cache), events, validJson).failed
    requires DoneWith(events, key, text)
    ensures EmittedFor(events, HandleAll(Stream(None, map[], {}, cache), events, validJson).emitted, key) == text
            <==> !HasDelta(events, key) || DeltasOf(events, key) == text
  {
    EmittedText(cache, events, key, validJson);
    LeadingDoneValue(events, key, text);
    if !HasDelta(events, key) { NoDeltaNoText(events, key); }
  }

  // ---------------------------------------------------------------------------------------
  // The calls, and the items that a completed response leaves in the cache

  /** The response id named last. */
  function LastId(events: seq<GatewayEvent>): Option<string> {
    if events == [] then None else
      var e := events[|events| - 1];
      if e.ResponseCreated? || e.ResponseInProgress? then Some(e.responseId)
      else if e.CompletedEvent? && e.completedId.Some? then e.completedId
      else LastId(events[..|events| - 1])
  }

  /** The item last finished at an output index. */
  function LastItem(events: seq<GatewayEvent>, index: nat): Option<Item> {
    if events == [] then None else
      var e := events[|events| - 1];
      if e.OutputItemDone? && e.outputIndex == index && e.item.Some? then e.item
      else LastItem(events[..|events| - 1], index)
  }

  predicate IsCall(e: GatewayEvent) {
    e.OutputItemDone? && e.item.Some? && e.item.value.type_ == Some("function_call")
  }

  /** The call event of an item: every field from the item's own, "{}" for absent arguments. */
  predicate CallsItem(p: ProviderEvent, id: Option<string>, item: Item) {
    && p.FunctionCall? && Some(p.responseId) == id && p.itemId == item.id
    && Some(p.callId) == item.callId && Some(p.name) == item.name
    && p.arguments == if item.arguments.Some? then item.arguments.value else "{}"
  }

  /** The items of a state are those finished last at each index. */
  ghost predicate HoldsItems(items: map<nat, Item>, events: seq<GatewayEvent>) {
    forall index: nat :: (index in items <==> LastItem(events, index).Some?) && (index in items ==> Some(items[index]) == LastItem(events, index))
  }

  lemma {:induction false} StateOfEvents(cache: map<string, map<nat, Item>>, events: seq<GatewayEvent>,
      validJson: string -> bool)
    requires !HandleAll(Stream(None, map[], {}, cache), events, validJson).failed
    ensures var s := HandleAll(Stream(None, map[], {}, cache), events, validJson).state;
            s.responseId == LastId(events) && HoldsItems(s.items, events)
  {
    hide CallOf;
    if events != [] { StateOfEvents(cache, events[..|events| - 1], validJson); }
  }

  /**
   In every stream without error: an event makes a call exactly if it finishes a function-call item,
   and the call has the response id named last before it and the item's own id, call id, name and
   arguments. No other event makes one.
   */
  lemma {:induction false} CallsAreTheItems(cache: map<string, map<nat, Item>>, events: seq<GatewayEvent>,
      validJson: string -> bool, n: nat)
    requires !HandleAll(Stream(None, map[], {}, cache), events, validJson).failed && n < |events|
    ensures var emitted := HandleAll(Stream(None, map[], {}, cache), events, validJson).emitted;
            && |emitted| == |events|
            && (IsCall(events[n]) ==> |emitted[n]| == 1 && CallsItem(emitted[n][0], LastId(events[..n]), events[n].item.value))
            && (!IsCall(events[n]) ==> forall i :: 0 <= i < |emitted[n]| ==> !emitted[n][i].FunctionCall?)
  {
    var init := events[..|events| - 1];
    if n < |init| {
      CallsAreTheItems(cache, init, validJson, n);
      assert init[..n] == events[..n];
    } else {
      StateOfEvents(cache, init, validJson);
    }
  }

  /**
   When a response completes under an id, its items are cached under that id, the item last finished
   at each index, unless there are none; and a completion without an id caches nothing.
   */
  lemma {:induction false} CompletionCachesTheItems(cache: map<string, map<nat, Item>>, events: seq<GatewayEvent>,
      validJson: string -> bool)
    requires events != [] && events[|events| - 1].CompletedEvent?
    requires !HandleAll(Stream(None, map[], {}, cache), events, validJson).failed
    ensures var before := HandleAll(Stream(None, map[], {}, cache), events[..|events| - 1], validJson).state;
            var after, id := HandleAll(Stream(None, map[], {}, cache), events, validJson).state, events[|events| - 1].completedId;
            && (id.None? || (forall index: nat :: LastItem(events, index).None?) ==> after.cache == before.cache)
            && (id.Some? && (exists index: nat :: LastItem(events, index).Some?) ==>
                  && id.value in after.cache && HoldsItems(after.cache[id.value], events)
                  && after.cache - {id.value} == before.cache - {id.value})
  {
    hide CallOf;
    var init := events[..|events| - 1];
    StateOfEvents(cache, init, validJson);
    var before := HandleAll(Stream(None, map[], {}, cache), init, validJson).state;
    assert forall index: nat :: LastItem(events, index) == LastItem(init, index);
    if before.items == map[] {
      assert forall index: nat :: LastItem(events, index).None?;
    } else {
      var index :| index in before.items;
      assert LastItem(events, index).Some?;
    }
  }
}
