/**
 Protocol replies: an append-only log of events per reply with a snapshot beside it, and
 subscribers that replay the log and then follow a broadcast channel of 64 values.
 */
module ReplyStore {
  import opened Common
  import opened Text

  datatype EventKind = TextDelta(delta: string) | Completed | Failed(code: string, message: string)

  datatype Event = Event(sequence: int, kind: EventKind)

  datatype Status = Pending | Streaming | CompletedStatus | FailedStatus

  datatype Snapshot = Snapshot(status: Status, outputText: string, error: Option<(string, string)>)

  /** The broadcast channel carries the same events as the log, so it needs no field of its own. */
  datatype Record = Record(snapshot: Snapshot, events: seq<Event>, nextSequence: int, terminal: bool)

  const EMPTY := Record(Snapshot(Pending, "", None), [], 1, false)

  predicate IsTerminal(kind: EventKind) {
    !kind.TextDelta?
  }

  function Noted(s: Snapshot, kind: EventKind): Snapshot {
    match kind
    case TextDelta(delta) => s.(status := Streaming, outputText := s.outputText + delta)
    case Completed => s.(status := CompletedStatus)
    case Failed(code, message) => s.(status := FailedStatus, error := Some((code, message)))
  }

  /** One update of a record; a terminal record takes no more. */
  function Updated(r: Record, kind: EventKind): Record {
    if r.terminal then r
    else Record(Noted(r.snapshot, kind), r.events + [Event(r.nextSequence, kind)], r.nextSequence + 1, IsTerminal(kind))
  }

  function ReplyId(n: int): string {
    "reply-" + Decimal(n)
  }

  lemma ReplyIdInjective(a: int, b: int)
    requires ReplyId(a) == ReplyId(b)
    ensures a == b
  {
    assert ReplyId(a)[6..] == Decimal(a) && ReplyId(b)[6..] == Decimal(b);
    DecimalInjective(a, b);
  }

  /** The deltas of all text events, one after the other. */
  function TextOf(events: seq<Event>): string {
    if events == [] then ""
    else if events[0].kind.TextDelta? then events[0].kind.delta + TextOf(events[1..])
    else TextOf(events[1..])
  }

  /** Nothing yet, more to come, or how it ended. */
  function StatusOf(events: seq<Event>): Status {
    if events == [] then Pending else
      match events[|events| - 1].kind
      case TextDelta(_) => Streaming
      case Completed => CompletedStatus
      case Failed(_, _) => FailedStatus
  }

  function ErrorOf(events: seq<Event>): Option<(string, string)> {
    if events != [] && events[|events| - 1].kind.Failed?
    then Some((events[|events| - 1].kind.code, events[|events| - 1].kind.message)) else None
  }

  /** The snapshot that a log of events amounts to. */
  function SnapshotOf(events: seq<Event>): Snapshot {
    Snapshot(StatusOf(events), TextOf(events), ErrorOf(events))
  }

  lemma {:induction false} TextOneMore(events: seq<Event>, e: Event)
    ensures TextOf(events + [e]) == TextOf(events) + if e.kind.TextDelta? then e.kind.delta else ""
  {
    if events == [] {
      assert (events + [e])[1..] == [];
    } else {
      assert (events + [e])[1..] == events[1..] + [e];
      TextOneMore(events[1..], e);
    }
  }

  /** What every record keeps: numbering from 1, one terminal event at most and last, and a true snapshot. */
  ghost predicate Sound(r: Record) {
    && r.nextSequence == |r.events| + 1
    && (forall i :: 0 <= i < |r.events| ==> r.events[i].sequence == i + 1)
    && (forall i :: 0 <= i < |r.events| - 1 ==> !IsTerminal(r.events[i].kind))
    && (r.terminal <==> r.events != [] && IsTerminal(r.events[|r.events| - 1].kind))
    && r.snapshot == SnapshotOf(r.events)
  }

  lemma UpdatedSound(r: Record, kind: EventKind)
    requires Sound(r)
    ensures Sound(Updated(r, kind)) && r.events <= Updated(r, kind).events
  {
    if !r.terminal {
      TextOneMore(r.events, Event(r.nextSequence, kind));
    }
  }

  class ProtocolReplyStore {
    var nextReply: int
    var replies: map<string, Record>

    ghost predicate Valid()
      reads this
    {
      && nextReply >= 1
      && (forall id :: id in replies ==> exists n :: 1 <= n < nextReply && id == ReplyId(n))
      && (forall id :: id in replies ==> Sound(replies[id]))
    }

    constructor ()
      ensures Valid() && replies == map[]
    {
      nextReply, replies := 1, map[];
    }

    method CreateReply() returns (replyId: string)
      requires Valid()
      modifies this
      ensures Valid()
      ensures replyId !in old(replies) && replies == old(replies)[replyId := EMPTY]
    {
      replyId := ReplyId(nextReply);
      forall n | 1 <= n < nextReply ensures ReplyId(n) != replyId {
        if ReplyId(n) == replyId { ReplyIdInjective(n, nextReply); }
      }
      nextReply := nextReply + 1;
      replies := replies[replyId := EMPTY];
      assert replyId == ReplyId(nextReply - 1);
    }

    method GetSnapshot(replyId: string) returns (s: Option<Snapshot>)
      requires Valid()
      ensures s.Some? <==> replyId in replies
      ensures s.Some? ==>
                s.value.outputText == TextOf(replies[replyId].events) && s.value.status == StatusOf(replies[replyId].events)
      ensures s.Some? ==>
                s.value.error == ErrorOf(replies[replyId].events)
    {
      s := if replyId in replies then Some(replies[replyId].snapshot) else None;
    }

    method EmitTextDelta(replyId: string, delta: string)
      requires Valid()
      modifies this
      ensures Valid()
      ensures replies == if replyId in old(replies) then old(replies)[replyId := Updated(old(replies)[replyId], TextDelta(delta))] else old(replies)
    {
      Update(replyId, TextDelta(delta));
    }

    method Complete(replyId: string)
      requires Valid()
      modifies this
      ensures Valid()
      ensures replies == if replyId in old(replies) then old(replies)[replyId := Updated(old(replies)[replyId], Completed)] else old(replies)
    {
      Update(replyId, Completed);
    }

    method Fail(replyId: string, code: string, message: string)
      requires Valid()
      modifies this
      ensures Valid()
      ensures replies == if replyId in old(replies) then old(replies)[replyId := Updated(old(replies)[replyId], Failed(code, message))] else old(replies)
    {
      Update(replyId, Failed(code, message));
    }

    method Update(replyId: string, kind: EventKind)
      requires Valid()
      modifies this`replies
      ensures Valid()
      ensures replies == if replyId in old(replies) then old(replies)[replyId := Updated(old(replies)[replyId], kind)] else old(replies)
    {
      if replyId !in replies {
        return;
      }
      var record := replies[replyId];
      UpdatedSound(record, kind);
      if record.terminal {
        assert replies == replies[replyId := record];
        return;
      }
      var event := Event(record.nextSequence, kind);
      record := record.(snapshot := Noted(record.snapshot, kind),
                        terminal := IsTerminal(kind),
                        nextSequence := record.nextSequence + 1,
                        events := record.events + [event]);
      replies := replies[replyId := record];
    }

    method Subscribe(replyId: string) returns (s: Option<Subscriber>)
      requires Valid()
      ensures s == if replyId in replies then Some(Subscribed(replies[replyId])) else None
    {
      if replyId !in replies {
        return None;
      }
      var record := replies[replyId];
      return Some(Subscriber(record.events, record.terminal, |record.events|, [], false));
    }
  }

  // ---------------------------------------------------------------------------------------
  // Subscribers

  const CAPACITY: nat := 64

  /**
   A stream of one subscriber: the history and terminal flag taken at subscription, the position
   of its receiver, what it has yielded, and whether it has ended. Every value sent after a
   subscription is stored in the channel, so positions of the receiver are positions in the log.
   */
  datatype Subscriber = Subscriber(history: seq<Event>, terminal: bool, position: nat, yielded: seq<Event>, ended: bool)

  function Subscribed(r: Record): Subscriber {
    Subscriber(r.events, r.terminal, |r.events|, [], false)
  }

  /** The oldest value that the channel still holds. */
  function Oldest(log: seq<Event>): nat {
    if |log| > CAPACITY then |log| - CAPACITY else 0
  }

  /** `recv`: the next value, a jump to the oldest retained value, or nothing yet. */
  datatype Received = Value(event: Event) | Lagged | Waiting

  function Recv(position: nat, log: seq<Event>): Received
  {
    if position < Oldest(log) then Lagged
    else if position < |log| then Value(log[position])
    else Waiting
  }

  /** One resumption of the stream: it replays history, ends, or takes one step of the receive loop. */
  function Stepped(s: Subscriber, log: seq<Event>): Subscriber
  {
    if s.ended then s
    else if |s.yielded| < |s.history| then s.(yielded := s.yielded + [s.history[|s.yielded|]])
    else if s.terminal then s.(ended := true)
    else
      match Recv(s.position, log)
      case Value(e) => s.(position := s.position + 1, yielded := s.yielded + [e], ended := IsTerminal(e.kind))
      case Lagged => s.(position := Oldest(log))
      case Waiting => s
  }

  datatype Action = Emit(kind: EventKind) | Resume

  /** One reply and one subscriber; `maxLag` is the most the receiver was ever behind when it resumed. */
  datatype System = System(record: Record, sub: Subscriber, maxLag: int)

  function Lag(s: System): int {
    |s.record.events| - s.sub.position
  }

  function Acted(s: System, a: Action): System
  {
    match a
    case Emit(kind) => s.(record := Updated(s.record, kind))
    case Resume => s.(sub := Stepped(s.sub, s.record.events), maxLag := if Lag(s) > s.maxLag then Lag(s) else s.maxLag)
  }

  /** A run: updates before the subscription, then any interleaving of updates and resumptions. */
  ghost function Start(before: seq<EventKind>): Record {
    if before == [] then EMPTY else Updated(Start(before[..|before| - 1]), before[|before| - 1])
  }

  lemma {:induction false} StartSound(before: seq<EventKind>)
    ensures Sound(Start(before))
  {
    if before != [] {
      StartSound(before[..|before| - 1]);
      UpdatedSound(Start(before[..|before| - 1]), before[|before| - 1]);
    }
  }

  ghost function Run(before: seq<EventKind>, actions: seq<Action>): System {
    if actions == [] then System(Start(before), Subscribed(Start(before)), 0)
    else Acted(Run(before, actions[..|actions| - 1]), actions[|actions| - 1])
  }

  ghost predicate InLog(e: Event, log: seq<Event>) {
    1 <= e.sequence <= |log| && log[e.sequence - 1] == e
  }

  ghost predicate Ascending(events: seq<Event>) {
    forall i, j :: 0 <= i < j < |events| ==> events[i].sequence < events[j].sequence
  }

  /** The history comes first and in full; a subscription to a finished reply has it all. */
  ghost predicate Replays(sub: Subscriber, log: seq<Event>) {
    var h := |sub.history|;
    && sub.history <= log
    && (sub.terminal <==> h > 0 && IsTerminal(sub.history[h - 1].kind))
    && (sub.terminal ==> sub.history == log && |sub.yielded| <= h)
    && h <= sub.position <= |log|
    && (|sub.yielded| < h ==> sub.position == h && !sub.ended && sub.yielded <= sub.history)
    && (|sub.yielded| >= h ==> sub.history <= sub.yielded)
  }

  /** Increasing sequence numbers, none past the receiver's position. */
  ghost predicate Ordered(yielded: seq<Event>, log: seq<Event>, position: int) {
    && Ascending(yielded)
    && (forall i :: 0 <= i < |yielded| ==> InLog(yielded[i], log) && yielded[i].sequence <= position)
  }

  /** The stream ends with the terminal event, and a live receiver never moves past it. */
  ghost predicate Ends(sub: Subscriber, r: Record) {
    && (sub.ended ==> r.terminal && r.events != [] && sub.yielded != []
                      && sub.yielded[|sub.yielded| - 1] == r.events[|r.events| - 1])
    && (!sub.ended && !sub.terminal && sub.position == |r.events| ==> !r.terminal)
  }

  ghost predicate Inv(s: System) {
    && Sound(s.record)
    && Replays(s.sub, s.record.events)
    && Ordered(s.sub.yielded, s.record.events, s.sub.position)
    && Ends(s.sub, s.record)
    && (s.maxLag <= CAPACITY && |s.sub.yielded| >= |s.sub.history| ==> |s.sub.yielded| == s.sub.position)
  }

  lemma StartInv(r: Record)
    requires Sound(r)
    ensures Inv(System(r, Subscribed(r), 0))
  {
  }

  lemma {:induction false} EmitKeeps(s: System, kind: EventKind)
    requires Inv(s)
    ensures Inv(Acted(s, Emit(kind)))
  {
    UpdatedSound(s.record, kind);
    var log, log' := s.record.events, Updated(s.record, kind).events;
    assert forall i :: 0 <= i < |log| ==> log'[i] == log[i];
    forall e: Event | InLog(e, log) ensures InLog(e, log') {}
  }

  /** Yielding the log's event at `at` keeps the order when nothing past `at` was yielded before. */
  lemma YieldKeepsOrder(yielded: seq<Event>, log: seq<Event>, at: int, position: int)
    requires Ordered(yielded, log, at) && 0 <= at < |log| && at + 1 <= position
    requires log[at].sequence == at + 1
    ensures Ordered(yielded + [log[at]], log, position)
  {
  }

  lemma ReplayKeeps(s: System)
    requires Inv(s) && !s.sub.ended && |s.sub.yielded| < |s.sub.history|
    ensures Inv(Acted(s, Resume))
  {
    var log, sub := s.record.events, s.sub;
    var n := |sub.yielded|;
    assert sub.history[n] == log[n];
    forall i | 0 <= i < n ensures sub.yielded[i].sequence <= n {
      assert sub.yielded[i] == sub.history[i] == log[i];
    }
    YieldKeepsOrder(sub.yielded, log, n, sub.position);
    var yielded := sub.yielded + [sub.history[n]];
    assert yielded <= sub.history;
    assert n + 1 == |sub.history| ==> yielded == sub.history;
  }

  /** What the receive loop needs of the invariant without opening it. */
  lemma Bounds(s: System)
    requires Inv(s)
    ensures Sound(s.record) && |s.sub.history| <= s.sub.position <= |s.record.events|
    ensures s.sub.history <= s.record.events
    ensures |s.sub.yielded| >= |s.sub.history| ==> s.sub.history <= s.sub.yielded
    ensures Ascending(s.sub.yielded)
    ensures forall i :: 0 <= i < |s.sub.yielded| ==> InLog(s.sub.yielded[i], s.record.events)
    ensures !s.sub.ended && !s.sub.terminal && s.sub.position == |s.record.events| ==> !s.record.terminal
  {
  }

  /** The branch of the receive loop that yields a value. */
  ghost predicate Reads(s: System) {
    && Inv(s) && !s.sub.ended && |s.sub.yielded| >= |s.sub.history| && !s.sub.terminal
    && Oldest(s.record.events) <= s.sub.position < |s.record.events|
  }

  lemma ValueReplays(s: System)
    requires Reads(s)
    ensures Replays(Acted(s, Resume).sub, s.record.events)
  {
    hide Ordered, Ends, Sound;
  }

  lemma ValueEnds(s: System)
    requires Reads(s)
    ensures Ends(Acted(s, Resume).sub, s.record)
  {
    hide Ordered, Replays, SnapshotOf;
  }

  lemma {:induction false} ValueKeeps(s: System)
    requires Reads(s)
    ensures Inv(Acted(s, Resume))
  {
    ValueReplays(s);
    ValueEnds(s);
    assert s.record.events[s.sub.position].sequence == s.sub.position + 1;
    YieldKeepsOrder(s.sub.yielded, s.record.events, s.sub.position, s.sub.position + 1);
    hide Ordered, Replays, Sound, Ends;
  }

  lemma LaggedKeeps(s: System)
    requires Inv(s) && !s.sub.ended && |s.sub.yielded| >= |s.sub.history| && !s.sub.terminal
    requires s.sub.position < Oldest(s.record.events)
    ensures Inv(Acted(s, Resume))
  {
    hide SnapshotOf;
    assert Lag(s) > CAPACITY;
  }

  lemma DoneKeeps(s: System)
    requires Inv(s) && !s.sub.ended && |s.sub.yielded| >= |s.sub.history|
    requires s.sub.terminal
    ensures Inv(Acted(s, Resume))
  {
    hide SnapshotOf, Ordered;
    assert s.sub.yielded == s.record.events;
  }

  lemma {:induction false} ReceiveKeeps(s: System)
    requires Inv(s) && !s.sub.ended && |s.sub.yielded| >= |s.sub.history|
    ensures Inv(Acted(s, Resume))
  {
    Bounds(s);
    hide Sound, Replays, Ordered, Ends;
    if s.sub.terminal {
      DoneKeeps(s);
    } else if s.sub.position < Oldest(s.record.events) {
      LaggedKeeps(s);
    } else if s.sub.position < |s.record.events| {
      ValueKeeps(s);
    }
  }

  lemma {:induction false} RunKeepsInv(before: seq<EventKind>, actions: seq<Action>)
    ensures Inv(Run(before, actions))
  {
    StartSound(before);
    if actions != [] {
      var s := Run(before, actions[..|actions| - 1]);
      RunKeepsInv(before, actions[..|actions| - 1]);
      match actions[|actions| - 1] {
        case Emit(kind) => EmitKeeps(s, kind);
        case Resume => ResumeKeeps(s);
      }
    }
  }

  lemma {:induction false} ResumeKeeps(s: System)
    requires Inv(s)
    ensures Inv(Acted(s, Resume))
  {
    hide Sound, Replays, Ordered, Ends;
    if s.sub.ended {
    } else if |s.sub.yielded| < |s.sub.history| {
      ReplayKeeps(s);
    } else {
      ReceiveKeeps(s);
    }
  }

  /**
   For every interleaving: a subscriber yields the history and then log events with strictly
   increasing sequence numbers; if it was never more than 64 behind, what it has yielded is a
   prefix of the log.
   */
  lemma SubscriberYieldsTheLog(before: seq<EventKind>, actions: seq<Action>)
    ensures var s := Run(before, actions);
            && Ascending(s.sub.yielded)
            && (forall i :: 0 <= i < |s.sub.yielded| ==> InLog(s.sub.yielded[i], s.record.events))
            && (s.sub.yielded <= s.sub.history || s.sub.history <= s.sub.yielded)
            && (s.maxLag <= CAPACITY ==> s.sub.yielded <= s.record.events)
  {
    RunKeepsInv(before, actions);
    var s := Run(before, actions);
    if s.maxLag <= CAPACITY && |s.sub.yielded| >= |s.sub.history| {
      DenseAscending(s.sub.yielded, s.record.events);
    }
  }

  /** Increasing positive sequence numbers that do not exceed their count are 1, 2, 3, ... */
  lemma {:induction false} DenseAscending(yielded: seq<Event>, log: seq<Event>)
    requires Ascending(yielded)
    requires forall i :: 0 <= i < |yielded| ==> InLog(yielded[i], log) && yielded[i].sequence <= |yielded|
    ensures yielded <= log
  {
    forall i | 0 <= i < |yielded| ensures yielded[i].sequence == i + 1 {
      AtLeast(yielded, i);
      AtMost(yielded, i, |yielded|);
    }
    if |yielded| > 0 { assert InLog(yielded[|yielded| - 1], log); }
    forall i | 0 <= i < |yielded| ensures yielded[i] == log[i] {
      assert InLog(yielded[i], log);
    }
  }

  lemma {:induction false} AtLeast(yielded: seq<Event>, i: int)
    requires 0 <= i < |yielded| && Ascending(yielded) && yielded[0].sequence >= 1
    ensures yielded[i].sequence >= i + 1
  {
    if i > 0 { AtLeast(yielded, i - 1); }
  }

  lemma {:induction false} AtMost(yielded: seq<Event>, i: int, n: int)
    requires 0 <= i < |yielded| && Ascending(yielded)
    requires forall j :: 0 <= j < |yielded| ==> yielded[j].sequence <= n
    ensures yielded[i].sequence <= n - (|yielded| - 1 - i)
    decreases |yielded| - i
  {
    if i < |yielded| - 1 { AtMost(yielded, i + 1, n); }
  }

  /** How many resumptions a subscriber of a finished reply still needs. */
  function StepsLeft(s: System): int {
    if s.sub.ended then 0
    else
      (if |s.sub.yielded| < |s.sub.history| then |s.sub.history| - |s.sub.yielded| else 0)
      + (if s.sub.terminal then 1 else Lag(s) + if s.sub.position < Oldest(s.record.events) then 1 else 0)
  }

  /** Once the reply is finished, and while events are unread, every resumption brings a subscriber closer to its end. */
  lemma {:induction false} ResumeProgresses(s: System)
    requires Inv(s) && !s.sub.ended
    requires s.record.terminal || (|s.sub.yielded| >= |s.sub.history| && s.sub.position < |s.record.events|)
    ensures Inv(Acted(s, Resume)) && Acted(s, Resume).record == s.record
    ensures 0 <= StepsLeft(Acted(s, Resume)) < StepsLeft(s)
  {
    ResumeKeeps(s);
    StepsShrink(s);
    hide Inv, Stepped, StepsLeft;
  }

  lemma StepsShrink(s: System)
    requires Replays(s.sub, s.record.events) && Ends(s.sub, s.record) && !s.sub.ended
    requires Replays(Acted(s, Resume).sub, s.record.events)
    requires s.record.terminal || (|s.sub.yielded| >= |s.sub.history| && s.sub.position < |s.record.events|)
    ensures 0 <= StepsLeft(Acted(s, Resume)) < StepsLeft(s)
  {
  }

  /** What a stream of a finished reply has yielded once it has ended. */
  ghost predicate EndedWith(yielded: seq<Event>, history: seq<Event>, log: seq<Event>) {
    && history <= yielded && Ascending(yielded)
    && (forall i :: 0 <= i < |yielded| ==> InLog(yielded[i], log))
    && (forall i :: 0 <= i < |yielded| ==> (IsTerminal(yielded[i].kind) <==> i == |yielded| - 1))
    && yielded != [] && log != [] && yielded[|yielded| - 1] == log[|log| - 1]
  }

  /**
   In every run the snapshot says what the log says: the text of all deltas in order; pending before
   the first event, streaming until the terminal one, and then its outcome; an error exactly when that
   was a failure, and that one.
   */
  lemma {:induction false} SnapshotIsTheLog(before: seq<EventKind>, actions: seq<Action>)
    ensures var r := Run(before, actions).record;
            var last := |r.events| - 1;
            && r.snapshot.outputText == TextOf(r.events)
            && (r.snapshot.status.Pending? <==> r.events == [])
            && (r.snapshot.status.Streaming? <==> r.events != [] && !r.terminal)
            && (r.snapshot.status.CompletedStatus? <==> r.events != [] && r.events[last].kind.Completed?)
            && (r.snapshot.status.FailedStatus? <==> r.snapshot.error.Some?)
            && forall code, message ::
                 r.snapshot.error == Some((code, message)) <==> r.events != [] && r.events[last].kind == Failed(code, message)
  {
    RunKeepsInv(before, actions);
    hide Run, TextOf, Replays, Ordered, Ends;
  }

  /** A stream that ended without ever being too far behind yielded the whole log. */
  lemma WholeLog(s: System)
    requires Inv(s) && s.sub.ended && s.maxLag <= CAPACITY
    ensures s.sub.yielded == s.record.events
  {
    hide SnapshotOf;
    var y, log := s.sub.yielded, s.record.events;
    DenseAscending(y, log);
    hide Ordered, Replays;
    assert y[|y| - 1] == log[|y| - 1] && log[|y| - 1].sequence == |y| && log[|log| - 1].sequence == |log|;
  }

  lemma TerminalIsLast(s: System)
    requires Inv(s) && s.sub.ended
    ensures s.record.terminal && EndedWith(s.sub.yielded, s.sub.history, s.record.events)
  {
    var y, log := s.sub.yielded, s.record.events;
    forall i | 0 <= i < |y| - 1 ensures !IsTerminal(y[i].kind) {
      assert InLog(y[i], log) && InLog(y[|y| - 1], log);
    }
  }

  lemma EndedInv(s: System)
    requires Inv(s) && s.sub.ended
    ensures s.record.terminal && EndedWith(s.sub.yielded, s.sub.history, s.record.events)
    ensures s.maxLag <= CAPACITY ==> s.sub.yielded == s.record.events
  {
    hide Inv, EndedWith;
    TerminalIsLast(s);
    if s.maxLag <= CAPACITY { WholeLog(s); }
  }

  /** An ended stream yielded the terminal event once, as its last, also when it had lagged. */
  lemma EndedWithTheTerminalEvent(before: seq<EventKind>, actions: seq<Action>)
    requires Run(before, actions).sub.ended
    ensures var s := Run(before, actions);
            && s.record.terminal && EndedWith(s.sub.yielded, s.sub.history, s.record.events)
            && (s.maxLag <= CAPACITY ==> s.sub.yielded == s.record.events)
  {
    RunKeepsInv(before, actions);
    EndedInv(Run(before, actions));
  }

  ghost function Resumed(s: System, n: nat): System {
    if n == 0 then s else Acted(Resumed(s, n - 1), Resume)
  }

  /** In any run that finished the reply, a subscriber that keeps receiving reaches the end. */
  lemma {:induction false} FinishedStreamsEnd(before: seq<EventKind>, actions: seq<Action>, n: nat)
    requires Run(before, actions).record.terminal
    requires n >= StepsLeft(Run(before, actions))
    ensures var s := Resumed(Run(before, actions), n);
            s.record == Run(before, actions).record && s.sub.ended && EndedWith(s.sub.yielded, s.sub.history, s.record.events)
            && (s.maxLag <= CAPACITY ==> s.sub.yielded == s.record.events)
  {
    RunKeepsInv(before, actions);
    Approaches(Run(before, actions), n);
    EndedInv(Resumed(Run(before, actions), n));
  }

  lemma {:induction false} Approaches(s: System, n: nat)
    requires Inv(s) && s.record.terminal
    ensures Inv(Resumed(s, n)) && Resumed(s, n).record == s.record
    ensures Resumed(s, n).sub.ended || StepsLeft(Resumed(s, n)) <= StepsLeft(s) - n
    ensures StepsLeft(s) == 0 ==> s.sub.ended
  {
    hide Sound, Replays, Ordered, Ends;
    if !s.sub.ended { ResumeProgresses(s); }
    if n > 0 {
      Approaches(s, n - 1);
      var before := Resumed(s, n - 1);
      ResumeKeeps(before);
      if !before.sub.ended { ResumeProgresses(before); }
    }
  }

  /**
   What a live subscriber, history replayed, yields next: the event at its position, or, if more than
   the last 64 events are unread, the oldest of those 64 after one more resumption; it skips no event
   that the channel still holds.
   */
  lemma {:induction false} NextIsTheOldestRetained(sub: Subscriber, log: seq<Event>)
    requires !sub.ended && !sub.terminal && |sub.yielded| >= |sub.history| && sub.position < |log|
    ensures |log| - sub.position <= 64 ==>
              Stepped(sub, log).yielded == sub.yielded + [log[sub.position]] && Stepped(sub, log).position == sub.position + 1
    ensures |log| - sub.position > 64 ==>
              && Stepped(sub, log).yielded == sub.yielded
              && Stepped(Stepped(sub, log), log).yielded == sub.yielded + [log[|log| - 64]]
              && Stepped(Stepped(sub, log), log).position == |log| - 63
  {
  }

  /**
   `stream_reply_events` against a scripted reply: `others[k]` is what the writers did before the
   k-th call of `recv`. The loop is the source's; once the script has run out and the reply is
   finished, the stream ends.
   */
  method StreamReplyEvents(record0: Record, others: seq<seq<EventKind>>)
    returns (yielded: seq<Event>, record: Record, done: bool)
    requires Sound(record0)
    ensures Sound(record) && record0.events <= record.events
    ensures Ascending(yielded) && forall i :: 0 <= i < |yielded| ==> InLog(yielded[i], record.events)
    ensures record0.events <= yielded
    ensures done ==> record.terminal && EndedWith(yielded, record0.events, record.events)
    ensures record.terminal ==> done
  {
    hide Sound, Replays, Ordered, Ends, EndedWith, InLog, Ascending;
    record, yielded, done := record0, [], false;
    var history, terminal := record0.events, record0.terminal;
    ghost var s := System(record0, Subscribed(record0), 0);
    StartInv(record0);
    var k := 0;
    while k < |history|
      invariant 0 <= k <= |history| && yielded == history[..k]
      invariant Inv(s) && s.record == record && s.sub == Subscriber(history, terminal, |history|, yielded, false)
    {
      ResumeKeeps(s);
      s := Acted(s, Resume);
      yielded := yielded + [history[k]];
      k := k + 1;
    }
    if terminal {
      ResumeKeeps(s);
      s := Acted(s, Resume);
      EndedInv(s);
      Bounds(s);
      return yielded, record, true;
    }
    var position: nat := |history|;
    var round := 0;
    while !done && (round < |others| || position < |record.events|)
      invariant 0 <= round <= |others|
      invariant Inv(s) && s.record == record && s.sub == Subscriber(history, false, position, yielded, done)
      invariant |yielded| >= |history| && record0.events <= record.events
      decreases |others| - round, StepsLeft(s)
    {
      if round < |others| {
        record, s := Writers(record, others[round], s);
        round := round + 1;
      }
      ResumeKeeps(s);
      Bounds(s);
      if s.sub.position < |s.record.events| { ResumeProgresses(s); }
      s := Acted(s, Resume);
      match Recv(position, record.events) {
        case Value(event) =>
          yielded, position := yielded + [event], position + 1;
          if IsTerminal(event.kind) {
            done := true;
          }
        case Lagged =>
          position := Oldest(record.events);
        case Waiting =>
      }
    }
    Bounds(s);
    if done { EndedInv(s); }
  }

  /** A burst of updates by the writers of a reply. */
  method Writers(record0: Record, kinds: seq<EventKind>, ghost s: System) returns (record: Record, ghost s': System)
    requires Inv(s) && s.record == record0
    ensures Inv(s') && s' == s.(record := record)
    ensures record0.events <= record.events
  {
    record, s' := record0, s;
    for k := 0 to |kinds|
      invariant Inv(s') && s' == s.(record := record)
      invariant record0.events <= record.events
    {
      EmitKeeps(s', kinds[k]);
      s' := Acted(s', Emit(kinds[k]));
      record := Updated(record, kinds[k]);
    }
  }
}
