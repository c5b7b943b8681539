/**
 The framing loop that both provider clients run over a streamed response: chunks are appended
 to a buffer, every complete frame (text up to a blank line) is cut off the front and parsed,
 and what remains at the end of the stream is parsed as a last frame.
 */
module SseFraming {
  import opened Common
  import opened Text

  const BLANK_LINE := "\n\n"

  /** Complete frames of a text, and the text after the last blank line. */
  datatype Split = Split(frames: seq<string>, rest: string)

  /** Cutting a whole text at once. */
  function SplitFrames(s: string): Split
    decreases |s|
  {
    match Find(s, BLANK_LINE)
    case None => Split([], s)
    case Some(i) =>
      var tail := SplitFrames(s[i + 2..]);
      Split([s[..i]] + tail.frames, tail.rest)
  }

  /** Cutting a buffer that has just received one more chunk. */
  function Feed(state: Split, chunk: string): Split {
    var cut := SplitFrames(state.rest + chunk);
    Split(state.frames + cut.frames, cut.rest)
  }

  function FeedAll(chunks: seq<string>): Split {
    if chunks == [] then Split([], "")
    else Feed(FeedAll(chunks[..|chunks| - 1]), chunks[|chunks| - 1])
  }

  /** A first match stays the first match when text is appended. */
  lemma FindExtends(a: string, b: string, pat: string)
    requires Find(a, pat).Some?
    ensures Find(a + b, pat) == Find(a, pat)
  {
    FindSpec(a, pat);
    var i := Find(a, pat).value;
    assert (a + b)[i..i + |pat|] == a[i..i + |pat|];
    forall j: nat | j < i ensures !MatchesAt(a + b, pat, j) {
      assert (a + b)[j..j + |pat|] == a[j..j + |pat|];
      assert !MatchesAt(a, pat, j);
    }
    FindUnique(a + b, pat, i);
  }

  lemma {:induction false} SplitConcat(a: string, b: string)
    ensures SplitFrames(a + b) == Feed(SplitFrames(a), b)
    decreases |a|
  {
    hide MatchesAt;
    match Find(a, BLANK_LINE)
    case None =>
      assert [] + SplitFrames(a + b).frames == SplitFrames(a + b).frames;
    case Some(i) =>
      FindExtends(a, b, BLANK_LINE);
      assert (a + b)[..i] == a[..i];
      assert (a + b)[i + 2..] == a[i + 2..] + b;
      SplitConcat(a[i + 2..], b);
      var tail := SplitFrames(a[i + 2..]);
      var cut := SplitFrames(tail.rest + b);
      Assoc([a[..i]], tail.frames, cut.frames);
  }

  /** Incremental framing is batch framing: where the chunks were cut makes no difference. */
  lemma {:induction false} IncrementalIsBatch(chunks: seq<string>)
    ensures FeedAll(chunks) == SplitFrames(Concat(chunks))
  {
    if chunks != [] {
      var before := chunks[..|chunks| - 1];
      IncrementalIsBatch(before);
      SplitConcat(Concat(before), chunks[|chunks| - 1]);
    }
  }

  /** Printing frames, each ended by a blank line. */
  function Print(frames: seq<string>): string {
    if frames == [] then "" else frames[0] + BLANK_LINE + Print(frames[1..])
  }

  /** A frame that a blank line after it ends exactly where it ends. */
  predicate Clean(frame: string) {
    Find(frame, BLANK_LINE).None? && (frame != "" ==> frame[|frame| - 1] != '\n')
  }

  lemma FindAfterFrame(f: string, t: string)
    ensures Clean(f) <==> Find(f + BLANK_LINE + t, BLANK_LINE) == Some(|f|)
  {
    var s := f + BLANK_LINE + t;
    assert s[|f|..|f| + 2] == BLANK_LINE;
    FindSpec(f, BLANK_LINE);
    FindSpec(s, BLANK_LINE);
    if Clean(f) {
      forall j: nat | j < |f| ensures !MatchesAt(s, BLANK_LINE, j) {
        if j + 2 <= |f| {
          assert s[j..j + 2] == f[j..j + 2];
          assert !MatchesAt(f, BLANK_LINE, j);
        } else {
          assert s[j..j + 2][0] == f[|f| - 1];
        }
      }
      FindUnique(s, BLANK_LINE, |f|);
    } else if Find(f, BLANK_LINE).Some? {
      var j := Find(f, BLANK_LINE).value;
      assert s[j..j + 2] == f[j..j + 2];
      assert MatchesAt(s, BLANK_LINE, j);
    } else {
      assert s[|f| - 1..|f| + 1] == BLANK_LINE;
      assert MatchesAt(s, BLANK_LINE, |f| - 1);
    }
  }

  lemma FirstBlankLine(f: string, t: string) returns (i: nat)
    ensures i <= |f| && Find(f + BLANK_LINE + t, BLANK_LINE) == Some(i)
  {
    var s := f + BLANK_LINE + t;
    assert s[|f|..|f| + 2] == BLANK_LINE;
    assert MatchesAt(s, BLANK_LINE, |f|);
    FindSpec(s, BLANK_LINE);
    i := Find(s, BLANK_LINE).value;
  }

  /**
   Printed frames are read back exactly when every one of them is clean, that is, contains no
   blank line and does not end in a newline.
   */
  lemma {:induction false} PrintedFramesReadBack(frames: seq<string>)
    ensures SplitFrames(Print(frames)) == Split(frames, "") <==> forall f :: f in frames ==> Clean(f)
  {
    if frames != [] {
      var f, more := frames[0], frames[1..];
      var s := Print(frames);
      assert frames == [f] + more;
      FindAfterFrame(f, Print(more));
      PrintedFramesReadBack(more);
      var i := FirstBlankLine(f, Print(more));
      var tail := SplitFrames(s[i + 2..]);
      assert SplitFrames(s) == Split([s[..i]] + tail.frames, tail.rest);
      if i == |f| {
        assert s[..i] == f && s[i + 2..] == Print(more);
        assert ([f] + tail.frames == [f] + more) <==> tail.frames == more by {
          assert ([f] + tail.frames)[1..] == tail.frames && ([f] + more)[1..] == more;
        }
      } else {
        assert |SplitFrames(s).frames[0]| == i;
      }
    }
  }

  /** The lines of a frame; a line is trimmed before use, so a carriage return never matters. */
  function Lines(s: string): seq<string>
    decreases |s|
  {
    match Find(s, "\n")
    case None => [s]
    case Some(i) => [s[..i]] + Lines(s[i + 1..])
  }

  /** The payload text of one line: one `data:` prefix is removed (chat client). */
  function ChatDataOf(line: string): Option<string> {
    var l := Trim(line);
    if !("data:" <= l) then None
    else
      var data := Trim(l[5..]);
      if data == "" || data == "[DONE]" then None else Some(data)
  }

  function TrimDataPrefixes(l: string): string
    decreases |l|
  {
    if "data:" <= l then TrimDataPrefixes(l[5..]) else l
  }

  /** The payload text of one line: repeated `data:` prefixes are removed (responses client). */
  function ResponsesDataOf(line: string): Option<string> {
    var l := Trim(line);
    if !("data:" <= l) then None
    else
      var data := Trim(TrimDataPrefixes(l));
      if data == "" || data == "[DONE]" then None else Some(data)
  }

  lemma {:induction false} TrimDataPrefixesShortens(l: string)
    ensures |TrimDataPrefixes(l)| <= |l|
  {
    if "data:" <= l { TrimDataPrefixesShortens(l[5..]); }
  }

  /** The two copies of the line parser agree on a line exactly when its prefix is not doubled. */
  lemma DataParsersAgree(line: string)
    ensures ChatDataOf(line) == ResponsesDataOf(line) <==> !("data:data:" <= Trim(line))
  {
    var l := Trim(line);
    if "data:data:" <= l {
      assert l[..10] == "data:data:";
      var d := l[5..];
      assert "data:" <= l by { assert l[..5] == "data:data:"[..5] == "data:"; }
      assert "data:" <= d by { assert d[..5] == l[5..10] == "data:data:"[5..10] == "data:"; }
      assert d[|d| - 1] == l[|l| - 1] && d[0] == 'd';
      assert Trim(d) == d;
      assert d != "[DONE]" by { assert "[DONE]"[0] != 'd'; }
      assert ChatDataOf(line) == Some(d);
      var e := TrimDataPrefixes(l);
      assert e == TrimDataPrefixes(d) == TrimDataPrefixes(d[5..]);
      TrimDataPrefixesShortens(d[5..]);
    } else if "data:" <= l {
      if "data:" <= l[5..] {
        assert false;
      }
      assert TrimDataPrefixes(l) == TrimDataPrefixes(l[5..]) == l[5..];
    }
  }

  /** The payloads of one frame, or None when a data line does not parse. */
  function FramePayloads<J>(lines: seq<string>, dataOf: string -> Option<string>,
      parse: string -> Option<J>): Option<seq<J>> {
    if lines == [] then Some([]) else
      match dataOf(lines[0])
      case None => FramePayloads(lines[1..], dataOf, parse)
      case Some(data) =>
        match parse(data)
        case None => None
        case Some(j) =>
          match FramePayloads(lines[1..], dataOf, parse)
          case None => None
          case Some(js) => Some([j] + js)
  }

  /** What the consumer of a stream sees: payloads in order, and whether a bad frame ended it. */
  datatype Seen<J> = Seen(payloads: seq<J>, failed: bool)

  /** Frames are parsed in order up to the first bad one. */
  function ReadFrames<J>(frames: seq<string>, dataOf: string -> Option<string>, parse: string -> Option<J>): Seen<J> {
    if frames == [] then Seen([], false) else
      var before := ReadFrames(frames[..|frames| - 1], dataOf, parse);
      if before.failed then before else
        match FramePayloads(Lines(frames[|frames| - 1]), dataOf, parse)
        case None => Seen(before.payloads, true)
        case Some(js) => Seen(before.payloads + js, false)
  }

  /** The frames of a finished stream: the complete ones and a non-blank remainder, trimmed. */
  function StreamFrames(text: string): seq<string> {
    var cut := SplitFrames(text);
    cut.frames + if Blank(cut.rest) then [] else [Trim(cut.rest)]
  }

  lemma {:induction false} ReadConcat<J>(a: seq<string>, b: seq<string>, dataOf: string -> Option<string>,
      parse: string -> Option<J>)
    ensures ReadFrames(a + b, dataOf, parse) ==
            if ReadFrames(a, dataOf, parse).failed then ReadFrames(a, dataOf, parse)
            else Seen(ReadFrames(a, dataOf, parse).payloads + ReadFrames(b, dataOf, parse).payloads, ReadFrames(b, dataOf, parse).failed)
  {
    if b == [] {
      assert a + b == a;
    } else {
      ReadConcat(a, b[..|b| - 1], dataOf, parse);
      InitOfConcat(a, b);
      var before := ReadFrames(b[..|b| - 1], dataOf, parse).payloads;
      match FramePayloads(Lines(b[|b| - 1]), dataOf, parse)
      case None =>
      case Some(js) => Assoc(ReadFrames(a, dataOf, parse).payloads, before, js);
    }
  }

  /** Reading `frame` after the frames `before`, with the frames `after` still to come. */
  lemma {:induction false} ReadNext<J>(before: seq<string>, frame: string, after: seq<string>,
      dataOf: string -> Option<string>, parse: string -> Option<J>)
    requires !ReadFrames(before, dataOf, parse).failed
    ensures var parsed := FramePayloads(Lines(frame), dataOf, parse);
            var payloads := ReadFrames(before, dataOf, parse).payloads;
            if parsed.None? then ReadFrames(before + ([frame] + after), dataOf, parse) == Seen(payloads, true)
            else ReadFrames(before + [frame], dataOf, parse) == Seen(payloads + parsed.value, false)
    ensures before + ([frame] + after) == (before + [frame]) + after
  {
    InitOfConcat(before, [frame]);
    assert before + [frame][..0] == before;
    ReadConcat(before + [frame], after, dataOf, parse);
    Assoc(before, [frame], after);
  }

  /** The inner loop: frames are cut off the front of the buffer and parsed until none is complete. */
  method DrainBuffer<J>(received: string, dataOf: string -> Option<string>, parse: string -> Option<J>)
    returns (seen: Seen<J>, buffer: string)
    ensures seen == ReadFrames(SplitFrames(received).frames, dataOf, parse)
    ensures !seen.failed ==> buffer == SplitFrames(received).rest
  {
    buffer := received;
    var payloads: seq<J> := [];
    ghost var done: seq<string> := [];
    ghost var todo := SplitFrames(received);
    while true
      invariant todo == SplitFrames(buffer)
      invariant SplitFrames(received).frames == done + todo.frames
      invariant SplitFrames(received).rest == todo.rest
      invariant ReadFrames(done, dataOf, parse) == Seen(payloads, false)
      decreases |buffer|
    {
      var index := Find(buffer, BLANK_LINE);
      if index.None? {
        assert done + [] == done;
        return Seen(payloads, false), buffer;
      }
      var frame := buffer[..index.value];
      buffer := buffer[index.value + 2..];
      ghost var after := SplitFrames(buffer);
      assert todo.frames == [frame] + after.frames;
      ReadNext(done, frame, after.frames, dataOf, parse);
      var parsed := FramePayloads(Lines(frame), dataOf, parse);
      if parsed.None? {
        return Seen(payloads, true), buffer;
      }
      payloads := payloads + parsed.value;
      done, todo := done + [frame], after;
    }
  }

  /**
   The loop of `stream_verbose`: its payloads, and whether it fails, are those of the
   concatenated text. A connection that breaks after these chunks fails after their complete frames.
   */
  method ReadStream<J>(chunks: seq<string>, broken: bool, dataOf: string -> Option<string>,
      parse: string -> Option<J>) returns (seen: Seen<J>)
    ensures !broken ==> seen == ReadFrames(StreamFrames(Concat(chunks)), dataOf, parse)
    ensures broken ==> seen == ReadFrames(SplitFrames(Concat(chunks)).frames, dataOf, parse).(failed := true)
  {
    var buffer := "";
    var payloads: seq<J> := [];
    for k := 0 to |chunks|
      invariant SplitFrames(Concat(chunks[..k])).rest == buffer
      invariant ReadFrames(SplitFrames(Concat(chunks[..k])).frames, dataOf, parse) == Seen(payloads, false)
    {
      var cut, rest := DrainBuffer(buffer + chunks[k], dataOf, parse);
      assert chunks[..k + 1][..k] == chunks[..k];
      SplitConcat(Concat(chunks[..k]), chunks[k]);
      ReadConcat(SplitFrames(Concat(chunks[..k])).frames, SplitFrames(buffer + chunks[k]).frames, dataOf, parse);
      payloads := payloads + cut.payloads;
      if cut.failed {
        FailureIsFinal(chunks, k + 1, dataOf, parse);
        FailureStays(chunks, k + 1, dataOf, parse);
        return Seen(payloads, true);
      }
      buffer := rest;
    }
    assert chunks[..|chunks|] == chunks;
    if broken {
      return Seen(payloads, true);
    }
    var last: seq<string> := if Blank(buffer) then [] else [Trim(buffer)];
    ReadConcat(SplitFrames(Concat(chunks)).frames, last, dataOf, parse);
    if last != [] {
      assert last[..0] == [];
      var parsed := FramePayloads(Lines(last[0]), dataOf, parse);
      if parsed.None? {
        return Seen(payloads, true);
      }
      payloads := payloads + parsed.value;
    }
    return Seen(payloads, false);
  }

  /** A bad frame among the first chunks decides what is read from the whole stream. */
  lemma {:induction false} FailureIsFinal<J>(chunks: seq<string>, k: nat, dataOf: string -> Option<string>,
      parse: string -> Option<J>)
    requires k <= |chunks|
    requires ReadFrames(SplitFrames(Concat(chunks[..k])).frames, dataOf, parse).failed
    ensures ReadFrames(StreamFrames(Concat(chunks)), dataOf, parse) == ReadFrames(SplitFrames(Concat(chunks[..k])).frames, dataOf, parse)
  {
    var later := FramesExtend(chunks, k);
    ReadConcat(SplitFrames(Concat(chunks[..k])).frames, later, dataOf, parse);
  }

  lemma {:induction false} FramesExtend(chunks: seq<string>, k: nat) returns (later: seq<string>)
    requires k <= |chunks|
    ensures StreamFrames(Concat(chunks)) == SplitFrames(Concat(chunks[..k])).frames + later
  {
    var early, more := Concat(chunks[..k]), Concat(chunks[k..]);
    assert chunks[..k] + chunks[k..] == chunks;
    ConcatAppend(chunks[..k], chunks[k..]);
    SplitConcat(early, more);
    var cut := SplitFrames(SplitFrames(early).rest + more);
    later := cut.frames + if Blank(cut.rest) then [] else [Trim(cut.rest)];
  }

  lemma FailureStays<J>(chunks: seq<string>, k: nat, dataOf: string -> Option<string>, parse: string -> Option<J>)
    requires k <= |chunks|
    requires ReadFrames(SplitFrames(Concat(chunks[..k])).frames, dataOf, parse).failed
    ensures ReadFrames(SplitFrames(Concat(chunks)).frames, dataOf, parse) ==
            ReadFrames(SplitFrames(Concat(chunks[..k])).frames, dataOf, parse)
  {
    var early, more := Concat(chunks[..k]), Concat(chunks[k..]);
    assert chunks[..k] + chunks[k..] == chunks;
    ConcatAppend(chunks[..k], chunks[k..]);
    SplitConcat(early, more);
    ReadConcat(SplitFrames(early).frames, SplitFrames(SplitFrames(early).rest + more).frames, dataOf, parse);
  }
}
