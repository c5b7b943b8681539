/**
 What a stream says, without its framing: the data lines of the whole text, in order.
 */
module SseLines {
  import opened Common
  import opened Text
  import opened SseFraming

  /** The lines of a text, character by character. */
  function LinesOf(s: string): (r: seq<string>)
    ensures r != []
  {
    if s == "" then [""]
    else if s[0] == '\n' then [""] + LinesOf(s[1..])
    else var more := LinesOf(s[1..]); [[s[0]] + more[0]] + more[1..]
  }

  lemma {:induction false} LinesAppend(a: string, b: string)
    ensures LinesOf(a + "\n" + b) == LinesOf(a) + LinesOf(b)
  {
    var s := a + "\n" + b;
    if a == "" {
      assert s[1..] == b;
      assert LinesOf("") == [""];
    } else {
      assert s[1..] == a[1..] + "\n" + b;
      LinesAppend(a[1..], b);
      if a[0] == '\n' {
        Assoc([""], LinesOf(a[1..]), LinesOf(b));
      } else {
        var more := LinesOf(a[1..]);
        assert (more + LinesOf(b))[1..] == more[1..] + LinesOf(b);
        Assoc([[a[0]] + more[0]], more[1..], LinesOf(b));
      }
    }
  }

  lemma {:induction false} NoNewline(s: string)
    requires '\n' !in s
    ensures LinesOf(s) == [s]
  {
    if s != "" {
      assert s[0] in s && forall c :: c in s[1..] ==> c in s;
      NoNewline(s[1..]);
      assert [s[0]] + s[1..] == s;
    }
  }

  lemma NewlineAt(s: string, j: nat)
    ensures MatchesAt(s, "\n", j) <==> j < |s| && s[j] == '\n'
  {
    MatchesAtPointwise(s, "\n", j);
  }

  /** The first newline, if there is one. */
  lemma FirstNewline(s: string)
    ensures Find(s, "\n").None? ==> '\n' !in s
    ensures Find(s, "\n").Some? ==> var i := Find(s, "\n").value; i < |s| && s[i] == '\n' && '\n' !in s[..i]
  {
    FindSpec(s, "\n");
    hide Find, MatchesAt;
    var end: nat := if Find(s, "\n").Some? then Find(s, "\n").value else |s|;
    if Find(s, "\n").Some? { NewlineAt(s, end); }
    forall j: nat | j < end && j < |s| ensures s[j] != '\n' { NewlineAt(s, j); }
  }

  lemma {:induction false} LinesAreLinesOf(s: string)
    ensures Lines(s) == LinesOf(s)
    decreases |s|
  {
    FirstNewline(s);
    hide Find, LinesOf;
    match Find(s, "\n")
    case None =>
      NoNewline(s);
    case Some(i) =>
      NoNewline(s[..i]);
      LinesAreLinesOf(s[i + 1..]);
      assert s == s[..i] + "\n" + s[i + 1..];
      LinesAppend(s[..i], s[i + 1..]);
  }

  // ---------------------------------------------------------------------------------------
  // The data lines

  /** Only what stands between the white space of a line counts, and a blank line has no data. */
  ghost predicate TrimsLines(dataOf: string -> Option<string>) {
    dataOf("").None? && forall line :: dataOf(line) == dataOf(Trim(line))
  }

  lemma BothTrim()
    ensures TrimsLines(ChatDataOf) && TrimsLines(ResponsesDataOf)
  {
    forall line ensures ChatDataOf(line) == ChatDataOf(Trim(line)) && ResponsesDataOf(line) == ResponsesDataOf(Trim(line)) {
      TrimIdempotent(line);
    }
  }

  /** The data of these lines, in order; the other lines are skipped. */
  function DataLines(lines: seq<string>, dataOf: string -> Option<string>): seq<string> {
    if lines == [] then []
    else (if dataOf(lines[0]).Some? then [dataOf(lines[0]).value] else []) + DataLines(lines[1..], dataOf)
  }

  lemma {:induction false} DataAppend(a: seq<string>, b: seq<string>, dataOf: string -> Option<string>)
    ensures DataLines(a + b, dataOf) == DataLines(a, dataOf) + DataLines(b, dataOf)
  {
    if a == [] {
      assert a + b == b;
    } else {
      assert (a + b)[1..] == a[1..] + b;
      DataAppend(a[1..], b, dataOf);
      Assoc(if dataOf(a[0]).Some? then [dataOf(a[0]).value] else [], DataLines(a[1..], dataOf), DataLines(b, dataOf));
    }
  }

  function DataIn(text: string, dataOf: string -> Option<string>): seq<string> {
    DataLines(LinesOf(text), dataOf)
  }

  lemma TrimFront(c: char, s: string)
    requires IsWhitespace(c)
    ensures Trim([c] + s) == Trim(s)
  {
    assert ([c] + s)[1..] == s;
  }

  lemma {:induction false} TrimStartBack(s: string, c: char)
    requires IsWhitespace(c)
    ensures TrimStart(s + [c]) == if TrimStart(s) == "" then "" else TrimStart(s) + [c]
  {
    if s == "" {
      assert s + [c] == [c] && [c][1..] == "";
    } else if IsWhitespace(s[0]) {
      assert (s + [c])[1..] == s[1..] + [c];
      TrimStartBack(s[1..], c);
    }
  }

  lemma TrimBack(s: string, c: char)
    requires IsWhitespace(c)
    ensures Trim(s + [c]) == Trim(s)
  {
    TrimStartBack(s, c);
    var t := TrimStart(s);
    assert (t + [c])[..|t + [c]| - 1] == t;
  }

  /** A text and the same without white space in front have the same data. */
  lemma {:induction false} DataTrimStart(s: string, dataOf: string -> Option<string>)
    requires TrimsLines(dataOf)
    ensures DataIn(TrimStart(s), dataOf) == DataIn(s, dataOf)
  {
    hide Trim;
    if s != "" && IsWhitespace(s[0]) {
      DataTrimStart(s[1..], dataOf);
      var more := LinesOf(s[1..]);
      if s[0] == '\n' {
        DataAppend([""], more, dataOf);
        OneLine("", dataOf);
      } else {
        TrimFront(s[0], more[0]);
        assert dataOf([s[0]] + more[0]) == dataOf(Trim([s[0]] + more[0]));
        assert dataOf(more[0]) == dataOf(Trim(more[0]));
        assert more == [more[0]] + more[1..];
      }
    }
  }

  lemma OneLine(line: string, dataOf: string -> Option<string>)
    ensures DataLines([line], dataOf) == if dataOf(line).Some? then [dataOf(line).value] else []
  {
    assert [line][1..] == [];
  }

  function Glued(c: char, lines: seq<string>): seq<string>
    requires lines != []
  {
    [[c] + lines[0]] + lines[1..]
  }

  function Lengthened(lines: seq<string>, c: char): seq<string>
    requires lines != []
  {
    lines[..|lines| - 1] + [lines[|lines| - 1] + [c]]
  }

  lemma GluedLengthened(c: char, lines: seq<string>, d: char)
    requires lines != []
    ensures Glued(c, Lengthened(lines, d)) == Lengthened(Glued(c, lines), d)
  {
    if |lines| == 1 {
      Assoc([c], lines[0], [d]);
    } else {
      assert Lengthened(lines, d)[0] == lines[0];
    }
  }

  lemma {:induction false} LastLine(s: string, c: char)
    requires c != '\n'
    ensures LinesOf(s + [c]) == Lengthened(LinesOf(s), c)
  {
    hide Lengthened;
    if s == "" {
      assert s + [c] == [c] && [c][1..] == "";
      NoNewline([c]);
      assert Lengthened([""], c) == [[c]] by { OneLengthened(c); }
    } else {
      assert (s + [c])[1..] == s[1..] + [c];
      LastLine(s[1..], c);
      var more := LinesOf(s[1..]);
      if s[0] == '\n' {
        FrontLengthened(more, c);
      } else {
        GluedLengthened(s[0], more, c);
      }
    }
  }

  lemma OneLengthened(c: char)
    ensures Lengthened([""], c) == [[c]]
  {
    assert "" + [c] == [c];
  }

  lemma FrontLengthened(lines: seq<string>, c: char)
    requires lines != []
    ensures [""] + Lengthened(lines, c) == Lengthened([""] + lines, c)
  {
  }

  lemma LastLineData(lines: seq<string>, c: char, dataOf: string -> Option<string>)
    requires lines != [] && IsWhitespace(c) && TrimsLines(dataOf)
    ensures DataLines(Lengthened(lines, c), dataOf) == DataLines(lines, dataOf)
  {
    hide Trim, IsWhitespace, DataLines;
    var last := lines[|lines| - 1];
    TrimBack(last, c);
    assert dataOf(last + [c]) == dataOf(Trim(last + [c])) && dataOf(last) == dataOf(Trim(last));
    DataAppend(lines[..|lines| - 1], [last + [c]], dataOf);
    DataAppend(lines[..|lines| - 1], [last], dataOf);
    assert lines == lines[..|lines| - 1] + [last];
    OneLine(last, dataOf);
    OneLine(last + [c], dataOf);
  }

  lemma {:induction false} DataTrimEnd(s: string, dataOf: string -> Option<string>)
    requires TrimsLines(dataOf)
    ensures DataIn(TrimEnd(s), dataOf) == DataIn(s, dataOf)
  {
    hide TrimsLines, LinesOf, Lengthened, DataLines, IsWhitespace;
    if s != "" && IsWhitespace(s[|s| - 1]) {
      var init, c := s[..|s| - 1], s[|s| - 1];
      assert s == init + [c];
      DataTrimEnd(init, dataOf);
      if c == '\n' {
        assert s == init + "\n" + "";
        LinesAppend(init, "");
        NoNewline("");
        DataAppend(LinesOf(init), [""], dataOf);
        NoData(dataOf);
      } else {
        LastLine(init, c);
        LastLineData(LinesOf(init), c, dataOf);
      }
    }
  }

  lemma NoData(dataOf: string -> Option<string>)
    requires TrimsLines(dataOf)
    ensures DataLines([""], dataOf) == []
  {
    OneLine("", dataOf);
  }

  lemma DataOfTrimmed(s: string, dataOf: string -> Option<string>)
    requires TrimsLines(dataOf)
    ensures DataIn(Trim(s), dataOf) == DataIn(s, dataOf)
  {
    hide DataIn;
    DataTrimStart(s, dataOf);
    DataTrimEnd(TrimStart(s), dataOf);
  }

  /** All the data of these frames. */
  function DataInAll(frames: seq<string>, dataOf: string -> Option<string>): seq<string> {
    if frames == [] then [] else DataIn(frames[0], dataOf) + DataInAll(frames[1..], dataOf)
  }

  lemma {:induction false} DataInAllAppend(a: seq<string>, b: seq<string>, dataOf: string -> Option<string>)
    ensures DataInAll(a + b, dataOf) == DataInAll(a, dataOf) + DataInAll(b, dataOf)
  {
    hide DataIn;
    if a == [] {
      assert a + b == b;
    } else {
      assert (a + b)[1..] == a[1..] + b;
      DataInAllAppend(a[1..], b, dataOf);
      Assoc(DataIn(a[0], dataOf), DataInAll(a[1..], dataOf), DataInAll(b, dataOf));
    }
  }

  /** Cutting a text into frames keeps its data lines. */
  lemma {:induction false} FramesKeepData(s: string, dataOf: string -> Option<string>)
    requires TrimsLines(dataOf)
    ensures DataInAll(SplitFrames(s).frames, dataOf) + DataIn(SplitFrames(s).rest, dataOf) == DataIn(s, dataOf)
    decreases |s|
  {
    hide LinesOf, DataLines, Trim;
    match Find(s, BLANK_LINE)
    case None =>
    case Some(i) =>
      var f, t := s[..i], s[i + 2..];
      FindSpec(s, BLANK_LINE);
      assert s[i..i + 2] == "\n\n";
      assert s == f + "\n" + ("" + "\n" + t);
      LinesAppend(f, "" + "\n" + t);
      LinesAppend("", t);
      NoNewline("");
      DataAppend(LinesOf(f), [""] + LinesOf(t), dataOf);
      DataAppend([""], LinesOf(t), dataOf);
      OneLine("", dataOf);
      FramesKeepData(t, dataOf);
      var cut := SplitFrames(t);
      assert SplitFrames(s).frames == [f] + cut.frames;
      assert ([f] + cut.frames)[1..] == cut.frames;
      Assoc(DataIn(f, dataOf), DataInAll(cut.frames, dataOf), DataIn(cut.rest, dataOf));
  }

  lemma StreamData(text: string, dataOf: string -> Option<string>)
    requires TrimsLines(dataOf)
    ensures DataInAll(StreamFrames(text), dataOf) == DataIn(text, dataOf)
  {
    hide DataIn, SplitFrames;
    FramesKeepData(text, dataOf);
    var cut := SplitFrames(text);
    DataOfTrimmed(cut.rest, dataOf);
    if Blank(cut.rest) {
      BlankHasNoData(dataOf);
      assert cut.frames + [] == cut.frames;
    } else {
      assert [Trim(cut.rest)][1..] == [];
      DataInAllAppend(cut.frames, [Trim(cut.rest)], dataOf);
      assert DataInAll([], dataOf) == [];
      assert DataInAll([Trim(cut.rest)], dataOf) == DataIn(Trim(cut.rest), dataOf);
    }
  }

  lemma BlankHasNoData(dataOf: string -> Option<string>)
    requires TrimsLines(dataOf)
    ensures DataIn("", dataOf) == []
  {
    OneLine("", dataOf);
  }

  // ---------------------------------------------------------------------------------------
  // What is read

  /** The payloads are these data, each parsed. */
  ghost predicate AreParsed<J>(data: seq<string>, parse: string -> Option<J>, payloads: seq<J>) {
    |payloads| == |data| && forall i :: 0 <= i < |data| ==> parse(data[i]) == Some(payloads[i])
  }

  ghost predicate AllParse<J>(data: seq<string>, parse: string -> Option<J>) {
    forall i :: 0 <= i < |data| ==> parse(data[i]).Some?
  }

  lemma {:induction false} FrameIsItsData<J>(lines: seq<string>, dataOf: string -> Option<string>,
      parse: string -> Option<J>)
    ensures var r, data := FramePayloads(lines, dataOf, parse), DataLines(lines, dataOf);
            (r.Some? <==> AllParse(data, parse)) && (r.Some? ==> AreParsed(data, parse, r.value))
  {
    if lines != [] {
      FrameIsItsData(lines[1..], dataOf, parse);
      var rest := DataLines(lines[1..], dataOf);
      if dataOf(lines[0]).Some? {
        var data := DataLines(lines, dataOf);
        assert data == [dataOf(lines[0]).value] + rest;
        assert forall i :: 0 <= i < |rest| ==> data[i + 1] == rest[i];
        assert AllParse(data, parse) <==> parse(data[0]).Some? && AllParse(rest, parse) by {
          if AllParse(data, parse) {
            forall i | 0 <= i < |rest| ensures parse(rest[i]).Some? { assert data[i + 1] == rest[i]; }
          }
        }
      } else {
        assert [] + rest == rest;
      }
    }
  }

  lemma ParsedAppend<J>(a: seq<string>, b: seq<string>, parse: string -> Option<J>, x: seq<J>, y: seq<J>)
    ensures AllParse(a + b, parse) <==> AllParse(a, parse) && AllParse(b, parse)
    ensures AreParsed(a, parse, x) && AreParsed(b, parse, y) ==> AreParsed(a + b, parse, x + y)
  {
    if AllParse(a + b, parse) {
      forall i | 0 <= i < |a| ensures parse(a[i]).Some? { assert (a + b)[i] == a[i]; }
      forall i | 0 <= i < |b| ensures parse(b[i]).Some? { assert (a + b)[|a| + i] == b[i]; }
    }
  }

  lemma {:induction false} FramesAreTheirData<J>(frames: seq<string>, dataOf: string -> Option<string>,
      parse: string -> Option<J>)
    ensures var r, data := ReadFrames(frames, dataOf, parse), DataInAll(frames, dataOf);
            (!r.failed <==> AllParse(data, parse)) && (!r.failed ==> AreParsed(data, parse, r.payloads))
  {
    hide DataIn, FramePayloads, Lines, AllParse, AreParsed;
    if frames == [] {
      NothingToParse<J>(parse);
    } else {
      var init, last := frames[..|frames| - 1], frames[|frames| - 1];
      assert frames == init + [last] && [last][1..] == [];
      FramesAreTheirData(init, dataOf, parse);
      DataInAllAppend(init, [last], dataOf);
      assert DataInAll([], dataOf) == [];
      assert DataInAll([last], dataOf) == DataIn(last, dataOf);
      LinesAreLinesOf(last);
      FrameIsItsData(Lines(last), dataOf, parse);
      assert DataIn(last, dataOf) == DataLines(Lines(last), dataOf) by { DataInLines(last, dataOf); }
      var before, now := ReadFrames(init, dataOf, parse), FramePayloads(Lines(last), dataOf, parse);
      ParsedAppend(DataInAll(init, dataOf), DataIn(last, dataOf), parse, before.payloads, if now.Some? then now.value else []);
    }
  }

  lemma DataInLines(s: string, dataOf: string -> Option<string>)
    ensures DataIn(s, dataOf) == DataLines(Lines(s), dataOf)
  {
    LinesAreLinesOf(s);
  }

  lemma NothingToParse<J>(parse: string -> Option<J>)
    ensures AllParse([], parse) && AreParsed<J>([], parse, [])
  {
  }

  /**
   Framing adds nothing to a stream and takes nothing away: it is read without error exactly when every
   data line of its whole text parses, and then the payloads are those lines, parsed, in order.
   Other lines, such as event names and comments, are skipped wherever they stand.
   */
  lemma {:induction false} EveryDataLineIsRead<J>(text: string, dataOf: string -> Option<string>,
      parse: string -> Option<J>)
    requires TrimsLines(dataOf)
    ensures var r, data := ReadFrames(StreamFrames(text), dataOf, parse), DataIn(text, dataOf);
            (!r.failed <==> AllParse(data, parse)) && (!r.failed ==> AreParsed(data, parse, r.payloads))
  {
    StreamData(text, dataOf);
    FramesAreTheirData(StreamFrames(text), dataOf, parse);
  }

  /** A line has data exactly if, trimmed, it is the prefix and something that is neither blank nor the end mark. */
  lemma {:induction false} ChatLineIs(line: string, d: string)
    ensures ChatDataOf(line) == Some(d) <==>
            d != "" && d != "[DONE]" && exists x :: Trim(line) == "data:" + x && Trim(x) == d
  {
    hide Trim;
    var l := Trim(line);
    if "data:" <= l {
      assert l == "data:" + l[5..];
      forall x | l == "data:" + x ensures x == l[5..] { assert ("data:" + x)[5..] == x; }
    }
  }
}
