/**
 Normalizing the instructions that enter a prompt cache key: the `santi-meta` blocks and then
 the `santi-runtime` blocks are stripped, and white space is collapsed.
 */
module CacheableInstructions {
  import opened Common
  import opened Text

  /** The start and end tag of one kind of block. */
  datatype Tags = Tags(start: string, end: string) {
    function Block(text: string): string { start + (text + end) }
  }

  function TagsOf(tag: string): Tags {
    Tags("<" + tag + ">", "</" + tag + ">")
  }

  const META := TagsOf("santi-meta")
  const RUNTIME := TagsOf("santi-runtime")

  /** What is left of a text: blocks are cut out, and an unclosed block takes everything after it. */
  function Stripped(s: string, tags: Tags): string
    requires tags.start != ""
    decreases |s|
  {
    match Find(s, tags.start)
    case None => s
    case Some(start) =>
      var after := s[start + |tags.start|..];
      match Find(after, tags.end)
      case None => s[..start]
      case Some(end) => s[..start] + Stripped(after[end + |tags.end|..], tags)
  }

  method StripTagBlock(input: string, tag: string) returns (result: string)
    ensures result == Stripped(input, TagsOf(tag))
  {
    hide Find;
    var tags := TagsOf(tag);
    var remaining := input;
    result := "";
    ghost var left := Stripped(input, tags);
    while true
      invariant left == Stripped(remaining, tags)
      invariant Stripped(input, tags) == result + left
      decreases |remaining|
    {
      var start := Find(remaining, tags.start);
      if start.None? {
        result := result + remaining;
        break;
      }
      var before := remaining[..start.value];
      var afterStart := remaining[start.value + |tags.start|..];
      var end := Find(afterStart, tags.end);
      if end.None? {
        result := result + before;
        break;
      }
      remaining := afterStart[end.value + |tags.end|..];
      left := Stripped(remaining, tags);
      Assoc(result, before, left);
      result := result + before;
    }
  }

  function Words(s: string): seq<string>
    decreases |s|
  {
    var t := TrimStart(s);
    if t == "" then [] else
      var n := WordLength(t);
      [t[..n]] + Words(t[n..])
  }

  function WordLength(s: string): (n: nat)
    ensures n <= |s|
    ensures s != "" && !IsWhitespace(s[0]) ==> n > 0
  {
    if s == "" || IsWhitespace(s[0]) then 0 else 1 + WordLength(s[1..])
  }

  function Normalized(s: string): string {
    Join(Words(Stripped(Stripped(s, META), RUNTIME)), " ")
  }

  method NormalizeCacheableInstructions(input: string) returns (r: string)
    ensures r == Normalized(input)
  {
    var stripped := StripTagBlock(input, "santi-meta");
    stripped := StripTagBlock(stripped, "santi-runtime");
    r := Join(Words(stripped), " ");
  }

  // ---------------------------------------------------------------------------------------
  // Where a tag can occur around a block

  /** A pattern with '<' at its start and nowhere else. */
  predicate OpensOnce(pat: string) {
    pat != "" && pat[0] == '<' && forall k :: 1 <= k < |pat| ==> pat[k] != '<'
  }

  /** Two patterns that cannot match at the same place. */
  predicate Clash(p: string, q: string) {
    exists k :: 0 <= k < |p| && k < |q| && p[k] != q[k]
  }

  predicate WellFormed(t: Tags) {
    OpensOnce(t.start) && OpensOnce(t.end) && Clash(t.start, t.end)
  }

  predicate Apart(t: Tags, u: Tags) {
    Clash(t.start, u.start) && Clash(t.start, u.end) && Clash(t.end, u.start) && Clash(t.end, u.end)
  }

  lemma OpensOnceTag(prefix: string, tag: string)
    requires OpensOnce(prefix) && '<' !in tag
    ensures OpensOnce(prefix + tag + ">")
  {
    var p := prefix + tag + ">";
    forall k | 1 <= k < |p| ensures p[k] != '<' {
      if |prefix| <= k < |prefix| + |tag| { assert p[k] == tag[k - |prefix|]; }
    }
  }

  lemma ClashAt(p: string, q: string, k: nat)
    requires k < |p| && k < |q| && p[k] != q[k]
    ensures Clash(p, q)
  {
  }

  lemma WellFormedTags(tag: string)
    requires '<' !in tag && tag != "" && tag[0] != '/'
    ensures WellFormed(TagsOf(tag))
  {
    OpensOnceTag("<", tag);
    OpensOnceTag("</", tag);
    var t := TagsOf(tag);
    hide OpensOnce;
    assert t.start[1] == tag[0] && t.end[1] == '/';
    ClashAt(t.start, t.end, 1);
  }

  /** Tags with names that differ at `k`, and whose names do not begin with a slash, cannot match at one place. */
  lemma TagsApart(a: string, b: string, k: nat)
    requires k < |a| && k < |b| && a[k] != b[k] && a[0] != '/' && b[0] != '/'
    ensures Apart(TagsOf(a), TagsOf(b))
  {
    var t, u := TagsOf(a), TagsOf(b);
    ClashAt(t.start, u.start, k + 1);
    ClashAt(t.start, u.end, 1);
    ClashAt(t.end, u.start, 1);
    ClashAt(t.end, u.end, k + 2);
  }

  /** The tags of the program have the shape that the rest of the argument needs. */
  lemma ProgramTags()
    ensures WellFormed(META) && WellFormed(RUNTIME) && Apart(META, RUNTIME)
  {
    hide WellFormed, Apart;
    WellFormedTags("santi-meta");
    WellFormedTags("santi-runtime");
    TagsApart("santi-meta", "santi-runtime", 6);
  }

  lemma ClashExcludes(s: string, p: string, q: string, i: nat)
    requires Clash(p, q)
    ensures !(MatchesAt(s, p, i) && MatchesAt(s, q, i))
  {
    MatchesAtPointwise(s, p, i);
    MatchesAtPointwise(s, q, i);
  }

  /** A match begins with the first character of the pattern. */
  lemma MatchHead(s: string, pat: string, i: nat)
    requires OpensOnce(pat)
    ensures MatchesAt(s, pat, i) ==> i < |s| && s[i] == '<'
  {
    MatchesAtPointwise(s, pat, i);
    assert MatchesAt(s, pat, i) ==> s[i + 0] == pat[0];
  }

  /** Matches that begin inside `a` in `a + m`, where `m` starts with '<', are those in `a`. */
  lemma MatchInPrefix(a: string, m: string, pat: string, i: nat)
    requires OpensOnce(pat) && m != "" && m[0] == '<' && i < |a|
    ensures MatchesAt(a + m, pat, i) <==> MatchesAt(a, pat, i)
  {
    MatchesAtPointwise(a + m, pat, i);
    MatchesAtPointwise(a, pat, i);
    assert (a + m)[|a|] == '<';
    var p := |a| - i;
    if p < |pat| {
      assert (a + m)[i + p] != pat[p];
    } else if p >= |pat| {
      assert (a + m)[i..i + |pat|] == a[i..i + |pat|];
    }
  }

  /** Text after `a` that starts with '<' does not change where a pattern first occurs in `a`. */
  lemma FindInPrefix(a: string, m: string, pat: string)
    requires OpensOnce(pat) && m != "" && m[0] == '<'
    ensures Find(a, pat).Some? ==> Find(a + m, pat) == Find(a, pat)
    ensures Find(a, pat).None? ==> forall i: nat :: i < |a| ==> !MatchesAt(a + m, pat, i)
  {
    hide Find;
    forall i: nat | i < |a| ensures MatchesAt(a + m, pat, i) <==> MatchesAt(a, pat, i) {
      MatchInPrefix(a, m, pat, i);
    }
    FindSpec(a, pat);
    if Find(a, pat).Some? {
      FindUnique(a + m, pat, Find(a, pat).value);
    }
  }

  lemma MatchShift(a: string, t: string, pat: string, i: nat)
    ensures MatchesAt(a + t, pat, |a| + i) <==> MatchesAt(t, pat, i)
  {
    if i + |pat| <= |t| {
      assert (a + t)[|a| + i..|a| + i + |pat|] == t[i..i + |pat|];
    }
  }

  /** With no match that begins in `a`, the first match in `a + t` is the first match in `t`. */
  lemma FindShift(a: string, t: string, pat: string)
    requires forall i: nat :: i < |a| ==> !MatchesAt(a + t, pat, i)
    ensures Find(t, pat).Some? ==> Find(a + t, pat) == Some(|a| + Find(t, pat).value)
    ensures Find(t, pat).None? ==> Find(a + t, pat).None?
  {
    forall i: nat | |a| <= i ensures MatchesAt(a + t, pat, i) <==> MatchesAt(t, pat, i - |a|) {
      MatchShift(a, t, pat, i - |a|);
    }
    FindSpec(t, pat);
    if Find(t, pat).Some? {
      FindUnique(a + t, pat, |a| + Find(t, pat).value);
    } else {
      FindNone(a + t, pat);
    }
  }

  /** Text without '<' before an end tag: the end tag is first found right after it. */
  lemma FindEnd(text: string, end: string, b: string)
    requires '<' !in text && OpensOnce(end)
    ensures Find(text + (end + b), end) == Some(|text|)
  {
    var s := text + (end + b);
    assert s[|text|..|text| + |end|] == end;
    forall i: nat | i < |text| ensures !MatchesAt(s, end, i) {
      MatchHead(s, end, i);
      assert s[i] == text[i];
    }
    FindUnique(s, end, |text|);
  }

  /** A block of the tags is closed by its own end tag, also when it is met inside another block. */
  lemma FindEndOfBlock(text: string, b: string, t: Tags)
    requires WellFormed(t) && '<' !in text
    ensures Find(t.Block(text) + b, t.end) == Some(|t.start| + |text|)
    ensures Find(t.Block(text) + b, t.start) == Some(0)
    ensures t.Block(text) + b == t.start + (text + (t.end + b))
  {
    var rest := text + (t.end + b);
    var m := t.start + rest;
    Assoc(t.start, text + t.end, b);
    Assoc(text, t.end, b);
    StartsWith(t.start, rest);
    FindUnique(m, t.start, 0);
    forall i: nat | i < |t.start| ensures !MatchesAt(m, t.end, i) {
      MatchHead(m, t.end, i);
      assert m[i] == t.start[i];
      ClashExcludes(m, t.start, t.end, 0);
    }
    FindEnd(text, t.end, b);
    FindShift(t.start, rest, t.end);
  }

  lemma StartsWith(a: string, b: string)
    ensures MatchesAt(a + b, a, 0)
  {
    assert (a + b)[0..|a|] == a;
  }

  // ---------------------------------------------------------------------------------------
  // Stripping around a block

  /** What stripping leaves of `a`, a block of these tags, and `b`: it is not told the block's text. */
  function AroundOwn(a: string, b: string, t: Tags): string
    requires t.start != ""
    decreases |a|
  {
    match Find(a, t.start)
    case None => a + Stripped(b, t)
    case Some(i) =>
      var after := a[i + |t.start|..];
      match Find(after, t.end)
      case None => a[..i] + Stripped(b, t)
      case Some(j) => a[..i] + AroundOwn(after[j + |t.end|..], b, t)
  }

  /** One round of the loop, when a block is opened at `i` and not closed. */
  lemma StripOpened(s: string, t: Tags, i: nat, after: string)
    requires t.start != "" && Find(s, t.start) == Some(i) && after == s[i + |t.start|..]
    requires Find(after, t.end) == None
    ensures Stripped(s, t) == s[..i]
  {
    hide Find;
  }

  /** One round of the loop, when a block is opened at `i` and `rest` is what follows it. */
  lemma StripRound(s: string, t: Tags, i: nat, after: string, j: nat, rest: string)
    requires t.start != "" && Find(s, t.start) == Some(i) && after == s[i + |t.start|..]
    requires Find(after, t.end) == Some(j) && rest == after[j + |t.end|..]
    ensures Stripped(s, t) == s[..i] + Stripped(rest, t)
  {
    hide Find;
  }

  lemma AfterBlock(a: string, text: string, b: string, t: Tags)
    ensures (a + (t.Block(text) + b))[|a| + (|t.start| + |text|) + |t.end|..] == b
  {
    SliceRight(a, t.Block(text) + b, |a| + (|t.start| + |text|) + |t.end|, |t.Block(text)|);
    SliceRight(t.Block(text), b, |t.Block(text)|, 0);
  }

  lemma {:induction false} StripOwnBlock(a: string, text: string, b: string, t: Tags)
    requires WellFormed(t) && '<' !in text
    ensures Stripped(a + (t.Block(text) + b), t) == AroundOwn(a, b, t)
    decreases |a|
  {
    hide Find, Stripped, MatchesAt;
    var m := t.Block(text) + b;
    FindInPrefix(a, m, t.start);
    FindEndOfBlock(text, b, t);
    if Find(a, t.start).None? {
      StripOpening(a, text, b, t);
    } else {
      var i := Find(a, t.start).value;
      var after := a[i + |t.start|..];
      SliceLeft(a, m, i);
      SliceLeft(a, m, i + |t.start|);
      FindInPrefix(after, m, t.end);
      if Find(after, t.end).None? {
        FindShift(after, m, t.end);
        AfterBlock(after, text, b, t);
        StripRound(a + m, t, i, after + m, |after| + (|t.start| + |text|), b);
      } else {
        var j := Find(after, t.end).value;
        var rest := after[j + |t.end|..];
        SliceLeft(after, m, j + |t.end|);
        StripRound(a + m, t, i, after + m, j, rest + m);
        StripOwnBlock(rest, text, b, t);
      }
    }
  }

  lemma StripOpening(a: string, text: string, b: string, t: Tags)
    requires WellFormed(t) && '<' !in text && Find(a, t.start).None?
    ensures Stripped(a + (t.Block(text) + b), t) == a + Stripped(b, t)
  {
    hide Find, Stripped, MatchesAt;
    var m := t.Block(text) + b;
    var rest := text + (t.end + b);
    FindEndOfBlock(text, b, t);
    FindInPrefix(a, m, t.start);
    FindShift(a, m, t.start);
    SliceRight(a, m, |a|, 0);
    SliceRight(a, m, |a| + |t.start|, |t.start|);
    SliceRight(t.start, rest, |t.start|, 0);
    FindEnd(text, t.end, b);
    SliceRight(text, t.end + b, |text| + |t.end|, |t.end|);
    SliceRight(t.end, b, |t.end|, 0);
    StripRound(a + m, t, |a|, rest, |text|, b);
  }

  /** A middle part that starts with '<' and in which no match begins, whatever follows it. */
  ghost predicate Inert(mid: string, pat: string) {
    && mid != "" && mid[0] == '<'
    && forall i: nat, rest: string :: i < |mid| ==> !MatchesAt(mid + rest, pat, i)
  }

  lemma BlockMatches(u: Tags, text: string, rest: string)
    ensures MatchesAt(u.Block(text) + rest, u.start, 0)
    ensures MatchesAt(u.Block(text) + rest, u.end, |u.start| + |text|)
  {
    hide MatchesAt;
    Assoc(u.start, text + u.end, rest);
    Assoc(text, u.end, rest);
    StartsWith(u.start, text + (u.end + rest));
    Assoc(u.start, text, u.end + rest);
    StartsWith(u.end, rest);
    MatchShift(u.start + text, u.end + rest, u.end, 0);
  }

  lemma BlockIsInert(u: Tags, text: string, pat: string)
    requires WellFormed(u) && '<' !in text && OpensOnce(pat) && Clash(u.start, pat) && Clash(u.end, pat)
    ensures Inert(u.Block(text), pat)
  {
    hide MatchesAt, Clash;
    var block := u.Block(text);
    forall i: nat, rest: string | i < |block| ensures !MatchesAt(block + rest, pat, i) {
      var s := block + rest;
      MatchHead(s, pat, i);
      BlockChar(u, text, i);
      BlockMatches(u, text, rest);
      ClashExcludes(s, u.start, pat, 0);
      ClashExcludes(s, u.end, pat, |u.start| + |text|);
    }
  }

  /** In a block, '<' stands only where its two tags begin. */
  lemma BlockChar(u: Tags, text: string, i: nat)
    requires WellFormed(u) && '<' !in text && i < |u.Block(text)|
    ensures u.Block(text)[i] == '<' ==> i == 0 || i == |u.start| + |text|
  {
    var n := |u.start| + |text|;
    assert u.Block(text)[i] == if i < |u.start| then u.start[i] else if i < n then text[i - |u.start|] else u.end[i - n];
  }

  /** Past an inert middle, searching continues in the rest. */
  lemma FindPastInert(a: string, m: string, b: string, pat: string)
    requires OpensOnce(pat) && Inert(m, pat) && Find(a, pat).None?
    ensures Find(b, pat).Some? ==> Find(a + (m + b), pat) == Some(|a| + |m| + Find(b, pat).value)
    ensures Find(b, pat).None? ==> Find(a + (m + b), pat).None?
  {
    hide Find, MatchesAt;
    FindInPrefix(a, m + b, pat);
    FindShift(m, b, pat);
    FindShift(a, m + b, pat);
  }

  /** Either a middle survives between two texts, or it vanishes; the texts do not depend on it. */
  datatype Around = Kept(left: string, right: string) | Cut(all: string) {
    function With(mid: string): string {
      match this
      case Kept(l, r) => l + (mid + r)
      case Cut(s) => s
    }

    function After(prefix: string): Around {
      match this
      case Kept(l, r) => Kept(prefix + l, r)
      case Cut(s) => Cut(prefix + s)
    }
  }

  lemma AfterWith(prefix: string, x: Around, mid: string)
    ensures x.After(prefix).With(mid) == prefix + x.With(mid)
  {
    if x.Kept? { Assoc(prefix, x.left, mid + x.right); }
  }

  function AroundOther(a: string, b: string, t: Tags): Around
    requires t.start != ""
    decreases |a|
  {
    match Find(a, t.start)
    case None => Kept(a, Stripped(b, t))
    case Some(i) =>
      var after := a[i + |t.start|..];
      match Find(after, t.end)
      case Some(j) => AroundOther(after[j + |t.end|..], b, t).After(a[..i])
      case None =>
        match Find(b, t.end)
        case None => Cut(a[..i])
        case Some(k) => Cut(a[..i] + Stripped(b[k + |t.end|..], t))
  }

  lemma AroundNothing(a: string, b: string, t: Tags)
    requires t.start != "" && Find(a, t.start).None?
    ensures AroundOther(a, b, t) == Kept(a, Stripped(b, t))
  {
    hide Find, Stripped;
  }

  lemma {:induction false} AroundRound(a: string, b: string, t: Tags, i: nat, j: nat, rest: string)
    requires t.start != "" && Find(a, t.start) == Some(i)
    requires Find(a[i + |t.start|..], t.end) == Some(j) && rest == a[i + |t.start|..][j + |t.end|..]
    ensures AroundOther(a, b, t) == AroundOther(rest, b, t).After(a[..i])
  {
    hide Find, Stripped;
  }

  lemma {:induction false} StripAroundOther(a: string, mid: string, b: string, t: Tags)
    requires WellFormed(t) && Inert(mid, t.start) && Inert(mid, t.end)
    ensures Stripped(a + (mid + b), t) == AroundOther(a, b, t).With(mid)
    decreases |a|
  {
    hide Find, MatchesAt, Stripped, AroundOther;
    var m := mid + b;
    FindInPrefix(a, m, t.start);
    if Find(a, t.start).None? {
      StripPast(a, mid, b, t);
      AroundNothing(a, b, t);
    } else {
      var i := Find(a, t.start).value;
      var after := a[i + |t.start|..];
      SliceLeft(a, m, i);
      SliceLeft(a, m, i + |t.start|);
      if Find(after, t.end).None? {
        StripInside(a, i, mid, b, t);
      } else {
        FindInPrefix(after, m, t.end);
        var j := Find(after, t.end).value;
        var rest := after[j + |t.end|..];
        SliceLeft(after, m, j + |t.end|);
        StripRound(a + m, t, i, after + m, j, rest + m);
        StripAroundOther(rest, mid, b, t);
        AroundRound(a, b, t, i, j, rest);
        AfterWith(a[..i], AroundOther(rest, b, t), mid);
      }
    }
  }

  /** A block opened in `a` and still open at the middle takes the middle with it. */
  lemma StripInside(a: string, i: nat, mid: string, b: string, t: Tags)
    requires WellFormed(t) && Inert(mid, t.start) && Inert(mid, t.end)
    requires Find(a, t.start) == Some(i) && Find(a[i + |t.start|..], t.end).None?
    ensures Stripped(a + (mid + b), t) == AroundOther(a, b, t).With(mid)
  {
    hide Find, MatchesAt, Stripped;
    var m := mid + b;
    var after := a[i + |t.start|..];
    FindInPrefix(a, m, t.start);
    SliceLeft(a, m, i);
    SliceLeft(a, m, i + |t.start|);
    FindPastInert(after, mid, b, t.end);
    if Find(b, t.end).Some? {
      var k := Find(b, t.end).value;
      SliceRight(after, m, |after| + |mid| + k + |t.end|, |mid| + k + |t.end|);
      SliceRight(mid, b, |mid| + k + |t.end|, k + |t.end|);
      StripRound(a + m, t, i, after + m, |after| + |mid| + k, b[k + |t.end|..]);
    } else {
      StripOpened(a + m, t, i, after + m);
    }
  }

  /** Text before the first start tag is left in place. */
  lemma {:induction false} StripShift(a: string, s: string, t: Tags, k: nat, n: nat)
    requires t.start != "" && Find(s, t.start) == Some(k)
    requires n == |a| + k && Find(a + s, t.start) == Some(n)
    ensures Stripped(a + s, t) == a + Stripped(s, t)
  {
    hide Find, Stripped;
    var after := s[k + |t.start|..];
    SliceRight(a, s, n, k);
    SliceRight(a, s, n + |t.start|, k + |t.start|);
    var end := Find(after, t.end);
    if end.Some? {
      var rest := after[end.value + |t.end|..];
      StripRound(s, t, k, after, end.value, rest);
      StripRound(a + s, t, n, after, end.value, rest);
      Assoc(a, s[..k], Stripped(rest, t));
    } else {
      StripOpened(s, t, k, after);
      StripOpened(a + s, t, n, after);
    }
  }

  /** With no block opened before it, an inert middle and the text before it are left in place. */
  lemma StripPast(a: string, mid: string, b: string, t: Tags)
    requires WellFormed(t) && Inert(mid, t.start) && Find(a, t.start).None?
    ensures Stripped(a + (mid + b), t) == a + (mid + Stripped(b, t))
  {
    hide Find, MatchesAt, Inert;
    FindPastInert(a, mid, b, t.start);
    Assoc(a, mid, b);
    if Find(b, t.start).Some? {
      StripShift(a + mid, b, t, Find(b, t.start).value, |a + mid| + Find(b, t.start).value);
    }
    Assoc(a, mid, Stripped(b, t));
  }

  /**
   The normalized instructions do not depend on the text inside a closed `santi-meta` or
   `santi-runtime` block, wherever the block sits: after other blocks, inside one, or after an
   unfinished tag.
   */
  lemma NormalizedIgnoresBlockText(a: string, x: string, y: string, b: string, t: Tags)
    requires t == META || t == RUNTIME
    requires '<' !in x && '<' !in y
    ensures Normalized(a + (t.Block(x) + b)) == Normalized(a + (t.Block(y) + b))
  {
    ProgramTags();
    if t == META {
      StripOwnBlock(a, x, b, META);
      StripOwnBlock(a, y, b, META);
    } else {
      RuntimeBlockUnderMeta(a, x, b);
      RuntimeBlockUnderMeta(a, y, b);
      var around := AroundOther(a, b, META);
      if around.Kept? {
        StripOwnBlock(around.left, x, around.right, RUNTIME);
        StripOwnBlock(around.left, y, around.right, RUNTIME);
      }
    }
  }

  lemma RuntimeBlockUnderMeta(a: string, x: string, b: string)
    requires '<' !in x
    ensures Stripped(a + (RUNTIME.Block(x) + b), META) == AroundOther(a, b, META).With(RUNTIME.Block(x))
  {
    ProgramTags();
    assert Clash(RUNTIME.start, META.start) && Clash(RUNTIME.end, META.start);
    assert Clash(RUNTIME.start, META.end) && Clash(RUNTIME.end, META.end);
    BlockIsInert(RUNTIME, x, META.start);
    BlockIsInert(RUNTIME, x, META.end);
    StripAroundOther(a, RUNTIME.Block(x), b, META);
  }

  // ---------------------------------------------------------------------------------------
  // What stands outside the blocks stays

  /** `pat` occurs first in `a + pat` at its end: not in `a`, nor across the seam. */
  predicate FirstAtEnd(a: string, pat: string) {
    Find(a + pat, pat) == Some(|a|)
  }

  /**
   A text without a start tag stays as it is; what stands before the first block stays, the block goes,
   and what follows its end tag is treated the same way; an unclosed block takes all that follows.
   */
  lemma {:induction false} TextOutsideStays(a: string, inner: string, b: string, t: Tags)
    requires t.start != ""
    ensures Find(a, t.start).None? ==> Stripped(a, t) == a
    ensures FirstAtEnd(a, t.start) && Find(inner, t.end).None? ==> Stripped(a + t.start + inner, t) == a
    ensures FirstAtEnd(a, t.start) && FirstAtEnd(inner, t.end) ==>
              Stripped(a + t.start + inner + t.end + b, t) == a + Stripped(b, t)
  {
    hide Find;
    if FirstAtEnd(a, t.start) {
      if Find(inner, t.end).None? {
        FirstStays(a, t.start, inner);
        var s := a + t.start + inner;
        assert s[|a| + |t.start|..] == inner && s[..|a|] == a;
        StripOpened(s, t, |a|, inner);
      }
      if FirstAtEnd(inner, t.end) {
        var s, after := a + t.start + inner + t.end + b, inner + t.end + b;
        assert s == a + t.start + after;
        FirstStays(a, t.start, after);
        FirstStays(inner, t.end, b);
        assert s[|a| + |t.start|..] == after && after[|inner| + |t.end|..] == b && s[..|a|] == a;
        StripRound(s, t, |a|, after, |inner|, b);
      }
    }
  }

  lemma FirstStays(a: string, pat: string, b: string)
    requires FirstAtEnd(a, pat)
    ensures Find(a + pat + b, pat) == Some(|a|)
  {
    var s := a + pat;
    FindSpec(s, pat);
    assert (s + b)[|a|..|a| + |pat|] == s[|a|..|a| + |pat|];
    forall j: nat | j < |a| ensures !MatchesAt(s + b, pat, j) {
      assert !MatchesAt(s, pat, j);
      assert (s + b)[j..j + |pat|] == s[j..j + |pat|];
    }
    FindUnique(s + b, pat, |a|);
  }

  /** White space separates words, and nothing else does. */
  lemma {:induction false} WordsAreSeparated(a: string, c: char, b: string)
    requires IsWhitespace(c)
    ensures Words(a + [c] + b) == Words(a) + Words(b)
    decreases |a|
  {
    var s := a + [c] + b;
    if a == "" {
      assert s[1..] == b && TrimStart(s) == TrimStart(b);
      SameWords(s, b);
    } else if IsWhitespace(a[0]) {
      assert s[1..] == a[1..] + [c] + b;
      WordsAreSeparated(a[1..], c, b);
      SameWords(a, a[1..]);
      SameWords(s, s[1..]);
    } else {
      var n := WordLength(a);
      WordLengthSame(a, c, b);
      assert s[..n] == a[..n] && s[n..] == a[n..] + [c] + b;
      WordsAreSeparated(a[n..], c, b);
      Assoc([a[..n]], Words(a[n..]), Words(b));
    }
  }

  lemma SameWords(a: string, b: string)
    requires TrimStart(a) == TrimStart(b)
    ensures Words(a) == Words(b)
  {
  }

  lemma {:induction false} WordLengthSame(a: string, c: char, b: string)
    requires IsWhitespace(c)
    ensures WordLength(a + [c] + b) == WordLength(a)
  {
    if a != "" && !IsWhitespace(a[0]) {
      assert (a + [c] + b)[1..] == a[1..] + [c] + b;
      WordLengthSame(a[1..], c, b);
    }
  }

  /** A text without white space is one word, and the empty text none. */
  lemma {:induction false} OneWord(w: string)
    requires forall i :: 0 <= i < |w| ==> !IsWhitespace(w[i])
    ensures Words(w) == if w == "" then [] else [w]
  {
    WholeLength(w);
    if w != "" { assert w[..|w|] == w && w[|w|..] == ""; }
  }

  lemma {:induction false} WholeLength(w: string)
    requires forall i :: 0 <= i < |w| ==> !IsWhitespace(w[i])
    ensures WordLength(w) == |w|
  {
    if w != "" { WholeLength(w[1..]); }
  }

  /**
   Instructions without tags are normalized to their words, joined by single spaces: separate stretches
   of text by white space, and their words come one after the other.
   */
  lemma {:induction false} UntaggedTextIsItsWords(s: string)
    requires Find(s, META.start).None? && Find(s, RUNTIME.start).None?
    ensures Normalized(s) == Join(Words(s), " ")
  {
    hide Find;
    TextOutsideStays(s, "", "", META);
    TextOutsideStays(s, "", "", RUNTIME);
  }
}
