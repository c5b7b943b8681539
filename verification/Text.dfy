/** Searching, trimming, joining and printing of strings, as the Rust standard library does them. */
module Text {
  import opened Common

  /** The characters of Unicode's White_Space property. */
  predicate IsWhitespace(c: char) {
    || '\t' <= c <= '\r' || c == ' ' || c == '\U{0085}' || c == '\U{00A0}' || c == '\U{1680}'
    || '\U{2000}' <= c <= '\U{200A}' || c == '\U{2028}' || c == '\U{2029}' || c == '\U{202F}'
    || c == '\U{205F}' || c == '\U{3000}'
  }

  function TrimStart(s: string): (r: string)
    ensures |r| <= |s|
    ensures r != "" ==> !IsWhitespace(r[0])
  {
    if s != [] && IsWhitespace(s[0]) then TrimStart(s[1..]) else s
  }

  function TrimEnd(s: string): (r: string)
    ensures |r| <= |s|
    ensures r != "" ==> !IsWhitespace(r[|r| - 1])
  {
    if s != [] && IsWhitespace(s[|s| - 1]) then TrimEnd(s[..|s| - 1]) else s
  }

  function Trim(s: string): string {
    TrimEnd(TrimStart(s))
  }

  predicate Blank(s: string) {
    Trim(s) == ""
  }

  lemma {:induction false} TrimEndPrefix(s: string)
    ensures TrimEnd(s) <= s
    ensures s != "" && !IsWhitespace(s[0]) ==> TrimEnd(s) != ""
  {
    if s != "" && IsWhitespace(s[|s| - 1]) {
      TrimEndPrefix(s[..|s| - 1]);
    }
  }

  lemma NotBlank(s: string)
    requires s != "" && !IsWhitespace(s[0])
    ensures !Blank(s)
  {
    TrimEndPrefix(s);
  }

  lemma TrimIdempotent(s: string)
    ensures Trim(Trim(s)) == Trim(s)
  {
    TrimEndPrefix(TrimStart(s));
  }

  predicate MatchesAt(s: string, pat: string, i: nat) {
    i + |pat| <= |s| && s[i..i + |pat|] == pat
  }

  function FindFrom(s: string, pat: string, i: nat): (r: Option<nat>)
    requires i <= |s|
    ensures r.Some? ==> r.value + |pat| <= |s|
    decreases |s| - i
  {
    if MatchesAt(s, pat, i) then Some(i)
    else if i == |s| then None
    else FindFrom(s, pat, i + 1)
  }

  /** `str::find`: the first position at which `pat` occurs. */
  function Find(s: string, pat: string): (r: Option<nat>)
    ensures r.Some? ==> r.value + |pat| <= |s|
  {
    FindFrom(s, pat, 0)
  }

  lemma {:induction false} FindFromSpec(s: string, pat: string, i: nat)
    requires i <= |s|
    ensures var r := FindFrom(s, pat, i);
            match r
            case Some(k) => i <= k && MatchesAt(s, pat, k) && forall j: nat :: i <= j < k ==> !MatchesAt(s, pat, j)
            case None => forall j: nat :: i <= j ==> !MatchesAt(s, pat, j)
    decreases |s| - i
  {
    if !MatchesAt(s, pat, i) && i < |s| {
      FindFromSpec(s, pat, i + 1);
    }
  }

  /** What `Find` returns is a match, and no earlier position is one. */
  lemma FindSpec(s: string, pat: string)
    ensures match Find(s, pat)
            case Some(k) => MatchesAt(s, pat, k) && forall j: nat :: j < k ==> !MatchesAt(s, pat, j)
            case None => forall j: nat :: !MatchesAt(s, pat, j)
  {
    FindFromSpec(s, pat, 0);
  }

  lemma FindUnique(s: string, pat: string, i: nat)
    requires MatchesAt(s, pat, i)
    requires forall j: nat :: j < i ==> !MatchesAt(s, pat, j)
    ensures Find(s, pat) == Some(i)
  {
    FindSpec(s, pat);
  }

  lemma FindNone(s: string, pat: string)
    requires forall j: nat :: !MatchesAt(s, pat, j)
    ensures Find(s, pat) == None
  {
    FindSpec(s, pat);
  }

  /** Matching looks only at the characters it compares. */
  lemma MatchesAtPointwise(s: string, pat: string, i: nat)
    ensures MatchesAt(s, pat, i) <==> i + |pat| <= |s| && forall k :: 0 <= k < |pat| ==> s[i + k] == pat[k]
  {
    if i + |pat| <= |s| {
      if forall k :: 0 <= k < |pat| ==> s[i + k] == pat[k] {
        assert s[i..i + |pat|] == pat;
      } else {
        var k :| 0 <= k < |pat| && s[i + k] != pat[k];
        assert s[i..i + |pat|][k] != pat[k];
      }
    }
  }

  function Concat(parts: seq<string>): string {
    if parts == [] then "" else Concat(parts[..|parts| - 1]) + parts[|parts| - 1]
  }

  lemma {:induction false} ConcatAppend(a: seq<string>, b: seq<string>)
    ensures Concat(a + b) == Concat(a) + Concat(b)
  {
    if b == [] {
      assert a + b == a;
    } else {
      ConcatAppend(a, b[..|b| - 1]);
      InitOfConcat(a, b);
      Assoc(Concat(a), Concat(b[..|b| - 1]), b[|b| - 1]);
    }
  }

  function Join(parts: seq<string>, sep: string): string {
    if parts == [] then ""
    else if |parts| == 1 then parts[0]
    else parts[0] + sep + Join(parts[1..], sep)
  }

  /** Decimal digits, as `format!("{}")` prints an integer. */
  function Decimal(n: int): (r: string)
    ensures r != ""
    decreases n < 0, if n < 0 then -n else n
  {
    if n < 0 then "-" + Decimal(-n)
    else if n < 10 then [Digit(n)]
    else Decimal(n / 10) + [Digit(n % 10)]
  }

  function Digit(d: int): char
    requires 0 <= d < 10
  {
    '0' + d as char
  }

  lemma {:induction false} DecimalHead(n: int)
    ensures n < 0 ==> Decimal(n)[0] == '-'
    ensures n >= 0 ==> '0' <= Decimal(n)[0] <= '9'
    decreases n < 0, if n < 0 then -n else n
  {
    if n >= 10 {
      DecimalHead(n / 10);
      assert Decimal(n)[0] == Decimal(n / 10)[0];
    }
  }

  /** Different integers print differently. */
  lemma {:induction false} DecimalInjective(a: int, b: int)
    requires Decimal(a) == Decimal(b)
    ensures a == b
    decreases a < 0, if a < 0 then -a else a
  {
    DecimalHead(a);
    DecimalHead(b);
    if a < 0 {
      assert Decimal(a)[1..] == Decimal(-a) && Decimal(b)[1..] == Decimal(-b);
      DecimalInjective(-a, -b);
    } else if a >= 10 || b >= 10 {
      var s := Decimal(a);
      if a >= 10 && b >= 10 {
        assert s[..|s| - 1] == Decimal(a / 10) && s[|s| - 1] == Digit(a % 10);
        assert Decimal(b)[..|s| - 1] == Decimal(b / 10) && s[|s| - 1] == Digit(b % 10);
        DecimalInjective(a / 10, b / 10);
        assert a % 10 == b % 10;
      }
    } else {
      assert Decimal(a)[0] == Digit(a) && Decimal(b)[0] == Digit(b);
    }
  }
}
