/** Outcomes, errors and the ordered-map iteration that the other modules share. */
module Common {

  datatype Option<+T> = None | Some(value: T) {
    function GetOr(default: T): T {
      match this
      case Some(v) => v
      case None => default
    }

    function OrElse(other: Option<T>): Option<T> {
      if Some? then this else other
    }
  }

  /** The error enum of `santi-core`, without the message texts of internal failures. */
  datatype Error =
    | NotFound(resource: string)
    | Busy
    | InvalidInput(message: string)
    | Upstream(message: string)
    | Internal(message: string)

  datatype Result<+T> = Ok(value: T) | Err(error: Error) {
    predicate IsFailure() {
      Err?
    }

    function PropagateFailure<U>(): Result<U>
      requires Err?
    {
      Err(error)
    }

    function Extract(): T
      requires Ok?
    {
      value
    }
  }

  lemma Assoc<T>(a: seq<T>, b: seq<T>, c: seq<T>)
    ensures (a + b) + c == a + (b + c)
  {
  }

  /** The last element of a concatenation, and what comes before it. */
  lemma InitOfConcat<T>(a: seq<T>, b: seq<T>)
    requires b != []
    ensures |a + b| > 0
    ensures (a + b)[..|a + b| - 1] == a + b[..|b| - 1]
    ensures (a + b)[|a + b| - 1] == b[|b| - 1]
  {
  }

  lemma SliceLeft<T>(a: seq<T>, b: seq<T>, n: nat)
    requires n <= |a|
    ensures (a + b)[..n] == a[..n] && (a + b)[n..] == a[n..] + b
  {
  }

  lemma SliceRight<T>(a: seq<T>, b: seq<T>, n: nat, k: nat)
    requires n == |a| + k && k <= |b|
    ensures (a + b)[..n] == a + b[..k] && (a + b)[n..] == b[k..]
  {
  }

  /** Keys strictly ascending: the order in which a `BTreeMap` is iterated. */
  ghost predicate StrictlyAscending(s: seq<int>) {
    forall i, j :: 0 <= i < j < |s| ==> s[i] < s[j]
  }

  ghost predicate IsLeast(keys: set<nat>, m: nat) {
    m in keys && forall k :: k in keys ==> m <= k
  }

  lemma LeastExists(keys: set<nat>)
    requires keys != {}
    ensures exists m: nat :: IsLeast(keys, m)
  {
    var k :| k in keys;
    var rest := keys - {k};
    var least := k;
    if rest != {} {
      LeastExists(rest);
      var m :| IsLeast(rest, m);
      least := if k <= m then k else m;
    }
    forall j | j in keys ensures least <= j {
      assert j == k || j in rest;
    }
    assert IsLeast(keys, least);
  }

  /** The keys of an ordered map, in iteration order. */
  ghost function Ascending(keys: set<nat>): (r: seq<nat>)
    ensures StrictlyAscending(r)
    ensures |r| == |keys|
    ensures forall k :: k in r <==> k in keys
  {
    if keys == {} then [] else
      LeastExists(keys);
      var m :| IsLeast(keys, m);
      [m] + Ascending(keys - {m})
  }

  /** Two ascending sequences of the same keys are equal: iteration order carries no choice. */
  lemma {:induction false} AscendingUnique(s: seq<int>, t: seq<int>)
    requires StrictlyAscending(s) && StrictlyAscending(t)
    requires forall k :: k in s <==> k in t
    ensures s == t
  {
    assert s != [] ==> s[0] in s;
    assert t != [] ==> t[0] in t;
    if s != [] && t != [] {
      var i :| 0 <= i < |t| && t[i] == s[0];
      var j :| 0 <= j < |s| && s[j] == t[0];
      assert s[0] == t[0];
      forall k ensures k in s[1..] <==> k in t[1..] {
        if k in s[1..] { assert k in s && k != s[0]; }
        if k in t[1..] { assert k in t && k != t[0]; }
      }
      AscendingUnique(s[1..], t[1..]);
    }
  }
}
