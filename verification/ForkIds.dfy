/**
 When two fork requests derive one child: the hash input joins its fields with colons, and a
 session id may contain colons itself.
 */
module ForkIds {
  import opened Common
  import opened Text
  import opened StandaloneDb
  import opened SoulRuntime
  import opened StandaloneLock
  import opened ForkService

  lemma {:induction false} NoColon(n: int)
    ensures ':' !in Decimal(n)
    decreases n < 0, if n < 0 then -n else n
  {
    if n < 0 {
      NoColon(-n);
    } else if n >= 10 {
      NoColon(n / 10);
    }
  }

  /** The longer of two heads of one text begins with the shorter. */
  lemma Heads(a: string, x: string, b: string, y: string)
    requires a + x == b + y && |a| >= |b|
    ensures b <= a && a[|b|..] + x == y
  {
    assert b == (b + y)[..|b|] == (a + x)[..|b|] == a[..|b|];
    SliceLeft(a, x, |b|);
    SliceRight(b, y, |b|, 0);
  }

  /** A text is cut at its first colon in one way only. */
  lemma FirstColon(a: string, x: string, b: string, y: string)
    requires ':' !in a && ':' !in b && a + (":" + x) == b + (":" + y)
    ensures a == b && x == y
  {
    if |a| < |b| {
      FirstColonShorter(b, y, a, x);
    } else if |b| < |a| {
      FirstColonShorter(a, x, b, y);
    } else {
      Heads(a, ":" + x, b, ":" + y);
      assert (":" + x)[1..] == x && (":" + y)[1..] == y && a[|b|..] + (":" + x) == ":" + x;
    }
  }

  /** And at its last colon. */
  lemma LastColon(a: string, x: string, b: string, y: string)
    requires ':' !in x && ':' !in y && a + ":" + x == b + ":" + y
    ensures a == b && x == y
  {
    if |a| < |b| {
      ColonAfter(a, x, b, y);
    } else if |b| < |a| {
      ColonAfter(b, y, a, x);
    } else {
      var s := a + ":" + x;
      assert a == s[..|a|] == b && x == s[|a| + 1..] == y;
    }
  }

  lemma ColonAfter(a: string, x: string, b: string, y: string)
    requires |a| < |b| && a + ":" + x == b + ":" + y
    ensures ':' in x
  {
    var s := a + ":" + x;
    assert s[|b|] == ':' && s[|b|] == x[|b| - |a| - 1];
  }

  lemma FirstColonShorter(a: string, x: string, b: string, y: string)
    requires |b| < |a| && a + (":" + x) == b + (":" + y)
    ensures ':' in a
  {
    assert (b + (":" + y))[|b|] == ':' && (a + (":" + x))[|b|] == a[|b|];
  }

  /** The hash input after its fixed beginning: parent, colon, and then `Tail`. */
  function Tail(r: ForkRequest): string {
    Decimal(r.forkPoint) + (":" + r.requestId)
  }

  lemma InputIs(r: ForkRequest)
    ensures HashInput(r) == "santi_fork:" + (r.parentSession + (":" + Tail(r)))
  {
    hide Decimal;
    var p, d := r.parentSession, Decimal(r.forkPoint);
    assert "santi_fork:" + p + ":" + d + ":" + r.requestId == "santi_fork:" + (p + (":" + (d + (":" + r.requestId))));
  }

  lemma SameInput(a: ForkRequest, b: ForkRequest)
    ensures HashInput(a) == HashInput(b) <==>
            a.parentSession + (":" + Tail(a)) == b.parentSession + (":" + Tail(b))
  {
    hide HashInput, Tail;
    InputIs(a);
    InputIs(b);
    var x, y := a.parentSession + (":" + Tail(a)), b.parentSession + (":" + Tail(b));
    if "santi_fork:" + x == "santi_fork:" + y { Heads("santi_fork:", x, "santi_fork:", y); }
  }

  lemma SameTail(a: ForkRequest, b: ForkRequest)
    requires Tail(a) == Tail(b)
    ensures a.forkPoint == b.forkPoint && a.requestId == b.requestId
  {
    hide Decimal;
    NoColon(a.forkPoint);
    NoColon(b.forkPoint);
    FirstColon(Decimal(a.forkPoint), a.requestId, Decimal(b.forkPoint), b.requestId);
    DecimalInjective(a.forkPoint, b.forkPoint);
  }

  /** With one parent, or with colons in neither parent, the hash input tells all requests apart. */
  lemma {:induction false} InputsDifferWithoutColons(a: ForkRequest, b: ForkRequest)
    requires a.parentSession == b.parentSession || (':' !in a.parentSession && ':' !in b.parentSession)
    ensures HashInput(a) == HashInput(b) <==> a == b
  {
    hide HashInput, Tail;
    SameInput(a, b);
    if HashInput(a) == HashInput(b) {
      if a.parentSession == b.parentSession {
        Heads(a.parentSession, ":" + Tail(a), b.parentSession, ":" + Tail(b));
        DropColon(Tail(a), Tail(b), a.parentSession);
      } else {
        FirstColon(a.parentSession, Tail(a), b.parentSession, Tail(b));
      }
      SameTail(a, b);
    }
  }

  lemma DropColon(x: string, y: string, p: string)
    requires p + (":" + x) == p + (":" + y)
    ensures x == y
  {
    assert x == (p + (":" + x))[|p| + 1..] && y == (p + (":" + y))[|p| + 1..];
  }

  /** `longer` is `shorter`, a colon and the fork point, and then ends or goes on with a colon. */
  predicate GoesOn(longer: string, shorter: string, forkPoint: int) {
    var p := shorter + (":" + Decimal(forkPoint));
    p <= longer && (|longer| == |p| || longer[|p|] == ':')
  }

  lemma {:induction false} CollidingParents(a: ForkRequest, b: ForkRequest)
    requires HashInput(a) == HashInput(b) && |a.parentSession| > |b.parentSession|
    ensures GoesOn(a.parentSession, b.parentSession, b.forkPoint)
  {
    hide HashInput, Decimal;
    SameInput(a, b);
    Heads(a.parentSession, ":" + Tail(a), b.parentSession, ":" + Tail(b));
    var rest, d := a.parentSession[|b.parentSession|..], Decimal(b.forkPoint);
    assert rest[0] == (rest + (":" + Tail(a)))[0] == ':';
    var t := rest[1..];
    assert rest == ":" + t;
    Assoc(":", t, ":" + Tail(a));
    DropColon(t + (":" + Tail(a)), Tail(b), "");
    NoColon(b.forkPoint);
    if |t| < |d| {
      FirstColonShorter(d, b.requestId, t, Tail(a));
    }
    Heads(t, ":" + Tail(a), d, ":" + b.requestId);
    if |t| > |d| {
      assert (t[|d|..] + (":" + Tail(a)))[0] == t[|d|];
    }
    assert a.parentSession == b.parentSession + (":" + t);
  }

  /** The request id with which the shorter parent reaches the longer one's input. */
  lemma {:induction false} Absorbs(a: ForkRequest, parent: string, forkPoint: int) returns (requestId: string)
    requires GoesOn(a.parentSession, parent, forkPoint)
    ensures HashInput(ForkRequest(parent, forkPoint, requestId)) == HashInput(a)
  {
    hide HashInput, Decimal;
    var p := parent + (":" + Decimal(forkPoint));
    var long := a.parentSession;
    assert long == p + long[|p|..];
    if |long| == |p| {
      requestId := Tail(a);
    } else {
      requestId := long[|p| + 1..] + (":" + Tail(a));
      assert long == p + (":" + long[|p| + 1..]);
    }
    var b := ForkRequest(parent, forkPoint, requestId);
    assert b.parentSession + (":" + Tail(b)) == p + (":" + requestId);
    assert a.parentSession + (":" + Tail(a)) == p + (":" + requestId);
    SameInput(a, b);
  }

  ghost predicate CanCollide(a: string, forkPointA: int, b: string, forkPointB: int) {
    exists x: string, y: string :: HashInput(ForkRequest(a, forkPointA, x)) == HashInput(ForkRequest(b, forkPointB, y))
  }

  /**
   Requests on two different parents can derive one child, under every hash, exactly when one parent
   is the other followed by a colon and the other's fork point, and then ends or goes on with a colon.
   */
  lemma {:induction false} ParentsCollideIff(a: string, forkPointA: int, b: string, forkPointB: int)
    requires a != b
    ensures CanCollide(a, forkPointA, b, forkPointB) <==> GoesOn(a, b, forkPointB) || GoesOn(b, a, forkPointA)
  {
    hide HashInput, GoesOn;
    if CanCollide(a, forkPointA, b, forkPointB) {
      var x, y :| HashInput(ForkRequest(a, forkPointA, x)) == HashInput(ForkRequest(b, forkPointB, y));
      SameInput(ForkRequest(a, forkPointA, x), ForkRequest(b, forkPointB, y));
      if |a| == |b| {
        Heads(a, ":" + Tail(ForkRequest(a, forkPointA, x)), b, ":" + Tail(ForkRequest(b, forkPointB, y)));
      } else if |a| > |b| {
        CollidingParents(ForkRequest(a, forkPointA, x), ForkRequest(b, forkPointB, y));
      } else {
        CollidingParents(ForkRequest(b, forkPointB, y), ForkRequest(a, forkPointA, x));
      }
    }
    if GoesOn(a, b, forkPointB) {
      var y := Absorbs(ForkRequest(a, forkPointA, ""), b, forkPointB);
    }
    if GoesOn(b, a, forkPointA) {
      var x := Absorbs(ForkRequest(b, forkPointB, ""), a, forkPointA);
    }
  }

  /**
   What a collision does: once the child is one request's, another request that derives the same id
   with another parent or fork point is refused; no table changes and the key is given back.
   */
  lemma {:induction false} CollisionIsRefused(db: Db, held: set<string>, uuid5: string -> string, a: ForkRequest,
      b: ForkRequest,
      generated: Generated)
    requires Consistent(db) && ChildOf(db, uuid5, a) && ChildSession(uuid5, a) == ChildSession(uuid5, b)
    requires a.parentSession != b.parentSession || a.forkPoint != b.forkPoint
    requires b.parentSession in db.bySession && LockKey(b.parentSession) !in held
    ensures ForkSession(db, held, uuid5, b, generated) ==
            (db, held, ForkFailed(ForkInternal("existing fork session id collided with incompatible lineage")))
  {
    hide Dense, CallsOnce, ChildSession, LockKey, SoulForked, Decimal;
    if ChildOf(db, uuid5, b) { OneLineageForEachChild(db, uuid5, a, b); }
  }
}
