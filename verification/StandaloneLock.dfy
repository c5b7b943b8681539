/** The lock of the standalone service: a set of held keys. */
module StandaloneLock {
  import opened Common

  function LockKey(sessionId: string): string {
    "lock:session_send:" + sessionId
  }

  lemma LockKeyInjective(a: string, b: string)
    requires LockKey(a) == LockKey(b)
    ensures a == b
  {
    SliceRight("lock:session_send:", a, 18, 0);
    SliceRight("lock:session_send:", b, 18, 0);
    assert a[0..] == a && b[0..] == b;
  }

  class InProcessLock {
    var held: set<string>

    constructor ()
      ensures held == {}
    {
      held := {};
    }

    /** A key is granted to one holder at a time. */
    method Acquire(key: string) returns (busy: bool)
      modifies this
      ensures busy <==> key in old(held)
      ensures held == old(held) + {key}
    {
      if key in held {
        return true;
      }
      held := held + {key};
      return false;
    }

    method Release(key: string)
      modifies this
      ensures held == old(held) - {key}
    {
      held := held - {key};
    }
  }
}
