/** The lock set shared by all requests, and the bounded retry around it. */
module VolumeLocks {

  const MAX_RETRIES := 5

  class VolumeLocks {
    var locks: set<string>

    constructor ()
      ensures locks == {}
    {
      locks := {};
    }

    /** Of any number of callers that find a key free, the first takes it. */
    method TryAcquire(key: string) returns (ok: bool)
      modifies this
      ensures ok <==> key !in old(locks)
      ensures locks == old(locks) + {key}
    {
      if key in locks {
        assert locks == locks + {key};
        return false;
      }
      locks := locks + {key};
      return true;
    }

    method Release(key: string)
      modifies this
      ensures locks == old(locks) - {key}
    {
      locks := locks - {key};
    }

    /**
     * acquireVolumeLock; `others` is what the lock set has become, by the doing of others, when a pause is over.
     * The key is taken at the first attempt that finds it free, and the set is otherwise as the others left it.
     */
    method Acquire(key: string, others: seq<set<string>>) returns (ok: bool)
      requires |others| == MAX_RETRIES - 1
      modifies this
      ensures var seen := [old(locks)] + others;
              ok <==> exists i :: 0 <= i < MAX_RETRIES && key !in seen[i]
      ensures var seen := [old(locks)] + others;
              if ok
              then exists i :: 0 <= i < MAX_RETRIES && key !in seen[i] && locks == seen[i] + {key}
                               && forall j | 0 <= j < i :: key in seen[j]
              else locks == seen[MAX_RETRIES - 1]
    {
      ghost var seen := [locks] + others;
      var attempt := 0;
      while attempt < MAX_RETRIES
        invariant 0 <= attempt <= MAX_RETRIES
        invariant locks == seen[if attempt < MAX_RETRIES then attempt else MAX_RETRIES - 1]
        invariant forall j | 0 <= j < attempt :: key in seen[j]
      {
        ok := TryAcquire(key);
        if ok {
          return;
        }
        assert locks == seen[attempt];
        if attempt < MAX_RETRIES - 1 {
          locks := others[attempt];
        }
        attempt := attempt + 1;
      }
      return false;
    }
  }
}
